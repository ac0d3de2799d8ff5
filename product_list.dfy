/** The integer and string rules of `ProductList.js`: the window of at most five
    page buttons, the previous/next clamps, when the bar is shown, description
    truncation and the file name taken from a stored image path. */
module ProductList {

  /** The most page buttons shown at once. */
  const WindowWidth: int := 5
  /** Descriptions longer than this are cut. */
  const DescriptionLimit: int := 100

  function Min(a: int, b: int): int { if a <= b then a else b }
  function Max(a: int, b: int): int { if a >= b then a else b }

  /** The first page number of the window: `i + 1` when there are at most five
      pages or the current page is within the first three, `totalPages - 4 + i`
      near the end, `currentPage - 2 + i` otherwise. */
  function WindowStart(current: int, totalPages: int): (r: int)
    ensures totalPages <= WindowWidth ==> r == 1
    ensures totalPages > WindowWidth ==> 1 <= r && r + WindowWidth - 1 <= totalPages
    ensures totalPages > WindowWidth && 1 <= current <= totalPages ==> r <= current <= r + WindowWidth - 1
  {
    if totalPages <= WindowWidth then 1
    else if current <= 3 then 1
    else if current >= totalPages - 2 then totalPages - 4
    else current - 2
  }

  /** The page numbers of the buttons: `Array.from` of length
      `Math.min(5, totalPages)` (a negative length gives no buttons). */
  function PageWindow(current: int, totalPages: int): (r: seq<int>)
    ensures |r| == Max(0, Min(WindowWidth, totalPages))
    ensures forall i :: 0 < i < |r| ==> r[i] == r[i - 1] + 1
    ensures totalPages >= 1 ==> forall i :: 0 <= i < |r| ==> 1 <= r[i] <= totalPages
    ensures 1 <= current <= totalPages ==> current in r
  {
    var n := Max(0, Min(WindowWidth, totalPages));
    var start := WindowStart(current, totalPages);
    var r := seq(n, i requires 0 <= i < n => start + i);
    assert 1 <= current <= totalPages ==> r[current - start] == current;
    r
  }

  /** The window is strictly increasing, so no page button is repeated. */
  lemma PageWindowIncreasing(current: int, totalPages: int, i: int, j: int)
    requires 0 <= i < j < |PageWindow(current, totalPages)|
    ensures PageWindow(current, totalPages)[i] < PageWindow(current, totalPages)[j]
  {
    var r := PageWindow(current, totalPages);
    var k := i;
    while k < j
      invariant i <= k <= j
      invariant r[i] + (k - i) == r[k]
    {
      k := k + 1;
    }
  }

  /** "Previous": `Math.max(prev - 1, 1)`. */
  function Previous(current: int): (r: int)
    ensures r >= 1
    ensures current > 1 ==> r == current - 1
    ensures current <= 1 ==> r == 1
  {
    Max(current - 1, 1)
  }

  /** "Next": `Math.min(prev + 1, totalPages)`. */
  function Next(current: int, totalPages: int): (r: int)
    ensures r <= totalPages
    ensures current < totalPages ==> r == current + 1
    ensures current >= totalPages ==> r == totalPages
  {
    Min(current + 1, totalPages)
  }

  /** Stepping either way from a page in range stays in range and moves by at
      most one page. */
  lemma StepsStayInRange(current: int, totalPages: int)
    requires 1 <= current <= totalPages
    ensures 1 <= Previous(current) <= totalPages && current - 1 <= Previous(current) <= current
    ensures 1 <= Next(current, totalPages) <= totalPages && current <= Next(current, totalPages) <= current + 1
  {
  }

  /** The bar is shown only when there is more than one page. */
  predicate ShowsPagination(totalPages: int) {
    totalPages > 1
  }

  /** The buttons are disabled on the first and on the last page. */
  predicate PreviousDisabled(current: int) { current == 1 }
  predicate NextDisabled(current: int, totalPages: int) { current == totalPages }

  /** A disabled button would not move anyway. */
  lemma DisabledButtonsDoNotMove(current: int, totalPages: int)
    ensures PreviousDisabled(current) ==> Previous(current) == current
    ensures NextDisabled(current, totalPages) ==> Next(current, totalPages) == current
  {
  }

  /** The description as shown: its first 100 characters followed by "..." when
      it is longer, verbatim otherwise. */
  function ShownDescription(d: string): (r: string)
    ensures |d| <= DescriptionLimit ==> r == d
    ensures |d| > DescriptionLimit ==> |r| == DescriptionLimit + 3
    ensures |r| <= DescriptionLimit + 3
    ensures |d| > DescriptionLimit ==> r[..DescriptionLimit] == d[..DescriptionLimit] && r[DescriptionLimit..] == "..."
  {
    if |d| > DescriptionLimit then d[..DescriptionLimit] + "..." else d
  }

  /** `s` ends with `r`. */
  predicate EndsWith(s: string, r: string) {
    |r| <= |s| && forall i :: 0 <= i < |r| ==> r[i] == s[|s| - |r| + i]
  }

  /** `s.split(sep).pop()`: what follows the last `sep`, or all of `s`. */
  function AfterLast(s: string, sep: char): (r: string)
    ensures EndsWith(s, r)
    ensures forall i :: 0 <= i < |r| ==> r[i] != sep
    ensures |r| == |s| || s[|s| - |r| - 1] == sep
    decreases |s|
  {
    if s == [] then []
    else if s[|s| - 1] == sep then []
    else AfterLast(s[..|s| - 1], sep) + [s[|s| - 1]]
  }

  /** The file name shown for a stored image path: what follows the last `\`,
      then what follows the last `/` of that. */
  function ImageName(path: string): (r: string)
    ensures EndsWith(path, r)
    ensures forall i :: 0 <= i < |r| ==> r[i] != '\\' && r[i] != '/'
    ensures |r| == |path| || path[|path| - |r| - 1] == '\\' || path[|path| - |r| - 1] == '/'
  {
    var a := AfterLast(path, '\\');
    var b := AfterLast(a, '/');
    assert forall i :: 0 <= i < |b| ==> b[i] == a[|a| - |b| + i];
    b
  }

  /** A path with no separator is its own file name. */
  lemma {:induction false} ImageNameOfPlainName(name: string)
    requires forall i :: 0 <= i < |name| ==> name[i] != '\\' && name[i] != '/'
    ensures ImageName(name) == name
  {
    AfterLastAbsent(name, '\\');
    AfterLastAbsent(name, '/');
  }

  lemma {:induction false} AfterLastAbsent(s: string, sep: char)
    requires forall i :: 0 <= i < |s| ==> s[i] != sep
    ensures AfterLast(s, sep) == s
    decreases |s|
  {
    if s != [] {
      AfterLastAbsent(s[..|s| - 1], sep);
      assert s[..|s| - 1] + [s[|s| - 1]] == s;
    }
  }
}
