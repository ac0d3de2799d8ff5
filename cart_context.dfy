/** The client-side cart of `CartContext.js`: a sequence of lines keyed by the
    product's `_id`, each carrying a snapshot of the product and a quantity,
    mirrored into the browser storage slot `cart` after every change.

    The next-array computations (`find`/`map`/`filter`/spread) are functions;
    the provider that holds the lines, the derived count and the storage slot
    is the class `CartStore`. */
module CartContext {
  import opened Wrappers

  type ProductId = string

  /** A price as the client holds it, in integer cents, or a value that is not a
      number (a product record without a usable price). */
  datatype Amount = Cents(cents: int) | NotANumber

  /** The product object the client received from the catalogue listing. */
  datatype Product = Product(
    id: ProductId,
    title: string,
    description: string,
    price: Amount,
    imageUrl: string,
    createdAt: string)

  /** `{ ...product, quantity }`: the product snapshot taken when it was added. */
  datatype Line = Line(product: Product, quantity: int)

  /** There is a line for `id`. */
  predicate Has(items: seq<Line>, id: ProductId) {
    exists i :: 0 <= i < |items| && items[i].product.id == id
  }

  /** `items.find(item => item._id === id)`, as the index of the first match. */
  function IndexOf(items: seq<Line>, id: ProductId): (r: Option<nat>)
    ensures r.Some? ==> r.value < |items| && items[r.value].product.id == id
    ensures r.Some? ==> forall j :: 0 <= j < r.value ==> items[j].product.id != id
    ensures r.None? <==> !Has(items, id)
    decreases |items|
  {
    if items == [] then None
    else if items[0].product.id == id then Some(0)
    else
      match IndexOf(items[1..], id)
      case None =>
        assert forall i :: 1 <= i < |items| ==> items[i] == items[1..][i - 1];
        None
      case Some(k) => Some(k + 1)
  }

  /** The cart invariant every operation keeps: one line per product id, and
      every quantity at least 1. */
  predicate WellFormed(items: seq<Line>) {
    && (forall i, j :: 0 <= i < j < |items| ==> items[i].product.id != items[j].product.id)
    && (forall i :: 0 <= i < |items| ==> items[i].quantity >= 1)
  }

  /** `cartCount`: the sum of the line quantities (`reduce` from 0). */
  function Count(items: seq<Line>): int
    decreases |items|
  {
    if items == [] then 0 else items[0].quantity + Count(items[1..])
  }

  /** `addToCart`: an existing line gains one unit, otherwise a new line with
      quantity 1 is appended. */
  function AddedTo(items: seq<Line>, p: Product): (r: seq<Line>)
    ensures Has(items, p.id) ==> |r| == |items|
    ensures Has(items, p.id) ==>
      forall i :: 0 <= i < |items| ==>
        r[i].product == items[i].product
        && r[i].quantity == items[i].quantity + (if items[i].product.id == p.id then 1 else 0)
    ensures !Has(items, p.id) ==> r == items + [Line(p, 1)]
  {
    if IndexOf(items, p.id).Some? then
      seq(|items|, i requires 0 <= i < |items| =>
        if items[i].product.id == p.id then items[i].(quantity := items[i].quantity + 1) else items[i])
    else
      items + [Line(p, 1)]
  }

  /** `removeFromCart`: the lines whose id differs, in their order. */
  function Removed(items: seq<Line>, id: ProductId): (r: seq<Line>)
    ensures |r| <= |items|
    ensures forall i :: 0 <= i < |r| ==> r[i].product.id != id
    decreases |items|
  {
    if items == [] then []
    else
      var rest := Removed(items[1..], id);
      if items[0].product.id == id then rest else [items[0]] + rest
  }

  /** The `map` branch of `updateQuantity`: the quantity of the lines for `id`
      replaced by `q`. */
  function WithQuantity(items: seq<Line>, id: ProductId, q: int): (r: seq<Line>)
    ensures |r| == |items|
    ensures forall i :: 0 <= i < |items| ==>
      r[i].product == items[i].product
      && r[i].quantity == if items[i].product.id == id then q else items[i].quantity
  {
    seq(|items|, i requires 0 <= i < |items| =>
      if items[i].product.id == id then items[i].(quantity := q) else items[i])
  }

  /** `updateQuantity`: a quantity of zero or less removes the line. */
  function UpdatedQuantity(items: seq<Line>, id: ProductId, q: int): (r: seq<Line>)
    ensures q <= 0 ==> !Has(r, id) && |r| <= |items|
    ensures q > 0 ==> |r| == |items| && forall i :: 0 <= i < |items| ==> r[i].product == items[i].product
  {
    if q <= 0 then Removed(items, id) else WithQuantity(items, id, q)
  }

  // ---------------------------------------------------------------------------
  // Properties of the cart operations

  lemma {:induction false} CountAppend(a: seq<Line>, b: seq<Line>)
    ensures Count(a + b) == Count(a) + Count(b)
    decreases |a|
  {
    if a == [] {
      assert a + b == b;
    } else {
      assert (a + b)[1..] == a[1..] + b;
      CountAppend(a[1..], b);
    }
  }

  /** Two carts that differ only in the quantity of line `k` differ in count by
      exactly that difference. */
  lemma {:induction false} CountChangeAt(a: seq<Line>, b: seq<Line>, k: nat)
    requires |a| == |b| && k < |a|
    requires forall i :: 0 <= i < |a| && i != k ==> a[i].quantity == b[i].quantity
    ensures Count(b) == Count(a) - a[k].quantity + b[k].quantity
    decreases |a|
  {
    if k > 0 {
      CountChangeAt(a[1..], b[1..], k - 1);
    } else {
      CountSameQuantities(a[1..], b[1..]);
    }
  }

  lemma {:induction false} CountSameQuantities(a: seq<Line>, b: seq<Line>)
    requires |a| == |b|
    requires forall i :: 0 <= i < |a| ==> a[i].quantity == b[i].quantity
    ensures Count(b) == Count(a)
    decreases |a|
  {
    if a != [] {
      CountSameQuantities(a[1..], b[1..]);
    }
  }

  /** The tail of a well-formed cart is well formed. */
  lemma WellFormedTail(items: seq<Line>)
    requires WellFormed(items) && items != []
    ensures WellFormed(items[1..])
  {
    forall i, j | 0 <= i < j < |items| - 1
      ensures items[1..][i].product.id != items[1..][j].product.id
    {
      assert items[1..][i] == items[i + 1] && items[1..][j] == items[j + 1];
    }
  }

  /** In a well-formed cart the line for `id` is unique, so removing it is the
      same as cutting that one line out, keeping the others in their order. */
  lemma {:induction false} RemovedCutsOut(items: seq<Line>, id: ProductId, k: nat)
    requires WellFormed(items)
    requires k < |items| && items[k].product.id == id
    ensures Removed(items, id) == items[..k] + items[k + 1..]
    decreases |items|
  {
    if k == 0 {
      assert !Has(items[1..], id) by {
        forall i | 0 <= i < |items| - 1 ensures items[1..][i].product.id != id {
          assert items[1..][i] == items[i + 1];
        }
      }
      RemovedAbsent(items[1..], id);
      assert Removed(items, id) == Removed(items[1..], id);
      assert items[1..] == items[..0] + items[1..];
    } else {
      assert items[0].product.id != id;
      WellFormedTail(items);
      RemovedCutsOut(items[1..], id, k - 1);
      assert Removed(items, id) == [items[0]] + Removed(items[1..], id);
      assert items[..k] == [items[0]] + items[1..][..k - 1];
      assert items[k + 1..] == items[1..][k..];
    }
  }

  /** Removing an id that has no line leaves the cart as it was. */
  lemma {:induction false} RemovedAbsent(items: seq<Line>, id: ProductId)
    requires !Has(items, id)
    ensures Removed(items, id) == items
    decreases |items|
  {
    if items != [] {
      assert !Has(items[1..], id) by {
        forall i | 0 <= i < |items[1..]| ensures items[1..][i].product.id != id {
          assert items[1..][i] == items[i + 1];
        }
      }
      RemovedAbsent(items[1..], id);
      assert items == [items[0]] + items[1..];
    }
  }

  /** Adding raises the item count by exactly one, whether the product was in
      the cart or not. */
  lemma AddedToCount(items: seq<Line>, p: Product)
    requires WellFormed(items)
    ensures Count(AddedTo(items, p)) == Count(items) + 1
  {
    var r := AddedTo(items, p);
    match IndexOf(items, p.id)
    case Some(k) =>
      CountChangeAt(items, r, k);
    case None =>
      CountAppend(items, [Line(p, 1)]);
  }

  /** In a well-formed cart, adding a product that line `k` holds raises that
      line's quantity by one and leaves every other line as it was. */
  lemma AddedToExisting(items: seq<Line>, p: Product, k: nat)
    requires WellFormed(items) && k < |items| && items[k].product.id == p.id
    ensures |AddedTo(items, p)| == |items|
    ensures AddedTo(items, p)[k] == items[k].(quantity := items[k].quantity + 1)
    ensures forall i :: 0 <= i < |items| && i != k ==> AddedTo(items, p)[i] == items[i]
  {
    assert Has(items, p.id);
    var r := AddedTo(items, p);
    forall i | 0 <= i < |items| && i != k ensures r[i] == items[i] {
      if i < k {
        assert items[i].product.id != items[k].product.id;
      } else {
        assert items[k].product.id != items[i].product.id;
      }
    }
  }

  /** Adding keeps the cart well formed. */
  lemma AddedToWellFormed(items: seq<Line>, p: Product)
    requires WellFormed(items)
    ensures WellFormed(AddedTo(items, p))
  {
  }

  /** Removing keeps the cart well formed. */
  lemma RemovedWellFormed(items: seq<Line>, id: ProductId)
    requires WellFormed(items)
    ensures WellFormed(Removed(items, id))
  {
    match IndexOf(items, id)
    case None =>
      RemovedAbsent(items, id);
    case Some(k) =>
      RemovedCutsOut(items, id, k);
      CutOutWellFormed(items, k);
  }

  /** Cutting one line out of a well-formed cart leaves it well formed. */
  lemma CutOutWellFormed(items: seq<Line>, k: nat)
    requires WellFormed(items) && k < |items|
    ensures WellFormed(items[..k] + items[k + 1..])
  {
    var r := items[..k] + items[k + 1..];
    assert forall i :: 0 <= i < |r| ==> r[i] == items[if i < k then i else i + 1];
  }

  /** Removing the line for `id` lowers the count by that line's quantity. */
  lemma RemovedCount(items: seq<Line>, id: ProductId)
    requires WellFormed(items)
    ensures Count(Removed(items, id)) == Count(items) - (match IndexOf(items, id) case Some(k) => items[k].quantity case None => 0)
  {
    match IndexOf(items, id)
    case Some(k) =>
      RemovedCutsOut(items, id, k);
      var front, back := items[..k], items[k + 1..];
      assert items == front + ([items[k]] + back);
      CountAppend(front, [items[k]] + back);
      assert ([items[k]] + back)[1..] == back;
      CountAppend(front, back);
    case None =>
      RemovedAbsent(items, id);
  }

  /** A positive quantity replaces that line's quantity and nothing else: the
      count moves by the difference, and an unknown id changes nothing. */
  lemma WithQuantityCount(items: seq<Line>, id: ProductId, q: int)
    requires WellFormed(items) && q >= 1
    ensures WellFormed(WithQuantity(items, id, q))
    ensures !Has(items, id) ==> WithQuantity(items, id, q) == items
    ensures Count(WithQuantity(items, id, q)) == Count(items) - (match IndexOf(items, id) case Some(k) => items[k].quantity - q case None => 0)
  {
    var r := WithQuantity(items, id, q);
    match IndexOf(items, id)
    case Some(k) =>
      CountChangeAt(items, r, k);
    case None =>
      assert r == items;
  }

  /** `updateQuantity` keeps the cart well formed. */
  lemma UpdatedQuantityWellFormed(items: seq<Line>, id: ProductId, q: int)
    requires WellFormed(items)
    ensures WellFormed(UpdatedQuantity(items, id, q))
  {
    if q <= 0 { RemovedWellFormed(items, id); } else { WithQuantityCount(items, id, q); }
  }

  /** In a well-formed cart the count is at least the number of lines. */
  lemma {:induction false} CountAtLeastLines(items: seq<Line>)
    requires forall i :: 0 <= i < |items| ==> items[i].quantity >= 1
    ensures Count(items) >= |items|
    decreases |items|
  {
    if items != [] {
      CountAtLeastLines(items[1..]);
    }
  }

  // ---------------------------------------------------------------------------
  // The provider's state

  /** The content of the storage slot `cart`: nothing (or an empty string), a
      JSON text that parses to a list of lines, or a text that does not parse. */
  datatype Slot = Missing | Stored(lines: seq<Line>) | Unparsable

  /** `CartProvider`: the state `cartItems` and `cartCount` and the storage slot
      they are mirrored into. */
  class CartStore {
    var items: seq<Line>
    var count: int
    var slot: Slot

    /** After every change has been saved: the count is the sum of the
        quantities and the slot holds the lines. */
    ghost predicate Valid()
      reads this
    {
      count == Count(items) && slot == Stored(items)
    }

    /** Mounting the provider over the slot `saved`: the load effect restores a
        parsable slot verbatim and ignores anything else, then the save effect
        writes the resulting lines back. */
    constructor Load(saved: Slot)
      ensures Valid()
      ensures items == (if saved.Stored? then saved.lines else [])
    {
      items := if saved.Stored? then saved.lines else [];
      count := 0;
      slot := saved;
      new;
      Save();
    }

    /** The save effect: `localStorage.setItem('cart', ...)` then
        `updateCartCount`. */
    method Save()
      modifies this
      ensures Valid() && items == old(items)
    {
      slot := Stored(items);
      count := Count(items);
    }

    method AddToCart(p: Product)
      requires Valid()
      modifies this
      ensures Valid()
      ensures items == AddedTo(old(items), p)
      ensures WellFormed(old(items)) ==> WellFormed(items) && count == old(count) + 1
    {
      if WellFormed(items) {
        AddedToCount(items, p);
      }
      items := AddedTo(items, p);
      Save();
    }

    method RemoveFromCart(id: ProductId)
      requires Valid()
      modifies this
      ensures Valid()
      ensures items == Removed(old(items), id) && !Has(items, id)
      ensures WellFormed(old(items)) ==> WellFormed(items)
    {
      if WellFormed(items) {
        RemovedWellFormed(items, id);
      }
      items := Removed(items, id);
      Save();
    }

    method UpdateQuantity(id: ProductId, q: int)
      requires Valid()
      modifies this
      ensures Valid()
      ensures items == UpdatedQuantity(old(items), id, q)
      ensures q <= 0 ==> items == Removed(old(items), id)
      ensures q > 0 ==> items == WithQuantity(old(items), id, q)
      ensures WellFormed(old(items)) ==> WellFormed(items)
    {
      if q <= 0 {
        RemoveFromCart(id);
        return;
      }
      if WellFormed(items) {
        WithQuantityCount(items, id, q);
      }
      items := WithQuantity(items, id, q);
      Save();
    }

    method ClearCart()
      requires Valid()
      modifies this
      ensures Valid()
      ensures items == [] && count == 0 && slot == Stored([])
    {
      items := [];
      Save();
    }
  }
}
