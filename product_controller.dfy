/** `productController.js` over an abstract store: the records are a map from
    id to product, the uploaded images a set of file paths. Failures of the
    store write and of a file removal are inputs; a price is the result of
    `parseFloat` in cents, `None` standing for `NaN`. */
module ProductController {
  import opened Wrappers
  import opened Http

  type ProductId = string
  type Path = string

  datatype Product = Product(
    id: ProductId,
    title: string,
    description: string,
    price: int,
    imageUrl: Path,
    createdBy: UserId,
    createdAt: int)

  /** The fields a listing or a single read carries
      (`select('title description price imageUrl createdAt')`). */
  datatype View = View(id: ProductId, title: string, description: string, price: int, imageUrl: Path, createdAt: int)

  function ViewOf(p: Product): View {
    View(p.id, p.title, p.description, p.price, p.imageUrl, p.createdAt)
  }

  /** The body of a create or update reply: a message and five fields of the
      product, without `createdAt`. */
  datatype Saved = Saved(message: string, id: ProductId, title: string, description: string, price: int, imageUrl: Path)

  function SavedOf(message: string, p: Product): Saved {
    Saved(message, p.id, p.title, p.description, p.price, p.imageUrl)
  }

  const NoImageMessage := "Please upload a product image"
  const BadPriceMessage := "Please provide a valid price"
  const NotFoundMessage := "Product not found"
  const CreateErrorMessage := "Server error creating product"
  const UpdateErrorMessage := "Server error updating product"
  const DeleteErrorMessage := "Server error deleting product"
  const ListErrorMessage := "Server error fetching products"
  const FetchErrorMessage := "Server error fetching product"
  const RemovedMessage := "Product removed successfully"
  const CreatedMessage := "Product created successfully"
  const UpdatedMessage := "Product updated successfully"

  /** A parsed price the controller accepts: a number that is not negative. */
  predicate ValidPrice(price: Option<int>) {
    price.Some? && price.value >= 0
  }

  // ---------------------------------------------------------------------------
  // Listing

  /** `parseInt(req.query.page) || 1`: absent, non-numeric and zero give 1. */
  function PageParam(raw: Option<int>): (r: int)
    ensures r != 0
    ensures raw.Some? && raw.value != 0 ==> r == raw.value
    ensures raw.None? || raw.value == 0 ==> r == 1
  {
    if raw.Some? && raw.value != 0 then raw.value else 1
  }

  /** `parseInt(req.query.limit) || 10`: absent, non-numeric and zero give 10. */
  function LimitParam(raw: Option<int>): (r: int)
    ensures r != 0
    ensures raw.Some? && raw.value != 0 ==> r == raw.value
    ensures raw.None? || raw.value == 0 ==> r == 10
  {
    if raw.Some? && raw.value != 0 then raw.value else 10
  }

  /** `(page - 1) * limit`. */
  function SkipIndex(page: int, limit: int): int {
    (page - 1) * limit
  }

  /** `Math.ceil(total / limit)` for a limit that is not zero. */
  function CeilDiv(total: nat, limit: int): int
    requires limit != 0
  {
    if limit > 0 then (total + limit - 1) / limit else -(total / -limit)
  }

  /** With a positive limit, `totalPages` pages of `limit` items hold all
      `total` items and one page fewer does not. */
  lemma CeilDivBounds(total: nat, limit: int)
    requires limit > 0
    ensures CeilDiv(total, limit) >= 0
    ensures CeilDiv(total, limit) * limit >= total
    ensures total > 0 ==> (CeilDiv(total, limit) - 1) * limit < total
    ensures total == 0 <==> CeilDiv(total, limit) == 0
  {
    var q, m := (total + limit - 1) / limit, (total + limit - 1) % limit;
    assert total + limit - 1 == q * limit + m && 0 <= m < limit;
    assert (q - 1) * limit == q * limit - limit;
  }

  /** `totalPages` is the least number of pages of `limit` items that hold all
      `total` items. */
  lemma TotalPagesLeast(total: nat, limit: int, n: nat)
    requires limit > 0
    requires n * limit >= total
    ensures n >= CeilDiv(total, limit)
  {
    CeilDivBounds(total, limit);
  }

  /** Items in the order the store's sort returns them: newest first. */
  predicate NewestFirst(items: seq<View>) {
    forall i, j :: 0 <= i < j < |items| ==> items[i].createdAt >= items[j].createdAt
  }

  datatype Listing = Listing(products: seq<View>, currentPage: int, totalPages: int, totalProducts: nat)

  /** `.skip(skip).limit(take)` on the sorted answer. */
  function Window(ordered: seq<View>, skip: nat, take: nat): (r: seq<View>)
    ensures |r| <= take
    ensures skip + |r| <= |ordered| || r == []
    ensures forall i :: 0 <= i < |r| ==> skip + i < |ordered| && r[i] == ordered[skip + i]
    ensures |r| == if skip >= |ordered| then 0 else if skip + take <= |ordered| then take else |ordered| - skip
  {
    if skip >= |ordered| then []
    else if skip + take <= |ordered| then ordered[skip..skip + take]
    else ordered[skip..]
  }

  /** `getAllProducts`: `ordered` is the store's answer to the sort by
      `createdAt` descending and `readFails` says the store could not be read.
      The store also rejects a negative skip (the 500 path); a negative limit
      returns that many items counted without its sign. */
  function ListProducts(ordered: seq<View>, pageRaw: Option<int>, limitRaw: Option<int>, readFails: bool): (r: Reply<Listing>)
    ensures var page, limit := PageParam(pageRaw), LimitParam(limitRaw);
      var skip := SkipIndex(page, limit);
      && (r.Fail? <==> readFails || skip < 0)
      && (r.Fail? ==> r == Fail(500, ListErrorMessage))
      && (r.Ok? ==>
           && r.status == 200
           && r.value.currentPage == page
           && r.value.totalProducts == |ordered|
           && r.value.totalPages == CeilDiv(|ordered|, limit)
           && r.value.products == Window(ordered, skip, if limit > 0 then limit else -limit))
  {
    var page, limit := PageParam(pageRaw), LimitParam(limitRaw);
    var skip := SkipIndex(page, limit);
    if readFails || skip < 0 then Fail(500, ListErrorMessage)
    else Ok(200, Listing(Window(ordered, skip, if limit > 0 then limit else -limit), page, CeilDiv(|ordered|, limit), |ordered|))
  }

  /** Any window of a newest-first sequence is newest first. */
  lemma WindowNewestFirst(ordered: seq<View>, skip: nat, take: nat)
    requires NewestFirst(ordered)
    ensures NewestFirst(Window(ordered, skip, take))
  {
    var ps := Window(ordered, skip, take);
    forall i, j | 0 <= i < j < |ps| ensures ps[i].createdAt >= ps[j].createdAt {
      assert ps[i] == ordered[skip + i] && ps[j] == ordered[skip + j];
    }
  }

  /** A page keeps the store's newest-first order. */
  lemma ListingNewestFirst(ordered: seq<View>, pageRaw: Option<int>, limitRaw: Option<int>)
    requires NewestFirst(ordered)
    ensures var r := ListProducts(ordered, pageRaw, limitRaw, false); r.Ok? ==> NewestFirst(r.value.products)
  {
    var page, limit := PageParam(pageRaw), LimitParam(limitRaw);
    var skip := SkipIndex(page, limit);
    if skip >= 0 {
      WindowNewestFirst(ordered, skip, if limit > 0 then limit else -limit);
    }
  }

  lemma MulMonotone(a: int, b: int, c: int)
    requires a <= b && c >= 0
    ensures a * c <= b * c
  {
    assert b * c - a * c == (b - a) * c;
  }

  /** With a positive limit, every page from 1 to `totalPages` holds items and
      every later page is empty. */
  lemma PagesInRangeAreFilled(ordered: seq<View>, page: int, limit: int)
    requires page >= 1 && limit >= 1
    ensures var r := ListProducts(ordered, Some(page), Some(limit), false);
      r.Ok? && (|r.value.products| > 0 <==> page <= r.value.totalPages)
  {
    var n := CeilDiv(|ordered|, limit);
    var skip := SkipIndex(page, limit);
    CeilDivBounds(|ordered|, limit);
    MulMonotone(0, page - 1, limit);
    if page <= n {
      MulMonotone(page - 1, n - 1, limit);
    } else {
      MulMonotone(n, page - 1, limit);
    }
    assert skip >= 0;
    assert |Window(ordered, skip, limit)| > 0 <==> skip < |ordered|;
  }

  /** Ten products with six per page: page 2 holds the 7th to the 10th, and
      there are two pages. */
  lemma SecondPageOfTen(ordered: seq<View>)
    requires |ordered| == 10
    ensures ListProducts(ordered, Some(2), Some(6), false) == Ok(200, Listing(ordered[6..10], 2, 2, 10))
  {
    assert SkipIndex(2, 6) == 6;
    assert CeilDiv(10, 6) == 2;
    assert Window(ordered, 6, 6) == ordered[6..10];
  }

  // ---------------------------------------------------------------------------
  // Single reads

  /** `getProductById`; `readFails` says the store could not be read. */
  function GetProduct(products: map<ProductId, Product>, id: ProductId, readFails: bool): (r: Reply<View>)
    ensures r.Fail? <==> readFails || id !in products
    ensures readFails ==> r == Fail(500, FetchErrorMessage)
    ensures !readFails && id !in products ==> r == Fail(404, NotFoundMessage)
    ensures r.Ok? ==> r == Ok(200, ViewOf(products[id]))
  {
    if readFails then Fail(500, FetchErrorMessage)
    else if id in products then Ok(200, ViewOf(products[id]))
    else Fail(404, NotFoundMessage)
  }

  // ---------------------------------------------------------------------------
  // The store

  class Catalog {
    var products: map<ProductId, Product>
    var files: set<Path>

    /** Every record is stored under its own id and carries a price the
        controller accepted. */
    ghost predicate Valid()
      reads this
    {
      forall id :: id in products ==> products[id].id == id && products[id].price >= 0
    }

    constructor ()
      ensures Valid() && products == map[] && files == {}
    {
      products := map[];
      files := {};
    }

    /** `fs.unlink`, best effort: a failure is logged and swallowed. */
    method Unlink(path: Path, fails: bool)
      modifies this
      ensures products == old(products)
      ensures files == if fails then old(files) else old(files) - {path}
    {
      if !fails {
        files := files - {path};
      }
    }

    /** `createProduct`. `upload` is the file the upload middleware stored, if
        any; `newId` and `now` are what the store assigns. */
    method Create(caller: Caller, title: string, description: string, price: Option<int>,
                  upload: Option<Path>, newId: ProductId, now: int,
                  writeFails: bool, unlinkFails: bool)
      returns (r: Reply<Saved>)
      requires Valid()
      requires caller.role == AdminRole
      requires upload.Some? ==> upload.value in files
      requires newId !in products
      modifies this
      ensures Valid()
      ensures upload.None? ==> r == Fail(400, NoImageMessage) && products == old(products) && files == old(files)
      ensures upload.Some? && !ValidPrice(price) ==>
        r == Fail(400, BadPriceMessage) && products == old(products) && files == old(files)
      ensures upload.Some? && ValidPrice(price) && writeFails ==>
        && r == Fail(500, CreateErrorMessage)
        && products == old(products)
        && files == (if unlinkFails then old(files) else old(files) - {upload.value})
      ensures upload.Some? && ValidPrice(price) && !writeFails ==>
        && r == Ok(201, Saved(CreatedMessage, newId, title, description, price.value, upload.value))
        && products == old(products)[newId := Product(newId, title, description, price.value, upload.value, caller.id, now)]
        && files == old(files)
    {
      if upload.None? {
        return Fail(400, NoImageMessage);
      }
      if price.None? || price.value < 0 {
        return Fail(400, BadPriceMessage);
      }
      var record := Product(newId, title, description, price.value, upload.value, caller.id, now);
      if writeFails {
        Unlink(upload.value, unlinkFails);
        return Fail(500, CreateErrorMessage);
      }
      products := products[newId := record];
      r := Ok(201, SavedOf(CreatedMessage, record));
    }

    /** `updateProduct`. `price` is `None` when the request has no price;
        an empty `title` or `description` leaves that field as it was.
        `readFails` says the lookup failed, `saveFails` the save; after
        either, the upload is removed best effort. */
    method Update(caller: Caller, id: ProductId, title: string, description: string,
                  price: Option<Option<int>>, upload: Option<Path>, readFails: bool,
                  saveFails: bool, unlinkOldFails: bool, unlinkNewFails: bool)
      returns (r: Reply<Saved>)
      requires Valid()
      requires caller.role == AdminRole
      requires upload.Some? ==> upload.value in files
      modifies this
      ensures Valid()
      ensures readFails ==>
        && r == Fail(500, UpdateErrorMessage)
        && products == old(products)
        && files == (if upload.Some? && !unlinkNewFails then old(files) - {upload.value} else old(files))
      ensures !readFails && id !in old(products) ==>
        r == Fail(404, NotFoundMessage) && products == old(products) && files == old(files)
      ensures !readFails && id in old(products) && price.Some? && !ValidPrice(price.value) ==>
        r == Fail(400, BadPriceMessage) && products == old(products) && files == old(files)
      ensures !readFails && id in old(products) && (price.None? || ValidPrice(price.value)) ==>
        var before := old(products)[id];
        var after := before.(
          price := if price.Some? then price.value.value else before.price,
          title := if title != "" then title else before.title,
          description := if description != "" then description else before.description,
          imageUrl := if upload.Some? then upload.value else before.imageUrl);
        var oldImageGone := upload.Some? && before.imageUrl != "" && !unlinkOldFails;
        var newImageGone := upload.Some? && saveFails && !unlinkNewFails;
        && files == old(files) - (if oldImageGone then {before.imageUrl} else {}) - (if newImageGone then {upload.value} else {})
        && (saveFails ==> r == Fail(500, UpdateErrorMessage) && products == old(products))
        && (!saveFails ==> r == Ok(200, SavedOf(UpdatedMessage, after)) && products == old(products)[id := after])
    {
      if readFails {
        if upload.Some? {
          Unlink(upload.value, unlinkNewFails);
        }
        return Fail(500, UpdateErrorMessage);
      }
      if id !in products {
        return Fail(404, NotFoundMessage);
      }
      var product := products[id];
      if price.Some? {
        if price.value.None? || price.value.value < 0 {
          return Fail(400, BadPriceMessage);
        }
        product := product.(price := price.value.value);
      }
      if title != "" {
        product := product.(title := title);
      }
      if description != "" {
        product := product.(description := description);
      }
      if upload.Some? {
        if product.imageUrl != "" {
          Unlink(product.imageUrl, unlinkOldFails);
        }
        product := product.(imageUrl := upload.value);
      }
      if saveFails {
        if upload.Some? {
          Unlink(upload.value, unlinkNewFails);
        }
        return Fail(500, UpdateErrorMessage);
      }
      products := products[id := product];
      r := Ok(200, SavedOf(UpdatedMessage, product));
    }

    /** `deleteProduct`: the image file is removed best effort, then the
        record. `readFails` says the lookup failed. */
    method Delete(caller: Caller, id: ProductId, readFails: bool, unlinkFails: bool, deleteFails: bool)
      returns (r: Reply<string>)
      requires Valid()
      requires caller.role == AdminRole
      modifies this
      ensures Valid()
      ensures readFails ==> r == Fail(500, DeleteErrorMessage) && products == old(products) && files == old(files)
      ensures !readFails && id !in old(products) ==>
        r == Fail(404, NotFoundMessage) && products == old(products) && files == old(files)
      ensures !readFails && id in old(products) ==>
        var image := old(products)[id].imageUrl;
        && files == (if image != "" && !unlinkFails then old(files) - {image} else old(files))
        && (deleteFails ==> r == Fail(500, DeleteErrorMessage) && products == old(products))
        && (!deleteFails ==> r == Ok(200, RemovedMessage) && products == old(products) - {id})
    {
      if readFails {
        return Fail(500, DeleteErrorMessage);
      }
      if id !in products {
        return Fail(404, NotFoundMessage);
      }
      var image := products[id].imageUrl;
      if image != "" {
        Unlink(image, unlinkFails);
      }
      if deleteFails {
        return Fail(500, DeleteErrorMessage);
      }
      products := products - {id};
      r := Ok(200, RemovedMessage);
    }
  }
}
