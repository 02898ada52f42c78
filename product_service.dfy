/**
 * The product service over the in-memory database: creation with its presence checks, lookup,
 * the field-by-field update, deletion, paged listing and search, and the stock update that
 * never lets the stock go negative.
 */
module ProductService {
  import opened Wrappers
  import JsBuiltins
  import ProductModel
  import opened BackendStore

  type Product = ProductModel.Product

  /** `!data.name || !data.basePrice || !data.styleLine`: a missing or empty name, a missing or zero price, no style line. */
  predicate MissingRequired(data: ProductModel.ProductData) {
    || data.name.None? || data.name.value == ""
    || data.basePrice.None? || data.basePrice.value == 0.0
    || data.styleLine.None?
  }

  /** `createProduct`: presence checks, the style line must exist, then the new document is validated and stored. */
  method CreateProduct(db: Store, data: ProductModel.ProductData) returns (r: Result<Product, ServiceError>)
    requires db.Valid()
    modifies db
    ensures db.Valid()
    ensures MissingRequired(data) ==> r == Failure(ApiError(400, "Missing required product data"))
    ensures !MissingRequired(data) && data.styleLine.value !in old(db.styleLines) ==>
      r == Failure(ApiError(404, "Style line not found"))
    ensures !MissingRequired(data) && data.styleLine.value in old(db.styleLines) ==>
      var v := ProductModel.Validate(ProductModel.NewDraft(data), old(db.nextId));
      && (v.Failure? ==> r == Failure(ValidationError))
      && (v.Success? ==> r == Success(v.value))
    ensures r.Success? ==> db.products == old(db.products) + [r.value] && db.nextId == old(db.nextId) + 1
    ensures r.Failure? ==> db.products == old(db.products) && db.nextId == old(db.nextId)
    ensures db.users == old(db.users) && db.styleLines == old(db.styleLines) && db.orders == old(db.orders)
  {
    if MissingRequired(data) {
      return Failure(ApiError(400, "Missing required product data"));
    }
    if data.styleLine.value !in db.styleLines {
      return Failure(ApiError(404, "Style line not found"));
    }
    var v := ProductModel.Validate(ProductModel.NewDraft(data), db.nextId);
    if v.Failure? {
      return Failure(ValidationError);
    }
    db.products := db.products + [v.value];
    db.nextId := db.nextId + 1;
    r := Success(v.value);
  }

  /** `getProductById`. */
  function GetProductById(db: Store, id: nat): (r: Result<Product, ServiceError>)
    reads db
    ensures r.Success? <==> exists i :: 0 <= i < |db.products| && db.products[i].id == id
    ensures r.Success? ==> r.value in db.products && r.value.id == id
    ensures r.Failure? ==> r.error == ApiError(404, "Product not found")
  {
    match FindProduct(db.products, id)
    case None => Failure(ApiError(404, "Product not found"))
    case Some(k) => Success(db.products[k])
  }

  /** `updateProduct`: merge the supplied paths into the stored document, validate, store in place. */
  method UpdateProduct(db: Store, id: nat, data: ProductModel.ProductData) returns (r: Result<Product, ServiceError>)
    requires db.Valid()
    modifies db
    ensures db.Valid()
    ensures FindProduct(old(db.products), id).None? ==> r == Failure(ApiError(404, "Product not found"))
    ensures FindProduct(old(db.products), id).Some? ==>
      var k := FindProduct(old(db.products), id).value;
      var v := ProductModel.Validate(ProductModel.Merge(old(db.products)[k], data), id);
      && (v.Failure? ==> r == Failure(ValidationError))
      && (v.Success? ==> r == Success(v.value) && db.products == old(db.products)[k := v.value])
    ensures r.Failure? ==> db.products == old(db.products)
    ensures db.users == old(db.users) && db.styleLines == old(db.styleLines)
    ensures db.orders == old(db.orders) && db.nextId == old(db.nextId)
  {
    var found := FindProduct(db.products, id);
    if found.None? {
      return Failure(ApiError(404, "Product not found"));
    }
    var k := found.value;
    var v := ProductModel.Validate(ProductModel.Merge(db.products[k], data), id);
    if v.Failure? {
      return Failure(ValidationError);
    }
    db.products := db.products[k := v.value];
    r := Success(v.value);
  }

  /** The update keeps every unsupplied path and overwrites every supplied one (the name trimmed). */
  lemma UpdateOverwritesExactlySupplied(p: Product, data: ProductModel.ProductData)
    requires ProductModel.Validate(ProductModel.Merge(p, data), p.id).Success?
    ensures var q := ProductModel.Validate(ProductModel.Merge(p, data), p.id).value;
      && q.id == p.id
      && q.name == (if data.name.Some? then JsBuiltins.Trim(data.name.value) else p.name)
      && q.basePrice == (if data.basePrice.Some? then data.basePrice.value else p.basePrice)
      && q.description == (if data.description.Some? then data.description.value else p.description)
      && q.images == (if data.images.Some? then data.images.value else p.images)
      && q.styleLine == (if data.styleLine.Some? then data.styleLine.value else p.styleLine)
      && q.sizes == (if data.sizes.Some? then data.sizes.value else p.sizes)
      && q.colors == (if data.colors.Some? then data.colors.value else p.colors)
      && q.isCustomizable == (if data.isCustomizable.Some? then data.isCustomizable.value else p.isCustomizable)
      && q.stockQuantity == (if data.stockQuantity.Some? then data.stockQuantity.value else p.stockQuantity)
  {
  }

  /** `deleteProduct`: removes the document with that id. */
  method DeleteProduct(db: Store, id: nat) returns (r: Result<(), ServiceError>)
    requires db.Valid()
    modifies db
    ensures db.Valid()
    ensures r.Success? <==> FindProduct(old(db.products), id).Some?
    ensures r.Failure? ==> r.error == ApiError(404, "Product not found") && db.products == old(db.products)
    ensures r.Success? ==>
      var k := FindProduct(old(db.products), id).value;
      db.products == old(db.products)[..k] + old(db.products)[k + 1..]
    ensures db.users == old(db.users) && db.styleLines == old(db.styleLines)
    ensures db.orders == old(db.orders) && db.nextId == old(db.nextId)
  {
    var found := FindProduct(db.products, id);
    if found.None? {
      return Failure(ApiError(404, "Product not found"));
    }
    var k := found.value;
    ghost var before := db.products;
    db.products := db.products[..k] + db.products[k + 1..];
    forall i | 0 <= i < |db.products| ensures db.products[i] == if i < k then before[i] else before[i + 1] {
    }
    r := Success(());
  }

  /** After a deletion no product has that id, and every other product is still there. */
  lemma DeleteRemovesOnlyThatId(ps: seq<Product>, k: nat)
    requires UniqueProductIds(ps) && k < |ps|
    ensures var rest := ps[..k] + ps[k + 1..];
      && (forall i :: 0 <= i < |rest| ==> rest[i].id != ps[k].id)
      && (forall i :: 0 <= i < |ps| && i != k ==> ps[i] in rest)
  {
    var rest := ps[..k] + ps[k + 1..];
    forall i | 0 <= i < |ps| && i != k ensures ps[i] in rest {
      if i < k {
        assert rest[i] == ps[i];
      } else {
        assert rest[i - 1] == ps[i];
      }
    }
  }

  datatype PaginationOptions = PaginationOptions(page: Option<int>, limit: Option<int>)

  /** One page of a listing and the number of documents the query matches. */
  datatype Listing = Listing(products: seq<Product>, total: nat)

  /** `options.limit || 10`: an absent or zero limit becomes 10. */
  function PageLimit(options: PaginationOptions): (l: int)
    ensures l != 0
    ensures options.limit.Some? && options.limit.value != 0 ==> l == options.limit.value
  {
    if options.limit.None? || options.limit.value == 0 then 10 else options.limit.value
  }

  /** `options.page ? (options.page - 1) * limit : 0`. */
  function PageSkip(options: PaginationOptions): int {
    if options.page.None? || options.page.value == 0 then 0 else (options.page.value - 1) * PageLimit(options)
  }

  /** One page of the matching documents, in collection order, with their count. */
  function ListPage(matching: seq<Product>, options: PaginationOptions): (r: Result<Listing, ServiceError>)
    ensures r.Success? ==> r.value.total == |matching|
    ensures r.Success? <==> PageSkip(options) >= 0
  {
    match Page(matching, PageSkip(options), PageLimit(options))
    case Failure(e) => Failure(e)
    case Success(page) => Success(Listing(page, |matching|))
  }

  /** `getProducts`. */
  function GetProducts(db: Store, options: PaginationOptions): (r: Result<Listing, ServiceError>)
    reads db
    ensures r.Success? <==> PageSkip(options) >= 0
    ensures r.Success? ==> r.value.total == |db.products|
  {
    ListPage(db.products, options)
  }

  /**
   * Paging: a page holds at most `|limit|` products (10 when the limit is absent or 0); without a
   * page number the listing starts at the first product; page `p >= 1` starts after `(p - 1) * limit`.
   */
  lemma PagingRules(matching: seq<Product>, options: PaginationOptions)
    requires PageSkip(options) >= 0
    ensures var page := ListPage(matching, options).value.products;
      var bound := if PageLimit(options) < 0 then -PageLimit(options) else PageLimit(options);
      && |page| <= bound
      && (options.limit.None? || options.limit.value == 0 ==> |page| <= 10)
      && (options.page.None? ==> page == matching[..|page|])
      && (forall i :: 0 <= i < |page| ==>
            PageSkip(options) + i < |matching| && page[i] == matching[PageSkip(options) + i])
      && (forall i :: 0 <= i < |page| ==> page[i] in matching)
  {
    var skip := PageSkip(options);
    PageBounds(matching, skip, PageLimit(options));
    var page := ListPage(matching, options).value.products;
    if skip <= |matching| {
      forall i | 0 <= i < |page|
        ensures skip + i < |matching| && page[i] == matching[skip + i]
      {
        assert page[i] == matching[skip..][i];
      }
    }
  }

  /** The products of one style line, in collection order. */
  function OfStyleLine(ps: seq<Product>, styleLine: nat): (r: seq<Product>)
    ensures forall p :: p in r <==> p in ps && p.styleLine == styleLine
    decreases |ps|
  {
    if |ps| == 0 then []
    else OfStyleLine(ps[..|ps| - 1], styleLine) + (if ps[|ps| - 1].styleLine == styleLine then [ps[|ps| - 1]] else [])
  }

  /** `getProductsByStyleLine`: 404 for an unknown style line, else one page of its products. */
  function GetProductsByStyleLine(db: Store, styleLine: nat, options: PaginationOptions): (r: Result<Listing, ServiceError>)
    reads db
    ensures styleLine !in db.styleLines ==> r == Failure(ApiError(404, "Style line not found"))
    ensures styleLine in db.styleLines ==> r == ListPage(OfStyleLine(db.products, styleLine), options)
  {
    if styleLine !in db.styleLines then Failure(ApiError(404, "Style line not found"))
    else ListPage(OfStyleLine(db.products, styleLine), options)
  }

  /** Every product listed for a style line is a stored product of that line, and the count is of that line's products. */
  lemma StyleLineListing(db: Store, styleLine: nat, options: PaginationOptions)
    requires GetProductsByStyleLine(db, styleLine, options).Success?
    ensures var r := GetProductsByStyleLine(db, styleLine, options).value;
      && r.total == |OfStyleLine(db.products, styleLine)|
      && forall i :: 0 <= i < |r.products| ==> r.products[i] in db.products && r.products[i].styleLine == styleLine
  {
    PagingRules(OfStyleLine(db.products, styleLine), options);
  }

  /** The search parameters; a parameter that is absent, empty or 0 is not applied. */
  datatype SearchParams = SearchParams(name: Option<string>, minPrice: Option<real>, maxPrice: Option<real>)

  /** `t` occurs in `s` when both are lower-cased (the `i` option of the name pattern, taken literally). */
  predicate ContainsIgnoringCase(s: string, t: string) {
    exists i :: 0 <= i <= |s| && OccursAt(JsBuiltins.LowerCase(s), JsBuiltins.LowerCase(t), i)
  }

  /** `t` is the text of `s` starting at position `i`. */
  predicate OccursAt(s: string, t: string, i: int) {
    0 <= i <= |s| - |t| && s[i..i + |t|] == t
  }

  /** The query built by `searchProducts`. */
  predicate MatchesSearch(p: Product, q: SearchParams) {
    && (q.name.Some? && q.name.value != "" ==> ContainsIgnoringCase(p.name, q.name.value))
    && (q.minPrice.Some? && q.minPrice.value != 0.0 ==> p.basePrice >= q.minPrice.value)
    && (q.maxPrice.Some? && q.maxPrice.value != 0.0 ==> p.basePrice <= q.maxPrice.value)
  }

  function Matching(ps: seq<Product>, q: SearchParams): (r: seq<Product>)
    ensures forall p :: p in r <==> p in ps && MatchesSearch(p, q)
    decreases |ps|
  {
    if |ps| == 0 then []
    else Matching(ps[..|ps| - 1], q) + (if MatchesSearch(ps[|ps| - 1], q) then [ps[|ps| - 1]] else [])
  }

  /** `searchProducts`. */
  function SearchProducts(db: Store, q: SearchParams, options: PaginationOptions): (r: Result<Listing, ServiceError>)
    reads db
    ensures r.Success? <==> PageSkip(options) >= 0
    ensures r.Success? ==> r.value.total == |Matching(db.products, q)|
  {
    ListPage(Matching(db.products, q), options)
  }

  /** Every product found lies within the price bounds that are given and not 0. */
  lemma SearchRespectsPriceBounds(db: Store, q: SearchParams, options: PaginationOptions, p: Product)
    requires SearchProducts(db, q, options).Success? && p in SearchProducts(db, q, options).value.products
    ensures p in db.products
    ensures q.minPrice.Some? && q.minPrice.value != 0.0 ==> p.basePrice >= q.minPrice.value
    ensures q.maxPrice.Some? && q.maxPrice.value != 0.0 ==> p.basePrice <= q.maxPrice.value
  {
    PagingRules(Matching(db.products, q), options);
  }

  /** A zero bound is falsy and is not applied: it filters exactly as an absent bound. */
  lemma ZeroBoundsIgnored(p: Product, name: Option<string>)
    ensures MatchesSearch(p, SearchParams(name, Some(0.0), Some(0.0))) == MatchesSearch(p, SearchParams(name, None, None))
  {
  }

  /** `updateProductStock` on the collection: 404 for an unknown id, 400 when the new stock would be negative. */
  function StockUpdate(ps: seq<Product>, id: nat, change: int): (r: Result<seq<Product>, ServiceError>)
    ensures FindProduct(ps, id).None? ==> r == Failure(ApiError(404, "Product not found"))
    ensures FindProduct(ps, id).Some? ==>
      var k := FindProduct(ps, id).value;
      && (ps[k].stockQuantity + change < 0 ==> r == Failure(ApiError(400, "Invalid stock quantity")))
      && (ps[k].stockQuantity + change >= 0 ==>
            r == Success(ps[k := ps[k].(stockQuantity := ps[k].stockQuantity + change)]))
  {
    match FindProduct(ps, id)
    case None => Failure(ApiError(404, "Product not found"))
    case Some(k) =>
      var stock := ps[k].stockQuantity + change;
      if stock < 0 then Failure(ApiError(400, "Invalid stock quantity"))
      else Success(ps[k := ps[k].(stockQuantity := stock)])
  }

  /**
   * A successful stock update changes only the stock of the product with that id, by exactly
   * `change`; ids and the schema bounds (stock at least 0) still hold.
   */
  lemma StockUpdateEffect(ps: seq<Product>, id: nat, change: int)
    requires UniqueProductIds(ps) && forall i :: 0 <= i < |ps| ==> ProductModel.ValidProduct(ps[i])
    requires StockUpdate(ps, id, change).Success?
    ensures var qs := StockUpdate(ps, id, change).value;
      && |qs| == |ps| && UniqueProductIds(qs)
      && (forall i :: 0 <= i < |qs| ==> ProductModel.ValidProduct(qs[i]) && qs[i].id == ps[i].id)
      && (forall i :: 0 <= i < |qs| && ps[i].id != id ==> qs[i] == ps[i])
      && (forall i :: 0 <= i < |qs| && ps[i].id == id ==>
            qs[i] == ps[i].(stockQuantity := ps[i].stockQuantity + change))
  {
  }

  /** `updateProductStock`. Nothing is saved when the stock would become negative. */
  method UpdateProductStock(db: Store, id: nat, change: int) returns (r: Result<Product, ServiceError>)
    requires db.Valid()
    modifies db
    ensures db.Valid()
    ensures r.Success? <==> StockUpdate(old(db.products), id, change).Success?
    ensures r.Failure? ==> r.error == StockUpdate(old(db.products), id, change).error && db.products == old(db.products)
    ensures r.Success? ==> db.products == StockUpdate(old(db.products), id, change).value
    ensures r.Success? ==> r.value in db.products && r.value.id == id
    ensures db.users == old(db.users) && db.styleLines == old(db.styleLines)
    ensures db.orders == old(db.orders) && db.nextId == old(db.nextId)
  {
    var found := FindProduct(db.products, id);
    if found.None? {
      return Failure(ApiError(404, "Product not found"));
    }
    var k := found.value;
    var product := db.products[k];
    product := product.(stockQuantity := product.stockQuantity + change);
    if product.stockQuantity < 0 {
      return Failure(ApiError(400, "Invalid stock quantity"));
    }
    StockUpdateEffect(db.products, id, change);
    db.products := db.products[k := product];
    r := Success(product);
  }
}
