/**
 * The backend's database, held in memory: the ids of the user and style-line documents, and the
 * product and order collections in insertion order (the order in which an unsorted query returns
 * them). New documents get the next unused id. Also the error kinds the services raise and
 * MongoDB's `skip`/`limit` cursor semantics.
 */
module BackendStore {
  import opened Wrappers
  import ProductModel
  import OrderModel

  /**
   * `ApiError(status, message)`, a schema validation error on save, an error raised by the
   * database (a rejected cursor option, a value that does not cast to the path's type), or a
   * JavaScript `TypeError`.
   */
  datatype ServiceError = ApiError(status: nat, message: string) | ValidationError | DatabaseError | TypeError

  predicate UniqueProductIds(ps: seq<ProductModel.Product>) {
    forall i, j :: 0 <= i < j < |ps| ==> ps[i].id != ps[j].id
  }

  predicate UniqueOrderIds(os: seq<OrderModel.Order>) {
    forall i, j :: 0 <= i < j < |os| ==> os[i].id != os[j].id
  }

  /** `Product.findById(id)`: the position of the product with that id. */
  function FindProduct(ps: seq<ProductModel.Product>, id: nat): (r: Option<nat>)
    ensures r.Some? ==> r.value < |ps| && ps[r.value].id == id
    ensures r.None? <==> forall i :: 0 <= i < |ps| ==> ps[i].id != id
    decreases |ps|
  {
    if |ps| == 0 then None
    else if ps[|ps| - 1].id == id then Some(|ps| - 1)
    else FindProduct(ps[..|ps| - 1], id)
  }

  /** `Order.findById(id)`: the position of the order with that id. */
  function FindOrder(os: seq<OrderModel.Order>, id: nat): (r: Option<nat>)
    ensures r.Some? ==> r.value < |os| && os[r.value].id == id
    ensures r.None? <==> forall i :: 0 <= i < |os| ==> os[i].id != id
    decreases |os|
  {
    if |os| == 0 then None
    else if os[|os| - 1].id == id then Some(|os| - 1)
    else FindOrder(os[..|os| - 1], id)
  }

  /** With unique ids, the product found is the only one with that id. */
  lemma FindProductUnique(ps: seq<ProductModel.Product>, id: nat, k: nat)
    requires UniqueProductIds(ps) && k < |ps| && ps[k].id == id
    ensures FindProduct(ps, id) == Some(k)
  {
  }

  /**
   * `cursor.skip(skip).limit(limit)`: a negative skip is rejected by the server; a limit of 0
   * means no limit, and a negative limit returns at most `-limit` documents.
   */
  function Page<T>(s: seq<T>, skip: int, limit: int): (r: Result<seq<T>, ServiceError>)
    ensures skip < 0 <==> r.Failure?
    ensures r.Success? ==>
      var from := if skip <= |s| then skip else |s|;
      var bound := if limit < 0 then -limit else limit;
      && (bound == 0 ==> r.value == s[from..])
      && (bound > 0 ==> r.value == s[from..][..if bound <= |s| - from then bound else |s| - from])
  {
    if skip < 0 then Failure(DatabaseError)
    else
      var from := if skip <= |s| then skip else |s|;
      var rest := s[from..];
      var bound := if limit < 0 then -limit else limit;
      if bound == 0 || bound >= |rest| then Success(rest) else Success(rest[..bound])
  }

  /** A page holds at most `|limit|` documents when the limit is not 0, and consecutive pages do not overlap. */
  lemma PageBounds<T>(s: seq<T>, skip: nat, limit: int)
    ensures Page(s, skip, limit).Success?
    ensures limit != 0 ==> |Page(s, skip, limit).value| <= (if limit < 0 then -limit else limit)
    ensures skip <= |s| ==> s[skip..] == Page(s, skip, limit).value + s[skip + |Page(s, skip, limit).value|..]
  {
  }

  /** The in-memory database. */
  class Store {
    var users: set<nat>
    var styleLines: set<nat>
    var products: seq<ProductModel.Product>
    var orders: seq<OrderModel.Order>
    var nextId: nat

    /** Ids are unique and below `nextId`, and every stored document satisfies its schema. */
    predicate Valid()
      reads this
    {
      && UniqueProductIds(products) && UniqueOrderIds(orders)
      && (forall i :: 0 <= i < |products| ==> products[i].id < nextId && ProductModel.ValidProduct(products[i]))
      && (forall i :: 0 <= i < |orders| ==> orders[i].id < nextId && OrderModel.ValidOrder(orders[i]))
    }

    /** A database with the given users and style lines and no products or orders. */
    constructor (users: set<nat>, styleLines: set<nat>)
      ensures Valid()
      ensures this.users == users && this.styleLines == styleLines
      ensures products == [] && orders == [] && nextId == 0
    {
      this.users := users;
      this.styleLines := styleLines;
      products := [];
      orders := [];
      nextId := 0;
    }
  }
}
