/**
 * The mobile app's product slice: the product catalogue as fetched so far, the catalogue filters,
 * a loading flag and an error message. Fetching one product upserts it into the list.
 */
module MobileProductSlice {
  import opened Wrappers
  import opened SliceLists

  /** The shared product type. */
  datatype Product = Product(id: string, name: string, basePrice: real, description: string,
                             images: seq<string>, styleLineId: string)

  /** The filters object, as its property names and values. */
  type Filters = map<string, string>

  function ProductId(p: Product): string {
    p.id
  }

  class ProductSlice {
    var products: seq<Product>
    var loading: bool
    var error: Option<string>
    var filters: Filters

    /** The initial state: no products and empty filters. */
    constructor ()
      ensures products == [] && !loading && error == None && filters == map[]
    {
      products := [];
      loading := false;
      error := None;
      filters := map[];
    }

    /** `setFilters`: the filters are replaced wholesale; nothing else changes. */
    method SetFilters(f: Filters)
      modifies this
      ensures filters == f
      ensures products == old(products) && loading == old(loading) && error == old(error)
    {
      filters := f;
    }

    /** The pending case of both fetch thunks. */
    method Pending()
      modifies this
      ensures loading && error == None
      ensures products == old(products) && filters == old(filters)
    {
      loading := true;
      error := None;
    }

    /** The rejected case of both fetch thunks: the payload is the thunk's fixed message. */
    method Rejected(payload: string)
      modifies this
      ensures !loading && error == Some(payload)
      ensures products == old(products) && filters == old(filters)
    {
      loading := false;
      error := Some(payload);
    }

    /** Fetch-all-fulfilled: the fetched list replaces the products. */
    method FetchAllFulfilled(ps: seq<Product>)
      modifies this
      ensures !loading && error == old(error)
      ensures products == ps && filters == old(filters)
    {
      loading := false;
      products := ps;
    }

    /** Fetch-by-id-fulfilled: the first product with the payload's id is replaced, or the payload is appended. */
    method FetchByIdFulfilled(p: Product)
      modifies this
      ensures !loading && error == old(error)
      ensures products == Upsert(old(products), ProductId, p) && filters == old(filters)
    {
      loading := false;
      var index := FirstIndex(products, ProductId, p.id);
      if index.Some? {
        products := products[index.value := p];
      } else {
        products := products + [p];
      }
    }
  }

  /** `selectProductById`: the first product with that id, or `undefined`. */
  function ProductById(products: seq<Product>, productId: string): (r: Option<Product>)
    ensures r.None? <==> forall i :: 0 <= i < |products| ==> products[i].id != productId
    ensures r.Some? ==> exists i :: IsFirst(products, ProductId, productId, i) && products[i] == r.value
  {
    Find(products, ProductId, productId)
  }

  /** `selectFilteredProducts`: every product, whatever the filters are. */
  function FilteredProducts(products: seq<Product>, filters: Filters): (r: seq<Product>)
    ensures r == products
  {
    products
  }

  /**
   * The upsert grows the list by at most one, leaves the products of other ids in place, keeps ids
   * unique, and afterwards the payload is what selecting its id returns.
   */
  lemma FetchByIdEffect(products: seq<Product>, p: Product)
    ensures |products| <= |Upsert(products, ProductId, p)| <= |products| + 1
    ensures forall i :: 0 <= i < |products| && products[i].id != p.id ==> Upsert(products, ProductId, p)[i] == products[i]
    ensures UniqueKeys(products, ProductId) ==> UniqueKeys(Upsert(products, ProductId, p), ProductId)
    ensures ProductById(Upsert(products, ProductId, p), p.id) == Some(p)
  {
    UpsertShape(products, ProductId, p);
  }
}
