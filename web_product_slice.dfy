/**
 * The web app's product slice: the product list, the product being viewed, a loading flag and an
 * error message taken from the thrown error.
 */
module WebProductSlice {
  import opened Wrappers

  /** The shared product type. */
  datatype Product = Product(id: string, name: string, basePrice: real, description: string,
                             images: seq<string>, styleLineId: string)

  /** `message || fallback`: a missing or empty message gives the fallback. */
  function OrFallback(message: Option<string>, fallback: string): (r: string)
    ensures message.Some? && message.value != "" ==> r == message.value
    ensures message.None? || message.value == "" ==> r == fallback
  {
    if message.Some? && message.value != "" then message.value else fallback
  }

  const FetchProductsFailed := "Failed to fetch products"
  const FetchProductFailed := "Failed to fetch product"

  class ProductSlice {
    var products: seq<Product>
    var selectedProduct: Option<Product>
    var loading: bool
    var error: Option<string>

    /** The initial state. */
    constructor ()
      ensures products == [] && selectedProduct == None && !loading && error == None
    {
      products := [];
      selectedProduct := None;
      loading := false;
      error := None;
    }

    /** `setSelectedProduct`: only the selection changes. */
    method SetSelectedProduct(p: Product)
      modifies this
      ensures selectedProduct == Some(p)
      ensures products == old(products) && loading == old(loading) && error == old(error)
    {
      selectedProduct := Some(p);
    }

    /** `clearSelectedProduct`: only the selection changes. */
    method ClearSelectedProduct()
      modifies this
      ensures selectedProduct == None
      ensures products == old(products) && loading == old(loading) && error == old(error)
    {
      selectedProduct := None;
    }

    /** The pending case of both fetch thunks. */
    method Pending()
      modifies this
      ensures loading && error == None
      ensures products == old(products) && selectedProduct == old(selectedProduct)
    {
      loading := true;
      error := None;
    }

    /** Fetch-all-fulfilled: the fetched list replaces the products. */
    method FetchAllFulfilled(ps: seq<Product>)
      modifies this
      ensures !loading && error == old(error)
      ensures products == ps && selectedProduct == old(selectedProduct)
    {
      loading := false;
      products := ps;
    }

    /** Fetch-all-rejected: the thrown error's message, or the fallback text when it has none. */
    method FetchAllRejected(message: Option<string>)
      modifies this
      ensures !loading && error == Some(OrFallback(message, FetchProductsFailed))
      ensures products == old(products) && selectedProduct == old(selectedProduct)
    {
      loading := false;
      error := Some(OrFallback(message, FetchProductsFailed));
    }

    /** Fetch-by-id-fulfilled: the product becomes the selection; the list is not touched. */
    method FetchByIdFulfilled(p: Product)
      modifies this
      ensures !loading && error == old(error)
      ensures selectedProduct == Some(p) && products == old(products)
    {
      loading := false;
      selectedProduct := Some(p);
    }

    /** Fetch-by-id-rejected: the thrown error's message, or the fallback text when it has none. */
    method FetchByIdRejected(message: Option<string>)
      modifies this
      ensures !loading && error == Some(OrFallback(message, FetchProductFailed))
      ensures products == old(products) && selectedProduct == old(selectedProduct)
    {
      loading := false;
      error := Some(OrFallback(message, FetchProductFailed));
    }
  }

  /** A rejected fetch always leaves a non-empty error message. */
  lemma RejectedMessageNonEmpty(message: Option<string>)
    ensures OrFallback(message, FetchProductsFailed) != ""
    ensures OrFallback(message, FetchProductFailed) != ""
  {
  }
}
