/** `productsSlice`: the front-end store's product list and how each thunk outcome changes it. */
module ProductsSlice {
  import opened Outcomes
  import opened Reducers
  import opened ProductDto
  import Paging

  /** The thunks whose outcomes the slice handles; each has its own fallback error. */
  datatype Thunk = FetchAll | FetchPaginated | Create | Update | Delete

  function DefaultError(t: Thunk): string
  {
    match t
    case FetchAll => "Failed to fetch products"
    case FetchPaginated => "Failed to fetch products"
    case Create => "Failed to create product"
    case Update => "Failed to update product"
    case Delete => "Failed to delete product"
  }

  function SameCode(code: string): ProductView -> bool
  {
    (p: ProductView) => p.code == code
  }

  class ProductsState {
    var items: seq<ProductView>
    var loading: bool
    var error: Option<string>
    var pagination: Option<PaginationInfo>

    /** `initialState`. */
    constructor ()
      ensures items == [] && !loading && error.None? && pagination.None?
    {
      items := [];
      loading := false;
      error := None;
      pagination := None;
    }

    /** `clearError`. */
    method ClearError()
      modifies this
      ensures error.None?
      ensures items == old(items) && loading == old(loading) && pagination == old(pagination)
    {
      error := None;
    }

    /** Every `pending` case. */
    method Pending()
      modifies this
      ensures loading && error.None?
      ensures items == old(items) && pagination == old(pagination)
    {
      loading := true;
      error := None;
    }

    /** Every `rejected` case. */
    method Rejected(thunk: Thunk, message: Option<string>)
      modifies this
      ensures !loading && error == Some(ErrorMessage(message, DefaultError(thunk)))
      ensures items == old(items) && pagination == old(pagination)
    {
      loading := false;
      error := Some(ErrorMessage(message, DefaultError(thunk)));
    }

    /** `fetchProducts.fulfilled`: the list becomes the payload. */
    method FetchFulfilled(payload: seq<ProductView>)
      modifies this
      ensures !loading && items == payload
      ensures error == old(error) && pagination == old(pagination)
    {
      loading := false;
      items := payload;
    }

    /** `fetchProductsPaginated.fulfilled`: the page's content and its six page fields. */
    method FetchPaginatedFulfilled(payload: Paging.PageResponse<ProductView>)
      modifies this
      ensures !loading && items == payload.content && pagination == Some(PaginationOf(payload))
      ensures error == old(error)
    {
      loading := false;
      items := payload.content;
      pagination := Some(PaginationOf(payload));
    }

    /** `createProduct.fulfilled`: the new product goes at the end. */
    method CreateFulfilled(payload: ProductView)
      modifies this
      ensures !loading && items == old(items) + [payload]
      ensures error == old(error) && pagination == old(pagination)
    {
      loading := false;
      items := items + [payload];
    }

    /** `updateProduct.fulfilled`. */
    method UpdateFulfilled(payload: ProductView)
      modifies this
      ensures !loading && items == ReplaceFirst(old(items), SameCode(payload.code), payload)
      ensures error == old(error) && pagination == old(pagination)
    {
      loading := false;
      var index := FindIndex(items, SameCode(payload.code));
      if index != -1 {
        items := items[index := payload];
      }
    }

    /** `deleteProduct.fulfilled`. */
    method DeleteFulfilled(code: string)
      modifies this
      ensures !loading && items == FilterOut(old(items), SameCode(code))
      ensures error == old(error) && pagination == old(pagination)
    {
      loading := false;
      items := FilterOut(items, SameCode(code));
    }
  }
}
