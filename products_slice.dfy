/** The products slice of the Redux store: the status of the latest catalog
    fetch (`isLoading`, `isSuccess`, `isError`, `error`) and its last
    successful response (`data`), updated in place by the `pending`,
    `fulfilled` and `rejected` cases of the `fetchProducts` thunk. The HTTP
    request itself is not modelled; its outcome is the argument of
    `Fulfilled` or `Rejected`. */
module ProductsSlice {
  import opened Js

  /** A catalog record as the server sends it; every pricing field may be
      missing or null. */
  datatype RawProduct = RawProduct(
    id: string,
    name: string,
    mainCategory: Field<string>,
    front: Field<string>,
    originalPrice: Field<int>,
    discountedPrice: Field<int>,
    discountPercent: Field<real>,
    discountPercentage: Field<real>,
    initialQuantity: Field<int>)

  /** `ProductsApiData`. `records` is `None` when the `data` property is not
      an array. */
  datatype ProductsPage = ProductsPage(
    totalRecords: int,
    totalPages: int,
    currentPage: int,
    pageSize: int,
    records: Option<seq<RawProduct>>)

  /** `ProductsApiResponse`; `data` is `None` when the property is missing. */
  datatype ProductsResponse = ProductsResponse(
    es: int,
    message: string,
    statusCode: int,
    data: Option<ProductsPage>)

  /** The records of `data?.data?.data` when that is an array. */
  function PageRecords(data: Option<ProductsResponse>): Option<seq<RawProduct>>
  {
    if data.Some? && data.value.data.Some? then data.value.data.value.records else None
  }

  class ProductsState {
    var data: Option<ProductsResponse>
    var error: Option<string>
    var isLoading: bool
    var isSuccess: bool
    var isError: bool

    /** An error message is only ever held while `isError` is set. */
    ghost predicate Valid()
      reads this
    {
      !isError ==> error == None
    }

    /** `initialState`. */
    constructor ()
      ensures data == None && error == None
      ensures !isLoading && !isSuccess && !isError
      ensures Valid()
    {
      data := None;
      error := None;
      isLoading := false;
      isSuccess := false;
      isError := false;
    }

    /** `fetchProducts.pending`: a fetch is under way; the previous data and
        success flag stay. */
    method Pending()
      modifies this
      ensures isLoading && !isError && error == None
      ensures data == old(data) && isSuccess == old(isSuccess)
      ensures Valid()
    {
      isLoading := true;
      isError := false;
      error := None;
    }

    /** `fetchProducts.fulfilled`: the payload replaces the data. */
    method Fulfilled(payload: ProductsResponse)
      modifies this
      ensures !isLoading && !isError && error == None && isSuccess
      ensures data == Some(payload)
      ensures Valid()
    {
      isLoading := false;
      isError := false;
      error := None;
      isSuccess := true;
      data := Some(payload);
    }

    /** `fetchProducts.rejected`: `message` is the action's `error.message`,
        an opaque input here. The previous data and success flag stay. */
    method Rejected(message: Option<string>)
      modifies this
      ensures !isLoading && isError && error == message
      ensures data == old(data) && isSuccess == old(isSuccess)
      ensures Valid()
    {
      isLoading := false;
      isError := true;
      error := message;
    }
  }
}
