/**
 * `productRawMaterialsSlice`: the recipe lines of the product on screen.
 * Lines are identified by their (productCode, rawMaterialCode) pair.
 */
module ProductRawMaterialsSlice {
  import opened Outcomes
  import opened Reducers
  import opened ProductRawMaterialDto

  datatype Thunk = Fetch | Create | Update | Delete

  function DefaultError(t: Thunk): string
  {
    match t
    case Fetch => "Failed to fetch associations"
    case Create => "Failed to create association"
    case Update => "Failed to update association"
    case Delete => "Failed to delete association"
  }

  /** Whether a line links exactly the given pair. */
  function SamePair(productCode: string, rawMaterialCode: string): RecipeLineView -> bool
  {
    (l: RecipeLineView) => l.productCode == productCode && l.rawMaterialCode == rawMaterialCode
  }

  /** Deleting one pair keeps every line of another pair, even of the same product or raw material. */
  lemma DeleteKeepsOtherPairs(items: seq<RecipeLineView>, productCode: string, rawMaterialCode: string, i: int)
    requires 0 <= i < |items|
    requires items[i].productCode != productCode || items[i].rawMaterialCode != rawMaterialCode
    ensures items[i] in FilterOut(items, SamePair(productCode, rawMaterialCode))
  {
  }

  class ProductRawMaterialsState {
    var items: seq<RecipeLineView>
    var loading: bool
    var error: Option<string>

    constructor ()
      ensures items == [] && !loading && error.None?
    {
      items := [];
      loading := false;
      error := None;
    }

    /** `clearError`. */
    method ClearError()
      modifies this
      ensures error.None? && items == old(items) && loading == old(loading)
    {
      error := None;
    }

    /** `clearItems`. */
    method ClearItems()
      modifies this
      ensures items == [] && error == old(error) && loading == old(loading)
    {
      items := [];
    }

    method Pending()
      modifies this
      ensures loading && error.None? && items == old(items)
    {
      loading := true;
      error := None;
    }

    method Rejected(thunk: Thunk, message: Option<string>)
      modifies this
      ensures !loading && error == Some(ErrorMessage(message, DefaultError(thunk))) && items == old(items)
    {
      loading := false;
      error := Some(ErrorMessage(message, DefaultError(thunk)));
    }

    /** `fetchProductRawMaterials.fulfilled`: the payload carries the product code and its lines; the lines replace the list. */
    method FetchFulfilled(productCode: string, payload: seq<RecipeLineView>)
      modifies this
      ensures !loading && items == payload && error == old(error)
    {
      loading := false;
      items := payload;
    }

    method CreateFulfilled(payload: RecipeLineView)
      modifies this
      ensures !loading && items == old(items) + [payload] && error == old(error)
    {
      loading := false;
      items := items + [payload];
    }

    /** `updateProductRawMaterial.fulfilled`: the first line of the payload's pair is replaced. */
    method UpdateFulfilled(payload: RecipeLineView)
      modifies this
      ensures !loading && error == old(error)
      ensures items == ReplaceFirst(old(items), SamePair(payload.productCode, payload.rawMaterialCode), payload)
    {
      loading := false;
      var index := FindIndex(items, SamePair(payload.productCode, payload.rawMaterialCode));
      if index != -1 {
        items := items[index := payload];
      }
    }

    /** `deleteProductRawMaterial.fulfilled`: every line of the pair goes. */
    method DeleteFulfilled(productCode: string, rawMaterialCode: string)
      modifies this
      ensures !loading && error == old(error)
      ensures items == FilterOut(old(items), SamePair(productCode, rawMaterialCode))
    {
      loading := false;
      items := FilterOut(items, SamePair(productCode, rawMaterialCode));
    }
  }
}
