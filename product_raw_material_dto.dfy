/** The recipe-line records exchanged over HTTP and their validation rules. */
module ProductRawMaterialDto {
  import opened Outcomes
  import opened Entities

  /** The output record; the two names are optional and absent unless filled in. */
  datatype RecipeLineView = RecipeLineView(
    productCode: Code,
    rawMaterialCode: Code,
    quantity: Amount,
    rawMaterialName: Option<string> := None,
    productName: Option<string> := None)

  /** `ProductRawMaterial.toDto()`: codes and quantity, with the names of the linked product and raw material. */
  function ToView(l: RecipeLine, productName: string, rawMaterialName: string): (v: RecipeLineView)
    ensures v.productCode == l.productCode && v.rawMaterialCode == l.rawMaterialCode
    ensures v.quantity == l.quantity
    ensures v.rawMaterialName == Some(rawMaterialName) && v.productName == Some(productName)
  {
    RecipeLineView(l.productCode, l.rawMaterialCode, l.quantity, Some(rawMaterialName), Some(productName))
  }

  datatype CreateRecipeLineRequest = CreateRecipeLineRequest(rawMaterialCode: Code, quantity: Amount)

  /** `@NotBlank @Size(1, 50)` on the code; `@NotNull @Positive @DecimalMin("0.01")` on the quantity. */
  predicate ValidCreate(r: CreateRecipeLineRequest)
  {
    NotBlank(r.rawMaterialCode) && 1 <= |r.rawMaterialCode| <= 50 && r.quantity > 0 && r.quantity >= 1
  }

  datatype UpdateRecipeLineRequest = UpdateRecipeLineRequest(quantity: Amount)

  predicate ValidUpdate(r: UpdateRecipeLineRequest)
  {
    r.quantity > 0 && r.quantity >= 1
  }
}
