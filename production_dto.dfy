/** The production records exchanged over HTTP and their validation rules. */
module ProductionDto {
  import opened Outcomes
  import opened Entities
  import opened ProductDto

  datatype ProductionSuggestion = ProductionSuggestion(
    product: ProductView, producibleQuantity: int, totalValue: Amount)

  datatype ProductionSummary = ProductionSummary(
    suggestions: seq<ProductionSuggestion>, totalValue: Amount)

  datatype ProductionItemRequest = ProductionItemRequest(productCode: Code, quantity: int)

  const MaxItemQuantity: int := 1000000
  const MaxItems: int := 100

  /** `@NotBlank @Size(1, 50)` on the code; `@Positive @Min(1) @Max(1000000)` on the quantity. */
  predicate ValidItemRequest(r: ProductionItemRequest)
  {
    NotBlank(r.productCode) && 1 <= |r.productCode| <= 50
    && r.quantity > 0 && 1 <= r.quantity <= MaxItemQuantity
  }

  datatype ConfirmProductionRequest = ConfirmProductionRequest(items: seq<ProductionItemRequest>)

  /** `@Size(1, 100)` on the list, and `@Valid` on every element. */
  predicate ValidConfirmRequest(r: ConfirmProductionRequest)
  {
    1 <= |r.items| <= MaxItems && forall i :: 0 <= i < |r.items| ==> ValidItemRequest(r.items[i])
  }

  /** An item of a valid request is a valid production item. */
  lemma ValidRequestGivesValidItems(r: ConfirmProductionRequest)
    requires ValidConfirmRequest(r)
    ensures forall i :: 0 <= i < |r.items| ==>
      ValidProductionItem(ProductionItem(r.items[i].productCode, r.items[i].quantity))
  {
  }

  /** The message is optional; it is null unless a message is given. */
  datatype ConfirmItemResult = ConfirmItemResult(
    productCode: Code,
    productName: string,
    quantity: int,
    totalValue: Amount,
    success: bool,
    message: Option<string> := None)

  datatype ConfirmProductionResponse = ConfirmProductionResponse(
    items: seq<ConfirmItemResult>, totalValue: Amount, successCount: int, failureCount: int)

  datatype ProductionItemView = ProductionItemView(productCode: Code, quantity: int)

  /** What `createProduction` answers: the new id, the status name, its items and the creation instant. */
  datatype ProductionView = ProductionView(
    id: int, status: string, items: seq<ProductionItemView>, createdAt: int)

  /** `ProductionStatus.name`. */
  function StatusName(s: ProductionStatus): (n: string)
    ensures n == "PENDING" <==> s == PENDING
    ensures n == "CONFIRMED" <==> s == CONFIRMED
  {
    match s
    case PENDING => "PENDING"
    case CONFIRMED => "CONFIRMED"
  }
}
