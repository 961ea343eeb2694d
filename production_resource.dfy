/**
 * `ProductionResource`: `GET /production/suggestions` and
 * `POST /production/confirm`. The confirm endpoint maps counts as
 * `ProductionsResource` does, but has no BadRequest clause.
 */
module ProductionResource {
  import opened Outcomes
  import opened ProductionDto
  import opened ApiResponses
  import ProductionsResource

  /** `getProductionSuggestions`: always 200 with the summary and no message. */
  function Suggestions(summary: ProductionSummary): (h: HttpResponse<ProductionSummary>)
    ensures h.status == OK && h.body.success && h.body.data == Some(summary) && h.body.message.None?
  {
    HttpResponse(OK, ApiResponse(true, Some(summary), None))
  }

  /** The catch clauses of `confirmProduction`: 409, 400 for insufficient stock, 500 for anything else. */
  function ConfirmFailed(f: Failure): (h: HttpResponse<ConfirmProductionResponse>)
    ensures !h.body.success && h.body.data.None?
    ensures f.Concurrency? ==> h.status == CONFLICT && h.body.message == Some(f.message)
    ensures f.InsufficientStock? ==> h.status == BAD_REQUEST && h.body.message == Some(f.message)
    ensures !(f.Concurrency? || f.InsufficientStock?) ==>
      h.status == INTERNAL_SERVER_ERROR && h.body.message == Some("An error occurred: " + f.message)
  {
    match f
    case Concurrency(message) => HttpResponse(CONFLICT, ApiResponse(false, None, Some(message)))
    case InsufficientStock(message, _, _, _) => HttpResponse(BAD_REQUEST, ApiResponse(false, None, Some(message)))
    case _ => HttpResponse(INTERNAL_SERVER_ERROR, ApiResponse(false, None, Some("An error occurred: " + f.message)))
  }

  /** `confirmProduction`, given what the service returned or threw. */
  function ConfirmProduction(outcome: Result<ConfirmProductionResponse>): (h: HttpResponse<ConfirmProductionResponse>)
    ensures outcome.Ok? ==> h == ProductionsResource.Confirmed(outcome.value)
    ensures outcome.Err? ==> h == ConfirmFailed(outcome.failure)
  {
    match outcome
    case Ok(result) => ProductionsResource.Confirmed(result)
    case Err(f) => ConfirmFailed(f)
  }

  /**
   * The two confirm endpoints agree on every outcome except a BadRequest,
   * which is 400 under `/productions` and 500 here.
   */
  lemma ConfirmEndpointsAgree(outcome: Result<ConfirmProductionResponse>)
    ensures !(outcome.Err? && outcome.failure.BadRequest?) ==>
      ConfirmProduction(outcome) == ProductionsResource.Confirm(outcome)
    ensures outcome.Err? && outcome.failure.BadRequest? ==>
      ConfirmProduction(outcome).status == INTERNAL_SERVER_ERROR
      && ProductionsResource.Confirm(outcome).status == BAD_REQUEST
  {
  }
}
