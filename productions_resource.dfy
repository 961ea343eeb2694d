/**
 * `ProductionsResource`: `POST /productions` and
 * `POST /productions/{id}/confirm`. The confirm endpoint turns the batch
 * counts into a status and a message, and each exception into a status.
 */
module ProductionsResource {
  import opened Outcomes
  import opened Entities
  import opened Decimal
  import opened ProductionDto
  import opened ProductionConfirmation
  import opened ApiResponses

  /** 200 when nothing failed, 400 when nothing succeeded, 202 otherwise. */
  function ConfirmStatus(result: ConfirmProductionResponse): (s: int)
    ensures s == OK <==> result.failureCount == 0
    ensures s == BAD_REQUEST <==> result.failureCount != 0 && result.successCount == 0
    ensures s == ACCEPTED <==> result.failureCount != 0 && result.successCount != 0
  {
    if result.failureCount == 0 then OK
    else if result.successCount == 0 then BAD_REQUEST
    else ACCEPTED
  }

  /** The message, by the same three-way split; the partial case reports both counts. */
  function ConfirmMessage(result: ConfirmProductionResponse): (m: string)
    ensures result.failureCount == 0 ==> m == "Production confirmed successfully"
    ensures result.failureCount != 0 && result.successCount == 0 ==> m == "All production items failed"
    ensures result.failureCount != 0 && result.successCount != 0 ==>
      m == IntToString(result.successCount) + " items confirmed, " + IntToString(result.failureCount) + " items failed"
  {
    if result.failureCount == 0 then "Production confirmed successfully"
    else if result.successCount == 0 then "All production items failed"
    else IntToString(result.successCount) + " items confirmed, " + IntToString(result.failureCount) + " items failed"
  }

  /** The answer for a batch that ran: the flag is set exactly when nothing failed. */
  function Confirmed(result: ConfirmProductionResponse): (h: HttpResponse<ConfirmProductionResponse>)
    ensures h.status == ConfirmStatus(result)
    ensures h.body.success <==> result.failureCount == 0
    ensures h.body.data == Some(result) && h.body.message == Some(ConfirmMessage(result))
  {
    HttpResponse(ConfirmStatus(result), ApiResponse(result.failureCount == 0, Some(result), Some(ConfirmMessage(result))))
  }

  /** The catch clauses of `confirm`: 409, 400, 400, and 500 for anything else. */
  function ConfirmFailed(f: Failure): (h: HttpResponse<ConfirmProductionResponse>)
    ensures !h.body.success && h.body.data.None?
    ensures f.Concurrency? ==> h.status == CONFLICT && h.body.message == Some(f.message)
    ensures f.InsufficientStock? || f.BadRequest? ==> h.status == BAD_REQUEST && h.body.message == Some(f.message)
    ensures !(f.Concurrency? || f.InsufficientStock? || f.BadRequest?) ==>
      h.status == INTERNAL_SERVER_ERROR && h.body.message == Some("An error occurred: " + f.message)
  {
    match f
    case Concurrency(message) => HttpResponse(CONFLICT, ApiResponse(false, None, Some(message)))
    case InsufficientStock(message, _, _, _) => HttpResponse(BAD_REQUEST, ApiResponse(false, None, Some(message)))
    case BadRequest(message) => HttpResponse(BAD_REQUEST, ApiResponse(false, None, Some(message)))
    case _ => HttpResponse(INTERNAL_SERVER_ERROR, ApiResponse(false, None, Some("An error occurred: " + f.message)))
  }

  /** `confirm`, given what `confirmProductionById` returned or threw. */
  function Confirm(outcome: Result<ConfirmProductionResponse>): (h: HttpResponse<ConfirmProductionResponse>)
    ensures outcome.Ok? ==> h == Confirmed(outcome.value)
    ensures outcome.Err? ==> h == ConfirmFailed(outcome.failure)
    ensures outcome.Err? && outcome.failure.NotFound? ==> h.status == INTERNAL_SERVER_ERROR
  {
    match outcome
    case Ok(result) => Confirmed(result)
    case Err(f) => ConfirmFailed(f)
  }

  /** `create`: 201 with the new production. */
  function Created(production: ProductionView): (h: HttpResponse<ProductionView>)
    ensures h.status == CREATED && h.body.success
    ensures h.body.data == Some(production) && h.body.message == Some("Production created successfully")
  {
    HttpResponse(CREATED, ApiResponse(true, Some(production), Some("Production created successfully")))
  }

  /** All results succeed exactly when the success count is the number of results. */
  lemma {:induction false} SuccessesAll(rs: seq<ConfirmItemResult>)
    ensures Successes(rs) <= |rs|
    ensures Successes(rs) == |rs| <==> forall i :: 0 <= i < |rs| ==> rs[i].success
    decreases |rs|
  {
    if rs != [] {
      var prefix := rs[..|rs| - 1];
      SuccessesAll(prefix);
      assert forall i :: 0 <= i < |prefix| ==> prefix[i] == rs[i];
    }
  }

  /** No result succeeds exactly when the success count is zero. */
  lemma {:induction false} SuccessesNone(rs: seq<ConfirmItemResult>)
    ensures Successes(rs) == 0 <==> forall i :: 0 <= i < |rs| ==> !rs[i].success
    decreases |rs|
  {
    if rs != [] {
      var prefix := rs[..|rs| - 1];
      SuccessesNone(prefix);
      assert forall i :: 0 <= i < |prefix| ==> prefix[i] == rs[i];
    }
  }

  /**
   * For a batch whose counts were kept as `confirmProduction` keeps them,
   * the status says which items went through: 200 when all did, 400 when
   * none did, 202 when some did.
   */
  lemma ConfirmStatusReflectsItems(products: map<Code, Product>, items: seq<ProductionItemRequest>,
                                   result: ConfirmProductionResponse)
    requires Bookkept(products, items, result) && items != []
    ensures ConfirmStatus(result) == OK <==> forall i :: 0 <= i < |items| ==> result.items[i].success
    ensures ConfirmStatus(result) == BAD_REQUEST <==> forall i :: 0 <= i < |items| ==> !result.items[i].success
    ensures ConfirmStatus(result) == ACCEPTED <==>
      (exists i :: 0 <= i < |items| && result.items[i].success)
      && (exists i :: 0 <= i < |items| && !result.items[i].success)
  {
    SuccessesAll(result.items);
    SuccessesNone(result.items);
  }
}
