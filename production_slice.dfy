/** `productionSlice`: the production suggestions shown on the dashboard. */
module ProductionSlice {
  import opened Outcomes
  import opened Reducers
  import opened ProductionDto

  const FetchError := "Failed to fetch production suggestions"

  class ProductionState {
    var summary: Option<ProductionSummary>
    var loading: bool
    var error: Option<string>

    constructor ()
      ensures summary.None? && !loading && error.None?
    {
      summary := None;
      loading := false;
      error := None;
    }

    method ClearError()
      modifies this
      ensures error.None? && summary == old(summary) && loading == old(loading)
    {
      error := None;
    }

    method ClearSummary()
      modifies this
      ensures summary.None? && error == old(error) && loading == old(loading)
    {
      summary := None;
    }

    /** The previous summary stays on screen while the new one loads. */
    method Pending()
      modifies this
      ensures loading && error.None? && summary == old(summary)
    {
      loading := true;
      error := None;
    }

    method Fulfilled(payload: ProductionSummary)
      modifies this
      ensures !loading && summary == Some(payload) && error == old(error)
    {
      loading := false;
      summary := Some(payload);
    }

    /** A failed refresh keeps the previous summary. */
    method Rejected(message: Option<string>)
      modifies this
      ensures !loading && error == Some(ErrorMessage(message, FetchError)) && summary == old(summary)
    {
      loading := false;
      error := Some(ErrorMessage(message, FetchError));
    }
  }
}
