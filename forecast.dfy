/**
 * What the throughput and the signal-strength forecasters share in their
 * `handlePredict`: the guard against a missing locality and the message an
 * error falls back to.
 */
module Forecast {
  import opened Wrappers

  const SelectLocalityError: string := "Please select a locality"
  const DefaultFailure: string := "Failed to generate predictions"

  /** `!selectedLocality`: only the empty string is falsy. */
  predicate NoLocality(locality: string)
  {
    locality == []
  }

  /**
   * `error.response?.data?.error || 'Failed to generate predictions'`: the
   * server's message when there is a non-empty one, the fallback otherwise.
   */
  function FailureMessage(serverError: Option<string>): (m: string)
    ensures m != []
    ensures serverError.Some? && serverError.value != [] ==> m == serverError.value
    ensures serverError.None? || serverError.value == [] ==> m == DefaultFailure
  {
    match serverError
    case Some(e) => if e != [] then e else DefaultFailure
    case None => DefaultFailure
  }
}
