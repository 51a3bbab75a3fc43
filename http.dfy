/** What a `fetch` call can give back, once the network is treated as an input. */
module Http {
  import opened Wrappers

  /**
   * The outcome of one outbound request: either the call threw (transport
   * failure, or a body that is not JSON), or a response arrived with its
   * `ok` flag and its parsed body.
   */
  datatype HttpOutcome<+T> = Threw | Response(ok: bool, body: T)

  /** `result?.[0]`: the first entry of an optional list. */
  function FirstResult<T>(results: Option<seq<T>>): (r: Option<T>)
    ensures r.Some? <==> results.Some? && |results.value| > 0
    ensures r.Some? ==> r.value == results.value[0]
  {
    match results
    case Some(s) => if |s| > 0 then Some(s[0]) else None
    case None => None
  }
}
