/**
 * The outcome of one HTTP request, as the screens see it. The network and
 * the server are not modelled: every request is answered by a value the
 * caller supplies.
 */
module Http {

  /**
   * A request resolves to a response with its status code and decoded
   * body, or fails: the transport fails, or the body is not the JSON the
   * screen decodes (both end in the screen's `catch`).
   */
  datatype Reply<B> = Response(status: int, body: B) | TransportFailure

  /** `response.ok`: the status is in the 2xx range. */
  predicate IsOk(status: int) {
    200 <= status <= 299
  }

  /** The reply is a response with a 2xx status (what `response.ok` and axios's default checks accept). */
  predicate Succeeded<B>(r: Reply<B>) {
    r.Response? && IsOk(r.status)
  }
}
