/** The completed-call description the client returns. */
module Responses {
  import opened Wrappers

  /** Status code, single-valued headers, and the body text (absent when the
      transport provided no stream). */
  datatype Response = Response(
    statusCode: int,
    headers: map<string, string> := map[],
    body: Option<string>)
}
