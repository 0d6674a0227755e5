/**
 * The small part of HTTP the two route handlers rely on: header lists,
 * `Response.ok`, and the `e.message || 'Internal error'` fallback both
 * handlers use when an exception reaches their `catch`.
 */
module Http {
  import opened Wrappers

  /** One header line; a header list keeps the order it was written in. */
  datatype Header = Header(name: string, value: string)

  /** The JSON content type every outbound request and every JSON answer carries. */
  const JsonContentType: Header := Header("Content-Type", "application/json")

  /**
   * The value written under `name` in a header list the handlers build from an
   * object literal (where each name occurs once): the first entry with that
   * name, or `None` when there is none.
   */
  function HeaderValue(headers: seq<Header>, name: string): (r: Option<string>)
    ensures r.None? <==> forall i :: 0 <= i < |headers| ==> headers[i].name != name
    ensures r.Some? ==> exists i :: 0 <= i < |headers| && headers[i] == Header(name, r.value) &&
                                    forall j :: 0 <= j < i ==> headers[j].name != name
    decreases |headers|
  {
    if headers == [] then None
    else if headers[0].name == name then Some(headers[0].value)
    else
      var rest := HeaderValue(headers[1..], name);
      assert forall j :: 1 <= j < |headers| ==> headers[j] == headers[1..][j - 1];
      rest
  }

  /** `Response.ok`: the status is in the range 200-299. */
  predicate IsOk(status: int) {
    200 <= status <= 299
  }

  const InternalError: string := "Internal error"

  /** The `error` text of a caught exception: its message, or a fixed text when the message is empty. */
  function ErrorMessage(message: string): (r: string)
    ensures r != ""
    ensures message != "" ==> r == message
    ensures message == "" ==> r == InternalError
  {
    if message != "" then message else InternalError
  }
}
