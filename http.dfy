/**
 * The network as the model sees it: every HTTP call is a request value that the
 * model records, answered by an abstract reply that the caller supplies.
 * A reply is either a response body or the error axios throws (for a non-2xx
 * status, a transport failure, ...).
 */
module Http {

  import opened JsValues

  datatype Reply = Answered(data: JsValue) | Failed(fault: Fault)

  /** Requests to the identity platform and to Microsoft Graph. */
  datatype GraphRequest =
    | TokenPost(tenantId: string, form: seq<(string, string)>)
    | GraphGet(url: string, authorization: string)

  /** The `Authorization` header value for a bearer token. */
  function Bearer(token: JsValue): string {
    "Bearer " + ToJsString(token)
  }
}
