/**
 * The response builders shared by the handlers (`response_wrapper.js`, in `lambda/` and
 * `opt/`): the HTTP response of the API handlers, the error labels, the `ResponseError`
 * exception and the envelope the dispatch engine answers with.
 */
module ResponseWrapper {
  import opened Wrappers
  import opened Json

  /** `ServerErrorMessages`: the labels an envelope's `errorMessage` can carry. */
  datatype ServerError = NotFound | InvalidParameters {
    function Label(): string {
      if NotFound? then "not_found" else "invalid_parameters"
    }
  }

  function ParseLabel(s: string): Option<ServerError> {
    if s == "not_found" then Some(NotFound)
    else if s == "invalid_parameters" then Some(InvalidParameters)
    else None
  }

  /** The labels are exactly `not_found` and `invalid_parameters`, and each names one error. */
  lemma Labels(s: string)
    ensures ParseLabel(s).Some? <==> s in ["not_found", "invalid_parameters"]
    ensures forall e: ServerError :: ParseLabel(e.Label()) == Some(e)
  {
  }

  /**
   * An exception raised inside the engine: a `ResponseError` carrying its message, or any
   * other error (a store or provider failure, a type error).
   */
  datatype Failure = ResponseError(message: string) | Internal(reason: string) {
    /** The exception's `name`. */
    function Name(): string {
      if ResponseError? then "ResponseError" else "Error"
    }
  }

  /** `new ResponseError(e)` for one of the labels. */
  function Raise(e: ServerError): (f: Failure)
    ensures f.Name() == "ResponseError" && f.message == e.Label()
    ensures ParseLabel(f.message) == Some(e)
  {
    ResponseError(e.Label())
  }

  /** A `ResponseError` keeps the message it was built with and is named `ResponseError`. */
  lemma ResponseErrorKeepsMessage(m: string)
    ensures ResponseError(m).message == m && ResponseError(m).Name() == "ResponseError"
    ensures forall r: string :: Internal(r).Name() != "ResponseError"
  {
  }

  /** The two headers every API response carries. */
  const Headers: seq<(string, Json)> := [
    ("Access-Control-Allow-Credentials", JBool(true)),
    ("Content-Type", JStr("application/json; charset=utf-8"))]

  datatype HttpResponse = HttpResponse(statusCode: int, headers: seq<(string, Json)>, body: Option<Json>)

  /**
   * `createResponse`: the status code and the fixed headers; a truthy body is attached,
   * serialised when it is an object or an array, and a falsy one is left out.
   */
  function CreateResponse(body: Option<Json>, statusCode: int): (r: HttpResponse)
    ensures r.statusCode == statusCode && r.headers == Headers
    ensures r.body.Some? <==> Present(body)
    ensures Present(body) && (body.value.JObj? || body.value.JArr?) ==> r.body == Some(JStr(Stringify(body.value)))
    ensures Present(body) && !(body.value.JObj? || body.value.JArr?) ==> r.body == body
  {
    var response := HttpResponse(statusCode, Headers, None);
    if !Present(body) then response
    else if body.value.JObj? || body.value.JArr? then response.(body := Some(JStr(Stringify(body.value))))
    else response.(body := body)
  }

  /** A response body is always text when the handler's body is a record or text. */
  lemma ResponseBodyIsText(body: Json, statusCode: int)
    requires Truthy(body) && (body.JObj? || body.JStr?)
    ensures CreateResponse(Some(body), statusCode).body.Some?
    ensures CreateResponse(Some(body), statusCode).body.value.JStr?
  {
  }

  /** The answer to one request: its `requestID`, an error label or a response, or neither. */
  datatype Envelope<T> = Envelope(requestID: Json, errorMessage: Option<string>, response: Option<T>)

  /**
   * `createServerResponse`: always the request id; the error message only when it is
   * truthy; the data only when there is some.
   */
  function CreateServerResponse<T>(requestID: Json, errorMessage: Option<string>, data: Option<T>): (r: Envelope<T>)
    ensures r.requestID == requestID
    ensures r.errorMessage.Some? <==> errorMessage.Some? && errorMessage.value != ""
    ensures r.errorMessage.Some? ==> r.errorMessage == errorMessage
    ensures r.response == data
  {
    var response := Envelope(requestID, None, None);
    var withError := if errorMessage.Some? && errorMessage.value != "" then response.(errorMessage := errorMessage) else response;
    withError.(response := data)
  }
}
