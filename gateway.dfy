/**
 * The worker's `fetch` handler: a chain of early returns over the request method, the
 * parsed body and the result of the call to the completions endpoint. Every response
 * carries `Access-Control-Allow-Origin: *`.
 */
module Gateway {
  import opened Wrappers
  import opened JsValue

  const AllowOrigin: string := "Access-Control-Allow-Origin"

  /** Headers of the answer to a CORS preflight. */
  const PreflightHeaders: map<string, string> := map[
    AllowOrigin := "*",
    "Access-Control-Allow-Methods" := "POST, OPTIONS",
    "Access-Control-Allow-Headers" := "Content-Type"]

  /** Headers of every other response. */
  const JsonHeaders: map<string, string> := map[
    "Content-Type" := "application/json",
    AllowOrigin := "*"]

  const MethodNotAllowed: string := "Method not allowed. Only POST is supported."
  const InvalidMessages: string := "'messages' must be a valid array."
  const EmptyMessages: string := "'messages' array cannot be empty."
  const InternalError: string := "Internal server error. Please try again later."
  const UpstreamErrorPrefix: string := "OpenAI API error: "
  const CompletionModel: string := "gpt-4o"
  /** The one status in 300..599 that `new Response` refuses together with a body. */
  const NotModified: int := 304

  /** A response: status, headers and the JSON document of the body (`None`: no body). */
  datatype Response = Response(status: int, headers: map<string, string>, body: Option<Value>)

  /** How the call to the completions endpoint ended. */
  datatype Upstream =
    | FetchThrew
      // `text` is what `.text()` reads on failure, `json` what `.json()` parses on success
    | Answered(status: int, statusText: string, text: string, json: Option<Value>)

  /** What the worker sends to the completions endpoint. */
  datatype Payload = Payload(model: string, messages: seq<Value>)

  /** `response.ok` */
  predicate IsOk(status: int) {
    200 <= status <= 299
  }

  function ErrorDoc(message: string): Value {
    Obj(map["error" := Str(message)])
  }

  predicate IsErrorDoc(v: Value) {
    v.Obj? && v.fields.Keys == {"error"} && v.fields["error"].Str?
  }

  function ErrorResponse(status: int, message: string): Response {
    Response(status, JsonHeaders, Some(ErrorDoc(message)))
  }

  /** Where the body checks lead: the messages to forward, or the response returned early. */
  datatype Checked = Forward(messages: seq<Value>) | Reject(response: Response)

  /**
   * The body checks inside the try block. `body` is what `request.json()` produced,
   * `None` when it threw on malformed JSON.
   */
  function CheckBody(body: Option<Value>): Checked {
    match body
    case None => Reject(ErrorResponse(500, InternalError))
    case Some(doc) =>
      if Nullish(doc) then Reject(ErrorResponse(500, InternalError))  // reading `.messages` throws
      else
        var messages := Member(doc, "messages");
        if !Truthy(messages) || !messages.Arr? then Reject(ErrorResponse(400, InvalidMessages))
        else if |messages.items| == 0 then Reject(ErrorResponse(400, EmptyMessages))
        else Forward(messages.items)
  }

  /** The request body sent upstream: the fixed model and the client's messages untouched. */
  function ForwardedPayload(messages: seq<Value>): Payload {
    Payload(CompletionModel, messages)
  }

  /**
   * The part of the try block after the call. A failing status is passed on with an
   * error naming only the status text. `new Response` throws a RangeError for a status
   * outside 200..599, and a TypeError for 304, a status that may not carry a body; the
   * catch turns either into 500 like every other throw.
   */
  function Relay(upstream: Upstream): Response {
    match upstream
    case FetchThrew => ErrorResponse(500, InternalError)
    case Answered(status, statusText, _, json) =>
      if !IsOk(status) then
        if 200 <= status <= 599 && status != NotModified then ErrorResponse(status, UpstreamErrorPrefix + statusText)
        else ErrorResponse(500, InternalError)
      else match json
        case None => ErrorResponse(500, InternalError)
        case Some(data) => Response(200, JsonHeaders, Some(data))
  }

  /**
   * The handler. `body` is only read for POST and `upstream` only used when the body
   * passed the checks. Every response allows any origin, and every response whose status
   * is not a success carries an `{"error": …}` document.
   */
  function Handle(verb: string, body: Option<Value>, upstream: Upstream): (r: Response)
    ensures AllowOrigin in r.headers && r.headers[AllowOrigin] == "*"
    ensures !IsOk(r.status) ==> r.body.Some? && IsErrorDoc(r.body.value)
    ensures r.status in {200, 204, 400, 405, 500}
            || (upstream.Answered? && r.status == upstream.status && 300 <= r.status <= 599
                && r.status != NotModified)
  {
    if verb == "OPTIONS" then Response(204, PreflightHeaders, None)
    else if verb != "POST" then ErrorResponse(405, MethodNotAllowed)
    else match CheckBody(body)
      case Reject(response) => response
      case Forward(_) => Relay(upstream)
  }

  /** The call the handler makes upstream, if any. */
  function Forwarded(verb: string, body: Option<Value>): Option<Payload> {
    if verb == "POST" && CheckBody(body).Forward? then Some(ForwardedPayload(CheckBody(body).messages))
    else None
  }

  // The paths through the handler.

  /** A preflight is answered 204 with no body and the three CORS headers, whatever the body. */
  lemma PreflightAnswered(body: Option<Value>, upstream: Upstream)
    ensures Handle("OPTIONS", body, upstream) == Response(204, PreflightHeaders, None)
    ensures Forwarded("OPTIONS", body) == None
    ensures PreflightHeaders[AllowOrigin] == "*"
            && PreflightHeaders["Access-Control-Allow-Methods"] == "POST, OPTIONS"
            && PreflightHeaders["Access-Control-Allow-Headers"] == "Content-Type"
  {
  }

  /** Any other method than OPTIONS and POST is refused with 405. */
  lemma OnlyPostAccepted(verb: string, body: Option<Value>, upstream: Upstream)
    requires verb != "OPTIONS" && verb != "POST"
    ensures Handle(verb, body, upstream) == ErrorResponse(405, MethodNotAllowed)
    ensures Forwarded(verb, body) == None
  {
  }

  /** Malformed JSON and a `null` body end in the catch: 500. */
  lemma UnreadableBodyIsInternalError(body: Option<Value>, upstream: Upstream)
    requires body == None || body == Some(Null)
    ensures Handle("POST", body, upstream) == ErrorResponse(500, InternalError)
    ensures Forwarded("POST", body) == None
  {
  }

  /**
   * A `messages` field that is missing, falsy or not an array is refused with 400 before
   * any emptiness check; an empty array is refused with its own 400.
   */
  lemma MessagesValidated(doc: Value, upstream: Upstream)
    requires !Nullish(doc)
    ensures var messages := Member(doc, "messages");
            var r := Handle("POST", Some(doc), upstream);
            (!messages.Arr? ==> r == ErrorResponse(400, InvalidMessages))
            && (messages == Arr([]) ==> r == ErrorResponse(400, EmptyMessages))
            && (Forwarded("POST", Some(doc)).Some? <==> messages.Arr? && messages.items != [])
  {
  }

  /**
   * The handler calls upstream exactly when the body passes the checks, and then sends
   * the fixed model with the client's messages unchanged.
   */
  lemma ForwardedIffValid(verb: string, doc: Value)
    ensures Forwarded(verb, Some(doc)).Some?
            <==> verb == "POST" && !Nullish(doc) && Member(doc, "messages").Arr? && Member(doc, "messages").items != []
    ensures Forwarded(verb, Some(doc)).Some? ==>
              Forwarded(verb, Some(doc)).value == Payload("gpt-4o", Member(doc, "messages").items)
  {
  }

  /** When nothing is forwarded, the response does not depend on any upstream result. */
  lemma NoCallNoUpstreamInfluence(verb: string, body: Option<Value>, u1: Upstream, u2: Upstream)
    requires Forwarded(verb, body) == None
    ensures Handle(verb, body, u1) == Handle(verb, body, u2)
  {
  }

  /**
   * For a forwarded request: a thrown call or unparsable JSON is 500; a failing status
   * in 300..599 other than 304 is passed on with an error built from the status text
   * alone, while 304 and a status outside that range are 500; a success relays the
   * upstream document unchanged with status 200.
   */
  lemma UpstreamMapped(body: Option<Value>, upstream: Upstream)
    requires Forwarded("POST", body).Some?
    ensures var r := Handle("POST", body, upstream);
            (upstream.FetchThrew? ==> r == ErrorResponse(500, InternalError))
            && (upstream.Answered? && !IsOk(upstream.status) && 300 <= upstream.status <= 599
                && upstream.status != 304 ==>
                  r == ErrorResponse(upstream.status, "OpenAI API error: " + upstream.statusText))
            && (upstream.Answered? && (upstream.status == 304 || upstream.status < 200 || 599 < upstream.status) ==>
                  r == ErrorResponse(500, InternalError))
            && (upstream.Answered? && IsOk(upstream.status) && upstream.json.None? ==>
                  r == ErrorResponse(500, InternalError))
            && (upstream.Answered? && IsOk(upstream.status) && upstream.json.Some? ==>
                  r == Response(200, JsonHeaders, upstream.json))
  {
  }

  /** The upstream's error body is logged, never returned: the response ignores it. */
  lemma UpstreamBodyNotEchoed(verb: string, body: Option<Value>, status: int, statusText: string,
                              text1: string, text2: string, json: Option<Value>)
    requires !IsOk(status)
    ensures Handle(verb, body, Answered(status, statusText, text1, json))
         == Handle(verb, body, Answered(status, statusText, text2, json))
  {
  }
}
