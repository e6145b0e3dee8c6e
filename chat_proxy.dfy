/** The serverless endpoint `/api/chat`: it answers CORS preflights, checks the
    request, and forwards the conversation to the Anthropic Messages API with
    the key only the server holds, relaying the answer or the error. The
    handler is a chain of guards, so it is modelled as one function from the
    request, the server's environment and the way the upstream call settles
    to the response it writes. */
module ChatProxy {
  import opened Basics
  import opened JsValues
  import opened Http

  const UpstreamUrl := "https://api.anthropic.com/v1/messages"
  const AnthropicVersion := "2023-06-01"
  const DefaultModel := "claude-3-5-sonnet-20241022"
  const DefaultMaxTokens := 1024
  /** The `error` texts of the responses the handler builds itself. */
  const MethodNotAllowed := "Method not allowed"
  const MessagesRequired := "Messages array is required"
  const ConfigurationError := "Server configuration error"
  const UpstreamErrorFallback := "Error calling Claude API"

  /** The CORS headers set before anything else, in the order they are set. */
  const CorsHeaders: seq<(string, string)> := [
    ("Access-Control-Allow-Credentials", "true"),
    ("Access-Control-Allow-Origin", "*"),
    ("Access-Control-Allow-Methods", "GET,OPTIONS,PATCH,DELETE,POST,PUT"),
    ("Access-Control-Allow-Headers",
     "X-CSRF-Token, X-Requested-With, Accept, Accept-Version, Content-Length, Content-MD5, Content-Type, Date, X-Api-Version")
  ]

  /** What the `catch` block reports as `message`: a TypeError from
      destructuring a `null`/`undefined` body, a TypeError from reading
      `error` of a `null` error document, or the message of a rejected
      promise (a failed `fetch`, an upstream body that is not JSON). */
  datatype Fault = DestructuringNullishBody | ReadingErrorOfNull | Thrown(message: string)

  /** The body written: none (`end()`), a JSON document (`json(...)`), or the
      `catch` block's `{error: 'Internal server error', message}`. */
  datatype ResponseBody = NoBody | JsonBody(json: Json) | InternalError(fault: Fault)

  /** The request the handler sends to the Messages API. */
  datatype UpstreamRequest = UpstreamRequest(url: string, headers: seq<(string, string)>, body: Json)

  /** Everything the handler does: the status and headers and body it writes,
      and the upstream request it issued, if it got that far. */
  datatype Response = Response(status: int, headers: seq<(string, string)>, body: ResponseBody,
                               upstream: Option<UpstreamRequest>)

  function ErrorJson(message: string): Json {
    JObject(map["error" := JString(message)])
  }

  /** `!apiKey` on `process.env.ANTHROPIC_API_KEY`: unset or empty. */
  predicate KeyMissing(apiKey: Option<string>) {
    apiKey.None? || apiKey.value == ""
  }

  /** The destructuring default: a property that is `undefined` takes the
      default value; any other value, `null` included, is kept. */
  function OrDefault(v: Val, default: Json): Json {
    if v.Defined? then v.json else default
  }

  /** The upstream request built from a (non-nullish) client body whose
      `messages` passed the guard. */
  function Forwarded(apiKey: string, body: Val): (r: UpstreamRequest)
    requires !IsNullish(body) && IsArray(Get(body, "messages").value)
    ensures r.url == UpstreamUrl
    ensures r.headers == [("Content-Type", "application/json"), ("x-api-key", apiKey),
                          ("anthropic-version", AnthropicVersion)]
    ensures r.body.JObject?
    ensures "messages" in r.body.fields && Defined(r.body.fields["messages"]) == Get(body, "messages").value
    ensures "model" in r.body.fields && r.body.fields["model"] == OrDefault(Get(body, "model").value, JString(DefaultModel))
    ensures "max_tokens" in r.body.fields
            && r.body.fields["max_tokens"] == OrDefault(Get(body, "maxTokens").value, JNumber(DefaultMaxTokens))
    ensures "system" in r.body.fields <==> Get(body, "systemPrompt").value.Defined?
    ensures "system" in r.body.fields ==> r.body.fields["system"] == Get(body, "systemPrompt").value.json
    ensures r.body.fields.Keys <= {"model", "max_tokens", "system", "messages"}
  {
    var messages := Get(body, "messages").value;
    var fields := map["model" := OrDefault(Get(body, "model").value, JString(DefaultModel)),
                      "max_tokens" := OrDefault(Get(body, "maxTokens").value, JNumber(DefaultMaxTokens))];
    var fields := WithField(fields, "system", Get(body, "systemPrompt").value);
    var fields := WithField(fields, "messages", messages);
    UpstreamRequest(UpstreamUrl,
                    [("Content-Type", "application/json"), ("x-api-key", apiKey), ("anthropic-version", AnthropicVersion)],
                    JObject(fields))
  }

  /** `errorData.error` is an object whose `message` is truthy. */
  predicate HasErrorMessage(errorData: Json) {
    && errorData.JObject? && "error" in errorData.fields
    && errorData.fields["error"].JObject? && "message" in errorData.fields["error"].fields
    && Truthy(Defined(errorData.fields["error"].fields["message"]))
  }

  /** `errorData.error?.message || 'Error calling Claude API'`; None for the
      TypeError a `null` error document throws. */
  function RelayedError(errorData: Json): (r: Option<Json>)
    ensures r.None? <==> errorData == JNull
    ensures HasErrorMessage(errorData) ==> r == Some(errorData.fields["error"].fields["message"])
    ensures errorData != JNull && !HasErrorMessage(errorData) ==> r == Some(JString(UpstreamErrorFallback))
  {
    var err :- Get(Defined(errorData), "error");
    var message := if IsNullish(err) then Undefined else Get(err, "message").value;
    Some(if Truthy(message) then message.json else JString(UpstreamErrorFallback))
  }

  /** `await response.json().catch(() => ({}))`: a body that is not JSON
      reads as an empty object. */
  function ErrorDocument(payload: Payload): Json {
    if payload.Parsed? then payload.json else JObject(map[])
  }

  /** The status and body the handler writes once the upstream call settles. */
  function Relay(upstream: FetchOutcome): (r: (int, ResponseBody))
    ensures upstream.FetchFailed? ==> r == (500, InternalError(Thrown(upstream.reason)))
    ensures upstream.Responded? && IsOk(upstream.status) ==>
              r == match upstream.body
                   case Parsed(data) => (200, JsonBody(data))
                   case Unparseable(reason) => (500, InternalError(Thrown(reason)))
    ensures upstream.Responded? && !IsOk(upstream.status) ==>
              if upstream.body == Parsed(JNull) then r == (500, InternalError(ReadingErrorOfNull))
              else r == (upstream.status,
                         JsonBody(JObject(map["error" := RelayedError(ErrorDocument(upstream.body)).value])))
    ensures r.0 == 200 || r.0 == 500 || (upstream.Responded? && r.0 == upstream.status)
  {
    match upstream
    case FetchFailed(reason) => (500, InternalError(Thrown(reason)))
    case Responded(status, payload) =>
      if !IsOk(status) then
        match RelayedError(ErrorDocument(payload))
        case None => (500, InternalError(ReadingErrorOfNull))
        case Some(e) => (status, JsonBody(JObject(map["error" := e])))
      else
        match payload
        case Parsed(data) => (200, JsonBody(data))
        case Unparseable(reason) => (500, InternalError(Thrown(reason)))
  }

  /** All guards pass: a POST whose body has an array `messages`, on a server
      that has its key. */
  predicate Forwards(verb: string, body: Val, apiKey: Option<string>) {
    && verb == "POST" && !IsNullish(body)
    && Truthy(Get(body, "messages").value) && IsArray(Get(body, "messages").value)
    && !KeyMissing(apiKey)
  }

  /** `handler(req, res)`. `upstream` is how the `fetch` to the Messages API
      settles if the handler makes it. */
  function Handle(verb: string, body: Val, apiKey: Option<string>, upstream: FetchOutcome): (r: Response)
    ensures r.headers == CorsHeaders
    ensures verb == "OPTIONS" ==> r.status == 200 && r.body == NoBody
    ensures verb != "OPTIONS" && verb != "POST" ==>
              r.status == 405 && r.body == JsonBody(ErrorJson(MethodNotAllowed))
    ensures verb == "POST" && IsNullish(body) ==>
              r.status == 500 && r.body == InternalError(DestructuringNullishBody)
    ensures verb == "POST" && !IsNullish(body) && !IsArray(Get(body, "messages").value) ==>
              r.status == 400 && r.body == JsonBody(ErrorJson(MessagesRequired))
    ensures verb == "POST" && !IsNullish(body) && IsArray(Get(body, "messages").value) && KeyMissing(apiKey) ==>
              r.status == 500 && r.body == JsonBody(ErrorJson(ConfigurationError))
    ensures r.upstream.Some? <==> Forwards(verb, body, apiKey)
    ensures r.upstream.Some? ==> r.upstream.value == Forwarded(apiKey.value, body)
                                 && (r.status, r.body) == Relay(upstream)
  {
    if verb == "OPTIONS" then
      Response(200, CorsHeaders, NoBody, None)
    else if verb != "POST" then
      Response(405, CorsHeaders, JsonBody(ErrorJson(MethodNotAllowed)), None)
    else if IsNullish(body) then
      Response(500, CorsHeaders, InternalError(DestructuringNullishBody), None)
    else
      var messages := Get(body, "messages").value;
      if !Truthy(messages) || !IsArray(messages) then
        Response(400, CorsHeaders, JsonBody(ErrorJson(MessagesRequired)), None)
      else if KeyMissing(apiKey) then
        Response(500, CorsHeaders, JsonBody(ErrorJson(ConfigurationError)), None)
      else
        var (status, out) := Relay(upstream);
        Response(status, CorsHeaders, out, Some(Forwarded(apiKey.value, body)))
  }

  /** Every array is truthy, so the `!messages` half of the guard never
      decides anything on its own: the request is forwarded exactly when
      `messages` is an array (and the verb, body and key allow it). */
  lemma MessagesGuardIsArrayCheck(verb: string, body: Val, apiKey: Option<string>)
    ensures Forwards(verb, body, apiKey) <==>
              verb == "POST" && !IsNullish(body) && IsArray(Get(body, "messages").value) && !KeyMissing(apiKey)
  {
  }

  /** A request the guards stop never reaches the Messages API, so its
      response does not depend on how that call would have settled. */
  lemma StoppedRequestIgnoresUpstream(verb: string, body: Val, apiKey: Option<string>,
                                      u1: FetchOutcome, u2: FetchOutcome)
    requires !Forwards(verb, body, apiKey)
    ensures Handle(verb, body, apiKey, u1) == Handle(verb, body, apiKey, u2)
  {
  }

  /** The key stays on the server: two servers with different keys write the
      same status, headers and body to the client; only the header of the
      upstream request differs. */
  lemma KeyNotExposed(verb: string, body: Val, k1: string, k2: string, upstream: FetchOutcome)
    requires k1 != "" && k2 != ""
    ensures var r1 := Handle(verb, body, Some(k1), upstream);
            var r2 := Handle(verb, body, Some(k2), upstream);
            r1.status == r2.status && r1.headers == r2.headers && r1.body == r2.body
  {
  }

  /** A preflight is answered 200 with no body whatever else the request
      carries, and a verb other than OPTIONS and POST is refused 405. */
  lemma NonPostNeverForwarded(verb: string, body: Val, apiKey: Option<string>, upstream: FetchOutcome)
    requires verb != "POST"
    ensures Handle(verb, body, apiKey, upstream).upstream.None?
    ensures Handle(verb, body, apiKey, upstream).status in {200, 405}
  {
  }

  /** The client's own failures (bad verb, bad body) are reported before
      the server's missing key: a POST without a messages array gets 400
      even on a server with no key. */
  lemma MessagesCheckedBeforeKey(body: Val, upstream: FetchOutcome)
    requires !IsNullish(body) && !IsArray(Get(body, "messages").value)
    ensures Handle("POST", body, None, upstream).status == 400
  {
  }

  /** Statuses the handler can write: its own 200, 400, 405 and 500, or the
      status the Messages API answered with. */
  lemma StatusesWritten(verb: string, body: Val, apiKey: Option<string>, upstream: FetchOutcome)
    ensures var r := Handle(verb, body, apiKey, upstream);
            r.status in {200, 400, 405, 500} || (r.upstream.Some? && upstream.Responded? && r.status == upstream.status)
  {
  }

  /** An upstream failure never turns into a success: whenever the Messages
      API did not answer 2xx with JSON, the client gets a status outside
      200-299. */
  lemma UpstreamFailureIsNotOk(verb: string, body: Val, apiKey: Option<string>, upstream: FetchOutcome)
    requires Forwards(verb, body, apiKey)
    ensures IsOk(Handle(verb, body, apiKey, upstream).status) <==>
              upstream.Responded? && IsOk(upstream.status) && upstream.body.Parsed?
  {
  }
}
