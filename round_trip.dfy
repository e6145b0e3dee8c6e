/** The widget and the endpoint together: what the server forwards when the
    chatbot posts its history, and what the chatbot reads back from the
    server's answer. */
module RoundTrip {
  import opened Basics
  import opened JsValues
  import opened Http
  import opened Chatbot
  import opened ChatProxy

  /** A property of the body the chatbot posts, as the handler destructures it. */
  lemma {:induction false} RequestBodyField(config: ChatbotConfig, h: seq<Message>, key: string, setting: Val)
    requires (key, setting) in {("systemPrompt", config.systemPrompt), ("model", config.model),
                                ("maxTokens", config.maxTokens)}
    ensures Get(Defined(RequestBody(config, h)), key) == Some(setting)
  {
    var fields0 := map["messages" := JArray(EncodeHistory(h))];
    var fields1 := WithField(fields0, "systemPrompt", config.systemPrompt);
    var fields2 := WithField(fields1, "model", config.model);
    var fields3 := WithField(fields2, "maxTokens", config.maxTokens);
    assert RequestBody(config, h) == JObject(fields3);
    assert fields3.Keys <= {"messages", "systemPrompt", "model", "maxTokens"};
    if setting.Defined? {
      assert key in fields3 && fields3[key] == setting.json;
    } else {
      assert key !in fields3;
    }
  }

  /** The chatbot's request passes every guard of a server that has its key,
      and the server forwards the history as it was sent, the chatbot's model
      and token limit or the defaults where they are unset, and the system
      prompt exactly when one is set. */
  lemma ClientRequestForwarded(config: ChatbotConfig, h: seq<Message>, apiKey: string, upstream: FetchOutcome)
    requires apiKey != ""
    ensures var r := Handle("POST", Defined(RequestBody(config, h)), Some(apiKey), upstream);
            && r.upstream.Some?
            && var forwarded := r.upstream.value.body;
            && forwarded.JObject?
            && forwarded.fields["messages"] == JArray(EncodeHistory(h))
            && forwarded.fields["model"] == OrDefault(config.model, JString(DefaultModel))
            && forwarded.fields["max_tokens"] == OrDefault(config.maxTokens, JNumber(DefaultMaxTokens))
            && ("system" in forwarded.fields <==> config.systemPrompt.Defined?)
  {
    var body := Defined(RequestBody(config, h));
    assert Get(body, "messages") == Some(Defined(JArray(EncodeHistory(h))));
    RequestBodyField(config, h, "systemPrompt", config.systemPrompt);
    RequestBodyField(config, h, "model", config.model);
    RequestBodyField(config, h, "maxTokens", config.maxTokens);
    assert Forwards("POST", body, Some(apiKey));
  }

  /** The payload the chatbot's `response.json()` reads from a response the
      handler wrote: the JSON document when the handler wrote one; any
      payload otherwise (the internal-error body, an empty preflight body). */
  predicate Delivers(r: ChatProxy.Response, payload: Payload) {
    r.body.JsonBody? ==> payload == Parsed(r.body.json)
  }

  /** The endpoint is transparent to the chatbot: for the chatbot's request,
      the reply it reads from the server's response is the reply it would
      have read from the Messages API directly. Every upstream failure
      reaches it as a status outside 200-299, and a 2xx document is passed
      on unchanged. */
  lemma ProxyTransparent(config: ChatbotConfig, h: seq<Message>, apiKey: string, upstream: FetchOutcome,
                         payload: Payload)
    requires apiKey != ""
    requires Delivers(Handle("POST", Defined(RequestBody(config, h)), Some(apiKey), upstream), payload)
    ensures var r := Handle("POST", Defined(RequestBody(config, h)), Some(apiKey), upstream);
            ReplyOf(Responded(r.status, payload)) == ReplyOf(upstream)
  {
    var body := Defined(RequestBody(config, h));
    ClientRequestForwarded(config, h, apiKey, upstream);
    UpstreamFailureIsNotOk("POST", body, Some(apiKey), upstream);
  }

  /** A server without its key answers the chatbot's request with a status
      outside 200-299, so the chatbot shows its fallback notice. */
  lemma MissingKeyShowsFallback(config: ChatbotConfig, h: seq<Message>, upstream: FetchOutcome, payload: Payload)
    ensures var r := Handle("POST", Defined(RequestBody(config, h)), None, upstream);
            ResultBubble(Responded(r.status, payload)) == ErrorBubble(FallbackText)
  {
    var body := Defined(RequestBody(config, h));
    assert Get(body, "messages") == Some(Defined(JArray(EncodeHistory(h))));
  }
}
