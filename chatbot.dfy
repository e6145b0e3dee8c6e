/** The chat widget's client (chatbot.js, class `MiMudanzaChatbot`): the
    conversation history it keeps for the page session, its single-flight
    `isProcessing` guard, and the request it sends to `/api/chat`.

    One exchange is two steps: `Submit` runs `handleSubmit` up to the `fetch`
    (everything before the first `await`), `Complete` runs the rest once the
    `fetch` has settled with a given outcome. */
module Chatbot {
  import opened Basics
  import opened JsText
  import opened JsValues
  import opened Http

  datatype Role = User | Assistant

  function RoleName(role: Role): string {
    match role
    case User => "user"
    case Assistant => "assistant"
  }

  /** An entry `{role, content}` of `conversationHistory`. The content is a
      JavaScript value: a reply read from a block without `text` is `undefined`. */
  datatype Message = Message(role: Role, content: Val)

  function UserTurn(text: string): Message {
    Message(User, Defined(JString(text)))
  }

  /** `CHATBOT_CONFIG`, for the three settings read from it; a setting the
      object lacks is `undefined`. */
  datatype ChatbotConfig = ChatbotConfig(systemPrompt: Val, model: Val, maxTokens: Val)

  /** The notice shown in place of a reply when an exchange fails. */
  const FallbackText := "Lo siento, hubo un error al procesar tu mensaje. Por favor, intenta nuevamente o contactanos directamente por WhatsApp."

  /** What the message list shows. A bot bubble holds the reply text, which
      is rendered through `formatBotMessage`. */
  datatype Bubble =
    | UserBubble(text: string)
    | BotBubble(text: string)
    | ErrorBubble(text: string)
    | ConfigErrorBubble

  /** `JSON.stringify` of a history entry. */
  function EncodeMessage(m: Message): Json {
    JObject(WithField(map["role" := JString(RoleName(m.role))], "content", m.content))
  }

  function EncodeHistory(h: seq<Message>): (r: seq<Json>)
    ensures |r| == |h|
    ensures forall i :: 0 <= i < |h| ==> r[i] == EncodeMessage(h[i])
  {
    if h == [] then [] else [EncodeMessage(h[0])] + EncodeHistory(h[1..])
  }

  /** The body `callClaudeAPI` posts: the whole history and the three settings. */
  function RequestBody(config: ChatbotConfig, h: seq<Message>): (r: Json)
    ensures r.JObject? && r.fields.Keys <= {"messages", "systemPrompt", "model", "maxTokens"}
    ensures "messages" in r.fields && r.fields["messages"] == JArray(EncodeHistory(h))
    ensures PostsSetting(r, "systemPrompt", config.systemPrompt)
    ensures PostsSetting(r, "model", config.model)
    ensures PostsSetting(r, "maxTokens", config.maxTokens)
  {
    var fields := map["messages" := JArray(EncodeHistory(h))];
    var fields := WithField(fields, "systemPrompt", config.systemPrompt);
    var fields := WithField(fields, "model", config.model);
    JObject(WithField(fields, "maxTokens", config.maxTokens))
  }

  /** The posted object holds `key` exactly when `setting` is defined, and
      then with its value, as `JSON.stringify` writes it. */
  predicate PostsSetting(r: Json, key: string, setting: Val) {
    r.JObject? && (key in r.fields <==> setting.Defined?) && (key in r.fields ==> r.fields[key] == setting.json)
  }

  /** `data.content[0]` exists and is not `null`, so reading its `text` does
      not throw: `content` is a non-empty array whose first element is not
      `null`, a non-empty string, or an object with a non-`null` property `"0"`. */
  predicate FirstBlockReadable(data: Json) {
    && data.JObject? && "content" in data.fields
    && match data.fields["content"]
       case JArray(items) => |items| > 0 && items[0] != JNull
       case JString(chars) => |chars| > 0
       case JObject(blocks) => "0" in blocks && blocks["0"] != JNull
       case _ => false
  }

  /** `data.content[0]` is an object whose property `text` is `text`. */
  predicate FirstText(data: Json, text: Json) {
    && data.JObject? && "content" in data.fields
    && match data.fields["content"]
       case JArray(items) =>
         |items| > 0 && items[0].JObject? && "text" in items[0].fields && items[0].fields["text"] == text
       case JObject(blocks) =>
         "0" in blocks && blocks["0"].JObject? && "text" in blocks["0"].fields && blocks["0"].fields["text"] == text
       case _ => false
  }

  /** The reply `callClaudeAPI` takes from a settled request,
      `data.content[0].text`; None when it throws instead: a rejected `fetch`,
      a status outside 200-299, a body that is not JSON, or reading a
      property of `null` or `undefined` on the way to `text`. */
  function ReplyOf(outcome: FetchOutcome): (r: Option<Val>)
    ensures outcome.FetchFailed? ==> r.None?
    ensures outcome.Responded? && !IsOk(outcome.status) ==> r.None?
    ensures r.Some? <==> outcome.Responded? && IsOk(outcome.status) && outcome.body.Parsed?
                         && FirstBlockReadable(outcome.body.json)
    ensures r.Some? && r.value.Defined? ==> FirstText(outcome.body.json, r.value.json)
    ensures forall text :: (outcome.Responded? && IsOk(outcome.status) && outcome.body.Parsed?
                             && FirstText(outcome.body.json, text)) ==> r == Some(Defined(text))
  {
    match outcome
    case FetchFailed(_) => None
    case Responded(status, body) =>
      if !IsOk(status) then None
      else
        match body
        case Unparseable(_) => None
        case Parsed(data) =>
          var content :- Get(Defined(data), "content");
          var first :- At(content, 0);
          Get(first, "text")
  }

  /** The history entries an outcome adds after the user's: the reply, when
      `callClaudeAPI` got as far as reading one. */
  function AssistantTurns(outcome: FetchOutcome): (r: seq<Message>)
    ensures |r| <= 1
    ensures |r| == 1 <==> outcome.Responded? && IsOk(outcome.status) && outcome.body.Parsed?
                          && FirstBlockReadable(outcome.body.json)
    ensures |r| == 1 ==> r[0].role == Assistant
    ensures |r| == 1 && r[0].content.Defined? ==> FirstText(outcome.body.json, r[0].content.json)
    ensures |r| == 1 ==> ReplyOf(outcome) == Some(r[0].content)
  {
    match ReplyOf(outcome)
    case Some(reply) => [Message(Assistant, reply)]
    case None => []
  }

  /** The bubble an outcome leaves in the message list: the reply when it is a
      string (only a string survives `formatBotMessage`), the fallback notice
      otherwise. */
  function ResultBubble(outcome: FetchOutcome): (r: Bubble)
    ensures r.BotBubble? || r == ErrorBubble(FallbackText)
    ensures r.BotBubble? ==> outcome.Responded? && IsOk(outcome.status) && outcome.body.Parsed?
                             && FirstText(outcome.body.json, JString(r.text))
    ensures forall text :: (outcome.Responded? && IsOk(outcome.status) && outcome.body.Parsed?
                            && FirstText(outcome.body.json, JString(text))) ==> r == BotBubble(text)
  {
    match ReplyOf(outcome)
    case Some(Defined(JString(text))) => BotBubble(text)
    case _ => ErrorBubble(FallbackText)
  }

  /** A 2xx reply whose first block is readable but has no `text` still
      counts as answered: an `undefined` assistant turn joins the history,
      while the fallback notice is shown, because formatting `undefined` throws. */
  lemma UntextedReplyIsRecorded(status: int, data: Json)
    requires IsOk(status) && FirstBlockReadable(data)
    requires forall text :: !FirstText(data, text)
    ensures ReplyOf(Responded(status, Parsed(data))) == Some(Undefined)
    ensures |AssistantTurns(Responded(status, Parsed(data)))| == 1
    ensures ResultBubble(Responded(status, Parsed(data))) == ErrorBubble(FallbackText)
  {
  }

  /** One finished exchange: the trimmed text the user sent and how the
      request settled. */
  datatype Exchange = Exchange(text: string, outcome: FetchOutcome)

  predicate Answered(x: Exchange) {
    ReplyOf(x.outcome).Some?
  }

  function AnsweredCount(xs: seq<Exchange>): nat {
    if xs == [] then 0
    else AnsweredCount(xs[..|xs| - 1]) + (if Answered(xs[|xs| - 1]) then 1 else 0)
  }

  /** The history a session leaves: for each exchange in order, the user's
      turn and then the reply, if one was read. */
  function Session(xs: seq<Exchange>): seq<Message> {
    if xs == [] then []
    else Session(xs[..|xs| - 1]) + [UserTurn(xs[|xs| - 1].text)] + AssistantTurns(xs[|xs| - 1].outcome)
  }

  /** A finished exchange extends the history by the user's turn and the reply. */
  lemma SessionStep(xs: seq<Exchange>, x: Exchange)
    ensures Session(xs + [x]) == Session(xs) + [UserTurn(x.text)] + AssistantTurns(x.outcome)
  {
    assert (xs + [x])[..|xs|] == xs;
  }

  /** Each exchange adds two entries when a reply was read and one when it
      failed: after k answered and f failed exchanges the history holds
      2k + f entries. */
  lemma {:induction false} SessionLength(xs: seq<Exchange>)
    ensures |Session(xs)| == |xs| + AnsweredCount(xs)
  {
    if xs != [] {
      SessionLength(xs[..|xs| - 1]);
    }
  }

  /** Every assistant turn directly follows a user turn. */
  ghost predicate UserBeforeAssistant(h: seq<Message>) {
    forall i :: 0 <= i < |h| && h[i].role == Assistant ==> i > 0 && h[i - 1].role == User
  }

  lemma {:induction false} SessionOrdered(xs: seq<Exchange>)
    ensures UserBeforeAssistant(Session(xs))
    ensures xs != [] ==> Session(xs)[0] == UserTurn(xs[0].text)
  {
    if xs != [] {
      var init := xs[..|xs| - 1];
      SessionOrdered(init);
      var h := Session(init) + [UserTurn(xs[|xs| - 1].text)];
      assert UserBeforeAssistant(h);
      if init != [] {
        assert init[0] == xs[0];
      }
    }
  }

  /** `h` is the strict alternation user, assistant, user, assistant, ... of
      the texts sent in `xs` and the replies read for them. */
  ghost predicate Alternates(h: seq<Message>, xs: seq<Exchange>) {
    && |h| == 2 * |xs|
    && forall k :: 0 <= k < |xs| ==>
         && h[2 * k] == UserTurn(xs[k].text)
         && h[2 * k + 1].role == Assistant
         && ReplyOf(xs[k].outcome) == Some(h[2 * k + 1].content)
  }

  /** An alternation extended by one more exchange's user turn and reply. */
  lemma AlternatesStep(h: seq<Message>, xs: seq<Exchange>, x: Exchange, reply: Message)
    requires Alternates(h, xs)
    requires reply.role == Assistant && ReplyOf(x.outcome) == Some(reply.content)
    ensures Alternates(h + [UserTurn(x.text), reply], xs + [x])
  {
    var h2, xs2 := h + [UserTurn(x.text), reply], xs + [x];
    forall k | 0 <= k < |xs2|
      ensures h2[2 * k] == UserTurn(xs2[k].text)
      ensures h2[2 * k + 1].role == Assistant
      ensures ReplyOf(xs2[k].outcome) == Some(h2[2 * k + 1].content)
    {
      if k < |xs| {
        assert xs2[k] == xs[k] && h2[2 * k] == h[2 * k] && h2[2 * k + 1] == h[2 * k + 1];
      }
    }
  }

  /** A session whose every exchange was answered is the strict alternation
      user, assistant, user, assistant, ... of the texts sent and the replies
      read. */
  lemma {:induction false} AnsweredSessionAlternates(xs: seq<Exchange>)
    requires forall k :: 0 <= k < |xs| ==> Answered(xs[k])
    ensures Alternates(Session(xs), xs)
  {
    if xs != [] {
      var n := |xs| - 1;
      var init, last := xs[..n], xs[n];
      assert xs == init + [last];
      assert forall k :: 0 <= k < n ==> Answered(init[k]);
      AnsweredSessionAlternates(init);
      SessionStep(init, last);
      var reply := Message(Assistant, ReplyOf(last.outcome).value);
      assert AssistantTurns(last.outcome) == [reply];
      AlternatesStep(Session(init), init, last, reply);
      assert Session(init) + [UserTurn(last.text)] + [reply] == Session(init) + [UserTurn(last.text), reply];
    }
  }

  /** `class MiMudanzaChatbot`, with the DOM reduced to the state the
      handlers read and write. */
  class MiMudanzaChatbot {
    /** `CHATBOT_CONFIG`, None when the page does not define it. */
    const config: Option<ChatbotConfig>
    var history: seq<Message>
    var isProcessing: bool
    /** `chatInput.value` and `chatInput.disabled`. */
    var input: string
    var inputDisabled: bool
    /** `init()` ran, so the click and submit handlers are registered. */
    var listening: bool
    var typingShown: bool
    var windowOpen: bool
    /** The bubbles in the message list, oldest first. */
    var transcript: seq<Bubble>

    /** The finished exchanges of the session, the history they left, and
        the text of the exchange in flight. */
    ghost var exchanges: seq<Exchange>
    ghost var settled: seq<Message>
    ghost var pendingText: string

    ghost predicate Valid()
      reads this
    {
      && (listening <==> config.Some?)
      && (inputDisabled <==> !listening)
      && (!listening ==> exchanges == [] && !isProcessing)
      && typingShown == isProcessing
      && settled == Session(exchanges)
      && (!isProcessing ==> history == settled)
      && (isProcessing ==> history == settled + [UserTurn(pendingText)])
    }

    /** The constructor: with no `CHATBOT_CONFIG` it skips `init`, replaces the
        message list with the configuration notice and disables the input. */
    constructor (config: Option<ChatbotConfig>, page: seq<Bubble>)
      ensures Valid()
      ensures this.config == config && history == [] && !isProcessing && input == "" && !windowOpen
      ensures config.None? ==> !listening && inputDisabled && transcript == [ConfigErrorBubble]
      ensures config.Some? ==> listening && !inputDisabled && transcript == page
    {
      this.config := config;
      history := [];
      isProcessing := false;
      input := "";
      typingShown := false;
      windowOpen := false;
      exchanges := [];
      settled := [];
      pendingText := "";
      if config.None? {
        transcript := [ConfigErrorBubble];
        inputDisabled := true;
        listening := false;
      } else {
        transcript := page;
        inputDisabled := false;
        listening := true;
      }
    }

    /** `toggleChat()`. */
    method ToggleChat()
      requires listening
      modifies this`windowOpen
      ensures windowOpen == !old(windowOpen)
    {
      windowOpen := !windowOpen;
    }

    /** `closeChat()`. */
    method CloseChat()
      requires listening
      modifies this`windowOpen
      ensures !windowOpen
    {
      windowOpen := false;
    }

    /** `handleSubmit` up to the request: a blank input or an exchange in
        flight makes it a no-op; otherwise it clears the input, shows and
        records the user's turn, raises `isProcessing`, and returns the body it
        posts, which carries the whole history including the new turn. */
    method Submit() returns (request: Option<Json>)
      requires Valid() && listening
      modifies this
      ensures Valid() && listening
      ensures var text := Trim(old(input));
              if text == [] || old(isProcessing) then
                request.None? && history == old(history) && isProcessing == old(isProcessing)
                && input == old(input) && transcript == old(transcript)
                && exchanges == old(exchanges)
              else
                && input == "" && isProcessing
                && history == old(history) + [UserTurn(text)]
                && transcript == old(transcript) + [UserBubble(text)]
                && request == Some(RequestBody(config.value, history))
                && exchanges == old(exchanges) && pendingText == text
      ensures windowOpen == old(windowOpen)
    {
      var message := Trim(input);
      if message == "" || isProcessing {
        return None;
      }
      Accept(message);
      request := Some(RequestBody(config.value, history));
    }

    /** The steps of `handleSubmit` that take an accepted message: clear the
        input, show and record the user's turn, raise `isProcessing`. */
    method Accept(message: string)
      requires Valid() && listening && !isProcessing
      modifies this
      ensures Valid() && listening && isProcessing && input == ""
      ensures history == old(history) + [UserTurn(message)]
      ensures transcript == old(transcript) + [UserBubble(message)]
      ensures exchanges == old(exchanges) && pendingText == message && windowOpen == old(windowOpen)
    {
      input := "";
      transcript := transcript + [UserBubble(message)];
      isProcessing := true;
      typingShown := true;
      history := history + [UserTurn(message)];
      pendingText := message;
    }

    /** The rest of `handleSubmit` once the request has settled: the reply, if
        one was read, joins the history (`AssistantTurns`); the reply or, when
        `callClaudeAPI` or `formatBotMessage` threw, the fallback notice is
        shown (`ResultBubble`); `isProcessing` drops whatever happened. */
    method Complete(outcome: FetchOutcome)
      requires Valid() && isProcessing
      modifies this`history, this`transcript, this`typingShown, this`isProcessing, this`exchanges, this`settled
      ensures Valid() && !isProcessing && listening
      ensures history == old(history) + AssistantTurns(outcome)
      ensures transcript == old(transcript) + [ResultBubble(outcome)]
      ensures exchanges == old(exchanges) + [Exchange(old(pendingText), outcome)]
      ensures input == old(input) && windowOpen == old(windowOpen)
    {
      ghost var done := exchanges + [Exchange(pendingText, outcome)];
      SessionStep(exchanges, Exchange(pendingText, outcome));
      ghost var after := Session(done);
      assert after == history + AssistantTurns(outcome);
      history := history + AssistantTurns(outcome);
      transcript := transcript + [ResultBubble(outcome)];
      typingShown := false;
      isProcessing := false;
      exchanges := done;
      settled := after;
    }

    /** A click on a quick-action button: a non-empty `data-message` becomes
        the input and is submitted. When the submit is refused (an exchange in
        flight, or a blank message) the text stays in the input. */
    method QuickAction(message: Option<string>) returns (request: Option<Json>)
      requires Valid() && listening
      modifies this
      ensures Valid() && listening && windowOpen == old(windowOpen)
      ensures message.None? || message == Some("") ==>
                request.None? && history == old(history) && isProcessing == old(isProcessing)
                && input == old(input) && transcript == old(transcript) && exchanges == old(exchanges)
      ensures message.Some? && message.value != "" ==>
                var text := Trim(message.value);
                if text == [] || old(isProcessing) then
                  request.None? && history == old(history) && isProcessing == old(isProcessing)
                  && input == message.value && transcript == old(transcript)
                  && exchanges == old(exchanges)
                else
                  && input == "" && isProcessing
                  && history == old(history) + [UserTurn(text)]
                  && transcript == old(transcript) + [UserBubble(text)]
                  && request == Some(RequestBody(config.value, history))
                  && exchanges == old(exchanges) && pendingText == text
    {
      request := None;
      if message.Some? && message.value != "" {
        input := message.value;
        request := Submit();
      }
    }
  }
}
