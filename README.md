# Mi Mudanza site logic in Dafny

This project models the parts of the Mi Mudanza relocation site that can be stated and checked:

- **The contact form** (`script.js`). `validateForm` checks the four required fields (`nombre`, `telefono`, `email`, `tipo`). It resets their borders and marks every failing one. A per-field check also runs when a control loses focus.
- **The two menus** (`script.js`). The floating contact menu and the mobile navigation menu each keep two `active` flags. Every handler updates both flags together.
- **The chat widget client** (`chatbot.js`, class `MiMudanzaChatbot`):
  - the configuration check in its constructor;
  - the conversation history it keeps for the page session;
  - its single-flight `isProcessing` guard;
  - the body it posts to `/api/chat`;
  - how it reads the reply or falls back to a fixed notice;
  - `formatBotMessage`, which links URLs and turns line feeds into `<br>`.
- **The chat endpoint** (`api/chat.js`, `handler`). It is a chain of guards in this order: the CORS preflight, the method, the `messages` array, then the server's API key. After that it forwards the request to the Anthropic Messages API and relays the answer or the error.

Files and modules:

| file | module | contents |
|---|---|---|
| `basics.dfy` | `Basics` | `Option` |
| `js_text.dfy` | `JsText` | ECMAScript whitespace, `trim()` |
| `js_values.dfy` | `JsValues` | JSON values, `undefined`, property reads that throw on `null`/`undefined`, truthiness |
| `http.dfy` | `Http` | how a `fetch` settles |
| `form_validation.dfy` | `FormValidation` | field rules, `validateForm`, blur and focus handlers |
| `menus.dfy` | `Menus` | the two menus as classes |
| `bot_format.dfy` | `BotFormat` | `formatBotMessage` and its corrected form |
| `chatbot.dfy` | `Chatbot` | the widget class |
| `chat_proxy.dfy` | `ChatProxy` | the endpoint as a function |
| `round_trip.dfy` | `RoundTrip` | the client's request passed through the endpoint |

How the model is built:

- **One chat exchange is two steps.** `Submit` is `handleSubmit` up to the `fetch`; nothing in it awaits. `Complete(outcome)` is the rest, once the request has settled with a given outcome.
- **Ghost state ties the history to a specification.** The class keeps a ghost log of finished exchanges, and its invariant says the history is `Session(log)`, plus the user's turn while a request is in flight. The lemmas about `Session` give the counts and the ordering of turns.
- **The endpoint is a function.** Its inputs are the request method and body, the server's key, and how the upstream `fetch` settles. It returns the status, the headers, the body written, and the upstream request, if one was made.

## Model

| member | source | states |
|---|---|---|
| JsText.TrimStart | script.js:100 | the leading part removed by `trim()` is all whitespace, and the result starts with a non-whitespace character |
| JsText.TrimEnd | script.js:100 | the trailing part removed by `trim()` is all whitespace, and the result ends with a non-whitespace character |
| JsText.TrimShape | chatbot.js:98 | `trim()` splits the input into whitespace, the result and whitespace; the result neither starts nor ends with whitespace, and it is empty exactly when the input is all whitespace |
| JsText.TrimEmptyIff | chatbot.js:98-99 | the trimmed input is empty, so the submit is refused, exactly when the input is all whitespace |
| JsText.TrimUnpadded | chatbot.js:98 | a string that neither starts nor ends with whitespace is its own trim |
| JsText.TrimIdempotent | chatbot.js:98 | trimming twice gives the same as trimming once |
| JsValues.Get | chatbot.js:158 | reading a property of `null` or `undefined` throws; an object gives its own field, or `undefined` when the field is missing |
| JsValues.At | chatbot.js:158 | indexing `null` or `undefined` throws; an array gives its element at an index in range and `undefined` past its end; an object gives its property named by the index in decimal (`content[0]` reads key `"0"`); a string gives its character; a number or boolean gives `undefined` |
| JsValues.IndexKey | chatbot.js:158 | an index becomes a non-empty key of decimal digits, one digit below 10 |
| FormValidation.IndexOf | script.js:113 | the index of the first occurrence of a character, with no occurrence before it |
| FormValidation.EmailOkIffPattern | script.js:113-117 | the email pattern accepts a value exactly when it has no whitespace, exactly one `@` with a non-empty part before it, and a domain with a `.` that is neither its first nor its last character |
| FormValidation.EmailOkMatchesPattern | script.js:113 | every value the rule in words accepts matches `^[^\s@]+@[^\s@]+\.[^\s@]+$` |
| FormValidation.PatternMatchIsEmailOk | script.js:113 | every value matching `^[^\s@]+@[^\s@]+\.[^\s@]+$` is accepted by the rule in words |
| FormValidation.ValidateForm | script.js:86-126 | resets all four borders, then checks every field with no short-circuit; the result is true iff the trimmed name has at least 3 characters, the phone matches its character class and has at least 8 characters untrimmed, the email matches its pattern and the type is not `""`; each failing field ends red and each passing field ends reset |
| FormValidation.BlurAgreesWithSubmit | script.js:199-215 | on blur, the email and tel controls use the submit rules, and other controls pass iff their trimmed length is at least 3, which is the name rule |
| FormValidation.OnBlur | script.js:199-215 | a control whose trimmed value is blank keeps its border; any other turns accent if it passes its rule and red if it fails |
| FormValidation.OnFocus | script.js:217-219 | focus turns the border accent |
| FormValidation.BlankPhoneAccepted | script.js:106-110 | a phone value of 8 or more whitespace characters passes the submit rule, although the blur handler skips it as blank |
| Menus.ContactMenu.ToggleClick | script.js:262-267 | a click on the toggle flips the container flag and the toggle flag; they stay equal |
| Menus.ContactMenu.DocumentClick | script.js:270-275 | a click outside the container clears both flags; a click inside leaves them as they were |
| Menus.ContactMenu.ChatbotOptionClick | script.js:279-288 | the chatbot option clears both flags, then clicks the chatbot's toggle, which runs `Chatbot.MiMudanzaChatbot.ToggleChat` when the chatbot registered its handlers and does nothing otherwise |
| Menus.ContactMenu.OtherOptionTimerFires | script.js:292-298 | the delayed close after another contact option clears both flags |
| Menus.NavMenu.ToggleClick | script.js:309-312 | a click on the toggle flips both navigation flags; they stay equal |
| Menus.NavMenu.LinkClick | script.js:315-320 | a click on a link clears both flags |
| Menus.NavMenu.DocumentClick | script.js:323-328 | a click outside both the toggle and the links clears both flags; any other click leaves them as they were |
| BotFormat.NonSpaceRun | chatbot.js:210 | the run `[^\s]+` takes is whitespace-free and stops only at whitespace or the end |
| BotFormat.SchemeMatch | chatbot.js:210 | a scheme followed by a run matches exactly when a non-whitespace character follows the scheme; the match is whitespace-free and maximal |
| BotFormat.UrlMatch | chatbot.js:209-211 | a match exists exactly when `http://` or `https://` is followed by a non-whitespace character; it takes the longest whitespace-free run |
| BotFormat.Linkify | chatbot.js:209-212 | replacing each URL with an anchor never shortens the text |
| BotFormat.AnchorReadBack | chatbot.js:211 | an anchor built from a whitespace-free URL reads back as that URL, whatever follows it |
| BotFormat.UnlinkifyLinkify | chatbot.js:209-212 | the link rewrite loses nothing: on text without `<`, reading each anchor back as its URL gives the original text |
| BotFormat.BreakLines | chatbot.js:215 | the result holds no line feed and is 3 characters longer per line feed |
| BotFormat.LinkifyKeepsUrlFreeText | chatbot.js:209-212 | text in which no URL starts is left unchanged by the link rewrite |
| BotFormat.LinkifyLengthensUrl | chatbot.js:209-212 | text in which some URL starts gets strictly longer |
| BotFormat.BreakLinesAtLineFeed | chatbot.js:215 | each line feed becomes `<br>`: the text before the first line feed is kept, the line feed is replaced by `<br>`, and the rest is rewritten in turn |
| BotFormat.BreakLinesKeepsLines | chatbot.js:215 | text without a line feed is left unchanged by the `<br>` rewrite |
| BotFormat.FormatBotMessage | chatbot.js:207-219 | the formatted reply holds no line feed and is never shorter than the reply |
| BotFormat.FormatUnchangedIff | chatbot.js:207-219 | the output holds no line feed; a reply comes back unchanged iff it holds no URL and no line feed |
| BotFormat.EscapeHtml | chatbot.js:217 | escaped text holds no `<`, `>` or `"` |
| BotFormat.EscapeRoundTrip | chatbot.js:217 | unescaping escaped text gives the original back |
| BotFormat.RewriteAddsOnlyOwnTags | chatbot.js:209-215 | on text without `<`, the two rewrites produce only their own `<a ...>`, `</a>` and `<br>` tags |
| BotFormat.ReplyMarkupPassesThrough | chatbot.js:217-218 | as written, the reply `<b>` comes back unchanged, with a tag the rewrite did not make |
| BotFormat.FormatBotMessageEscaped | chatbot.js:217 | the corrected formatter escapes first: no line feed, only its own tags, and output identical to the original for text with no `&`, `<`, `>` or `"` |
| Chatbot.EncodeHistory | chatbot.js:146 | the body posts one `{role, content}` object per history entry, in order |
| Chatbot.RequestBody | chatbot.js:144-149 | the posted object has only the keys `messages`, `systemPrompt`, `model` and `maxTokens`; `messages` is the encoded history; each setting is present exactly when it is defined, and then with its value |
| Chatbot.ReplyOf | chatbot.js:152-158 | a reply is read exactly when the fetch answered 2xx with JSON whose `content[0]` exists and is not `null`; a failed fetch, another status or a body that is not JSON gives none; a read reply is the first block's `text`, or `undefined` when the block has none |
| Chatbot.AssistantTurns | chatbot.js:157-164 | the history gains at most one entry, an assistant turn, exactly when a reply was read; its content is the reply `ReplyOf` reads, so the first block's `text` (or `undefined` when the block has none) |
| Chatbot.ResultBubble | chatbot.js:115-125 | the bubble shown is the reply when the first block's `text` is a string, and the fallback notice otherwise |
| Chatbot.UntextedReplyIsRecorded | chatbot.js:158-164 | a 2xx reply whose first block has no `text` still adds an `undefined` assistant turn, while the fallback notice is shown |
| Chatbot.SessionLength | chatbot.js:133-163 | each exchange adds 2 history entries when a reply was read and 1 when it failed |
| Chatbot.SessionOrdered | chatbot.js:133-163 | every assistant turn comes right after a user turn, and the history starts with the first text sent |
| Chatbot.AnsweredSessionAlternates | chatbot.js:157-163 | if every exchange was answered, the history alternates user, assistant, ...: the texts sent, each followed by the reply read for it |
| Chatbot.MiMudanzaChatbot.constructor | chatbot.js:17-30 | without `CHATBOT_CONFIG`, no handler is registered, the history stays empty, the message list holds only the configuration notice, and the input is disabled |
| Chatbot.MiMudanzaChatbot.ToggleChat | chatbot.js:84-89 | toggles the chat window |
| Chatbot.MiMudanzaChatbot.CloseChat | chatbot.js:91-93 | closes the chat window |
| Chatbot.MiMudanzaChatbot.Submit | chatbot.js:95-108 | a blank trimmed input or an exchange in flight changes nothing; otherwise: the input is cleared, the user bubble shown, the user turn appended, `isProcessing` set, and the request body carries the whole history including the new turn |
| Chatbot.MiMudanzaChatbot.Complete | chatbot.js:110-128 | the reply, if one was read, is appended as an assistant turn; the reply or the fixed fallback notice is shown; `isProcessing` is false afterwards |
| Chatbot.MiMudanzaChatbot.Accept | chatbot.js:101-108 | an accepted message clears the input, is shown and recorded as the user's turn, and raises `isProcessing` |
| Chatbot.MiMudanzaChatbot.QuickAction | chatbot.js:39-46 | a missing or empty `data-message` changes nothing; otherwise it becomes the input and is submitted: a refused submit leaves the text in the input and nothing else changed, an accepted one changes the state as `Submit` does |
| ChatProxy.Forwarded | api/chat.js:44-57 | the upstream request goes to the Messages API with the key and version headers; it forwards `messages` unchanged, `model` (default `claude-3-5-sonnet-20241022`), `max_tokens` (default 1024), and `system` only when a system prompt was sent |
| ChatProxy.RelayedError | api/chat.js:60-64 | the relayed error is `errorData.error.message` when that is truthy, otherwise `Error calling Claude API`; a `null` error document throws |
| ChatProxy.Relay | api/chat.js:59-78 | a 2xx JSON body is passed on with status 200; a non-2xx status is relayed exactly with `{error}`, except that a non-2xx body that is JSON `null` gives 500, because reading its `.error` throws; a failed fetch or a 2xx body that is not JSON gives 500 |
| ChatProxy.Handle | api/chat.js:7-79 | every response carries the four CORS headers; OPTIONS gets 200 with no body; another non-POST method gets 405; a nullish body gets 500; a missing or non-array `messages` gets 400; a missing key gets 500; the upstream call is made exactly when all guards pass |
| ChatProxy.StoppedRequestIgnoresUpstream | api/chat.js:18-41 | a request stopped by a guard gets the same response however the upstream call would have settled |
| ChatProxy.KeyNotExposed | api/chat.js:37-48 | two servers with different non-empty keys write the same status, headers and body when the Messages API answers both the same way |
| ChatProxy.NonPostNeverForwarded | api/chat.js:18-26 | a method other than POST is never forwarded, and gets 200 or 405 |
| ChatProxy.MessagesCheckedBeforeKey | api/chat.js:32-41 | a body without a `messages` array gets 400 even on a server without its key |
| ChatProxy.MessagesGuardIsArrayCheck | api/chat.js:32 | the guard on a falsy `messages` or a non-array `messages` rejects exactly the non-arrays |
| ChatProxy.StatusesWritten | api/chat.js:7-79 | the handler writes 200, 400, 405 or 500, or the status the upstream answered with |
| ChatProxy.UpstreamFailureIsNotOk | api/chat.js:59-78 | a forwarded request gets a 2xx status iff the upstream answered 2xx with JSON |
| RoundTrip.RequestBodyField | chatbot.js:144-149 | the endpoint reads each setting the client posts as the client's value, or `undefined` when the client leaves it unset |
| RoundTrip.ClientRequestForwarded | api/chat.js:29-57 | on a server with its key, the client's request passes every guard and is forwarded with the history unchanged, the client's model and token limit or the defaults, and `system` exactly when a system prompt is set |
| RoundTrip.ProxyTransparent | chatbot.js:152-158 | the reply the client reads from the endpoint is the reply it would have read from the Messages API directly |
| RoundTrip.MissingKeyShowsFallback | api/chat.js:37-41 | on a server without its key, the client shows the fallback notice |

## Left out

- The DOM, rendering, smooth scrolling, the navbar scroll class, reveal animations, hover effects and animation delays (`script.js`). These are presentation with no state the rules read.
- The success and error banners and their removal timers (`script.js:128-193`). The same goes for `scrollToBottom` and the typing indicator's display (`chatbot.js:227-240`). The indicator is modelled only as a flag equal to `isProcessing`.
- The network. Both `fetch` calls and `response.json()` become a given outcome (`Http.FetchOutcome`): a status with a body that parses or not, or a rejection.
- Async interleavings. An exchange is two sequential steps. Nothing in `handleSubmit` awaits before `isProcessing` is set.
- Console logging, on both the client and the server.
- `escapeHtml` (`chatbot.js:221-225`) and the user bubble's markup. How the DOM serialises `textContent` is not visible here. `BotFormat.EscapeHtml` is the escaping the corrected formatter assumes.
- Timestamps from `toLocaleTimeString`, which depend on the locale and the clock.
- `FormValidation.NombreOk`, `FormValidation.TelefonoOk`: lengths are counted in Unicode code points, whereas JavaScript counts UTF-16 code units. The two differ only for characters outside the Basic Multilingual Plane.
- `JsText.WhiteSpaceChars`: a fixed set of whitespace characters. It covers the ECMAScript WhiteSpace and LineTerminator characters, including U+FEFF and the Unicode space separators as of Unicode 15. Both `trim()` and `\s` use it.
- `JsValues.Json`: numbers are integers. Fractional token limits and other non-integer numbers are not represented.
- `JsValues.Get`: properties inherited from prototypes are ignored. No key this code reads is one.
- `Chatbot.MiMudanzaChatbot.constructor`: the constructor only tests whether `CHATBOT_CONFIG` is defined. It does not check any setting, so the model follows the code. A `CHATBOT_CONFIG` that is defined but `null` is not modelled. In that case, reading a setting throws after the user turn has been pushed.
- The guards for missing page elements (`if (contactMenuToggle && contactContainer)` and the like). The model assumes the elements exist.
- Event propagation. Whether a click lands inside the container, the toggle or the links is a parameter of the handlers.
- `ChatProxy.Handle`: the JSON `Content-Type` that `res.json` adds is not modelled. The headers listed are those the handler sets itself. A relayed upstream status is assumed to be one `res.status` accepts.
- `BotFormat.OnlyOwnTags`: it checks only that every `<` opens one of the rewrite's own tags. A URL holding `"` still closes the `href` value early and can add attributes to the anchor; the property does not cover that.
- `ChatProxy.Fault`: the text of the TypeErrors the engine throws (`message` in the 500 body) is not modelled. Only which fault occurred is kept.

## Findings

| source | as written | input that shows it | evidently intended | confidence | as-written member | corrected member |
|---|---|---|---|---|---|---|
| chatbot.js:207-219 | the comment at line 217 says the text is escaped while keeping the tags the function adds, but no escaping happens, so markup in the reply reaches `innerHTML` | the reply `<b>` is returned as `<b>` | escape the reply first, then add the links and line breaks, so the only markup left is the function's own | not executed | BotFormat.ReplyMarkupPassesThrough | BotFormat.FormatBotMessageEscaped |
