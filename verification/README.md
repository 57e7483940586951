# Liora relay and chat client, modelled in Dafny

This project models the logic in the Liora career-advice chat application. That logic is:

- the `/api/generate` relay that forwards a prompt to a hosted chat-completion API, in two deployments: an Express server and a serverless function;
- the Express server's CORS origin allow-list and its `/health` report;
- three client components that keep chat state: `LLMChat`, `ChatInput` and the single-reply page in `App.tsx`;
- the typing animation of the hero title.

Everything is stated as pure functions over immutable datatypes.

The model never performs a foreign call. Each one is an input instead:

- the upstream completion call is an `Upstream` value: `Completed(content)` or `Failed(message)`;
- the browser's `fetch` followed by `res.json()` is a `Fetch` value: a decoded JSON body or an exception;
- `JSON.parse` is a function parameter that returns a value or a `SyntaxError`;
- `Math.random()` is a real number in `[0, 1)`;
- each timer tick is one explicit step.

Modules:

- `Js`: JSON values plus `undefined`; ECMAScript truthiness (`IsFalsy`); property access as in destructuring, where `null` and `undefined` throw a TypeError; which values `String(v)` cannot convert; and `String.prototype.trim` over ECMAScript's WhiteSpace and LineTerminator characters.
- `Relay`: the fixed upstream parameters (model id, temperature, `max_tokens` 256, 60000 ms timeout), the single-turn request, the response bodies, and the reply shaping `content?.trim?.() ?? ""`.
- `Server`: the Express `/api/generate` handler and `/health`.
- `Serverless`: the `handler(event)` of the serverless deployment.
- `Origin`: the CORS `origin` callback and its allow-list. The two anchored patterns are written as character predicates.
- `Client`: what `LLMChat` and `App.tsx` share: the outcome of `fetch` and `res.json()`, and the reading of `data.reply` with a fallback when something throws.
- `Transcript`: alternating user/assistant turns and their counts, shared by the two chat components.
- `LlmChat`, `ChatInput`, `AskAi` (`App.tsx`): each component's state, its submit and settle transitions, its UI guards, and an event-driven `Step`/`Run`. For `LlmChat` and `ChatInput` a transcript invariant is kept over every run; for `AskAi`, the prompt text is kept over every run without typing, and after any run the last step sets the loading flag as a single step would.
- `Typing`: the `HeroSection` interval tick, with the prefix invariant, the termination point and the update count.

Behaviour of the code that is easy to miss:

- The relay rejects every falsy `prompt` with 400: a missing prompt, `""`, `0`, `false` and `null` alike. The serverless deployment forwards any truthy value as the message content, including whitespace, numbers and objects. The Express deployment first converts the prompt with `String` for a log line. That conversion throws for an object with its own `toString` key, and for an array holding one. Such a prompt reaches the outer catch, 500 with `"Server error"`, and the upstream is never called.
- Only the Express deployment passes the 60-second timeout. The serverless deployment passes none.
- A body that cannot be destructured reaches the Express handler's outer catch: 500 with `"Server error"`. In the serverless deployment the same case, like a JSON syntax error, gives 500 with `"Failed to generate response"`.
- In `LLMChat` and `App.tsx`, an HTTP error response is not a failure. Its JSON body decodes, and `data.reply` is `undefined`. The fixed error text appears only when `fetch`, `res.json()` or reading `data.reply` throws.

## Model

| member | source | states |
|---|---|---|
| `Js.TrimIsTrimOf` | src/components/ChatInput.tsx:38 | `trim` splits its input into whitespace, the result, and whitespace, and the result neither starts nor ends with whitespace |
| `Js.TrimEmptyIff` | src/components/LLMChat.tsx:17 | a string trims to `""` exactly when every character is whitespace, so the `!prompt.trim()` guard rejects exactly the blank prompts |
| `Js.TrimIdempotent` | src/components/ChatInput.tsx:38 | trimming twice gives the same result as trimming once |
| `Relay.ReplyTextMeaning` | backend/server.js:71-74 | the reply is the trim of the first choice's content; it is `""` exactly when there is no content or the content is all whitespace |
| `Server.Generate` | backend/server.js:49-89 | the upstream is called exactly when `prompt` is truthy and `String(prompt)` does not throw. The request is one user message holding the prompt, the fixed model, temperature 0.7, `max_tokens` 256 and timeout 60000. A falsy prompt gives 400 "Prompt is required". A completed call gives 200 with the trimmed reply. Every upstream failure gives 500 "Failed to generate response" with its message. An undestructurable body, and a prompt `String` cannot convert, give 500 "Server error" with no upstream call. No other status occurs |
| `Server.UpstreamNotConsulted` | backend/server.js:51-57 | for a body rejected before the upstream call (no prompt to read, a falsy prompt, or one `String` cannot convert), the exchange is the same whatever the upstream would have done, and no upstream request is issued |
| `Server.UnconvertiblePromptFails` | backend/server.js:55-58 | an object prompt with its own `toString` key, bare or at any position of an array, gives 500 "Server error" with the conversion TypeError and no upstream call |
| `Server.WhitespacePromptForwarded` | backend/server.js:53 | a whitespace-only prompt is truthy, so it is forwarded upstream and not answered with 400 |
| `Server.EmptyReplyIsSuccess` | backend/server.js:71-74 | missing or blank upstream content still yields 200 with `reply: ""` |
| `Server.ListenPort` | backend/server.js:10 | the `PORT` fallback, read through JavaScript truthiness: the default 5000 applies exactly when `PORT` is unset or empty; otherwise the variable's text is used unchanged, never parsed as a number |
| `Server.Health` | backend/server.js:92-100 | the report is status "ok", the listen port and the model id. `hfToken` is "set" exactly when `HF_TOKEN` is present and non-empty, and "missing" otherwise |
| `Serverless.FallbackReplyAgrees` | functions/generate.js:29 | the falsy fallback to `""` yields the same reply as the Express `?? ""` for every content, and it is empty exactly for absent or blank content |
| `Serverless.Handle` | functions/generate.js:10-42 | an absent or empty body gives 400 "No request body" before parsing. Unparsable text gives 500 "Failed to generate response" with the parser's message. A parsed `null` gives 500 "Failed to generate response" with the destructuring TypeError. The upstream is called exactly for a parsed body with a truthy prompt, as one user message and with no timeout. A falsy prompt gives 400 "Prompt is required". Success gives 200 with the trimmed reply. Every 500 carries "Failed to generate response" |
| `Serverless.NullBodyFails` | functions/generate.js:16-40 | the body `null` parses but cannot be destructured: 500 with the TypeError message, and no upstream call |
| `Serverless.UpstreamNotConsulted` | functions/generate.js:12-20 | whenever no upstream request is issued, the outcome does not depend on the upstream |
| `Serverless.DeploymentsAgree` | functions/generate.js:22-34 | for a parsed body with a readable prompt that `String` can convert, the serverless and Express handlers give the same response and the same request, except for the timeout |
| `Serverless.DeploymentsDiffer` | functions/generate.js:16-27 | a prompt `String` cannot convert is forwarded upstream by the serverless handler, while the Express handler answers 500 "Server error" without calling the upstream |
| `Origin.AnyMatches` | backend/server.js:24-26 | `some` over the list is true exactly when some entry matches the origin |
| `Origin.Allowed` | backend/server.js:22-27 | an absent or empty origin is allowed; any other origin is allowed exactly when some entry matches it |
| `Origin.MatchesPortIff` | backend/server.js:15-16 | an anchored local pattern matches exactly the prefix followed by a port of four or five ASCII digits |
| `Origin.NoOriginAllowed` | backend/server.js:23 | a request with no Origin is allowed |
| `Origin.PortLengthRejected` | backend/server.js:15-16 | a port of fewer than four or more than five characters never matches |
| `Origin.TrailingCharacterRejected` | backend/server.js:15-16 | any non-digit after the port (`/`, a path, a newline) makes the match fail |
| `Origin.HttpsNotLocal` | backend/server.js:15-16 | no `https://` origin matches either local pattern |
| `Origin.LocalDevelopmentAllowed` | backend/server.js:15-16 | `http://localhost:` and `http://127.0.0.1:` with a 4- or 5-digit port are allowed |
| `Origin.AsWrittenNeedsSlash` | backend/server.js:17 | the production entry as written matches only an origin that ends in `/` |
| `Origin.DeployedOriginRejectedAsWritten` | backend/server.js:17 | with the list as written, the deployed front end's Origin (no trailing slash) is rejected |
| `Origin.DeployedOriginAccepted` | backend/server.js:14-27 | with the corrected entry the deployed front end is allowed. Every slash-free origin the written list allowed is still allowed |
| `LlmChat.Submit` | src/components/LLMChat.tsx:15-22 | a blank prompt changes nothing and posts nothing. Otherwise exactly one user message with the untrimmed prompt is appended, the box is cleared, loading is set, and that same prompt is posted |
| `Client.ReplyOf` | src/components/LLMChat.tsx:31-39 | `data.reply` is the decoded object's own `reply` or `undefined`, and `undefined` for any other decoded value; the component's fallback text applies exactly when fetching or decoding threw or the body was `null` |
| `LlmChat.Settle` | src/components/LLMChat.tsx:31-42 | exactly one assistant message is appended and nothing earlier changes. Its content is `data.reply` (`undefined` when absent or when the body is not an object) when the body decoded, and "Error: Could not get a response." when fetching, decoding or reading `data.reply` threw. Loading is cleared |
| `LlmChat.ErrorStatusIsNotFailure` | src/components/LLMChat.tsx:25-33 | a 400 or 500 relay body decodes and appends an assistant message with `undefined` content, not the error text |
| `LlmChat.ReplyReachesTranscript` | src/components/LLMChat.tsx:31-33 | a 200 relay body appends its `reply` as the assistant message |
| `LlmChat.StepValid` | src/components/LLMChat.tsx:15-43 | each event keeps the transcript valid and only appends to it, at most one message at a time. Valid means: alternating, odd exactly while loading, and user messages non-blank |
| `LlmChat.RunValid` | src/components/LLMChat.tsx:15-43 | over any event sequence, the transcript stays valid and earlier messages are never changed or removed |
| `LlmChat.OneAnswerPerPrompt` | src/components/LLMChat.tsx:19-38 | after any run from the empty chat, user messages number the assistant messages plus one while loading, and equal them otherwise |
| `LlmChat.SingleFlight` | src/components/LLMChat.tsx:40-72 | Send does nothing while loading, and is enabled again after every settle |
| `ChatInput.PickIndex` | src/components/ChatInput.tsx:49 | `floor(random * 7)` is a valid index into the seven replies |
| `ChatInput.Submit` | src/components/ChatInput.tsx:31-45 | a blank message changes nothing. Otherwise exactly one user message is appended, whose text is the non-empty trim of the input; the input is cleared and typing starts |
| `ChatInput.Settle` | src/components/ChatInput.tsx:48-58 | exactly one non-user message is appended, its text one of the seven canned replies; earlier messages are kept; typing stops |
| `ChatInput.CanSendIff` | src/components/ChatInput.tsx:178 | the send button is enabled exactly when the input is not all whitespace and no reply is pending |
| `ChatInput.EnterRule` | src/components/ChatInput.tsx:62-67 | Enter without Shift submits; Shift+Enter and every other key leave the state alone |
| `ChatInput.StepValid` | src/components/ChatInput.tsx:31-67 | each event keeps the transcript valid and append-only. Valid means: alternating, odd exactly while typing, user texts trimmed and non-blank, other texts canned replies. Typing and keys reach only an enabled textarea (line 158) |
| `ChatInput.RunValid` | src/components/ChatInput.tsx:31-60 | over any event sequence the transcript stays valid and earlier messages are never changed or removed |
| `ChatInput.InitialValid` | src/components/ChatInput.tsx:15-17 | the empty chat, with an empty box and no reply pending, satisfies the transcript invariant |
| `ChatInput.OneReplyPerMessage` | src/components/ChatInput.tsx:43-57 | after any run from a valid state, the empty chat included, every user message but a pending one has exactly one canned reply |
| `AskAi.Submit` | src/App.tsx:8-17 | only the exactly empty prompt is ignored. Any other prompt, whitespace included, sets loading and is posted unchanged |
| `AskAi.Settle` | src/App.tsx:19-26 | loading is cleared and the prompt is kept. For a decoded object the reply becomes its `reply`, or `undefined` when absent; for a decoded number, string, boolean or array it becomes `undefined`. When the call throws, or the body is `null`, it becomes "Failed to get response from AI." |
| `AskAi.PromptOnlyChangedByTyping` | src/App.tsx:8-27 | submitting and settling never change the prompt text |
| `AskAi.RunKeepsPrompt` | src/App.tsx:4-34 | over any run with no typing, however asks and settles interleave, the prompt text is unchanged |
| `AskAi.RunEndsSettled` | src/App.tsx:8-26 | after any run, a settle leaves the button enabled, and an ask leaves loading set exactly when it was already set or the prompt is non-empty |
| `AskAi.LoadingBracketsCall` | src/App.tsx:10-25 | loading is true while the call is pending and false once it settles |
| `AskAi.ShowsReplyIff` | src/App.tsx:13-20 | driven by the serverless handler, the reply section shows exactly when the handler called the upstream, the call completed, and its content was not all whitespace; every 400 and 500 leaves it hidden |
| `AskAi.BlankContentHidden` | src/App.tsx:40 | whitespace-only upstream content, trimmed by the relay, never shows a reply |
| `Typing.TickShows` | src/components/HeroSection.tsx:11-17 | every tick keeps the display equal to the text up to the previous index, so it is a prefix of the text. An updating tick advances the index by one, and every updating tick after the first lengthens the display by one |
| `Typing.TicksFromStart` | src/components/HeroSection.tsx:10-14 | up to length + 1 ticks, tick `n` has shown exactly the first `n - 1` characters, starting from `""` |
| `Typing.Finishes` | src/components/HeroSection.tsx:12-16 | after length + 2 ticks the interval is cleared with the whole text shown, and later ticks change nothing |
| `Typing.UnmountFreezes` | src/components/HeroSection.tsx:20 | after the cleanup clears the interval, the display never changes |
| `Typing.Animate` | src/components/HeroSection.tsx:10-18 | running the interval to its end makes exactly length + 1 updates and leaves the whole text displayed |
| `Typing.HeroTitle` | src/components/HeroSection.tsx:6-7 | the 50-character title is fully shown after 52 ticks, 51 of which update it |

## Left out

- The OpenAI client, the Hugging Face router and `fetch` are network calls. They appear only as the `Upstream` and `Fetch` outcomes.
- Upstream content that is not a string is left out. The SDK types `content` as a string or null, so `Upstream.Completed` carries an optional string.
- An upstream error without a `message` is left out. Such an error would omit `details` from the body; the model always carries a message string.
- The exact TypeError texts are V8's wording and do not appear in the repository. Only their presence in `details` is modelled.
- Express and `cors` middleware ordering, the preflight response itself, `app.options`, `express.json` (including its own 400 for malformed JSON), `app.listen`, dotenv, the `/` route and all console logging are left out. So is the 80-character prompt preview, except that its `String(prompt)` conversion can throw, which is modelled. These are I/O plumbing.
- Temperature 0.7 is a floating-point constant. It is only carried as an opaque field.
- Message ids (`Date.now()`), timestamps (`new Date()`), the 1.5–2.5 s reply delay and the 50 ms interval period are left out. Ticks and timer firings are explicit events.
- Floating point is left out. `Math.random()` is an exact real in `[0, 1)`. JSON numbers are exact reals, so `NaN`, infinities and `-0` are not distinguished.
- JavaScript strings are UTF-16, while Dafny characters are Unicode scalar values. Every whitespace character `trim` removes lies in the Basic Multilingual Plane, so trimming is unaffected. The title contains no surrogate pairs, so its length of 50 is the same in both.
- React rendering, CSS, scrolling, textarea auto-resize and toasts are left out.
- `src/pages/SignUp.tsx`, `Sidebar.tsx`, `Header.tsx`, `Chat.tsx` and `Index.tsx` are left out: form plumbing, static data and layout. The "at least 8 characters" text is a hint, not a rule.
- Real JSON parsing and serialisation are left out. `JSON.parse` is a parameter, and a response body is a record; `Relay.BodyJson` is the value the client decodes from it.
- Concurrent requests to the relay are left out. Each handler call is independent.
- The `LLMChat` textarea stays enabled while loading; only the button is disabled. In the model, typing is always allowed, and a press while loading does nothing.

## Findings

| source | as written | input that shows it | evidently intended | confidence | as-written member | corrected member |
|---|---|---|---|---|---|---|
| backend/server.js:17 | the production allow-list entry is `"https://lioraaipathfinder.netlify.app/"`, compared by exact string equality | a request from the deployed site, whose browser sends `Origin: https://lioraaipathfinder.netlify.app`; a serialized origin never has a path | the entry `"https://lioraaipathfinder.netlify.app"`, so the deployed front end is allowed | high; not executed | `Origin.DeployedOriginRejectedAsWritten` | `Origin.DeployedOriginAccepted` |

`Origin.OriginAllowed` uses the corrected list. `Origin.OriginAllowedAsWritten` keeps the list exactly as declared.
