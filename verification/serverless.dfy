/** The serverless deployment of the relay: one `handler(event)` invocation
    taking the raw request body text and returning `{ statusCode, body }`. */
module Serverless {
  import opened Js
  import opened Relay
  import Server

  const NoRequestBody := "No request body"

  /** What `JSON.parse` made of the body text: a value, or a thrown SyntaxError. */
  datatype Parsed = Parsed(value: Value) | SyntaxError(message: string)

  /** V8's TypeError text for `const { prompt } = JSON.parse(...)` when the text is `null`. */
  function DestructureMessage(v: Value): string {
    "Cannot destructure property 'prompt' of 'JSON.parse(...)' as it is " + (if v.Null? then "null." else "undefined.")
  }

  /** `t || ""`. */
  function OrIfFalsy(t: Option<string>): string {
    match t
    case Some(s) => if Str(s).IsFalsy() then "" else s
    case None => ""
  }

  /** The reply this deployment returns:
      `completion?.choices?.[0]?.message?.content?.trim?.() || ""`. */
  function FallbackReply(content: Option<string>): string {
    OrIfFalsy(TrimmedContent(content))
  }

  /** `|| ""` and the Express deployment's `?? ""` give the same reply for every content. */
  lemma FallbackReplyAgrees(content: Option<string>)
    ensures FallbackReply(content) == ReplyText(content)
    ensures FallbackReply(content) == "" <==> content.None? || AllWhiteSpace(content.value)
  {
    ReplyTextMeaning(content);
  }

  /** The handler, given the event body (None when absent), the behaviour of
      `JSON.parse`, and what the upstream call would do if it were made. */
  function Handle(eventBody: Option<string>, parse: string -> Parsed, upstream: Upstream): (x: Exchange)
    // an absent or empty body is rejected before anything is parsed
    ensures eventBody.None? || eventBody.value == "" ==> x == Exchange(None, Response(400, ErrorBody("No request body")))
    // text that does not parse is caught by the one catch block
    ensures eventBody.Some? && eventBody.value != "" && parse(eventBody.value).SyntaxError? ==>
      x == Exchange(None, Response(500, DetailedError("Failed to generate response", parse(eventBody.value).message)))
    // the upstream is called exactly for a parsed body with a truthy prompt
    ensures x.request.Some? <==>
      && eventBody.Some? && eventBody.value != ""
      && parse(eventBody.value).Parsed?
      && Field(parse(eventBody.value).value, PromptKey).Some?
      && !Field(parse(eventBody.value).value, PromptKey).value.IsFalsy()
    ensures x.request.Some? ==>
      x.request.value == CompletionRequest(
        "meta-llama/Meta-Llama-3-70B-Instruct:together",
        [ChatMessage(User, Field(parse(eventBody.value).value, PromptKey).value)], 0.7, 256, None)
    // a parsed body with a falsy prompt is rejected
    ensures
      && eventBody.Some? && eventBody.value != "" && parse(eventBody.value).Parsed?
      && Field(parse(eventBody.value).value, PromptKey).Some?
      && Field(parse(eventBody.value).value, PromptKey).value.IsFalsy()
      ==> x == Exchange(None, Response(400, ErrorBody("Prompt is required")))
    // a parsed `null` or `undefined` cannot be destructured: the TypeError is caught
    ensures
      && eventBody.Some? && eventBody.value != "" && parse(eventBody.value).Parsed?
      && Field(parse(eventBody.value).value, PromptKey).None?
      ==> x == Exchange(None, Response(500, DetailedError("Failed to generate response", DestructureMessage(parse(eventBody.value).value))))
    ensures x.response.status == 400 ==> x.response.body in {ErrorBody("No request body"), ErrorBody("Prompt is required")}
    ensures x.response.status == 200 <==> x.request.Some? && upstream.Completed?
    ensures x.response.status == 200 ==> x.response.body == ReplyBody(ReplyText(upstream.content))
    ensures x.request.Some? && upstream.Failed? ==>
      x.response == Response(500, DetailedError("Failed to generate response", upstream.message))
    // every 500 carries the same error string, whatever the cause
    ensures x.response.status == 500 ==> x.response.body.DetailedError? && x.response.body.error == "Failed to generate response"
    ensures x.response.status in {200, 400, 500}
  {
    if eventBody.None? || eventBody.value == "" then
      Exchange(None, Response(400, ErrorBody(NoRequestBody)))
    else
      match parse(eventBody.value)
      case SyntaxError(message) => Exchange(None, Response(500, DetailedError(GenerateFailed, message)))
      case Parsed(v) =>
        match Field(v, PromptKey)
        case None => Exchange(None, Response(500, DetailedError(GenerateFailed, DestructureMessage(v))))
        case Some(prompt) =>
          if prompt.IsFalsy() then
            Exchange(None, Response(400, ErrorBody(PromptRequired)))
          else
            var request := SingleTurn(prompt, None);
            match upstream
            case Completed(content) =>
              FallbackReplyAgrees(content);
              Exchange(Some(request), Response(200, ReplyBody(FallbackReply(content))))
            case Failed(message) => Exchange(Some(request), Response(500, DetailedError(GenerateFailed, message)))
  }

  /** The body text `null` parses, but cannot be destructured: a 500, and no upstream call. */
  lemma NullBodyFails(parse: string -> Parsed, upstream: Upstream)
    requires parse("null") == Parsed(Null)
    ensures Handle(Some("null"), parse, upstream) ==
      Exchange(None, Response(500, DetailedError("Failed to generate response",
        "Cannot destructure property 'prompt' of 'JSON.parse(...)' as it is null.")))
  {
  }

  /** Whenever the handler does not call the upstream, what the upstream would have done is irrelevant. */
  lemma UpstreamNotConsulted(eventBody: Option<string>, parse: string -> Parsed, u1: Upstream, u2: Upstream)
    requires Handle(eventBody, parse, u1).request.None?
    ensures Handle(eventBody, parse, u1) == Handle(eventBody, parse, u2)
  {
  }

  /** For a body that parses to a value with a readable prompt that `String`
      can convert, the two deployments give the same response and send the
      same request, except that only the Express one passes the 60-second
      timeout. */
  lemma DeploymentsAgree(text: string, parse: string -> Parsed, upstream: Upstream)
    requires text != "" && parse(text).Parsed? && Field(parse(text).value, PromptKey).Some?
    requires !ToStringThrows(Field(parse(text).value, PromptKey).value)
    ensures Handle(Some(text), parse, upstream).response == Server.Generate(parse(text).value, upstream).response
    ensures Handle(Some(text), parse, upstream).request.Some? <==> Server.Generate(parse(text).value, upstream).request.Some?
    ensures Handle(Some(text), parse, upstream).request.Some? ==>
      Handle(Some(text), parse, upstream).request.value
        == Server.Generate(parse(text).value, upstream).request.value.(timeoutMs := None)
  {
  }

  /** The one place the deployments part ways on a readable prompt: a prompt
      `String` cannot convert is forwarded here, while the Express handler
      answers 500 "Server error" without calling the upstream. */
  lemma DeploymentsDiffer(text: string, parse: string -> Parsed, upstream: Upstream)
    requires text != "" && parse(text).Parsed? && Field(parse(text).value, PromptKey).Some?
    requires ToStringThrows(Field(parse(text).value, PromptKey).value)
    ensures Handle(Some(text), parse, upstream).request.Some?
    ensures Server.Generate(parse(text).value, upstream).request.None?
    ensures Server.Generate(parse(text).value, upstream).response.body.error == "Server error"
  {
  }
}
