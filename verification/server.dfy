/** The Express deployment: the `POST /api/generate` handler and `GET /health`. */
module Server {
  import opened Js
  import opened Relay

  const ServerError := "Server error"

  /** V8's TypeError text when `String(prompt)` cannot convert an object. */
  const ConversionMessage := "Cannot convert object to primitive value"

  /** V8's TypeError text for `const { prompt } = req.body` when the body is
      `undefined` or `null` (the body is `undefined` when no body parser ran). */
  function DestructureMessage(body: Value): string {
    "Cannot destructure property 'prompt' of 'req.body' as it is " + (if body.Null? then "null." else "undefined.")
  }

  /** The `/api/generate` handler, given the parsed request body and what the
      upstream completion call would do if it were made. */
  function Generate(body: Value, upstream: Upstream): (x: Exchange)
    // the upstream is called exactly when the body carries a truthy prompt that
    // `String` can convert, with a single user message holding that prompt and
    // the fixed parameters
    ensures x.request.Some? <==>
      && Field(body, PromptKey).Some?
      && !Field(body, PromptKey).value.IsFalsy()
      && !ToStringThrows(Field(body, PromptKey).value)
    ensures x.request.Some? ==>
      x.request.value == CompletionRequest(
        "meta-llama/Meta-Llama-3-70B-Instruct:together",
        [ChatMessage(User, Field(body, PromptKey).value)], 0.7, 256, Some(60000))
    // 400 exactly for a falsy prompt
    ensures x.response.status == 400 <==> Field(body, PromptKey).Some? && Field(body, PromptKey).value.IsFalsy()
    ensures x.response.status == 400 ==> x.response.body == ErrorBody("Prompt is required")
    // 200 exactly when the upstream was called and answered, with the trimmed content
    ensures x.response.status == 200 <==> x.request.Some? && upstream.Completed?
    ensures x.response.status == 200 ==> x.response.body == ReplyBody(ReplyText(upstream.content))
    // every upstream failure maps to the same 500, carrying its message
    ensures x.request.Some? && upstream.Failed? ==>
      x.response == Response(500, DetailedError("Failed to generate response", upstream.message))
    // a body that cannot be destructured falls through to the outer catch
    ensures Field(body, PromptKey).None? ==>
      x.response == Response(500, DetailedError("Server error", DestructureMessage(body)))
    // so does a prompt whose conversion for the log line throws, before any upstream call
    ensures Field(body, PromptKey).Some? && ToStringThrows(Field(body, PromptKey).value) ==>
      x == Exchange(None, Response(500, DetailedError("Server error", "Cannot convert object to primitive value")))
    ensures x.response.status in {200, 400, 500}
  {
    match Field(body, PromptKey)
    case None => Exchange(None, Response(500, DetailedError(ServerError, DestructureMessage(body))))
    case Some(prompt) =>
      if prompt.IsFalsy() then
        Exchange(None, Response(400, ErrorBody(PromptRequired)))
      else if ToStringThrows(prompt) then
        Exchange(None, Response(500, DetailedError(ServerError, ConversionMessage)))
      else
        var request := SingleTurn(prompt, Some(TimeoutMs));
        match upstream
        case Completed(content) => Exchange(Some(request), Response(200, ReplyBody(ReplyText(content))))
        case Failed(message) => Exchange(Some(request), Response(500, DetailedError(GenerateFailed, message)))
  }

  /** On a body the handler rejects, the upstream outcome cannot matter: the
      exchange is the same whatever the upstream would have done. */
  lemma UpstreamNotConsulted(body: Value, u1: Upstream, u2: Upstream)
    requires Field(body, PromptKey).None? || Field(body, PromptKey).value.IsFalsy() || ToStringThrows(Field(body, PromptKey).value)
    ensures Generate(body, u1) == Generate(body, u2)
    ensures Generate(body, u1).request.None?
  {
  }

  /** A prompt object with its own `toString` key, bare or at any position of
      an array, never reaches the upstream: the log line's `String(prompt)`
      throws first, and the outer catch answers. */
  lemma UnconvertiblePromptFails(fields: map<string, Value>, items: seq<Value>, i: nat, upstream: Upstream)
    requires "toString" in fields && i < |items| && items[i] == Obj(fields)
    ensures Generate(Obj(map["prompt" := Obj(fields)]), upstream)
      == Exchange(None, Response(500, DetailedError("Server error", "Cannot convert object to primitive value")))
    ensures Generate(Obj(map["prompt" := Arr(items)]), upstream)
      == Exchange(None, Response(500, DetailedError("Server error", "Cannot convert object to primitive value")))
  {
  }

  /** A whitespace-only prompt is truthy: it is forwarded, not rejected. */
  lemma WhitespacePromptForwarded(s: string, upstream: Upstream)
    requires s != [] && AllWhiteSpace(s)
    ensures Generate(Obj(map["prompt" := Str(s)]), upstream).request.Some?
    ensures Generate(Obj(map["prompt" := Str(s)]), upstream).response.status != 400
  {
  }

  /** An upstream answer with no content, or only whitespace, is still a 200 with an empty reply. */
  lemma EmptyReplyIsSuccess(prompt: string, content: Option<string>)
    requires prompt != ""
    requires content.None? || AllWhiteSpace(content.value)
    ensures Generate(Obj(map["prompt" := Str(prompt)]), Completed(content)).response == Response(200, ReplyBody(""))
  {
    ReplyTextMeaning(content);
  }

  /** `process.env.PORT || 5000`. */
  datatype Port = PortText(text: string) | PortNumber(n: nat)

  function ListenPort(env: Option<string>): (p: Port)
    // the default applies exactly when the variable is unset or empty
    ensures p.PortNumber? <==> env.None? || env.value == ""
    ensures p.PortNumber? ==> p.n == 5000
    // otherwise the variable's text is used unchanged, without parsing it as a number
    ensures p.PortText? ==> env == Some(p.text)
  {
    var port := EnvValue(env);
    if port.IsFalsy() then PortNumber(5000) else PortText(port.s)
  }

  datatype HealthReport = HealthReport(status: string, port: Port, hfToken: string, model: string)

  /** An environment variable read as a JavaScript value. */
  function EnvValue(env: Option<string>): Value {
    match env
    case None => Undefined
    case Some(s) => Str(s)
  }

  /** The `/health` handler, given the `PORT` and `HF_TOKEN` environment variables. */
  function Health(portEnv: Option<string>, token: Option<string>): (h: HealthReport)
    ensures h.status == "ok" && h.model == "meta-llama/Meta-Llama-3-70B-Instruct:together"
    ensures h.port == ListenPort(portEnv)
    // reported "set" exactly when the token is present and non-empty; its validity is never checked
    ensures h.hfToken == "set" <==> token.Some? && token.value != ""
    ensures h.hfToken == "missing" <==> token.None? || token.value == ""
  {
    var isTokenSet := !EnvValue(token).IsFalsy();
    HealthReport("ok", ListenPort(portEnv), if isTokenSet then "set" else "missing", SelectedModel)
  }
}
