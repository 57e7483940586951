/** What both deployments of the `/api/generate` relay share: the fixed
    upstream parameters, the shape of the completion request, the abstract
    outcome of the upstream call, and the response records. */
module Relay {
  import opened Js

  const SelectedModel := "meta-llama/Meta-Llama-3-70B-Instruct:together"
  /** Sampling temperature; kept as an opaque constant, never computed with. */
  const Temperature: real := 0.7
  const MaxTokens: nat := 256
  const TimeoutMs: nat := 60000

  const PromptRequired := "Prompt is required"
  const GenerateFailed := "Failed to generate response"

  datatype Role = User | Assistant

  /** `{ role, content }`; the content is whatever JSON value the caller supplied. */
  datatype ChatMessage = ChatMessage(role: Role, content: Value)

  /** The arguments of `client.chat.completions.create`: the request body and,
      when the caller passes one, the per-request timeout option. */
  datatype CompletionRequest = CompletionRequest(
    model: string,
    messages: seq<ChatMessage>,
    temperature: real,
    maxTokens: nat,
    timeoutMs: Option<nat>)

  /** What the upstream call did, supplied from outside: it resolved with the
      first choice's message content (None when there is no choice or no
      content), or it threw an error carrying `message`. */
  datatype Upstream = Completed(content: Option<string>) | Failed(message: string)

  /** The JSON bodies the relay returns. */
  datatype Body =
    | ReplyBody(reply: string)
    | ErrorBody(error: string)
    | DetailedError(error: string, details: string)

  datatype Response = Response(status: nat, body: Body)

  /** One invocation of a handler: the upstream request it issued, if any, and its response. */
  datatype Exchange = Exchange(request: Option<CompletionRequest>, response: Response)

  /** The single-turn request both deployments build from a prompt. */
  function SingleTurn(prompt: Value, timeout: Option<nat>): CompletionRequest {
    CompletionRequest(SelectedModel, [ChatMessage(User, prompt)], Temperature, MaxTokens, timeout)
  }

  /** `content?.trim?.()`: the trimmed content, or `undefined` (None) when there is none. */
  function TrimmedContent(content: Option<string>): Option<string> {
    match content
    case None => None
    case Some(c) => Some(Trim(c))
  }

  /** `t ?? ""`. */
  function OrIfNullish(t: Option<string>): string {
    match t
    case None => ""
    case Some(s) => s
  }

  /** The reply the Express handler returns:
      `completion?.choices?.[0]?.message?.content?.trim?.() ?? ""`. */
  function ReplyText(content: Option<string>): string {
    OrIfNullish(TrimmedContent(content))
  }

  /** The reply is the trim of the first choice's content, and empty exactly
      when there is no content or the content is all whitespace. */
  lemma ReplyTextMeaning(content: Option<string>)
    ensures content.None? ==> ReplyText(content) == ""
    ensures content.Some? ==> IsTrimOf(ReplyText(content), content.value)
    ensures ReplyText(content) == "" <==> content.None? || AllWhiteSpace(content.value)
  {
    if content.Some? {
      TrimIsTrimOf(content.value);
      TrimEmptyIff(content.value);
    }
  }

  /** The response body as the client decodes it with `res.json()`. */
  function BodyJson(b: Body): (v: Value)
    ensures v.Obj?
    ensures Field(v, ReplyKey) == Some(if b.ReplyBody? then Str(b.reply) else Undefined)
  {
    match b
    case ReplyBody(reply) => Obj(map["reply" := Str(reply)])
    case ErrorBody(error) => Obj(map["error" := Str(error)])
    case DetailedError(error, details) => Obj(map["error" := Str(error), "details" := Str(details)])
  }
}
