/** What the two fetching components share: the outcome of `fetch` followed
    by `res.json()`, and how each reads `data.reply` out of it. */
module Client {
  import opened Js

  /** What `fetch` followed by `res.json()` produced: a decoded body, whatever
      the HTTP status, or an exception. */
  datatype Fetch = Decoded(data: Value) | Threw

  /** `handleSubmit` up to the `await`: the component's next state and the prompt it posts, if any. */
  datatype Submission<S> = Submission(state: S, sent: Option<string>)

  /** `data.reply` inside a `try`, with `fallback` from the `catch`. */
  function ReplyOf(f: Fetch, fallback: string): (v: Value)
    // the fallback exactly when fetching or decoding threw, or the body was `null`
    ensures f.Threw? || f.data.Undefined? || f.data.Null? ==> v == Str(fallback)
    // the object's own `reply`, or `undefined` when it has none
    ensures f.Decoded? && f.data.Obj? ==>
      v == (if "reply" in f.data.fields then f.data.fields["reply"] else Undefined)
    // `undefined` for a decoded number, string, boolean or array
    ensures f.Decoded? && !f.data.Obj? && !f.data.Undefined? && !f.data.Null? ==> v == Undefined
  {
    match f
    case Threw => Str(fallback)
    case Decoded(data) =>
      match Field(data, ReplyKey)
      case None => Str(fallback)
      case Some(reply) => reply
  }
}
