/** The single-reply "AI Career & Skills Advisor" page of `App.tsx`: a prompt
    box, the last reply, and a loading flag, talking to the serverless relay. */
module AskAi {
  import opened Js
  import opened Relay
  import opened Client
  import Serverless

  const FailureReply := "Failed to get response from AI."

  /** `reply` holds whatever `data.reply` was, so it may be `undefined`. */
  datatype State = State(userPrompt: string, reply: Value, loading: bool)

  const Initial := State("", Str(""), false)

  function Submit(s: State): (r: Submission<State>)
    // only the exactly empty prompt is ignored; whitespace is sent as typed
    ensures s.userPrompt == "" ==> r == Submission(s, None)
    ensures s.userPrompt != "" ==> r == Submission(s.(loading := true), Some(s.userPrompt))
  {
    if Str(s.userPrompt).IsFalsy() then Submission(s, None)
    else Submission(s.(loading := true), Some(s.userPrompt))
  }

  /** The rest of `handleSubmit`, once the call settles. */
  function Settle(s: State, f: Fetch): (t: State)
    ensures !t.loading && t.userPrompt == s.userPrompt
    ensures f.Threw? || f.data.Undefined? || f.data.Null? ==> t.reply == Str("Failed to get response from AI.")
    ensures f.Decoded? && f.data.Obj? ==>
      t.reply == (if "reply" in f.data.fields then f.data.fields["reply"] else Undefined)
    ensures f.Decoded? && !f.data.Obj? && !f.data.Undefined? && !f.data.Null? ==> t.reply == Undefined
  {
    State(s.userPrompt, ReplyOf(f, FailureReply), false)
  }

  /** The button's `disabled={loading}`. */
  predicate CanAsk(s: State) {
    !s.loading
  }

  /** `{reply && ...}`: the reply section is rendered. */
  predicate ShowsReply(s: State) {
    !s.reply.IsFalsy()
  }

  datatype Event = Edit(text: string) | Ask | Complete(result: Fetch)

  function Step(s: State, e: Event): State {
    match e
    case Edit(text) => s.(userPrompt := text)
    case Ask => if CanAsk(s) then Submit(s).state else s
    case Complete(result) => if s.loading then Settle(s, result) else s
  }

  function Run(s: State, events: seq<Event>): State
    decreases |events|
  {
    if events == [] then s else Run(Step(s, events[0]), events[1..])
  }

  lemma {:induction false} RunSnoc(s: State, events: seq<Event>, e: Event)
    ensures Run(s, events + [e]) == Step(Run(s, events), e)
    decreases |events|
  {
    if events != [] {
      assert (events + [e])[1..] == events[1..] + [e];
      RunSnoc(Step(s, events[0]), events[1..], e);
    }
  }

  /** Over any run without typing, the prompt text is what it was: asking
      and settling, however interleaved, never change it. */
  lemma {:induction false} RunKeepsPrompt(s: State, events: seq<Event>)
    requires forall i :: 0 <= i < |events| ==> !events[i].Edit?
    ensures Run(s, events).userPrompt == s.userPrompt
    decreases |events|
  {
    if events != [] {
      PromptOnlyChangedByTyping(s, events[0]);
      RunKeepsPrompt(Step(s, events[0]), events[1..]);
    }
  }

  /** Over any run, a settle as the last event leaves the button enabled,
      and otherwise the last event decides the flag as a single step would. */
  lemma RunEndsSettled(s: State, events: seq<Event>, f: Fetch)
    ensures CanAsk(Run(s, events + [Complete(f)]))
    ensures Run(s, events + [Ask]).loading <==> Run(s, events).loading || Run(s, events).userPrompt != ""
  {
    RunSnoc(s, events, Complete(f));
    RunSnoc(s, events, Ask);
  }

  /** Submitting and settling never touch the prompt text; only typing does. */
  lemma PromptOnlyChangedByTyping(s: State, e: Event)
    ensures !e.Edit? ==> Step(s, e).userPrompt == s.userPrompt
  {
  }

  /** Loading is set for exactly the duration of a call. */
  lemma LoadingBracketsCall(s: State, f: Fetch)
    requires !s.loading && s.userPrompt != ""
    ensures Step(s, Ask).loading
    ensures !Step(Step(s, Ask), Complete(f)).loading
  {
  }

  /** Driven by the serverless relay: the page shows a reply exactly when the
      relay called the upstream, the call completed, and its content was not
      blank; every 400 and 500 leaves the reply section hidden. */
  lemma ShowsReplyIff(s: State, body: Option<string>, parse: string -> Serverless.Parsed, u: Upstream)
    ensures ShowsReply(Settle(s, Decoded(BodyJson(Serverless.Handle(body, parse, u).response.body)))) <==>
      && Serverless.Handle(body, parse, u).request.Some?
      && u.Completed? && u.content.Some? && !AllWhiteSpace(u.content.value)
  {
    var x := Serverless.Handle(body, parse, u);
    if u.Completed? {
      ReplyTextMeaning(u.content);
    }
    assert x.response.body.ReplyBody? <==> x.response.status == 200;
  }

  /** A whitespace-only reply from the relay never appears: the relay trims it to "". */
  lemma BlankContentHidden(s: State, content: string)
    requires AllWhiteSpace(content)
    ensures !ShowsReply(Settle(s, Decoded(BodyJson(ReplyBody(ReplyText(Some(content)))))))
  {
    ReplyTextMeaning(Some(content));
  }
}
