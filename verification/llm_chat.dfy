/** The `LLMChat` component: a transcript of `{ role, content }` messages, a
    prompt box and a loading flag, talking to the Express relay. */
module LlmChat {
  import opened Js
  import opened Relay
  import opened Transcript
  import opened Client

  const ErrorReply := "Error: Could not get a response."

  datatype State = State(prompt: string, messages: seq<ChatMessage>, loading: bool)

  const Initial := State("", [], false)

  function Submit(s: State): (r: Submission<State>)
    // a blank prompt (empty or whitespace only) changes nothing and posts nothing
    ensures AllWhiteSpace(s.prompt) ==> r == Submission(s, None)
    // otherwise one user message with the untrimmed prompt, which is also what is posted
    ensures !AllWhiteSpace(s.prompt) ==>
      && r.state.messages == s.messages + [ChatMessage(User, Str(s.prompt))]
      && r.state.prompt == ""
      && r.state.loading
      && r.sent == Some(s.prompt)
  {
    TrimEmptyIff(s.prompt);
    if Trim(s.prompt) == "" then Submission(s, None)
    else
      var userMessage := ChatMessage(User, Str(s.prompt));
      Submission(State("", s.messages + [userMessage], true), Some(s.prompt))
  }

  /** The content of the assistant message: `data.reply`, or the placeholder
      when fetching, decoding or reading `data.reply` threw. */
  function AssistantContent(f: Fetch): Value {
    ReplyOf(f, ErrorReply)
  }

  /** The rest of `handleSubmit`, once the call settles. */
  function Settle(s: State, f: Fetch): (t: State)
    // exactly one assistant message is appended, and nothing else in the transcript changes
    ensures |t.messages| == |s.messages| + 1 && t.messages[..|s.messages|] == s.messages
    ensures t.messages[|s.messages|].role == Assistant
    // its content is the placeholder when something threw, and `data.reply` otherwise
    ensures f.Threw? || f.data.Undefined? || f.data.Null? ==>
      t.messages[|s.messages|].content == Str("Error: Could not get a response.")
    ensures f.Decoded? && f.data.Obj? ==>
      t.messages[|s.messages|].content == (if "reply" in f.data.fields then f.data.fields["reply"] else Undefined)
    ensures f.Decoded? && !f.data.Obj? && !f.data.Undefined? && !f.data.Null? ==>
      t.messages[|s.messages|].content == Undefined
    ensures !t.loading
    ensures t.prompt == s.prompt
  {
    var aiMessage := ChatMessage(Assistant, AssistantContent(f));
    assert (s.messages + [aiMessage])[..|s.messages|] == s.messages;
    State(s.prompt, s.messages + [aiMessage], false)
  }

  /** An error response from the relay is not a failure: its body decodes, has
      no `reply`, and the assistant message is `undefined`, not the placeholder. */
  lemma ErrorStatusIsNotFailure(s: State, b: Body)
    requires !b.ReplyBody?
    ensures Settle(s, Decoded(BodyJson(b))).messages[|s.messages|] == ChatMessage(Assistant, Undefined)
  {
  }

  /** A successful relay response puts its reply text in the transcript. */
  lemma ReplyReachesTranscript(s: State, reply: string)
    ensures Settle(s, Decoded(BodyJson(ReplyBody(reply)))).messages[|s.messages|] == ChatMessage(Assistant, Str(reply))
  {
  }

  /** What can happen to the component: typing, pressing Send (the button is
      disabled while loading) and the pending call settling. */
  datatype Event = Edit(text: string) | Press | Complete(result: Fetch)

  function Step(s: State, e: Event): State {
    match e
    case Edit(text) => s.(prompt := text)
    case Press => if s.loading then s else Submit(s).state
    case Complete(result) => if s.loading then Settle(s, result) else s
  }

  function Run(s: State, events: seq<Event>): State
    decreases |events|
  {
    if events == [] then s else Run(Step(s, events[0]), events[1..])
  }

  /** The button's `disabled={loading}`. */
  predicate CanSend(s: State) {
    !s.loading
  }

  function Roles(ms: seq<ChatMessage>): (roles: seq<Role>)
    ensures |roles| == |ms|
    ensures forall i :: 0 <= i < |ms| ==> roles[i] == ms[i].role
  {
    seq(|ms|, i requires 0 <= i < |ms| => ms[i].role)
  }

  /** The transcript alternates user and assistant messages, starting with
      the user; its length is odd exactly while a call is outstanding; and
      every user message was a non-blank prompt. */
  ghost predicate Valid(s: State) {
    && (|s.messages| % 2 == 1 <==> s.loading)
    && Alternates(Roles(s.messages))
    && (forall i :: 0 <= i < |s.messages| && s.messages[i].role == User ==>
          s.messages[i].content.Str? && !AllWhiteSpace(s.messages[i].content.s))
  }

  /** Appending the message whose turn it is, and flipping the loading flag, keeps the transcript valid. */
  lemma AppendValid(s: State, m: ChatMessage, t: State)
    requires Valid(s)
    requires t.messages == s.messages + [m] && t.loading == !s.loading
    requires m.role == Turn(|s.messages|)
    requires m.role == User ==> m.content.Str? && !AllWhiteSpace(m.content.s)
    ensures Valid(t)
  {
    assert Roles(t.messages) == Roles(s.messages) + [m.role];
    AppendAlternates(Roles(s.messages), m.role);
    forall i | 0 <= i < |t.messages| && t.messages[i].role == User
      ensures t.messages[i].content.Str? && !AllWhiteSpace(t.messages[i].content.s)
    {
      if i < |s.messages| {
        assert t.messages[i] == s.messages[i];
      }
    }
  }

  /** Every step keeps the transcript valid and only ever appends to it. */
  lemma StepValid(s: State, e: Event)
    requires Valid(s)
    ensures Valid(Step(s, e))
    ensures s.messages <= Step(s, e).messages
    ensures |Step(s, e).messages| <= |s.messages| + 1
  {
    var t := Step(s, e);
    match e
    case Edit(_) =>
    case Press =>
      if !s.loading && !AllWhiteSpace(s.prompt) {
        AppendValid(s, ChatMessage(User, Str(s.prompt)), t);
      }
    case Complete(result) =>
      if s.loading {
        AppendValid(s, ChatMessage(Assistant, AssistantContent(result)), t);
      }
  }

  /** From the initial state, any sequence of events keeps the transcript
      valid, and earlier messages are never changed or removed. */
  lemma {:induction false} RunValid(s: State, events: seq<Event>)
    requires Valid(s)
    ensures Valid(Run(s, events))
    ensures s.messages <= Run(s, events).messages
    decreases |events|
  {
    if events != [] {
      StepValid(s, events[0]);
      RunValid(Step(s, events[0]), events[1..]);
    }
  }

  /** Over any run from the initial state, the assistant has answered every
      user message except the one still loading. */
  lemma OneAnswerPerPrompt(events: seq<Event>)
    ensures Count(Roles(Run(Initial, events).messages), User)
      == Count(Roles(Run(Initial, events).messages), Assistant) + (if Run(Initial, events).loading then 1 else 0)
  {
    RunValid(Initial, events);
    AlternatesCounts(Roles(Run(Initial, events).messages));
  }

  /** Single flight: while loading, Send does nothing; after a settle, Send is enabled again. */
  lemma SingleFlight(s: State, f: Fetch)
    ensures s.loading ==> Step(s, Press) == s
    ensures CanSend(Settle(s, f))
  {
  }
}
