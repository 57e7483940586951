/** The `ChatInput` component: a transcript of `{ text, isUser }` messages
    answered by a canned reply picked at random after a delay. Message ids,
    timestamps and the delay itself are not modelled. */
module ChatInput {
  import opened Js
  import opened Relay
  import opened Transcript

  /** The seven canned career replies. */
  const CareerResponses: seq<string> := [
    "That's a great question! Career transitions can be exciting. What specific field are you considering moving into?",
    "I understand you're thinking about your career path. Could you tell me more about your current skills and interests?",
    "Career development is a journey! What particular aspect of your career would you like to focus on - skills, direction, or growth opportunities?",
    "I'm here to help with your career goals. Are you looking for advice on skill development, job searching, or career planning?",
    "That's an interesting career question. What's your background, and what kind of change are you hoping to make?",
    "Career growth is important! Tell me about your current situation and where you'd like to be in the future.",
    "I'd love to help you with your career journey. What specific challenges or opportunities are you facing right now?"
  ]

  datatype Message = Message(text: string, isUser: bool)

  datatype State = State(message: string, isTyping: bool, messages: seq<Message>)

  const Initial := State("", false, [])

  /** A value `Math.random()` can return. */
  predicate IsDraw(r: real) {
    0.0 <= r < 1.0
  }

  /** `Math.floor(Math.random() * careerResponses.length)`. */
  function PickIndex(r: real): (i: int)
    requires IsDraw(r)
    ensures 0 <= i < |CareerResponses|
  {
    (r * |CareerResponses| as real).Floor
  }

  /** `handleSubmit`: the state right after it returns (the timer is still pending). */
  function Submit(s: State): (t: State)
    // a blank message changes nothing
    ensures AllWhiteSpace(s.message) ==> t == s
    // otherwise the trimmed text is appended as a user message, the box is cleared and typing starts
    ensures !AllWhiteSpace(s.message) ==>
      && |t.messages| == |s.messages| + 1
      && t.messages[..|s.messages|] == s.messages
      && t.messages[|s.messages|].isUser
      && IsTrimOf(t.messages[|s.messages|].text, s.message)
      && t.messages[|s.messages|].text != ""
      && t.message == ""
      && t.isTyping
  {
    TrimEmptyIff(s.message);
    TrimIsTrimOf(s.message);
    if Trim(s.message) == "" then s
    else State("", true, s.messages + [Message(Trim(s.message), true)])
  }

  /** The timer callback: one canned reply is appended and typing stops. */
  function Settle(s: State, r: real): (t: State)
    requires IsDraw(r)
    ensures |t.messages| == |s.messages| + 1 && t.messages[..|s.messages|] == s.messages
    ensures !t.messages[|s.messages|].isUser && t.messages[|s.messages|].text in CareerResponses
    ensures !t.isTyping && t.message == s.message
  {
    var reply := Message(CareerResponses[PickIndex(r)], false);
    assert (s.messages + [reply])[..|s.messages|] == s.messages;
    State(s.message, false, s.messages + [reply])
  }

  /** `handleKeyPress`: Enter without Shift submits. */
  function KeyPress(s: State, key: string, shift: bool): State {
    if key == "Enter" && !shift then Submit(s) else s
  }

  /** The send button is enabled (`disabled={!message.trim() || isTyping}`). */
  predicate CanSend(s: State) {
    !(Trim(s.message) == "" || s.isTyping)
  }

  /** The textarea is enabled (`disabled={isTyping}`). */
  predicate CanType(s: State) {
    !s.isTyping
  }

  lemma CanSendIff(s: State)
    ensures CanSend(s) <==> !AllWhiteSpace(s.message) && !s.isTyping
  {
    TrimEmptyIff(s.message);
  }

  /** Only an unshifted Enter submits; every other key press leaves the state alone. */
  lemma EnterRule(s: State, key: string, shift: bool)
    ensures key == "Enter" && !shift ==> KeyPress(s, key, shift) == Submit(s)
    ensures key != "Enter" || shift ==> KeyPress(s, key, shift) == s
  {
  }

  /** What can happen: typing and key presses reach a disabled textarea not at
      all, a click reaches only an enabled button, and the one timer fires
      only while typing is shown. */
  datatype Event = Edit(text: string) | Key(key: string, shift: bool) | Click | Reply(draw: real)

  predicate ValidEvent(e: Event) {
    e.Reply? ==> IsDraw(e.draw)
  }

  function Step(s: State, e: Event): State
    requires ValidEvent(e)
  {
    match e
    case Edit(text) => if CanType(s) then s.(message := text) else s
    case Key(key, shift) => if CanType(s) then KeyPress(s, key, shift) else s
    case Click => if CanSend(s) then Submit(s) else s
    case Reply(r) => if s.isTyping then Settle(s, r) else s
  }

  function Run(s: State, events: seq<Event>): State
    requires forall i :: 0 <= i < |events| ==> ValidEvent(events[i])
    decreases |events|
  {
    if events == [] then s else Run(Step(s, events[0]), events[1..])
  }

  function Roles(ms: seq<Message>): (roles: seq<Role>)
    ensures |roles| == |ms|
    ensures forall i :: 0 <= i < |ms| ==> roles[i] == (if ms[i].isUser then User else Assistant)
  {
    seq(|ms|, i requires 0 <= i < |ms| => if ms[i].isUser then User else Assistant)
  }

  /** User and canned messages alternate, typing shows exactly while a reply
      is owed, user texts are trimmed and non-blank, and every other text is
      one of the canned replies. */
  ghost predicate Valid(s: State) {
    ValidWith(s, CareerResponses)
  }

  /** `Valid` over an arbitrary reply list, so the proofs about appending
      never have to unfold the seven long reply literals. */
  ghost predicate ValidWith(s: State, replies: seq<string>) {
    && (|s.messages| % 2 == 1 <==> s.isTyping)
    && Alternates(Roles(s.messages))
    && (forall i :: 0 <= i < |s.messages| ==> Proper(s.messages[i], replies))
  }

  /** A user text is trimmed and non-blank; any other text is one of `replies`. */
  ghost predicate Proper(m: Message, replies: seq<string>) {
    if m.isUser then m.text != "" && Trim(m.text) == m.text else m.text in replies
  }

  lemma AppendValid(s: State, m: Message, t: State, replies: seq<string>)
    requires ValidWith(s, replies)
    requires t.messages == s.messages + [m] && t.isTyping == !s.isTyping
    requires (if m.isUser then User else Assistant) == Turn(|s.messages|)
    requires Proper(m, replies)
    ensures ValidWith(t, replies)
  {
    RolesAppend(s.messages, m);
    AppendAlternates(Roles(s.messages), if m.isUser then User else Assistant);
    AppendProper(s.messages, m, replies);
  }

  lemma AppendProper(ms: seq<Message>, m: Message, replies: seq<string>)
    requires forall i :: 0 <= i < |ms| ==> Proper(ms[i], replies)
    requires Proper(m, replies)
    ensures forall i :: 0 <= i < |ms + [m]| ==> Proper((ms + [m])[i], replies)
  {
    forall i | 0 <= i < |ms + [m]| ensures Proper((ms + [m])[i], replies) {
      if i < |ms| {
        assert (ms + [m])[i] == ms[i];
      }
    }
  }

  lemma RolesAppend(ms: seq<Message>, m: Message)
    ensures Roles(ms + [m]) == Roles(ms) + [if m.isUser then User else Assistant]
  {
  }

  lemma SubmitValid(s: State)
    requires Valid(s) && !s.isTyping
    ensures Valid(Submit(s))
  {
    if !AllWhiteSpace(s.message) {
      var t := Submit(s);
      TrimIdempotent(s.message);
      assert t.messages == s.messages + [t.messages[|s.messages|]];
      AppendValid(s, t.messages[|s.messages|], t, CareerResponses);
    }
  }

  /** Every step keeps the state valid and only ever appends to the transcript. */
  lemma StepValid(s: State, e: Event)
    requires Valid(s) && ValidEvent(e)
    ensures Valid(Step(s, e))
    ensures s.messages <= Step(s, e).messages
  {
    match e
    case Edit(_) =>
    case Key(key, shift) =>
      if CanType(s) && key == "Enter" && !shift {
        SubmitValid(s);
      }
    case Click =>
      if CanSend(s) {
        SubmitValid(s);
      }
    case Reply(r) =>
      if s.isTyping {
        var t := Settle(s, r);
        assert t.messages == s.messages + [t.messages[|s.messages|]];
        AppendValid(s, t.messages[|s.messages|], t, CareerResponses);
      }
  }

  lemma {:induction false} RunValid(s: State, events: seq<Event>)
    requires Valid(s)
    requires forall i :: 0 <= i < |events| ==> ValidEvent(events[i])
    ensures Valid(Run(s, events))
    ensures s.messages <= Run(s, events).messages
    decreases |events|
  {
    if events != [] {
      StepValid(s, events[0]);
      RunValid(Step(s, events[0]), events[1..]);
    }
  }

  /** Over any run from a valid state (the empty chat is one), every user
      message but the one being answered has received exactly one canned reply. */
  lemma OneReplyPerMessage(s: State, events: seq<Event>)
    requires Valid(s)
    requires forall i :: 0 <= i < |events| ==> ValidEvent(events[i])
    ensures Count(Roles(Run(s, events).messages), User)
      == Count(Roles(Run(s, events).messages), Assistant) + (if Run(s, events).isTyping then 1 else 0)
  {
    RunValid(s, events);
    ValidCounts(Run(s, events), CareerResponses);
  }

  /** The empty chat is valid. */
  lemma InitialValid()
    ensures Valid(Initial)
  {
  }

  lemma ValidCounts(s: State, replies: seq<string>)
    requires ValidWith(s, replies)
    ensures Count(Roles(s.messages), User) == Count(Roles(s.messages), Assistant) + (if s.isTyping then 1 else 0)
  {
    AlternatesCounts(Roles(s.messages));
  }
}
