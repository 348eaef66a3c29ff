/**
 * The symptom-checker chat page: a message list and an input box. Sending
 * appends the user's message at once and schedules a canned reply; the reply
 * is a separate step here, and the random choice of its text is an argument.
 */
module SymptomChecker {
  import opened Text

  /** A chat message; the wall-clock timestamp is not modelled. */
  datatype Message = Message(id: int, text: string, isUser: bool)

  const Greeting: string :=
    "Hello! I'm your AI health assistant. Please describe your symptoms, and I'll help assess your condition. Remember, this is not a substitute for professional medical advice."

  /** The four canned replies. */
  const Responses: seq<string> := [
    "I understand you're experiencing these symptoms. Can you tell me when they started and how severe they are on a scale of 1-10?",
    "Thank you for that information. Are you experiencing any additional symptoms like fever, chills, or changes in appetite?",
    "Based on your symptoms, I recommend scheduling a consultation with one of our doctors. Would you like me to help you book an appointment?",
    "Your symptoms warrant medical attention. I'm connecting you with our triage system to prioritize your care needs."
  ]

  /** The texts of the quick-symptom buttons. */
  const QuickSymptoms: seq<string> :=
    ["Fever", "Headache", "Cough", "Cold", "Nausea", "Chest Pain", "Joint Pain", "Fatigue"]

  /** The index that the random draw picks among the replies. */
  type Pick = k: nat | k < 4

  /**
   * A scheduled reply: the length of the message list the sending handler saw,
   * and the text it sent (passed to the reply generator, which ignores it).
   */
  datatype PendingReply = PendingReply(snapshot: nat, symptom: string)

  /** The page state; `pending` holds the scheduled replies, earliest first. */
  datatype Chat = Chat(messages: seq<Message>, input: string, pending: seq<PendingReply>)

  /** The page as mounted: one assistant greeting with id 1 and an empty input. */
  function Initial(): (c: Chat)
    ensures |c.messages| == 1 && c.messages[0].id == 1 && !c.messages[0].isUser
    ensures c.input == "" && c.pending == []
  {
    Chat([Message(1, Greeting, false)], "", [])
  }

  /** `generateAIResponse`: one of the four replies, whatever the symptom. */
  function GenerateResponse(symptom: string, pick: Pick): (r: string)
    ensures r in Responses
  {
    Responses[pick]
  }

  /** The reply's text is the same whatever symptom was sent. */
  lemma ResponseIgnoresSymptom(a: string, b: string, pick: Pick)
    ensures GenerateResponse(a, pick) == GenerateResponse(b, pick)
  {
  }

  /**
   * The send step of `handleSendMessage`. A blank input changes nothing;
   * otherwise the input is appended as a user message whose id is one more
   * than the list's length, the input is cleared and a reply is scheduled
   * with the length seen now.
   */
  function AfterSend(c: Chat): (r: Chat)
    ensures IsBlank(c.input) ==> r == c
    ensures !IsBlank(c.input) ==>
      && |r.messages| == |c.messages| + 1
      && r.messages[..|c.messages|] == c.messages
      && r.messages[|c.messages|] == Message(|c.messages| + 1, c.input, true)
      && r.input == ""
      && r.pending == c.pending + [PendingReply(|c.messages|, c.input)]
  {
    if IsBlank(c.input) then c
    else
      var n := |c.messages|;
      Chat(c.messages + [Message(n + 1, c.input, true)], "", c.pending + [PendingReply(n, c.input)])
  }

  /**
   * The delayed reply step: the earliest scheduled reply fires and appends an
   * assistant message whose id is the length seen at send time plus two.
   */
  function AfterReply(c: Chat, pick: Pick): (r: Chat)
    requires c.pending != []
    ensures |r.messages| == |c.messages| + 1
    ensures r.messages[..|c.messages|] == c.messages
    ensures var m := r.messages[|c.messages|];
      m.id == c.pending[0].snapshot + 2 && !m.isUser && m.text in Responses
    ensures r.input == c.input && r.pending == c.pending[1..]
  {
    var p := c.pending[0];
    Chat(c.messages + [Message(p.snapshot + 2, GenerateResponse(p.symptom, pick), false)], c.input, c.pending[1..])
  }

  /**
   * `setInputMessage`, called by `handleSymptomClick` with the symptom's text
   * and by the input box with what was typed: the input is replaced, nothing else changes.
   */
  function SetInput(c: Chat, text: string): (r: Chat)
    ensures r.input == text && r.messages == c.messages && r.pending == c.pending
  {
    c.(input := text)
  }

  /** The quick-symptom panel is shown while the list holds only the greeting. */
  predicate QuickSymptomsVisible(c: Chat) {
    |c.messages| == 1
  }

  /** No quick-symptom text is blank. */
  lemma QuickSymptomsNotBlank(k: nat)
    requires k < |QuickSymptoms|
    ensures !IsBlank(QuickSymptoms[k])
  {
    var s := QuickSymptoms[k];
    BlankIffAllWhitespace(s);
    assert 'A' <= s[0] <= 'Z';
  }

  /** Clicking a quick symptom and sending always appends that symptom as a user message. */
  lemma ClickThenSendAppends(c: Chat, k: nat)
    requires k < |QuickSymptoms|
    ensures var r := AfterSend(SetInput(c, QuickSymptoms[k]));
      |r.messages| == |c.messages| + 1 && r.messages[|c.messages|] == Message(|c.messages| + 1, QuickSymptoms[k], true)
  {
    QuickSymptomsNotBlank(k);
  }

  // ---------------------------------------------------------------- traces

  datatype Event = Send | Reply(pick: Pick) | Click(symptom: string) | Typing(text: string)

  /** One event; a reply with no timer scheduled does not happen, so it changes nothing. */
  function Step(c: Chat, e: Event): Chat {
    match e
    case Send => AfterSend(c)
    case Reply(pick) => if c.pending == [] then c else AfterReply(c, pick)
    case Click(s) => SetInput(c, s)
    case Typing(t) => SetInput(c, t)
  }

  function Run(c: Chat, es: seq<Event>): Chat
    decreases |es|
  {
    if es == [] then c else Run(Step(c, es[0]), es[1..])
  }

  /** Event results are appended: the earlier messages stay an unchanged prefix. */
  lemma {:induction false} RunExtendsMessages(c: Chat, es: seq<Event>)
    ensures |c.messages| <= |Run(c, es).messages|
    ensures Run(c, es).messages[..|c.messages|] == c.messages
    decreases |es|
  {
    if es != [] {
      var c' := Step(c, es[0]);
      assert |c.messages| <= |c'.messages| && c'.messages[..|c.messages|] == c.messages;
      RunExtendsMessages(c', es[1..]);
      var r := Run(c', es[1..]);
      assert r.messages[..|c.messages|] == r.messages[..|c'.messages|][..|c.messages|];
    }
  }

  /** Once anything has been added to the greeting, the quick-symptom panel never returns. */
  lemma QuickSymptomsStayHidden(c: Chat, es: seq<Event>)
    requires |c.messages| >= 2
    ensures !QuickSymptomsVisible(Run(c, es))
  {
    RunExtendsMessages(c, es);
  }

  /** Message `i` has id `i + 1`. */
  ghost predicate IdsSequential(ms: seq<Message>) {
    forall i :: 0 <= i < |ms| ==> ms[i].id == i + 1
  }

  ghost predicate IdsUnique(ms: seq<Message>) {
    forall i, j :: 0 <= i < j < |ms| ==> ms[i].id != ms[j].id
  }

  /**
   * The invariant of a chat in which replies keep pace: ids run 1..n and at
   * most one reply is scheduled, taken just before the last message was sent.
   */
  ghost predicate Paced(c: Chat) {
    && IdsSequential(c.messages)
    && (c.pending == [] || (|c.pending| == 1 && c.pending[0].snapshot + 1 == |c.messages|))
  }

  /** No message is sent while a reply is still scheduled. */
  ghost predicate KeepsPace(c: Chat, es: seq<Event>)
    decreases |es|
  {
    es == [] ||
    ((es[0] == Send && !IsBlank(c.input) ==> c.pending == []) && KeepsPace(Step(c, es[0]), es[1..]))
  }

  lemma StepKeepsPaced(c: Chat, e: Event)
    requires Paced(c)
    requires e == Send && !IsBlank(c.input) ==> c.pending == []
    ensures Paced(Step(c, e))
  {
  }

  /** A send followed by its reply turns ids 1..n into ids 1..n+2. */
  lemma SendThenReply(c: Chat, pick: Pick)
    requires IdsSequential(c.messages) && c.pending == [] && !IsBlank(c.input)
    ensures var r := AfterReply(AfterSend(c), pick);
      && |r.messages| == |c.messages| + 2
      && IdsSequential(r.messages) && r.pending == []
      && r.messages[|c.messages|].isUser && !r.messages[|c.messages| + 1].isUser
  {
  }

  /** When every reply arrives before the next send, ids stay 1..n and hence unique. */
  lemma {:induction false} PacedRunKeepsIdsUnique(c: Chat, es: seq<Event>)
    requires Paced(c) && KeepsPace(c, es)
    ensures Paced(Run(c, es))
    ensures IdsUnique(Run(c, es).messages)
    decreases |es|
  {
    if es != [] {
      StepKeepsPaced(c, es[0]);
      PacedRunKeepsIdsUnique(Step(c, es[0]), es[1..]);
    }
  }

  /** From the initial page, every paced sequence of events keeps ids unique. */
  lemma PacedFromInitial(es: seq<Event>)
    requires KeepsPace(Initial(), es)
    ensures IdsUnique(Run(Initial(), es).messages)
  {
    PacedRunKeepsIdsUnique(Initial(), es);
  }

  /**
   * Two sends before the first reply: that reply takes the snapshot of the
   * first send, so its id repeats the id of the second user message.
   */
  lemma TwoSendsBeforeReplyDuplicateId(c: Chat, first: string, second: string, pick: Pick)
    requires c.pending == [] && !IsBlank(first) && !IsBlank(second)
    ensures var r := AfterReply(AfterSend(SetInput(AfterSend(SetInput(c, first)), second)), pick);
      var n := |c.messages|;
      |r.messages| == n + 3 && r.messages[n + 1].id == n + 2 == r.messages[n + 2].id
      && !IdsUnique(r.messages)
  {
  }

  /** From the initial page, two messages sent before the first reply give ids 1, 2, 3, 3. */
  lemma TwoQuickSendsFromInitial(first: string, second: string, pick: Pick)
    requires !IsBlank(first) && !IsBlank(second)
    ensures var r := AfterReply(AfterSend(SetInput(AfterSend(SetInput(Initial(), first)), second)), pick);
      |r.messages| == 4 && r.messages[2].id == 3 && r.messages[3].id == 3 && !IdsUnique(r.messages)
  {
    TwoSendsBeforeReplyDuplicateId(Initial(), first, second, pick);
  }

  // ---------------------------------------------------------------- the page

  /** The page component, its two state hooks and the queue of scheduled replies. */
  class Page {
    var messages: seq<Message>
    var input: string
    var pending: seq<PendingReply>

    function State(): Chat
      reads this
    {
      Chat(messages, input, pending)
    }

    constructor ()
      ensures State() == Initial()
    {
      messages := [Message(1, Greeting, false)];
      input := "";
      pending := [];
    }

    /** `handleSendMessage`, up to scheduling the reply. */
    method Send()
      modifies this
      ensures State() == AfterSend(old(State()))
    {
      if !IsBlank(input) {
        var n, text := |messages|, input;
        messages := messages + [Message(n + 1, text, true)];
        pending := pending + [PendingReply(n, text)];
        input := "";
        assert State() == Chat(old(messages) + [Message(n + 1, text, true)], "", old(pending) + [PendingReply(n, text)]);
      }
    }

    /** The scheduled timer firing: the earliest pending reply is appended. */
    method Reply(pick: Pick)
      requires pending != []
      modifies this
      ensures State() == AfterReply(old(State()), pick)
    {
      var p := pending[0];
      messages := messages + [Message(p.snapshot + 2, GenerateResponse(p.symptom, pick), false)];
      pending := pending[1..];
    }

    /** `handleSymptomClick` */
    method ClickSymptom(symptom: string)
      modifies this
      ensures State() == SetInput(old(State()), symptom)
    {
      input := symptom;
    }

    /** The input box's change handler. */
    method TypeInput(text: string)
      modifies this
      ensures State() == SetInput(old(State()), text)
    {
      input := text;
    }

    /** `messages.length === 1` */
    method ShowsQuickSymptoms() returns (visible: bool)
      ensures visible == QuickSymptomsVisible(State())
    {
      visible := |messages| == 1;
    }
  }
}
