/** The chat widget's turn protocol (components/AIChatDemo.tsx) as values:
    the widget state, one function per state change, the events that drive
    them, and the invariants every run from the initial state keeps. The
    class AIChatDemo in module ChatWidget is the stateful form, specified by
    these functions. */
module ChatProtocol {
  import JsString
  import GeminiService

  datatype Role = User | Model

  /** One turn of the transcript (the `ChatMessage` record; its optional
      `isThinking` flag is never set and is not modelled). */
  datatype ChatMessage = ChatMessage(role: Role, text: string)

  const GREETING := "您好，我是 Nexus 业务专家 (Expert) 智能体。我可以为您解析全球宏观趋势，或协助您筛选适合家办客户的 Alpha 策略。请问有什么可以帮您？"

  /** The transcript's first entry: a greeting from the model. */
  const SEED := ChatMessage(Model, GREETING)

  /** The widget's state: the transcript, the draft in the text box, the
      loading flag, and the prompts of the `handleSend` activations that are
      suspended at their `await`, oldest first. */
  datatype Widget = Widget(messages: seq<ChatMessage>, input: string, isLoading: bool, inFlight: seq<string>)

  /** The state when the widget is mounted. */
  const Initial := Widget([SEED], "", false, [])

  /** The early return of handleSend: a draft that trims to nothing, or a
      request already in flight. */
  predicate SubmitBlocked(w: Widget) {
    JsString.Trim(w.input) == [] || w.isLoading
  }

  /** The send button is enabled when it is not `disabled`. */
  predicate SendEnabled(w: Widget) {
    !(w.isLoading || JsString.Trim(w.input) == [])
  }

  /** handleSend up to its `await`: record the raw draft as a user turn,
      clear the draft, mark the widget loading and start one request. */
  function Submit(w: Widget): Widget {
    if SubmitBlocked(w) then w
    else Widget(w.messages + [ChatMessage(User, w.input)], "", true, w.inFlight + [w.input])
  }

  /** handleSend after its `await`: the oldest suspended activation resumes
      with its reply, appends it as a model turn and clears the loading flag. */
  function Settle(w: Widget, reply: string): Widget
    requires w.inFlight != []
  {
    Widget(w.messages + [ChatMessage(Model, reply)], w.input, false, w.inFlight[1..])
  }

  /** The text box's change handler replaces the draft. */
  function Edit(w: Widget, text: string): Widget {
    w.(input := text)
  }

  /** handleKeyPress: Enter runs handleSend; any other key leaves the widget
      as it is. */
  function KeyDown(w: Widget, key: string): Widget {
    if key == "Enter" then Submit(w) else w
  }

  /** What can happen to the widget: the user types, clicks send or presses a
      key, or the completion client settles the oldest request. A settlement
      carries the environment and the SDK outcome the client meets. */
  datatype Event =
    | Type(text: string)
    | Click
    | Key(key: string)
    | Resolve(env: GeminiService.Env, outcome: GeminiService.CallOutcome)

  /** One event. A settlement with no request in flight has no activation to
      resume and leaves the widget unchanged. */
  function Step(w: Widget, e: Event): Widget {
    match e
    case Type(text) => Edit(w, text)
    case Click => Submit(w)
    case Key(key) => KeyDown(w, key)
    case Resolve(env, outcome) =>
      if w.inFlight == [] then w
      else Settle(w, GeminiService.GenerateExpertResponse(env, outcome, w.inFlight[0]).text)
  }

  /** A sequence of events, first to last. */
  function Run(w: Widget, es: seq<Event>): Widget
    decreases |es|
  {
    if es == [] then w else Run(Step(w, es[0]), es[1..])
  }

  /** The role the turn at position `i` must have: the model speaks first. */
  function RoleAt(i: nat): Role {
    if i % 2 == 0 then Model else User
  }

  /** The transcript's turns are well formed: model and user turns alternate,
      starting with the model, and no turn has empty text. */
  predicate WellFormedTurns(ms: seq<ChatMessage>) {
    forall i | 0 <= i < |ms| :: ms[i].role == RoleAt(i) && ms[i].text != []
  }

  /** The turn invariant: the seed greeting first, then model and user turns
      alternating, every text non-empty; loading exactly when the transcript
      ends with a user turn, and then exactly one request in flight, for that
      turn's text. */
  predicate Turns(w: Widget) {
    |w.messages| >= 1 && w.messages[0] == SEED &&
    WellFormedTurns(w.messages) &&
    (w.isLoading <==> |w.messages| % 2 == 0) &&
    w.inFlight == if w.isLoading then [w.messages[|w.messages| - 1].text] else []
  }

  /** Appending a turn of the right role with non-empty text keeps the
      transcript's turns well formed. */
  lemma WellFormedTurnsAppend(ms: seq<ChatMessage>, m: ChatMessage)
    requires WellFormedTurns(ms)
    requires m.role == RoleAt(|ms|) && m.text != []
    ensures WellFormedTurns(ms + [m])
  {
    forall i | 0 <= i < |ms| + 1
      ensures (ms + [m])[i].role == RoleAt(i) && (ms + [m])[i].text != []
    {
      if i < |ms| {
        assert (ms + [m])[i] == ms[i];
      }
    }
  }

  /** `before` is a prefix of `after`: nothing was changed or removed. */
  predicate Extends(before: seq<ChatMessage>, after: seq<ChatMessage>) {
    |before| <= |after| && after[..|before|] == before
  }

  /** Whether an event adds a turn. */
  predicate Appends(w: Widget, e: Event) {
    match e
    case Type(_) => false
    case Click => !SubmitBlocked(w)
    case Key(key) => key == "Enter" && !SubmitBlocked(w)
    case Resolve(_, _) => w.inFlight != []
  }

  /** The mounted widget shows one model greeting, an empty draft, and is idle. */
  lemma InitialState()
    ensures Initial.messages == [ChatMessage(Model, GREETING)]
    ensures Initial.input == [] && !Initial.isLoading && Initial.inFlight == []
    ensures Turns(Initial)
  {
  }

  /** Submit changes nothing at all exactly when the draft is blank or a
      request is in flight. */
  lemma SubmitGuard(w: Widget)
    ensures Submit(w) == w <==> JsString.IsBlank(w.input) || w.isLoading
  {
    JsString.TrimEmptyIffBlank(w.input);
  }

  /** An accepted Submit appends one user turn holding the untrimmed draft,
      clears the draft, sets the loading flag and starts one request whose
      prompt is that draft. */
  lemma SubmitAccepted(w: Widget)
    requires !JsString.IsBlank(w.input) && !w.isLoading
    ensures var w' := Submit(w);
      w'.messages == w.messages + [ChatMessage(User, w.input)] &&
      w'.input == [] && w'.isLoading && w'.inFlight == w.inFlight + [w.input]
  {
    JsString.TrimEmptyIffBlank(w.input);
  }

  /** The send button is enabled exactly when sending would not be a no-op. */
  lemma ButtonMirrorsGuard(w: Widget)
    ensures SendEnabled(w) <==> Submit(w) != w
    ensures SendEnabled(w) <==> !JsString.IsBlank(w.input) && !w.isLoading
  {
    JsString.TrimEmptyIffBlank(w.input);
    if SendEnabled(w) {
      assert |Submit(w).messages| == |w.messages| + 1;
    }
  }

  /** Enter takes the same guarded path as the button; other keys do nothing. */
  lemma EnterIsSubmit(w: Widget, key: string)
    ensures KeyDown(w, key) == if key == "Enter" then Submit(w) else w
    ensures Step(w, Key("Enter")) == Step(w, Click)
  {
  }

  /** Settling appends exactly one model turn with the reply and clears the
      loading flag. */
  lemma SettleAppendsReply(w: Widget, reply: string)
    requires w.inFlight != []
    ensures Extends(w.messages, Settle(w, reply).messages)
    ensures Settle(w, reply).messages[|w.messages|] == ChatMessage(Model, reply)
    ensures |Settle(w, reply).messages| == |w.messages| + 1
    ensures !Settle(w, reply).isLoading
  {
  }

  /** One event never edits or removes a turn, and adds one turn exactly
      when it is an accepted send or a settlement. */
  lemma StepExtends(w: Widget, e: Event)
    ensures Extends(w.messages, Step(w, e).messages)
    ensures |Step(w, e).messages| == |w.messages| + if Appends(w, e) then 1 else 0
  {
  }

  /** Any run keeps every earlier turn in place and adds at most one turn
      per event. */
  lemma {:induction false} RunExtends(w: Widget, es: seq<Event>)
    ensures Extends(w.messages, Run(w, es).messages)
    ensures |Run(w, es).messages| <= |w.messages| + |es|
    decreases |es|
  {
    if es != [] {
      var w1 := Step(w, es[0]);
      StepExtends(w, es[0]);
      RunExtends(w1, es[1..]);
      var m, m1, m2 := w.messages, w1.messages, Run(w1, es[1..]).messages;
      assert m2[..|m|] == m2[..|m1|][..|m|];
    }
  }

  /** Submit keeps the turn invariant: it adds a user turn only after a model
      turn, and its text is non-empty because the draft was not blank. */
  lemma SubmitKeepsTurns(w: Widget)
    requires Turns(w)
    ensures Turns(Submit(w))
  {
    if !SubmitBlocked(w) {
      JsString.TrimEmptyIffBlank(w.input);
      assert w.input != [] by {
        assert !JsString.IsBlank(w.input);
      }
      WellFormedTurnsAppend(w.messages, ChatMessage(User, w.input));
    }
  }

  /** A settlement keeps the turn invariant: the reply follows the pending
      user turn and the client never replies with empty text. */
  lemma SettleKeepsTurns(w: Widget, env: GeminiService.Env, outcome: GeminiService.CallOutcome)
    requires Turns(w)
    ensures Turns(Step(w, Resolve(env, outcome)))
  {
    if w.inFlight != [] {
      var reply := GeminiService.GenerateExpertResponse(env, outcome, w.inFlight[0]).text;
      WellFormedTurnsAppend(w.messages, ChatMessage(Model, reply));
    }
  }

  /** Every event keeps the turn invariant. */
  lemma StepKeepsTurns(w: Widget, e: Event)
    requires Turns(w)
    ensures Turns(Step(w, e))
  {
    match e
    case Type(_) =>
    case Click => SubmitKeepsTurns(w);
    case Key(_) => SubmitKeepsTurns(w);
    case Resolve(env, outcome) => SettleKeepsTurns(w, env, outcome);
  }

  /** Every run keeps the turn invariant. */
  lemma {:induction false} RunKeepsTurns(w: Widget, es: seq<Event>)
    requires Turns(w)
    ensures Turns(Run(w, es))
    decreases |es|
  {
    if es != [] {
      StepKeepsTurns(w, es[0]);
      RunKeepsTurns(Step(w, es[0]), es[1..]);
    }
  }

  /** In every state reachable from the mounted widget: at most one request
      is in flight; when idle the transcript has odd length and ends with a
      model turn; when loading it has even length and ends with a user turn. */
  lemma ReachableShape(es: seq<Event>)
    ensures var w := Run(Initial, es);
      |w.inFlight| <= 1 && |w.messages| >= 1 &&
      (!w.isLoading ==> |w.messages| % 2 == 1 && w.messages[|w.messages| - 1].role == Model) &&
      (w.isLoading ==> |w.messages| % 2 == 0 && w.messages[|w.messages| - 1].role == User)
  {
    RunKeepsTurns(Initial, es);
  }

  /** Replies come in submission order: while loading, a settlement appends
      the client's reply to exactly the last user turn's text. */
  lemma ReplyAnswersLastTurn(w: Widget, env: GeminiService.Env, outcome: GeminiService.CallOutcome)
    requires Turns(w) && w.isLoading
    ensures Step(w, Resolve(env, outcome)).messages ==
      w.messages + [ChatMessage(Model, GeminiService.GenerateExpertResponse(env, outcome, w.messages[|w.messages| - 1].text).text)]
  {
  }

  /** From the mounted widget, typing a non-blank text and sending it gives a
      loading widget whose last turn is that text from the user; settling
      gives an idle widget of three turns whose last is the client's reply. */
  lemma FirstExchange(text: string, env: GeminiService.Env, outcome: GeminiService.CallOutcome)
    requires !JsString.IsBlank(text)
    ensures var w := Step(Step(Initial, Type(text)), Click);
      w.isLoading && w.messages == [SEED, ChatMessage(User, text)] &&
      var w' := Step(w, Resolve(env, outcome));
      !w'.isLoading &&
      w'.messages == [SEED, ChatMessage(User, text), ChatMessage(Model, GeminiService.GenerateExpertResponse(env, outcome, text).text)]
  {
    var w1 := Edit(Initial, text);
    assert Step(Initial, Type(text)) == w1;
    SubmitAccepted(w1);
    var w2 := Widget([SEED, ChatMessage(User, text)], "", true, [text]);
    assert Step(w1, Click) == Submit(w1) == w2;
    var reply := GeminiService.GenerateExpertResponse(env, outcome, text).text;
    assert Step(w2, Resolve(env, outcome)) == Settle(w2, reply);
  }

  /** A second send before the first request settles is rejected: only the
      first text is in the transcript and in flight, and the settlement then
      answers that first text. */
  lemma OverlappingSendRejected(a: string, b: string, env: GeminiService.Env, outcome: GeminiService.CallOutcome)
    requires !JsString.IsBlank(a)
    ensures var w := Step(Step(Step(Step(Initial, Type(a)), Click), Type(b)), Click);
      w.messages == [SEED, ChatMessage(User, a)] && w.inFlight == [a] &&
      Step(w, Resolve(env, outcome)).messages ==
        [SEED, ChatMessage(User, a), ChatMessage(Model, GeminiService.GenerateExpertResponse(env, outcome, a).text)]
  {
    var w1 := Edit(Initial, a);
    assert Step(Initial, Type(a)) == w1;
    SubmitAccepted(w1);
    var w2 := Widget([SEED, ChatMessage(User, a)], "", true, [a]);
    assert Step(w1, Click) == Submit(w1) == w2;
    var w3 := Edit(w2, b);
    assert Step(w2, Type(b)) == w3;
    assert Step(w3, Click) == Submit(w3) == w3;
    var reply := GeminiService.GenerateExpertResponse(env, outcome, a).text;
    assert Step(w3, Resolve(env, outcome)) == Settle(w3, reply);
  }
}
