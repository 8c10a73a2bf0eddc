/**
 * The ОКО conversation (specializations/oko.py): the handlers that take a user
 * from choosing the specialization, through name, position and department, to
 * a difficulty level and the first question, and the finish-screen handlers
 * (answer report, repeat, main menu).
 *
 * The per-conversation context of the bot framework is a class holding the
 * finite-state-machine state and the key/value data map; the handlers are
 * methods that change it in place. `Route` says which handler an event reaches
 * and `Step` is the pure specification of one event, which `Dispatch` is proved
 * to implement. The lemmas about `Step` state the properties of the flow.
 */
module Oko {
  import opened Wrappers
  import opened Strings
  import opened Keyboards

  // ---------------------------------------------------------------------------
  // Data

  /** The states this router uses; `Idle` is the cleared (no) state. */
  datatype FsmState =
    | Idle
    | WaitingFullName
    | WaitingPosition
    | WaitingDepartment
    | WaitingDifficulty
    | AnsweringQuestion

  /** A loaded question: its options and the set of correct 1-based option numbers. */
  datatype Question = Question(options: seq<string>, correct: set<nat>)

  /** A difficulty level, named by the value its `diff_` token carries. */
  datatype Difficulty = Difficulty(value: string)

  /**
   * The test state stored under `test_state`: the questions, the specialization,
   * the level, the user's metadata and the answers given so far (question index
   * to the set of chosen option numbers).
   */
  datatype TestState = TestState(
    questions: seq<Question>,
    specialization: string,
    difficulty: Difficulty,
    fullName: string,
    position: string,
    department: string,
    answers: map<nat, set<nat>>)

  /** A value in the conversation's data map. */
  datatype Value = Text(text: string) | Test(test: TestState)

  /** A snapshot of a conversation: its state and its data map. */
  datatype Conv = Conv(state: FsmState, data: map<string, Value>)

  /** An inbound event: a button press with its callback token, or a message (`None`: no text). */
  datatype Event = Callback(token: string) | Message(text: Option<string>)

  /** The handlers of this router, and `Unrouted` for events none of them takes. */
  datatype Handler =
    | OnSpecOko | OnName | OnPosition | OnDepartment | OnDifficulty
    | OnAnswer | OnNext
    | OnShowAnswers | OnCertificate | OnRepeat | OnStats | OnMainMenu | OnHelp
    | Unrouted

  /** One row of the answer report. */
  datatype ReportRow = ReportRow(number: nat, isCorrect: bool, correctNums: string)

  /** What a handler shows the user. */
  datatype Reply =
    | AskFullName
    | AskPosition
    | AskDepartment
    | ChooseDifficulty(keyboard: Markup)
    | BadDifficulty
    | LoadFailed
    | ShowQuestion(index: nat)
    | Delegated(handler: Handler)
    | AnswersReport(rows: seq<ReportRow>)
    | TestDataMissing
    | CertificatePending
    | StatsPending
    | MainMenu(keyboard: Markup)
    | Help(keyboard: Markup)
    | Failed
    | NotHandled

  /** What one event leaves behind: the new conversation and the reply. */
  datatype Outcome = Outcome(conv: Conv, reply: Reply)

  /** What the question loader returns for a specialization and a level (possibly nothing). */
  type Loader = (string, Difficulty) -> seq<Question>

  /**
   * What the answer-toggle, next-question and finish handlers of the shared
   * library make of the conversation for a press during a test.
   */
  type Delegate = (Conv, Event) -> Conv

  const SpecializationKey: string := "specialization"
  const FullNameKey: string := "full_name"
  const PositionKey: string := "position"
  const DepartmentKey: string := "department"
  const TestStateKey: string := "test_state"

  const DifficultyPrefix: string := "diff_"
  const AnswerPrefix: string := "ans_"

  // ---------------------------------------------------------------------------
  // The conversation context

  /** The per-conversation context: FSM state and data map, changed in place. */
  class FsmContext {
    var state: FsmState
    var data: map<string, Value>

    constructor ()
      ensures state == Idle && data == map[]
    {
      state := Idle;
      data := map[];
    }

    function Snapshot(): Conv
      reads this
    {
      Conv(state, data)
    }

    method SetState(s: FsmState)
      modifies this
      ensures state == s && data == old(data)
    {
      state := s;
    }

    /** `update_data(key=v)`: sets one key, keeps the others. */
    method UpdateData(key: string, v: Value)
      modifies this
      ensures data == old(data)[key := v] && state == old(state)
    {
      data := data[key := v];
    }

    /** `set_data(data)`: replaces the whole data map, keeps the state. */
    method SetData(data': map<string, Value>)
      modifies this
      ensures data == data' && state == old(state)
    {
      data := data';
    }

    /** `clear()`: drops the state and all data. */
    method Clear()
      modifies this
      ensures state == Idle && data == map[]
    {
      state := Idle;
      data := map[];
    }
  }

  // ---------------------------------------------------------------------------
  // Routing

  /** Which handler of this router takes `ev` in state `s` (the decorators' filters, in registration order). */
  function Route(s: FsmState, ev: Event): (h: Handler)
    ensures h == OnSpecOko <==> ev == Callback("spec_oko")
    ensures h == OnDifficulty <==> ev.Callback? && StartsWith(ev.token, DifficultyPrefix) && s == WaitingDifficulty
    ensures h == OnAnswer <==> ev.Callback? && StartsWith(ev.token, AnswerPrefix) && s == AnsweringQuestion
    ensures h == OnNext <==> ev == Callback("next") && s == AnsweringQuestion
    ensures h == OnName <==> ev.Message? && s == WaitingFullName
    ensures h == OnPosition <==> ev.Message? && s == WaitingPosition
    ensures h == OnDepartment <==> ev.Message? && s == WaitingDepartment
  {
    match ev
    case Callback(t) =>
      Unprefixed("spec_oko");
      Unprefixed("next");
      if t == "spec_oko" then OnSpecOko
      else if StartsWith(t, DifficultyPrefix) && s == WaitingDifficulty then OnDifficulty
      else if StartsWith(t, AnswerPrefix) && s == AnsweringQuestion then OnAnswer
      else if t == "next" && s == AnsweringQuestion then OnNext
      else MenuHandler(t)
    case Message(_) =>
      if s == WaitingFullName then OnName
      else if s == WaitingPosition then OnPosition
      else if s == WaitingDepartment then OnDepartment
      else Unrouted
  }

  /** A token whose first character is neither `d` nor `a` carries neither the `diff_` nor the `ans_` prefix. */
  lemma Unprefixed(t: string)
    requires t != [] && t[0] != 'd' && t[0] != 'a'
    ensures !StartsWith(t, DifficultyPrefix) && !StartsWith(t, AnswerPrefix)
  {
  }

  /** The handler of a token this router takes in any state (a finish-screen or help button); `Unrouted` for any other. */
  function MenuHandler(t: string): Handler {
    if t == "show_answers" then OnShowAnswers
    else if t == "generate_cert" then OnCertificate
    else if t == "repeat_test" then OnRepeat
    else if t == "my_stats" then OnStats
    else if t == "main_menu" then OnMainMenu
    else if t == "help" then OnHelp
    else Unrouted
  }

  /** A token that starts with neither `d` nor `a` and is not "spec_oko" or "next" is routed by `MenuHandler`, whatever the state. */
  lemma MenuRoute(s: FsmState, t: string)
    requires t != [] && t[0] != 'd' && t[0] != 'a' && t != "spec_oko" && t != "next"
    ensures Route(s, Callback(t)) == MenuHandler(t)
  {
    Unprefixed(t);
  }

  // ---------------------------------------------------------------------------
  // Helpers of the handlers

  /** `data.get(key, default)` for a text value. */
  function TextOr(data: map<string, Value>, key: string, default: string): string {
    if key in data && data[key].Text? then data[key].text else default
  }

  /** `callback.data.split("_", 1)[1]` for a `diff_` token: the level name. */
  function LevelName(token: string): (name: string)
    requires StartsWith(token, DifficultyPrefix)
    ensures name == token[|DifficultyPrefix|..]
  {
    assert token == "diff" + ['_'] + token[5..];
    AfterFirstOfPrefixed("diff", '_', token[5..]);
    AfterFirst(token, '_').value
  }

  /** The test state built from the stored data, with the defaults `"oko"` and `""` for missing keys. */
  function NewTest(data: map<string, Value>, d: Difficulty, questions: seq<Question>): TestState {
    TestState(questions, TextOr(data, SpecializationKey, "oko"), d,
              TextOr(data, FullNameKey, ""), TextOr(data, PositionKey, ""), TextOr(data, DepartmentKey, ""),
              map[])
  }

  /** The answer the user gave to question `k` (0-based), the empty set if none. */
  function UserAnswer(answers: map<nat, set<nat>>, k: nat): set<nat> {
    if k in answers then answers[k] else {}
  }

  function GradeRow(t: TestState, k: nat): ReportRow
    requires k < |t.questions|
  {
    ReportRow(k + 1, UserAnswer(t.answers, k) == t.questions[k].correct, JoinNums(Sorted(t.questions[k].correct)))
  }

  /** The answer report: one graded row per question, in question order. */
  function Report(t: TestState): (rows: seq<ReportRow>)
    ensures |rows| == |t.questions|
  {
    seq(|t.questions|, k requires 0 <= k < |t.questions| => GradeRow(t, k))
  }

  /**
   * What "show answers" shows for the stored data: the report when a test state
   * is stored; the "not found" error when none is (or a falsy empty text is);
   * a failure for a non-empty text, which has no questions to read.
   */
  function AnswersReply(data: map<string, Value>): Reply {
    if TestStateKey !in data then TestDataMissing
    else match data[TestStateKey]
      case Test(t) => AnswersReport(Report(t))
      case Text(s) => if s == "" then TestDataMissing else Failed
  }

  // ---------------------------------------------------------------------------
  // The specification of one event

  /** The outcome of a message handler that stores the stripped text under `key` and moves to `next`. */
  function Collect(c: Conv, text: Option<string>, key: string, next: FsmState, reply: Reply): Outcome {
    match text
    case None => Outcome(c, Failed)
    case Some(s) => Outcome(Conv(next, c.data[key := Text(Strip(s))]), reply)
  }

  /** The outcome of `select_difficulty` for a `diff_` token. */
  function ChooseLevel(c: Conv, token: string, levels: set<string>, load: Loader): Outcome
    requires StartsWith(token, DifficultyPrefix)
  {
    var name := LevelName(token);
    if name !in levels then Outcome(c, BadDifficulty)
    else
      var d := Difficulty(name);
      var questions := load(TextOr(c.data, SpecializationKey, "oko"), d);
      if questions == [] then Outcome(Conv(Idle, map[]), LoadFailed)
      else Outcome(Conv(AnsweringQuestion, c.data[TestStateKey := Test(NewTest(c.data, d, questions))]), ShowQuestion(0))
  }

  /**
   * One event on conversation `c`. `levels` are the values the difficulty enum
   * accepts, `load` is the question loader and `delegate` is what the shared
   * library's handlers make of an answer or "next" press.
   */
  function Step(c: Conv, ev: Event, levels: set<string>, load: Loader, delegate: Delegate): Outcome {
    match Route(c.state, ev)
    case OnSpecOko => Outcome(Conv(WaitingFullName, c.data[SpecializationKey := Text("oko")]), AskFullName)
    case OnName => Collect(c, ev.text, FullNameKey, WaitingPosition, AskPosition)
    case OnPosition => Collect(c, ev.text, PositionKey, WaitingDepartment, AskDepartment)
    case OnDepartment => Collect(c, ev.text, DepartmentKey, WaitingDifficulty, ChooseDifficulty(DifficultyKeyboard()))
    case OnDifficulty => ChooseLevel(c, ev.token, levels, load)
    case OnAnswer => Outcome(delegate(c, ev), Delegated(OnAnswer))
    case OnNext => Outcome(delegate(c, ev), Delegated(OnNext))
    case OnShowAnswers => Outcome(c, AnswersReply(c.data))
    case OnCertificate => Outcome(c, CertificatePending)
    case OnRepeat => Outcome(Conv(WaitingFullName, map[SpecializationKey := Text("oko")]), AskFullName)
    case OnStats => Outcome(c, StatsPending)
    case OnMainMenu => Outcome(Conv(Idle, map[]), MainMenu(MainKeyboard()))
    case OnHelp => Outcome(c, Help(MainKeyboard()))
    case Unrouted => Outcome(c, NotHandled)
  }

  // ---------------------------------------------------------------------------
  // Handlers

  /** `select_oko`: ask for the full name and record the specialization. */
  method SelectOko(ctx: FsmContext) returns (reply: Reply)
    modifies ctx
    ensures ctx.state == WaitingFullName
    ensures ctx.data == old(ctx.data)[SpecializationKey := Text("oko")]
    ensures reply == AskFullName
  {
    reply := AskFullName;
    ctx.SetState(WaitingFullName);
    ctx.UpdateData(SpecializationKey, Text("oko"));
  }

  /** `process_name`: store the stripped name, ask for the position. */
  method ProcessName(ctx: FsmContext, text: Option<string>) returns (reply: Reply)
    modifies ctx
    ensures text.None? ==> ctx.Snapshot() == old(ctx.Snapshot()) && reply == Failed
    ensures text.Some? ==> ctx.state == WaitingPosition && reply == AskPosition
    ensures text.Some? ==> ctx.data == old(ctx.data)[FullNameKey := Text(Strip(text.value))]
  {
    if text.None? {
      return Failed;
    }
    ctx.UpdateData(FullNameKey, Text(Strip(text.value)));
    reply := AskPosition;
    ctx.SetState(WaitingPosition);
  }

  /** `process_position`: store the stripped position, ask for the department. */
  method ProcessPosition(ctx: FsmContext, text: Option<string>) returns (reply: Reply)
    modifies ctx
    ensures text.None? ==> ctx.Snapshot() == old(ctx.Snapshot()) && reply == Failed
    ensures text.Some? ==> ctx.state == WaitingDepartment && reply == AskDepartment
    ensures text.Some? ==> ctx.data == old(ctx.data)[PositionKey := Text(Strip(text.value))]
  {
    if text.None? {
      return Failed;
    }
    ctx.UpdateData(PositionKey, Text(Strip(text.value)));
    reply := AskDepartment;
    ctx.SetState(WaitingDepartment);
  }

  /** `process_department`: store the stripped department, offer the difficulty keyboard. */
  method ProcessDepartment(ctx: FsmContext, text: Option<string>) returns (reply: Reply)
    modifies ctx
    ensures text.None? ==> ctx.Snapshot() == old(ctx.Snapshot()) && reply == Failed
    ensures text.Some? ==> ctx.state == WaitingDifficulty && reply == ChooseDifficulty(DifficultyKeyboard())
    ensures text.Some? ==> ctx.data == old(ctx.data)[DepartmentKey := Text(Strip(text.value))]
  {
    if text.None? {
      return Failed;
    }
    ctx.UpdateData(DepartmentKey, Text(Strip(text.value)));
    var keyboard := BuildDifficultyKeyboard();
    reply := ChooseDifficulty(keyboard);
    ctx.SetState(WaitingDifficulty);
  }

  /**
   * `select_difficulty`: an unknown level is reported and changes nothing; an
   * empty question list clears the conversation; otherwise the test state is
   * stored, the test begins and question 0 is shown.
   */
  method SelectDifficulty(ctx: FsmContext, token: string, levels: set<string>, load: Loader)
    returns (reply: Reply)
    requires StartsWith(token, DifficultyPrefix)
    modifies ctx
    ensures var name := token[|DifficultyPrefix|..];
      var questions := load(TextOr(old(ctx.data), SpecializationKey, "oko"), Difficulty(name));
      && (name !in levels ==> ctx.Snapshot() == old(ctx.Snapshot()) && reply == BadDifficulty)
      && (name in levels && questions == [] ==> ctx.state == Idle && ctx.data == map[] && reply == LoadFailed)
      && (name in levels && questions != [] ==>
            && ctx.state == AnsweringQuestion
            && ctx.data == old(ctx.data)[TestStateKey := Test(NewTest(old(ctx.data), Difficulty(name), questions))]
            && reply == ShowQuestion(0))
  {
    var name := LevelName(token);
    if name !in levels {
      return BadDifficulty;
    }
    var difficulty := Difficulty(name);
    var userData := ctx.data;
    var specialization := TextOr(userData, SpecializationKey, "oko");
    var questions := load(specialization, difficulty);
    if questions == [] {
      ctx.Clear();
      return LoadFailed;
    }
    var testState := TestState(questions, specialization, difficulty,
                               TextOr(userData, FullNameKey, ""), TextOr(userData, PositionKey, ""),
                               TextOr(userData, DepartmentKey, ""), map[]);
    ctx.UpdateData(TestStateKey, Test(testState));
    ctx.SetState(AnsweringQuestion);
    reply := ShowQuestion(0);
  }

  /** `show_correct_answers`: one graded row per stored question; changes nothing. */
  method ShowCorrectAnswers(ctx: FsmContext) returns (reply: Reply)
    ensures reply == AnswersReply(ctx.data)
  {
    if TestStateKey !in ctx.data {
      return TestDataMissing;
    }
    match ctx.data[TestStateKey]
    case Text(s) =>
      reply := if s == "" then TestDataMissing else Failed;
    case Test(t) =>
      var rows := GradeAll(t);
      reply := AnswersReport(rows);
  }

  /** The loop of `show_correct_answers` that adds one graded row per question. */
  method GradeAll(t: TestState) returns (rows: seq<ReportRow>)
    ensures rows == Report(t)
  {
    rows := [];
    var i := 1;
    while i <= |t.questions|
      invariant 1 <= i <= |t.questions| + 1
      invariant |rows| == i - 1
      invariant forall k :: 0 <= k < i - 1 ==> rows[k] == GradeRow(t, k)
    {
      var userAnswer := if i - 1 in t.answers then t.answers[i - 1] else {};
      var correct := t.questions[i - 1].correct;
      var isCorrect := userAnswer == correct;
      var correctNums := JoinNums(Sorted(correct));
      rows := rows + [ReportRow(i, isCorrect, correctNums)];
      i := i + 1;
    }
  }

  /** `answer_toggle` and `next_question`: hand the press to the shared library's handler. */
  method RunDelegate(ctx: FsmContext, ev: Event, delegate: Delegate, h: Handler) returns (reply: Reply)
    modifies ctx
    ensures ctx.Snapshot() == delegate(old(ctx.Snapshot()), ev)
    ensures reply == Delegated(h)
  {
    var next := delegate(ctx.Snapshot(), ev);
    ctx.SetState(next.state);
    ctx.SetData(next.data);
    reply := Delegated(h);
  }

  /** `repeat_test`: clear everything, then start over as `select_oko`. */
  method RepeatTest(ctx: FsmContext) returns (reply: Reply)
    modifies ctx
    ensures ctx.state == WaitingFullName
    ensures ctx.data == map[SpecializationKey := Text("oko")]
    ensures reply == AskFullName
  {
    ctx.Clear();
    reply := SelectOko(ctx);
  }

  /** `back_to_main`: clear everything and show the main menu. */
  method BackToMain(ctx: FsmContext) returns (reply: Reply)
    modifies ctx
    ensures ctx.state == Idle && ctx.data == map[]
    ensures reply == MainMenu(MainKeyboard())
  {
    ctx.Clear();
    var keyboard := BuildMainKeyboard();
    reply := MainMenu(keyboard);
  }

  /** Hands an event to the handler `Route` picks; proved to do what `Step` says. */
  method Dispatch(ctx: FsmContext, ev: Event, levels: set<string>, load: Loader, delegate: Delegate)
    returns (reply: Reply)
    modifies ctx
    ensures Outcome(ctx.Snapshot(), reply) == Step(old(ctx.Snapshot()), ev, levels, load, delegate)
  {
    match Route(ctx.state, ev)
    case OnSpecOko => reply := SelectOko(ctx);
    case OnName => reply := ProcessName(ctx, ev.text);
    case OnPosition => reply := ProcessPosition(ctx, ev.text);
    case OnDepartment => reply := ProcessDepartment(ctx, ev.text);
    case OnDifficulty => reply := SelectDifficulty(ctx, ev.token, levels, load);
    case OnAnswer => reply := RunDelegate(ctx, ev, delegate, OnAnswer);
    case OnNext => reply := RunDelegate(ctx, ev, delegate, OnNext);
    case OnShowAnswers => reply := ShowCorrectAnswers(ctx);
    case OnCertificate => reply := CertificatePending;
    case OnRepeat => reply := RepeatTest(ctx);
    case OnStats => reply := StatsPending;
    case OnMainMenu => reply := BackToMain(ctx);
    case OnHelp =>
      var keyboard := BuildMainKeyboard();
      reply := Help(keyboard);
    case Unrouted => reply := NotHandled;
  }

  // ---------------------------------------------------------------------------
  // Properties of the flow

  predicate HasText(data: map<string, Value>, key: string) {
    key in data && data[key].Text?
  }

  /**
   * What the flow guarantees about a conversation in each state: every step
   * past the specialization has recorded the earlier answers, and a running
   * test has a stored, non-empty question list.
   */
  predicate Consistent(c: Conv) {
    && (c.state != Idle ==> HasText(c.data, SpecializationKey))
    && (c.state in {WaitingPosition, WaitingDepartment, WaitingDifficulty} ==> HasText(c.data, FullNameKey))
    && (c.state in {WaitingDepartment, WaitingDifficulty} ==> HasText(c.data, PositionKey))
    && (c.state == WaitingDifficulty ==> HasText(c.data, DepartmentKey))
    && (c.state == AnsweringQuestion ==>
          TestStateKey in c.data && c.data[TestStateKey].Test? && c.data[TestStateKey].test.questions != [])
  }

  /** The shared library's handlers keep a consistent running test consistent. */
  ghost predicate DelegateKeepsConsistent(delegate: Delegate) {
    forall c, ev :: Consistent(c) && c.state == AnsweringQuestion ==> Consistent(delegate(c, ev))
  }

  /**
   * Every event of this router keeps a consistent conversation consistent,
   * provided the delegated answer and "next" handlers do.
   */
  lemma StepKeepsConsistent(c: Conv, ev: Event, levels: set<string>, load: Loader, delegate: Delegate)
    requires Consistent(c)
    requires DelegateKeepsConsistent(delegate)
    ensures Consistent(Step(c, ev, levels, load, delegate).conv)
  {
    var o := Step(c, ev, levels, load, delegate);
    match Route(c.state, ev)
    case OnDifficulty =>
      assert o == ChooseLevel(c, ev.token, levels, load);
    case OnName =>
      assert o == Collect(c, ev.text, FullNameKey, WaitingPosition, AskPosition);
    case OnPosition =>
      assert o == Collect(c, ev.text, PositionKey, WaitingDepartment, AskDepartment);
    case OnDepartment =>
      assert o == Collect(c, ev.text, DepartmentKey, WaitingDifficulty, ChooseDifficulty(DifficultyKeyboard()));
    case _ =>
  }

  /** During a test an answer or "next" press is handed on: the conversation becomes what the library's handler makes of it. */
  lemma TestPressesDelegate(c: Conv, token: string, levels: set<string>, load: Loader, delegate: Delegate)
    requires c.state == AnsweringQuestion
    requires StartsWith(token, AnswerPrefix) || token == "next"
    ensures Step(c, Callback(token), levels, load, delegate)
         == Outcome(delegate(c, Callback(token)), Delegated(if token == "next" then OnNext else OnAnswer))
  {
  }

  /** A test started from a consistent conversation carries the recorded metadata, not the defaults. */
  lemma StartedTestKeepsMetadata(c: Conv, token: string, levels: set<string>, load: Loader, delegate: Delegate)
    requires Consistent(c) && c.state == WaitingDifficulty
    requires StartsWith(token, DifficultyPrefix)
    ensures var o := Step(c, Callback(token), levels, load, delegate);
      o.conv.state == AnsweringQuestion ==>
        var t := o.conv.data[TestStateKey].test;
        && t.specialization == c.data[SpecializationKey].text
        && t.fullName == c.data[FullNameKey].text
        && t.position == c.data[PositionKey].text
        && t.department == c.data[DepartmentKey].text
        && t.answers == map[]
  {
  }

  /** An unknown level is reported and leaves state and data as they were. */
  lemma UnknownLevelChangesNothing(c: Conv, level: string, levels: set<string>, load: Loader, delegate: Delegate)
    requires c.state == WaitingDifficulty && level !in levels
    ensures Step(c, Callback(DifficultyPrefix + level), levels, load, delegate) == Outcome(c, BadDifficulty)
  {
    assert StartsWith(DifficultyPrefix + level, DifficultyPrefix);
    assert (DifficultyPrefix + level)[|DifficultyPrefix|..] == level;
  }

  /** A known level with no questions to load clears the whole conversation. */
  lemma EmptyQuestionListClears(c: Conv, level: string, levels: set<string>, load: Loader, delegate: Delegate)
    requires c.state == WaitingDifficulty && level in levels
    requires load(TextOr(c.data, SpecializationKey, "oko"), Difficulty(level)) == []
    ensures Step(c, Callback(DifficultyPrefix + level), levels, load, delegate) == Outcome(Conv(Idle, map[]), LoadFailed)
  {
    assert StartsWith(DifficultyPrefix + level, DifficultyPrefix);
    assert (DifficultyPrefix + level)[|DifficultyPrefix|..] == level;
  }

  /** `diff_` tokens are taken only while waiting for the difficulty, answer and next presses only during a test. */
  lemma GuardedCallbacks(s: FsmState, token: string)
    ensures StartsWith(token, DifficultyPrefix) && s != WaitingDifficulty ==> Route(s, Callback(token)) == Unrouted
    ensures StartsWith(token, AnswerPrefix) && s != AnsweringQuestion ==> Route(s, Callback(token)) == Unrouted
    ensures s != AnsweringQuestion ==> Route(s, Callback("next")) == Unrouted
  {
    if StartsWith(token, DifficultyPrefix) {
      assert token[0] == 'd';
    }
    if StartsWith(token, AnswerPrefix) {
      assert token[0] == 'a';
    }
  }

  /** A message in one of the three intake states stores its stripped text and moves on. */
  lemma MessageStep(c: Conv, text: string, levels: set<string>, load: Loader, delegate: Delegate)
    ensures var o := Step(c, Message(Some(text)), levels, load, delegate);
      && (c.state == WaitingFullName ==>
            o == Outcome(Conv(WaitingPosition, c.data[FullNameKey := Text(Strip(text))]), AskPosition))
      && (c.state == WaitingPosition ==>
            o == Outcome(Conv(WaitingDepartment, c.data[PositionKey := Text(Strip(text))]), AskDepartment))
      && (c.state == WaitingDepartment ==>
            o == Outcome(Conv(WaitingDifficulty, c.data[DepartmentKey := Text(Strip(text))]),
                         ChooseDifficulty(DifficultyKeyboard())))
  {
  }

  /** A known level with questions to load starts the test on question 0. */
  lemma LevelStep(c: Conv, level: string, levels: set<string>, load: Loader, delegate: Delegate)
    requires c.state == WaitingDifficulty && level in levels
    requires load(TextOr(c.data, SpecializationKey, "oko"), Difficulty(level)) != []
    ensures var d := Difficulty(level);
      var questions := load(TextOr(c.data, SpecializationKey, "oko"), d);
      Step(c, Callback(DifficultyPrefix + level), levels, load, delegate)
        == Outcome(Conv(AnsweringQuestion, c.data[TestStateKey := Test(NewTest(c.data, d, questions))]), ShowQuestion(0))
  {
    assert StartsWith(DifficultyPrefix + level, DifficultyPrefix);
    assert LevelName(DifficultyPrefix + level) == level;
  }

  /** Choosing ОКО and answering the three questions records the stripped answers and asks for the level. */
  lemma IntakeAnswers(c: Conv, name: string, position: string, department: string,
                      levels: set<string>, load: Loader, delegate: Delegate)
    ensures
      var c1 := Step(c, Callback("spec_oko"), levels, load, delegate).conv;
      var c2 := Step(c1, Message(Some(name)), levels, load, delegate).conv;
      var c3 := Step(c2, Message(Some(position)), levels, load, delegate).conv;
      var c4 := Step(c3, Message(Some(department)), levels, load, delegate).conv;
      && c4.state == WaitingDifficulty
      && c4.data == c.data[SpecializationKey := Text("oko")][FullNameKey := Text(Strip(name))]
                          [PositionKey := Text(Strip(position))][DepartmentKey := Text(Strip(department))]
  {
    var c1 := Step(c, Callback("spec_oko"), levels, load, delegate).conv;
    var c2 := Step(c1, Message(Some(name)), levels, load, delegate).conv;
    var c3 := Step(c2, Message(Some(position)), levels, load, delegate).conv;
    MessageStep(c1, name, levels, load, delegate);
    MessageStep(c2, position, levels, load, delegate);
    MessageStep(c3, department, levels, load, delegate);
  }

  /** The test built after the intake carries the recorded answers and the specialization "oko". */
  lemma NewTestOfIntake(data: map<string, Value>, name: string, position: string, department: string,
                        d: Difficulty, questions: seq<Question>)
    ensures var answered := data[SpecializationKey := Text("oko")][FullNameKey := Text(name)]
                                [PositionKey := Text(position)][DepartmentKey := Text(department)];
      && TextOr(answered, SpecializationKey, "oko") == "oko"
      && NewTest(answered, d, questions) == TestState(questions, "oko", d, name, position, department, map[])
  {
  }

  /**
   * The whole intake, from any conversation: choosing ОКО, then name, position
   * and department messages, then a known level with questions to load, starts
   * a fresh test on question 0 that carries the stripped answers, the
   * specialization "oko" and no answers yet.
   */
  lemma Intake(c: Conv, name: string, position: string, department: string, level: string,
               levels: set<string>, load: Loader, delegate: Delegate)
    requires level in levels
    requires load("oko", Difficulty(level)) != []
    ensures
      var c1 := Step(c, Callback("spec_oko"), levels, load, delegate).conv;
      var c2 := Step(c1, Message(Some(name)), levels, load, delegate).conv;
      var c3 := Step(c2, Message(Some(position)), levels, load, delegate).conv;
      var c4 := Step(c3, Message(Some(department)), levels, load, delegate).conv;
      var o := Step(c4, Callback(DifficultyPrefix + level), levels, load, delegate);
      && o.reply == ShowQuestion(0)
      && o.conv.state == AnsweringQuestion
      && TestStateKey in o.conv.data
      && o.conv.data[TestStateKey] == Test(TestState(load("oko", Difficulty(level)), "oko", Difficulty(level),
                                                     Strip(name), Strip(position), Strip(department), map[]))
  {
    var c1 := Step(c, Callback("spec_oko"), levels, load, delegate).conv;
    var c2 := Step(c1, Message(Some(name)), levels, load, delegate).conv;
    var c3 := Step(c2, Message(Some(position)), levels, load, delegate).conv;
    var c4 := Step(c3, Message(Some(department)), levels, load, delegate).conv;
    IntakeAnswers(c, name, position, department, levels, load, delegate);
    var d := Difficulty(level);
    NewTestOfIntake(c.data, Strip(name), Strip(position), Strip(department), d, load("oko", d));
    LevelStep(c4, level, levels, load, delegate);
  }

  /** "Repeat" from anywhere restarts the ОКО intake with nothing but the specialization kept. */
  lemma RepeatStartsOver(c: Conv, levels: set<string>, load: Loader, delegate: Delegate)
    ensures Step(c, Callback("repeat_test"), levels, load, delegate)
         == Outcome(Conv(WaitingFullName, map[SpecializationKey := Text("oko")]), AskFullName)
  {
    MenuRoute(c.state, "repeat_test");
  }

  /** "Main menu" from anywhere clears state and data. */
  lemma MainMenuClears(c: Conv, levels: set<string>, load: Loader, delegate: Delegate)
    ensures Step(c, Callback("main_menu"), levels, load, delegate) == Outcome(Conv(Idle, map[]), MainMenu(MainKeyboard()))
  {
    MenuRoute(c.state, "main_menu");
  }

  /**
   * The report has one row per question, numbered from 1; a row is marked
   * correct exactly when the chosen set (empty if unanswered) is the correct
   * set; and its number list reads back to the correct set in ascending order.
   */
  lemma ReportGrades(t: TestState, k: nat)
    requires k < |t.questions|
    ensures |Report(t)| == |t.questions|
    ensures Report(t)[k].number == k + 1
    ensures Report(t)[k].isCorrect <==> UserAnswer(t.answers, k) == t.questions[k].correct
    ensures ParseNums(Report(t)[k].correctNums) == Some(Sorted(t.questions[k].correct))
    ensures Elements(Sorted(t.questions[k].correct)) == t.questions[k].correct
    ensures StrictlyIncreasing(Sorted(t.questions[k].correct))
  {
    SortedSpec(t.questions[k].correct);
    ParseJoinNums(Sorted(t.questions[k].correct));
  }

  /** Help, certificate and statistics answer in any state and leave the conversation as it was. */
  lemma InfoButtonsChangeNothing(c: Conv, levels: set<string>, load: Loader, delegate: Delegate)
    ensures Step(c, Callback("help"), levels, load, delegate) == Outcome(c, Help(MainKeyboard()))
    ensures Step(c, Callback("generate_cert"), levels, load, delegate) == Outcome(c, CertificatePending)
    ensures Step(c, Callback("my_stats"), levels, load, delegate) == Outcome(c, StatsPending)
  {
    assert Route(c.state, Callback("help")) == OnHelp by { MenuRoute(c.state, "help"); }
    assert Route(c.state, Callback("generate_cert")) == OnCertificate by { MenuRoute(c.state, "generate_cert"); }
    assert Route(c.state, Callback("my_stats")) == OnStats by { MenuRoute(c.state, "my_stats"); }
  }

  /** Without a stored test state there is no report, only the error. */
  lemma NoTestNoReport(c: Conv, levels: set<string>, load: Loader, delegate: Delegate)
    requires TestStateKey !in c.data
    ensures Step(c, Callback("show_answers"), levels, load, delegate) == Outcome(c, TestDataMissing)
  {
    MenuRoute(c.state, "show_answers");
  }

  // ---------------------------------------------------------------------------
  // The keyboards meet the router

  /** During a test each answer button reaches the toggle handler and "Next" the next-question handler. */
  lemma TestKeyboardRoutes(options: seq<string>, selected: Option<set<int>>, s: FsmState, k: nat)
    requires k <= |options|
    ensures var b := TestKeyboard(options, selected).buttons[k];
      Route(s, Callback(b.callback))
        == if s != AnsweringQuestion then Unrouted else if k < |options| then OnAnswer else OnNext
  {
    var b := TestKeyboard(options, selected).buttons[k];
    if k < |options| {
      assert b.callback == AnswerToken(k + 1);
      assert b.callback[..4] == AnswerPrefix;
      GuardedCallbacks(s, b.callback);
    }
  }

  /** While waiting for the level, every difficulty button reaches `select_difficulty` with its level name. */
  lemma DifficultyKeyboardRoutes(k: nat)
    requires k < 4
    ensures var b := DifficultyKeyboard().buttons[k];
      && Route(WaitingDifficulty, Callback(b.callback)) == OnDifficulty
      && LevelName(b.callback) == DifficultyLevels[k]
  {
    DifficultyKeyboardLayout();
    var b := DifficultyKeyboard().buttons[k];
    assert b.callback[..5] == DifficultyPrefix;
  }

  /** The finish buttons reach, in any state, show answers, certificate, repeat, stats and main menu. */
  lemma FinishKeyboardRoutes(s: FsmState)
    ensures var bs := FinishKeyboard().buttons;
      && |bs| == 5
      && Route(s, Callback(bs[0].callback)) == OnShowAnswers
      && Route(s, Callback(bs[1].callback)) == OnCertificate
      && Route(s, Callback(bs[2].callback)) == OnRepeat
      && Route(s, Callback(bs[3].callback)) == OnStats
      && Route(s, Callback(bs[4].callback)) == OnMainMenu
  {
    FinishKeyboardLayout();
    var bs := FinishKeyboard().buttons;
    assert Route(s, Callback(bs[0].callback)) == OnShowAnswers by { MenuRoute(s, FinishTokens[0]); }
    assert Route(s, Callback(bs[1].callback)) == OnCertificate by { MenuRoute(s, FinishTokens[1]); }
    assert Route(s, Callback(bs[2].callback)) == OnRepeat by { MenuRoute(s, FinishTokens[2]); }
    assert Route(s, Callback(bs[3].callback)) == OnStats by { MenuRoute(s, FinishTokens[3]); }
    assert Route(s, Callback(bs[4].callback)) == OnMainMenu by { MenuRoute(s, FinishTokens[4]); }
  }

  /** The main menu's ОКО button starts this flow from any state, and its help button reaches `show_help`. */
  lemma MainKeyboardRoutes(s: FsmState)
    ensures var bs := MainKeyboard().buttons;
      && |bs| == 12
      && Route(s, Callback(bs[6].callback)) == OnSpecOko
      && Route(s, Callback(bs[11].callback)) == OnHelp
  {
    MainKeyboardLayout();
    MenuRoute(s, "help");
  }
}
