// The pull request handoff of one feature: apps/worker/src/github/pr-handoff-worker.ts.
//
// A call of handoff is a program counter that moves by one await at a time. At
// any await the call may be answered, may throw (with or without the awaited
// effect having taken place), or may die with its process. Calls are serial:
// the runtime drains its intents one after the other. `prs` is what GitHub holds
// for the feature's head and base branch; only creation adds to it.
module PrHandoff {
  import opened Wrappers
  import opened FeatureStateMachine

  type AttemptId = nat
  type Number = nat

  datatype Row = Row(state: FeatureState, version: nat)

  datatype Result = Completed(number: Number) | GaveUp | WasIdle | Thrown

  datatype Pc =
    | CheckRecord
    | LoadContext
    | CreatingRead
    | CreatingWrite(read: Row)
    | NoteCreating
    | ResolveBranch
    | PushBranch
    | LoadIdentity
    | CheckStatus(number: Number)
    | FindPr
    | CreatePr
    | PersistFound(number: Number)
    | PersistCreated(number: Number)
    | CiRead(number: Number)
    | CiWrite(number: Number, read: Row)
    | NoteCreated(number: Number)
    | RecordOutcome(number: Number)
    | FailRead
    | FailWrite(read: Row)
    | NoteFailure
    | Ended(result: Result)

  datatype Call = Call(attempt: AttemptId, pc: Pc)

  // `rows` are the stored identities of the feature, `outcomes` the recorded results by attempt.
  datatype State = State(
    prs: set<Number>, rows: seq<Number>, outcomes: map<AttemptId, Number>, feature: Row, call: Option<Call>)

  datatype Step =
    | Begin(attempt: AttemptId)
    | Proceed(pick: Number)              // the await is answered
    | Throw(landed: bool, pick: Number)  // the await throws
    | Crash                              // the process dies
    | Others(to: FeatureState, owner: TransitionOwner)

  /** Compare-and-swap on the row that was read. */
  function Swap(feature: Row, read: Row, to: FeatureState): Row {
    if feature == read then Row(to, read.version + 1) else feature
  }

  /** What an await does to GitHub or the database; `pick` is the number of a new pull request. */
  function Land(s: State, call: Call, pick: Number): State {
    match call.pc
    case CreatingWrite(read) => s.(feature := Swap(s.feature, read, PrCreating))
    case CreatePr => s.(prs := s.prs + {pick})
    case PersistFound(number) => s.(rows := s.rows + [number])
    case PersistCreated(number) => s.(rows := s.rows + [number])
    case CiWrite(_, read) => s.(feature := Swap(s.feature, read, CiRunning))
    case FailWrite(read) => s.(feature := Swap(s.feature, read, PrCreationFailed))
    case RecordOutcome(number) =>
      if call.attempt in s.outcomes then s else s.(outcomes := s.outcomes[call.attempt := number])
    case _ => s
  }

  /** Where the call goes on with the answer; `pick` is the row or pull request it was given. */
  function Continue(s: State, call: Call, pick: Number): Pc {
    match call.pc
    case CheckRecord =>
      if call.attempt in s.outcomes then Ended(Completed(s.outcomes[call.attempt])) else LoadContext
    case LoadContext =>
      if s.feature.state == DevelopmentComplete then CreatingRead
      else if s.feature.state == PrCreating then ResolveBranch
      else Ended(WasIdle)
    case CreatingRead => if s.feature.state == DevelopmentComplete then CreatingWrite(s.feature) else Ended(WasIdle)
    case CreatingWrite(read) => if s.feature == read then NoteCreating else Ended(WasIdle)
    case NoteCreating => ResolveBranch
    case ResolveBranch => PushBranch
    case PushBranch => LoadIdentity
    case LoadIdentity => if s.rows == [] then FindPr else CheckStatus(pick)
    case CheckStatus(number) => CiRead(number)
    case FindPr => if s.prs == {} then CreatePr else PersistFound(pick)
    case CreatePr => PersistCreated(pick)
    case PersistFound(number) => CiRead(number)
    case PersistCreated(number) => CiRead(number)
    case CiRead(number) => if s.feature.state == PrCreating then CiWrite(number, s.feature) else NoteCreated(number)
    case CiWrite(number, _) => NoteCreated(number)
    case NoteCreated(number) => RecordOutcome(number)
    case RecordOutcome(number) => Ended(Completed(number))
    case FailRead =>
      if IsAllowed(s.feature.state, PrCreationFailed, GithubAdapter) then FailWrite(s.feature) else NoteFailure
    case FailWrite(_) => NoteFailure
    case NoteFailure => Ended(GaveUp)
    case Ended(_) => call.pc
  }

  /** The catch blocks; an await outside all of them ends the call. */
  function Rescue(pc: Pc): Pc {
    match pc
    case ResolveBranch => FailRead
    case PushBranch => FailRead
    case CheckStatus(_) => FindPr
    case CreatePr => FailRead
    case PersistCreated(_) => FailRead
    case Ended(_) => pc
    case _ => Ended(Thrown)
  }

  /** Which answers are possible: a stored row, a pull request iff there is one, a fresh number. */
  predicate CanAnswer(s: State, pc: Pc, pick: Number) {
    match pc
    case LoadIdentity => s.rows == [] || pick in s.rows
    case FindPr => s.prs == {} || pick in s.prs
    case CreatePr => pick !in s.prs
    case _ => true
  }

  /** The other writers: no one else acts as the GitHub adapter, and the poller needs a stored identity. */
  ghost predicate CanMove(s: State, to: FeatureState, owner: TransitionOwner) {
    || IsReattachJump(s.feature.state, to)
    || (IsAllowed(s.feature.state, to, owner) && owner != GithubAdapter && (owner == Poller ==> s.rows != []))
  }

  function WithPc(s: State, call: Call, pc: Pc): State { s.(call := Some(call.(pc := pc))) }

  ghost function Next(s: State, step: Step): State {
    match step
    case Begin(attempt) =>
      if s.call.None? || s.call.value.pc.Ended? then s.(call := Some(Call(attempt, CheckRecord))) else s
    case Proceed(pick) => if s.call.Some? then Proceeded(s, s.call.value, pick) else s
    case Throw(landed, pick) => if s.call.Some? then Threw(s, s.call.value, landed, pick) else s
    case Crash => s.(call := None)
    case Others(to, owner) => if CanMove(s, to, owner) then s.(feature := Row(to, s.feature.version + 1)) else s
  }

  function Proceeded(s: State, call: Call, pick: Number): State {
    if CanAnswer(s, call.pc, pick) then WithPc(Land(s, call, pick), call, Continue(s, call, pick)) else s
  }

  function Threw(s: State, call: Call, landed: bool, pick: Number): State {
    if landed && CanAnswer(s, call.pc, pick) then WithPc(Land(s, call, pick), call, Rescue(call.pc))
    else WithPc(s, call, Rescue(call.pc))
  }

  /** No pull request, no identity, no outcome; the feature has not reached CI_RUNNING. */
  predicate IsStart(s: State) {
    s.prs == {} && s.rows == [] && s.outcomes == map[] && s.call == None && !HasCi(s.feature.state)
  }

  ghost function Run(start: State, steps: seq<Step>): State {
    if steps == [] then start else Next(Run(start, steps[..|steps| - 1]), steps[|steps| - 1])
  }

  // ---------------------------------------------------------------------
  // Safety
  // ---------------------------------------------------------------------

  predicate HasCi(state: FeatureState) {
    match state
    case CiRunning | CiFailed | PrReview | PrChangesRequested | DevelopmentMerged => true
    case _ => false
  }

  ghost predicate PcFits(s: State, pc: Pc) {
    match pc
    case CheckStatus(number) => number in s.rows
    case CreatePr => s.prs == {}
    case PersistFound(number) => number in s.prs
    case PersistCreated(number) => number in s.prs
    case CiRead(number) => number in s.rows
    case CiWrite(number, read) => number in s.rows && read.state == PrCreating
    case NoteCreated(number) => number in s.rows
    case RecordOutcome(number) => number in s.rows
    case CreatingWrite(read) => read.state == DevelopmentComplete
    case FailWrite(read) => read.state == PrCreating
    case Ended(result) => result.Completed? ==> result.number in s.rows
    case _ => true
  }

  ghost predicate Inv(s: State) {
    && (forall m, n :: m in s.prs && n in s.prs ==> m == n)
    && (forall n :: n in s.rows ==> n in s.prs)
    && (forall a :: a in s.outcomes ==> s.outcomes[a] in s.rows)
    && (HasCi(s.feature.state) ==> s.rows != [])
    && (s.call.Some? ==> PcFits(s, s.call.value.pc))
  }

  /** The awaited effect keeps everything but the call's own program counter, which still has to move. */
  lemma LandingKeepsInv(s: State, call: Call, pick: Number)
    requires Inv(s) && s.call == Some(call) && CanAnswer(s, call.pc, pick)
    ensures Inv(Land(s, call, pick).(call := None))
    ensures PcFits(Land(s, call, pick), Continue(s, call, pick))
    ensures PcFits(Land(s, call, pick), Rescue(call.pc))
  {
    LandingKeepsRows(s, call, pick);
    ContinuingFits(s, call, pick);
    RescueFits(s, call, pick);
  }

  lemma LandingKeepsRows(s: State, call: Call, pick: Number)
    requires Inv(s) && s.call == Some(call) && CanAnswer(s, call.pc, pick)
    ensures Inv(Land(s, call, pick).(call := None))
  {
    assert PcFits(s, call.pc);
  }

  lemma ContinuingFits(s: State, call: Call, pick: Number)
    requires Inv(s) && s.call == Some(call) && CanAnswer(s, call.pc, pick)
    ensures PcFits(Land(s, call, pick), Continue(s, call, pick))
  {
    assert PcFits(s, call.pc);
  }

  lemma RescueFits(s: State, call: Call, pick: Number)
    requires Inv(s) && s.call == Some(call) && CanAnswer(s, call.pc, pick)
    ensures PcFits(Land(s, call, pick), Rescue(call.pc))
  {
    assert PcFits(s, call.pc);
  }

  lemma StepKeepsInv(s: State, step: Step)
    requires Inv(s)
    ensures Inv(Next(s, step))
  {
    if s.call.Some? {
      match step {
        case Proceed(pick) =>
          if CanAnswer(s, s.call.value.pc, pick) { LandingKeepsInv(s, s.call.value, pick); }
        case Throw(landed, pick) =>
          if landed && CanAnswer(s, s.call.value.pc, pick) { LandingKeepsInv(s, s.call.value, pick); }
        case Others(to, owner) => OthersKeepInv(s, to, owner);
        case Begin(_) =>
        case Crash =>
      }
    } else if step.Others? {
      OthersKeepInv(s, step.to, step.owner);
    }
  }

  lemma OthersKeepInv(s: State, to: FeatureState, owner: TransitionOwner)
    requires Inv(s)
    ensures Inv(Next(s, Others(to, owner)))
  {
    var after := Next(s, Others(to, owner));
    if s.call.Some? { assert PcFits(s, s.call.value.pc) && PcFits(after, after.call.value.pc); }
  }

  lemma {:induction false} EveryRunKeepsInv(start: State, steps: seq<Step>)
    requires IsStart(start)
    ensures Inv(Run(start, steps))
  {
    if steps != [] {
      EveryRunKeepsInv(start, steps[..|steps| - 1]);
      StepKeepsInv(Run(start, steps[..|steps| - 1]), steps[|steps| - 1]);
    }
  }

  /**
   * However the calls fail or die, one pull request at most exists for the
   * pair; every stored identity, recorded outcome and reported number is its
   * number; and no feature is past CI_RUNNING without a stored identity.
   */
  lemma AtMostOnePullRequest(start: State, steps: seq<Step>)
    requires IsStart(start)
    ensures var s := Run(start, steps);
      && |s.prs| <= 1
      && (forall n :: n in s.rows ==> s.prs == {n})
      && (forall a :: a in s.outcomes ==> s.prs == {s.outcomes[a]})
      && (forall call :: s.call == Some(call) && call.pc.Ended? && call.pc.result.Completed? ==>
            s.prs == {call.pc.result.number})
      && (HasCi(s.feature.state) ==> |s.rows| > 0)
  {
    EveryRunKeepsInv(start, steps);
    var s := Run(start, steps);
    if n :| n in s.prs {
      assert s.prs == {n};
    }
  }

  // ---------------------------------------------------------------------
  // When an outcome is recorded
  // ---------------------------------------------------------------------

  predicate IsPastCreating(state: FeatureState) { HasCi(state) || state == Blocked }

  /** Where the feature is while a call is at work on its pull request. */
  predicate PcKnows(s: State, pc: Pc) {
    match pc
    case NoteCreating | ResolveBranch | PushBranch | LoadIdentity | CheckStatus(_) | FindPr | CreatePr =>
      s.feature.state == PrCreating || IsPastCreating(s.feature.state)
    case PersistFound(_) | PersistCreated(_) | CiRead(_) =>
      s.feature.state == PrCreating || IsPastCreating(s.feature.state)
    case CiWrite(_, read) => (s.feature == read && read.state == PrCreating) || IsPastCreating(s.feature.state)
    case NoteCreated(_) | RecordOutcome(_) => IsPastCreating(s.feature.state)
    case _ => true
  }

  predicate OutcomeFits(s: State) {
    && (s.outcomes != map[] ==> IsPastCreating(s.feature.state))
    && (s.call.Some? ==> PcKnows(s, s.call.value.pc))
  }

  lemma LandingFits(s: State, call: Call, pick: Number)
    requires Inv(s) && OutcomeFits(s) && s.call == Some(call)
    ensures Land(s, call, pick).outcomes != map[] ==> IsPastCreating(Land(s, call, pick).feature.state)
    ensures PcKnows(Land(s, call, pick), Continue(s, call, pick))
    ensures PcKnows(Land(s, call, pick), Rescue(call.pc))
  {
    assert PcFits(s, call.pc) && PcKnows(s, call.pc);
  }

  lemma StepKeepsFit(s: State, step: Step)
    requires Inv(s) && OutcomeFits(s)
    ensures OutcomeFits(Next(s, step))
  {
    if step.Others? {
      OthersKeepFit(s, step.to, step.owner);
    } else if s.call.Some? && (step.Proceed? || step.Throw?) {
      LandingFits(s, s.call.value, step.pick);
    }
  }

  lemma OthersKeepFit(s: State, to: FeatureState, owner: TransitionOwner)
    requires OutcomeFits(s)
    ensures OutcomeFits(Next(s, Others(to, owner)))
  {
    if CanMove(s, to, owner) { OthersKeepPast(s.feature.state, to, owner); }
  }

  /** Past PR_CREATING no one leads back, and from it the other writers lead no other way. */
  lemma OthersKeepPast(from: FeatureState, to: FeatureState, owner: TransitionOwner)
    requires IsReattachJump(from, to) || (IsAllowed(from, to, owner) && owner != GithubAdapter)
    ensures from == PrCreating || IsPastCreating(from) ==> IsPastCreating(to)
  {}

  /** An outcome is recorded only for a feature past PR_CREATING, and the feature stays past it. */
  lemma {:induction false} OutcomesComeAfterCreating(start: State, steps: seq<Step>)
    requires IsStart(start)
    ensures OutcomeFits(Run(start, steps))
  {
    if steps != [] {
      OutcomesComeAfterCreating(start, steps[..|steps| - 1]);
      EveryRunKeepsInv(start, steps[..|steps| - 1]);
      StepKeepsFit(Run(start, steps[..|steps| - 1]), steps[|steps| - 1]);
    }
  }

  // ---------------------------------------------------------------------
  // Recovery
  // ---------------------------------------------------------------------

  /** A call that nothing has disturbed so far. */
  ghost predicate OnCourse(s: State) {
    && s.call.Some?
    && var call := s.call.value;
    && (call.attempt !in s.outcomes || call.pc.Ended?)
    && match call.pc
       case CheckRecord => s.feature.state == DevelopmentComplete || s.feature.state == PrCreating
       case LoadContext => s.feature.state == DevelopmentComplete || s.feature.state == PrCreating
       case CreatingRead => s.feature.state == DevelopmentComplete
       case CreatingWrite(read) => s.feature == read && read.state == DevelopmentComplete
       case CiWrite(_, read) => s.feature == read && read.state == PrCreating
       case NoteCreated(_) => s.feature.state == CiRunning
       case RecordOutcome(_) => s.feature.state == CiRunning
       case Ended(result) =>
         && s.feature.state == CiRunning
         && call.attempt in s.outcomes && result == Completed(s.outcomes[call.attempt])
       case FailRead | FailWrite(_) => false
       case NoteFailure => false
       case _ => s.feature.state == PrCreating
  }

  /** How many answers a call still waits for. */
  function Remaining(pc: Pc): nat {
    match pc
    case CheckRecord => 17 case LoadContext => 16 case CreatingRead => 15 case CreatingWrite(_) => 14
    case NoteCreating => 13 case ResolveBranch => 12 case PushBranch => 11 case LoadIdentity => 10
    case CheckStatus(_) => 9 case FindPr => 8 case CreatePr => 7 case PersistFound(_) => 6
    case PersistCreated(_) => 6 case CiRead(_) => 5 case CiWrite(_, _) => 4 case NoteCreated(_) => 3
    case RecordOutcome(_) => 2 case FailRead => 3 case FailWrite(_) => 2 case NoteFailure => 1
    case Ended(_) => 0
  }

  lemma ProceedingStaysOnCourse(s: State, pick: Number)
    requires Inv(s) && OnCourse(s) && CanAnswer(s, s.call.value.pc, pick)
    ensures var after := Next(s, Proceed(pick));
      && Inv(after) && OnCourse(after)
      && after.call.value.attempt == s.call.value.attempt
      && (Remaining(after.call.value.pc) < Remaining(s.call.value.pc) || (s.call.value.pc.Ended? && after == s))
  {
    StepKeepsInv(s, Proceed(pick));
  }

  /** A step at which the call's await is answered. */
  ghost predicate IsAnswer(s: State, step: Step) {
    step.Proceed? && s.call.Some? && CanAnswer(s, s.call.value.pc, step.pick)
  }

  ghost predicate AllAnswers(s: State, steps: seq<Step>) {
    forall i {:trigger steps[i]} :: 0 <= i < |steps| ==> IsAnswer(Run(s, steps[..i]), steps[i])
  }

  lemma {:induction false} UndisturbedRunStaysOnCourse(s: State, steps: seq<Step>)
    requires Inv(s) && OnCourse(s) && AllAnswers(s, steps)
    ensures var after := Run(s, steps);
      && Inv(after) && OnCourse(after)
      && after.call.value.attempt == s.call.value.attempt
      && (after.call.value.pc.Ended? || Remaining(after.call.value.pc) + |steps| <= Remaining(s.call.value.pc))
  {
    if steps != [] {
      var init := steps[..|steps| - 1];
      forall i | 0 <= i < |init| ensures IsAnswer(Run(s, init[..i]), init[i]) {
        assert init[..i] == steps[..i] && init[i] == steps[i];
      }
      UndisturbedRunStaysOnCourse(s, init);
      assert IsAnswer(Run(s, init), steps[|steps| - 1]);
      ProceedingStaysOnCourse(Run(s, init), steps[|steps| - 1].pick);
    }
  }

  /**
   * Whatever happened before, one further call that nothing disturbs completes
   * the handoff within seventeen awaits: CI_RUNNING, one pull request, its number
   * reported, stored and recorded for the attempt.
   */
  lemma NextCallRecovers(start: State, steps: seq<Step>, attempt: AttemptId, answers: seq<Step>)
    requires IsStart(start)
    requires var s := Run(start, steps);
      && (s.call.None? || s.call.value.pc.Ended?)
      && (s.feature.state == DevelopmentComplete || s.feature.state == PrCreating)
    requires |answers| >= 17 && AllAnswers(Next(Run(start, steps), Begin(attempt)), answers)
    ensures var after := Run(Next(Run(start, steps), Begin(attempt)), answers);
      && after.feature.state == CiRunning
      && attempt in after.outcomes && after.prs == {after.outcomes[attempt]}
      && after.call == Some(Call(attempt, Ended(Completed(after.outcomes[attempt]))))
      && |after.rows| > 0
  {
    EveryRunKeepsInv(start, steps);
    OutcomesComeAfterCreating(start, steps);
    var s := Next(Run(start, steps), Begin(attempt));
    StepKeepsInv(Run(start, steps), Begin(attempt));
    UndisturbedRunStaysOnCourse(s, answers);
    var after := Run(s, answers);
    assert after.outcomes[attempt] in after.rows;
  }

  /** An answer is always possible, so such a call can be completed. */
  lemma SomeAnswerExists(s: State)
    requires s.call.Some?
    ensures exists pick :: CanAnswer(s, s.call.value.pc, pick)
  {
    var pc := s.call.value.pc;
    if pc.LoadIdentity? && s.rows != [] {
      assert CanAnswer(s, pc, s.rows[0]);
    } else if pc.FindPr? && s.prs != {} {
      var n :| n in s.prs;
      assert CanAnswer(s, pc, n);
    } else if pc.CreatePr? {
      assert CanAnswer(s, pc, Above(s.prs));
    } else {
      assert CanAnswer(s, pc, 0);
    }
  }

  ghost function Above(numbers: set<Number>): (n: Number)
    ensures forall m :: m in numbers ==> m < n
  {
    if numbers == {} then 0
    else
      var m :| m in numbers;
      var rest := Above(numbers - {m});
      assert forall k :: k in numbers ==> k == m || k in numbers - {m};
      if m < rest then rest else m + 1
  }

  // ---------------------------------------------------------------------
  // Replays
  // ---------------------------------------------------------------------

  function OnlyOthers(steps: seq<Step>): seq<Step> {
    if steps == [] then []
    else
      var last := steps[|steps| - 1];
      OnlyOthers(steps[..|steps| - 1]) + if last.Others? then [last] else []
  }

  /** Every call that begins is for an attempt whose outcome is recorded. */
  predicate OnlyReplays(outcomes: map<AttemptId, Number>, steps: seq<Step>) {
    forall i :: 0 <= i < |steps| && steps[i].Begin? ==> steps[i].attempt in outcomes
  }

  /** A call that looks its record up, or has reported it, or was cut short while doing so. */
  predicate IsReplay(outcomes: map<AttemptId, Number>, call: Call) {
    && call.attempt in outcomes
    && (call.pc == CheckRecord || call.pc == Ended(Completed(outcomes[call.attempt])) || call.pc == Ended(Thrown))
  }

  ghost predicate IsUntouched(s: State, steps: seq<Step>, after: State) {
    && after.prs == s.prs && after.rows == s.rows && after.outcomes == s.outcomes
    && after.feature == Run(s, OnlyOthers(steps)).feature
    && (after.call == None || after.call == s.call || IsReplay(s.outcomes, after.call.value))
  }

  /**
   * Replaying recorded attempts, any number of times, with any failures and
   * deaths in between and whatever the other writers do, adds no pull request,
   * identity or outcome, leaves the feature to the other writers, and reports
   * the recorded numbers.
   */
  lemma {:induction false} ReplaysTouchNothing(s: State, steps: seq<Step>)
    requires (s.call.None? || s.call.value.pc.Ended?) && OnlyReplays(s.outcomes, steps)
    ensures IsUntouched(s, steps, Run(s, steps))
  {
    if steps != [] {
      var init, last := steps[..|steps| - 1], steps[|steps| - 1];
      assert OnlyReplays(s.outcomes, init);
      ReplaysTouchNothing(s, init);
      OthersAlone(s, init, last);
      ReplayStepTouchesNothing(s, steps, Run(s, init), last);
    }
  }

  lemma OthersAlone(s: State, init: seq<Step>, last: Step)
    ensures OnlyOthers(init + [last]) == OnlyOthers(init) + if last.Others? then [last] else []
    ensures Run(s, OnlyOthers(init + [last])) ==
            if last.Others? then Next(Run(s, OnlyOthers(init)), last) else Run(s, OnlyOthers(init))
  {
    assert (init + [last])[..|init|] == init;
    var others := OnlyOthers(init);
    assert (others + [last])[..|others|] == others && others + [] == others;
    assert Run(s, others + [last]) == Next(Run(s, others), last);
  }

  lemma {:induction false} OthersLeaveRows(s: State, steps: seq<Step>)
    ensures Run(s, OnlyOthers(steps)).rows == s.rows
  {
    if steps != [] {
      var init, last := steps[..|steps| - 1], steps[|steps| - 1];
      assert init + [last] == steps;
      OthersLeaveRows(s, init);
      OthersAlone(s, init, last);
    }
  }

  lemma ReplayStepTouchesNothing(s: State, steps: seq<Step>, before: State, last: Step)
    requires steps != [] && last == steps[|steps| - 1] && OnlyReplays(s.outcomes, steps)
    requires (s.call.None? || s.call.value.pc.Ended?) && IsUntouched(s, steps[..|steps| - 1], before)
    ensures IsUntouched(s, steps, Next(before, last))
  {
    var init := steps[..|steps| - 1];
    assert init + [last] == steps;
    OthersAlone(s, init, last);
    if last.Others? {
      OthersLeaveRows(s, init);
      OthersMoveAlike(before, Run(s, OnlyOthers(init)), last.to, last.owner);
    } else {
      assert last.Begin? ==> last.attempt in s.outcomes;
      ReplayingCallWritesNothing(s, before, last);
    }
  }

  /** What the other writers do to the feature depends on its row and the stored identities alone. */
  lemma OthersMoveAlike(s: State, t: State, to: FeatureState, owner: TransitionOwner)
    requires s.feature == t.feature && s.rows == t.rows
    ensures Next(s, Others(to, owner)).feature == Next(t, Others(to, owner)).feature
    ensures Next(s, Others(to, owner)) == s.(feature := Next(s, Others(to, owner)).feature)
  {}

  /** Looking up a record, failing to, and ending write nothing. */
  lemma ReplayingCallWritesNothing(s: State, before: State, step: Step)
    requires !step.Others? && (step.Begin? ==> step.attempt in s.outcomes)
    requires (s.call.None? || s.call.value.pc.Ended?) && before.outcomes == s.outcomes
    requires before.call == None || before.call == s.call || IsReplay(s.outcomes, before.call.value)
    ensures Next(before, step).(call := None) == before.(call := None)
    ensures var call := Next(before, step).call; call == None || call == s.call || IsReplay(s.outcomes, call.value)
  {}

  lemma {:induction false} OutcomesAreFinal(start: State, steps: seq<Step>, n: nat, attempt: AttemptId)
    requires n <= |steps| && attempt in Run(start, steps[..n]).outcomes
    ensures attempt in Run(start, steps).outcomes
    ensures Run(start, steps).outcomes[attempt] == Run(start, steps[..n]).outcomes[attempt]
    decreases |steps|
  {
    if n < |steps| {
      var init := steps[..|steps| - 1];
      assert init[..n] == steps[..n];
      OutcomesAreFinal(start, init, n, attempt);
    } else {
      assert steps[..n] == steps;
    }
  }
}
