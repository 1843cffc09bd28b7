// How every call of the pull request handoff ends, over all runs: what a failed
// one stores, what an idle one leaves alone, and what an undisturbed one does.
module PrHandoffOutcomes {
  import opened Wrappers
  import opened FeatureStateMachine
  import opened PrHandoff

  // ---------------------------------------------------------------------
  // What has happened to the call at work
  // ---------------------------------------------------------------------

  /** Failures of these awaits are stored; that of the status check only makes the call look for the pull request. */
  predicate IsCaught(pc: Pc) { pc.ResolveBranch? || pc.PushBranch? || pc.CreatePr? || pc.PersistCreated? }

  datatype Fate = Unharmed | Caught | Escaped

  function FateAt(pc: Pc, fate: Fate): Fate {
    if pc.Ended? || pc.CheckStatus? then fate else if IsCaught(pc) then Caught else Escaped
  }

  predicate Begins(s: State, step: Step) { step.Begin? && (s.call.None? || s.call.value.pc.Ended?) }

  /** Where the last throw that the current call suffered has led it, if there was one. */
  ghost function FateOf(start: State, steps: seq<Step>): Fate {
    if steps == [] then Unharmed
    else
      var init, last := steps[..|steps| - 1], steps[|steps| - 1];
      var s, fate := Run(start, init), FateOf(start, init);
      if Begins(s, last) || last.Crash? then Unharmed
      else if last.Throw? && s.call.Some? then FateAt(s.call.value.pc, fate)
      else fate
  }

  predicate FateFits(pc: Pc, fate: Fate) {
    match pc
    case FailRead | FailWrite(_) | NoteFailure => fate == Caught
    case Ended(result) =>
      && (result.GaveUp? <==> fate == Caught)
      && (result.Thrown? <==> fate == Escaped)
    case _ => fate == Unharmed
  }

  /**
   * A call gives up if and only if branch resolution, the push, the creation or
   * the storing of a created identity failed and nothing failed after that; it
   * throws if and only if something else did. Otherwise it completes or is idle.
   */
  lemma {:induction false} CallsEndSo(start: State, steps: seq<Step>)
    requires start.call == None
    ensures var s := Run(start, steps);
      && (s.call.None? ==> FateOf(start, steps) == Unharmed)
      && (s.call.Some? ==> FateFits(s.call.value.pc, FateOf(start, steps)))
  {
    if steps != [] {
      var init, last := steps[..|steps| - 1], steps[|steps| - 1];
      CallsEndSo(start, init);
      StepFitsFate(Run(start, init), last, FateOf(start, init));
    }
  }

  ghost function FateAfter(s: State, step: Step, fate: Fate): Fate {
    if Begins(s, step) || step.Crash? then Unharmed
    else if step.Throw? && s.call.Some? then FateAt(s.call.value.pc, fate)
    else fate
  }

  lemma StepFitsFate(s: State, step: Step, fate: Fate)
    requires if s.call.None? then fate == Unharmed else FateFits(s.call.value.pc, fate)
    ensures var after := Next(s, step);
      if after.call.None? then FateAfter(s, step, fate) == Unharmed
      else FateFits(after.call.value.pc, FateAfter(s, step, fate))
  {
    if s.call.Some? && step.Proceed? { AnswersKeepFate(s, s.call.value, step.pick, fate); }
  }

  lemma AnswersKeepFate(s: State, call: Call, pick: Number, fate: Fate)
    requires FateFits(call.pc, fate)
    ensures FateFits(Continue(s, call, pick), fate)
  {}

  // ---------------------------------------------------------------------
  // Idle calls
  // ---------------------------------------------------------------------

  /** The current call has changed something on GitHub or in the database. */
  ghost predicate HasWritten(start: State, steps: seq<Step>) {
    steps != [] &&
    var init, last := steps[..|steps| - 1], steps[|steps| - 1];
    var s := Run(start, init);
    !Begins(s, last) && !last.Crash? && (HasWritten(start, init) || Writes(s, last))
  }

  ghost predicate Writes(s: State, step: Step) {
    (step.Proceed? || step.Throw?) && Next(s, step).(call := None) != s.(call := None)
  }

  /** A call that ends idle, or is still looking, has changed nothing. */
  lemma {:induction false} IdleCallsWriteNothing(start: State, steps: seq<Step>)
    requires start.call == None
    ensures var s := Run(start, steps);
      s.call.Some? && IsLooking(s.call.value.pc) ==> !HasWritten(start, steps)
  {
    if steps != [] {
      var init, last := steps[..|steps| - 1], steps[|steps| - 1];
      IdleCallsWriteNothing(start, init);
      var after := Run(start, steps).call;
      if after.Some? && IsLooking(after.value.pc) { LookingWritesNothing(Run(start, init), last); }
    }
  }

  predicate IsLooking(pc: Pc) {
    match pc
    case CheckRecord | LoadContext | CreatingRead | CreatingWrite(_) => true
    case Ended(result) => result.WasIdle?
    case _ => false
  }

  lemma LookingWritesNothing(s: State, step: Step)
    requires var after := Next(s, step); after.call.Some? && IsLooking(after.call.value.pc)
    ensures Begins(s, step) || (s.call.Some? && IsLooking(s.call.value.pc) && !Writes(s, step))
  {}

  // ---------------------------------------------------------------------
  // Completed calls
  // ---------------------------------------------------------------------

  ghost predicate CompletedIsStored(s: State) {
    s.call.Some? && s.call.value.pc.Ended? && s.call.value.pc.result.Completed? ==>
      s.call.value.attempt in s.outcomes && s.outcomes[s.call.value.attempt] == s.call.value.pc.result.number
  }

  /** What a completed call reports is the outcome recorded for its attempt. */
  lemma {:induction false} CompletedIsRecorded(start: State, steps: seq<Step>)
    requires IsStart(start)
    ensures CompletedIsStored(Run(start, steps))
  {
    if steps != [] {
      var init := steps[..|steps| - 1];
      CompletedIsRecorded(start, init);
      EveryRunKeepsInv(start, init);
      EveryRunKeepsInv(start, steps);
      CompletingRecords(Run(start, init), steps[|steps| - 1]);
    }
  }

  lemma CompletingRecords(s: State, step: Step)
    requires Inv(s) && CompletedIsStored(s) && Inv(Next(s, step))
    ensures CompletedIsStored(Next(s, step))
  {
    if s.call.Some? { assert PcFits(s, s.call.value.pc); }
  }

  // ---------------------------------------------------------------------
  // Failed calls
  // ---------------------------------------------------------------------

  /** Another writer has moved the feature since the current call began. */
  ghost predicate WasMoved(start: State, steps: seq<Step>) {
    steps != [] &&
    var init, last := steps[..|steps| - 1], steps[|steps| - 1];
    var s := Run(start, init);
    !Begins(s, last) && (WasMoved(start, init) || (last.Others? && CanMove(s, last.to, last.owner)))
  }

  /** Where the feature is while nobody else moves it. */
  predicate IsWhereLeft(s: State, pc: Pc) {
    match pc
    case NoteCreating | ResolveBranch | PushBranch | LoadIdentity | CheckStatus(_) | FindPr | CreatePr =>
      s.feature.state == PrCreating
    case PersistFound(_) | PersistCreated(_) | CiRead(_) | FailRead => s.feature.state == PrCreating
    case CreatingWrite(read) => s.feature == read && read.state == DevelopmentComplete
    case CiWrite(_, read) => s.feature == read && read.state == PrCreating
    case FailWrite(read) => s.feature == read && read.state == PrCreating
    case NoteCreated(_) | RecordOutcome(_) => s.feature.state == CiRunning
    case NoteFailure => s.feature.state == PrCreationFailed
    case Ended(result) => result == GaveUp ==> s.feature.state == PrCreationFailed
    case _ => true
  }

  /**
   * A call that gave up left its feature in PR_CREATION_FAILED, and one that is
   * past its push has it in PR_CREATING or CI_RUNNING, unless another writer has
   * moved the feature since the call began.
   */
  lemma {:induction false} FailuresAreStored(start: State, steps: seq<Step>)
    requires start.call == None
    ensures var s := Run(start, steps);
      s.call.Some? && !WasMoved(start, steps) ==> IsWhereLeft(s, s.call.value.pc)
  {
    if steps != [] {
      var init, last := steps[..|steps| - 1], steps[|steps| - 1];
      FailuresAreStored(start, init);
      if !Begins(Run(start, init), last) && !WasMoved(start, steps) { StepLeavesIt(Run(start, init), last); }
    }
  }

  lemma StepLeavesIt(s: State, step: Step)
    requires step.Others? ==> !CanMove(s, step.to, step.owner)
    requires s.call.Some? ==> IsWhereLeft(s, s.call.value.pc)
    requires !Begins(s, step)
    ensures Next(s, step).call.Some? ==> IsWhereLeft(Next(s, step), Next(s, step).call.value.pc)
  {
    if s.call.Some? && step.Proceed? { AnswerLeavesIt(s, s.call.value, step.pick); }
  }

  lemma AnswerLeavesIt(s: State, call: Call, pick: Number)
    requires IsWhereLeft(s, call.pc)
    ensures IsWhereLeft(Land(s, call, pick), Continue(s, call, pick))
  {}

  /** A call that is storing its failure, at a feature found in this row. */
  predicate IsFailing(s: State, found: Row) {
    && s.call.Some?
    && match s.call.value.pc
       case FailRead => s.feature == found && found.state == PrCreating
       case FailWrite(read) => s.feature == read == found && found.state == PrCreating
       case NoteFailure => s.feature == Row(PrCreationFailed, found.version + 1)
       case Ended(result) => result == GaveUp && s.feature == Row(PrCreationFailed, found.version + 1)
       case _ => false
  }

  /**
   * After a failure of branch resolution, the push, the creation or the storing
   * of a created identity, three answers take the call to its end: the feature is
   * in PR_CREATION_FAILED, one version on, and nothing else has changed.
   */
  lemma ThrowsAreStored(s: State, landed: bool, pick: Number, answers: seq<Step>)
    requires s.call.Some? && IsCaught(s.call.value.pc) && s.feature.state == PrCreating
    requires |answers| >= 3 && AllAnswers(Next(s, Throw(landed, pick)), answers)
    ensures var thrown := Next(s, Throw(landed, pick));
      Run(thrown, answers) ==
      thrown.(feature := Row(PrCreationFailed, s.feature.version + 1),
              call := Some(Call(s.call.value.attempt, Ended(GaveUp))))
  {
    FailingIsStored(Next(s, Throw(landed, pick)), s.feature, answers);
  }

  lemma {:induction false} FailingIsStored(s: State, found: Row, answers: seq<Step>)
    requires IsFailing(s, found) && s.call.value.pc.FailRead? && AllAnswers(s, answers)
    ensures var after := Run(s, answers);
      && IsFailing(after, found) && after.call.value.attempt == s.call.value.attempt
      && after.prs == s.prs && after.rows == s.rows && after.outcomes == s.outcomes
      && (after.call.value.pc.Ended? || Remaining(after.call.value.pc) + |answers| <= 3)
  {
    if answers != [] {
      var init, last := answers[..|answers| - 1], answers[|answers| - 1];
      AnswersBefore(s, answers);
      FailingIsStored(s, found, init);
      FailingGoesOn(Run(s, init), found, last.pick);
    }
  }

  lemma AnswersBefore(s: State, answers: seq<Step>)
    requires answers != [] && AllAnswers(s, answers)
    ensures var init, last := answers[..|answers| - 1], answers[|answers| - 1];
      AllAnswers(s, init) && IsAnswer(Run(s, init), last)
  {
    var init, last := answers[..|answers| - 1], answers[|answers| - 1];
    forall i | 0 <= i < |init| ensures IsAnswer(Run(s, init[..i]), init[i]) {
      assert init[..i] == answers[..i] && init[i] == answers[i];
    }
    assert IsAnswer(Run(s, answers[..|answers| - 1]), answers[|answers| - 1]);
  }

  lemma FailingGoesOn(s: State, found: Row, pick: Number)
    requires IsFailing(s, found)
    ensures var after := Next(s, Proceed(pick));
      && IsFailing(after, found) && after.call.value.attempt == s.call.value.attempt
      && after.prs == s.prs && after.rows == s.rows && after.outcomes == s.outcomes
      && (after.call.value.pc.Ended? || Remaining(after.call.value.pc) < Remaining(s.call.value.pc))
  {}

  // ---------------------------------------------------------------------
  // Undisturbed calls
  // ---------------------------------------------------------------------

  datatype Await =
    | TheRecord | TheContext | TheRead | TheClaim | TheNote | TheBranch | ThePush | TheIdentity
    | TheStatus | TheSearch | TheCreation | TheStoring | TheCiRead | TheCiWrite | TheLastNote | TheOutcome | TheEnd

  function AwaitOf(pc: Pc): Await {
    match pc
    case CheckRecord => TheRecord case LoadContext => TheContext case CreatingRead => TheRead
    case CreatingWrite(_) => TheClaim case NoteCreating => TheNote case ResolveBranch => TheBranch
    case PushBranch => ThePush case LoadIdentity => TheIdentity case CheckStatus(_) => TheStatus
    case FindPr => TheSearch case CreatePr => TheCreation case PersistFound(_) => TheStoring
    case PersistCreated(_) => TheStoring case CiRead(_) => TheCiRead case CiWrite(_, _) => TheCiWrite
    case NoteCreated(_) => TheLastNote case RecordOutcome(_) => TheOutcome
    case FailRead => TheEnd case FailWrite(_) => TheEnd case NoteFailure => TheEnd case Ended(_) => TheEnd
  }

  /** What an undisturbed call waits for, one after the other: nothing is skipped, and nothing is done twice. */
  function Course(before: State): seq<Await> {
    [TheRecord, TheContext]
    + (if before.feature.state == DevelopmentComplete then [TheRead, TheClaim, TheNote] else [])
    + [TheBranch, ThePush, TheIdentity]
    + (if before.rows != [] then [TheStatus]
       else if before.prs != {} then [TheSearch, TheStoring] else [TheSearch, TheCreation, TheStoring])
    + [TheCiRead, TheCiWrite, TheLastNote, TheOutcome]
  }

  function CourseAt(before: State, k: nat): Await { if k < |Course(before)| then Course(before)[k] else TheEnd }

  predicate IsAs(before: State, s: State, row: Row) { s.(call := None) == before.(call := None, feature := row) }

  /** What the call has changed by then. */
  ghost predicate HasDone(before: State, s: State, attempt: AttemptId) {
    && s.call.Some? && s.call.value.attempt == attempt && attempt !in before.outcomes
    && var complete := before.feature.state == DevelopmentComplete;
    match s.call.value.pc
    case CheckRecord | LoadContext => IsAs(before, s, before.feature)
    case CreatingRead => IsAs(before, s, before.feature) && complete
    case CreatingWrite(read) => IsAs(before, s, before.feature) && complete && read == before.feature
    case NoteCreating => IsAs(before, s, Claimed(before)) && complete
    case ResolveBranch | PushBranch | LoadIdentity => IsAs(before, s, Claimed(before))
    case CheckStatus(number) => IsAs(before, s, Claimed(before)) && number in before.rows
    case FindPr => IsAs(before, s, Claimed(before)) && before.rows == []
    case CreatePr => IsAs(before, s, Claimed(before)) && before.rows == [] && before.prs == {}
    case PersistFound(number) => IsAs(before, s, Claimed(before)) && before.rows == [] && number in before.prs
    case PersistCreated(number) =>
      IsAs(before.(prs := {number}), s, Claimed(before)) && before.rows == [] && before.prs == {}
    case CiRead(number) => IsIdentified(before, s, number, Claimed(before))
    case CiWrite(number, read) => IsIdentified(before, s, number, Claimed(before)) && read == Claimed(before)
    case NoteCreated(number) => IsIdentified(before, s, number, Finished(before))
    case RecordOutcome(number) => IsIdentified(before, s, number, Finished(before))
    case Ended(result) =>
      && result.Completed? && s.outcomes == before.outcomes[attempt := result.number]
      && IsIdentified(before, s.(outcomes := before.outcomes), result.number, Finished(before))
    case FailRead => false case FailWrite(_) => false case NoteFailure => false
  }

  /** The row once it is in PR_CREATING. */
  function Claimed(before: State): Row {
    if before.feature.state == DevelopmentComplete then Row(PrCreating, before.feature.version + 1) else before.feature
  }

  function Finished(before: State): Row { Row(CiRunning, Claimed(before).version + 1) }

  /** The pull request that was there, or else the one created; its identity stored unless one was. */
  predicate IsIdentified(before: State, s: State, number: Number, row: Row) {
    && s.feature == row && s.outcomes == before.outcomes
    && s.prs == (if before.prs == {} then {number} else before.prs) && number in s.prs
    && s.rows == (if before.rows == [] then [number] else before.rows)
  }

  lemma {:induction false} FollowsCourse(before: State, s: State, attempt: AttemptId, answers: seq<Step>)
    requires Inv(before) && attempt !in before.outcomes
    requires before.feature.state == DevelopmentComplete || before.feature.state == PrCreating
    requires s == before.(call := Some(Call(attempt, CheckRecord))) && AllAnswers(s, answers)
    ensures var after := Run(s, answers);
      && HasDone(before, after, attempt)
      && AwaitOf(after.call.value.pc) == CourseAt(before, |answers|)
  {
    if answers != [] {
      var init, last := answers[..|answers| - 1], answers[|answers| - 1];
      AnswersBefore(s, answers);
      FollowsCourse(before, s, attempt, init);
      GoesOn(before, Run(s, init), attempt, last.pick);
      CourseIsRegular(before, Run(s, init), attempt);
      AwaitsFollow(before, Run(s, init), Run(s, init).call.value, last.pick);
      CourseFollows(before, |init|);
    }
  }

  lemma GoesOn(before: State, s: State, attempt: AttemptId, pick: Number)
    requires Inv(before) && HasDone(before, s, attempt) && CanAnswer(s, s.call.value.pc, pick)
    requires before.feature.state == DevelopmentComplete || before.feature.state == PrCreating
    ensures HasDone(before, Next(s, Proceed(pick)), attempt)
  {
    if Remaining(s.call.value.pc) > 9 { GoesOnEarly(before, s, attempt, pick); }
  }

  lemma GoesOnEarly(before: State, s: State, attempt: AttemptId, pick: Number)
    requires Inv(before) && HasDone(before, s, attempt) && CanAnswer(s, s.call.value.pc, pick)
    requires before.feature.state == DevelopmentComplete || before.feature.state == PrCreating
    requires Remaining(s.call.value.pc) > 9
    ensures HasDone(before, Next(s, Proceed(pick)), attempt)
  {}

  /** What follows on an await. */
  function Following(before: State, await: Await): Await {
    match await
    case TheRecord => TheContext
    case TheContext => if before.feature.state == DevelopmentComplete then TheRead else TheBranch
    case TheRead => TheClaim case TheClaim => TheNote case TheNote => TheBranch
    case TheBranch => ThePush case ThePush => TheIdentity
    case TheIdentity => if before.rows != [] then TheStatus else TheSearch
    case TheSearch => if before.prs != {} then TheStoring else TheCreation
    case TheCreation => TheStoring
    case TheStatus => TheCiRead case TheStoring => TheCiRead case TheCiRead => TheCiWrite
    case TheCiWrite => TheLastNote case TheLastNote => TheOutcome
    case TheOutcome => TheEnd case TheEnd => TheEnd
  }

  /** What the next await depends on is as it was. */
  predicate IsRegular(before: State, s: State, call: Call) {
    match call.pc
    case CheckRecord => call.attempt !in s.outcomes
    case LoadContext => s.feature == before.feature
    case CreatingRead => s.feature.state == DevelopmentComplete
    case CreatingWrite(read) => s.feature == read
    case LoadIdentity => s.rows == before.rows
    case FindPr => s.prs == before.prs
    case CiRead(_) => s.feature.state == PrCreating
    case FailRead => false case FailWrite(_) => false case NoteFailure => false
    case _ => true
  }

  lemma CourseIsRegular(before: State, s: State, attempt: AttemptId)
    requires HasDone(before, s, attempt)
    requires before.feature.state == DevelopmentComplete || before.feature.state == PrCreating
    ensures IsRegular(before, s, s.call.value)
  {}

  lemma AwaitsFollow(before: State, s: State, call: Call, pick: Number)
    requires IsRegular(before, s, call)
    requires before.feature.state == DevelopmentComplete || before.feature.state == PrCreating
    ensures AwaitOf(Continue(s, call, pick)) == Following(before, AwaitOf(call.pc))
  {
    if Remaining(call.pc) > 9 { EarlyAwaitsFollow(before, s, call, pick); }
  }

  lemma EarlyAwaitsFollow(before: State, s: State, call: Call, pick: Number)
    requires IsRegular(before, s, call) && Remaining(call.pc) > 9
    requires before.feature.state == DevelopmentComplete || before.feature.state == PrCreating
    ensures AwaitOf(Continue(s, call, pick)) == Following(before, AwaitOf(call.pc))
  {}

  lemma CourseFollows(before: State, k: nat)
    ensures CourseAt(before, k + 1) == Following(before, CourseAt(before, k))
  {
    var first := if before.feature.state == DevelopmentComplete then 8 else 5;
    var course := Course(before);
    assert course[..first][first - 1] == TheIdentity;
    if k < first {
    } else {
    }
  }

  /**
   * After any run a call that nothing disturbs waits for exactly these answers in
   * this order, and leaves exactly this behind: the feature in CI_RUNNING, the
   * pull request that was there or a new one, its identity stored unless one was,
   * and its number recorded and reported.
   */
  lemma UndisturbedCallsDoSo(start: State, steps: seq<Step>, attempt: AttemptId, answers: seq<Step>)
    requires IsStart(start)
    requires var s := Run(start, steps);
      && (s.call.None? || s.call.value.pc.Ended?) && attempt !in s.outcomes
      && (s.feature.state == DevelopmentComplete || s.feature.state == PrCreating)
    requires AllAnswers(Next(Run(start, steps), Begin(attempt)), answers)
    ensures var before := Run(start, steps);
      var after := Run(Next(before, Begin(attempt)), answers);
      && after.call.Some? && AwaitOf(after.call.value.pc) == CourseAt(before, |answers|)
      && (|answers| >= |Course(before)| ==>
            && after.call.value.pc.Ended? && after.call.value.pc.result.Completed?
            && var n := after.call.value.pc.result.number;
               after == State(if before.prs == {} then {n} else before.prs,
                              if before.rows == [] then [n] else before.rows,
                              before.outcomes[attempt := n], Finished(before),
                              Some(Call(attempt, Ended(Completed(n))))))
  {
    EveryRunKeepsInv(start, steps);
    FollowsCourse(Run(start, steps), Next(Run(start, steps), Begin(attempt)), attempt, answers);
  }

  /** A call that died is gone: the next one can begin, and if nothing disturbs it, it completes the handoff. */
  lemma RecoversFromDeath(start: State, steps: seq<Step>, attempt: AttemptId, answers: seq<Step>)
    requires IsStart(start)
    requires var s := Run(start, steps); s.feature.state == DevelopmentComplete || s.feature.state == PrCreating
    requires |answers| >= 17 && AllAnswers(Next(Run(start, steps + [Crash]), Begin(attempt)), answers)
    ensures Run(start, steps + [Crash]) == Run(start, steps).(call := None)
    ensures var after := Run(Next(Run(start, steps + [Crash]), Begin(attempt)), answers);
      && after.feature.state == CiRunning
      && attempt in after.outcomes && after.prs == {after.outcomes[attempt]}
      && after.call == Some(Call(attempt, Ended(Completed(after.outcomes[attempt]))))
  {
    assert (steps + [Crash])[..|steps|] == steps;
    NextCallRecovers(start, steps + [Crash], attempt, answers);
  }

  // ---------------------------------------------------------------------
  // Versions
  // ---------------------------------------------------------------------

  /** How often the feature's row was changed. */
  ghost function Changes(start: State, steps: seq<Step>): nat {
    if steps == [] then 0
    else
      var init := steps[..|steps| - 1];
      Changes(start, init) + if Run(start, steps).feature != Run(start, init).feature then 1 else 0
  }

  /** The version counts the changes of the feature's row, whoever made them. */
  lemma {:induction false} VersionsCountChanges(start: State, steps: seq<Step>)
    ensures Run(start, steps).feature.version == start.feature.version + Changes(start, steps)
  {
    if steps != [] {
      VersionsCountChanges(start, steps[..|steps| - 1]);
      ChangesCount(Run(start, steps[..|steps| - 1]), steps[|steps| - 1]);
    }
  }

  lemma ChangesCount(s: State, step: Step)
    ensures Next(s, step).feature == s.feature || Next(s, step).feature.version == s.feature.version + 1
  {}
}
