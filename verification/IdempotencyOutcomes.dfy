// How every call of mutation execution ends, over all runs: which calls return,
// with what, which throw, and that none is stuck.
module IdempotencyOutcomes {
  import opened Wrappers
  import opened Idempotency

  // ---------------------------------------------------------------------
  // What has happened to a call
  // ---------------------------------------------------------------------

  /** One of the call's own awaits fails: a load or the mutation throws, or the insert is lost or not answered. */
  predicate Breaks(s: State, step: Step, c: CallId) {
    && c in s.calls
    && match s.calls[c].pc
       case LoadSent | RecheckSent | RunStarted | WinnerSent => step == Break(c)
       case InsertSent(_) => step.Insert? && step.c == c && step.fault != NoFault
       case _ => false
  }

  predicate WasBroken(steps: seq<Step>, c: CallId) {
    steps != [] && var init := steps[..|steps| - 1]; WasBroken(init, c) || Breaks(Run(init), steps[|steps| - 1], c)
  }

  /** The call's insert finds the key unused and stores the result. */
  predicate Stores(s: State, step: Step, c: CallId) {
    && c in s.calls && s.calls[c].pc.InsertSent? && s.calls[c].key !in s.records
    && step.Insert? && step.c == c && step.fault != Lost
  }

  predicate HasStored(steps: seq<Step>, c: CallId) {
    steps != [] && var init := steps[..|steps| - 1]; HasStored(init, c) || Stores(Run(init), steps[|steps| - 1], c)
  }

  /** The record under the call's key is another mutation's, or holds no data. */
  predicate IsForeign(s: State, call: Call) {
    call.key in s.records && Loaded(s.records[call.key], call.namespace) == None
  }

  predicate IsDone(pc: Pc, data: Data) { (pc.OpDone? || pc.Returned?) && pc.data == data }

  predicate HasFailed(pc: Pc) { pc.OpFailed? || pc.Threw? }

  /** Where a call can be, given what has happened to it. */
  predicate Fits(s: State, call: Call, broken: bool, stored: bool) {
    match call.pc
    case InsertDone(_) => !broken && stored
    case OpDone(_, idempotent) => !broken && (idempotent <==> !stored)
    case OpFailed => broken || IsForeign(s, call)
    case Returned(data, idempotent, None) => !broken && (idempotent <==> !stored)
    case Threw(None) => broken || IsForeign(s, call)
    case Returned(data, idempotent, Some(o)) =>
      !broken && !stored && idempotent && o in s.calls && IsDone(s.calls[o].pc, data)
    case Threw(Some(o)) => !broken && !stored && o in s.calls && HasFailed(s.calls[o].pc)
    case _ => !broken && !stored
  }

  /** A step of the call itself. */
  predicate IsOwn(step: Step, c: CallId) {
    match step
    case Start(_, _, _, _) | ForeignInsert(_, _) => false
    case _ => step.c == c
  }

  lemma OthersLeaveCall(s: State, step: Step, c: CallId)
    requires c in s.calls && !IsOwn(step, c)
    ensures c in Next(s, step).calls && Next(s, step).calls[c] == s.calls[c]
    ensures !Breaks(s, step, c) && !Stores(s, step, c)
  {}

  lemma RecordsStay(s: State, step: Step, key: Key)
    requires key in s.records
    ensures key in Next(s, step).records && Next(s, step).records[key] == s.records[key]
  {}

  /** A call that is done or has failed stays so, and keeps its data. */
  lemma OwnersStayDecided(s: State, step: Step, o: CallId)
    requires o in s.calls
    ensures o in Next(s, step).calls
    ensures HasFailed(s.calls[o].pc) ==> HasFailed(Next(s, step).calls[o].pc)
    ensures s.calls[o].pc.OpDone? || s.calls[o].pc.Returned? ==> IsDone(Next(s, step).calls[o].pc, s.calls[o].pc.data)
  {
    if !IsOwn(step, o) { OthersLeaveCall(s, step, o); }
  }

  lemma OtherStepFits(s: State, step: Step, c: CallId, broken: bool, stored: bool)
    requires c in s.calls && !IsOwn(step, c) && Fits(s, s.calls[c], broken, stored)
    ensures c in Next(s, step).calls && Fits(Next(s, step), Next(s, step).calls[c], broken, stored)
  {
    OthersLeaveCall(s, step, c);
    var call := s.calls[c];
    if call.key in s.records { RecordsStay(s, step, call.key); }
    if Settled(call.pc) && call.pc.joined.Some? { OwnersStayDecided(s, step, call.pc.joined.value); }
  }

  lemma ResumeFits(s: State, c: CallId, broken: bool, stored: bool)
    requires Inv(s) && c in s.calls && Fits(s, s.calls[c], broken, stored)
    ensures Fits(ResumeStep(s, c), ResumeStep(s, c).calls[c], broken, stored)
  {
    var call := s.calls[c];
    assert Knows(s, call) && JoinedWell(s, call);
    if call.pc.Joined? {
      assert Knows(s, s.calls[call.pc.owner]);
    } else if Settled(call.pc) {
      assert ResumedPc(s, c) == call.pc;
      if call.pc.joined.Some? { OwnersStayDecided(s, Resume(c), call.pc.joined.value); }
    }
  }

  lemma OwnStepFits(s: State, step: Step, c: CallId, broken: bool, stored: bool)
    requires Inv(s) && c in s.calls && IsOwn(step, c) && Fits(s, s.calls[c], broken, stored)
    ensures c in Next(s, step).calls
    ensures Fits(Next(s, step), Next(s, step).calls[c], broken || Breaks(s, step, c), stored || Stores(s, step, c))
  {
    if step.Resume? {
      ResumeFits(s, c, broken, stored);
    } else if Next(s, step) != s {
      assert Knows(s, s.calls[c]);
    }
  }

  lemma {:induction false} EveryCallFits(steps: seq<Step>, c: CallId)
    ensures c in Run(steps).calls ==>
      Fits(Run(steps), Run(steps).calls[c], WasBroken(steps, c), HasStored(steps, c))
    ensures c !in Run(steps).calls ==> !WasBroken(steps, c) && !HasStored(steps, c)
  {
    if steps != [] {
      var init, last := steps[..|steps| - 1], steps[|steps| - 1];
      var s := Run(init);
      EveryCallFits(init, c);
      EveryRunKeepsInv(init);
      if c in s.calls {
        if IsOwn(last, c) {
          OwnStepFits(s, last, c, WasBroken(init, c), HasStored(init, c));
        } else {
          OthersLeaveCall(s, last, c);
          OtherStepFits(s, last, c, WasBroken(init, c), HasStored(init, c));
        }
      }
    }
  }

  // ---------------------------------------------------------------------
  // How calls end
  // ---------------------------------------------------------------------

  /**
   * A call that ended of itself threw if and only if one of its awaits failed or
   * its key holds another mutation's record; otherwise it returned the data
   * stored for it, as repeated if and only if its own insert did not store them.
   * A call that joined another threw if and only if that one failed; otherwise it
   * returned that one's data, as repeated.
   */
  lemma EveryCallEndsSo(steps: seq<Step>, c: CallId)
    requires c in Run(steps).calls && Settled(Run(steps).calls[c].pc)
    ensures var s := Run(steps);
      var call := s.calls[c];
      match call.pc.joined
      case None =>
        && (call.pc.Threw? <==> WasBroken(steps, c) || IsForeign(s, call))
        && (call.pc.Returned? ==>
              && call.key in s.records && Loaded(s.records[call.key], call.namespace) == Some(call.pc.data)
              && (call.pc.idempotent <==> !HasStored(steps, c)))
      case Some(o) =>
        && o in s.calls && SameSlot(s.calls[o], call)
        && (call.pc.Threw? <==> HasFailed(s.calls[o].pc))
        && (call.pc.Returned? ==> IsDone(s.calls[o].pc, call.pc.data) && call.pc.idempotent)
  {
    EveryCallFits(steps, c);
    EveryRunKeepsInv(steps);
    var s := Run(steps);
    assert Knows(s, s.calls[c]);
    JoinedCallsShareKeys(steps, c);
  }

  predicate KeyFits(s: State, call: Call) {
    Settled(call.pc) && call.pc.joined.Some? ==>
      call.pc.joined.value in s.calls && SameSlot(s.calls[call.pc.joined.value], call)
  }

  lemma CallsKeepKeys(s: State, step: Step, c: CallId)
    requires c in s.calls
    ensures c in Next(s, step).calls && SameSlot(Next(s, step).calls[c], s.calls[c])
    ensures Next(s, step).calls[c].namespace == s.calls[c].namespace
  {}

  /** A call that ended with another had joined it in its own instance under its own key. */
  lemma {:induction false} JoinedCallsShareKeys(steps: seq<Step>, c: CallId)
    requires c in Run(steps).calls
    ensures KeyFits(Run(steps), Run(steps).calls[c])
  {
    var init := steps[..|steps| - 1];
    var s, last := Run(init), steps[|steps| - 1];
    EveryRunKeepsInv(init);
    if c in s.calls {
      JoinedCallsShareKeys(init, c);
      KeyStaysFit(s, last, c);
    }
  }

  lemma KeyStaysFit(s: State, step: Step, c: CallId)
    requires Inv(s) && c in s.calls && KeyFits(s, s.calls[c])
    ensures c in Next(s, step).calls && KeyFits(Next(s, step), Next(s, step).calls[c])
  {
    var call := s.calls[c];
    CallsKeepKeys(s, step, c);
    assert JoinedWell(s, call);
    if Settled(call.pc) {
      SettledStays(s, step, c);
      if call.pc.joined.Some? { CallsKeepKeys(s, step, call.pc.joined.value); }
    } else if call.pc.Joined? {
      CallsKeepKeys(s, step, call.pc.owner);
    }
  }

  lemma SettledStays(s: State, step: Step, c: CallId)
    requires c in s.calls && Settled(s.calls[c].pc)
    ensures c in Next(s, step).calls && Next(s, step).calls[c] == s.calls[c]
  {
    if !IsOwn(step, c) { OthersLeaveCall(s, step, c); }
  }

  // ---------------------------------------------------------------------
  // Who stores, and who is told that it did
  // ---------------------------------------------------------------------

  lemma {:induction false} StoredIsKept(steps: seq<Step>, c: CallId)
    requires HasStored(steps, c)
    ensures c in Run(steps).calls && Run(steps).calls[c].key in Run(steps).records
  {
    var init, last := steps[..|steps| - 1], steps[|steps| - 1];
    if HasStored(init, c) {
      StoredIsKept(init, c);
      RecordsStay(Run(init), last, Run(init).calls[c].key);
    } else {
      StoringStores(Run(init), last, c);
    }
    CallsKeepKeys(Run(init), last, c);
  }

  lemma StoringStores(s: State, step: Step, c: CallId)
    requires Stores(s, step, c)
    ensures s.calls[c].key in Next(s, step).records
  {}

  /** Of all calls of all instances with one key, at most one stores its result. */
  lemma {:induction false} OneCallStores(steps: seq<Step>, c: CallId, d: CallId)
    requires HasStored(steps, c) && HasStored(steps, d)
    requires c in Run(steps).calls && d in Run(steps).calls && Run(steps).calls[c].key == Run(steps).calls[d].key
    ensures c == d
  {
    var init, last := steps[..|steps| - 1], steps[|steps| - 1];
    if HasStored(init, c) { StoredIsKept(init, c); }
    if HasStored(init, d) { StoredIsKept(init, d); }
    CallsKeepKeys(Run(init), last, c);
    CallsKeepKeys(Run(init), last, d);
    if HasStored(init, c) && HasStored(init, d) { OneCallStores(init, c, d); }
  }

  /** So at most one of them is told that its call was not a repetition. */
  lemma OneAnswerIsFresh(steps: seq<Step>, c: CallId, d: CallId)
    requires var calls := Run(steps).calls;
      && c in calls && calls[c].pc.Returned? && !calls[c].pc.idempotent
      && d in calls && calls[d].pc.Returned? && !calls[d].pc.idempotent && calls[c].key == calls[d].key
    ensures c == d
  {
    EveryCallEndsSo(steps, c);
    EveryCallEndsSo(steps, d);
    OneCallStores(steps, c, d);
  }

  /** A call that owns an operation, or has ended of itself. */
  predicate IsOnItsOwn(pc: Pc) { Owns(pc) || (Settled(pc) && pc.joined.None?) }

  lemma StaysOnItsOwn(s: State, step: Step, c: CallId)
    requires c in s.calls && IsOnItsOwn(s.calls[c].pc)
    ensures c in Next(s, step).calls && IsOnItsOwn(Next(s, step).calls[c].pc)
  {
    if !IsOwn(step, c) { OthersLeaveCall(s, step, c); }
  }

  lemma {:induction false} LatecomersNeverStore(steps: seq<Step>, k: nat, c: CallId)
    requires k <= |steps| && c in Run(steps[..k]).calls && IsOnItsOwn(Run(steps[..k]).calls[c].pc)
    requires Run(steps[..k]).calls[c].key in Run(steps[..k]).records && !HasStored(steps[..k], c)
    ensures !HasStored(steps, c) && c in Run(steps).calls && IsOnItsOwn(Run(steps).calls[c].pc)
    ensures var call := Run(steps[..k]).calls[c];
      && SameSlot(Run(steps).calls[c], call) && Run(steps).calls[c].namespace == call.namespace
      && call.key in Run(steps).records && Run(steps).records[call.key] == Run(steps[..k]).records[call.key]
    decreases |steps|
  {
    if k < |steps| {
      var init, last := steps[..|steps| - 1], steps[|steps| - 1];
      assert init[..k] == steps[..k];
      LatecomersNeverStore(init, k, c);
      CallsKeepKeys(Run(init), last, c);
      RecordsStay(Run(init), last, Run(init).calls[c].key);
      StaysOnItsOwn(Run(init), last, c);
    } else {
      assert steps[..k] == steps;
    }
  }

  /**
   * A call whose insert finds its key stored for its own mutation by another in
   * the meantime returns what that one stored, as repeated.
   */
  lemma LosersGetTheWinnersData(steps: seq<Step>, k: nat, c: CallId, data: Data)
    requires k <= |steps|
    requires var s := Run(steps[..k]);
      && c in s.calls && s.calls[c].pc.InsertSent? && s.calls[c].key in s.records
      && Loaded(s.records[s.calls[c].key], s.calls[c].namespace) == Some(data)
    requires c in Run(steps).calls && Settled(Run(steps).calls[c].pc) && !WasBroken(steps, c)
    ensures Run(steps).calls[c].pc == Returned(data, true, None)
  {
    EveryCallFits(steps[..k], c);
    LatecomersNeverStore(steps, k, c);
    EveryCallEndsSo(steps, c);
  }

  // ---------------------------------------------------------------------
  // Repeated calls
  // ---------------------------------------------------------------------

  /** The call starts at step `i`, and its key is stored already. */
  predicate StartsLate(steps: seq<Step>, i: nat, c: CallId) {
    && i < |steps| && steps[i].Start? && steps[i].c == c
    && c !in Run(steps[..i]).calls && steps[i].key in Run(steps[..i]).records
  }

  /** Such a call waits for its load, or has been answered from the record. */
  predicate IsLate(s: State, c: CallId, record: Record) {
    && c in s.calls && Lookup(s, s.calls[c].key) == Some(record) && c !in s.ran
    && (forall slot :: slot in s.inFlight ==> s.inFlight[slot] != c)
    && (s.calls[c].pc in {LoadSent, LoadReturned(Some(record)), Threw(None)} ||
        (record.data.Some? && s.calls[c].pc == Returned(record.data.value, true, None)))
  }

  lemma LateStays(s: State, step: Step, c: CallId, record: Record)
    requires Inv(s) && IsLate(s, c, record)
    ensures IsLate(Next(s, step), c, record)
  {
    var after := Next(s, step);
    RecordsStay(s, step, s.calls[c].key);
    CallsKeepKeys(s, step, c);
    if !IsOwn(step, c) { OthersLeaveCall(s, step, c); }
  }

  /**
   * A call that starts once its key is stored never runs its mutation, never has
   * an operation in flight and joins none: its load alone decides.
   */
  lemma {:induction false} LateCallsOnlyLoad(steps: seq<Step>, i: nat, c: CallId)
    requires StartsLate(steps, i, c)
    ensures IsLate(Run(steps), c, Run(steps[..i]).records[steps[i].key])
    ensures Run(steps).calls[c] == Call(steps[i].inst, steps[i].key, steps[i].namespace, Run(steps).calls[c].pc)
  {
    var init := steps[..|steps| - 1];
    EveryRunKeepsInv(init);
    if i < |init| {
      assert init[..i] == steps[..i];
      LateCallsOnlyLoad(init, i, c);
      LateStays(Run(init), steps[|steps| - 1], c, Run(steps[..i]).records[steps[i].key]);
      CallsKeepKeys(Run(init), steps[|steps| - 1], c);
    } else {
      assert init == steps[..i];
      RanAreCalls(init);
      NewCallIsLate(Run(init), steps[i]);
    }
  }

  lemma NewCallIsLate(s: State, step: Step)
    requires Inv(s) && step.Start? && step.c !in s.calls && step.key in s.records && s.ran <= s.calls.Keys
    ensures IsLate(Next(s, step), step.c, s.records[step.key])
  {}

  lemma {:induction false} RanAreCalls(steps: seq<Step>)
    ensures Run(steps).ran <= Run(steps).calls.Keys
  {
    if steps != [] {
      RanAreCalls(steps[..|steps| - 1]);
      StepRunsCalls(Run(steps[..|steps| - 1]), steps[|steps| - 1]);
    }
  }

  lemma StepRunsCalls(s: State, step: Step)
    requires s.ran <= s.calls.Keys
    ensures Next(s, step).ran <= Next(s, step).calls.Keys
  {
    forall c | c in s.calls ensures c in Next(s, step).calls { CallsKeepKeys(s, step, c); }
    StepRunsOnlyItsCall(s, step);
  }

  lemma StepRunsOnlyItsCall(s: State, step: Step)
    ensures Next(s, step).ran == s.ran
         || (step.FinishRun? && step.c in s.calls && Next(s, step).ran == s.ran + {step.c})
  {}

  /**
   * If it is the call's own record, the load is answered and the call resumed,
   * then it has returned the stored data, as repeated, and ran nothing.
   */
  lemma RepeatedCallsAreAnswered(steps: seq<Step>, i: nat, a: nat, r: nat, c: CallId, data: Data)
    requires StartsLate(steps, i, c) && i < a < r < |steps| && steps[a] == Answer(c) && steps[r] == Resume(c)
    requires Loaded(Run(steps[..i]).records[steps[i].key], steps[i].namespace) == Some(data) && !WasBroken(steps, c)
    ensures c in Run(steps).calls && Run(steps).calls[c].pc == Returned(data, true, None) && c !in Run(steps).ran
  {
    LateCallsOnlyLoad(steps, i, c);
    LeavesLoadSent(steps, i, a, c);
    LeavesLoadReturned(steps, i, a, r, c);
    EveryCallEndsSo(steps, c);
  }

  lemma LateAt(steps: seq<Step>, i: nat, k: nat, c: CallId)
    requires StartsLate(steps, i, c) && i < k <= |steps|
    ensures IsLate(Run(steps[..k]), c, Run(steps[..i]).records[steps[i].key])
  {
    assert steps[..k][..i] == steps[..i];
    LateCallsOnlyLoad(steps[..k], i, c);
  }

  lemma RunStepAt(steps: seq<Step>, k: nat)
    requires k < |steps|
    ensures Run(steps[..k + 1]) == Next(Run(steps[..k]), steps[k])
  {
    assert steps[..k + 1][..k] == steps[..k];
  }

  /** An answered load stays answered. */
  lemma LoadIsAnswered(s: State, step: Step, c: CallId)
    requires c in s.calls && (s.calls[c].pc != LoadSent || step == Answer(c))
    ensures c in Next(s, step).calls && Next(s, step).calls[c].pc != LoadSent
  {
    if !IsOwn(step, c) { OthersLeaveCall(s, step, c); }
  }

  lemma LateEnds(s: State, c: CallId, record: Record)
    requires IsLate(s, c, record) && s.calls[c].pc != LoadSent
    ensures c in Next(s, Resume(c)).calls && Settled(Next(s, Resume(c)).calls[c].pc)
  {}

  lemma {:induction false} LeavesLoadSent(steps: seq<Step>, i: nat, a: nat, c: CallId)
    requires StartsLate(steps, i, c) && i < a < |steps| && steps[a] == Answer(c)
    ensures c in Run(steps).calls && Run(steps).calls[c].pc != LoadSent
    decreases |steps|
  {
    var n := |steps| - 1;
    assert steps[..n + 1] == steps;
    RunStepAt(steps, n);
    LateAt(steps, i, n, c);
    if a < n {
      assert steps[..n][..i] == steps[..i];
      LeavesLoadSent(steps[..n], i, a, c);
    }
    LoadIsAnswered(Run(steps[..n]), steps[n], c);
  }

  lemma LeavesLoadReturned(steps: seq<Step>, i: nat, a: nat, r: nat, c: CallId)
    requires StartsLate(steps, i, c) && i < a < r < |steps| && steps[a] == Answer(c) && steps[r] == Resume(c)
    ensures c in Run(steps).calls && Settled(Run(steps).calls[c].pc)
  {
    assert steps[..r][..i] == steps[..i];
    LeavesLoadSent(steps[..r], i, a, c);
    LateAt(steps, i, r, c);
    LateEnds(Run(steps[..r]), c, Run(steps[..i]).records[steps[i].key]);
    RunStepAt(steps, r);
    SettledForGood(steps, r + 1, c);
  }

  lemma {:induction false} SettledForGood(steps: seq<Step>, n: nat, c: CallId)
    requires n <= |steps| && c in Run(steps[..n]).calls && Settled(Run(steps[..n]).calls[c].pc)
    ensures c in Run(steps).calls && Run(steps).calls[c] == Run(steps[..n]).calls[c]
    decreases |steps|
  {
    if n < |steps| {
      var init := steps[..|steps| - 1];
      assert init[..n] == steps[..n];
      SettledForGood(init, n, c);
      SettledStays(Run(init), steps[|steps| - 1], c);
    } else {
      assert steps[..n] == steps;
    }
  }

  // ---------------------------------------------------------------------
  // No call is stuck
  // ---------------------------------------------------------------------

  /** How many of its own awaits a call has before it at most. */
  function Remaining(pc: Pc): nat {
    match pc
    case LoadSent => 11 case LoadReturned(_) => 10 case Joined(_) => 1
    case RecheckSent => 9 case RecheckReturned(_) => 8 case RunStarted => 7 case RunReturned(_) => 6
    case InsertSent(_) => 5 case InsertDone(_) => 2 case InsertConflicted => 4
    case WinnerSent => 3 case WinnerReturned(_) => 2 case OpDone(_, _) => 1 case OpFailed => 1
    case Returned(_, _, _) => 0 case Threw(_) => 0
  }

  predicate IsUnderway(pc: Pc) { Owns(pc) && !pc.OpDone? && !pc.OpFailed? }

  /** The call waits for one that is still at work. */
  predicate IsWaiting(s: State, call: Call) {
    call.pc.Joined? && (call.pc.owner in s.calls ==> IsUnderway(s.calls[call.pc.owner].pc))
  }

  /** The call's await ends with this step, in whatever way. */
  predicate EndsAwait(s: State, step: Step, c: CallId)
    requires c in s.calls
  {
    match s.calls[c].pc
    case LoadSent | RecheckSent | WinnerSent => step == Answer(c) || step == Break(c)
    case RunStarted => (step.FinishRun? && step.c == c) || step == Break(c)
    case InsertSent(_) => step.Insert? && step.c == c
    case Returned(_, _, _) | Threw(_) => false
    case _ => step == Resume(c) && !IsWaiting(s, s.calls[c])
  }

  /** Every await that ends, well or badly, takes the call on; it never goes back to an earlier one. */
  lemma AwaitsLeadOn(s: State, step: Step, c: CallId)
    requires Inv(s) && c in s.calls && EndsAwait(s, step, c)
    ensures c in Next(s, step).calls && Remaining(Next(s, step).calls[c].pc) < Remaining(s.calls[c].pc)
  {
    if step.Resume? { ResumingLeadsOn(s, c); }
  }

  lemma ResumingLeadsOn(s: State, c: CallId)
    requires Inv(s) && c in s.calls && EndsAwait(s, Resume(c), c)
    ensures Remaining(ResumedPc(s, c)) < Remaining(s.calls[c].pc)
  {
    assert JoinedWell(s, s.calls[c]);
  }

  /** The answer that ends a call's await well. */
  function AnswerTo(pc: Pc, c: CallId): Step {
    match pc
    case LoadSent | RecheckSent | WinnerSent => Answer(c)
    case RunStarted => FinishRun(c, 0)
    case InsertSent(_) => Insert(c, NoFault)
    case _ => Resume(c)
  }

  predicate IsAnswer(step: Step) {
    match step
    case Answer(_) | FinishRun(_, _) | Resume(_) => true
    case Insert(_, fault) => fault == NoFault
    case _ => false
  }

  function WaitsFor(s: State, call: Call): nat {
    if call.pc.Joined? && call.pc.owner in s.calls then Remaining(s.calls[call.pc.owner].pc) else 0
  }

  /**
   * After any run, every call can be brought to its end by answers alone, to
   * itself or to the call that it has joined.
   */
  lemma {:induction false} EveryCallCanEnd(steps: seq<Step>, c: CallId) returns (more: seq<Step>)
    requires c in Run(steps).calls
    ensures c in Run(steps + more).calls && Settled(Run(steps + more).calls[c].pc)
    ensures forall i :: 0 <= i < |more| ==> IsAnswer(more[i])
    decreases Remaining(Run(steps).calls[c].pc), WaitsFor(Run(steps), Run(steps).calls[c])
  {
    var s := Run(steps);
    EveryRunKeepsInv(steps);
    if Settled(s.calls[c].pc) {
      more := [];
      assert steps + more == steps;
    } else {
      var step := AnswerFor(s, c);
      assert (steps + [step])[..|steps|] == steps;
      var rest := EveryCallCanEnd(steps + [step], c);
      more := [step] + rest;
      assert steps + more == steps + [step] + rest;
    }
  }

  lemma AnswerFor(s: State, c: CallId) returns (step: Step)
    requires Inv(s) && c in s.calls && !Settled(s.calls[c].pc)
    ensures IsAnswer(step) && c in Next(s, step).calls
    ensures var before, after := s.calls[c], Next(s, step).calls[c];
      Remaining(after.pc) < Remaining(before.pc)
      || (after.pc == before.pc && WaitsFor(Next(s, step), after) < WaitsFor(s, before))
  {
    assert JoinedWell(s, s.calls[c]);
    if IsWaiting(s, s.calls[c]) {
      var o := s.calls[c].pc.owner;
      step := AnswerTo(s.calls[o].pc, o);
      AwaitsLeadOn(s, step, o);
      OthersLeaveCall(s, step, c);
    } else {
      step := AnswerTo(s.calls[c].pc, c);
      AwaitsLeadOn(s, step, c);
    }
  }
}
