// Idempotent mutation execution: apps/api/src/mutations/idempotency.ts.
//
// Many callers in many instances share one table of records; each instance has
// its own map of operations in flight. A step is what happens at one await: the
// database or the mutation does its part, or a waiting call resumes and runs to
// its next await. Keys are the trimmed, non-empty ones; a call without a key
// runs its mutation directly and touches none of this state.
module Idempotency {
  import opened Wrappers

  type Key = string
  type Namespace = string
  type Data = int
  type Instance = nat
  type CallId = nat

  // A stored result; results written by other services may hold no data.
  datatype Record = Record(namespace: Namespace, data: Option<Data>)

  datatype Pc =
    | LoadSent
    | LoadReturned(row: Option<Record>)
    | Joined(owner: CallId)
    // from here on the call owns the operation in flight
    | RecheckSent
    | RecheckReturned(row: Option<Record>)
    | RunStarted
    | RunReturned(data: Data)
    | InsertSent(data: Data)
    | InsertDone(data: Data)
    | InsertConflicted
    | WinnerSent
    | WinnerReturned(row: Option<Record>)
    | OpDone(data: Data, idempotent: bool)
    | OpFailed
    // and here it has returned or thrown, of itself or as the call that it joined
    | Returned(data: Data, idempotent: bool, joined: Option<CallId>)
    | Threw(joined: Option<CallId>)

  datatype Call = Call(inst: Instance, key: Key, namespace: Namespace, pc: Pc)

  // `ran` collects the calls whose mutation has succeeded.
  datatype State = State(
    records: map<Key, Record>, inFlight: map<(Instance, Key), CallId>, calls: map<CallId, Call>, ran: set<CallId>)

  // What can go wrong with an insert besides a conflict.
  datatype Fault = NoFault | Lost | AnswerLost

  datatype Step =
    | Start(c: CallId, inst: Instance, key: Key, namespace: Namespace)
    | Answer(c: CallId)                       // the database answers a load
    | Break(c: CallId)                        // a load or the mutation throws
    | FinishRun(c: CallId, data: Data)        // the mutation succeeds
    | Insert(c: CallId, fault: Fault)         // the database handles the insert
    | Resume(c: CallId)                       // the call continues after its await
    | ForeignInsert(key: Key, record: Record) // another service stores a record

  function SetPc(s: State, c: CallId, pc: Pc): State
    requires c in s.calls
  {
    s.(calls := s.calls[c := s.calls[c].(pc := pc)])
  }

  function Lookup(s: State, key: Key): Option<Record> {
    if key in s.records then Some(s.records[key]) else None
  }

  /** load() on a row it found: the data, unless the record is another mutation's. */
  function Loaded(row: Record, namespace: Namespace): Option<Data> {
    if row.namespace == namespace then row.data else None
  }

  /** Where a call goes on after its await; one that still has to wait stays where it is. */
  function ResumedPc(s: State, c: CallId): Pc
    requires c in s.calls
  {
    var call := s.calls[c];
    var slot := (call.inst, call.key);
    match call.pc
    case LoadReturned(Some(row)) =>
      (match Loaded(row, call.namespace)
       case Some(data) => Returned(data, true, None)
       case None => Threw(None))
    case LoadReturned(None) => if slot in s.inFlight then Joined(s.inFlight[slot]) else RecheckSent
    case Joined(owner) => if owner in s.calls then JoinedPc(s.calls[owner].pc, owner) else call.pc
    case RecheckReturned(Some(row)) => ReloadedPc(row, call.namespace)
    case RecheckReturned(None) => RunStarted
    case RunReturned(data) => InsertSent(data)
    case InsertDone(data) => OpDone(data, false)
    case InsertConflicted => WinnerSent
    case WinnerReturned(Some(row)) => ReloadedPc(row, call.namespace)
    case WinnerReturned(None) => OpFailed
    case OpDone(data, idempotent) => Returned(data, idempotent, None)
    case OpFailed => Threw(None)
    case _ => call.pc
  }

  /** The await on the operation of another call: that call's result, without a look at its namespace. */
  function JoinedPc(pc: Pc, owner: CallId): Pc {
    match pc
    case OpDone(data, _) => Returned(data, true, Some(owner))
    case Returned(data, _, _) => Returned(data, true, Some(owner))
    case OpFailed => Threw(Some(owner))
    case Threw(_) => Threw(Some(owner))
    case _ => Joined(owner)
  }

  function ReloadedPc(row: Record, namespace: Namespace): Pc {
    match Loaded(row, namespace)
    case Some(data) => OpDone(data, true)
    case None => OpFailed
  }

  /** A call that found no record and no operation takes the slot, and gives it up when its operation is over. */
  function ResumedInFlight(s: State, c: CallId): map<(Instance, Key), CallId>
    requires c in s.calls
  {
    var call := s.calls[c];
    var slot := (call.inst, call.key);
    if call.pc == LoadReturned(None) && slot !in s.inFlight then s.inFlight[slot := c]
    else if call.pc.OpDone? || call.pc.OpFailed? then s.inFlight - {slot}
    else s.inFlight
  }

  function ResumeStep(s: State, c: CallId): State
    requires c in s.calls
  {
    SetPc(s, c, ResumedPc(s, c)).(inFlight := ResumedInFlight(s, c))
  }

  function InsertStep(s: State, c: CallId, fault: Fault): State
    requires c in s.calls && s.calls[c].pc.InsertSent?
  {
    var call := s.calls[c];
    var stored := s.records[call.key := Record(call.namespace, Some(call.pc.data))];
    if fault == Lost then SetPc(s, c, OpFailed)
    else if call.key in s.records then SetPc(s, c, if fault == NoFault then InsertConflicted else OpFailed)
    else SetPc(s, c, if fault == NoFault then InsertDone(call.pc.data) else OpFailed).(records := stored)
  }

  function Next(s: State, step: Step): State {
    match step
    case Start(c, inst, key, namespace) =>
      if c in s.calls then s else s.(calls := s.calls[c := Call(inst, key, namespace, LoadSent)])
    case ForeignInsert(key, record) =>
      if key in s.records then s else s.(records := s.records[key := record])
    case Answer(c) =>
      if c !in s.calls then s
      else (match s.calls[c].pc
        case LoadSent => SetPc(s, c, LoadReturned(Lookup(s, s.calls[c].key)))
        case RecheckSent => SetPc(s, c, RecheckReturned(Lookup(s, s.calls[c].key)))
        case WinnerSent => SetPc(s, c, WinnerReturned(Lookup(s, s.calls[c].key)))
        case _ => s)
    case Break(c) =>
      if c !in s.calls then s
      else (match s.calls[c].pc
        case LoadSent => SetPc(s, c, Threw(None))
        case RecheckSent => SetPc(s, c, OpFailed)
        case RunStarted => SetPc(s, c, OpFailed)
        case WinnerSent => SetPc(s, c, OpFailed)
        case _ => s)
    case FinishRun(c, data) =>
      if c in s.calls && s.calls[c].pc.RunStarted? then SetPc(s, c, RunReturned(data)).(ran := s.ran + {c}) else s
    case Insert(c, fault) =>
      if c in s.calls && s.calls[c].pc.InsertSent? then InsertStep(s, c, fault) else s
    case Resume(c) => if c in s.calls then ResumeStep(s, c) else s
  }

  const INITIAL: State := State(map[], map[], map[], {})

  function Run(steps: seq<Step>): State {
    if steps == [] then INITIAL else Next(Run(steps[..|steps| - 1]), steps[|steps| - 1])
  }

  // ---------------------------------------------------------------------
  // The invariant
  // ---------------------------------------------------------------------

  predicate Owns(pc: Pc) {
    match pc
    case LoadSent | LoadReturned(_) | Joined(_) => false
    case Returned(_, _, _) | Threw(_) => false
    case _ => true
  }

  predicate Settled(pc: Pc) { pc.Returned? || pc.Threw? }

  predicate Holds(s: State, key: Key, data: Data) {
    key in s.records && s.records[key].data == Some(data)
  }

  /**
   * The namespace under which the data of a returned call was loaded or stored:
   * its own, or that of the call it joined.
   */
  function NamespaceBehind(s: State, call: Call): Namespace
    requires call.pc.Returned? && (call.pc.joined.Some? ==> call.pc.joined.value in s.calls)
  {
    if call.pc.joined.Some? then s.calls[call.pc.joined.value].namespace else call.namespace
  }

  /** What a call knows about the table at each of its awaits. */
  predicate Knows(s: State, call: Call) {
    match call.pc
    case LoadReturned(Some(row)) => Lookup(s, call.key) == Some(row)
    case RecheckReturned(Some(row)) => Lookup(s, call.key) == Some(row)
    case WinnerReturned(row) => row.Some? && Lookup(s, call.key) == row
    case InsertDone(data) => Lookup(s, call.key) == Some(Record(call.namespace, Some(data)))
    case InsertConflicted => call.key in s.records
    case WinnerSent => call.key in s.records
    case OpDone(data, _) => Holds(s, call.key, data) && s.records[call.key].namespace == call.namespace
    case Returned(data, _, joined) =>
      && Holds(s, call.key, data) && (joined.Some? ==> joined.value in s.calls)
      && s.records[call.key].namespace == NamespaceBehind(s, call)
    case _ => true
  }

  predicate SameSlot(a: Call, b: Call) { a.inst == b.inst && a.key == b.key }

  predicate JoinedWell(s: State, call: Call) {
    call.pc.Joined? ==>
      && call.pc.owner in s.calls && SameSlot(s.calls[call.pc.owner], call)
      && var pc := s.calls[call.pc.owner].pc; Owns(pc) || (Settled(pc) && pc.joined.None?)
  }

  /** The in-flight maps list exactly the calls that own an operation. */
  ghost predicate InFlightExact(s: State) {
    && (forall c :: c in s.calls && Owns(s.calls[c].pc) ==>
          var slot := (s.calls[c].inst, s.calls[c].key); slot in s.inFlight && s.inFlight[slot] == c)
    && (forall slot :: slot in s.inFlight ==>
          var c := s.inFlight[slot];
          c in s.calls && Owns(s.calls[c].pc) && (s.calls[c].inst, s.calls[c].key) == slot)
  }

  ghost predicate Inv(s: State) {
    && InFlightExact(s)
    && (forall c :: c in s.calls ==> Knows(s, s.calls[c]) && JoinedWell(s, s.calls[c]))
  }

  /** Moving one call on, without taking or releasing its slot. */
  predicate MayMove(s: State, c: CallId, pc: Pc)
    requires c in s.calls
  {
    var call := s.calls[c].(pc := pc);
    && (Owns(pc) <==> Owns(s.calls[c].pc)) && (Settled(s.calls[c].pc) ==> pc == s.calls[c].pc)
    && Knows(s, call) && JoinedWell(s, call)
  }

  lemma MovingKeepsInv(s: State, c: CallId, pc: Pc)
    requires Inv(s) && c in s.calls && MayMove(s, c, pc)
    ensures Inv(SetPc(s, c, pc))
  {
    var after := SetPc(s, c, pc);
    MovingKeepsInFlight(s, c, pc);
    forall d | d in after.calls ensures Knows(after, after.calls[d]) && JoinedWell(after, after.calls[d]) {
      MovingKeepsKnowledge(s, c, pc, d);
      MovingKeepsJoins(s, c, pc, d);
    }
  }

  lemma MovingKeepsInFlight(s: State, c: CallId, pc: Pc)
    requires InFlightExact(s) && c in s.calls && (Owns(pc) <==> Owns(s.calls[c].pc))
    ensures InFlightExact(SetPc(s, c, pc))
  {}

  lemma MovingKeepsKnowledge(s: State, c: CallId, pc: Pc, d: CallId)
    requires Inv(s) && c in s.calls && MayMove(s, c, pc) && d in s.calls
    ensures Knows(SetPc(s, c, pc), SetPc(s, c, pc).calls[d])
  {
    assert Knows(s, s.calls[d]);
  }

  lemma MovingKeepsJoins(s: State, c: CallId, pc: Pc, d: CallId)
    requires Inv(s) && c in s.calls && MayMove(s, c, pc) && d in s.calls
    ensures JoinedWell(SetPc(s, c, pc), SetPc(s, c, pc).calls[d])
  {
    assert JoinedWell(s, s.calls[d]);
  }

  lemma TakingKeepsInv(s: State, c: CallId)
    requires Inv(s) && c in s.calls && s.calls[c].pc == LoadReturned(None)
    requires (s.calls[c].inst, s.calls[c].key) !in s.inFlight
    ensures Inv(ResumeStep(s, c))
  {
    var after := ResumeStep(s, c);
    forall d | d in after.calls ensures Knows(after, after.calls[d]) && JoinedWell(after, after.calls[d]) {
      assert d in s.calls && JoinedWell(s, s.calls[d]) && Knows(s, s.calls[d]);
    }
  }

  lemma ReleasingKeepsInv(s: State, c: CallId)
    requires Inv(s) && c in s.calls && (s.calls[c].pc.OpDone? || s.calls[c].pc.OpFailed?)
    ensures Inv(ResumeStep(s, c))
  {
    var after := ResumeStep(s, c);
    assert Knows(s, s.calls[c]);
    forall d | d in after.calls ensures Knows(after, after.calls[d]) && JoinedWell(after, after.calls[d]) {
      assert d in s.calls && JoinedWell(s, s.calls[d]) && Knows(s, s.calls[d]);
    }
  }

  /** Records are only ever added, so what calls know stays true. */
  lemma StoringKeepsInv(s: State, key: Key, record: Record)
    requires Inv(s) && key !in s.records
    ensures Inv(s.(records := s.records[key := record]))
  {
    var after := s.(records := s.records[key := record]);
    forall d | d in after.calls ensures Knows(after, after.calls[d]) && JoinedWell(after, after.calls[d]) {
      assert d in s.calls && JoinedWell(s, s.calls[d]) && Knows(s, s.calls[d]);
    }
  }

  lemma StartingKeepsInv(s: State, c: CallId, call: Call)
    requires Inv(s) && c !in s.calls && call.pc == LoadSent
    ensures Inv(s.(calls := s.calls[c := call]))
  {
    var after := s.(calls := s.calls[c := call]);
    forall d | d in after.calls ensures Knows(after, after.calls[d]) && JoinedWell(after, after.calls[d]) {
      if d in s.calls { assert JoinedWell(s, s.calls[d]) && Knows(s, s.calls[d]); }
    }
  }

  lemma RanIsIrrelevant(s: State, ran: set<CallId>)
    requires Inv(s)
    ensures Inv(s.(ran := ran))
  {
    var after := s.(ran := ran);
    forall d | d in after.calls ensures Knows(after, after.calls[d]) && JoinedWell(after, after.calls[d]) {
      assert d in s.calls && JoinedWell(s, s.calls[d]) && Knows(s, s.calls[d]);
    }
  }

  lemma InsertKeepsInv(s: State, c: CallId, fault: Fault)
    requires Inv(s) && c in s.calls && s.calls[c].pc.InsertSent?
    ensures Inv(InsertStep(s, c, fault))
  {
    var call := s.calls[c];
    if fault == Lost || call.key in s.records {
      MovingKeepsInv(s, c, InsertStep(s, c, fault).calls[c].pc);
    } else {
      var record := Record(call.namespace, Some(call.pc.data));
      StoringKeepsInv(s, call.key, record);
      MovingKeepsInv(s.(records := s.records[call.key := record]), c, InsertStep(s, c, fault).calls[c].pc);
    }
  }

  lemma ResumeKeepsInv(s: State, c: CallId)
    requires Inv(s) && c in s.calls
    ensures Inv(ResumeStep(s, c))
  {
    var call := s.calls[c];
    assert Knows(s, call) && JoinedWell(s, call);
    if call.pc.OpDone? || call.pc.OpFailed? {
      ReleasingKeepsInv(s, c);
    } else if call.pc == LoadReturned(None) {
      var slot := (call.inst, call.key);
      if slot in s.inFlight {
        MovingKeepsInv(s, c, Joined(s.inFlight[slot]));
      } else {
        TakingKeepsInv(s, c);
      }
    } else if call.pc.Joined? {
      JoinerKeepsInv(s, c, call.pc.owner);
    } else {
      MovingKeepsInv(s, c, ResumedPc(s, c));
    }
  }

  lemma JoinerKeepsInv(s: State, c: CallId, owner: CallId)
    requires Inv(s) && c in s.calls && s.calls[c].pc == Joined(owner)
    ensures Inv(ResumeStep(s, c))
  {
    assert JoinedWell(s, s.calls[c]) && Knows(s, s.calls[owner]);
    MovingKeepsInv(s, c, ResumedPc(s, c));
  }

  lemma AnswerKeepsInv(s: State, c: CallId)
    requires Inv(s) && Next(s, Answer(c)) != s
    ensures Inv(Next(s, Answer(c)))
  {
    assert Knows(s, s.calls[c]);
    MovingKeepsInv(s, c, Next(s, Answer(c)).calls[c].pc);
  }

  lemma StepKeepsInv(s: State, step: Step)
    requires Inv(s)
    ensures Inv(Next(s, step))
  {
    match step {
      case Start(c, inst, key, namespace) =>
        if c !in s.calls { StartingKeepsInv(s, c, Call(inst, key, namespace, LoadSent)); }
      case ForeignInsert(key, record) =>
        if key !in s.records { StoringKeepsInv(s, key, record); }
      case Resume(c) =>
        if c in s.calls { ResumeKeepsInv(s, c); }
      case Insert(c, fault) =>
        if c in s.calls && s.calls[c].pc.InsertSent? { InsertKeepsInv(s, c, fault); }
      case FinishRun(c, data) =>
        if c in s.calls && s.calls[c].pc.RunStarted? {
          MovingKeepsInv(s, c, RunReturned(data));
          RanIsIrrelevant(SetPc(s, c, RunReturned(data)), s.ran + {c});
        }
      case Answer(c) =>
        if Next(s, step) != s { AnswerKeepsInv(s, c); }
      case Break(c) =>
        if Next(s, step) != s { MovingKeepsInv(s, c, Next(s, step).calls[c].pc); }
    }
  }

  lemma {:induction false} EveryRunKeepsInv(steps: seq<Step>)
    ensures Inv(Run(steps))
  {
    if steps != [] {
      EveryRunKeepsInv(steps[..|steps| - 1]);
      StepKeepsInv(Run(steps[..|steps| - 1]), steps[|steps| - 1]);
    }
  }

  // ---------------------------------------------------------------------
  // Agreement
  // ---------------------------------------------------------------------

  /** Loading the stored record now would give a returned call the data that it returned. */
  predicate WouldLoad(s: State, call: Call)
    requires call.pc.Returned? && call.key in s.records
  {
    Loaded(s.records[call.key], call.namespace) == Some(call.pc.data)
  }

  /**
   * Across all callers of all instances, every call that returned got the data
   * of the record stored under its key. Loading that record would give the call
   * this data if and only if the call returned of itself, or the call that it
   * joined is of its own namespace.
   */
  lemma SuccessfulCallsAgree(steps: seq<Step>, c: CallId)
    requires c in Run(steps).calls && Run(steps).calls[c].pc.Returned?
    ensures var s := Run(steps);
      var call := s.calls[c];
      && call.key in s.records && s.records[call.key].data == Some(call.pc.data)
      && (call.pc.joined.Some? ==> call.pc.joined.value in s.calls)
      && (WouldLoad(s, call) <==>
            call.pc.joined.None? || s.calls[call.pc.joined.value].namespace == call.namespace)
  {
    EveryRunKeepsInv(steps);
    assert Knows(Run(steps), Run(steps).calls[c]);
  }

  /** No instance ever has two operations in flight for one key. */
  lemma OneOperationInFlight(steps: seq<Step>, c: CallId, d: CallId)
    requires var s := Run(steps);
      && c in s.calls && d in s.calls && SameSlot(s.calls[c], s.calls[d])
      && Owns(s.calls[c].pc) && Owns(s.calls[d].pc)
    ensures c == d
  {
    EveryRunKeepsInv(steps);
  }

  // ---------------------------------------------------------------------
  // At most one successful run
  // ---------------------------------------------------------------------

  predicate LosesNothing(steps: seq<Step>) {
    forall i :: 0 <= i < |steps| ==> !(steps[i].Insert? && steps[i].fault == Lost)
  }

  predicate Unstored(pc: Pc) { pc.RunReturned? || pc.InsertSent? }

  predicate MayRun(pc: Pc) { pc == RecheckReturned(None) || pc == RunStarted }

  ghost predicate NotRan(s: State, call: Call)
    requires s.ran <= s.calls.Keys
  {
    forall c :: c in s.ran ==> !SameSlot(s.calls[c], call)
  }

  /** A successful run has its record, or is still on its way to storing it; and no second one is under way. */
  ghost predicate RunsOnce(s: State) {
    && s.ran <= s.calls.Keys
    && (forall c :: c in s.calls && Unstored(s.calls[c].pc) ==> c in s.ran)
    && (forall c :: c in s.ran ==> s.calls[c].key in s.records || Unstored(s.calls[c].pc))
    && (forall d :: d in s.calls && MayRun(s.calls[d].pc) ==> NotRan(s, s.calls[d]))
    && (forall c, d :: c in s.ran && d in s.ran && SameSlot(s.calls[c], s.calls[d]) ==> c == d)
  }

  /** Moving one call on, possibly adding a record. */
  lemma MovingRunsOnce(s: State, after: State, c: CallId)
    requires RunsOnce(s) && c in s.calls && after.ran == s.ran
    requires c in after.calls && SameSlot(after.calls[c], s.calls[c]) && after.calls == s.calls[c := after.calls[c]]
    requires forall key :: key in s.records ==> key in after.records
    requires var pc, pc' := s.calls[c].pc, after.calls[c].pc;
      && (Unstored(pc') ==> Unstored(pc))
      && (Unstored(pc) && !Unstored(pc') ==> s.calls[c].key in after.records)
      && (MayRun(pc') ==> NotRan(s, s.calls[c]))
    ensures RunsOnce(after)
  {
    forall e | e in after.calls && MayRun(after.calls[e].pc) ensures NotRan(after, after.calls[e]) {
      assert NotRan(s, s.calls[e]);
    }
  }

  /** A recheck that finds no record proves that no run of its slot has succeeded. */
  lemma AbsentMeansNotRun(s: State, c: CallId)
    requires Inv(s) && RunsOnce(s) && c in s.calls && s.calls[c].pc.RecheckSent? && s.calls[c].key !in s.records
    ensures NotRan(s, s.calls[c])
  {
    assert Owns(s.calls[c].pc);
    forall d | d in s.ran ensures !SameSlot(s.calls[d], s.calls[c]) {
      if SameSlot(s.calls[d], s.calls[c]) { assert false; }
    }
  }

  lemma FinishRunsOnce(s: State, c: CallId, data: Data)
    requires Inv(s) && RunsOnce(s) && c in s.calls && s.calls[c].pc.RunStarted?
    ensures RunsOnce(Next(s, FinishRun(c, data)))
  {
    var after := Next(s, FinishRun(c, data));
    assert NotRan(s, s.calls[c]) && Owns(s.calls[c].pc);
    forall e | e in after.calls && MayRun(after.calls[e].pc) ensures NotRan(after, after.calls[e]) {
      assert e != c && Owns(s.calls[e].pc) && NotRan(s, s.calls[e]);
    }
  }

  /** Resuming changes one call's position; it neither stores nor forgets a successful run. */
  lemma ResumeFacts(s: State, c: CallId)
    requires c in s.calls
    ensures var after := ResumeStep(s, c);
      && after.records == s.records && after.ran == s.ran && c in after.calls
      && after.calls == s.calls[c := after.calls[c]] && SameSlot(after.calls[c], s.calls[c])
  {}

  lemma ResumeKeepsStage(s: State, c: CallId)
    requires c in s.calls
    ensures var before, after := s.calls[c].pc, ResumeStep(s, c).calls[c].pc;
      && (Unstored(before) <==> Unstored(after)) && (MayRun(after) ==> MayRun(before))
  {}

  lemma ResumeRunsOnce(s: State, c: CallId)
    requires Inv(s) && RunsOnce(s) && c in s.calls
    ensures RunsOnce(ResumeStep(s, c))
  {
    ResumeFacts(s, c);
    ResumeKeepsStage(s, c);
    var after := ResumeStep(s, c);
    assert MayRun(after.calls[c].pc) ==> NotRan(s, s.calls[c]);
    MovingRunsOnce(s, after, c);
  }

  lemma InsertRunsOnce(s: State, c: CallId, fault: Fault)
    requires RunsOnce(s) && c in s.calls && s.calls[c].pc.InsertSent? && fault != Lost
    ensures RunsOnce(InsertStep(s, c, fault))
  {
    MovingRunsOnce(s, InsertStep(s, c, fault), c);
  }

  lemma AnswerRunsOnce(s: State, c: CallId)
    requires Inv(s) && RunsOnce(s) && Next(s, Answer(c)) != s
    ensures RunsOnce(Next(s, Answer(c)))
  {
    if s.calls[c].pc.RecheckSent? && s.calls[c].key !in s.records { AbsentMeansNotRun(s, c); }
    MovingRunsOnce(s, Next(s, Answer(c)), c);
  }

  lemma BreakRunsOnce(s: State, c: CallId)
    requires RunsOnce(s) && Next(s, Break(c)) != s
    ensures RunsOnce(Next(s, Break(c)))
  {
    MovingRunsOnce(s, Next(s, Break(c)), c);
  }

  lemma StartRunsOnce(s: State, c: CallId, call: Call)
    requires RunsOnce(s) && c !in s.calls && call.pc == LoadSent
    ensures RunsOnce(s.(calls := s.calls[c := call]))
  {
    var after := s.(calls := s.calls[c := call]);
    forall e | e in after.calls && MayRun(after.calls[e].pc) ensures NotRan(after, after.calls[e]) {
      assert NotRan(s, s.calls[e]);
    }
  }

  lemma StoringRunsOnce(s: State, records: map<Key, Record>)
    requires RunsOnce(s) && forall key :: key in s.records ==> key in records
    ensures RunsOnce(s.(records := records))
  {
    var after := s.(records := records);
    forall e | e in after.calls && MayRun(after.calls[e].pc) ensures NotRan(after, after.calls[e]) {
      assert NotRan(s, s.calls[e]);
    }
  }

  lemma StepRunsOnce(s: State, step: Step)
    requires Inv(s) && RunsOnce(s) && !(step.Insert? && step.fault == Lost)
    ensures RunsOnce(Next(s, step))
  {
    match step {
      case Start(c, inst, key, namespace) =>
        if c !in s.calls { StartRunsOnce(s, c, Call(inst, key, namespace, LoadSent)); }
      case ForeignInsert(_, _) => StoringRunsOnce(s, Next(s, step).records);
      case Resume(c) => if c in s.calls { ResumeRunsOnce(s, c); }
      case Insert(c, fault) => if c in s.calls && s.calls[c].pc.InsertSent? { InsertRunsOnce(s, c, fault); }
      case FinishRun(c, data) => if Next(s, step) != s { FinishRunsOnce(s, c, data); }
      case Answer(c) => if Next(s, step) != s { AnswerRunsOnce(s, c); }
      case Break(c) => if Next(s, step) != s { BreakRunsOnce(s, c); }
    }
  }

  /**
   * While no insert is lost, the mutation succeeds at most once for each key
   * and instance, however many calls there are and whatever fails.
   */
  lemma {:induction false} RunSucceedsAtMostOnce(steps: seq<Step>)
    requires LosesNothing(steps)
    ensures RunsOnce(Run(steps))
  {
    if steps != [] {
      var before := steps[..|steps| - 1];
      RunSucceedsAtMostOnce(before);
      EveryRunKeepsInv(before);
      StepRunsOnce(Run(before), steps[|steps| - 1]);
    }
  }

  // ---------------------------------------------------------------------
  // What the design does not promise
  // ---------------------------------------------------------------------

  /** A call waits for another, whose operation is done or which has returned by now. */
  predicate JoinsDone(s: State, c: CallId, owner: CallId) {
    && c in s.calls && owner in s.calls && s.calls[c].pc == Joined(owner)
    && (s.calls[owner].pc.OpDone? || s.calls[owner].pc.Returned?)
  }

  /**
   * A call that joined an operation in flight returns its data without the check
   * that load makes. At any point of any run, that check would have passed if
   * and only if the two calls are of one namespace, and thrown otherwise.
   */
  lemma JoiningSkipsTheNamespaceCheck(steps: seq<Step>, c: CallId, owner: CallId)
    requires JoinsDone(Run(steps), c, owner)
    ensures var s := Run(steps);
      var data, call := s.calls[owner].pc.data, s.calls[c];
      && Next(s, Resume(c)).calls[c].pc == Returned(data, true, Some(owner))
      && call.key in s.records
      && Loaded(s.records[call.key], call.namespace) ==
           if s.calls[owner].namespace == call.namespace then Some(data) else None
  {
    EveryRunKeepsInv(steps);
    var s := Run(steps);
    assert Knows(s, s.calls[owner]) && JoinedWell(s, s.calls[c]);
  }

  /** Two callers of one instance with one key: the second joins the operation of the first, and both return. */
  function TwoCallers(key: Key, first: Namespace, second: Namespace, data: Data): seq<Step> {
    [Start(1, 0, key, first), Answer(1), Resume(1), Start(2, 0, key, second), Answer(2), Resume(2),
     Answer(1), Resume(1), FinishRun(1, data), Resume(1), Insert(1, NoFault), Resume(1), Resume(2)]
  }

  /** For any key and any two namespaces the second is handed data that load would have refused it. */
  lemma JoiningForeignHappens(key: Key, first: Namespace, second: Namespace, data: Data)
    requires first != second
    ensures var s := Run(TwoCallers(key, first, second, data));
      && 2 in s.calls && s.calls[2] == Call(0, key, second, Returned(data, true, Some(1)))
      && key in s.records && Loaded(s.records[key], second) == None
  {
    var steps := TwoCallers(key, first, second, data);
    OperationIsDone(key, first, second, data);
    RunStep(steps, 12);
    assert steps[..13] == steps;
  }

  /** The two calls, the first with its operation in flight. */
  function Pair(key: Key, first: Call, second: Call, records: map<Key, Record>, ran: set<CallId>): State {
    State(records, map[(0, key) := 1], map[1 := first, 2 := second], ran)
  }

  lemma RunStep(steps: seq<Step>, k: nat)
    requires k < |steps|
    ensures Run(steps[..k + 1]) == Next(Run(steps[..k]), steps[k])
  {
    assert steps[..k + 1][..k] == steps[..k];
  }

  lemma FirstRechecks(key: Key, first: Namespace, second: Namespace, data: Data)
    ensures Run(TwoCallers(key, first, second, data)[..3]) ==
            State(map[], map[(0, key) := 1], map[1 := Call(0, key, first, RecheckSent)], {})
  {
    var steps := TwoCallers(key, first, second, data);
    assert Run(steps[..0]) == INITIAL;
    FirstArrives(key, first);
    RunStep(steps, 0);
    RunStep(steps, 1);
    FirstTakesTheSlot(key, first);
    RunStep(steps, 2);
  }

  lemma FirstArrives(key: Key, first: Namespace)
    ensures Next(INITIAL, Start(1, 0, key, first)) == State(map[], map[], map[1 := Call(0, key, first, LoadSent)], {})
    ensures Next(State(map[], map[], map[1 := Call(0, key, first, LoadSent)], {}), Answer(1)) ==
            State(map[], map[], map[1 := Call(0, key, first, LoadReturned(None))], {})
  {}

  lemma FirstTakesTheSlot(key: Key, first: Namespace)
    ensures Next(State(map[], map[], map[1 := Call(0, key, first, LoadReturned(None))], {}), Resume(1)) ==
            State(map[], map[(0, key) := 1], map[1 := Call(0, key, first, RecheckSent)], {})
  {}

  lemma SecondJoins(key: Key, first: Namespace, second: Namespace, data: Data)
    ensures Run(TwoCallers(key, first, second, data)[..6]) ==
            Pair(key, Call(0, key, first, RecheckSent), Call(0, key, second, Joined(1)), map[], {})
  {
    var steps := TwoCallers(key, first, second, data);
    FirstRechecks(key, first, second, data);
    SecondArrives(key, Call(0, key, first, RecheckSent), second);
    RunStep(steps, 3);
    RunStep(steps, 4);
    RunStep(steps, 5);
  }

  lemma SecondArrives(key: Key, call: Call, second: Namespace)
    ensures Next(State(map[], map[(0, key) := 1], map[1 := call], {}), Start(2, 0, key, second)) ==
            Pair(key, call, Call(0, key, second, LoadSent), map[], {})
    ensures Next(Pair(key, call, Call(0, key, second, LoadSent), map[], {}), Answer(2)) ==
            Pair(key, call, Call(0, key, second, LoadReturned(None)), map[], {})
    ensures Next(Pair(key, call, Call(0, key, second, LoadReturned(None)), map[], {}), Resume(2)) ==
            Pair(key, call, Call(0, key, second, Joined(1)), map[], {})
  {}

  // What the operation of the first call does, one await at a time.

  lemma RecheckFindsNothing(key: Key, call: Call, waiting: Call)
    requires call.inst == 0 && call.key == key
    ensures Next(Pair(key, call.(pc := RecheckSent), waiting, map[], {}), Answer(1)) ==
            Pair(key, call.(pc := RecheckReturned(None)), waiting, map[], {})
  {}

  lemma MutationStarts(key: Key, call: Call, waiting: Call)
    requires call.inst == 0 && call.key == key
    ensures Next(Pair(key, call.(pc := RecheckReturned(None)), waiting, map[], {}), Resume(1)) ==
            Pair(key, call.(pc := RunStarted), waiting, map[], {})
  {}

  lemma MutationSucceeds(key: Key, call: Call, waiting: Call, data: Data)
    requires call.inst == 0 && call.key == key
    ensures Next(Pair(key, call.(pc := RunStarted), waiting, map[], {}), FinishRun(1, data)) ==
            Pair(key, call.(pc := RunReturned(data)), waiting, map[], {1})
  {}

  lemma InsertIsSent(key: Key, call: Call, waiting: Call, data: Data)
    requires call.inst == 0 && call.key == key
    ensures Next(Pair(key, call.(pc := RunReturned(data)), waiting, map[], {1}), Resume(1)) ==
            Pair(key, call.(pc := InsertSent(data)), waiting, map[], {1})
  {}

  lemma ResultIsStored(key: Key, call: Call, waiting: Call, data: Data)
    requires call.inst == 0 && call.key == key
    ensures Next(Pair(key, call.(pc := InsertSent(data)), waiting, map[], {1}), Insert(1, NoFault)) ==
            Pair(key, call.(pc := InsertDone(data)), waiting, map[key := Record(call.namespace, Some(data))], {1})
  {}

  lemma OperationEnds(key: Key, call: Call, waiting: Call, records: map<Key, Record>, data: Data)
    requires call.inst == 0 && call.key == key
    ensures Next(Pair(key, call.(pc := InsertDone(data)), waiting, records, {1}), Resume(1)) ==
            Pair(key, call.(pc := OpDone(data, false)), waiting, records, {1})
  {}

  lemma OperationIsDone(key: Key, first: Namespace, second: Namespace, data: Data)
    ensures Run(TwoCallers(key, first, second, data)[..12]) ==
            Pair(key, Call(0, key, first, OpDone(data, false)), Call(0, key, second, Joined(1)),
                 map[key := Record(first, Some(data))], {1})
  {
    var steps := TwoCallers(key, first, second, data);
    var call, waiting := Call(0, key, first, RecheckSent), Call(0, key, second, Joined(1));
    SecondJoins(key, first, second, data);
    RunStep(steps, 6);
    RecheckFindsNothing(key, call, waiting);
    RunStep(steps, 7);
    MutationStarts(key, call, waiting);
    RunStep(steps, 8);
    MutationSucceeds(key, call, waiting, data);
    RunStep(steps, 9);
    InsertIsSent(key, call, waiting, data);
    RunStep(steps, 10);
    ResultIsStored(key, call, waiting, data);
    RunStep(steps, 11);
    OperationEnds(key, call, waiting, map[key := Record(first, Some(data))], data);
  }
}
