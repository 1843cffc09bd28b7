// The bounded concurrent supervisor: apps/worker/src/runtime/worker-runtime.ts.
//
// `run` is a program counter that moves from await to await; jobs complete in
// between, in any order. Every tracked promise is a ticket.
module WorkerRuntime {
  import opened Wrappers

  type AttemptId = string
  type Ticket = nat

  // `jobs` are the tracked promises that have not settled; `byAttempt` is the
  // map that the program keeps and `active` its counter.
  datatype Slots = Slots(active: int, byAttempt: map<AttemptId, Ticket>, jobs: map<Ticket, AttemptId>, next: Ticket)

  function Capacity(requested: int): (c: nat)
    ensures requested >= 1 ==> c == requested
    ensures requested < 1 ==> c == 1
  {
    if requested < 1 then 1 else requested
  }

  function Clamp(n: int): int { if n < 0 then 0 else n }

  function Track(s: Slots, a: AttemptId): Slots {
    Slots(s.active + 1, s.byAttempt[a := s.next], s.jobs[s.next := a], s.next + 1)
  }

  /** The completion callback: it removes the entry of its attempt, whichever promise that holds. */
  function Settle(s: Slots, t: Ticket): Slots {
    if t !in s.jobs then s
    else Slots(Clamp(s.active - 1), s.byAttempt - {s.jobs[t]}, s.jobs - {t}, s.next)
  }

  // ---------------------------------------------------------------------
  // run, await by await
  // ---------------------------------------------------------------------

  datatype Pc =
    | FirstBeat
    | Beat
    | StartSlot(startedAny: bool)
    | Sleep
    | Drain(waiting: set<Ticket>)
    | LastBeat
    | Returned
    | Threw

  datatype State = State(capacity: nat, slots: Slots, aborted: bool, pc: Pc)

  datatype Step =
    | Answer(beatDue: bool)           // a heartbeat or a sleep is over
    | Slot(started: Option<AttemptId>, beatDue: bool)
    | Fail                            // the awaited call throws
    | Complete(t: Ticket)             // a job settles
    | Abort
    | Drained                         // every promise that was waited for has settled

  /** The rest of the loop body, once the slots are filled; a started job loops back without waiting. */
  function AfterFill(s: State, started: bool, beatDue: bool): State {
    if s.aborted then StartDrain(s)
    else if !started then s.(pc := Sleep)
    else if beatDue then s.(pc := Beat)
    else if s.slots.active < s.capacity then s.(pc := StartSlot(false))
    else s.(pc := Sleep)
  }

  function Fill(s: State): State {
    if s.slots.active >= s.capacity then AfterFill(s, false, false) else s.(pc := StartSlot(false))
  }

  function LoopTop(s: State, beatDue: bool): State {
    if s.aborted then StartDrain(s) else if beatDue then s.(pc := Beat) else Fill(s)
  }

  function StartDrain(s: State): State {
    if s.slots.byAttempt == map[] then s.(pc := LastBeat) else s.(pc := Drain(s.slots.byAttempt.Values))
  }

  function Next(s: State, step: Step): State {
    match step
    case Complete(t) => s.(slots := Settle(s.slots, t))
    case Abort => s.(aborted := true)
    case Answer(beatDue) =>
      (match s.pc
       case FirstBeat => LoopTop(s, beatDue)
       case Beat => Fill(s)
       case Sleep => LoopTop(s, beatDue)
       case LastBeat => s.(pc := Returned)
       case _ => s)
    case Slot(started, beatDue) =>
      (match s.pc
       case StartSlot(startedAny) =>
         if started.None? then AfterFill(s, startedAny, beatDue)
         else
           var tracked := s.(slots := Track(s.slots, started.value));
           if tracked.slots.active < s.capacity then tracked.(pc := StartSlot(true))
           else AfterFill(tracked, true, beatDue)
       case _ => s)
    case Fail =>
      (match s.pc
       case FirstBeat | Beat | LastBeat => s.(pc := Threw)
       case StartSlot(_) => s.(pc := Threw)
       case _ => s)
    case Drained =>
      (match s.pc
       case Drain(waiting) => if waiting !! s.slots.jobs.Keys then s.(pc := LastBeat) else s
       case _ => s)
  }

  function Start(requested: int): State {
    State(Capacity(requested), Slots(0, map[], map[], 0), false, FirstBeat)
  }

  function Run(requested: int, steps: seq<Step>): State {
    if steps == [] then Start(requested) else Next(Run(requested, steps[..|steps| - 1]), steps[|steps| - 1])
  }

  // ---------------------------------------------------------------------
  // The counter, whatever the attempt ids
  // ---------------------------------------------------------------------

  /** The counter counts the unfinished jobs, and the map only holds unfinished ones. */
  ghost predicate IsCounted(s: Slots) {
    && s.active == |s.jobs|
    && (forall t :: t in s.jobs ==> t < s.next)
    && forall a :: a in s.byAttempt ==> s.byAttempt[a] in s.jobs && s.jobs[s.byAttempt[a]] == a
  }

  ghost predicate IsBounded(s: State) {
    && IsCounted(s.slots) && s.slots.active <= s.capacity
    && (s.pc.StartSlot? ==> s.slots.active < s.capacity)
  }

  lemma TrackingCounts(s: Slots, a: AttemptId)
    requires IsCounted(s)
    ensures IsCounted(Track(s, a)) && Track(s, a).active == s.active + 1
  {
    assert s.next !in s.jobs;
    assert Track(s, a).jobs.Keys == s.jobs.Keys + {s.next};
  }

  /** A settling job finds the counter positive, so the clamp has no effect. */
  lemma ClampNeverBites(s: Slots, t: Ticket)
    requires IsCounted(s) && t in s.jobs
    ensures Settle(s, t).active == s.active - 1 && s.active >= 1
    ensures IsCounted(Settle(s, t))
  {
    assert Settle(s, t).jobs.Keys == s.jobs.Keys - {t};
    assert |s.jobs.Keys| >= 1 by { assert t in s.jobs.Keys; }
    assert |Settle(s, t).jobs.Keys| == |s.jobs.Keys| - 1;
  }

  lemma StepKeepsBound(s: State, step: Step)
    requires IsBounded(s)
    ensures IsBounded(Next(s, step)) && Next(s, step).capacity == s.capacity
  {
    if step.Complete? && step.t in s.slots.jobs {
      ClampNeverBites(s.slots, step.t);
    } else if step.Slot? && s.pc.StartSlot? && step.started.Some? {
      TrackingCounts(s.slots, step.started.value);
    }
  }

  /**
   * However completions interleave with the awaits, the counter is the number
   * of unfinished jobs and never exceeds the capacity.
   */
  lemma {:induction false} ActiveIsExact(requested: int, steps: seq<Step>)
    ensures var s := Run(requested, steps);
      && IsBounded(s) && s.capacity == Capacity(requested)
      && s.slots.active == |s.slots.jobs| && 0 <= s.slots.active <= Capacity(requested)
  {
    if steps != [] {
      ActiveIsExact(requested, steps[..|steps| - 1]);
      StepKeepsBound(Run(requested, steps[..|steps| - 1]), steps[|steps| - 1]);
    }
  }

  // ---------------------------------------------------------------------
  // Shutdown
  // ---------------------------------------------------------------------

  /** The map lists every unfinished job. */
  ghost predicate IsListed(s: Slots) {
    forall t :: t in s.jobs ==> s.jobs[t] in s.byAttempt && s.byAttempt[s.jobs[t]] == t
  }

  /** In any state the drain would wait for every unfinished job if and only if the map is as large as the counter. */
  lemma DrainIsCompleteIff(requested: int, steps: seq<Step>)
    ensures var s := Run(requested, steps).slots;
      s.jobs.Keys <= s.byAttempt.Values <==> |s.byAttempt| == s.active
  {
    ActiveIsExact(requested, steps);
    var s := Run(requested, steps).slots;
    EntriesAreDistinct(s.byAttempt, s.jobs);
    if s.jobs.Keys <= s.byAttempt.Values {
      assert s.jobs.Keys == s.byAttempt.Values;
    }
    if |s.byAttempt| == s.active {
      SameSizeSubset(s.byAttempt.Values, s.jobs.Keys);
    }
  }

  lemma {:induction false} EntriesAreDistinct(byAttempt: map<AttemptId, Ticket>, jobs: map<Ticket, AttemptId>)
    requires forall a :: a in byAttempt ==> byAttempt[a] in jobs && jobs[byAttempt[a]] == a
    ensures |byAttempt.Values| == |byAttempt| && byAttempt.Values <= jobs.Keys
    decreases byAttempt
  {
    if a :| a in byAttempt {
      var rest := byAttempt - {a};
      EntriesAreDistinct(rest, jobs);
      assert byAttempt.Keys == rest.Keys + {a};
      assert byAttempt.Values == rest.Values + {byAttempt[a]} by {
        forall t | t in byAttempt.Values ensures t in rest.Values + {byAttempt[a]} {
          var b :| b in byAttempt && byAttempt[b] == t;
          if b != a { assert b in rest && rest[b] == t; }
        }
      }
    } else {
      assert byAttempt == map[];
    }
  }

  lemma {:induction false} SameSizeSubset(a: set<Ticket>, b: set<Ticket>)
    requires a <= b && |a| == |b|
    ensures a == b
    decreases a
  {
    if x :| x in a {
      SameSizeSubset(a - {x}, b - {x});
      assert a == (a - {x}) + {x} && b == (b - {x}) + {x};
    }
  }

  /** A start of a job whose attempt is not in flight already. */
  predicate IsDistinct(s: State, step: Step) {
    step.Slot? && step.started.Some? ==> step.started.value !in s.slots.jobs.Values
  }

  ghost predicate AllDistinct(requested: int, steps: seq<Step>) {
    forall i {:trigger steps[i]} :: 0 <= i < |steps| ==> IsDistinct(Run(requested, steps[..i]), steps[i])
  }

  ghost predicate DrainsAll(s: State) {
    && IsListed(s.slots)
    && (s.pc.Drain? ==> s.slots.jobs.Keys <= s.pc.waiting)
    && (s.pc.LastBeat? || s.pc.Returned? ==> s.slots.jobs == map[])
  }

  lemma DistinctTrackIsListed(s: Slots, a: AttemptId)
    requires IsCounted(s) && IsListed(s) && a !in s.jobs.Values
    ensures IsListed(Track(s, a))
  {
    var after := Track(s, a);
    forall t | t in after.jobs ensures after.jobs[t] in after.byAttempt && after.byAttempt[after.jobs[t]] == t {
      if t != s.next {
        assert t in s.jobs && s.jobs[t] in s.jobs.Values;
      }
    }
  }

  lemma SettlingIsListed(s: Slots, t: Ticket)
    requires IsListed(s)
    ensures IsListed(Settle(s, t)) && Settle(s, t).jobs.Keys <= s.jobs.Keys
  {
    var after := Settle(s, t);
    forall u | u in after.jobs ensures after.jobs[u] in after.byAttempt && after.byAttempt[after.jobs[u]] == u {
      assert u in s.jobs;
    }
  }

  lemma StartDrainDrainsAll(s: State)
    requires IsListed(s.slots)
    ensures DrainsAll(StartDrain(s))
  {
    forall t | t in s.slots.jobs ensures t in s.slots.byAttempt.Values {
      assert s.slots.jobs[t] in s.slots.byAttempt;
    }
    if t :| t in s.slots.jobs {
      assert s.slots.jobs[t] in s.slots.byAttempt;
    } else {
      assert s.slots.jobs == map[];
    }
  }

  lemma StepDrainsAll(s: State, step: Step)
    requires IsBounded(s) && DrainsAll(s) && IsDistinct(s, step)
    ensures DrainsAll(Next(s, step))
  {
    if step.Complete? {
      SettlingIsListed(s.slots, step.t);
      if s.slots.jobs == map[] { assert Next(s, step) == s; }
    } else if step.Slot? {
      if s.pc.StartSlot? {
        if step.started.Some? {
          DistinctTrackIsListed(s.slots, step.started.value);
          StartDrainDrainsAll(s.(slots := Track(s.slots, step.started.value)));
        } else {
          StartDrainDrainsAll(s);
        }
      }
    } else if step.Drained? && s.pc.Drain? && s.pc.waiting !! s.slots.jobs.Keys {
      assert s.slots.jobs.Keys == {};
      assert s.slots.jobs == map[];
    } else if step.Answer? {
      StartDrainDrainsAll(s);
    }
  }

  /** With distinct attempts in flight, `run` returns only when no job is left. */
  lemma {:induction false} ReturnsOnlyWhenIdle(requested: int, steps: seq<Step>)
    requires AllDistinct(requested, steps)
    ensures DrainsAll(Run(requested, steps))
    ensures Run(requested, steps).pc == Returned ==> Run(requested, steps).slots.active == 0
  {
    ActiveIsExact(requested, steps);
    if steps != [] {
      var init := steps[..|steps| - 1];
      forall i | 0 <= i < |init| ensures IsDistinct(Run(requested, init[..i]), init[i]) {
        assert init[..i] == steps[..i] && init[i] == steps[i];
      }
      ReturnsOnlyWhenIdle(requested, init);
      ActiveIsExact(requested, init);
      assert IsDistinct(Run(requested, init), steps[|steps| - 1]);
      StepDrainsAll(Run(requested, init), steps[|steps| - 1]);
    }
  }

  function DuplicateStarts(a: AttemptId): seq<Step> {
    [Answer(false), Slot(Some(a), false), Slot(Some(a), false), Complete(0), Abort, Answer(false), Answer(false)]
  }

  lemma DuplicatesShareAnEntry(a: AttemptId)
    ensures Run(2, DuplicateStarts(a)[..3]) == State(2, Slots(2, map[a := 1], map[0 := a, 1 := a], 2), false, Sleep)
  {
    var steps := DuplicateStarts(a);
    assert steps[..0] == [];
    var s1 := Extend(2, steps, 0);
    var s2 := Extend(2, steps, 1);
    var s3 := Extend(2, steps, 2);
  }

  /** An attempt started twice at once escapes the drain: `run` returns with a job in flight. */
  lemma DuplicateEscapesDrain(a: AttemptId)
    ensures var s := Run(2, DuplicateStarts(a));
      s.pc == Returned && s.slots.active == 1 && s.slots.jobs == map[1 := a]
  {
    var steps := DuplicateStarts(a);
    OneSettlesBoth(a);
    var s5 := Extend(2, steps, 4);
    var s6 := Extend(2, steps, 5);
    var s7 := Extend(2, steps, 6);
    assert steps[..7] == steps;
  }

  lemma OneSettlesBoth(a: AttemptId)
    ensures Run(2, DuplicateStarts(a)[..4]) == State(2, Slots(1, map[], map[1 := a], 2), false, Sleep)
  {
    DuplicatesShareAnEntry(a);
    var s4 := Extend(2, DuplicateStarts(a), 3);
  }

  lemma Extend(requested: int, steps: seq<Step>, i: nat) returns (s: State)
    requires i < |steps|
    ensures s == Run(requested, steps[..i + 1]) == Next(Run(requested, steps[..i]), steps[i])
  {
    assert steps[..i + 1][..i] == steps[..i];
    s := Run(requested, steps[..i + 1]);
  }

  // ---------------------------------------------------------------------
  // The counters in place
  // ---------------------------------------------------------------------

  // One answer of startSlot, and what settles while it is awaited.
  datatype SlotAnswer = SlotAnswer(settling: seq<Ticket>, started: Option<AttemptId>)

  function SettleAll(s: Slots, settling: seq<Ticket>): Slots {
    if settling == [] then s else Settle(SettleAll(s, settling[..|settling| - 1]), settling[|settling| - 1])
  }

  datatype FillResult = StartedSome | FoundIdle | WasFull | StillWaiting(startedAny: bool)

  /** fillSlots over the answers it gets; it is still waiting when they run out. */
  function FillSlots(s: Slots, capacity: nat, answers: seq<SlotAnswer>, startedAny: bool): (Slots, FillResult)
    decreases |answers|
  {
    if s.active >= capacity then (s, if startedAny then StartedSome else WasFull)
    else if answers == [] then (s, StillWaiting(startedAny))
    else
      var settled := SettleAll(s, answers[0].settling);
      if answers[0].started.None? then (settled, if startedAny then StartedSome else FoundIdle)
      else FillSlots(Track(settled, answers[0].started.value), capacity, answers[1..], true)
  }

  lemma {:induction false} FillKeepsBound(s: Slots, capacity: nat, answers: seq<SlotAnswer>, startedAny: bool)
    requires IsCounted(s) && s.active <= capacity
    ensures var (after, result) := FillSlots(s, capacity, answers, startedAny);
      && IsCounted(after) && after.active <= capacity
      && (result.StillWaiting? ==> after.active < capacity)
      && (result == WasFull ==> after == s && s.active == capacity)
    decreases |answers|
  {
    if s.active < capacity && answers != [] {
      SettlingAllCounts(s, answers[0].settling);
      var settled := SettleAll(s, answers[0].settling);
      if answers[0].started.Some? {
        TrackingCounts(settled, answers[0].started.value);
        FillKeepsBound(Track(settled, answers[0].started.value), capacity, answers[1..], true);
      }
    }
  }

  predicate ReportsStart(result: FillResult) { result.StartedSome? || result == StillWaiting(true) }

  /** Filling reports a start if and only if it issued a ticket. */
  lemma {:induction false} FillReportsStarts(s: Slots, capacity: nat, answers: seq<SlotAnswer>, startedAny: bool)
    ensures var (after, result) := FillSlots(s, capacity, answers, startedAny);
      s.next <= after.next && (ReportsStart(result) <==> startedAny || s.next < after.next)
    decreases |answers|
  {
    if s.active < capacity && answers != [] {
      SettlingIssuesNone(s, answers[0].settling);
      if answers[0].started.Some? {
        var tracked := Track(SettleAll(s, answers[0].settling), answers[0].started.value);
        FillReportsStarts(tracked, capacity, answers[1..], true);
      }
    }
  }

  lemma {:induction false} SettlingIssuesNone(s: Slots, settling: seq<Ticket>)
    ensures SettleAll(s, settling).next == s.next
  {
    if settling != [] { SettlingIssuesNone(s, settling[..|settling| - 1]); }
  }

  lemma {:induction false} SettlingAllCounts(s: Slots, settling: seq<Ticket>)
    requires IsCounted(s)
    ensures IsCounted(SettleAll(s, settling)) && SettleAll(s, settling).active <= s.active
  {
    if settling != [] {
      var init, t := settling[..|settling| - 1], settling[|settling| - 1];
      SettlingAllCounts(s, init);
      if t in SettleAll(s, init).jobs { ClampNeverBites(SettleAll(s, init), t); }
    }
  }

  // `pending` are the promises with the attempt that each callback closes over.
  class Supervisor {
    const capacity: nat
    var active: int
    var activeByAttempt: map<AttemptId, Ticket>
    var pending: map<Ticket, AttemptId>
    var next: Ticket

    constructor (requested: int)
      ensures capacity == Capacity(requested) && Counters() == Start(requested).slots
    {
      capacity := Capacity(requested);
      active, activeByAttempt, pending, next := 0, map[], map[], 0;
    }

    function Counters(): Slots
      reads this
    {
      Slots(active, activeByAttempt, pending, next)
    }

    method Started(a: AttemptId)
      modifies this
      ensures Counters() == Track(old(Counters()), a)
    {
      active := active + 1;
      pending := pending[next := a];
      activeByAttempt := activeByAttempt[a := next];
      next := next + 1;
    }

    method Settled(t: Ticket)
      modifies this
      ensures Counters() == Settle(old(Counters()), t)
    {
      if t in pending {
        activeByAttempt := activeByAttempt - {pending[t]};
        pending := pending - {t};
        active := if active - 1 < 0 then 0 else active - 1;
      }
    }

    method SettleDuringAwait(settling: seq<Ticket>)
      modifies this
      ensures Counters() == SettleAll(old(Counters()), settling)
    {
      for i := 0 to |settling|
        invariant Counters() == SettleAll(old(Counters()), settling[..i])
      {
        assert settling[..i + 1][..i] == settling[..i];
        Settled(settling[i]);
      }
      assert settling[..|settling|] == settling;
    }

    /** The counter stays exact and within the capacity, whatever settles during the awaits. */
    method Fill(answers: seq<SlotAnswer>) returns (result: FillResult)
      requires IsCounted(Counters()) && active <= capacity
      modifies this
      ensures (Counters(), result) == FillSlots(old(Counters()), capacity, answers, false)
      ensures IsCounted(Counters()) && active <= capacity
      ensures ReportsStart(result) <==> old(next) < next
    {
      FillKeepsBound(Counters(), capacity, answers, false);
      FillReportsStarts(Counters(), capacity, answers, false);
      if active >= capacity { return WasFull; }
      var startedAny, i := false, 0;
      while active < capacity
        invariant i <= |answers|
        invariant FillSlots(Counters(), capacity, answers[i..], startedAny)
               == FillSlots(old(Counters()), capacity, answers, false)
        invariant active >= capacity ==> startedAny
        decreases |answers| - i
      {
        if i == |answers| { return StillWaiting(startedAny); }
        var answer := answers[i];
        assert answers[i..][0] == answer && answers[i..][1..] == answers[i + 1..];
        SettleDuringAwait(answer.settling);
        if answer.started.None? {
          return if startedAny then StartedSome else FoundIdle;
        }
        Started(answer.started.value);
        startedAny := true;
        i := i + 1;
      }
      result := if startedAny then StartedSome else WasFull;
    }
  }
}
