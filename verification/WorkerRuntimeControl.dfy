// What the supervisor's loop waits for next, over all runs: when it asks for work,
// beats, sleeps, stops and throws.
module WorkerRuntimeControl {
  import opened Wrappers
  import opened WorkerRuntime

  // ---------------------------------------------------------------------
  // Stopping
  // ---------------------------------------------------------------------

  predicate IsStopping(pc: Pc) { pc.Drain? || pc.LastBeat? || pc.Returned? }

  /** `run` stops only once it has been told to, however idle it is. */
  lemma {:induction false} StopsOnlyOnAbort(requested: int, steps: seq<Step>)
    ensures IsStopping(Run(requested, steps).pc) ==> Run(requested, steps).aborted
  {
    if steps != [] {
      StopsOnlyOnAbort(requested, steps[..|steps| - 1]);
      StoppingNeedsAbort(Run(requested, steps[..|steps| - 1]), steps[|steps| - 1]);
    }
  }

  lemma StoppingNeedsAbort(s: State, step: Step)
    requires IsStopping(s.pc) ==> s.aborted
    ensures IsStopping(Next(s, step).pc) ==> Next(s, step).aborted
  {}

  /** It is told to if and only if the signal was given, and it stays so. */
  lemma {:induction false} AbortedIff(requested: int, steps: seq<Step>)
    ensures Run(requested, steps).aborted <==> Abort in steps
  {
    if steps != [] {
      var init, last := steps[..|steps| - 1], steps[|steps| - 1];
      AbortedIff(requested, init);
      assert steps == init + [last];
    }
  }

  // ---------------------------------------------------------------------
  // What follows on each answer
  // ---------------------------------------------------------------------

  /** The answer brings the loop to its condition. */
  predicate IsWake(s: State, step: Step) { step.Answer? && (s.pc.FirstBeat? || s.pc.Sleep?) }

  predicate IsFull(s: State) { s.slots.active >= s.capacity }

  /** With this answer the round of slots is over: there is no job, or the last free slot is taken. */
  predicate EndsRound(s: State, step: Step) {
    s.pc.StartSlot? && step.Slot? && (step.started.None? || s.slots.active + 1 >= s.capacity)
  }

  /** The round has started a job, with this answer or before. */
  predicate HasStarted(s: State, step: Step)
    requires s.pc.StartSlot? && step.Slot?
  {
    s.pc.startedAny || step.started.Some?
  }

  predicate IsLoopAnswer(s: State, step: Step) {
    IsWake(s, step) || (s.pc.Beat? && step.Answer?) || (s.pc.StartSlot? && step.Slot?)
  }

  /** What the loop waits for after an answer. */
  predicate LeadsSo(s: State, step: Step, after: State)
    requires IsLoopAnswer(s, step)
  {
    var over := EndsRound(s, step) || (s.pc.Beat? && IsFull(s));
    var again := IsWake(s, step) || (EndsRound(s, step) && HasStarted(s, step));
    var goesOn := s.pc.Beat? || (s.pc.StartSlot? && !EndsRound(s, step));
    && after.capacity == s.capacity && after.aborted == s.aborted
    && (IsStopping(after.pc) <==> s.aborted && (IsWake(s, step) || over))
    && (after.pc.Beat? <==> !s.aborted && again && step.beatDue)
    && (after.pc.StartSlot? <==> !IsFull(after) && (goesOn || (!s.aborted && again && !step.beatDue)))
    && (after.pc.Sleep? <==> !s.aborted && (if again then !step.beatDue && IsFull(after) else over))
  }

  /**
   * Every answer that the loop gets: it stops exactly when it comes to its
   * condition, or to the end of a round, aborted; otherwise it beats exactly when
   * a beat is due as it comes to its condition; it asks for a job exactly when it
   * has a free slot and neither sleeps nor beats first; and it sleeps exactly when
   * it is full or its round has found no job.
   */
  lemma AnswersLeadSo(requested: int, steps: seq<Step>, step: Step)
    requires IsLoopAnswer(Run(requested, steps), step)
    ensures LeadsSo(Run(requested, steps), step, Run(requested, steps + [step]))
  {
    ActiveIsExact(requested, steps);
    assert (steps + [step])[..|steps|] == steps;
    AnswerLeadsSo(Run(requested, steps), step);
  }

  lemma AnswerLeadsSo(s: State, step: Step)
    requires IsBounded(s) && IsLoopAnswer(s, step)
    ensures LeadsSo(s, step, Next(s, step))
  {}

  /** In particular a run that was not told to stop and is woken with a free slot asks for a job, or beats first. */
  lemma WakesToWork(requested: int, steps: seq<Step>, beatDue: bool)
    requires var s := Run(requested, steps); s.pc.Sleep? && !s.aborted && s.slots.active < Capacity(requested)
    ensures Run(requested, steps + [Answer(beatDue)]).pc == if beatDue then Beat else StartSlot(false)
    ensures Run(requested, steps + [Answer(true), Answer(beatDue)]).pc == StartSlot(false)
  {
    ActiveIsExact(requested, steps);
    assert (steps + [Answer(beatDue)])[..|steps|] == steps;
    var beating := steps + [Answer(true)];
    assert beating[..|steps|] == steps;
    assert (steps + [Answer(true), Answer(beatDue)])[..|steps| + 1] == beating;
  }

  // ---------------------------------------------------------------------
  // Rounds
  // ---------------------------------------------------------------------

  /** The last answer was a job started. */
  function JustStarted(requested: int, steps: seq<Step>): bool {
    if steps == [] then false
    else
      var init, last := steps[..|steps| - 1], steps[|steps| - 1];
      var pc := Run(requested, init).pc;
      if last.Slot? && pc.StartSlot? then last.started.Some?
      else if last.Answer? && (pc.FirstBeat? || pc.Beat? || pc.Sleep?) then false
      else JustStarted(requested, init)
  }

  /** While it asks for a job, the loop knows whether its round has started one: it has if and only if it just did. */
  lemma {:induction false} RoundsAreRemembered(requested: int, steps: seq<Step>)
    ensures Run(requested, steps).pc.StartSlot? ==>
      (Run(requested, steps).pc.startedAny <==> JustStarted(requested, steps))
  {
    if steps != [] {
      RoundsAreRemembered(requested, steps[..|steps| - 1]);
      ActiveIsExact(requested, steps[..|steps| - 1]);
      RoundIsRemembered(Run(requested, steps[..|steps| - 1]), steps[|steps| - 1],
                        JustStarted(requested, steps[..|steps| - 1]));
    }
  }

  lemma RoundIsRemembered(s: State, step: Step, justStarted: bool)
    requires IsBounded(s) && (s.pc.StartSlot? ==> (s.pc.startedAny <==> justStarted))
    ensures var after := Next(s, step);
      var now := if step.Slot? && s.pc.StartSlot? then step.started.Some?
                 else if step.Answer? && (s.pc.FirstBeat? || s.pc.Beat? || s.pc.Sleep?) then false
                 else justStarted;
      after.pc.StartSlot? ==> (after.pc.startedAny <==> now)
  {}

  /** The loop is told to stop as it asks for a job, and jobs are started and settle `n` times. */
  function StartsAfterAbort(a: AttemptId, n: nat): seq<Step> {
    if n == 0 then [Answer(false), Abort]
    else StartsAfterAbort(a, n - 1) + [Slot(Some(a), false)] + [Complete(n - 1)]
  }

  /** A round looks at no signal: as long as jobs settle, any number of new ones is started after the abort. */
  lemma {:induction false} AbortedRoundsGoOn(a: AttemptId, n: nat)
    ensures var s := Run(2, StartsAfterAbort(a, n));
      && s.aborted && s.slots == Slots(0, map[], map[], n) && s.pc.StartSlot? && s.capacity == 2
  {
    var steps := StartsAfterAbort(a, n);
    if n == 0 {
      var asked := Extend(2, steps, 0);
      var aborted := Extend(2, steps, 1);
      assert steps[..0] == [] && steps[..2] == steps;
    } else {
      AbortedRoundsGoOn(a, n - 1);
      var before := StartsAfterAbort(a, n - 1);
      var started := before + [Slot(Some(a), false)];
      assert started[..|before|] == before && steps[..|started|] == started;
      OneMoreJob(Run(2, before), a);
    }
  }

  lemma OneMoreJob(s: State, a: AttemptId)
    requires s.capacity == 2 && s.pc.StartSlot? && s.slots == Slots(0, map[], map[], s.slots.next)
    ensures Next(Next(s, Slot(Some(a), false)), Complete(s.slots.next)) ==
            s.(pc := StartSlot(true), slots := Slots(0, map[], map[], s.slots.next + 1))
  {
    var t := Track(s.slots, a);
    assert t.byAttempt - {a} == map[] && t.jobs - {s.slots.next} == map[];
  }

  // ---------------------------------------------------------------------
  // Throwing
  // ---------------------------------------------------------------------

  /** A heartbeat or the request for a job throws. */
  predicate IsThrown(s: State, step: Step) {
    step == Fail && (s.pc.FirstBeat? || s.pc.Beat? || s.pc.LastBeat? || s.pc.StartSlot?)
  }

  predicate HasThrown(requested: int, steps: seq<Step>) {
    steps != [] &&
    var init := steps[..|steps| - 1];
    HasThrown(requested, init) || IsThrown(Run(requested, init), steps[|steps| - 1])
  }

  /** `run` throws if and only if one of its heartbeats or requests for a job did, at once and for good. */
  lemma {:induction false} ThrewIff(requested: int, steps: seq<Step>)
    ensures Run(requested, steps).pc.Threw? <==> HasThrown(requested, steps)
  {
    if steps != [] {
      ThrewIff(requested, steps[..|steps| - 1]);
      ThrowingIsFinal(Run(requested, steps[..|steps| - 1]), steps[|steps| - 1]);
    }
  }

  lemma ThrowingIsFinal(s: State, step: Step)
    ensures Next(s, step).pc.Threw? <==> s.pc.Threw? || IsThrown(s, step)
    ensures s.pc.Returned? ==> Next(s, step).pc.Returned?
  {}

  // ---------------------------------------------------------------------
  // Winding down
  // ---------------------------------------------------------------------

  /** Once the promises that it waits for have settled, two answers take a run that is stopping to its end. */
  lemma DrainsAndReturns(requested: int, steps: seq<Step>)
    requires var s := Run(requested, steps); s.pc.Drain? && s.pc.waiting !! s.slots.jobs.Keys
    ensures Run(requested, steps + [Drained]).pc == LastBeat
    ensures Run(requested, steps + [Drained, Answer(false)]).pc == Returned
  {
    assert (steps + [Drained])[..|steps|] == steps;
    assert (steps + [Drained, Answer(false)])[..|steps| + 1] == steps + [Drained];
  }
}
