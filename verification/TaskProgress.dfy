// From a task file to a verified run: packages/autopilot/src/task/task-snapshot.ts,
// packages/autopilot/src/runner/result-normalizer.ts,
// apps/worker/src/development/result-verifier.ts, and the live summary of
// apps/worker/src/progress/progress-observer.ts.
module TaskProgress {
  import opened Wrappers
  import TaskGraph

  // A flag that is absent from the file counts as not set.
  datatype Requirement = Requirement(id: string, dependsOn: seq<string>, passes: bool, stuck: bool, invalidTest: bool)

  datatype Summary = Summary(total: nat, passed: nat, stuck: nat, invalidTest: nat, pending: nat, allPass: bool)

  /** The requirements among the first `n` that carry each flag, by position. */
  function Passing(rs: seq<Requirement>, n: nat): set<nat>
    requires n <= |rs|
  {
    set i: nat | i < n && rs[i].passes
  }

  function Stuck(rs: seq<Requirement>, n: nat): set<nat>
    requires n <= |rs|
  {
    set i: nat | i < n && rs[i].stuck
  }

  function Invalid(rs: seq<Requirement>, n: nat): set<nat>
    requires n <= |rs|
  {
    set i: nat | i < n && rs[i].invalidTest
  }

  function Flagged(rs: seq<Requirement>, n: nat): set<nat>
    requires n <= |rs|
  {
    Passing(rs, n) + Stuck(rs, n) + Invalid(rs, n)
  }

  function One(b: bool): nat { if b then 1 else 0 }

  lemma CountGrows(before: set<nat>, after: set<nat>, n: nat, flag: bool)
    requires n !in before && forall i :: i in after <==> i in before || (flag && i == n)
    ensures |after| == |before| + One(flag)
  {
    if flag {
      assert after == before + {n};
    } else {
      assert after == before;
    }
  }

  predicate IsFlagged(r: Requirement) { r.passes || r.stuck || r.invalidTest }

  /** What one more requirement adds to each count. */
  lemma CountsGrow(rs: seq<Requirement>, n: nat)
    requires n < |rs|
    ensures |Passing(rs, n + 1)| == |Passing(rs, n)| + One(rs[n].passes)
    ensures |Stuck(rs, n + 1)| == |Stuck(rs, n)| + One(rs[n].stuck)
    ensures |Invalid(rs, n + 1)| == |Invalid(rs, n)| + One(rs[n].invalidTest)
    ensures |Flagged(rs, n + 1)| == |Flagged(rs, n)| + One(IsFlagged(rs[n]))
  {
    PassingGrows(rs, n);
    CountGrows(Stuck(rs, n), Stuck(rs, n + 1), n, rs[n].stuck);
    CountGrows(Invalid(rs, n), Invalid(rs, n + 1), n, rs[n].invalidTest);
    CountGrows(Flagged(rs, n), Flagged(rs, n + 1), n, IsFlagged(rs[n]));
  }

  predicate AllPass(rs: seq<Requirement>) { forall i :: 0 <= i < |rs| ==> rs[i].passes }

  lemma PassingGrows(rs: seq<Requirement>, n: nat)
    requires n < |rs|
    ensures |Passing(rs, n + 1)| == |Passing(rs, n)| + One(rs[n].passes)
  {
    CountGrows(Passing(rs, n), Passing(rs, n + 1), n, rs[n].passes);
  }

  predicate FirstPass(rs: seq<Requirement>, n: nat)
    requires n <= |rs|
  {
    forall i :: 0 <= i < n ==> rs[i].passes
  }

  lemma FirstPassGrows(rs: seq<Requirement>, n: nat)
    requires n < |rs|
    ensures FirstPass(rs, n + 1) <==> FirstPass(rs, n) && rs[n].passes
  {}

  lemma {:induction false} PassingIsAll(rs: seq<Requirement>, n: nat)
    requires n <= |rs|
    ensures |Passing(rs, n)| <= n
    ensures |Passing(rs, n)| == n <==> FirstPass(rs, n)
  {
    if n > 0 {
      PassingIsAll(rs, n - 1);
      PassingGrows(rs, n - 1);
      FirstPassGrows(rs, n - 1);
    }
  }

  /** What is pending is what carries none of the three flags. */
  method SummarizeTaskFile(rs: seq<Requirement>) returns (s: Summary)
    ensures s.total == |rs| && s.passed == |Passing(rs, |rs|)|
    ensures s.stuck == |Stuck(rs, |rs|)| && s.invalidTest == |Invalid(rs, |rs|)|
    ensures s.pending == |rs| - |Flagged(rs, |rs|)|
    ensures s.allPass <==> rs != [] && AllPass(rs)
  {
    var passed, stuck, invalidTest, pending := 0, 0, 0, 0;
    for i := 0 to |rs|
      invariant passed == |Passing(rs, i)| && stuck == |Stuck(rs, i)| && invalidTest == |Invalid(rs, i)|
      invariant pending == i - |Flagged(rs, i)|
    {
      CountsGrow(rs, i);
      if rs[i].passes { passed := passed + 1; }
      if rs[i].stuck { stuck := stuck + 1; }
      if rs[i].invalidTest { invalidTest := invalidTest + 1; }
      if !rs[i].passes && !rs[i].stuck && !rs[i].invalidTest { pending := pending + 1; }
    }
    PassingIsAll(rs, |rs|);
    s := Summary(|rs|, passed, stuck, invalidTest, pending, |rs| > 0 && passed == |rs|);
  }

  // ---------------------------------------------------------------------
  // The live summary
  // ---------------------------------------------------------------------

  // `remaining` can be negative.
  datatype Observed = Observed(
    total: nat, passed: nat, stuck: nat, invalidTest: nat, remaining: int, allPass: bool, ready: nat, blocked: int)

  function Wires(rs: seq<Requirement>): (w: seq<TaskGraph.Requirement>)
    ensures |w| == |rs|
    ensures forall i :: 0 <= i < |rs| ==> w[i] == TaskGraph.Requirement(rs[i].id, rs[i].dependsOn, rs[i].passes)
  {
    seq(|rs|, i requires 0 <= i < |rs| => TaskGraph.Requirement(rs[i].id, rs[i].dependsOn, rs[i].passes))
  }

  function Ready(rs: seq<Requirement>): set<nat> {
    set i: nat | i < |rs| && TaskGraph.IsReady(Wires(rs), Wires(rs)[i])
  }

  function ComputeSummary(rs: seq<Requirement>): Observed {
    var total, passed := |rs|, |Passing(rs, |rs|)|;
    var stuck, invalidTest, ready := |Stuck(rs, |rs|)|, |Invalid(rs, |rs|)|, |Ready(rs)|;
    Observed(total, passed, stuck, invalidTest, total - passed - stuck - invalidTest, passed == total,
             ready, total - ready)
  }

  predicate CarriesTwoFlags(r: Requirement) {
    (r.passes && r.stuck) || (r.passes && r.invalidTest) || (r.stuck && r.invalidTest)
  }

  /**
   * The observer never counts more remaining requirements than are pending, and
   * it counts as many if and only if no requirement carries two flags.
   */
  lemma RemainingIsPendingIff(rs: seq<Requirement>)
    ensures var pending := |rs| - |Flagged(rs, |rs|)|;
      && ComputeSummary(rs).remaining <= pending
      && (ComputeSummary(rs).remaining == pending <==> forall i :: 0 <= i < |rs| ==> !CarriesTwoFlags(rs[i]))
  {
    var a, b, c := Passing(rs, |rs|), Stuck(rs, |rs|), Invalid(rs, |rs|);
    if !forall i :: 0 <= i < |rs| ==> !CarriesTwoFlags(rs[i]) {
      var i: nat :| i < |rs| && CarriesTwoFlags(rs[i]);
      assert i in a * b || i in (a + b) * c;
    } else {
      assert a * b == {} && (a + b) * c == {};
    }
  }

  /** The requirements among the first `n` that wait for a dependency, and those that do not. */
  function Waiting(rs: seq<Requirement>, n: nat): set<nat>
    requires n <= |rs|
  {
    set i: nat | i < n && !TaskGraph.IsReady(Wires(rs), Wires(rs)[i])
  }

  function FirstReady(rs: seq<Requirement>, n: nat): set<nat>
    requires n <= |rs|
  {
    set i: nat | i < n && TaskGraph.IsReady(Wires(rs), Wires(rs)[i])
  }

  lemma {:induction false} ReadyOrWaiting(rs: seq<Requirement>, n: nat)
    requires n <= |rs|
    ensures |FirstReady(rs, n)| + |Waiting(rs, n)| == n
  {
    if n > 0 {
      ReadyOrWaiting(rs, n - 1);
      var ready := TaskGraph.IsReady(Wires(rs), Wires(rs)[n - 1]);
      CountGrows(FirstReady(rs, n - 1), FirstReady(rs, n), n - 1, ready);
      CountGrows(Waiting(rs, n - 1), Waiting(rs, n), n - 1, !ready);
    }
  }

  /** The other counts are those of the requirements that carry a flag, are ready, and wait. */
  lemma SummaryCounts(rs: seq<Requirement>)
    ensures var s := ComputeSummary(rs);
      && s.total == |rs| && s.passed == |Passing(rs, |rs|)|
      && s.stuck == |Stuck(rs, |rs|)| && s.invalidTest == |Invalid(rs, |rs|)|
      && s.ready == |Ready(rs)| && s.blocked == |Waiting(rs, |rs|)|
  {
    ReadyOrWaiting(rs, |rs|);
    assert FirstReady(rs, |rs|) == Ready(rs);
  }

  /** The two notions of all requirements passing differ exactly on the empty task. */
  lemma AllPassDiffersOnlyWhenEmpty(rs: seq<Requirement>)
    ensures ComputeSummary(rs).allPass <==> rs == [] || AllPass(rs)
    ensures (ComputeSummary(rs).allPass <==> (rs != [] && AllPass(rs))) <==> rs != []
  {
    PassingIsAll(rs, |rs|);
  }

  /** Until an accepted task is done, the observer counts a ready requirement among those that do not pass. */
  lemma ObserverSeesReadyWork(rs: seq<Requirement>)
    requires TaskGraph.IsSound(Wires(rs)) && !AllPass(rs)
    ensures ComputeSummary(rs).ready > |Ready(rs) * Passing(rs, |rs|)|
  {
    var w := Wires(rs);
    var k :| 0 <= k < |rs| && !rs[k].passes;
    assert !w[k].passes;
    TaskGraph.AcceptedNeverDeadlocks(w);
    var i: nat :| i < |w| && !w[i].passes && TaskGraph.IsReady(w, w[i]);
    var both := Ready(rs) * Passing(rs, |rs|);
    assert i in Ready(rs) && i !in both;
    assert both <= Ready(rs) - {i};
    SubsetIsSmaller(both, Ready(rs) - {i});
  }

  // ---------------------------------------------------------------------
  // Verifying a run
  // ---------------------------------------------------------------------

  datatype Progress = Progress(total: nat, passed: nat, stuck: nat, invalidTest: nat, remaining: nat, allPass: bool)

  datatype RunOutcome = RunSucceeded | RunFailed | RunCancelled | RunInterrupted | RunIncomplete

  datatype RunResult = RunResult(
    exitCode: Option<int>, signal: Option<string>, outcome: RunOutcome, allPass: bool, progress: Progress)

  datatype FailureKind = ProcessFailure | TaskResultFailure

  datatype Verification = Verified | NotVerified(kind: FailureKind)

  /** progressFromDocument: what is pending is reported as remaining. */
  method ProgressFromDocument(rs: seq<Requirement>) returns (p: Progress)
    ensures p == ProgressOf(rs)
  {
    var s := SummarizeTaskFile(rs);
    FlaggedAtMostAll(rs, |rs|);
    p := Progress(s.total, s.passed, s.stuck, s.invalidTest, s.pending, s.allPass);
  }

  function ProgressOf(rs: seq<Requirement>): Progress {
    FlaggedAtMostAll(rs, |rs|);
    Progress(|rs|, |Passing(rs, |rs|)|, |Stuck(rs, |rs|)|, |Invalid(rs, |rs|)|, |rs| - |Flagged(rs, |rs|)|,
             rs != [] && AllPass(rs))
  }

  lemma {:induction false} FlaggedAtMostAll(rs: seq<Requirement>, n: nat)
    requires n <= |rs|
    ensures |Flagged(rs, n)| <= n
  {
    if n > 0 {
      FlaggedAtMostAll(rs, n - 1);
      CountsGrow(rs, n - 1);
    }
  }

  function ClassifyOutcome(exitCode: Option<int>, signal: Option<string>, allPass: bool): RunOutcome {
    if signal == Some("SIGUSR1") then RunCancelled
    else if signal == Some("SIGKILL") || signal == Some("SIGTERM") then RunInterrupted
    else if exitCode == Some(0) && allPass then RunSucceeded
    else if exitCode == Some(0) && !allPass then RunIncomplete
    else if exitCode == None then RunInterrupted
    else RunFailed
  }

  function NormalizeRunResult(exitCode: Option<int>, signal: Option<string>, progress: Progress): RunResult {
    RunResult(exitCode, signal, ClassifyOutcome(exitCode, signal, progress.allPass), progress.allPass, progress)
  }

  function VerifyDevelopmentResult(r: RunResult): Verification {
    var complete :=
      r.progress.total > 0 && r.progress.passed == r.progress.total && r.progress.remaining == 0
      && r.progress.stuck == 0 && r.progress.invalidTest == 0;
    var succeeded := r.exitCode == Some(0) && r.signal == None && r.outcome == RunSucceeded && r.allPass;
    if succeeded && complete then Verified
    else if r.exitCode != Some(0) || r.signal != None || r.outcome == RunFailed || r.outcome == RunInterrupted
      || r.outcome == RunCancelled then NotVerified(ProcessFailure)
    else NotVerified(TaskResultFailure)
  }

  /** The program was asked to stop with one of the three signals it classifies. */
  predicate IsStopSignal(signal: Option<string>) {
    signal == Some("SIGUSR1") || signal == Some("SIGKILL") || signal == Some("SIGTERM")
  }

  /**
   * How a run is called: cancelled or interrupted by its signal, interrupted
   * without an exit code, and otherwise succeeded, incomplete or failed by its
   * exit code and its task.
   */
  lemma OutcomesAreExact(rs: seq<Requirement>, exitCode: Option<int>, signal: Option<string>)
    ensures var outcome := NormalizeRunResult(exitCode, signal, ProgressOf(rs)).outcome;
      var done, ran := rs != [] && AllPass(rs), !IsStopSignal(signal) && exitCode.Some?;
      && (outcome == RunCancelled <==> signal == Some("SIGUSR1"))
      && (outcome == RunInterrupted <==>
            signal == Some("SIGKILL") || signal == Some("SIGTERM") || (signal != Some("SIGUSR1") && exitCode == None))
      && (outcome == RunSucceeded <==> ran && exitCode == Some(0) && done)
      && (outcome == RunIncomplete <==> ran && exitCode == Some(0) && !done)
      && (outcome == RunFailed <==> ran && exitCode != Some(0))
  {}

  /** The verdict on any result, also one whose parts do not fit together: everything has to be right. */
  lemma VerdictsAreExact(r: RunResult)
    ensures var v, p := VerifyDevelopmentResult(r), r.progress;
      var verified :=
        && r.exitCode == Some(0) && r.signal == None && r.outcome == RunSucceeded && r.allPass
        && p.total > 0 && p.passed == p.total && p.remaining == 0 && p.stuck == 0 && p.invalidTest == 0;
      && (v == Verified <==> verified)
      && (v == NotVerified(ProcessFailure) <==> r.exitCode != Some(0) || r.signal != None || WasStopped(r.outcome))
  {}

  predicate IsClean(rs: seq<Requirement>) {
    rs != [] && forall i :: 0 <= i < |rs| ==> rs[i].passes && !rs[i].stuck && !rs[i].invalidTest
  }

  /** What the verifier asks of the progress of a run. */
  predicate IsComplete(p: Progress) {
    p.total > 0 && p.passed == p.total && p.remaining == 0 && p.stuck == 0 && p.invalidTest == 0 && p.allPass
  }

  lemma CompleteIffClean(rs: seq<Requirement>)
    ensures IsComplete(ProgressOf(rs)) <==> IsClean(rs)
  {
    PassingIsAll(rs, |rs|);
    NoneIsStuckIff(rs);
    NoneIsInvalidIff(rs);
    if IsClean(rs) {
      assert Flagged(rs, |rs|) == Passing(rs, |rs|);
    }
  }

  lemma NoneIsStuckIff(rs: seq<Requirement>)
    ensures |Stuck(rs, |rs|)| == 0 <==> forall i :: 0 <= i < |rs| ==> !rs[i].stuck
  {
    forall i: nat | i < |rs| && rs[i].stuck ensures i in Stuck(rs, |rs|) {}
  }

  lemma NoneIsInvalidIff(rs: seq<Requirement>)
    ensures |Invalid(rs, |rs|)| == 0 <==> forall i :: 0 <= i < |rs| ==> !rs[i].invalidTest
  {
    forall i: nat | i < |rs| && rs[i].invalidTest ensures i in Invalid(rs, |rs|) {}
  }

  /**
   * From task file to verdict: a run verifies if and only if its process exited
   * with 0, unsignalled, and its task has requirements, all of which pass and
   * none of which is stuck or has an invalid test. Of the rest, a run is blamed
   * on the process if and only if it did not exit with 0 or was signalled.
   */
  lemma VerificationIsExact(rs: seq<Requirement>, exitCode: Option<int>, signal: Option<string>)
    ensures var v := VerifyDevelopmentResult(NormalizeRunResult(exitCode, signal, ProgressOf(rs)));
      && (v == Verified <==> exitCode == Some(0) && signal == None && IsClean(rs))
      && (v == NotVerified(ProcessFailure) <==> exitCode != Some(0) || signal != None)
      && (v == NotVerified(TaskResultFailure) <==> exitCode == Some(0) && signal == None && !IsClean(rs))
  {
    CompleteIffClean(rs);
  }

  predicate HasStuckOrInvalid(rs: seq<Requirement>) {
    exists i :: 0 <= i < |rs| && (rs[i].stuck || rs[i].invalidTest)
  }

  predicate WasStopped(outcome: RunOutcome) {
    outcome == RunFailed || outcome == RunInterrupted || outcome == RunCancelled
  }

  /**
   * The verdict and the outcome, which are computed apart from each other, agree:
   * the verdict follows from the outcome, from whether there was a signal, and
   * from whether a requirement is stuck or has an invalid test.
   */
  lemma VerdictFollowsFromOutcome(rs: seq<Requirement>, exitCode: Option<int>, signal: Option<string>)
    ensures var r := NormalizeRunResult(exitCode, signal, ProgressOf(rs));
      VerifyDevelopmentResult(r) ==
      if WasStopped(r.outcome) || signal != None then NotVerified(ProcessFailure)
      else if r.outcome == RunSucceeded && !HasStuckOrInvalid(rs) then Verified
      else NotVerified(TaskResultFailure)
  {
    VerificationIsExact(rs, exitCode, signal);
  }

  /**
   * A run is called succeeded and still not verified exactly when a stray signal,
   * a stuck or an invalid requirement remains.
   */
  lemma SucceededIsNotVerified(rs: seq<Requirement>, exitCode: Option<int>, signal: Option<string>)
    requires NormalizeRunResult(exitCode, signal, ProgressOf(rs)).outcome == RunSucceeded
    ensures VerifyDevelopmentResult(NormalizeRunResult(exitCode, signal, ProgressOf(rs))) != Verified <==>
            signal != None || HasStuckOrInvalid(rs)
  {
    VerificationIsExact(rs, exitCode, signal);
  }
}
