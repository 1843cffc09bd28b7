// Writes and prunes of diagnostic logs that overlap. A write reserves its bytes and
// lands its file later; a prune lists the directory, drops counters later, and
// unlinks files in between and after. Any number of either is under way at once.
module DiagnosticInterleaving {
  import opened DiagnosticRetention

  // `pending` holds the files of writes that have reserved their bytes, `listings`
  // what each prune under way has found in the directory.
  datatype Volume = Volume(disk: Disk, pending: seq<File>, listings: map<nat, seq<File>>)

  datatype Step =
    | Reserved(r: Request)
    | Landed(i: nat)
    | Lost(i: nat)
    | Listed(prune: nat)
    | Forgot(prune: nat, now: Time)
    | Unlinked(i: nat)

  const EMPTY: Volume := Volume(Disk(map[], []), [], map[])

  function Without(files: seq<File>, i: nat): seq<File>
    requires i < |files|
  {
    files[..i] + files[i + 1..]
  }

  /** Which files are unlinked, and when, is left open; a write that fails never lands. */
  function Next(limits: Limits, v: Volume, step: Step): Volume {
    match step
    case Reserved(r) =>
      var (disk, file) := Reserve(limits, v.disk, r);
      v.(disk := disk, pending := v.pending + [file])
    case Landed(i) =>
      if i < |v.pending| then v.(disk := Land(v.disk, v.pending[i]), pending := Without(v.pending, i)) else v
    case Lost(i) => if i < |v.pending| then v.(pending := Without(v.pending, i)) else v
    case Listed(prune) => v.(listings := v.listings[prune := v.disk.files])
    case Forgot(prune, now) =>
      if prune !in v.listings then v
      else
        var live := LiveKeys(Young(v.listings[prune], now - limits.maxAgeMs));
        v.(disk := v.disk.(counters := Remembered(v.disk.counters, live)), listings := v.listings - {prune})
    case Unlinked(i) =>
      if i < |v.disk.files| then v.(disk := v.disk.(files := Without(v.disk.files, i))) else v
  }

  function RunFrom(limits: Limits, v: Volume, steps: seq<Step>): Volume {
    if steps == [] then v else Next(limits, RunFrom(limits, v, steps[..|steps| - 1]), steps[|steps| - 1])
  }

  function Run(limits: Limits, steps: seq<Step>): Volume { RunFrom(limits, EMPTY, steps) }

  lemma {:induction false} RunInParts(limits: Limits, v: Volume, a: seq<Step>, b: seq<Step>)
    ensures RunFrom(limits, v, a + b) == RunFrom(limits, RunFrom(limits, v, a), b)
  {
    if b == [] {
      assert a + b == a;
    } else {
      RunInParts(limits, v, a, b[..|b| - 1]);
      assert (a + b)[..|a + b| - 1] == a + b[..|b| - 1];
    }
  }

  lemma RunStep(limits: Limits, steps: seq<Step>, k: nat)
    requires k < |steps|
    ensures Run(limits, steps[..k + 1]) == Next(limits, Run(limits, steps[..k]), steps[k])
  {
    assert steps[..k + 1][..k] == steps[..k];
  }

  // ---------------------------------------------------------------------
  // What is charged to an attempt
  // ---------------------------------------------------------------------

  function OnDisk(v: Volume, key: string): nat { Sum(KeptFor(key), v.disk.files) }

  /** The bytes of the attempt that are on disk or on their way. */
  function Charge(v: Volume, key: string): nat { OnDisk(v, key) + Sum(KeptFor(key), v.pending) }

  /** The counter accounts for all of them. */
  predicate IsCovered(v: Volume, key: string) { Charge(v, key) <= Counter(v.disk, key) }

  /** A prune about to drop counters listed a young file of the attempt, or nothing is charged to the attempt. */
  predicate IsHarmless(limits: Limits, v: Volume, step: Step, key: string) {
    step.Forgot? && step.prune in v.listings ==>
      key in LiveKeys(Young(v.listings[step.prune], step.now - limits.maxAgeMs)) || Charge(v, key) == 0
  }

  function Budget(limits: Limits): nat { Max(0, limits.maxPerAttemptBytes) }

  lemma ReservingCharges(limits: Limits, v: Volume, r: Request, key: string)
    ensures var after := Next(limits, v, Reserved(r));
      var kept := Charge(after, key) - Charge(v, key);
      && kept >= 0 && OnDisk(after, key) == OnDisk(v, key)
      && Counter(after.disk, key) >= Counter(v.disk, key) + kept
      && (kept > 0 ==> key == KeyOf(r) && kept <= FileBudget(limits, v.disk, key))
  {
    var (disk, file) := Reserve(limits, v.disk, r);
    ReserveIsCovered(limits, v.disk, r);
    BoundedBodyFits(r.body, FileBudget(limits, v.disk, KeyOf(r)));
    assert (v.pending + [file])[..|v.pending|] == v.pending;
  }

  lemma TakenOut(m: Measure, files: seq<File>, i: nat)
    requires i < |files|
    ensures Sum(m, files) == Sum(m, Without(files, i)) + Weight(m, files[i])
  {
    TakingOneOut(m, files, i);
  }

  /** All other steps leave the charge as it was, or lower it. */
  lemma OtherStepsDoNotCharge(limits: Limits, v: Volume, step: Step, key: string)
    requires !step.Reserved?
    ensures Charge(Next(limits, v, step), key) <= Charge(v, key)
    ensures step.Landed? || step.Forgot? ==> Charge(Next(limits, v, step), key) == Charge(v, key)
    ensures !step.Forgot? ==> Next(limits, v, step).disk.counters == v.disk.counters
  {
    match step
    case Landed(i) =>
      if i < |v.pending| {
        TakenOut(KeptFor(key), v.pending, i);
        LandedSum(KeptFor(key), v.disk, v.pending[i]);
      }
    case Lost(i) => if i < |v.pending| { TakenOut(KeptFor(key), v.pending, i); }
    case Unlinked(i) => if i < |v.disk.files| { TakenOut(KeptFor(key), v.disk.files, i); }
    case _ =>
  }

  /** A covered attempt stays covered through a step if and only if the step is harmless to it. */
  lemma CoveredIffHarmless(limits: Limits, v: Volume, step: Step, key: string)
    requires IsCovered(v, key)
    ensures IsCovered(Next(limits, v, step), key) <==> IsHarmless(limits, v, step, key)
  {
    if step.Reserved? {
      ReservingCharges(limits, v, step.r, key);
    } else {
      OtherStepsDoNotCharge(limits, v, step, key);
      if step.Forgot? && step.prune in v.listings { ForgettingIsExact(limits, v, step.prune, step.now, key); }
    }
  }

  lemma ForgettingIsExact(limits: Limits, v: Volume, prune: nat, now: Time, key: string)
    requires prune in v.listings
    ensures var live := LiveKeys(Young(v.listings[prune], now - limits.maxAgeMs));
      Counter(Next(limits, v, Forgot(prune, now)).disk, key) == if key in live then Counter(v.disk, key) else 0
  {}

  /** What every volume of a run satisfies for an attempt that has been covered so far. */
  predicate IsWithinBudget(limits: Limits, v: Volume, key: string) {
    IsCovered(v, key) && Charge(v, key) <= Budget(limits)
  }

  lemma StepStaysWithin(limits: Limits, v: Volume, step: Step, key: string)
    requires IsWithinBudget(limits, v, key)
    ensures Charge(Next(limits, v, step), key) <= Budget(limits)
    ensures IsHarmless(limits, v, step, key) ==> IsWithinBudget(limits, Next(limits, v, step), key)
  {
    CoveredIffHarmless(limits, v, step, key);
    if step.Reserved? {
      ReservingCharges(limits, v, step.r, key);
    } else {
      OtherStepsDoNotCharge(limits, v, step, key);
    }
  }

  /** However writes and prunes overlap, every file on disk or on its way stays within the limit of a file. */
  lemma {:induction false} FilesAlwaysFit(limits: Limits, steps: seq<Step>)
    ensures forall f :: f in Run(limits, steps).disk.files + Run(limits, steps).pending ==> FitsFile(limits, f)
  {
    if steps != [] {
      FilesAlwaysFit(limits, steps[..|steps| - 1]);
      StepFits(limits, Run(limits, steps[..|steps| - 1]), steps[|steps| - 1]);
    }
  }

  lemma StepFits(limits: Limits, v: Volume, step: Step)
    requires forall f :: f in v.disk.files + v.pending ==> FitsFile(limits, f)
    ensures var after := Next(limits, v, step);
      forall f :: f in after.disk.files + after.pending ==> FitsFile(limits, f)
  {
    var after := Next(limits, v, step);
    if step.Reserved? { ReservedFits(limits, v.disk, step.r); }
    forall f | f in after.disk.files + after.pending ensures FitsFile(limits, f) {
      if !step.Reserved? { assert f in v.disk.files + v.pending; }
    }
  }

  // ---------------------------------------------------------------------
  // When the budget holds
  // ---------------------------------------------------------------------

  predicate ForgetsNothing(steps: seq<Step>) { forall i :: 0 <= i < |steps| ==> !steps[i].Forgot? }

  /** However the writes under way and to come go on from here, until the next prune drops counters. */
  ghost predicate StaysWithin(limits: Limits, v: Volume, key: string) {
    forall more :: ForgetsNothing(more) ==> OnDisk(RunFrom(limits, v, more), key) <= Budget(limits)
  }

  predicate HarmlessAt(limits: Limits, steps: seq<Step>, k: nat, key: string)
    requires k < |steps|
  {
    IsHarmless(limits, Run(limits, steps[..k]), steps[k], key)
  }

  predicate AllHarmless(limits: Limits, steps: seq<Step>, n: nat, key: string)
    requires n <= |steps|
  {
    forall k :: 0 <= k < n ==> HarmlessAt(limits, steps, k, key)
  }

  lemma {:induction false} WithinStaysWithin(limits: Limits, v: Volume, key: string, more: seq<Step>)
    requires IsWithinBudget(limits, v, key) && ForgetsNothing(more)
    ensures IsWithinBudget(limits, RunFrom(limits, v, more), key)
  {
    if more != [] {
      WithinStaysWithin(limits, v, key, more[..|more| - 1]);
      StepStaysWithin(limits, RunFrom(limits, v, more[..|more| - 1]), more[|more| - 1], key);
    }
  }

  function Landings(n: nat): (steps: seq<Step>)
    ensures |steps| == n && ForgetsNothing(steps)
  {
    if n == 0 then [] else Landings(n - 1) + [Landed(0)]
  }

  lemma OneLands(limits: Limits, v: Volume, key: string)
    requires v.pending != []
    ensures var after := Next(limits, v, Landed(0));
      Charge(after, key) == Charge(v, key) && |after.pending| == |v.pending| - 1
  {
    OtherStepsDoNotCharge(limits, v, Landed(0), key);
  }

  /** The files of `n` writes under way land. */
  lemma {:induction false} LandingsKeepCharge(limits: Limits, v: Volume, key: string, n: nat)
    requires n <= |v.pending|
    ensures var after := RunFrom(limits, v, Landings(n));
      Charge(after, key) == Charge(v, key) && |after.pending| == |v.pending| - n
  {
    if n > 0 {
      LandingsKeepCharge(limits, v, key, n - 1);
      assert Landings(n)[..n - 1] == Landings(n - 1);
      OneLands(limits, RunFrom(limits, v, Landings(n - 1)), key);
    }
  }

  lemma RunOne(limits: Limits, v: Volume, first: Step, rest: seq<Step>)
    ensures RunFrom(limits, v, [first] + rest) == RunFrom(limits, Next(limits, v, first), rest)
  {
    RunInParts(limits, v, [first], rest);
    assert [first][..0] == [] && RunFrom(limits, v, [first]) == Next(limits, RunFrom(limits, v, []), first);
  }

  /** Once the counter falls short of the charge, further writes spend the difference again. */
  lemma {:induction false} ShortCounterOverspends(limits: Limits, v: Volume, r: Request) returns (more: seq<Step>)
    requires limits.maxFileBytes > 0 && 0 <= Counter(v.disk, KeyOf(r)) < Charge(v, KeyOf(r))
    ensures ForgetsNothing(more) && OnDisk(RunFrom(limits, v, more), KeyOf(r)) > limits.maxPerAttemptBytes
    decreases limits.maxPerAttemptBytes - Counter(v.disk, KeyOf(r))
  {
    var key := KeyOf(r);
    if Counter(v.disk, key) >= limits.maxPerAttemptBytes {
      more := Landings(|v.pending|);
      LandingsKeepCharge(limits, v, key, |v.pending|);
      assert RunFrom(limits, v, more).pending == [];
    } else {
      var first := Reserved(r.(body := [0]));
      OneByteIsKept(limits, v, r);
      var rest := ShortCounterOverspends(limits, Next(limits, v, first), r);
      RunOne(limits, v, first, rest);
      more := [first] + rest;
    }
  }

  lemma OneByteIsKept(limits: Limits, v: Volume, r: Request)
    requires limits.maxFileBytes > 0 && Counter(v.disk, KeyOf(r)) < limits.maxPerAttemptBytes
    ensures var key, after := KeyOf(r), Next(limits, v, Reserved(r.(body := [0])));
      Charge(after, key) == Charge(v, key) + 1 && Counter(after.disk, key) == Counter(v.disk, key) + 1
  {
    var one := r.(body := [0]);
    var (disk, file) := Reserve(limits, v.disk, one);
    OneByteFits(FileBudget(limits, v.disk, KeyOf(r)));
    assert Bodied(one.body, FileBudget(limits, v.disk, KeyOf(r))) == Bounded([0], false);
    assert Kept(file) == 1 && file.key == KeyOf(r) && disk.files == v.disk.files;
    AppendedSum(KeptFor(KeyOf(r)), v.pending, file);
  }

  lemma OneByteFits(budget: int)
    requires budget >= 1
    ensures Bodied([0], budget) == Bounded([0], false) && |Text(Bounded([0], false))| == 1
  {}

  lemma AppendedSum(m: Measure, files: seq<File>, f: File)
    ensures Sum(m, files + [f]) == Sum(m, files) + Weight(m, f)
  {
    assert (files + [f])[..|files|] == files;
  }

  predicate CountersAreCounts(v: Volume) { forall key :: key in v.disk.counters ==> v.disk.counters[key] >= 0 }

  lemma {:induction false} EveryRunCounts(limits: Limits, steps: seq<Step>)
    ensures CountersAreCounts(Run(limits, steps))
  {
    if steps != [] { EveryRunCounts(limits, steps[..|steps| - 1]); }
  }

  /** From a volume within its budget, it stays so until the next drop if and only if the attempt is covered. */
  lemma StaysWithinIffCovered(limits: Limits, v: Volume, r: Request)
    requires limits.maxFileBytes > 0 && CountersAreCounts(v) && Charge(v, KeyOf(r)) <= Budget(limits)
    ensures StaysWithin(limits, v, KeyOf(r)) <==> IsCovered(v, KeyOf(r))
  {
    var key := KeyOf(r);
    if IsCovered(v, key) {
      forall more | ForgetsNothing(more) ensures OnDisk(RunFrom(limits, v, more), key) <= Budget(limits) {
        WithinStaysWithin(limits, v, key, more);
      }
    } else {
      var more := ShortCounterOverspends(limits, v, r);
      assert !(OnDisk(RunFrom(limits, v, more), key) <= Budget(limits));
    }
  }

  /** Under a file budget of nothing no body is ever kept. */
  lemma {:induction false} NoFileBudgetNoCharge(limits: Limits, steps: seq<Step>, key: string)
    requires limits.maxFileBytes <= 0
    ensures Charge(Run(limits, steps), key) == 0
  {
    if steps != [] {
      var init, last := steps[..|steps| - 1], steps[|steps| - 1];
      NoFileBudgetNoCharge(limits, init, key);
      if last.Reserved? {
        ReservingCharges(limits, Run(limits, init), last.r, key);
      } else {
        OtherStepsDoNotCharge(limits, Run(limits, init), last, key);
      }
    }
  }

  lemma HarmlessKeepsWithin(limits: Limits, v: Volume, step: Step, key: string)
    requires IsWithinBudget(limits, v, key) && IsHarmless(limits, v, step, key)
    ensures IsWithinBudget(limits, Next(limits, v, step), key)
  {
    StepStaysWithin(limits, v, step, key);
  }

  lemma EmptyIsWithin(limits: Limits, key: string)
    ensures Run(limits, []) == EMPTY && IsWithinBudget(limits, EMPTY, key)
  {}

  lemma {:induction false} HarmlessMeansWithin(limits: Limits, steps: seq<Step>, n: nat, key: string)
    requires n <= |steps| && AllHarmless(limits, steps, n, key)
    ensures IsWithinBudget(limits, Run(limits, steps[..n]), key)
  {
    if n == 0 {
      EmptyIsWithin(limits, key);
    } else {
      var k := n - 1;
      HarmlessMeansWithin(limits, steps, k, key);
      RunStep(limits, steps, k);
      assert HarmlessAt(limits, steps, k, key);
      HarmlessKeepsWithin(limits, Run(limits, steps[..k]), steps[k], key);
    }
  }

  ghost predicate StaysWithinAt(limits: Limits, steps: seq<Step>, n: nat, key: string)
    requires n <= |steps|
  {
    StaysWithin(limits, Run(limits, steps[..n]), key)
  }

  ghost predicate AlwaysStaysWithin(limits: Limits, steps: seq<Step>, key: string) {
    forall n :: 0 <= n <= |steps| ==> StaysWithinAt(limits, steps, n, key)
  }

  /**
   * At every point of a run, with any writes to follow, the bytes of an attempt
   * on disk stay within its budget if and only if every prune that dropped
   * counters had listed a young file under the attempt's key, or nothing of the
   * attempt was on disk or on its way.
   */
  lemma BudgetHoldsIffForgettingIsHarmless(limits: Limits, steps: seq<Step>, r: Request)
    ensures AlwaysStaysWithin(limits, steps, KeyOf(r)) <==> AllHarmless(limits, steps, |steps|, KeyOf(r))
  {
    var key := KeyOf(r);
    if limits.maxFileBytes <= 0 {
      forall n | 0 <= n <= |steps| ensures StaysWithinAt(limits, steps, n, key) {
        NoFileBudgetStaysWithin(limits, steps[..n], key);
      }
      forall k | 0 <= k < |steps| ensures HarmlessAt(limits, steps, k, key) {
        NoFileBudgetNoCharge(limits, steps[..k], key);
      }
    } else {
      if AllHarmless(limits, steps, |steps|, key) {
        forall n | 0 <= n <= |steps| ensures StaysWithinAt(limits, steps, n, key) {
          HarmlessMeansWithin(limits, steps, n, key);
          EveryRunCounts(limits, steps[..n]);
          StaysWithinIffCovered(limits, Run(limits, steps[..n]), r);
        }
      }
      if AlwaysStaysWithin(limits, steps, key) { StayingWithinMeansHarmless(limits, steps, |steps|, r); }
    }
  }

  lemma NoFileBudgetStaysWithin(limits: Limits, steps: seq<Step>, key: string)
    requires limits.maxFileBytes <= 0
    ensures StaysWithin(limits, Run(limits, steps), key)
  {
    forall more | ForgetsNothing(more)
      ensures OnDisk(RunFrom(limits, Run(limits, steps), more), key) <= Budget(limits)
    {
      RunInParts(limits, EMPTY, steps, more);
      NoFileBudgetNoCharge(limits, steps + more, key);
    }
  }

  lemma StillWithinMeansHarmless(limits: Limits, v: Volume, step: Step, r: Request)
    requires limits.maxFileBytes > 0 && IsWithinBudget(limits, v, KeyOf(r))
    requires CountersAreCounts(Next(limits, v, step)) && StaysWithin(limits, Next(limits, v, step), KeyOf(r))
    ensures IsHarmless(limits, v, step, KeyOf(r))
  {
    StepStaysWithin(limits, v, step, KeyOf(r));
    CoveredIffHarmless(limits, v, step, KeyOf(r));
    StaysWithinIffCovered(limits, Next(limits, v, step), r);
  }

  lemma {:induction false} StayingWithinMeansHarmless(limits: Limits, steps: seq<Step>, n: nat, r: Request)
    requires n <= |steps| && limits.maxFileBytes > 0 && AlwaysStaysWithin(limits, steps, KeyOf(r))
    ensures AllHarmless(limits, steps, n, KeyOf(r))
  {
    if n > 0 {
      var k := n - 1;
      StayingWithinMeansHarmless(limits, steps, k, r);
      HarmlessMeansWithin(limits, steps, k, KeyOf(r));
      RunStep(limits, steps, k);
      EveryRunCounts(limits, steps[..n]);
      assert StaysWithinAt(limits, steps, n, KeyOf(r));
      StillWithinMeansHarmless(limits, Run(limits, steps[..k]), steps[k], r);
    }
  }

  // ---------------------------------------------------------------------
  // Which overlaps fail
  // ---------------------------------------------------------------------

  /** Dropping counters is never harmless to an attempt whose key has an underscore, once it holds anything. */
  lemma UnderscoreIsNeverSpared(limits: Limits, v: Volume, prune: nat, now: Time, key: string)
    requires prune in v.listings && !IsPlain(key)
    ensures IsHarmless(limits, v, Forgot(prune, now), key) <==> Charge(v, key) == 0
  {
    var live := LiveKeys(Young(v.listings[prune], now - limits.maxAgeMs));
    if key in live { LiveKeysArePlain(Young(v.listings[prune], now - limits.maxAgeMs), key); }
  }

  /** A write whose file lands after a whole prune, and a write that falls between the two halves of a prune. */
  function LandsAfterPrune(r: Request, again: Request, now: Time): seq<Step> {
    [Reserved(r), Listed(0), Forgot(0, now), Landed(0), Reserved(again), Landed(0)]
  }

  function FallsWithinPrune(r: Request, again: Request, now: Time): seq<Step> {
    [Listed(0), Reserved(r), Landed(0), Forgot(0, now), Reserved(again), Landed(0)]
  }

  predicate FillsBudget(limits: Limits, r: Request) {
    limits.maxFileBytes >= limits.maxPerAttemptBytes == |r.body| > 0
  }

  /** With a second write of the attempt, either puts twice the budget on disk. */
  lemma OverlapsDouble(limits: Limits, r: Request, again: Request, now: Time)
    requires KeyOf(again) == KeyOf(r) && FillsBudget(limits, r) && FillsBudget(limits, again)
    ensures OnDisk(Run(limits, LandsAfterPrune(r, again, now)), KeyOf(r)) == 2 * limits.maxPerAttemptBytes
    ensures OnDisk(Run(limits, FallsWithinPrune(r, again, now)), KeyOf(r)) == 2 * limits.maxPerAttemptBytes
  {
    LandingAfterDoubles(limits, r, again, now);
    FallingWithinDoubles(limits, r, again, now);
  }

  function WholeFile(r: Request): File {
    File(FileName(r.stamp, KeyOf(r), r.tail), KeyOf(r), Bounded(r.body, false), r.size, r.mtime)
  }

  /** A first write that fills the budget of a volume without a counter for it. */
  lemma FillingWrite(limits: Limits, v: Volume, r: Request)
    requires FillsBudget(limits, r) && KeyOf(r) !in v.disk.counters && v.pending == []
    ensures Next(limits, v, Reserved(r)) == Volume(
      v.disk.(counters := v.disk.counters[KeyOf(r) := |r.body|]), [WholeFile(r)], v.listings)
  {}

  lemma LandingOfOne(limits: Limits, v: Volume, f: File)
    requires v.pending == [f]
    ensures Next(limits, v, Landed(0)) == Volume(Land(v.disk, f), [], v.listings)
  {
    assert Without(v.pending, 0) == [];
  }

  /** A prune that listed an empty directory drops every counter. */
  lemma ForgettingAll(limits: Limits, v: Volume, now: Time)
    requires v.listings == map[0 := []]
    ensures Next(limits, v, Forgot(0, now)) == Volume(v.disk.(counters := map[]), v.pending, map[])
  {
    assert LiveKeys(Young([], now - limits.maxAgeMs)) == {};
    assert v.listings - {0} == map[];
    assert Remembered(v.disk.counters, {}) == map[];
  }

  lemma SecondWriteDoubles(limits: Limits, steps: seq<Step>, r: Request, again: Request)
    requires KeyOf(again) == KeyOf(r) && FillsBudget(limits, r) && FillsBudget(limits, again)
    requires |steps| == 6 && steps[4] == Reserved(again) && steps[5] == Landed(0)
    requires Run(limits, steps[..4]) == Volume(Disk(map[], [WholeFile(r)]), [], map[])
    ensures OnDisk(Run(limits, steps), KeyOf(r)) == 2 * limits.maxPerAttemptBytes
  {
    var v := Run(limits, steps[..4]);
    RunStep(limits, steps, 4);
    RunStep(limits, steps, 5);
    assert steps[..6] == steps;
    FillingWrite(limits, v, again);
    LandingOfOne(limits, Run(limits, steps[..5]), WholeFile(again));
    var files := [WholeFile(r)] + [WholeFile(again)];
    SumOfParts(KeptFor(KeyOf(r)), [WholeFile(r)], [WholeFile(again)]);
    assert [WholeFile(r)][..0] == [] && [WholeFile(again)][..0] == [];
    assert Run(limits, steps).disk.files == files;
  }

  lemma LandingAfterDoubles(limits: Limits, r: Request, again: Request, now: Time)
    requires KeyOf(again) == KeyOf(r) && FillsBudget(limits, r) && FillsBudget(limits, again)
    ensures OnDisk(Run(limits, LandsAfterPrune(r, again, now)), KeyOf(r)) == 2 * limits.maxPerAttemptBytes
  {
    var steps := LandsAfterPrune(r, again, now);
    assert Run(limits, steps[..0]) == EMPTY;
    RunStep(limits, steps, 0);
    FillingWrite(limits, EMPTY, r);
    RunStep(limits, steps, 1);
    RunStep(limits, steps, 2);
    ForgettingAll(limits, Run(limits, steps[..2]), now);
    RunStep(limits, steps, 3);
    LandingOfOne(limits, Run(limits, steps[..3]), WholeFile(r));
    SecondWriteDoubles(limits, steps, r, again);
  }

  lemma FallingWithinDoubles(limits: Limits, r: Request, again: Request, now: Time)
    requires KeyOf(again) == KeyOf(r) && FillsBudget(limits, r) && FillsBudget(limits, again)
    ensures OnDisk(Run(limits, FallsWithinPrune(r, again, now)), KeyOf(r)) == 2 * limits.maxPerAttemptBytes
  {
    var steps := FallsWithinPrune(r, again, now);
    assert Run(limits, steps[..0]) == EMPTY;
    RunStep(limits, steps, 0);
    RunStep(limits, steps, 1);
    FillingWrite(limits, Run(limits, steps[..1]), r);
    RunStep(limits, steps, 2);
    LandingOfOne(limits, Run(limits, steps[..2]), WholeFile(r));
    RunStep(limits, steps, 3);
    ForgettingAll(limits, Run(limits, steps[..3]), now);
    SecondWriteDoubles(limits, steps, r, again);
  }
}
