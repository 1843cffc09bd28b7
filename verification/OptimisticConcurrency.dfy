// Reading a feature's row, deciding on a transition and writing it back are
// three separate steps of each writer, interleaved with those of every other.
// A title edit is a read and a write of the same row outside this protocol.
module OptimisticConcurrency {
  import opened Wrappers
  import opened FeatureStateMachine

  datatype Row = Row(state: FeatureState, version: nat)

  // What one writer holds between its steps.
  datatype Writer = Idle | HasRead(read: Row) | HasDecided(transition: AppliedTransition) | Editing(seen: Row)

  // A write that landed: a transition, or an edit that found one state and left another.
  datatype Change = Moved(transition: AppliedTransition) | Edited(from: FeatureState, to: FeatureState)

  // `log` lists the writes that landed, oldest first.
  datatype System = System(start: Row, row: Row, writers: map<nat, Writer>, log: seq<Change>)

  datatype Step =
    | Read(who: nat)
    | Decide(who: nat, to: FeatureState, owner: TransitionOwner, op: OperationId)
    | Write(who: nat)
    | EditRead(who: nat)
    | EditWrite(who: nat)

  function WriterOf(s: System, who: nat): Writer {
    if who in s.writers then s.writers[who] else Idle
  }

  function Command(read: Row, to: FeatureState, owner: TransitionOwner, op: OperationId): TransitionCommand {
    TransitionCommand(read.state, to, owner, op, read.version, read.version, Some(read.state), None, None)
  }

  /** UPDATE ... WHERE state = prior AND row_version = priorVersion finds the row. */
  predicate Matches(row: Row, t: AppliedTransition) {
    row.state == t.prior && row.version == t.priorVersion
  }

  function Next(s: System, step: Step): System {
    match step
    case Read(who) => Holding(s, who, HasRead(s.row))
    case Decide(who, to, owner, op) =>
      (match WriterOf(s, who)
       case HasRead(read) =>
         (match ApplyFeatureTransition(Command(read, to, owner, op))
          case Applied(t) => Holding(s, who, HasDecided(t))
          case _ => Holding(s, who, Idle))
       case _ => s)
    case Write(who) =>
      (match WriterOf(s, who)
       case HasDecided(t) =>
         if Matches(s.row, t) then Landing(s, who, Row(t.next, t.nextVersion), Moved(t)) else Holding(s, who, Idle)
       case _ => s)
    case EditRead(who) => Holding(s, who, Editing(s.row))
    case EditWrite(who) =>
      // The edit writes the state that it read, whatever the row holds by now, and keeps the version.
      (match WriterOf(s, who)
       case Editing(seen) => Landing(s, who, s.row.(state := seen.state), Edited(s.row.state, seen.state))
       case _ => s)
  }

  function Holding(s: System, who: nat, w: Writer): System { s.(writers := s.writers[who := w]) }

  function Landing(s: System, who: nat, row: Row, change: Change): System {
    System(s.start, row, s.writers[who := Idle], s.log + [change])
  }

  function Run(start: Row, steps: seq<Step>): System {
    if steps == [] then System(start, start, map[], [])
    else Next(Run(start, steps[..|steps| - 1]), steps[|steps| - 1])
  }

  // ---------------------------------------------------------------------
  // What every run keeps
  // ---------------------------------------------------------------------

  /** The row after the writes of a log. */
  function RowAfter(start: Row, log: seq<Change>): Row {
    if log == [] then start
    else
      match log[|log| - 1]
      case Moved(t) => Row(t.next, t.nextVersion)
      case Edited(_, to) => RowAfter(start, log[..|log| - 1]).(state := to)
  }

  predicate IsEdge(t: AppliedTransition) {
    t.nextVersion == t.priorVersion + 1 && IsAllowed(t.prior, t.next, t.owner)
  }

  /** `read` is a row the feature once had. */
  ghost predicate WasStored(start: Row, log: seq<Change>, read: Row) {
    exists k :: 0 <= k <= |log| && RowAfter(start, log[..k]) == read
  }

  /** A transition starts where the row was and takes an edge; an edit restores a state that was stored before. */
  ghost predicate IsLink(start: Row, log: seq<Change>, i: nat)
    requires i < |log|
  {
    match log[i]
    case Moved(t) => Matches(RowAfter(start, log[..i]), t) && IsEdge(t)
    case Edited(from, to) =>
      && from == RowAfter(start, log[..i]).state
      && exists read: Row :: read.state == to && WasStored(start, log[..i], read)
  }

  ghost predicate IsChain(start: Row, log: seq<Change>) {
    forall i {:trigger IsLink(start, log, i)} :: 0 <= i < |log| ==> IsLink(start, log, i)
  }

  ghost predicate Held(start: Row, log: seq<Change>, w: Writer) {
    match w
    case Idle => true
    case HasRead(read) => WasStored(start, log, read)
    case HasDecided(t) => WasStored(start, log, Row(t.prior, t.priorVersion)) && IsEdge(t)
    case Editing(seen) => WasStored(start, log, seen)
  }

  ghost predicate Inv(s: System) {
    && IsChain(s.start, s.log) && s.row == RowAfter(s.start, s.log)
    && forall who :: who in s.writers ==> Held(s.start, s.log, s.writers[who])
  }

  lemma StepKeepsInv(s: System, step: Step)
    requires Inv(s)
    ensures Inv(Next(s, step))
  {
    CurrentWasStored(s);
    match step {
      case Write(who) =>
        if WriterOf(s, who).HasDecided? && Matches(s.row, WriterOf(s, who).transition) {
          assert Held(s.start, s.log, s.writers[who]);
          LandingKeepsInv(s, who, Next(s, step).row, Moved(WriterOf(s, who).transition));
        }
      case EditWrite(who) =>
        if WriterOf(s, who).Editing? {
          var seen := WriterOf(s, who).seen;
          assert Held(s.start, s.log, s.writers[who]);
          LandingKeepsInv(s, who, Next(s, step).row, Edited(s.row.state, seen.state));
        }
      case _ =>
    }
  }

  lemma CurrentWasStored(s: System)
    requires s.row == RowAfter(s.start, s.log)
    ensures WasStored(s.start, s.log, s.row)
  {
    assert s.log[..|s.log|] == s.log;
  }

  /** A write whose change continues the log. */
  lemma LandingKeepsInv(s: System, who: nat, row: Row, change: Change)
    requires Inv(s) && IsLink(s.start, s.log + [change], |s.log|)
    requires row == RowAfter(s.start, s.log + [change])
    ensures Inv(Landing(s, who, row, change))
  {
    var log := s.log + [change];
    forall i | 0 <= i < |log| ensures IsLink(s.start, log, i) {
      if i < |s.log| { LinkStays(s.start, s.log, change, i); }
    }
    forall w | w in s.writers ensures Held(s.start, log, s.writers[w]) {
      HeldStays(s.start, s.log, change, s.writers[w]);
    }
  }

  lemma LinkStays(start: Row, log: seq<Change>, change: Change, i: nat)
    requires i < |log| && IsLink(start, log, i)
    ensures IsLink(start, log + [change], i)
  {
    assert (log + [change])[..i] == log[..i];
  }

  lemma StoredStays(start: Row, log: seq<Change>, change: Change, read: Row)
    requires WasStored(start, log, read)
    ensures WasStored(start, log + [change], read)
  {
    var k :| 0 <= k <= |log| && RowAfter(start, log[..k]) == read;
    assert (log + [change])[..k] == log[..k];
  }

  lemma HeldStays(start: Row, log: seq<Change>, change: Change, w: Writer)
    requires Held(start, log, w)
    ensures Held(start, log + [change], w)
  {
    match w
    case Idle =>
    case HasRead(read) => StoredStays(start, log, change, read);
    case HasDecided(t) => StoredStays(start, log, change, Row(t.prior, t.priorVersion));
    case Editing(seen) => StoredStays(start, log, change, seen);
  }

  lemma {:induction false} EveryRunKeepsInv(start: Row, steps: seq<Step>)
    ensures Inv(Run(start, steps)) && Run(start, steps).start == start
  {
    if steps != [] {
      EveryRunKeepsInv(start, steps[..|steps| - 1]);
      StepKeepsInv(Run(start, steps[..|steps| - 1]), steps[|steps| - 1]);
    }
  }

  // ---------------------------------------------------------------------
  // When the stored states follow the table
  // ---------------------------------------------------------------------

  /** The states the row went through, in order. */
  function Stored(s: System): (h: seq<FeatureState>)
    ensures |h| == |s.log| + 1
    ensures forall i :: 0 <= i <= |s.log| ==> h[i] == RowAfter(s.start, s.log[..i]).state
  {
    seq(|s.log| + 1, i requires 0 <= i <= |s.log| => RowAfter(s.start, s.log[..i]).state)
  }

  ghost predicate StaysOrFollows(from: FeatureState, to: FeatureState) { from == to || IsF5Edge(from, to) }

  ghost predicate IsPath(h: seq<FeatureState>) {
    forall i {:trigger h[i]} :: 0 < i < |h| ==> StaysOrFollows(h[i - 1], h[i])
  }

  /** An edit that landed on the state it read, or on one from which the table leads there. */
  ghost predicate EditFollows(c: Change) { c.Edited? ==> StaysOrFollows(c.from, c.to) }

  /**
   * However decided writers and edits interleave, the stored states form a path
   * of the F-5 table if and only if every edit that lands finds the state that it
   * read, or one from which the table leads to the state that it read. The last
   * stored state is the row's.
   */
  lemma StoredStatesFollowTheTableIff(start: Row, steps: seq<Step>)
    ensures var s := Run(start, steps);
      && (IsPath(Stored(s)) <==> forall c :: c in s.log ==> EditFollows(c))
      && Stored(s)[|s.log|] == s.row.state
  {
    EveryRunKeepsInv(start, steps);
    PathIffEditsFollow(Run(start, steps));
  }

  lemma PathIffEditsFollow(s: System)
    requires Inv(s)
    ensures IsPath(Stored(s)) <==> forall c :: c in s.log ==> EditFollows(c)
    ensures Stored(s)[|s.log|] == s.row.state
  {
    var h := Stored(s);
    assert s.log[..|s.log|] == s.log;
    forall i | 0 <= i < |s.log| ensures EditFollows(s.log[i]) <==> StaysOrFollows(h[i], h[i + 1]) {
      EntryFollowsIff(s, i);
    }
    if IsPath(h) {
      forall c | c in s.log ensures EditFollows(c) {
        var i :| 0 <= i < |s.log| && s.log[i] == c;
        var next := i + 1;
        assert StaysOrFollows(h[next - 1], h[next]);
      }
    } else {
      var i :| 0 < i < |h| && !StaysOrFollows(h[i - 1], h[i]);
      assert s.log[i - 1] in s.log && !EditFollows(s.log[i - 1]);
    }
  }

  lemma EntryFollowsIff(s: System, i: nat)
    requires Inv(s) && i < |s.log|
    ensures EditFollows(s.log[i]) <==> StaysOrFollows(Stored(s)[i], Stored(s)[i + 1])
  {
    assert IsLink(s.start, s.log, i);
    assert s.log[..i + 1][..i] == s.log[..i] && s.log[..i + 1][i] == s.log[i];
  }

  /** The state that an edit leaves is one that was stored before: it undoes what was decided since its read. */
  lemma EditsRestore(start: Row, steps: seq<Step>, i: nat)
    requires i < |Run(start, steps).log| && Run(start, steps).log[i].Edited?
    ensures var s := Run(start, steps); exists k :: 0 <= k <= i && Stored(s)[k] == s.log[i].to
  {
    EveryRunKeepsInv(start, steps);
    var s := Run(start, steps);
    assert IsLink(start, s.log, i);
    var read: Row :| read.state == s.log[i].to && WasStored(start, s.log[..i], read);
    var k :| 0 <= k <= i && RowAfter(start, s.log[..i][..k]) == read;
    assert s.log[..i][..k] == s.log[..k];
    assert Stored(s)[k] == s.log[i].to;
  }

  // ---------------------------------------------------------------------
  // What survives edits
  // ---------------------------------------------------------------------

  function CountMoves(log: seq<Change>): nat {
    if log == [] then 0 else CountMoves(log[..|log| - 1]) + if log[|log| - 1].Moved? then 1 else 0
  }

  lemma {:induction false} VersionCounts(start: Row, log: seq<Change>)
    requires IsChain(start, log)
    ensures RowAfter(start, log).version == start.version + CountMoves(log)
  {
    if log != [] {
      var n := |log| - 1;
      ChainPrefix(start, log, n);
      VersionCounts(start, log[..n]);
      assert IsLink(start, log, n);
    }
  }

  lemma ChainPrefix(start: Row, log: seq<Change>, n: nat)
    requires IsChain(start, log) && n <= |log|
    ensures IsChain(start, log[..n])
  {
    forall i | 0 <= i < n ensures IsLink(start, log[..n], i) {
      assert IsLink(start, log, i) && log[..n][..i] == log[..i];
    }
  }

  /** The version counts the transitions written, whatever was edited in between. */
  lemma VersionCountsTransitions(start: Row, steps: seq<Step>)
    ensures Run(start, steps).row.version == start.version + CountMoves(Run(start, steps).log)
  {
    EveryRunKeepsInv(start, steps);
    VersionCounts(start, Run(start, steps).log);
  }

  lemma {:induction false} VersionsGrow(start: Row, log: seq<Change>, i: nat, j: nat)
    requires IsChain(start, log) && i < j <= |log|
    ensures RowAfter(start, log[..i]).version + (if log[i].Moved? then 1 else 0) <= RowAfter(start, log[..j]).version
    decreases j
  {
    var n := j - 1;
    assert IsLink(start, log, n) && log[..j][..n] == log[..n];
    if i < n { VersionsGrow(start, log, i, n); }
  }

  /** Of all the transitions decided from one version, at most one is ever written, also among edits. */
  lemma OneWriteEachVersion(start: Row, steps: seq<Step>, i: nat, j: nat)
    requires var log := Run(start, steps).log;
      && i < |log| && j < |log| && log[i].Moved? && log[j].Moved?
      && log[i].transition.priorVersion == log[j].transition.priorVersion
    ensures i == j
  {
    EveryRunKeepsInv(start, steps);
    var log := Run(start, steps).log;
    assert IsLink(start, log, i) && IsLink(start, log, j);
    if i < j {
      VersionsGrow(start, log, i, j);
    } else if j < i {
      VersionsGrow(start, log, j, i);
    }
  }

  /** No edit so far has changed the state. */
  predicate EditsChangeNothing(log: seq<Change>) {
    forall c :: c in log && c.Edited? ==> c.from == c.to
  }

  /** Then comparing the version alone would do: a decided transition with the row's version has the row's state. */
  lemma VersionDecidesState(start: Row, steps: seq<Step>, who: nat)
    requires WriterOf(Run(start, steps), who).HasDecided? && EditsChangeNothing(Run(start, steps).log)
    ensures var s := Run(start, steps);
      var t := WriterOf(s, who).transition;
      t.priorVersion == s.row.version <==> Matches(s.row, t)
  {
    EveryRunKeepsInv(start, steps);
    var s := Run(start, steps);
    var t := WriterOf(s, who).transition;
    assert Held(start, s.log, s.writers[who]);
    var k :| 0 <= k <= |s.log| && RowAfter(start, s.log[..k]) == Row(t.prior, t.priorVersion);
    if t.priorVersion == s.row.version { SameVersionSameState(start, s.log, k); }
  }

  lemma {:induction false} SameVersionSameState(start: Row, log: seq<Change>, k: nat)
    requires IsChain(start, log) && EditsChangeNothing(log) && k <= |log|
    requires RowAfter(start, log[..k]).version == RowAfter(start, log).version
    ensures RowAfter(start, log[..k]) == RowAfter(start, log)
  {
    assert log[..|log|] == log;
    if k < |log| {
      var n := |log| - 1;
      assert IsLink(start, log, n) && log[n] in log;
      VersionsGrow(start, log, n, |log|);
      if k < n { VersionsGrow(start, log, k, n); }
      ChainPrefix(start, log, n);
      assert log[..n][..k] == log[..k];
      SameVersionSameState(start, log[..n], k);
    }
  }

  // ---------------------------------------------------------------------
  // One decision and one write for each read
  // ---------------------------------------------------------------------

  /** The last step of a writer. */
  function LastOf(steps: seq<Step>, who: nat): Option<Step> {
    if steps == [] then None
    else if steps[|steps| - 1].who == who then Some(steps[|steps| - 1])
    else LastOf(steps[..|steps| - 1], who)
  }

  /**
   * A writer holds the row it read exactly until it decides, accepted or not, and
   * a decision only until it writes, whether the row still matches or not.
   */
  lemma {:induction false} WritersStartOver(start: Row, steps: seq<Step>, who: nat)
    ensures var w, last := WriterOf(Run(start, steps), who), LastOf(steps, who);
      && (last == None ==> w.Idle?)
      && (last.Some? && last.value.Read? ==> w.HasRead?)
      && (last.Some? && last.value.Decide? ==> !w.HasRead?)
      && (last.Some? && last.value.Write? ==> !w.HasDecided?)
      && (last.Some? && last.value.EditWrite? ==> !w.Editing?)
  {
    if steps != [] { WritersStartOver(start, steps[..|steps| - 1], who); }
  }

  // ---------------------------------------------------------------------
  // An edit that does change the state
  // ---------------------------------------------------------------------

  function DevelopingDecision(): AppliedTransition {
    AppliedTransition(Queued, Developing, Worker, OfAttempt(OpDeveloping, 1), 3, 4)
  }

  function EditAroundDeveloping(): seq<Step> {
    [EditRead(2), Read(1), Decide(1, Developing, Worker, OfAttempt(OpDeveloping, 1)), Write(1), EditWrite(2)]
  }

  /** An edit that spans the worker's first write puts a developing feature back into QUEUED: not an edge. */
  lemma WriteBackExample()
    ensures var s := Run(Row(Queued, 3), EditAroundDeveloping());
      && s.row == Row(Queued, 4)
      && s.log == [Moved(DevelopingDecision()), Edited(Developing, Queued)]
      && !IsPath(Stored(s))
  {
    var start, steps := Row(Queued, 3), EditAroundDeveloping();
    DecisionIsWritten(start, steps);
    RunStep(start, steps, 4);
    assert steps[..5] == steps;
    assert Run(start, steps).log[1] == Edited(Developing, Queued);
    NotAPath(start, steps, Edited(Developing, Queued));
  }

  lemma NotAPath(start: Row, steps: seq<Step>, c: Change)
    requires c in Run(start, steps).log && c.Edited? && !StaysOrFollows(c.from, c.to)
    ensures !IsPath(Stored(Run(start, steps)))
  {
    StoredStatesFollowTheTableIff(start, steps);
    assert !EditFollows(c);
  }

  lemma DecisionIsWritten(start: Row, steps: seq<Step>)
    requires start == Row(Queued, 3) && steps == EditAroundDeveloping()
    ensures Run(start, steps[..4]) ==
            System(start, Row(Developing, 4), map[2 := Editing(start), 1 := Idle], [Moved(DevelopingDecision())])
  {
    DecisionIsMade(start, steps);
    RunStep(start, steps, 3);
  }

  lemma DecisionIsMade(start: Row, steps: seq<Step>)
    requires start == Row(Queued, 3) && steps == EditAroundDeveloping()
    ensures Run(start, steps[..3]) ==
            System(start, start, map[2 := Editing(start), 1 := HasDecided(DevelopingDecision())], [])
  {
    assert Run(start, steps[..0]) == System(start, start, map[], []);
    RunStep(start, steps, 0);
    RunStep(start, steps, 1);
    RunStep(start, steps, 2);
  }

  lemma RunStep(start: Row, steps: seq<Step>, k: nat)
    requires k < |steps|
    ensures Run(start, steps[..k + 1]) == Next(Run(start, steps[..k]), steps[k])
  {
    assert steps[..k + 1][..k] == steps[..k];
  }
}
