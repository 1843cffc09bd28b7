// The transition service used as it is documented: the store remembers the result
// of every operation it applied and hands it back when the operation is sent again.
module TransitionLedger {
  import opened Wrappers
  import opened FeatureStateMachine

  // What a caller sends. The row and the remembered result are the store's.
  datatype Submission = Submission(
    from: FeatureState, to: FeatureState, owner: TransitionOwner, operationId: OperationId, expectedVersion: nat)

  datatype Ledger = Ledger(
    state: FeatureState, version: nat, results: map<OperationId, AppliedTransition>, log: seq<AppliedTransition>)

  function Opened(state: FeatureState, version: nat): Ledger { Ledger(state, version, map[], []) }

  function Command(l: Ledger, s: Submission): TransitionCommand {
    var known := s.operationId in l.results;
    TransitionCommand(s.from, s.to, s.owner, s.operationId, s.expectedVersion, l.version, Some(l.state),
                      if known then Some(s.operationId) else None,
                      if known then Some(l.results[s.operationId]) else None)
  }

  function Answer(l: Ledger, s: Submission): TransitionResult { ApplyFeatureTransition(Command(l, s)) }

  function Next(l: Ledger, s: Submission): Ledger {
    match Answer(l, s)
    case Applied(t) => Ledger(t.next, t.nextVersion, l.results[s.operationId := t], l.log + [t])
    case _ => l
  }

  function Run(l: Ledger, sent: seq<Submission>): Ledger {
    if sent == [] then l else Next(Run(l, sent[..|sent| - 1]), sent[|sent| - 1])
  }

  lemma {:induction false} RunInParts(l: Ledger, a: seq<Submission>, b: seq<Submission>)
    ensures Run(l, a + b) == Run(Run(l, a), b)
  {
    if b == [] {
      assert a + b == a;
    } else {
      RunInParts(l, a, b[..|b| - 1]);
      assert (a + b)[..|a + b| - 1] == a + b[..|b| - 1];
    }
  }

  /**
   * An operation sent again gets the answer it got when it was applied, whatever
   * was sent in between, and changes nothing.
   */
  lemma {:induction false} AppliedOperationsReplay(l: Ledger, s: Submission, between: seq<Submission>,
        again: Submission)
    requires Answer(l, s).Applied? && again.operationId == s.operationId
    ensures var now := Run(Next(l, s), between);
      Answer(now, again) == Idempotent(Answer(l, s).transition) && Next(now, again) == now
  {
    ResultsStay(Next(l, s), between, s.operationId);
  }

  lemma {:induction false} ResultsStay(l: Ledger, sent: seq<Submission>, op: OperationId)
    requires op in l.results
    ensures op in Run(l, sent).results && Run(l, sent).results[op] == l.results[op]
  {
    if sent != [] { ResultsStay(l, sent[..|sent| - 1], op); }
  }

  /** Leaving out a repetition of an applied operation makes no difference to what follows. */
  lemma RepetitionsAreInvisible(l: Ledger, before: seq<Submission>, again: Submission, after: seq<Submission>)
    requires again.operationId in Run(l, before).results
    ensures Run(l, before + [again] + after) == Run(l, before + after)
  {
    RunInParts(l, before + [again], after);
    RunInParts(l, before, [again]);
    RunInParts(l, before, after);
    assert [again][..0] == [] && Run(Run(l, before), [again]) == Next(Run(l, before), again);
  }

  /**
   * Exactly which answer a command gets: its own remembered result, else a
   * refusal for the first of version, state and edge that does not fit, with the
   * state that was observed if it is the state.
   */
  lemma CommandsAreAnsweredSo(c: TransitionCommand)
    ensures var answer := ApplyFeatureTransition(c);
      var repeated := c.priorOperationId == Some(c.operationId) && c.priorResult.Some?;
      var current := c.expectedVersion == c.currentVersion;
      var there := c.observedState.Some? ==> c.observedState.value == c.from;
      && (answer.Idempotent? <==> repeated)
      && (answer.Idempotent? ==> answer.original == c.priorResult.value)
      && (answer == Rejected(VersionConflict, c.from) <==> !repeated && !current)
      && (!there ==> (answer == Rejected(StateConflict, c.observedState.value) <==> !repeated && current))
      && (answer == Rejected(ForbiddenTransition, c.from) <==>
            !repeated && current && there && !IsAllowed(c.from, c.to, c.owner))
      && (answer.Applied? <==> !repeated && current && there && IsAllowed(c.from, c.to, c.owner))
      && (answer.Applied? ==>
            answer.transition ==
            AppliedTransition(c.from, c.to, c.owner, c.operationId, c.currentVersion, c.currentVersion + 1))
  {}

  // ---------------------------------------------------------------------
  // Each operation is applied at most once, along the table
  // ---------------------------------------------------------------------

  /** The log lists the results remembered, each once; entry by entry it takes edges and counts versions. */
  ghost predicate Inv(first: Ledger, l: Ledger) {
    && l.version == first.version + |l.log|
    && l.state == StateAfter(first, l.log, |l.log|)
    && (forall i {:trigger IsEntry(first, l, i)} :: 0 <= i < |l.log| ==> IsEntry(first, l, i))
    && (forall i, j :: 0 <= i < j < |l.log| ==> l.log[i].operationId != l.log[j].operationId)
  }

  function StateAfter(first: Ledger, log: seq<AppliedTransition>, i: nat): FeatureState
    requires i <= |log|
  {
    if i == 0 then first.state else log[i - 1].next
  }

  predicate IsEntry(first: Ledger, l: Ledger, i: nat)
    requires i < |l.log|
  {
    var t := l.log[i];
    && t.operationId in l.results && l.results[t.operationId] == t
    && t.prior == StateAfter(first, l.log, i) && IsAllowed(t.prior, t.next, t.owner)
    && t.priorVersion == first.version + i && t.nextVersion == t.priorVersion + 1
  }

  lemma NextKeepsInv(first: Ledger, l: Ledger, s: Submission)
    requires Inv(first, l)
    ensures Inv(first, Next(l, s))
  {
    var after := Next(l, s);
    if Answer(l, s).Applied? {
      assert s.operationId !in l.results;
      forall i | 0 <= i < |after.log| ensures IsEntry(first, after, i) {
        if i < |l.log| { assert IsEntry(first, l, i); }
      }
      forall i | 0 <= i < |l.log| ensures l.log[i].operationId != s.operationId { assert IsEntry(first, l, i); }
    }
  }

  /**
   * However often operations are sent, in any order and with any versions: each
   * is applied at most once, the states stored are a path of the table, and the
   * version counts the operations applied.
   */
  lemma {:induction false} AppliedAtMostOnce(state: FeatureState, version: nat, sent: seq<Submission>)
    ensures Inv(Opened(state, version), Run(Opened(state, version), sent))
  {
    if sent != [] {
      AppliedAtMostOnce(state, version, sent[..|sent| - 1]);
      NextKeepsInv(Opened(state, version), Run(Opened(state, version), sent[..|sent| - 1]), sent[|sent| - 1]);
    }
  }

  // ---------------------------------------------------------------------
  // Without the remembered result
  // ---------------------------------------------------------------------

  /** The versions only grow. */
  lemma {:induction false} VersionsGrow(l: Ledger, sent: seq<Submission>)
    ensures l.version <= Run(l, sent).version
  {
    if sent != [] { VersionsGrow(l, sent[..|sent| - 1]); }
  }

  /**
   * A caller that does not hand back the stored result is still not applied
   * twice: the same command sent again is refused for its version, whatever was
   * sent in between, and even if the feature is back in the state it names.
   */
  lemma ForgottenOperationsAreStale(l: Ledger, s: Submission, between: seq<Submission>)
    requires Answer(l, s).Applied?
    ensures var now := Run(Next(l, s), between);
      ApplyFeatureTransition(Command(now, s).(priorOperationId := None, priorResult := None))
        == Rejected(VersionConflict, s.from)
  {
    VersionsGrow(Next(l, s), between);
  }
}
