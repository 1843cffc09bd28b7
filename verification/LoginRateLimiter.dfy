// The in-memory login limiter: apps/api/src/auth/login-rate-limit.ts.
//
// The limiter forgets failures as they leave its window. Its answers are proved
// against the whole history of failures and successes, which it does not keep.
// The clock is read by the caller and never runs backwards.
module LoginRateLimiter {
  type Key = string
  type Time = int

  datatype Event = Failure(key: Key, at: Time) | Success(key: Key)

  /** The times strictly after the cutoff. */
  function After(times: seq<Time>, cutoff: Time): (r: seq<Time>)
    ensures |r| <= |times|
  {
    if times == [] then []
    else
      var last := |times| - 1;
      After(times[..last], cutoff) + if times[last] > cutoff then [times[last]] else []
  }

  /** The failures of a client since its last success. */
  ghost function FailuresOf(events: seq<Event>, key: Key): seq<Time> {
    if events == [] then []
    else
      var last := events[|events| - 1];
      var earlier := FailuresOf(events[..|events| - 1], key);
      if last.key != key then earlier else if last.Success? then [] else earlier + [last.at]
  }

  lemma {:induction false} LaterCutoffWins(times: seq<Time>, earlier: Time, later: Time)
    requires earlier <= later
    ensures After(After(times, earlier), later) == After(times, later)
  {
    if times != [] {
      var last := |times| - 1;
      var kept := After(times[..last], earlier);
      LaterCutoffWins(times[..last], earlier, later);
      if times[last] > earlier {
        assert (kept + [times[last]])[..|kept|] == kept;
      } else {
        assert kept + [] == kept;
        assert After(times[..last], later) + [] == After(times[..last], later);
      }
    }
  }

  lemma AfterAppend(times: seq<Time>, t: Time, cutoff: Time)
    ensures After(times + [t], cutoff) == After(times, cutoff) + if t > cutoff then [t] else []
  {
    assert (times + [t])[..|times|] == times;
  }

  lemma FailuresAppend(events: seq<Event>, e: Event, key: Key)
    ensures FailuresOf(events + [e], key) ==
            if e.key != key then FailuresOf(events, key)
            else if e.Success? then [] else FailuresOf(events, key) + [e.at]
  {
    assert (events + [e])[..|events|] == events;
  }

  /** From a cutoff on, the two lists agree on what lies after it. */
  ghost predicate Agree(bucket: seq<Time>, failures: seq<Time>, from: Time) {
    forall cutoff {:trigger After(bucket, cutoff)} :: cutoff >= from ==>
      After(bucket, cutoff) == After(failures, cutoff)
  }

  lemma PruningAgrees(bucket: seq<Time>, failures: seq<Time>, from: Time, later: Time)
    requires Agree(bucket, failures, from) && from <= later
    ensures Agree(After(bucket, later), failures, later)
    ensures Agree(bucket, failures, later)
  {
    forall cutoff | cutoff >= later ensures After(After(bucket, later), cutoff) == After(failures, cutoff) {
      LaterCutoffWins(bucket, later, cutoff);
      assert After(bucket, cutoff) == After(failures, cutoff);
    }
  }

  lemma AppendingAgrees(bucket: seq<Time>, failures: seq<Time>, from: Time, t: Time)
    requires Agree(bucket, failures, from)
    ensures Agree(bucket + [t], failures + [t], from)
  {
    forall cutoff | cutoff >= from ensures After(bucket + [t], cutoff) == After(failures + [t], cutoff) {
      AfterAppend(bucket, t, cutoff);
      AfterAppend(failures, t, cutoff);
      assert After(bucket, cutoff) == After(failures, cutoff);
    }
  }

  type Buckets = map<Key, seq<Time>>

  function BucketOf(buckets: Buckets, key: Key): seq<Time> { if key in buckets then buckets[key] else [] }

  /** Every bucket agrees with the whole history on every window that ends at `from` or later. */
  ghost predicate AreFaithful(buckets: Buckets, events: seq<Event>, from: Time) {
    forall key {:trigger IsFaithful(buckets, events, from, key)} :: IsFaithful(buckets, events, from, key)
  }

  ghost predicate IsFaithful(buckets: Buckets, events: seq<Event>, from: Time, key: Key) {
    Agree(BucketOf(buckets, key), FailuresOf(events, key), from)
  }

  /** The buckets once the old failures of a client are dropped, and its bucket with them if none is left. */
  function DropOld(buckets: Buckets, key: Key, cutoff: Time): Buckets {
    if key !in buckets then buckets
    else
      var kept := After(buckets[key], cutoff);
      if kept == [] then buckets - {key} else buckets[key := kept]
  }

  lemma DroppingIsFaithful(buckets: Buckets, events: seq<Event>, from: Time, key: Key, later: Time)
    requires AreFaithful(buckets, events, from) && from <= later
    ensures AreFaithful(DropOld(buckets, key, later), events, later)
    ensures BucketOf(DropOld(buckets, key, later), key) == After(FailuresOf(events, key), later)
  {
    var dropped := DropOld(buckets, key, later);
    forall k ensures IsFaithful(dropped, events, later, k) {
      assert IsFaithful(buckets, events, from, k);
      PruningAgrees(BucketOf(buckets, k), FailuresOf(events, k), from, later);
    }
    assert IsFaithful(buckets, events, from, key);
    assert After(BucketOf(buckets, key), later) == After(FailuresOf(events, key), later);
  }

  lemma RecordingIsFaithful(buckets: Buckets, events: seq<Event>, from: Time, e: Event)
    requires AreFaithful(buckets, events, from)
    ensures e.Failure? ==> AreFaithful(buckets[e.key := BucketOf(buckets, e.key) + [e.at]], events + [e], from)
    ensures e.Success? ==> AreFaithful(buckets - {e.key}, events + [e], from)
  {
    var longer := events + [e];
    var after := if e.Failure? then buckets[e.key := BucketOf(buckets, e.key) + [e.at]] else buckets - {e.key};
    forall k ensures IsFaithful(after, longer, from, k) {
      assert IsFaithful(buckets, events, from, k);
      FailuresAppend(events, e, k);
      if k == e.key && e.Failure? { AppendingAgrees(BucketOf(buckets, k), FailuresOf(events, k), from, e.at); }
    }
  }

  class Limiter {
    const maxAttempts: int
    const windowMs: int
    var buckets: Buckets
    ghost var events: seq<Event>
    ghost var clock: Time

    /** No bucket is empty, and from now on all of them agree with the whole history. */
    ghost predicate Valid()
      reads this
    {
      (forall key :: key in buckets ==> buckets[key] != []) && AreFaithful(buckets, events, clock - windowMs)
    }

    constructor (maxAttempts: int, windowMs: int, now: Time)
      ensures Valid() && events == [] && clock == now
      ensures this.maxAttempts == maxAttempts && this.windowMs == windowMs
    {
      this.maxAttempts, this.windowMs := maxAttempts, windowMs;
      buckets, events, clock := map[], [], now;
    }

    method Prune(key: Key, now: Time)
      requires clock <= now && AreFaithful(buckets, events, clock - windowMs)
      requires forall k :: k in buckets ==> buckets[k] != []
      modifies this
      ensures Valid() && events == old(events) && clock == now
      ensures BucketOf(buckets, key) == After(FailuresOf(events, key), now - windowMs)
    {
      DroppingIsFaithful(buckets, events, clock - windowMs, key, now - windowMs);
      ghost var expected := DropOld(buckets, key, now - windowMs);
      if key in buckets {
        var kept := After(buckets[key], now - windowMs);
        buckets := if kept == [] then buckets - {key} else buckets[key := kept];
      }
      assert buckets == expected;
      clock := now;
    }

    /** The failures since the last success that lie strictly inside the window. */
    ghost function InWindow(key: Key, now: Time): seq<Time>
      reads this
    {
      After(FailuresOf(events, key), now - windowMs)
    }

    /** Forgetting changes no answer. */
    method IsLimited(key: Key, now: Time) returns (limited: bool)
      requires Valid() && clock <= now
      modifies this
      ensures Valid() && events == old(events) && clock == now
      ensures limited <==> |InWindow(key, now)| >= 1 && |InWindow(key, now)| >= maxAttempts
      ensures maxAttempts >= 1 ==> (limited <==> |InWindow(key, now)| >= maxAttempts)
    {
      Prune(key, now);
      limited := key in buckets && |buckets[key]| >= maxAttempts;
    }

    /** The clock is read once for the failure and once more for pruning. */
    method RecordFailure(key: Key, at: Time, now: Time)
      requires Valid() && clock <= at <= now
      modifies this
      ensures Valid() && events == old(events) + [Failure(key, at)] && clock == now
    {
      RecordingIsFaithful(buckets, events, clock - windowMs, Failure(key, at));
      buckets := buckets[key := BucketOf(buckets, key) + [at]];
      events := events + [Failure(key, at)];
      Prune(key, now);
    }

    method RecordSuccess(key: Key)
      requires Valid()
      modifies this
      ensures Valid() && events == old(events) + [Success(key)] && clock == old(clock)
    {
      RecordingIsFaithful(buckets, events, clock - windowMs, Success(key));
      buckets := buckets - {key};
      events := events + [Success(key)];
    }
  }

  // ---------------------------------------------------------------------
  // What the answer depends on
  // ---------------------------------------------------------------------

  /** What IsLimited answers at a given time. */
  ghost predicate Limits(events: seq<Event>, key: Key, maxAttempts: int, windowMs: int, now: Time) {
    var recent := |After(FailuresOf(events, key), now - windowMs)|;
    recent >= 1 && recent >= maxAttempts
  }

  /** Another client's events never matter. */
  lemma {:induction false} ClientsAreIndependent(events: seq<Event>, key: Key)
    ensures FailuresOf(events, key) == FailuresOf(OnlyOf(events, key), key)
  {
    if events != [] {
      var last := events[|events| - 1];
      ClientsAreIndependent(events[..|events| - 1], key);
      var mine := OnlyOf(events[..|events| - 1], key);
      FailuresAppend(mine, last, key);
      assert mine + [] == mine;
    }
  }

  ghost function OnlyOf(events: seq<Event>, key: Key): seq<Event> {
    if events == [] then []
    else
      var last := events[|events| - 1];
      OnlyOf(events[..|events| - 1], key) + if last.key == key then [last] else []
  }

  /** Without further events a client is only ever released, and it stays released. */
  lemma ReleaseIsFinal(events: seq<Event>, key: Key, maxAttempts: int, windowMs: int, now: Time, later: Time)
    requires now <= later && Limits(events, key, maxAttempts, windowMs, later)
    ensures Limits(events, key, maxAttempts, windowMs, now)
  {
    LaterCutoffWins(FailuresOf(events, key), now - windowMs, later - windowMs);
  }

  /** A limited client is released once its newest failure leaves the window: no lock is forever. */
  lemma LockExpires(events: seq<Event>, key: Key, maxAttempts: int, windowMs: int, newest: Time, now: Time)
    requires forall i :: 0 <= i < |events| && events[i].Failure? && events[i].key == key ==> events[i].at <= newest
    requires newest + windowMs <= now
    ensures !Limits(events, key, maxAttempts, windowMs, now)
  {
    FailuresAreOld(events, key, newest);
    OldOnesAreGone(FailuresOf(events, key), now - windowMs);
  }

  lemma {:induction false} FailuresAreOld(events: seq<Event>, key: Key, newest: Time)
    requires forall i :: 0 <= i < |events| && events[i].Failure? && events[i].key == key ==> events[i].at <= newest
    ensures forall i :: 0 <= i < |FailuresOf(events, key)| ==> FailuresOf(events, key)[i] <= newest
  {
    if events != [] {
      var init := events[..|events| - 1];
      assert forall i :: 0 <= i < |init| ==> init[i] == events[i];
      FailuresAreOld(init, key, newest);
    }
  }

  lemma {:induction false} OldOnesAreGone(times: seq<Time>, cutoff: Time)
    requires forall i :: 0 <= i < |times| ==> times[i] <= cutoff
    ensures After(times, cutoff) == []
  {
    if times != [] { OldOnesAreGone(times[..|times| - 1], cutoff); }
  }
}
