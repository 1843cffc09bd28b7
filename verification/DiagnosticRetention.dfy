// Bounded diagnostic logs: packages/shared/src/observability/diagnostic-retention.ts.
//
// Bodies are byte sequences, already redacted. `files` is the directory in the
// order in which it lists its entries; that order means nothing.
module DiagnosticRetention {
  import opened Wrappers

  type Byte = b: int | 0 <= b < 256
  type Bytes = seq<Byte>
  type Time = int

  // The UTF-8 form of an ellipsis followed by [TRUNCATED].
  const MARKER: Bytes :=
    [0xE2, 0x80, 0xA6, 0x5B, 0x54, 0x52, 0x55, 0x4E, 0x43, 0x41, 0x54, 0x45, 0x44, 0x5D]

  datatype Limits = Limits(maxFileBytes: int, maxPerAttemptBytes: int, maxTotalBytes: int, maxAgeMs: int)

  function Max(a: int, b: int): int { if a < b then b else a }
  function Min(a: int, b: int): int { if a < b then a else b }

  // ---------------------------------------------------------------------
  // Bodies
  // ---------------------------------------------------------------------

  // `kept` is the part of the body that was kept; the marker is not part of it.
  datatype Bounded = Bounded(kept: Bytes, truncated: bool)

  function Text(b: Bounded): Bytes { if b.truncated then b.kept + MARKER else b.kept }

  function BoundBody(body: Bytes, maxBytes: int): Bounded {
    if |body| <= maxBytes then Bounded(body, false)
    else Bounded(body[..Min(|body|, Max(0, maxBytes - |MARKER|))], true)
  }

  /** A body within the budget is kept whole; otherwise a prefix and the marker fill it, or the marker stands alone. */
  lemma BoundedBodyFits(body: Bytes, maxBytes: int)
    ensures var b := BoundBody(body, maxBytes);
      && b.kept <= body && (b.kept == body && !b.truncated <==> |body| <= maxBytes)
      && |b.kept| <= Max(0, maxBytes)
      && |Text(b)| <= Max(maxBytes, |MARKER|)
      && (|body| > maxBytes >= |MARKER| ==> |Text(b)| == maxBytes)
  {}

  /** What a write stores under a file budget: nothing but the marker once the budget is used up. */
  function Bodied(body: Bytes, budget: int): Bounded {
    if budget <= 0 then Bounded([], true) else BoundBody(body, budget)
  }

  // ---------------------------------------------------------------------
  // Names
  // ---------------------------------------------------------------------

  predicate IsSafe(c: char) {
    'a' <= c <= 'z' || 'A' <= c <= 'Z' || '0' <= c <= '9' || c == '.' || c == '_' || c == '-'
  }

  /** Every run of unsafe characters becomes one underscore. */
  function ReplaceUnsafe(s: string): string {
    if s == "" then ""
    else
      var init, last := s[..|s| - 1], s[|s| - 1];
      if IsSafe(last) then ReplaceUnsafe(init) + [last]
      else if init != "" && !IsSafe(init[|init| - 1]) then ReplaceUnsafe(init)
      else ReplaceUnsafe(init) + "_"
  }

  function SafeSegment(value: Option<string>, fallback: string): (r: string)
    ensures fallback != "" ==> r != ""
  {
    if value.None? || value.value == "" then fallback
    else
      var safe := ReplaceUnsafe(value.value);
      var cut := if |safe| > 64 then safe[..64] else safe;
      if cut == "" then fallback else cut
  }

  predicate AreSafe(s: string) { forall i :: 0 <= i < |s| ==> IsSafe(s[i]) }

  predicate AreUnsafe(s: string) { forall i :: 0 <= i < |s| ==> !IsSafe(s[i]) }

  lemma {:induction false} SafeIdsStay(id: string)
    requires AreSafe(id)
    ensures ReplaceUnsafe(id) == id
  {
    if id != "" {
      SafeIdsStay(id[..|id| - 1]);
      assert id[..|id| - 1] + [id[|id| - 1]] == id;
    }
  }

  /** Safe characters are kept, and every longest run of unsafe ones becomes one underscore. */
  lemma {:induction false} UnsafeRunsCollapse(before: string, run: string, after: string)
    requires run != "" && AreUnsafe(run)
    requires before != "" ==> IsSafe(before[|before| - 1])
    requires after != "" ==> IsSafe(after[0])
    ensures ReplaceUnsafe(before + run + after) == ReplaceUnsafe(before) + "_" + ReplaceUnsafe(after)
    decreases |after|
  {
    if after == "" {
      RunCollapses(before, run);
      assert before + run + after == before + run;
    } else {
      var init, last := after[..|after| - 1], after[|after| - 1];
      UnsafeRunsCollapse(before, run, init);
      var whole := before + run + after;
      assert whole[..|whole| - 1] == before + run + init;
    }
  }

  lemma {:induction false} RunCollapses(before: string, run: string)
    requires run != "" && AreUnsafe(run) && (before != "" ==> IsSafe(before[|before| - 1]))
    ensures ReplaceUnsafe(before + run) == ReplaceUnsafe(before) + "_"
  {
    var init := run[..|run| - 1];
    assert (before + run)[..|before + run| - 1] == before + init;
    if init == "" {
      assert before + init == before;
    } else {
      RunCollapses(before, init);
    }
  }

  lemma {:induction false} ReplacedIsSafe(s: string)
    ensures AreSafe(ReplaceUnsafe(s)) && (s != "" ==> ReplaceUnsafe(s) != "")
  {
    if s != "" { ReplacedIsSafe(s[..|s| - 1]); }
  }

  /**
   * A name segment is safe and at most 64 characters long: the start of the value
   * with its unsafe runs replaced, or the fallback if there is no value.
   */
  lemma SegmentsAreSafe(value: Option<string>, fallback: string)
    requires AreSafe(fallback) && |fallback| <= 64
    ensures var r := SafeSegment(value, fallback);
      && AreSafe(r) && |r| <= 64
      && (value == None || value == Some("") ==> r == fallback)
      && (value.Some? && value.value != "" ==>
            r != "" && r <= ReplaceUnsafe(value.value) && (|r| == 64 || r == ReplaceUnsafe(value.value)))
  {
    if value.Some? { ReplacedIsSafe(value.value); }
  }

  /** An id of safe characters other than the underscore keeps its first 64 as its key, one without an id is "job". */
  lemma PlainIdsKeepTheirName(r: Request, id: string)
    requires AreSafe(id) && '_' !in id && r.id == Some(id)
    ensures KeyOf(r) == if id == "" then "job" else if |id| > 64 then id[..64] else id
    ensures KeyOf(r.(id := None)) == "job"
    ensures '_' !in KeyOf(r)
  {
    SafeIdsStay(id);
  }

  function FileName(stamp: string, key: string, tail: string): string { stamp + "_" + key + "_" + tail }

  function Before(s: string): (r: string)
    ensures r <= s && '_' !in r && forall i :: 0 <= i < |r| ==> s[i] != '_'
    ensures r == s || s[|r|] == '_'
  {
    if s == "" || s[0] == '_' then "" else [s[0]] + Before(s[1..])
  }

  /** name.split("_")[1]; empty when there is none. */
  function AttemptPiece(name: string): (r: string)
    ensures '_' !in r
  {
    var first := Before(name);
    if first == name then "" else Before(name[|first| + 1..])
  }

  lemma {:induction false} BeforeUnderscore(s: string, t: string)
    requires '_' !in s
    ensures Before(s + "_" + t) == s
  {
    var whole := s + "_" + t;
    assert whole[|s|] == '_' && forall i :: 0 <= i < |s| ==> whole[i] == s[i] && s[i] in s;
    assert whole[..|s|] == s;
  }

  /** Pruning reads the key back from a name exactly when the key has no underscore. */
  lemma PieceIsKeyIff(stamp: string, key: string, tail: string)
    requires '_' !in stamp
    ensures AttemptPiece(FileName(stamp, key, tail)) == key <==> '_' !in key
  {
    var name := FileName(stamp, key, tail);
    assert name == stamp + "_" + (key + "_" + tail);
    BeforeUnderscore(stamp, key + "_" + tail);
    assert name[|stamp| + 1..] == key + "_" + tail;
    if '_' !in key {
      BeforeUnderscore(key, tail);
    }
  }

  // ---------------------------------------------------------------------
  // The disk
  // ---------------------------------------------------------------------

  // `key` is the attempt key the file was written for and `body` what it holds of the body.
  datatype File = File(name: string, key: string, body: Bounded, size: nat, mtime: Time)

  function Kept(f: File): nat { |f.body.kept| }

  datatype Disk = Disk(counters: map<string, int>, files: seq<File>)

  function Counter(d: Disk, key: string): int { if key in d.counters then d.counters[key] else 0 }

  datatype Measure = SizeOfAll | KeptFor(key: string)

  function Weight(m: Measure, f: File): nat {
    match m
    case SizeOfAll => f.size
    case KeptFor(key) => if f.key == key then Kept(f) else 0
  }

  function Sum(m: Measure, files: seq<File>): nat {
    if files == [] then 0 else Sum(m, files[..|files| - 1]) + Weight(m, files[|files| - 1])
  }

  lemma {:induction false} SumOfParts(m: Measure, a: seq<File>, b: seq<File>)
    ensures Sum(m, a + b) == Sum(m, a) + Sum(m, b)
  {
    if b == [] {
      assert a + b == a;
    } else {
      var init := b[..|b| - 1];
      SumOfParts(m, a, init);
      assert (a + b)[..|a + b| - 1] == a + init;
    }
  }

  lemma TakingOneOut(m: Measure, b: seq<File>, i: nat)
    requires i < |b|
    ensures multiset(b) == multiset(b[..i] + b[i + 1..]) + multiset{b[i]}
    ensures Sum(m, b) == Sum(m, b[..i] + b[i + 1..]) + Weight(m, b[i])
  {
    assert b == b[..i] + ([b[i]] + b[i + 1..]);
    SumOfParts(m, b[..i], [b[i]] + b[i + 1..]);
    SumOfParts(m, [b[i]], b[i + 1..]);
    SumOfParts(m, b[..i], b[i + 1..]);
    assert [b[i]][..0] == [] && Sum(m, [b[i]]) == Weight(m, b[i]);
  }

  lemma CancelOne(a: multiset<File>, b: multiset<File>, f: File)
    requires a + multiset{f} == b + multiset{f}
    ensures a == b
  {
    assert a == (a + multiset{f}) - multiset{f} && b == (b + multiset{f}) - multiset{f};
  }

  lemma {:induction false} SumIgnoresOrder(m: Measure, a: seq<File>, b: seq<File>)
    requires multiset(a) == multiset(b)
    ensures Sum(m, a) == Sum(m, b)
    decreases |a|
  {
    if a == [] {
      assert |multiset(b)| == 0;
    } else {
      var init, last := a[..|a| - 1], a[|a| - 1];
      assert a == init + [last] && last in multiset(b);
      var i :| 0 <= i < |b| && b[i] == last;
      TakingOneOut(m, b, i);
      CancelOne(multiset(init), multiset(b[..i] + b[i + 1..]), last);
      SumIgnoresOrder(m, init, b[..i] + b[i + 1..]);
    }
  }

  // ---------------------------------------------------------------------
  // Writing
  // ---------------------------------------------------------------------

  datatype Request = Request(stamp: string, id: Option<string>, tail: string, body: Bytes, size: nat, mtime: Time)

  function KeyOf(r: Request): string { SafeSegment(r.id, "job") }

  function FileBudget(limits: Limits, d: Disk, key: string): int {
    Min(limits.maxFileBytes, Max(0, limits.maxPerAttemptBytes - Counter(d, key)))
  }

  /** The part of a write before the file lands: the counter is raised by the whole text, marker included. */
  function Reserve(limits: Limits, d: Disk, r: Request): (Disk, File) {
    var key := KeyOf(r);
    var bounded := Bodied(r.body, FileBudget(limits, d, key));
    (d.(counters := d.counters[key := Counter(d, key) + |Text(bounded)|]),
     File(FileName(r.stamp, key, r.tail), key, bounded, r.size, r.mtime))
  }

  /**
   * What is left of a body under the limit of a file and what is left of an
   * attempt's: all of it, if neither is used up and it fits both, and otherwise
   * the longest start of it that leaves room for the marker, and the marker.
   */
  ghost predicate IsBoundedSo(b: Bounded, body: Bytes, fileLimit: int, left: int) {
    && b.kept <= body
    && (if 0 < fileLimit && 0 < left && |body| <= fileLimit && |body| <= left then Text(b) == body
        else
          && Text(b) == b.kept + MARKER
          && (b.kept == [] || LeavesRoom(|b.kept|, fileLimit, left))
          && forall n: nat :: n <= |body| && LeavesRoom(n, fileLimit, left) ==> n <= |b.kept|)
  }

  predicate LeavesRoom(n: nat, fileLimit: int, left: int) { n + |MARKER| <= fileLimit && n + |MARKER| <= left }

  /** Exactly what a write stores, and that the counter grows by the bytes of it. */
  lemma WritesAreBounded(limits: Limits, d: Disk, r: Request)
    ensures var (reserved, f) := Reserve(limits, d, r);
      && IsBoundedSo(f.body, r.body, limits.maxFileBytes, limits.maxPerAttemptBytes - Counter(d, KeyOf(r)))
      && Counter(reserved, KeyOf(r)) == Counter(d, KeyOf(r)) + |Text(f.body)|
      && reserved.files == d.files && f.key == KeyOf(r)
      && (forall key :: key != KeyOf(r) ==> Counter(reserved, key) == Counter(d, key))
  {}

  function Land(d: Disk, f: File): Disk { d.(files := d.files + [f]) }

  function AfterWrite(limits: Limits, d: Disk, r: Request): Disk {
    var (reserved, file) := Reserve(limits, d, r);
    Land(reserved, file)
  }

  // ---------------------------------------------------------------------
  // Pruning
  // ---------------------------------------------------------------------

  function Young(files: seq<File>, cutoff: Time): seq<File> {
    if files == [] then []
    else
      var last := files[|files| - 1];
      Young(files[..|files| - 1], cutoff) + if last.mtime < cutoff then [] else [last]
  }

  function LiveKeys(files: seq<File>): set<string> {
    set i | 0 <= i < |files| && AttemptPiece(files[i].name) != "" :: AttemptPiece(files[i].name)
  }

  /** The stable sort by modification time. */
  function SortByTime(files: seq<File>): seq<File> {
    if files == [] then [] else InsertByTime(SortByTime(files[..|files| - 1]), files[|files| - 1])
  }

  function InsertByTime(sorted: seq<File>, f: File): seq<File> {
    if sorted == [] || sorted[|sorted| - 1].mtime <= f.mtime then sorted + [f]
    else InsertByTime(sorted[..|sorted| - 1], f) + [sorted[|sorted| - 1]]
  }

  function Evict(files: seq<File>, maxTotal: int): seq<File> {
    if files == [] || Sum(SizeOfAll, files) <= maxTotal then files else Evict(files[1..], maxTotal)
  }

  /** The files left, oldest first, of those not past the cutoff. */
  function Survivors(young: seq<File>, maxTotal: int): seq<File> { Evict(SortByTime(young), maxTotal) }

  function Remembered(counters: map<string, int>, live: set<string>): map<string, int> {
    map key | key in counters && key in live :: counters[key]
  }

  function AfterPrune(limits: Limits, d: Disk, now: Time): Disk {
    var young := Young(d.files, now - limits.maxAgeMs);
    Disk(Remembered(d.counters, LiveKeys(young)), Survivors(young, limits.maxTotalBytes))
  }

  predicate IsSorted(files: seq<File>) { forall i, j :: 0 <= i < j < |files| ==> files[i].mtime <= files[j].mtime }

  function OfTime(files: seq<File>, t: Time): seq<File> {
    if files == [] then []
    else
      var last := files[|files| - 1];
      OfTime(files[..|files| - 1], t) + if last.mtime == t then [last] else []
  }

  lemma {:induction false} InsertSorts(sorted: seq<File>, f: File)
    requires IsSorted(sorted)
    ensures IsSorted(InsertByTime(sorted, f))
    ensures forall i :: 0 <= i < |InsertByTime(sorted, f)| ==> InsertByTime(sorted, f)[i] in sorted + [f]
  {
    if sorted != [] && sorted[|sorted| - 1].mtime > f.mtime {
      var init, last := sorted[..|sorted| - 1], sorted[|sorted| - 1];
      InsertSorts(init, f);
      var r := InsertByTime(init, f);
      forall i | 0 <= i < |r| ensures r[i].mtime <= last.mtime && r[i] in sorted + [f] {
        assert r[i] in init + [f];
        if r[i] != f {
          var j :| 0 <= j < |init| && init[j] == r[i];
          assert sorted[j] == r[i];
        }
      }
    }
  }

  lemma {:induction false} InsertKeeps(sorted: seq<File>, f: File)
    ensures multiset(InsertByTime(sorted, f)) == multiset(sorted) + multiset{f}
  {
    if sorted != [] && sorted[|sorted| - 1].mtime > f.mtime {
      InsertKeeps(sorted[..|sorted| - 1], f);
      assert sorted == sorted[..|sorted| - 1] + [sorted[|sorted| - 1]];
    }
  }

  lemma {:induction false} InsertIsStable(sorted: seq<File>, f: File, t: Time)
    requires IsSorted(sorted)
    ensures OfTime(InsertByTime(sorted, f), t) == OfTime(sorted, t) + if f.mtime == t then [f] else []
  {
    if sorted == [] || sorted[|sorted| - 1].mtime <= f.mtime {
      assert (sorted + [f])[..|sorted|] == sorted;
    } else {
      var init, last := sorted[..|sorted| - 1], sorted[|sorted| - 1];
      InsertIsStable(init, f, t);
      var r := InsertByTime(init, f);
      assert (r + [last])[..|r|] == r;
    }
  }

  lemma {:induction false} SortOrders(files: seq<File>)
    ensures IsSorted(SortByTime(files))
  {
    if files != [] {
      var init, last := files[..|files| - 1], files[|files| - 1];
      SortOrders(init);
      InsertSorts(SortByTime(init), last);
    }
  }

  lemma {:induction false} SortKeeps(files: seq<File>)
    ensures multiset(SortByTime(files)) == multiset(files)
  {
    if files != [] {
      var init, last := files[..|files| - 1], files[|files| - 1];
      SortKeeps(init);
      InsertKeeps(SortByTime(init), last);
      assert files == init + [last];
    }
  }

  lemma SortSorts(files: seq<File>)
    ensures IsSorted(SortByTime(files)) && multiset(SortByTime(files)) == multiset(files)
  {
    SortOrders(files);
    SortKeeps(files);
  }

  lemma {:induction false} SortKeepsTime(files: seq<File>, t: Time)
    ensures OfTime(SortByTime(files), t) == OfTime(files, t)
  {
    if files != [] {
      var init, last := files[..|files| - 1], files[|files| - 1];
      SortKeepsTime(init, t);
      SortSorts(init);
      InsertIsStable(SortByTime(init), last, t);
    }
  }

  /** Sorting keeps the files, puts the oldest first and leaves files of one time in their order. */
  lemma SortIsStable(files: seq<File>)
    ensures IsSorted(SortByTime(files)) && multiset(SortByTime(files)) == multiset(files)
    ensures forall t :: OfTime(SortByTime(files), t) == OfTime(files, t)
  {
    SortSorts(files);
    forall t ensures OfTime(SortByTime(files), t) == OfTime(files, t) { SortKeepsTime(files, t); }
  }

  /** What is evicted is the shortest prefix that brings the rest within the limit. */
  lemma {:induction false} EvictionIsShortest(files: seq<File>, maxTotal: int) returns (n: nat)
    ensures n <= |files| && Evict(files, maxTotal) == files[n..]
    ensures Sum(SizeOfAll, files[n..]) <= Max(0, maxTotal)
    ensures forall k :: 0 <= k < n ==> Sum(SizeOfAll, files[k..]) > maxTotal
  {
    if files == [] || Sum(SizeOfAll, files) <= maxTotal {
      n := 0;
      assert files[0..] == files;
    } else {
      n := EvictionIsShortest(files[1..], maxTotal);
      n := n + 1;
      assert files[0..] == files;
      forall k | 0 <= k < n ensures Sum(SizeOfAll, files[k..]) > maxTotal {
        if k > 0 { assert files[1..][k - 1..] == files[k..]; }
      }
      assert files[1..][n - 1..] == files[n..];
    }
  }

  // ---------------------------------------------------------------------
  // The budget over whole runs
  // ---------------------------------------------------------------------

  predicate IsPlain(key: string) { '_' !in key }

  /** The name of a file tells its key exactly when the key is plain. */
  predicate IsWellNamed(f: File) {
    f.key != "" && (AttemptPiece(f.name) == f.key <==> IsPlain(f.key))
  }

  predicate AreWellNamed(files: seq<File>) { forall f :: f in files ==> IsWellNamed(f) }

  ghost predicate IsWithin(limits: Limits, d: Disk, key: string) {
    && Sum(KeptFor(key), d.files) <= Counter(d, key)
    && Sum(KeptFor(key), d.files) <= Max(0, limits.maxPerAttemptBytes)
  }

  ghost predicate Inv(limits: Limits, d: Disk) {
    && AreWellNamed(d.files)
    && forall key {:trigger IsWithin(limits, d, key)} :: IsPlain(key) ==> IsWithin(limits, d, key)
  }

  lemma LandedSum(m: Measure, d: Disk, f: File)
    ensures Sum(m, Land(d, f).files) == Sum(m, d.files) + Weight(m, f)
  {
    assert (d.files + [f])[..|d.files|] == d.files;
  }

  lemma ReserveIsCovered(limits: Limits, d: Disk, r: Request)
    ensures var (reserved, f) := Reserve(limits, d, r);
      && f.key == KeyOf(r) && Counter(reserved, f.key) >= Counter(d, f.key) + Kept(f)
      && (Kept(f) > 0 ==> Kept(f) <= limits.maxPerAttemptBytes - Counter(d, f.key))
      && (forall key :: key != f.key ==> Counter(reserved, key) == Counter(d, key))
  {
    BoundedBodyFits(r.body, FileBudget(limits, d, KeyOf(r)));
  }

  lemma WriteKeepsWithin(limits: Limits, d: Disk, r: Request, key: string)
    requires IsWithin(limits, d, key)
    ensures IsWithin(limits, AfterWrite(limits, d, r), key)
  {
    var (reserved, f) := Reserve(limits, d, r);
    ReserveIsCovered(limits, d, r);
    LandingKeepsWithin(limits, d, reserved, f, key);
  }

  lemma LandingKeepsWithin(limits: Limits, d: Disk, reserved: Disk, f: File, key: string)
    requires IsWithin(limits, d, key) && reserved.files == d.files
    requires if key == f.key then Counter(reserved, key) >= Counter(d, key) + Kept(f)
             else Counter(reserved, key) == Counter(d, key)
    requires key == f.key && Kept(f) > 0 ==> Kept(f) <= limits.maxPerAttemptBytes - Counter(d, key)
    ensures IsWithin(limits, Land(reserved, f), key)
  {
    LandedSum(KeptFor(key), reserved, f);
  }

  lemma WriteKeepsInv(limits: Limits, d: Disk, r: Request)
    requires Inv(limits, d) && '_' !in r.stamp
    ensures Inv(limits, AfterWrite(limits, d, r))
  {
    PieceIsKeyIff(r.stamp, KeyOf(r), r.tail);
    forall key | IsPlain(key) ensures IsWithin(limits, AfterWrite(limits, d, r), key) {
      assert IsWithin(limits, d, key);
      WriteKeepsWithin(limits, d, r, key);
    }
  }

  lemma {:induction false} YoungWeighsLess(m: Measure, files: seq<File>, cutoff: Time)
    ensures Sum(m, Young(files, cutoff)) <= Sum(m, files)
  {
    if files != [] {
      var init, last := files[..|files| - 1], files[|files| - 1];
      YoungWeighsLess(m, init, cutoff);
      var young := Young(init, cutoff);
      assert (young + [last])[..|young|] == young && young + [] == young;
    }
  }

  lemma {:induction false} YoungAreThoseOnTime(files: seq<File>, cutoff: Time, f: File)
    ensures f in Young(files, cutoff) <==> f in files && f.mtime >= cutoff
  {
    if files != [] {
      YoungAreThoseOnTime(files[..|files| - 1], cutoff, f);
      assert files == files[..|files| - 1] + [files[|files| - 1]];
    }
  }

  /** If nothing is left of an attempt's files, nothing of its bodies is. */
  lemma {:induction false} NoFilesNoBytes(files: seq<File>, key: string)
    requires forall i :: 0 <= i < |files| ==> files[i].key != key
    ensures Sum(KeptFor(key), files) == 0
  {
    if files != [] { NoFilesNoBytes(files[..|files| - 1], key); }
  }

  lemma SortedSum(m: Measure, files: seq<File>)
    ensures Sum(m, SortByTime(files)) == Sum(m, files) && |SortByTime(files)| == |files|
  {
    SortSorts(files);
    SumIgnoresOrder(m, SortByTime(files), files);
    assert |SortByTime(files)| == |multiset(SortByTime(files))| == |files|;
  }

  lemma SurvivingSum(m: Measure, young: seq<File>, maxTotal: int)
    ensures Sum(m, Survivors(young, maxTotal)) <= Sum(m, young)
  {
    var sorted := SortByTime(young);
    SortedSum(m, young);
    var n := EvictionIsShortest(sorted, maxTotal);
    assert sorted == sorted[..n] + sorted[n..];
    SumOfParts(m, sorted[..n], sorted[n..]);
  }

  lemma SurvivorWasThere(young: seq<File>, maxTotal: int, f: File)
    requires f in Survivors(young, maxTotal)
    ensures f in young
  {
    var n := EvictionIsShortest(SortByTime(young), maxTotal);
    SortSorts(young);
    assert f in multiset(SortByTime(young)) && f in multiset(young);
  }

  lemma PlainFileIsLive(files: seq<File>, f: File)
    requires f in files && IsWellNamed(f) && IsPlain(f.key)
    ensures f.key in LiveKeys(files)
  {
    var i :| 0 <= i < |files| && files[i] == f;
    assert AttemptPiece(files[i].name) == f.key;
  }

  lemma NotLiveNoBytes(files: seq<File>, key: string)
    requires AreWellNamed(files) && IsPlain(key)
    ensures key !in LiveKeys(files) ==> Sum(KeptFor(key), files) == 0
  {
    if key !in LiveKeys(files) {
      forall i | 0 <= i < |files| ensures files[i].key != key {
        assert files[i] in files;
        if files[i].key == key { PlainFileIsLive(files, files[i]); }
      }
      NoFilesNoBytes(files, key);
    }
  }

  /** What an attempt has on disk after a prune is covered by what is remembered of it. */
  lemma RememberedCovers(counters: map<string, int>, young: seq<File>, key: string, used: int)
    requires AreWellNamed(young) && IsPlain(key) && Sum(KeptFor(key), young) <= used
    requires used == if key in counters then counters[key] else 0
    ensures Sum(KeptFor(key), young) <= Counter(Disk(Remembered(counters, LiveKeys(young)), young), key)
  {
    NotLiveNoBytes(young, key);
  }

  lemma PruneKeepsWithin(limits: Limits, d: Disk, now: Time, key: string)
    requires AreWellNamed(d.files) && IsPlain(key) && IsWithin(limits, d, key)
    ensures IsWithin(limits, AfterPrune(limits, d, now), key)
  {
    var young := Young(d.files, now - limits.maxAgeMs);
    YoungWeighsLess(KeptFor(key), d.files, now - limits.maxAgeMs);
    YoungAreWellNamed(d.files, now - limits.maxAgeMs);
    RememberedCovers(d.counters, young, key, Counter(d, key));
    SurvivingSum(KeptFor(key), young, limits.maxTotalBytes);
  }

  lemma PruneKeepsInv(limits: Limits, d: Disk, now: Time)
    requires Inv(limits, d)
    ensures Inv(limits, AfterPrune(limits, d, now))
  {
    forall key | IsPlain(key) ensures IsWithin(limits, AfterPrune(limits, d, now), key) {
      assert IsWithin(limits, d, key);
      PruneKeepsWithin(limits, d, now, key);
    }
    SurvivorsAreWellNamed(d.files, now - limits.maxAgeMs, limits.maxTotalBytes);
  }

  lemma SurvivorsAreWellNamed(files: seq<File>, cutoff: Time, maxTotal: int)
    requires AreWellNamed(files)
    ensures AreWellNamed(Survivors(Young(files, cutoff), maxTotal))
  {
    forall f | f in Survivors(Young(files, cutoff), maxTotal) ensures IsWellNamed(f) {
      SurvivorWasThere(Young(files, cutoff), maxTotal, f);
      YoungAreThoseOnTime(files, cutoff, f);
    }
  }

  lemma YoungAreWellNamed(files: seq<File>, cutoff: Time)
    requires AreWellNamed(files)
    ensures AreWellNamed(Young(files, cutoff))
  {
    forall f | f in Young(files, cutoff) ensures IsWellNamed(f) { YoungAreThoseOnTime(files, cutoff, f); }
  }

  lemma RelistKeepsInv(limits: Limits, d: Disk, files: seq<File>)
    requires Inv(limits, d) && multiset(files) == multiset(d.files)
    ensures Inv(limits, d.(files := files))
  {
    forall key | IsPlain(key) ensures IsWithin(limits, d.(files := files), key) {
      assert IsWithin(limits, d, key);
      SumIgnoresOrder(KeptFor(key), files, d.files);
    }
    forall f | f in files ensures IsWellNamed(f) {
      assert f in multiset(files) && f in d.files;
    }
  }

  // Relisting changes nothing but the order in which the directory lists its files.
  datatype Step = Written(r: Request) | Pruned(now: Time) | Relisted(files: seq<File>)

  function Next(limits: Limits, d: Disk, step: Step): Disk {
    match step
    case Written(r) => if '_' in r.stamp then d else AfterWrite(limits, d, r)
    case Pruned(now) => AfterPrune(limits, d, now)
    case Relisted(files) => if multiset(files) == multiset(d.files) then d.(files := files) else d
  }

  function Run(limits: Limits, steps: seq<Step>): Disk {
    if steps == [] then Disk(map[], []) else Next(limits, Run(limits, steps[..|steps| - 1]), steps[|steps| - 1])
  }

  lemma {:induction false} EveryRunKeepsInv(limits: Limits, steps: seq<Step>)
    ensures Inv(limits, Run(limits, steps))
  {
    if steps == [] {
      forall key ensures IsWithin(limits, Disk(map[], []), key) {}
    } else {
      var before, last := Run(limits, steps[..|steps| - 1]), steps[|steps| - 1];
      EveryRunKeepsInv(limits, steps[..|steps| - 1]);
      match last {
        case Written(r) => if '_' !in r.stamp { WriteKeepsInv(limits, before, r); }
        case Pruned(now) => PruneKeepsInv(limits, before, now);
        case Relisted(files) => if multiset(files) == multiset(before.files) { RelistKeepsInv(limits, before, files); }
      }
    }
  }

  /**
   * Over any run of whole writes and prunes, the bytes on disk of an attempt with
   * a plain key stay within its budget.
   */
  lemma AttemptStaysWithinBudget(limits: Limits, steps: seq<Step>, key: string)
    requires IsPlain(key)
    ensures Sum(KeptFor(key), Run(limits, steps).files) <= Max(0, limits.maxPerAttemptBytes)
  {
    EveryRunKeepsInv(limits, steps);
    assert IsWithin(limits, Run(limits, steps), key);
  }

  lemma {:induction false} YoungOfTime(files: seq<File>, cutoff: Time, t: Time)
    ensures OfTime(Young(files, cutoff), t) == if t < cutoff then [] else OfTime(files, t)
  {
    if files != [] {
      var init, last := files[..|files| - 1], files[|files| - 1];
      YoungOfTime(init, cutoff, t);
      var young := Young(init, cutoff);
      assert (young + [last])[..|young|] == young && young + [] == young;
      assert OfTime(init, t) + [] == OfTime(init, t);
    }
  }

  /**
   * A prune keeps the young files, sorts them by time with those of one time in
   * the order listed, and evicts the shortest oldest-first prefix that brings the
   * rest within the total.
   */
  lemma PruneIsExact(limits: Limits, d: Disk, now: Time) returns (sorted: seq<File>, n: nat)
    ensures IsSorted(sorted)
    ensures forall f :: f in sorted <==> f in d.files && f.mtime >= now - limits.maxAgeMs
    ensures forall t :: OfTime(sorted, t) == if t < now - limits.maxAgeMs then [] else OfTime(d.files, t)
    ensures n <= |sorted| && AfterPrune(limits, d, now).files == sorted[n..]
    ensures Sum(SizeOfAll, sorted[n..]) <= Max(0, limits.maxTotalBytes)
    ensures forall k :: 0 <= k < n ==> Sum(SizeOfAll, sorted[k..]) > limits.maxTotalBytes
  {
    sorted := SortedYoung(d.files, now - limits.maxAgeMs);
    n := EvictionIsShortest(sorted, limits.maxTotalBytes);
  }

  lemma SortedYoung(files: seq<File>, cutoff: Time) returns (sorted: seq<File>)
    ensures sorted == SortByTime(Young(files, cutoff))
    ensures IsSorted(sorted)
    ensures forall f :: f in sorted <==> f in files && f.mtime >= cutoff
    ensures forall t :: OfTime(sorted, t) == if t < cutoff then [] else OfTime(files, t)
  {
    sorted := SortByTime(Young(files, cutoff));
    SortSorts(Young(files, cutoff));
    forall f ensures f in sorted <==> f in files && f.mtime >= cutoff { SortedYoungAre(files, cutoff, f); }
    forall t ensures OfTime(sorted, t) == if t < cutoff then [] else OfTime(files, t) {
      SortKeepsTime(Young(files, cutoff), t);
      YoungOfTime(files, cutoff, t);
    }
  }

  lemma SortedYoungAre(files: seq<File>, cutoff: Time, f: File)
    ensures f in SortByTime(Young(files, cutoff)) <==> f in files && f.mtime >= cutoff
  {
    var young := Young(files, cutoff);
    SortSorts(young);
    YoungAreThoseOnTime(files, cutoff, f);
    assert f in SortByTime(young) <==> f in multiset(SortByTime(young));
    assert f in young <==> f in multiset(young);
  }

  /** The name of a file that is not past the cutoff tells the key. */
  ghost predicate IsToldByYoung(files: seq<File>, cutoff: Time, key: string) {
    key != "" && exists f :: f in files && f.mtime >= cutoff && AttemptPiece(f.name) == key
  }

  /** It remembers the counters under the keys that the names of young files tell, and no others. */
  lemma PruneRemembersExactly(limits: Limits, d: Disk, now: Time, key: string)
    ensures var cutoff, after := now - limits.maxAgeMs, AfterPrune(limits, d, now).counters;
      && (key in after <==> key in d.counters && IsToldByYoung(d.files, cutoff, key))
      && (key in after ==> after[key] == d.counters[key])
  {
    LiveKeysAreOfYoung(d.files, now - limits.maxAgeMs, key);
    RememberedAre(d.counters, LiveKeys(Young(d.files, now - limits.maxAgeMs)), key);
  }

  lemma RememberedAre(counters: map<string, int>, live: set<string>, key: string)
    ensures key in Remembered(counters, live) <==> key in counters && key in live
    ensures key in Remembered(counters, live) ==> Remembered(counters, live)[key] == counters[key]
  {}

  lemma LiveKeysAreOfYoung(files: seq<File>, cutoff: Time, key: string)
    ensures key in LiveKeys(Young(files, cutoff)) <==> IsToldByYoung(files, cutoff, key)
  {
    var young := Young(files, cutoff);
    if key in LiveKeys(young) {
      var i :| 0 <= i < |young| && AttemptPiece(young[i].name) == key;
      YoungAreThoseOnTime(files, cutoff, young[i]);
      assert young[i] in files && young[i].mtime >= cutoff;
    }
    if f :| f in files && f.mtime >= cutoff && AttemptPiece(f.name) == key {
      YoungAreThoseOnTime(files, cutoff, f);
      var i :| 0 <= i < |young| && young[i] == f;
      assert key != "" ==> AttemptPiece(young[i].name) in LiveKeys(young);
    }
  }

  /** No file holds more of a body than the limit of a file; with a marker it may exceed it by that at most. */
  predicate FitsFile(limits: Limits, f: File) {
    Kept(f) <= Max(0, limits.maxFileBytes) && |Text(f.body)| <= Max(limits.maxFileBytes, |MARKER|)
  }

  lemma ReservedFits(limits: Limits, d: Disk, r: Request)
    ensures FitsFile(limits, Reserve(limits, d, r).1)
  {
    BoundedBodyFits(r.body, FileBudget(limits, d, KeyOf(r)));
  }

  /** Over any run of whole writes and prunes every file on disk stays within the limit of a file. */
  lemma {:induction false} FilesStayWithinLimit(limits: Limits, steps: seq<Step>)
    ensures forall f :: f in Run(limits, steps).files ==> FitsFile(limits, f)
  {
    if steps != [] {
      var d, last := Run(limits, steps[..|steps| - 1]), steps[|steps| - 1];
      FilesStayWithinLimit(limits, steps[..|steps| - 1]);
      match last {
        case Written(r) => ReservedFits(limits, d, r);
        case Pruned(now) =>
          forall f | f in AfterPrune(limits, d, now).files ensures f in d.files { PrunedWasThere(limits, d, now, f); }
        case Relisted(files) =>
          forall f | f in files && multiset(files) == multiset(d.files) ensures f in d.files {
            assert f in multiset(files);
          }
      }
    }
  }

  lemma PrunedWasThere(limits: Limits, d: Disk, now: Time, f: File)
    requires f in AfterPrune(limits, d, now).files
    ensures f in d.files && f.mtime >= now - limits.maxAgeMs
  {
    SurvivorWasThere(Young(d.files, now - limits.maxAgeMs), limits.maxTotalBytes, f);
    YoungAreThoseOnTime(d.files, now - limits.maxAgeMs, f);
  }

  // ---------------------------------------------------------------------
  // Where the budget fails
  // ---------------------------------------------------------------------

  /** A prune remembers what an attempt with a young file has used if and only if its key is plain. */
  lemma CounterSurvivesIffPlain(limits: Limits, d: Disk, now: Time, f: File)
    requires f in d.files && f.mtime >= now - limits.maxAgeMs && IsWellNamed(f) && f.key in d.counters
    ensures f.key in AfterPrune(limits, d, now).counters <==> IsPlain(f.key)
  {
    PruneRemembersExactly(limits, d, now, f.key);
    if IsPlain(f.key) {
      assert AttemptPiece(f.name) == f.key;
    }
  }

  lemma LiveKeysArePlain(files: seq<File>, key: string)
    requires key in LiveKeys(files)
    ensures IsPlain(key)
  {
    var i :| 0 <= i < |files| && AttemptPiece(files[i].name) == key;
  }

  /** So an attempt whose key has an underscore gets a whole new budget at every prune. */
  lemma UnderscoreRenewsBudget(limits: Limits, d: Disk, now: Time, r: Request)
    requires !IsPlain(KeyOf(r)) && |r.body| <= Min(limits.maxFileBytes, limits.maxPerAttemptBytes)
    ensures var pruned := AfterPrune(limits, d, now);
      Sum(KeptFor(KeyOf(r)), AfterWrite(limits, pruned, r).files) == Sum(KeptFor(KeyOf(r)), pruned.files) + |r.body|
  {
    var pruned := AfterPrune(limits, d, now);
    var (reserved, f) := Reserve(limits, pruned, r);
    assert KeyOf(r) !in pruned.counters;
    LandedSum(KeptFor(KeyOf(r)), reserved, f);
  }

  // ---------------------------------------------------------------------
  // In place
  // ---------------------------------------------------------------------

  class Retention {
    const limits: Limits
    var attemptBytes: map<string, int>
    var files: seq<File>

    constructor (limits: Limits)
      ensures this.limits == limits && Contents() == Disk(map[], [])
    {
      this.limits := limits;
      attemptBytes, files := map[], [];
    }

    function Contents(): Disk
      reads this
    {
      Disk(attemptBytes, files)
    }

    /** The file added holds what the two limits leave of the body. */
    method Write(r: Request)
      modifies this
      ensures Contents() == AfterWrite(limits, old(Contents()), r)
      ensures |files| == |old(files)| + 1 && files[..|old(files)|] == old(files)
      ensures IsBoundedSo(files[|old(files)|].body, r.body, limits.maxFileBytes,
                          limits.maxPerAttemptBytes - Counter(old(Contents()), KeyOf(r)))
      ensures Counter(Contents(), KeyOf(r)) ==
              Counter(old(Contents()), KeyOf(r)) + |Text(files[|old(files)|].body)|
    {
      WritesAreBounded(limits, Contents(), r);
      var key := SafeSegment(r.id, "job");
      var used := if key in attemptBytes then attemptBytes[key] else 0;
      var remaining := Max(0, limits.maxPerAttemptBytes - used);
      var fileBudget := Min(limits.maxFileBytes, remaining);
      var bounded := Bounded([], true);
      if fileBudget > 0 {
        bounded := BoundBody(r.body, fileBudget);
      }
      attemptBytes := attemptBytes[key := used + |Text(bounded)|];
      files := files + [File(FileName(r.stamp, key, r.tail), key, bounded, r.size, r.mtime)];
    }

    /** The total left is reported exactly and is within the limit. */
    method Prune(now: Time) returns (removed: nat, remainingBytes: nat)
      modifies this
      ensures Contents() == AfterPrune(limits, old(Contents()), now)
      ensures remainingBytes == Sum(SizeOfAll, files) && remainingBytes <= Max(0, limits.maxTotalBytes)
      ensures removed + |files| == |old(files)|
    {
      ghost var expected := AfterPrune(limits, Contents(), now);
      var keep, live;
      keep, live, removed := SplitByAge(now - limits.maxAgeMs);
      assert expected == Disk(Remembered(attemptBytes, live), Survivors(keep, limits.maxTotalBytes));
      ForgetCounters(live);
      files, removed, remainingBytes := EvictOldest(keep, removed);
      assert Contents() == expected;
    }

    /** The size loop over the files sorted by time. */
    method EvictOldest(young: seq<File>, removed0: nat) returns (keep: seq<File>, removed: nat, remainingBytes: nat)
      ensures keep == Survivors(young, limits.maxTotalBytes) && removed + |keep| == removed0 + |young|
      ensures remainingBytes == Sum(SizeOfAll, keep) && remainingBytes <= Max(0, limits.maxTotalBytes)
    {
      SortedSum(SizeOfAll, young);
      ghost var sorted := SortByTime(young);
      keep, removed := SortByTime(young), removed0;
      remainingBytes := Sum(SizeOfAll, keep);
      while remainingBytes > limits.maxTotalBytes && |keep| > 0
        invariant Evict(keep, limits.maxTotalBytes) == Evict(sorted, limits.maxTotalBytes)
        invariant remainingBytes == Sum(SizeOfAll, keep) && removed + |keep| == removed0 + |sorted|
        decreases |keep|
      {
        FirstWeighs(keep);
        remainingBytes := remainingBytes - keep[0].size;
        keep := keep[1..];
        removed := removed + 1;
      }
    }

    method SplitByAge(cutoff: Time) returns (keep: seq<File>, live: set<string>, removed: nat)
      ensures keep == Young(files, cutoff) && live == LiveKeys(keep) && removed + |keep| == |files|
    {
      keep, live, removed := [], {}, 0;
      for i := 0 to |files|
        invariant keep == Young(files[..i], cutoff) && live == LiveKeys(keep) && removed + |keep| == i
      {
        var entry := files[i];
        assert files[..i + 1][..i] == files[..i];
        if entry.mtime < cutoff {
          removed := removed + 1;
          continue;
        }
        var attemptKey := AttemptPiece(entry.name);
        LiveKeysGrow(keep, entry);
        if attemptKey != "" { live := live + {attemptKey}; }
        keep := keep + [entry];
      }
      assert files[..|files|] == files;
    }

    /** Drops the counters of attempts without a kept file. */
    method ForgetCounters(live: set<string>)
      modifies this`attemptBytes
      ensures attemptBytes == Remembered(old(attemptBytes), live)
    {
      var left := attemptBytes.Keys;
      while left != {}
        invariant left <= attemptBytes.Keys <= old(attemptBytes).Keys
        invariant forall key :: key in attemptBytes ==> attemptBytes[key] == old(attemptBytes)[key]
        invariant forall key :: key in old(attemptBytes) ==> (key in attemptBytes <==> key in left || key in live)
        decreases |left|
      {
        var key :| key in left;
        if key !in live { attemptBytes := attemptBytes - {key}; }
        left := left - {key};
      }
      assert attemptBytes == Remembered(old(attemptBytes), live);
    }
  }

  lemma FirstWeighs(files: seq<File>)
    requires files != []
    ensures Sum(SizeOfAll, files) == files[0].size + Sum(SizeOfAll, files[1..])
  {
    SumOfParts(SizeOfAll, [files[0]], files[1..]);
    assert [files[0]] + files[1..] == files && [files[0]][..0] == [];
  }

  lemma LiveKeysGrow(files: seq<File>, f: File)
    ensures LiveKeys(files + [f]) == LiveKeys(files) + if AttemptPiece(f.name) != "" then {AttemptPiece(f.name)} else {}
  {
    var more := files + [f];
    forall key | key in LiveKeys(files) ensures key in LiveKeys(more) {
      var i :| 0 <= i < |files| && AttemptPiece(files[i].name) == key && key != "";
      assert more[i] == files[i];
    }
    assert more[|files|] == f;
    forall key | key in LiveKeys(more) ensures key in LiveKeys(files) || key == AttemptPiece(f.name) {
      var i :| 0 <= i < |more| && AttemptPiece(more[i].name) == key && key != "";
      if i < |files| { assert more[i] == files[i]; }
    }
  }
}
