// Operation keys: packages/shared/src/idempotency/operation-key.ts.
module OperationKey {
  import opened Wrappers

  datatype Parts = Parts(
    operation: string, projectId: string, featureId: Option<string>, jobAttemptId: Option<string>,
    checksum: Option<string>, subject: Option<string>)

  datatype ParseResult = Parsed(parts: Parts) | Invalid | MissingProject

  // ---------------------------------------------------------------------
  // Printing
  // ---------------------------------------------------------------------

  function Join(segments: seq<string>): string {
    if segments == [] then ""
    else if |segments| == 1 then segments[0]
    else Join(segments[..|segments| - 1]) + ":" + segments[|segments| - 1]
  }

  function Field(name: string, value: Option<string>): seq<string> {
    if value.Some? then [name + "=" + value.value] else []
  }

  function Segments(p: Parts): seq<string> {
    [p.operation] + Fields(p)
  }

  function Fields(p: Parts): seq<string> {
    Field("project", Some(p.projectId)) + Field("feature", p.featureId) + Field("job", p.jobAttemptId)
    + Field("checksum", p.checksum) + Field("subject", p.subject)
  }

  function CreateOperationKey(p: Parts): string { Join(Segments(p)) }

  lemma JoinAppends(segments: seq<string>, more: seq<string>)
    requires segments != [] && |more| <= 1
    ensures Join(segments + more) == Join(segments) + if more == [] then "" else ":" + more[0]
  {
    if more == [] {
      assert segments + more == segments && Join(segments) + "" == Join(segments);
    } else {
      assert (segments + more)[..|segments|] == segments;
    }
  }

  function Printed(name: string, value: Option<string>): string {
    if value.Some? then ":" + name + "=" + value.value else ""
  }

  /** A key reads: the operation, the project, and those of feature, job, checksum and subject that are given. */
  lemma KeysReadSo(p: Parts)
    ensures CreateOperationKey(p) ==
            p.operation + Printed("project", Some(p.projectId))
            + Printed("feature", p.featureId) + Printed("job", p.jobAttemptId)
            + Printed("checksum", p.checksum) + Printed("subject", p.subject)
  {
    var s1 := [p.operation] + Field("project", Some(p.projectId));
    var s2 := s1 + Field("feature", p.featureId);
    var s3 := s2 + Field("job", p.jobAttemptId);
    var s4 := s3 + Field("checksum", p.checksum);
    FieldAppends([p.operation], "project", Some(p.projectId));
    FieldAppends(s1, "feature", p.featureId);
    FieldAppends(s2, "job", p.jobAttemptId);
    FieldAppends(s3, "checksum", p.checksum);
    FieldAppends(s4, "subject", p.subject);
    SegmentsAre(p);
  }

  lemma SegmentsAre(p: Parts)
    ensures Segments(p) == [p.operation] + Field("project", Some(p.projectId)) + Field("feature", p.featureId)
                           + Field("job", p.jobAttemptId) + Field("checksum", p.checksum) + Field("subject", p.subject)
  {}

  lemma FieldAppends(segments: seq<string>, name: string, value: Option<string>)
    requires segments != []
    ensures Join(segments + Field(name, value)) == Join(segments) + Printed(name, value)
  {
    JoinAppends(segments, Field(name, value));
    if value.Some? { assert ":" + (name + "=" + value.value) == ":" + name + "=" + value.value; }
  }

  // ---------------------------------------------------------------------
  // Parsing
  // ---------------------------------------------------------------------

  /** The pieces between colons; always at least one. */
  function Split(s: string): (pieces: seq<string>)
    ensures |pieces| > 0
    ensures forall i :: 0 <= i < |pieces| ==> ':' !in pieces[i]
  {
    if s == "" then [""]
    else
      var rest, last := Split(s[..|s| - 1]), s[|s| - 1];
      if last == ':' then rest + [""] else rest[|rest| - 1 := rest[|rest| - 1] + [last]]
  }

  /** The position of the first '=', or -1. */
  function IndexOfEquals(s: string): (k: int)
    ensures -1 <= k < |s|
    ensures k >= 0 ==> s[k] == '='
    ensures forall j :: 0 <= j < (if k < 0 then |s| else k) ==> s[j] != '='
  {
    if s == "" then -1
    else if s[0] == '=' then 0
    else
      var k := IndexOfEquals(s[1..]);
      if k < 0 then -1 else k + 1
  }

  function Assign(parsed: Parts, segment: string): Parts {
    var eq := IndexOfEquals(segment);
    if eq <= 0 then parsed
    else
      var name, value := segment[..eq], segment[eq + 1..];
      if name == "project" then parsed.(projectId := value)
      else if name == "feature" then parsed.(featureId := Some(value))
      else if name == "job" then parsed.(jobAttemptId := Some(value))
      else if name == "checksum" then parsed.(checksum := Some(value))
      else if name == "subject" then parsed.(subject := Some(value))
      else parsed
  }

  function AssignAll(parsed: Parts, segments: seq<string>): Parts {
    if segments == [] then parsed
    else Assign(AssignAll(parsed, segments[..|segments| - 1]), segments[|segments| - 1])
  }

  function Blank(operation: string): Parts { Parts(operation, "", None, None, None, None) }

  function Parse(key: string): ParseResult {
    var pieces := Split(key);
    if pieces[0] == "" || |pieces| == 1 then Invalid
    else
      var parsed := AssignAll(Blank(pieces[0]), pieces[1..]);
      if parsed.projectId == "" then MissingProject else Parsed(parsed)
  }

  method ParseOperationKey(key: string) returns (r: ParseResult)
    ensures r == Parse(key)
  {
    var pieces := Split(key);
    var operation, rest := pieces[0], pieces[1..];
    if operation == "" || |rest| == 0 { return Invalid; }
    var parsed := Blank(operation);
    for i := 0 to |rest|
      invariant parsed == AssignAll(Blank(operation), rest[..i])
    {
      assert rest[..i + 1][..i] == rest[..i];
      var eq := IndexOfEquals(rest[i]);
      if eq <= 0 { continue; }
      var name, value := rest[i][..eq], rest[i][eq + 1..];
      if name == "project" {
        parsed := parsed.(projectId := value);
      } else if name == "feature" {
        parsed := parsed.(featureId := Some(value));
      } else if name == "job" {
        parsed := parsed.(jobAttemptId := Some(value));
      } else if name == "checksum" {
        parsed := parsed.(checksum := Some(value));
      } else if name == "subject" {
        parsed := parsed.(subject := Some(value));
      }
    }
    assert rest[..|rest|] == rest;
    if parsed.projectId == "" { return MissingProject; }
    return Parsed(parsed);
  }

  // ---------------------------------------------------------------------
  // Splitting undoes joining
  // ---------------------------------------------------------------------

  lemma {:induction false} SplitAppends(s: string, t: string)
    requires ':' !in t
    ensures Split(s + t) == Split(s)[|Split(s)| - 1 := Split(s)[|Split(s)| - 1] + t]
  {
    var pieces := Split(s);
    if t == "" {
      assert s + t == s && pieces[|pieces| - 1] + t == pieces[|pieces| - 1];
    } else {
      var init, last := t[..|t| - 1], t[|t| - 1];
      SplitAppends(s, init);
      assert (s + t)[..|s + t| - 1] == s + init && (s + t)[|s + t| - 1] == last;
      assert pieces[|pieces| - 1] + init + [last] == pieces[|pieces| - 1] + t;
    }
  }

  lemma SplitAppendsPiece(s: string, t: string)
    requires ':' !in t
    ensures Split(s + ":" + t) == Split(s) + [t]
  {
    SplitAppends(s + ":", t);
    assert (s + ":")[..|s|] == s;
    assert Split(s + ":") == Split(s) + [""];
    assert "" + t == t;
  }

  lemma {:induction false} SplitUndoesJoin(segments: seq<string>)
    requires segments != [] && forall i {:trigger segments[i]} :: 0 <= i < |segments| ==> ':' !in segments[i]
    ensures Split(Join(segments)) == segments
  {
    if |segments| == 1 {
      SplitAppends("", segments[0]);
      assert "" + segments[0] == segments[0];
    } else {
      var init, last := segments[..|segments| - 1], segments[|segments| - 1];
      SplitUndoesJoin(init);
      SplitAppendsPiece(Join(init), last);
      assert Join(segments) == Join(init) + ":" + last;
      assert segments == init + [last];
    }
  }

  // ---------------------------------------------------------------------
  // The round trip
  // ---------------------------------------------------------------------

  predicate IsColonFree(value: Option<string>) { value.Some? ==> ':' !in value.value }

  /** The keys that can be read back. */
  predicate IsPrintable(p: Parts) {
    && p.operation != "" && p.projectId != "" && ':' !in p.operation && ':' !in p.projectId
    && HasColonFreeFields(p)
  }

  predicate HasColonFreeFields(p: Parts) {
    && IsColonFree(p.featureId) && IsColonFree(p.jobAttemptId)
    && IsColonFree(p.checksum) && IsColonFree(p.subject)
  }

  lemma EqualsEndsName(name: string, value: string)
    requires '=' !in name && name != ""
    ensures var s := name + "=" + value;
      IndexOfEquals(s) == |name| && s[..|name|] == name && s[|name| + 1..] == value
  {
    var s := name + "=" + value;
    assert s[|name|] == '=';
    assert forall j :: 0 <= j < |name| ==> s[j] in name;
  }

  lemma AssignAllAppends(parsed: Parts, segments: seq<string>, name: string, value: Option<string>)
    requires '=' !in name && name != ""
    ensures value.None? ==> AssignAll(parsed, segments + Field(name, value)) == AssignAll(parsed, segments)
    ensures value.Some? ==> AssignAll(parsed, segments + Field(name, value))
                            == Assign(AssignAll(parsed, segments), name + "=" + value.value)
  {
    if value.None? {
      assert segments + Field(name, value) == segments;
    } else {
      assert (segments + Field(name, value))[..|segments|] == segments;
    }
  }

  lemma AssignField(parsed: Parts, value: string)
    ensures Assign(parsed, "project" + "=" + value) == parsed.(projectId := value)
    ensures Assign(parsed, "feature" + "=" + value) == parsed.(featureId := Some(value))
    ensures Assign(parsed, "job" + "=" + value) == parsed.(jobAttemptId := Some(value))
    ensures Assign(parsed, "checksum" + "=" + value) == parsed.(checksum := Some(value))
    ensures Assign(parsed, "subject" + "=" + value) == parsed.(subject := Some(value))
  {
    EqualsEndsName("project", value);
    EqualsEndsName("feature", value);
    EqualsEndsName("job", value);
    EqualsEndsName("checksum", value);
    EqualsEndsName("subject", value);
  }

  /** Reading the printed fields fills a blank with them. */
  lemma FieldsAreRead(p: Parts)
    ensures AssignAll(Blank(p.operation), Fields(p)) == p
  {
    var blank := Blank(p.operation);
    var s1 := [] + Field("project", Some(p.projectId));
    var s2 := s1 + Field("feature", p.featureId);
    var s3 := s2 + Field("job", p.jobAttemptId);
    var s4 := s3 + Field("checksum", p.checksum);
    AssignAllAppends(blank, [], "project", Some(p.projectId));
    AssignAllAppends(blank, s1, "feature", p.featureId);
    AssignAllAppends(blank, s2, "job", p.jobAttemptId);
    AssignAllAppends(blank, s3, "checksum", p.checksum);
    AssignAllAppends(blank, s4, "subject", p.subject);
    AssignField(blank, p.projectId);
    if p.featureId.Some? { AssignField(AssignAll(blank, s1), p.featureId.value); }
    if p.jobAttemptId.Some? { AssignField(AssignAll(blank, s2), p.jobAttemptId.value); }
    if p.checksum.Some? { AssignField(AssignAll(blank, s3), p.checksum.value); }
    if p.subject.Some? { AssignField(AssignAll(blank, s4), p.subject.value); }
    assert s1 == Field("project", Some(p.projectId));
  }

  lemma PrintableSegmentsHaveNoColon(p: Parts)
    requires IsPrintable(p)
    ensures forall i :: 0 <= i < |Segments(p)| ==> ':' !in Segments(p)[i]
  {
    FieldHasNoColon("project", Some(p.projectId));
    FieldHasNoColon("feature", p.featureId);
    FieldHasNoColon("job", p.jobAttemptId);
    FieldHasNoColon("checksum", p.checksum);
    FieldHasNoColon("subject", p.subject);
  }

  lemma FieldHasNoColon(name: string, value: Option<string>)
    requires ':' !in name && IsColonFree(value)
    ensures forall i :: 0 <= i < |Field(name, value)| ==> ':' !in Field(name, value)[i]
  {}

  /** Whatever is read from any key can be printed and read back. */
  lemma ParsedIsPrintable(key: string)
    requires Parse(key).Parsed?
    ensures IsPrintable(Parse(key).parts)
  {
    var pieces := Split(key);
    AssignedIsColonFree(Blank(pieces[0]), pieces[1..]);
  }

  lemma {:induction false} AssignedIsColonFree(parsed: Parts, segments: seq<string>)
    requires forall i :: 0 <= i < |segments| ==> ':' !in segments[i]
    requires ':' !in parsed.projectId && HasColonFreeFields(parsed)
    ensures var after := AssignAll(parsed, segments);
      ':' !in after.projectId && HasColonFreeFields(after) && after.operation == parsed.operation
  {
    if segments != [] {
      AssignedIsColonFree(parsed, segments[..|segments| - 1]);
    }
  }

  /**
   * Parsing a created key returns its parts if and only if the operation and
   * the project are not empty and no field contains a colon. Optional fields
   * may be absent or empty, and values may contain '='.
   */
  lemma RoundTripIff(p: Parts)
    ensures Parse(CreateOperationKey(p)) == Parsed(p) <==> IsPrintable(p)
  {
    if IsPrintable(p) {
      PrintableSegmentsHaveNoColon(p);
      SplitUndoesJoin(Segments(p));
      assert Segments(p)[1..] == Fields(p);
      FieldsAreRead(p);
    }
    if Parse(CreateOperationKey(p)) == Parsed(p) {
      ParsedIsPrintable(CreateOperationKey(p));
    }
  }

  /** Different parts have different keys. */
  lemma KeysAreInjective(p: Parts, q: Parts)
    requires IsPrintable(p) && IsPrintable(q) && CreateOperationKey(p) == CreateOperationKey(q)
    ensures p == q
  {
    RoundTripIff(p);
    RoundTripIff(q);
  }

  /** A colon in the project makes two different operations share a key. */
  lemma ColonsCollide(operation: string, project: string, feature: string)
    ensures CreateOperationKey(Parts(operation, project + ":feature=" + feature, None, None, None, None))
         == CreateOperationKey(Parts(operation, project, Some(feature), None, None, None))
  {
    KeysReadSo(Parts(operation, project + ":feature=" + feature, None, None, None, None));
    KeysReadSo(Parts(operation, project, Some(feature), None, None, None));
    var head, tail := ":" + "project" + "=", ":" + "feature" + "=" + feature;
    assert ":" + "feature" + "=" == ":feature=";
    assert head + (project + ":feature=" + feature) == head + project + tail;
    assert operation + (head + project + tail) == operation + (head + project) + tail;
  }
}
