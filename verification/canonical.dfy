/**
 The canonical string behind the family hash: the present product, OS and
 device fields, each group dot-joined, the non-empty groups and then the raw
 agent text joined with `|`.
 */
module Canonical {
  import opened Wrappers
  import opened Text
  import opened Records

  /** The values that are present, in field order (Rust's `flatten` over options). */
  function Present(fields: seq<Option<string>>): (r: seq<string>)
    ensures |r| <= |fields|
    ensures forall v :: v in r <==> Some(v) in fields
  {
    if |fields| == 0 then []
    else
      assert forall v :: Some(v) in fields <==> Some(v) == fields[0] || Some(v) in fields[1..] by {
        assert fields == [fields[0]] + fields[1..];
      }
      Head(fields[0]) + Present(fields[1..])
  }

  /** The value a single field contributes: itself when present, nothing when absent. */
  function Head(f: Option<string>): seq<string>
  {
    match f case Some(v) => [v] case None => []
  }

  /** One unfolding of `Present`: the first field's value comes before all the others. */
  lemma PresentStep(fields: seq<Option<string>>)
    requires |fields| > 0
    ensures Present(fields) == Head(fields[0]) + Present(fields[1..])
  {
  }

  /** `Present` keeps field order: the values of `a + b` are those of `a` followed by those of `b`. */
  lemma {:induction false} PresentAppend(a: seq<Option<string>>, b: seq<Option<string>>)
    ensures Present(a + b) == Present(a) + Present(b)
    decreases |a|
  {
    if |a| == 0 {
      assert a + b == b;
    } else {
      assert (a + b)[0] == a[0];
      assert (a + b)[1..] == a[1..] + b;
      PresentStep(a + b);
      PresentStep(a);
      PresentAppend(a[1..], b);
    }
  }

  /** A single field contributes its own value, or nothing. */
  lemma PresentSingle(f: Option<string>)
    ensures f.Some? ==> Present([f]) == [f.value]
    ensures f.None? ==> Present([f]) == []
  {
    PresentStep([f]);
    assert [f][1..] == [];
  }

  /** One group's present values joined with `.`, or the empty string when none is present. */
  function GroupString(fields: seq<Option<string>>): (r: string)
    ensures Present(fields) == [] ==> r == ""
    ensures |Present(fields)| == 1 ==> r == Present(fields)[0]
  {
    var parts := Present(fields);
    if |parts| > 0 then Join(parts, ".") else ""
  }

  /** A group yields no section exactly when it has no present value or a single empty one;
      two present empty values already give the non-empty ".". */
  lemma GroupEmpty(fields: seq<Option<string>>)
    ensures GroupString(fields) == "" <==> Present(fields) == [] || Present(fields) == [""]
  {
    var parts := Present(fields);
    if |parts| >= 2 {
      assert Join(parts, ".") == parts[0] + "." + Join(parts[1..], ".");
    }
  }

  /** When no value holds a dot, splitting a non-empty group string at `.` gives back the
      present values in field order. */
  lemma GroupRecoverable(fields: seq<Option<string>>)
    requires forall v :: Some(v) in fields ==> '.' !in v
    ensures Present(fields) != [] ==> Split(GroupString(fields), '.') == Present(fields)
  {
    var parts := Present(fields);
    if parts != [] {
      forall i | 0 <= i < |parts| ensures '.' !in parts[i] {
        assert parts[i] in parts;
      }
      SplitOfJoin(parts, '.');
    }
  }

  function ProductFields(p: Product): seq<Option<string>> {
    [p.name, p.major, p.minor, p.patch]
  }

  function OsFields(o: Os): seq<Option<string>> {
    [o.name, o.major, o.minor, o.patch, o.patchMinor]
  }

  function DeviceFields(d: Device): seq<Option<string>> {
    [d.name, d.brand, d.model]
  }

  /** The product, OS and device group strings, in that order. */
  function Groups(rec: UserAgent): seq<string> {
    [GroupString(ProductFields(rec.product)), GroupString(OsFields(rec.os)), GroupString(DeviceFields(rec.device))]
  }

  /** The sections of the canonical string: the non-empty groups, then the raw agent text. */
  function Sections(rec: UserAgent, ua: string): seq<string> {
    NonEmptyParts(Groups(rec)) + [ua]
  }

  /** `normalized_string_internal`: the agent text is always the final section; the result is
      the agent text alone exactly when every group is empty, and otherwise the groups come first,
      separated from the agent text by `|`. */
  function NormalizedStringInternal(rec: UserAgent, ua: string): (r: string)
    ensures |ua| <= |r| && r[|r| - |ua|..] == ua
    ensures r == ua <==> NonEmptyParts(Groups(rec)) == []
    ensures NonEmptyParts(Groups(rec)) != [] ==> r == Join(NonEmptyParts(Groups(rec)), "|") + "|" + ua
  {
    var sections := NonEmptyParts(Groups(rec)) + [ua];
    if |sections| >= 2 then
      JoinLast(sections, "|");
      assert sections[..|sections| - 1] == NonEmptyParts(Groups(rec));
      Join(sections, "|")
    else
      Join(sections, "|")
  }

  /** When no section contains `|`, splitting the canonical string at `|` recovers the sections. */
  lemma SectionsRecoverable(rec: UserAgent, ua: string)
    requires forall i :: 0 <= i < |Sections(rec, ua)| ==> '|' !in Sections(rec, ua)[i]
    ensures Split(NormalizedStringInternal(rec, ua), '|') == Sections(rec, ua)
  {
    SplitOfJoin(Sections(rec, ua), '|');
    assert "|" == ['|'];
  }

  /** With no structured field present the canonical string is the agent text itself. */
  lemma NoFieldsGivesAgent(rec: UserAgent, ua: string)
    requires rec.product == Product(None, None, None, None)
    requires rec.os == Os(None, None, None, None, None)
    requires rec.device == Device(None, None, None)
    ensures NormalizedStringInternal(rec, ua) == ua
  {
    NothingPresent(ProductFields(rec.product));
    NothingPresent(OsFields(rec.os));
    NothingPresent(DeviceFields(rec.device));
  }

  lemma NothingPresent(fields: seq<Option<string>>)
    requires forall f :: f in fields ==> f == None
    ensures Present(fields) == []
  {
  }

  /** Engine, CPU, address and the derived fields never reach the canonical string. */
  lemma CanonicalIgnoresOtherFields(a: UserAgent, b: UserAgent, ua: string)
    requires a.product == b.product && a.os == b.os && a.device == b.device
    ensures NormalizedStringInternal(a, ua) == NormalizedStringInternal(b, ua)
  {
  }

  /** `normalized_string`: present exactly when the agent text is. */
  function NormalizedString(rec: UserAgent): (r: Option<string>)
    ensures r.Some? <==> rec.userAgent.Some?
    ensures r.Some? ==> r.value == NormalizedStringInternal(rec, rec.userAgent.value)
  {
    match rec.userAgent
    case None => None
    case Some(ua) => Some(NormalizedStringInternal(rec, ua))
  }

  /** `hash`: one pass of `h` (BLAKE3, hex-encoded) over the canonical string; present exactly
      when the agent text is. */
  function FamilyHash(rec: UserAgent, h: string -> string): (r: Option<string>)
    ensures r.Some? <==> rec.userAgent.Some?
    ensures r.Some? ==> r.value == h(NormalizedStringInternal(rec, rec.userAgent.value))
  {
    match NormalizedString(rec)
    case None => None
    case Some(s) => Some(h(s))
  }

  /** The family hash depends on the agent text and the product, OS and device groups only. */
  lemma FamilyHashIgnoresOtherFields(a: UserAgent, b: UserAgent, h: string -> string)
    requires a.userAgent == b.userAgent
    requires a.product == b.product && a.os == b.os && a.device == b.device
    ensures FamilyHash(a, h) == FamilyHash(b, h)
  {
    if a.userAgent.Some? {
      CanonicalIgnoresOtherFields(a, b, a.userAgent.value);
    }
  }
}
