/**
 The fingerprint: the feature tokens rendered as `tag:value`, sorted, joined with `&%&`
 and hashed twice. Sorting makes the result depend on how often each token occurs and
 on nothing else about the order in which the tokens were produced.
 */
module Fingerprint {
  import opened Wrappers
  import opened Text
  import opened Sorting
  import opened Records
  import opened Features
  import opened VectorLaws

  /** The separator placed between sorted feature strings. */
  const Separator: string := "&%&"

  /** A token as the source formats it: the tag name, a colon, the value. */
  function Render(t: Token): string {
    TagName(t.tag) + ":" + t.value
  }

  /** Distinct tokens render as distinct strings: the first colon ends the tag name, and
      the rest is the value. */
  lemma RenderInjective(a: Token, b: Token)
    requires Render(a) == Render(b)
    ensures a == b
  {
    var na, nb := TagName(a.tag), TagName(b.tag);
    TagNameRoundTrip(a.tag);
    TagNameRoundTrip(b.tag);
    assert Render(a)[|na|] == ':' && Render(b)[|nb|] == ':';
    if |na| != |nb| {
      assert false;
    } else {
      assert na == Render(a)[..|na|] == Render(b)[..|nb|] == nb;
      assert a.value == Render(a)[|na| + 1..] == Render(b)[|nb| + 1..] == b.value;
    }
  }

  /** The renderings of a token sequence, in order. */
  function Rendered(ts: seq<Token>): (r: seq<string>)
    ensures |r| == |ts|
  {
    if ts == [] then [] else [Render(ts[0])] + Rendered(ts[1..])
  }

  lemma {:induction false} RenderedAppend(a: seq<Token>, b: seq<Token>)
    ensures Rendered(a + b) == Rendered(a) + Rendered(b)
  {
    if a == [] {
      assert a + b == b;
    } else {
      assert (a + b)[1..] == a[1..] + b;
      RenderedAppend(a[1..], b);
    }
  }

  /** Rearranging the tokens rearranges their renderings in the same way. */
  lemma {:induction false} RenderedPermutation(a: seq<Token>, b: seq<Token>)
    requires multiset(a) == multiset(b)
    ensures multiset(Rendered(a)) == multiset(Rendered(b))
  {
    if |a| == 0 {
      assert |b| == |multiset(b)| == 0;
    } else {
      var left, right := MatchFirst(a, b);
      RenderedPermutation(a[1..], left + right);
      RenderedTakeOut(b, left, a[0], right);
      RenderedFirst(a);
    }
  }

  /** `b` around an occurrence of the first element of `a`; without it both sides hold the
      same elements. */
  lemma MatchFirst(a: seq<Token>, b: seq<Token>) returns (left: seq<Token>, right: seq<Token>)
    requires |a| > 0 && multiset(a) == multiset(b)
    ensures b == left + [a[0]] + right
    ensures multiset(a[1..]) == multiset(left + right)
  {
    assert a[0] in multiset(b);
    var j :| 0 <= j < |b| && b[j] == a[0];
    RemoveAt(b, j);
    left, right := b[..j], b[j + 1..];
    assert b == left + [b[j]] + right;
    assert a == [a[0]] + a[1..];
    assert multiset(a) == multiset{a[0]} + multiset(a[1..]);
  }

  lemma RenderedFirst(a: seq<Token>)
    requires |a| > 0
    ensures multiset(Rendered(a)) == multiset{Render(a[0])} + multiset(Rendered(a[1..]))
  {
    assert Rendered(a) == [Render(a[0])] + Rendered(a[1..]);
  }

  /** The rendering of one token taken out of the middle of a sequence. */
  lemma RenderedTakeOut(b: seq<Token>, left: seq<Token>, x: Token, right: seq<Token>)
    requires b == left + [x] + right
    ensures multiset(Rendered(b)) == multiset{Render(x)} + multiset(Rendered(left + right))
  {
    RenderedAppend(left + [x], right);
    RenderedAppend(left, [x]);
    RenderedAppend(left, right);
    assert Rendered([x]) == [Render(x)];
    calc {
      multiset(Rendered(b));
      multiset(Rendered(left) + [Render(x)] + Rendered(right));
      multiset{Render(x)} + multiset(Rendered(left)) + multiset(Rendered(right));
      multiset{Render(x)} + multiset(Rendered(left + right));
    }
  }

  /** Dropping the element at `j` drops one copy of it. */
  lemma RemoveAt<T>(b: seq<T>, j: nat)
    requires j < |b|
    ensures multiset(b[..j] + b[j + 1..]) == multiset(b) - multiset{b[j]}
  {
    assert b == b[..j] + [b[j]] + b[j + 1..];
    assert multiset(b) == multiset(b[..j]) + multiset{b[j]} + multiset(b[j + 1..]);
  }

  /** The text the fingerprint hashes: the sorted renderings, separated by `&%&`. */
  function FeatureString(ts: seq<Token>): string {
    Join(Sort(Rendered(ts)), Separator)
  }

  /** The feature string is the join of the one ordered arrangement of the renderings. */
  lemma FeatureStringIsSortedJoin(ts: seq<Token>, order: seq<string>)
    requires Sorted(order) && multiset(order) == multiset(Rendered(ts))
    ensures FeatureString(ts) == Join(order, Separator)
  {
    SortedUnique(Sort(Rendered(ts)), order);
  }

  /** Any two token sequences with the same counts give the same feature string. */
  lemma FeatureStringOrderIndependent(a: seq<Token>, b: seq<Token>)
    requires multiset(a) == multiset(b)
    ensures FeatureString(a) == FeatureString(b)
  {
    RenderedPermutation(a, b);
    SortOrderIndependent(Rendered(a), Rendered(b));
  }

  /** `fingerprint`: absent without agent text, otherwise `h` applied to `h` of the feature
      string of the record's vector. */
  function FingerprintOf(rec: UserAgent, h: string -> string): (r: Option<string>)
    ensures r.Some? <==> rec.userAgent.Some?
  {
    match rec.userAgent
    case None => None
    case Some(ua) => Some(h(h(FeatureString(FeatureVector(rec, ua)))))
  }

  /** The fingerprint is the double hash of the feature string of every arrangement of the
      tokens with the counts `Expected` gives, not only of the construction order. */
  lemma FingerprintOfAnyArrangement(rec: UserAgent, fv: seq<Token>, h: string -> string)
    requires rec.userAgent.Some?
    requires Tally(fv, rec, Measure(rec.userAgent.value), Scan(rec.userAgent.value))
    ensures FingerprintOf(rec, h) == Some(h(h(FeatureString(fv))))
  {
    var ua := rec.userAgent.value;
    VectorTally(rec, ua);
    TallyIgnoresOtherFields(FeatureVector(rec, ua), fv, rec, rec, Measure(ua), Scan(ua));
    FeatureStringOrderIndependent(FeatureVector(rec, ua), fv);
  }

  /** Patch versions, the engine minor version and the stored identifiers do not affect
      the fingerprint. */
  lemma FingerprintIgnoresOtherFields(a: UserAgent, b: UserAgent, h: string -> string)
    requires a.userAgent == b.userAgent
    requires SameVectorFields(a, b)
    ensures FingerprintOf(a, h) == FingerprintOf(b, h)
  {
    if a.userAgent.Some? {
      var ua := a.userAgent.value;
      VectorIgnoresOtherFields(a, b, ua);
      FeatureStringOrderIndependent(FeatureVector(a, ua), FeatureVector(b, ua));
    }
  }
}
