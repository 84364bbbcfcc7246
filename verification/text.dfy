/**
 The slice of Rust's string API the identifier derivation uses: `join`, `split`,
 `split_whitespace` and `contains`, with the round trips that tie them together.
 */
module Text {
  import opened Chars

  /** Rust's `[S]::join(sep)`: the parts with `sep` between consecutive ones. */
  function Join(parts: seq<string>, sep: string): string
  {
    if |parts| == 0 then ""
    else if |parts| == 1 then parts[0]
    else parts[0] + sep + Join(parts[1..], sep)
  }

  /** Joining splits at any inner boundary: the first `k` parts, the separator, the rest. */
  lemma {:induction false} JoinSplitAt(parts: seq<string>, sep: string, k: nat)
    requires 0 < k < |parts|
    ensures Join(parts, sep) == Join(parts[..k], sep) + sep + Join(parts[k..], sep)
  {
    if k > 1 {
      JoinSplitAt(parts[1..], sep, k - 1);
      assert parts[1..][..k - 1] == parts[..k][1..];
      assert parts[1..][k - 1..] == parts[k..];
    }
  }

  /** The last part is always the final suffix of a join. */
  lemma JoinLast(parts: seq<string>, sep: string)
    requires |parts| >= 2
    ensures Join(parts, sep) == Join(parts[..|parts| - 1], sep) + sep + parts[|parts| - 1]
  {
    JoinSplitAt(parts, sep, |parts| - 1);
  }

  /** Number of occurrences of `c` in `s`. */
  function Occurrences(s: string, c: char): nat {
    multiset(s)[c]
  }

  lemma OccurrencesAppend(a: string, b: string, c: char)
    ensures Occurrences(a + b, c) == Occurrences(a, c) + Occurrences(b, c)
  {
    assert multiset(a + b) == multiset(a) + multiset(b);
  }

  /** Rust's `str::split(pattern)` for a character predicate: empty pieces are kept,
      so the text has one more piece than separators. */
  function SplitWhere(s: string, isSep: char -> bool): (parts: seq<string>)
    ensures |parts| == CountWhere(s, isSep) + 1
    ensures forall i, j :: 0 <= i < |parts| && 0 <= j < |parts[i]| ==> !isSep(parts[i][j])
    decreases |s|
  {
    if |s| == 0 then [""]
    else
      var rest := SplitWhere(s[1..], isSep);
      if isSep(s[0]) then [""] + rest
      else [[s[0]] + rest[0]] + rest[1..]
  }

  /** Rust's `str::split(c)` for one character `c`. */
  function Split(s: string, c: char): (parts: seq<string>)
    ensures |parts| >= 1
  {
    SplitWhere(s, x => x == c)
  }

  /** The text has one more piece than separators, and no piece holds the separator. */
  lemma {:induction false} SplitShape(s: string, c: char)
    ensures |Split(s, c)| == Occurrences(s, c) + 1
    ensures forall i :: 0 <= i < |Split(s, c)| ==> c !in Split(s, c)[i]
    decreases |s|
  {
    if |s| > 0 {
      var rest := Split(s[1..], c);
      SplitShape(s[1..], c);
      assert s == [s[0]] + s[1..];
      OccurrencesAppend([s[0]], s[1..], c);
      if s[0] != c {
        var parts := Split(s, c);
        assert parts == [[s[0]] + rest[0]] + rest[1..];
        forall i | 0 <= i < |parts| ensures c !in parts[i] {
          if i > 0 {
            assert parts[i] == rest[i];
          }
        }
      }
    }
  }

  /** Joining the pieces of a split with the same character gives the text back. */
  lemma {:induction false} JoinOfSplit(s: string, c: char)
    ensures Join(Split(s, c), [c]) == s
    decreases |s|
  {
    if |s| > 0 {
      JoinOfSplit(s[1..], c);
      if s[0] == c {
        JoinOfSplitSep(s, c);
      } else {
        JoinOfSplitCons(s, c);
      }
    }
  }

  /** The step of `JoinOfSplit` for a text that starts with the separator. */
  lemma JoinOfSplitSep(s: string, c: char)
    requires |s| > 0 && s[0] == c
    requires Join(Split(s[1..], c), [c]) == s[1..]
    ensures Join(Split(s, c), [c]) == s
  {
    var rest := Split(s[1..], c);
    assert Split(s, c) == [""] + rest;
    JoinCons("", rest, [c]);
    assert s == [s[0]] + s[1..];
  }

  /** The step of `JoinOfSplit` for a text that starts with another character. */
  lemma JoinOfSplitCons(s: string, c: char)
    requires |s| > 0 && s[0] != c
    requires Join(Split(s[1..], c), [c]) == s[1..]
    ensures Join(Split(s, c), [c]) == s
  {
    var rest := Split(s[1..], c);
    assert Split(s, c) == [[s[0]] + rest[0]] + rest[1..];
    JoinGlued([s[0]], rest, [c]);
    assert s == [s[0]] + s[1..];
  }

  /** Gluing text onto the first part glues it onto the front of the join. */
  lemma JoinGlued(x: string, parts: seq<string>, sep: string)
    requires |parts| >= 1
    ensures Join([x + parts[0]] + parts[1..], sep) == x + Join(parts, sep)
  {
    if |parts| > 1 {
      assert parts == [parts[0]] + parts[1..];
      JoinCons(parts[0], parts[1..], sep);
      JoinCons(x + parts[0], parts[1..], sep);
      assert x + parts[0] + sep + Join(parts[1..], sep) == x + (parts[0] + sep + Join(parts[1..], sep));
    } else {
      assert [x + parts[0]] + parts[1..] == [x + parts[0]];
    }
  }

  /** Joining a part in front of at least one more. */
  lemma JoinCons(x: string, rest: seq<string>, sep: string)
    requires |rest| > 0
    ensures Join([x] + rest, sep) == x + sep + Join(rest, sep)
  {
    assert ([x] + rest)[1..] == rest;
  }

  /** A separator-free prefix glues onto the first piece of the rest. */
  lemma SplitPrefixed(a: string, t: string, c: char)
    requires c !in a
    ensures Split(a + t, c) == [a + Split(t, c)[0]] + Split(t, c)[1..]
  {
    SplitWherePrefixed(a, t, x => x == c);
  }

  lemma {:induction false} SplitWherePrefixed(a: string, t: string, isSep: char -> bool)
    requires forall i :: 0 <= i < |a| ==> !isSep(a[i])
    ensures SplitWhere(a + t, isSep) == [a + SplitWhere(t, isSep)[0]] + SplitWhere(t, isSep)[1..]
    decreases |a|
  {
    var tail := SplitWhere(t, isSep);
    if |a| == 0 {
      assert a + t == t && a + tail[0] == tail[0];
      assert tail == [tail[0]] + tail[1..];
    } else {
      var u := a[1..] + t;
      SplitWherePrefixed(a[1..], t, isSep);
      assert (a + t)[0] == a[0] && (a + t)[1..] == u;
      assert [a[0]] + (a[1..] + tail[0]) == a + tail[0];
    }
  }

  /** Splitting a join of separator-free pieces gives the pieces back. */
  lemma {:induction false} SplitOfJoin(parts: seq<string>, c: char)
    requires |parts| >= 1
    requires forall i :: 0 <= i < |parts| ==> c !in parts[i]
    ensures Split(Join(parts, [c]), c) == parts
  {
    if |parts| == 1 {
      SplitPrefixed(parts[0], "", c);
      assert parts[0] + "" == parts[0];
    } else {
      var rest := Join(parts[1..], [c]);
      SplitOfJoin(parts[1..], c);
      assert Join(parts, [c]) == parts[0] + ([c] + rest);
      SplitPrefixed(parts[0], [c] + rest, c);
      assert ([c] + rest)[0] == c;
      assert ([c] + rest)[1..] == rest;
      assert Split([c] + rest, c) == [""] + parts[1..];
      assert parts[0] + "" == parts[0];
      assert parts == [parts[0]] + parts[1..];
    }
  }

  /** The pieces that Rust's `Iterator::filter(|s| !s.is_empty())` keeps. */
  function NonEmptyParts(parts: seq<string>): (kept: seq<string>)
    ensures |kept| <= |parts|
    ensures forall i :: 0 <= i < |kept| ==> kept[i] != "" && kept[i] in parts
  {
    if |parts| == 0 then []
    else if parts[0] == "" then NonEmptyParts(parts[1..])
    else [parts[0]] + NonEmptyParts(parts[1..])
  }

  /** Rust's `str::split_whitespace`: the maximal runs of non-whitespace characters. */
  function Words(s: string): (words: seq<string>)
    ensures forall i :: 0 <= i < |words| ==> |words[i]| > 0
    ensures forall i, j :: 0 <= i < |words| && 0 <= j < |words[i]| ==> !IsWhitespace(words[i][j])
  {
    NonEmptyParts(SplitWhere(s, IsWhitespace))
  }

  /** A separator character ends the pieces of the text before it: the pieces of
      `a + [x] + b` are those of `a` followed by those of `b`. */
  lemma {:induction false} SplitWhereAcross(a: string, x: char, b: string, isSep: char -> bool)
    requires isSep(x)
    ensures SplitWhere(a + [x] + b, isSep) == SplitWhere(a, isSep) + SplitWhere(b, isSep)
    decreases |a|
  {
    if |a| == 0 {
      AcrossEmpty(a, x, b, isSep);
    } else {
      SplitWhereAcross(a[1..], x, b, isSep);
      AcrossCons(a, x, b, isSep);
    }
  }

  lemma AcrossEmpty(a: string, x: char, b: string, isSep: char -> bool)
    requires |a| == 0 && isSep(x)
    ensures SplitWhere(a + [x] + b, isSep) == SplitWhere(a, isSep) + SplitWhere(b, isSep)
  {
    assert a + [x] + b == [x] + b;
    SplitWhereCons(x, b, isSep);
  }

  /** The step of `SplitWhereAcross` for a non-empty `a`, given the claim for its tail. */
  lemma AcrossCons(a: string, x: char, b: string, isSep: char -> bool)
    requires |a| > 0 && isSep(x)
    requires SplitWhere(a[1..] + [x] + b, isSep) == SplitWhere(a[1..], isSep) + SplitWhere(b, isSep)
    ensures SplitWhere(a + [x] + b, isSep) == SplitWhere(a, isSep) + SplitWhere(b, isSep)
  {
    HeadOfAppend(a, x, b);
    SplitWhereHead(a + [x] + b, isSep);
    SplitWhereHead(a, isSep);
    ConsAppend(a[0], isSep(a[0]), SplitWhere(a[1..], isSep), SplitWhere(b, isSep));
  }

  lemma HeadOfAppend(a: string, x: char, b: string)
    requires |a| > 0
    ensures (a + [x] + b)[0] == a[0] && (a + [x] + b)[1..] == a[1..] + [x] + b
  {
  }

  /** `SplitWhere` of a non-empty text, in terms of its first character and the rest. */
  lemma SplitWhereHead(s: string, isSep: char -> bool)
    requires |s| > 0
    ensures SplitWhere(s, isSep) == ConsPiece(s[0], isSep(s[0]), SplitWhere(s[1..], isSep))
  {
  }

  /** The pieces after one more leading character, as `SplitWhere` builds them. */
  function ConsPiece(c: char, sep: bool, rest: seq<string>): seq<string>
    requires |rest| >= 1
  {
    if sep then [""] + rest else [[c] + rest[0]] + rest[1..]
  }

  /** Adding a leading character commutes with appending more pieces. */
  lemma ConsAppend(c: char, sep: bool, front: seq<string>, back: seq<string>)
    requires |front| >= 1
    ensures ConsPiece(c, sep, front + back) == ConsPiece(c, sep, front) + back
  {
    if sep {
      assert [""] + (front + back) == ([""] + front) + back;
    } else {
      GlueFront([c], front, back);
    }
  }

  /** One step of `SplitWhere` on a text given as its first character and the rest. */
  lemma SplitWhereCons(c: char, t: string, isSep: char -> bool)
    ensures SplitWhere([c] + t, isSep) == ConsPiece(c, isSep(c), SplitWhere(t, isSep))
  {
    assert ([c] + t)[0] == c && ([c] + t)[1..] == t;
  }

  /** Gluing text onto the first piece commutes with appending more pieces. */
  lemma GlueFront(g: string, front: seq<string>, back: seq<string>)
    requires |front| >= 1
    ensures [g + (front + back)[0]] + (front + back)[1..] == ([g + front[0]] + front[1..]) + back
  {
    assert (front + back)[0] == front[0];
    assert (front + back)[1..] == front[1..] + back;
  }

  /** A text without separators is a single piece. */
  lemma {:induction false} SplitWhereNone(w: string, isSep: char -> bool)
    requires forall i :: 0 <= i < |w| ==> !isSep(w[i])
    ensures SplitWhere(w, isSep) == [w]
    decreases |w|
  {
    if |w| > 0 {
      SplitWhereNone(w[1..], isSep);
      assert [w[0]] + w[1..] == w;
    }
  }

  lemma {:induction false} NonEmptyPartsAppend(u: seq<string>, v: seq<string>)
    ensures NonEmptyParts(u + v) == NonEmptyParts(u) + NonEmptyParts(v)
  {
    if |u| > 0 {
      assert (u + v)[0] == u[0] && (u + v)[1..] == u[1..] + v;
      NonEmptyPartsAppend(u[1..], v);
    } else {
      assert u + v == v;
    }
  }

  /** Whitespace always separates words: the words of `a`, a whitespace character and `b`
      are the words of `a` followed by the words of `b`. */
  lemma WordsAcrossWhitespace(a: string, x: char, b: string)
    requires IsWhitespace(x)
    ensures Words(a + [x] + b) == Words(a) + Words(b)
  {
    SplitWhereAcross(a, x, b, IsWhitespace);
    NonEmptyPartsAppend(SplitWhere(a, IsWhitespace), SplitWhere(b, IsWhitespace));
  }

  /** A non-empty run without whitespace is one word, never cut. Together with
      `WordsAcrossWhitespace`, the words are exactly the maximal non-whitespace runs. */
  lemma WordsOfRun(w: string)
    requires |w| > 0
    requires forall i :: 0 <= i < |w| ==> !IsWhitespace(w[i])
    ensures Words(w) == [w]
  {
    SplitWhereNone(w, IsWhitespace);
  }

  /** The text with the characters of a class removed. */
  function Without(s: string, p: char -> bool): string
  {
    if |s| == 0 then "" else (if p(s[0]) then "" else [s[0]]) + Without(s[1..], p)
  }

  /** Plain concatenation of pieces. */
  function Concat(parts: seq<string>): string
  {
    if |parts| == 0 then "" else parts[0] + Concat(parts[1..])
  }

  lemma {:induction false} ConcatOfSplitWhere(s: string, p: char -> bool)
    ensures Concat(SplitWhere(s, p)) == Without(s, p)
    decreases |s|
  {
    if |s| > 0 {
      ConcatOfSplitWhere(s[1..], p);
      var rest := SplitWhere(s[1..], p);
      if !p(s[0]) {
        var parts := [[s[0]] + rest[0]] + rest[1..];
        assert parts[1..] == rest[1..];
        assert Concat(rest) == rest[0] + Concat(rest[1..]);
      } else {
        assert ([""] + rest)[1..] == rest;
      }
    }
  }

  lemma {:induction false} ConcatOfNonEmptyParts(parts: seq<string>)
    ensures Concat(NonEmptyParts(parts)) == Concat(parts)
  {
    if |parts| > 0 {
      ConcatOfNonEmptyParts(parts[1..]);
      if parts[0] != "" {
        assert ([parts[0]] + NonEmptyParts(parts[1..]))[1..] == NonEmptyParts(parts[1..]);
      }
    }
  }

  /** The words are exactly the non-whitespace text, in order, cut at whitespace. */
  lemma WordsCoverText(s: string)
    ensures Concat(Words(s)) == Without(s, IsWhitespace)
  {
    ConcatOfNonEmptyParts(SplitWhere(s, IsWhitespace));
    ConcatOfSplitWhere(s, IsWhitespace);
  }

  /** Rust's `str::contains(&str)`: `pat` occurs in `s` at some position. */
  predicate Contains(s: string, pat: string)
  {
    IsPrefix(pat, s) || (|s| > 0 && Contains(s[1..], pat))
  }

  /** `t` begins with `p`. */
  predicate IsPrefix(p: string, t: string) {
    |p| <= |t| && t[..|p|] == p
  }
}
