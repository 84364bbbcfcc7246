/**
 Character classes and per-character statistics of a Rust `&str`.
 Dafny's `char` is a Unicode scalar value, the same set as Rust's `char`.
 */
module Chars {

  /** Rust's `char::is_ascii_digit`. */
  predicate IsAsciiDigit(c: char) {
    '0' <= c <= '9'
  }

  predicate IsAsciiLetter(c: char) {
    'a' <= c <= 'z' || 'A' <= c <= 'Z'
  }

  predicate IsAscii(c: char) {
    c as int < 0x80
  }

  /** Rust's `char::is_alphanumeric`, exact on ASCII; every non-ASCII character counts as a symbol. */
  predicate IsAlphanumeric(c: char) {
    IsAsciiDigit(c) || IsAsciiLetter(c)
  }

  /** A character that the `s:` statistic counts. */
  predicate IsSymbol(c: char) {
    !IsAlphanumeric(c)
  }

  /** Rust's `char::is_whitespace`: the Unicode White_Space property. */
  predicate IsWhitespace(c: char) {
    var n := c as int;
    || n == 0x20 || 0x09 <= n <= 0x0D || n == 0x85 || n == 0xA0 || n == 0x1680
    || 0x2000 <= n <= 0x200A || n == 0x2028 || n == 0x2029 || n == 0x202F
    || n == 0x205F || n == 0x3000
  }

  /** Number of bytes of the UTF-8 encoding of `c`. */
  function Utf8Width(c: char): (w: nat)
    ensures 1 <= w <= 4
    ensures w == 1 <==> IsAscii(c)
  {
    var n := c as int;
    if n < 0x80 then 1
    else if n < 0x800 then 2
    else if n < 0x1_0000 then 3
    else 4
  }

  /** Rust's `str::len`: the UTF-8 byte length of `s`. */
  function Utf8Len(s: string): nat
  {
    if |s| == 0 then 0 else Utf8Width(s[0]) + Utf8Len(s[1..])
  }

  /** The byte length is at least the character count, at most four times it,
      and equals it exactly when the text is pure ASCII. */
  lemma {:induction false} Utf8LenBounds(s: string)
    ensures |s| <= Utf8Len(s) <= 4 * |s|
    ensures Utf8Len(s) == |s| <==> forall i :: 0 <= i < |s| ==> IsAscii(s[i])
  {
    if |s| > 0 {
      Utf8LenBounds(s[1..]);
      assert forall i :: 1 <= i < |s| ==> s[i] == s[1..][i - 1];
    }
  }

  /** Rust's `s.chars().filter(p).count()`. */
  function CountWhere(s: string, p: char -> bool): (n: nat)
    ensures n <= |s|
  {
    if |s| == 0 then 0 else (if p(s[0]) then 1 else 0) + CountWhere(s[1..], p)
  }

  /** Two classes that never overlap together count no more characters than the text has. */
  lemma {:induction false} CountDisjoint(s: string, p: char -> bool, q: char -> bool)
    requires forall c :: p(c) ==> !q(c)
    ensures CountWhere(s, p) + CountWhere(s, q) <= |s|
  {
    if |s| > 0 {
      CountDisjoint(s[1..], p, q);
    }
  }

  function DigitCount(s: string): nat {
    CountWhere(s, IsAsciiDigit)
  }

  function SymbolCount(s: string): nat {
    CountWhere(s, IsSymbol)
  }

  /** Digits are alphanumeric, so no character is counted both as a digit and as a symbol. */
  lemma DigitsAndSymbols(s: string)
    ensures DigitCount(s) + SymbolCount(s) <= |s| <= Utf8Len(s)
  {
    CountDisjoint(s, IsAsciiDigit, IsSymbol);
    Utf8LenBounds(s);
  }
}
