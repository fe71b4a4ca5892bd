/** String operations the handlers rely on: JavaScript `trim` and Python
    `strip`, Python `lower`, the substring test `in`, and decimal numerals
    (`Number.prototype.toString`, `padStart`). */
module Text {

  // ---------------------------------------------------------------------------
  // Whitespace and trimming
  // ---------------------------------------------------------------------------

  /** ECMAScript WhiteSpace and LineTerminator code points: what
      `String.prototype.trim` removes. */
  predicate IsJsSpace(c: char) {
    c == '\t' || c == '\n' || c == '\U{000B}' || c == '\U{000C}' || c == '\r' || c == ' '
    || c == '\U{00A0}' || c == '\U{1680}' || ('\U{2000}' <= c <= '\U{200A}')
    || c == '\U{2028}' || c == '\U{2029}' || c == '\U{202F}' || c == '\U{205F}'
    || c == '\U{3000}' || c == '\U{FEFF}'
  }

  /** Python `str.isspace` code points: what `str.strip()` removes. */
  predicate IsPySpace(c: char) {
    ('\t' <= c <= '\r') || ('\U{001C}' <= c <= ' ') || c == '\U{0085}' || c == '\U{00A0}'
    || c == '\U{1680}' || ('\U{2000}' <= c <= '\U{200A}') || c == '\U{2028}'
    || c == '\U{2029}' || c == '\U{202F}' || c == '\U{205F}' || c == '\U{3000}'
  }

  /** Drops the leading characters that satisfy `ws`. */
  function TrimStart(s: string, ws: char -> bool): (r: string)
    ensures |r| <= |s| && r == s[|s| - |r|..]
    ensures r == [] || !ws(r[0])
    ensures forall i :: 0 <= i < |s| - |r| ==> ws(s[i])
  {
    if s != [] && ws(s[0]) then
      var r := TrimStart(s[1..], ws);
      assert s[|s| - |r|..] == s[1..][|s| - 1 - |r|..];
      assert forall i :: 1 <= i < |s| - |r| ==> s[i] == s[1..][i - 1];
      r
    else s
  }

  /** Drops the trailing characters that satisfy `ws`. */
  function TrimEnd(s: string, ws: char -> bool): (r: string)
    ensures |r| <= |s| && r == s[..|r|]
    ensures r == [] || !ws(r[|r| - 1])
    ensures forall i :: |r| <= i < |s| ==> ws(s[i])
  {
    if s != [] && ws(s[|s| - 1]) then TrimEnd(s[..|s| - 1], ws) else s
  }

  /** `r` is the slice of `s` starting at `a`, and everything of `s` before
      and after that slice satisfies `ws`. */
  predicate StripsTo(s: string, ws: char -> bool, a: int, r: string) {
    0 <= a <= |s| - |r| && r == s[a..a + |r|]
    && (forall i :: 0 <= i < a ==> ws(s[i]))
    && (forall i :: a + |r| <= i < |s| ==> ws(s[i]))
  }

  /** `r` is what remains of `s` once whitespace is removed from both ends. */
  ghost predicate StrippedOf(s: string, ws: char -> bool, r: string) {
    exists a :: StripsTo(s, ws, a, r)
  }

  /** `s.trim()` (with `IsJsSpace`) or `s.strip()` (with `IsPySpace`). */
  function Trim(s: string, ws: char -> bool): (r: string)
    ensures StrippedOf(s, ws, r)
    ensures r == [] <==> forall i :: 0 <= i < |s| ==> ws(s[i])
    ensures r != [] ==> !ws(r[0]) && !ws(r[|r| - 1])
  {
    var t := TrimStart(s, ws);
    var u := TrimEnd(t, ws);
    PrefixThenSuffixStrips(s, ws, t, u);
    assert StrippedOf(s, ws, u);
    u
  }

  /** Dropping a whitespace prefix and then a whitespace suffix leaves a
      slice with only whitespace around it. */
  lemma PrefixThenSuffixStrips(s: string, ws: char -> bool, t: string, u: string)
    requires |t| <= |s| && t == s[|s| - |t|..]
    requires forall i :: 0 <= i < |s| - |t| ==> ws(s[i])
    requires |u| <= |t| && u == t[..|u|]
    requires forall i :: |u| <= i < |t| ==> ws(t[i])
    ensures StripsTo(s, ws, |s| - |t|, u)
  {
    var a := |s| - |t|;
    forall i | a + |u| <= i < |s| ensures ws(s[i]) {
      assert s[i] == t[i - a];
    }
  }

  /** The contract of `Trim` fixes its result: a slice with only whitespace
      around it and none at its ends is the trimmed text. */
  lemma TrimIsTheStrippedSlice(s: string, ws: char -> bool, r: string)
    requires StrippedOf(s, ws, r)
    requires r != [] ==> !ws(r[0]) && !ws(r[|r| - 1])
    ensures r == Trim(s, ws)
  {
    var a :| StripsTo(s, ws, a, r);
    var t := Trim(s, ws);
    var b :| StripsTo(s, ws, b, t);
    if r == [] {
      assert forall i :: 0 <= i < |s| ==> ws(s[i]) by {
        forall i | 0 <= i < |s| ensures ws(s[i]) {
          if i >= a { assert a + |r| <= i; }
        }
      }
    } else {
      assert t != [] by { assert !ws(s[a]); }
      assert a == b;
      assert |r| == |t|;
    }
  }

  /** JavaScript truthiness of `s.trim()`, negated: `s` holds only whitespace. */
  predicate IsBlank(s: string) {
    Trim(s, IsJsSpace) == []
  }

  // ---------------------------------------------------------------------------
  // Case and substrings
  // ---------------------------------------------------------------------------

  function LowerChar(c: char): (r: char)
    ensures !('A' <= r <= 'Z')
  {
    if 'A' <= c <= 'Z' then (c as int + 32) as char else c
  }

  /** Python `str.lower()` on ASCII letters. */
  function Lower(s: string): (r: string)
    ensures |r| == |s|
    ensures forall i :: 0 <= i < |s| ==> r[i] == LowerChar(s[i])
  {
    seq(|s|, i requires 0 <= i < |s| => LowerChar(s[i]))
  }

  /** No ASCII capital letter occurs in `s`. */
  predicate NoCapitals(s: string) {
    forall i :: 0 <= i < |s| ==> !('A' <= s[i] <= 'Z')
  }

  /** Trimming only removes characters, so it cannot bring in a capital. */
  lemma TrimKeepsNoCapitals(s: string, ws: char -> bool)
    requires NoCapitals(s)
    ensures NoCapitals(Trim(s, ws))
  {
    var t := TrimStart(s, ws);
    assert t == s[|s| - |t|..];
    assert NoCapitals(t);
    var u := TrimEnd(t, ws);
    assert u == t[..|u|];
    assert NoCapitals(u);
  }

  ghost predicate OccursAt(hay: string, needle: string, i: int) {
    0 <= i && i + |needle| <= |hay| && hay[i..i + |needle|] == needle
  }

  /** Python `needle in hay`. */
  function Contains(hay: string, needle: string): (b: bool)
    ensures b <==> exists i :: OccursAt(hay, needle, i)
    decreases |hay|
  {
    if |needle| > |hay| then false
    else if hay[..|needle|] == needle then
      assert OccursAt(hay, needle, 0);
      true
    else
      var b := Contains(hay[1..], needle);
      assert b ==> exists i :: OccursAt(hay, needle, i) by {
        if b {
          var i :| OccursAt(hay[1..], needle, i);
          assert hay[1..][i..i + |needle|] == hay[i + 1..i + 1 + |needle|];
          assert OccursAt(hay, needle, i + 1);
        }
      }
      assert (exists i :: OccursAt(hay, needle, i)) ==> b by {
        if exists i :: OccursAt(hay, needle, i) {
          var i :| OccursAt(hay, needle, i);
          assert i != 0;
          assert hay[1..][i - 1..i - 1 + |needle|] == hay[i..i + |needle|];
          assert OccursAt(hay[1..], needle, i - 1);
        }
      }
      b
  }

  // ---------------------------------------------------------------------------
  // Decimal numerals
  // ---------------------------------------------------------------------------

  predicate IsDigit(c: char) {
    '0' <= c <= '9'
  }

  predicate AllDigits(s: string) {
    forall i :: 0 <= i < |s| ==> IsDigit(s[i])
  }

  function DigitChar(d: nat): (c: char)
    requires d < 10
    ensures IsDigit(c) && DigitValue(c) == d
  {
    ('0' as int + d) as char
  }

  function DigitValue(c: char): nat
    requires IsDigit(c)
  {
    c as int - '0' as int
  }

  /** `n.toString()` for a non-negative integer: no sign, no leading zero. */
  function DecimalDigits(n: nat): (r: string)
    ensures |r| >= 1 && AllDigits(r)
    ensures |r| == 1 <==> n < 10
    ensures n < 100 ==> |r| <= 2
    ensures |r| > 1 ==> r[0] != '0'
  {
    if n < 10 then [DigitChar(n)] else DecimalDigits(n / 10) + [DigitChar(n % 10)]
  }

  /** The value of a string of decimal digits (leading zeros allowed). */
  function ParseDigits(s: string): nat
    requires AllDigits(s)
  {
    if s == [] then 0 else 10 * ParseDigits(s[..|s| - 1]) + DigitValue(s[|s| - 1])
  }

  /** Reading back a numeral gives the number. */
  lemma {:induction false} ParseDecimalDigits(n: nat)
    ensures ParseDigits(DecimalDigits(n)) == n
  {
    if n >= 10 {
      var r := DecimalDigits(n);
      assert r[..|r| - 1] == DecimalDigits(n / 10);
      ParseDecimalDigits(n / 10);
    }
  }

  /** A leading zero does not change the value of a numeral. */
  lemma {:induction false} ParseLeadingZero(s: string)
    requires AllDigits(s)
    ensures AllDigits(['0'] + s) && ParseDigits(['0'] + s) == ParseDigits(s)
  {
    var z := ['0'] + s;
    if s != [] {
      assert z[..|z| - 1] == ['0'] + s[..|s| - 1];
      ParseLeadingZero(s[..|s| - 1]);
    }
  }

  /** `n` copies of `c`. */
  function Repeat(c: char, n: nat): (r: string)
    ensures |r| == n && forall i :: 0 <= i < n ==> r[i] == c
  {
    if n == 0 then [] else [c] + Repeat(c, n - 1)
  }

  /** `s.padStart(width, fill)`: `fill` in front until `s` is `width` long. */
  function PadStart(s: string, width: nat, fill: char): (r: string)
    ensures |r| == if |s| < width then width else |s|
    ensures r[|r| - |s|..] == s
    ensures forall i :: 0 <= i < |r| - |s| ==> r[i] == fill
  {
    if |s| < width then Repeat(fill, width - |s|) + s else s
  }

  /** Zero-padding keeps a numeral's value. */
  lemma ParsePadded(s: string, width: nat)
    requires AllDigits(s)
    ensures AllDigits(PadStart(s, width, '0'))
    ensures ParseDigits(PadStart(s, width, '0')) == ParseDigits(s)
  {
    if |s| < width {
      ParseZeros(width - |s|, s);
    }
  }

  /** Any number of leading zeros leaves the value alone. */
  lemma {:induction false} ParseZeros(n: nat, s: string)
    requires AllDigits(s)
    ensures AllDigits(Repeat('0', n) + s) && ParseDigits(Repeat('0', n) + s) == ParseDigits(s)
  {
    if n > 0 {
      var z := Repeat('0', n - 1);
      assert Repeat('0', n) + s == ['0'] + (z + s);
      ParseZeros(n - 1, s);
      ParseLeadingZero(z + s);
    } else {
      assert Repeat('0', n) + s == s;
    }
  }
}
