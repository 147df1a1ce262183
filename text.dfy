/**
 * String helpers shared by the Python and JavaScript parts of the model:
 * lower-casing, substring tests, JavaScript `String.prototype.trim`,
 * Python `str.split()` without arguments, and decimal rendering of naturals.
 * Case mapping covers ASCII letters only.
 */
module Text {

  function LowerChar(c: char): char
  {
    if 'A' <= c <= 'Z' then (c as int + 32) as char else c
  }

  /** ASCII lower-casing (JavaScript `toLowerCase`, Python `str.lower`). */
  function Lower(s: string): (r: string)
    ensures |r| == |s|
    ensures forall i :: 0 <= i < |s| ==> r[i] == LowerChar(s[i])
  {
    seq(|s|, i requires 0 <= i < |s| => LowerChar(s[i]))
  }

  /** `sub in s` for strings: `sub` occurs somewhere in `s`, so it is no longer than `s`. */
  predicate Contains(s: string, sub: string)
    ensures Contains(s, sub) ==> |sub| <= |s|
    decreases |s|
  {
    sub <= s || (|s| > 0 && Contains(s[1..], sub))
  }

  /** The characters JavaScript's `trim` removes: WhiteSpace (including every Zs character) and LineTerminator. */
  predicate JsSpace(c: char)
  {
    c == '\t' || c == '\n' || c == '\U{000B}' || c == '\U{000C}' || c == '\r' || c == ' '
    || c == '\U{00A0}' || c == '\U{1680}' || ('\U{2000}' <= c <= '\U{200A}')
    || c == '\U{2028}' || c == '\U{2029}' || c == '\U{202F}' || c == '\U{205F}'
    || c == '\U{3000}' || c == '\U{FEFF}'
  }

  /** The characters for which Python's `str.isspace` holds, i.e. the separators of `str.split()`. */
  predicate PySpace(c: char)
  {
    ('\t' <= c <= '\r') || ('\U{001C}' <= c <= ' ') || c == '\U{0085}' || c == '\U{00A0}'
    || c == '\U{1680}' || ('\U{2000}' <= c <= '\U{200A}') || c == '\U{2028}' || c == '\U{2029}'
    || c == '\U{202F}' || c == '\U{205F}' || c == '\U{3000}'
  }

  /** How many whitespace characters open `s`. */
  function LeadingSpaces(s: string): (n: nat)
    ensures n <= |s|
    ensures n < |s| ==> !JsSpace(s[n])
    decreases |s|
  {
    if s != [] && JsSpace(s[0]) then 1 + LeadingSpaces(s[1..]) else 0
  }

  /** The characters `LeadingSpaces` counts are whitespace. */
  lemma {:induction false} LeadingSpacesAreSpaces(s: string)
    ensures forall i :: 0 <= i < LeadingSpaces(s) ==> JsSpace(s[i])
    decreases |s|
  {
    if s != [] && JsSpace(s[0]) {
      LeadingSpacesAreSpaces(s[1..]);
      assert forall i :: 1 <= i < |s| ==> s[1..][i - 1] == s[i];
    }
  }

  /** How many whitespace characters close `s`. */
  function TrailingSpaces(s: string): (n: nat)
    ensures n <= |s|
    ensures n < |s| ==> !JsSpace(s[|s| - 1 - n])
    decreases |s|
  {
    if s != [] && JsSpace(s[|s| - 1]) then 1 + TrailingSpaces(s[..|s| - 1]) else 0
  }

  /** The characters `TrailingSpaces` counts are whitespace. */
  lemma {:induction false} TrailingSpacesAreSpaces(s: string)
    ensures forall i :: |s| - TrailingSpaces(s) <= i < |s| ==> JsSpace(s[i])
    decreases |s|
  {
    if s != [] && JsSpace(s[|s| - 1]) {
      TrailingSpacesAreSpaces(s[..|s| - 1]);
      assert forall i :: 0 <= i < |s| - 1 ==> s[..|s| - 1][i] == s[i];
    }
  }

  function TrimStart(s: string): string
  {
    s[LeadingSpaces(s)..]
  }

  function TrimEnd(s: string): string
  {
    s[..|s| - TrailingSpaces(s)]
  }

  /** JavaScript `s.trim()`: never longer than its input, and unchanged on a text without whitespace at either end. */
  function Trim(s: string): (r: string)
    ensures |r| <= |s|
    ensures s == [] || (!JsSpace(s[0]) && !JsSpace(s[|s| - 1])) ==> r == s
  {
    TrimEnd(TrimStart(s))
  }

  /** `trim` yields the piece of the input left between its leading and trailing whitespace. */
  lemma TrimIsInfix(s: string)
    ensures var i := LeadingSpaces(s); i + |Trim(s)| <= |s| && Trim(s) == s[i..i + |Trim(s)|]
  {
    var i := LeadingSpaces(s);
    var t := s[i..];
    var k := |t| - TrailingSpaces(t);
    assert Trim(s) == t[..k];
    assert t[..k] == s[i..i + k];
  }

  /** A non-empty `trim` result starts and ends with a non-space. */
  lemma TrimEnds(s: string)
    ensures Trim(s) != [] ==> !JsSpace(Trim(s)[0]) && !JsSpace(Trim(s)[|Trim(s)| - 1])
  {
    var i := LeadingSpaces(s);
    var t := s[i..];
    var b := TrailingSpaces(t);
    var r := t[..|t| - b];
    assert Trim(s) == r;
    if r != [] {
      assert r[0] == s[i];
      assert r[|r| - 1] == t[|t| - 1 - b];
    }
  }

  /** `s.trim()` is empty exactly when `s` is made of whitespace only. */
  lemma TrimEmptyIff(s: string)
    ensures Trim(s) == [] <==> forall i :: 0 <= i < |s| ==> JsSpace(s[i])
  {
    var a := LeadingSpaces(s);
    var t := s[a..];
    var b := TrailingSpaces(t);
    assert Trim(s) == t[..|t| - b];
    assert Trim(s) == [] <==> b == |t|;
    LeadingSpacesAreSpaces(s);
    TrailingSpacesAreSpaces(t);
    if b == |t| && a < |s| {
      assert false;
    }
  }

  /** `s` with leading Python whitespace removed. */
  function SkipSpace(s: string): (r: string)
    ensures |r| <= |s| && r == s[|s| - |r|..]
    ensures r != [] ==> !PySpace(r[0])
    decreases |s|
  {
    if s != [] && PySpace(s[0]) then SkipSpace(s[1..]) else s
  }

  /** The length of the run of non-whitespace characters at the start of `s`. */
  function TokenLength(s: string): (n: nat)
    ensures n <= |s|
    ensures forall i :: 0 <= i < n ==> !PySpace(s[i])
    ensures n < |s| ==> PySpace(s[n])
    decreases |s|
  {
    if s == [] || PySpace(s[0]) then 0 else 1 + TokenLength(s[1..])
  }

  /** Python `s.split()`: the maximal runs of non-whitespace characters, in order. */
  function Split(s: string): seq<string>
    decreases |s|
  {
    var t := SkipSpace(s);
    if t == [] then [] else
      var n := TokenLength(t);
      [t[..n]] + Split(t[n..])
  }

  /** Every token of `split()` is non-empty and free of whitespace. */
  lemma {:induction false} SplitTokens(s: string)
    ensures forall k :: 0 <= k < |Split(s)| ==> Split(s)[k] != []
    ensures forall k, i :: 0 <= k < |Split(s)| && 0 <= i < |Split(s)[k]| ==> !PySpace(Split(s)[k][i])
    decreases |s|
  {
    var t := SkipSpace(s);
    if t != [] {
      var n := TokenLength(t);
      var rest := Split(t[n..]);
      SplitTokens(t[n..]);
      assert Split(s) == [t[..n]] + rest;
      forall k | 0 <= k < |Split(s)|
        ensures Split(s)[k] != [] && forall i :: 0 <= i < |Split(s)[k]| ==> !PySpace(Split(s)[k][i])
      {
        if k > 0 {
          assert Split(s)[k] == rest[k - 1];
        }
      }
    }
  }

  /** Tokens are non-empty and disjoint, so `split()` yields no more tokens than characters. */
  lemma {:induction false} SplitCount(s: string)
    ensures |Split(s)| <= |s|
    decreases |s|
  {
    var t := SkipSpace(s);
    if t != [] {
      var n := TokenLength(t);
      assert n >= 1 by {
        assert !PySpace(t[0]);
      }
      SplitCount(t[n..]);
      assert |Split(s)| == 1 + |Split(t[n..])|;
    }
  }

  function DigitChar(d: nat): char
    requires d < 10
  {
    ('0' as int + d) as char
  }

  /** The decimal rendering of `n` (Python `str(n)`, JavaScript template interpolation). */
  function NatToString(n: nat): (r: string)
    ensures r != []
    ensures forall i :: 0 <= i < |r| ==> '0' <= r[i] <= '9'
    ensures n < 10 ==> |r| == 1
  {
    if n < 10 then [DigitChar(n)] else NatToString(n / 10) + [DigitChar(n % 10)]
  }

  predicate IsDigit(c: char)
  {
    '0' <= c <= '9'
  }

  /** Every character is an ASCII digit (Python `str.isdigit` on a non-empty ASCII string). */
  predicate AllDigits(s: string)
  {
    s == [] || (AllDigits(s[..|s| - 1]) && IsDigit(s[|s| - 1]))
  }

  /** A run of characters is all digits exactly when every character is one. */
  lemma {:induction false} AllDigitsIff(s: string)
    ensures AllDigits(s) <==> forall i :: 0 <= i < |s| ==> IsDigit(s[i])
  {
    if s != [] {
      var front := s[..|s| - 1];
      AllDigitsIff(front);
      assert forall i :: 0 <= i < |front| ==> front[i] == s[i];
    }
  }

  /** Two runs of digits join into one, and a run of digits splits into two. */
  lemma AllDigitsAppend(a: string, b: string)
    ensures AllDigits(a + b) <==> AllDigits(a) && AllDigits(b)
  {
    AllDigitsIff(a);
    AllDigitsIff(b);
    AllDigitsIff(a + b);
    if AllDigits(a + b) {
      assert forall i :: 0 <= i < |a| ==> a[i] == (a + b)[i];
      assert forall i :: 0 <= i < |b| ==> b[i] == (a + b)[|a| + i];
    }
  }

  /** The natural number a run of decimal digits denotes; 0 for the empty run. */
  function DigitsValue(s: string): nat
    requires AllDigits(s)
  {
    if s == [] then 0 else DigitsValue(s[..|s| - 1]) * 10 + (s[|s| - 1] as int - '0' as int)
  }

  function Pow10(n: nat): (p: nat)
    ensures p >= 1
  {
    if n == 0 then 1 else 10 * Pow10(n - 1)
  }

  /** Digits written after other digits shift them by one decimal place each. */
  lemma {:induction false} DigitsValueAppend(a: string, b: string)
    requires AllDigits(a) && AllDigits(b)
    ensures AllDigits(a + b) && DigitsValue(a + b) == DigitsValue(a) * Pow10(|b|) + DigitsValue(b)
  {
    AllDigitsAppend(a, b);
    if b == [] {
      assert a + b == a;
    } else {
      var front := b[..|b| - 1];
      var d := b[|b| - 1] as int - '0' as int;
      assert (a + b)[..|a + b| - 1] == a + front;
      assert (a + b)[|a + b| - 1] == b[|b| - 1];
      DigitsValueAppend(a, front);
      assert DigitsValue(a + b) == DigitsValue(a + front) * 10 + d;
      assert DigitsValue(b) == DigitsValue(front) * 10 + d;
      ShiftDigit(DigitsValue(a), Pow10(|front|), DigitsValue(front), d);
    }
  }

  lemma ShiftDigit(x: int, p: int, y: int, d: int)
    ensures (x * p + y) * 10 + d == x * (10 * p) + (y * 10 + d)
  {
  }

  /** Reading back the decimal rendering of a natural gives the natural. */
  lemma {:induction false} NatToStringRoundTrip(n: nat)
    ensures AllDigits(NatToString(n)) && DigitsValue(NatToString(n)) == n
  {
    if n >= 10 {
      NatToStringRoundTrip(n / 10);
      var s := NatToString(n);
      assert s[..|s| - 1] == NatToString(n / 10);
    }
  }
}
