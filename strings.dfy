/** The parts of Python's `str` that the filters and the session id use:
    `strip`, `split()[0]`, `split('@')[0]`, `startswith`, `in` and `str(int)`. */
module Strings {

  /** The characters `str.isspace` accepts, which `strip()` and `split()` remove. */
  const Whitespace: set<char> := {
    ' ', '\t', '\n', '\r', '\U{B}', '\U{C}',
    '\U{1C}', '\U{1D}', '\U{1E}', '\U{1F}', '\U{85}', '\U{A0}',
    '\U{1680}', '\U{2000}', '\U{2001}', '\U{2002}', '\U{2003}', '\U{2004}',
    '\U{2005}', '\U{2006}', '\U{2007}', '\U{2008}', '\U{2009}', '\U{200A}',
    '\U{2028}', '\U{2029}', '\U{202F}', '\U{205F}', '\U{3000}'
  }

  predicate IsSpace(c: char) {
    c in Whitespace
  }

  predicate AllSpace(s: string) {
    forall i | 0 <= i < |s| :: IsSpace(s[i])
  }

  predicate NoneIn(s: string, stop: set<char>) {
    forall i | 0 <= i < |s| :: s[i] !in stop
  }

  /** `s.lstrip()`. */
  function LStrip(s: string): (r: string)
    ensures |r| <= |s| && r == s[|s| - |r|..]
    ensures r == [] || !IsSpace(r[0])
    ensures AllSpace(s[..|s| - |r|])
  {
    if |s| > 0 && IsSpace(s[0]) then
      var r := LStrip(s[1..]);
      assert s[..|s| - |r|] == [s[0]] + s[1..][..|s| - 1 - |r|];
      r
    else s
  }

  /** `s.rstrip()`. */
  function RStrip(s: string): (r: string)
    ensures |r| <= |s| && r == s[..|r|]
    ensures r == [] || !IsSpace(r[|r| - 1])
    ensures AllSpace(s[|r|..])
  {
    if |s| > 0 && IsSpace(s[|s| - 1]) then RStrip(s[..|s| - 1]) else s
  }

  /** `s.strip()`. */
  function Strip(s: string): string {
    RStrip(LStrip(s))
  }

  /** The longest prefix of `s` holding no character of `stop`: `s.split(c)[0]`
      for `stop == {c}`, and the first word of `s.split()` when `s` does not
      start with whitespace. */
  function TakeUntil(s: string, stop: set<char>): (r: string)
    ensures r <= s && NoneIn(r, stop)
    ensures |r| < |s| ==> s[|r|] in stop
  {
    if |s| == 0 || s[0] in stop then [] else [s[0]] + TakeUntil(s[1..], stop)
  }

  /** `s.split()[0]` for a string that has a word. */
  function FirstWord(s: string): string {
    TakeUntil(LStrip(s), Whitespace)
  }

  /** `sub` occurs in `s` starting at index `i`. */
  predicate OccursAt(sub: string, s: string, i: nat) {
    i + |sub| <= |s| && s[i..i + |sub|] == sub
  }

  /** Python's `sub in s` on strings. */
  predicate IsSubstring(sub: string, s: string) {
    exists i: nat | i <= |s| :: OccursAt(sub, s, i)
  }

  lemma {:induction false} TakeUntilAppend(p: string, r: string, stop: set<char>)
    requires NoneIn(p, stop)
    ensures TakeUntil(p + r, stop) == p + TakeUntil(r, stop)
  {
    if p != [] {
      assert (p + r)[0] == p[0] && p[0] !in stop;
      assert (p + r)[1..] == p[1..] + r;
      assert TakeUntil(p + r, stop) == [p[0]] + TakeUntil(p[1..] + r, stop);
      TakeUntilAppend(p[1..], r, stop);
      assert [p[0]] + (p[1..] + TakeUntil(r, stop)) == p + TakeUntil(r, stop);
    } else {
      assert p + r == r;
    }
  }

  /** Trailing whitespace does not change the first word of a string. */
  lemma {:induction false} TakeUntilSpaceTail(a: string, t: string)
    requires AllSpace(t)
    ensures TakeUntil(a + t, Whitespace) == TakeUntil(a, Whitespace)
  {
    if a == [] {
      assert a + t == t;
    } else if a[0] !in Whitespace {
      assert (a + t)[1..] == a[1..] + t;
      TakeUntilSpaceTail(a[1..], t);
    }
  }

  lemma {:induction false} LStripSpaces(lead: string, s: string)
    requires AllSpace(lead)
    requires s == [] || !IsSpace(s[0])
    ensures LStrip(lead + s) == s
  {
    if lead == [] {
      assert lead + s == s;
    } else {
      assert (lead + s)[1..] == lead[1..] + s;
      LStripSpaces(lead[1..], s);
    }
  }

  /** `strip()` and `lstrip()` agree on the first character and the first word,
      which is all the command filter looks at. */
  lemma StripFirstWord(s: string)
    ensures |Strip(s)| > 0 <==> |LStrip(s)| > 0
    ensures |Strip(s)| > 0 ==> Strip(s)[0] == LStrip(s)[0]
    ensures TakeUntil(Strip(s), Whitespace) == TakeUntil(LStrip(s), Whitespace)
  {
    var l := LStrip(s);
    var r := RStrip(l);
    assert l == r + l[|r|..];
    TakeUntilSpaceTail(r, l[|r|..]);
  }

  // Decimal rendering of integers, as `str(n)` does it.

  function DigitChar(d: nat): (c: char)
    requires d < 10
    ensures '0' <= c <= '9'
  {
    ['0', '1', '2', '3', '4', '5', '6', '7', '8', '9'][d]
  }

  function DigitValue(c: char): nat
    requires '0' <= c <= '9'
  {
    (c as int - '0' as int) as nat
  }

  predicate AllDigits(s: string) {
    forall i | 0 <= i < |s| :: '0' <= s[i] <= '9'
  }

  /** The decimal digits of `n`, most significant first, without leading zeros. */
  function Digits(n: nat): (s: string)
    ensures |s| > 0 && AllDigits(s)
    decreases n
  {
    if n < 10 then [DigitChar(n)] else Digits(n / 10) + [DigitChar(n % 10)]
  }

  /** `str(i)` for a Python int. */
  function IntToString(i: int): (s: string)
    ensures |s| > 0
  {
    if i < 0 then "-" + Digits(-i) else Digits(i)
  }

  /** The value of a string of decimal digits; the inverse of `Digits`. */
  function DigitsValue(s: string): nat
    requires AllDigits(s)
  {
    if s == [] then 0 else DigitsValue(s[..|s| - 1]) * 10 + DigitValue(s[|s| - 1])
  }

  lemma {:induction false} DigitsRoundTrip(n: nat)
    ensures DigitsValue(Digits(n)) == n
    decreases n
  {
    var s := Digits(n);
    if n >= 10 {
      DigitsRoundTrip(n / 10);
      assert s[..|s| - 1] == Digits(n / 10);
    }
    assert DigitValue(DigitChar(n % 10)) == n % 10;
  }

  lemma DigitsInjective(a: nat, b: nat)
    requires Digits(a) == Digits(b)
    ensures a == b
  {
    DigitsRoundTrip(a);
    DigitsRoundTrip(b);
  }

  /** Distinct integers render differently. */
  lemma IntToStringInjective(a: int, b: int)
    requires IntToString(a) == IntToString(b)
    ensures a == b
  {
    var s := IntToString(a);
    var da := Digits(if a < 0 then -a else a);
    var db := Digits(if b < 0 then -b else b);
    assert '0' <= da[0] <= '9' && '0' <= db[0] <= '9';
    if a < 0 && b < 0 {
      assert da == s[1..] == db;
      DigitsInjective(-a, -b);
    } else if a >= 0 && b >= 0 {
      DigitsInjective(a, b);
    }
  }

  /** A rendered integer never holds a colon. */
  lemma IntToStringNoColon(i: int)
    ensures ':' !in IntToString(i)
  {
    var d := Digits(if i < 0 then -i else i);
    assert forall k | 0 <= k < |d| :: d[k] != ':';
    if i < 0 {
      assert forall k | 0 <= k < |IntToString(i)| :: IntToString(i)[k] != ':' by {
        forall k | 0 <= k < |IntToString(i)| ensures IntToString(i)[k] != ':' {
          if k > 0 { assert IntToString(i)[k] == d[k - 1]; }
        }
      }
    }
  }
}
