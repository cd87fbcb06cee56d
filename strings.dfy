/** Python `str` operations used by the modelled code, on `seq<char>`.
    Case mapping covers ASCII letters only. */
module Strings {

  predicate StartsWith(s: string, prefix: string)
  {
    |prefix| <= |s| && s[..|prefix|] == prefix
  }

  /** `s.endswith(suffix)` */
  predicate EndsWith(s: string, suffix: string)
  {
    |suffix| <= |s| && s[|s| - |suffix|..] == suffix
  }

  /** `t in s` for strings: `t` occurs in `s` as a contiguous piece. */
  predicate Contains(s: string, t: string)
    decreases |s|
  {
    |t| <= |s| && (StartsWith(s, t) || (s != [] && Contains(s[1..], t)))
  }

  function LowerChar(c: char): char
  {
    if 'A' <= c <= 'Z' then (c as int + 32) as char else c
  }

  function UpperChar(c: char): char
  {
    if 'a' <= c <= 'z' then (c as int - 32) as char else c
  }

  /** `s.lower()` */
  function Lower(s: string): string
  {
    seq(|s|, i requires 0 <= i < |s| => LowerChar(s[i]))
  }

  /** `s.upper()` */
  function Upper(s: string): string
  {
    seq(|s|, i requires 0 <= i < |s| => UpperChar(s[i]))
  }

  /** Lower-casing twice is lower-casing once. */
  lemma LowerIdempotent(s: string)
    ensures Lower(Lower(s)) == Lower(s)
  {
    assert forall i :: 0 <= i < |s| ==> LowerChar(LowerChar(s[i])) == LowerChar(s[i]);
  }

  /** `" " * n`, which is empty for a negative `n`. */
  function Spaces(n: int): (r: string)
    ensures |r| == if n < 0 then 0 else n
    ensures forall i :: 0 <= i < |r| ==> r[i] == ' '
  {
    if n <= 0 then "" else Spaces(n - 1) + " "
  }

  // ---------------------------------------------------------------------
  // Decimal rendering of integers: `str(n)` for a Python int.

  function DigitChar(d: nat): char
    requires d < 10
  {
    ('0' as int + d) as char
  }

  predicate IsDigits(s: string)
  {
    forall i :: 0 <= i < |s| ==> '0' <= s[i] <= '9'
  }

  /** The number a string of decimal digits denotes. */
  function DecimalValue(s: string): nat
    requires IsDigits(s)
  {
    if s == [] then 0
    else DecimalValue(s[..|s| - 1]) * 10 + (s[|s| - 1] as int - '0' as int)
  }

  function NatToString(n: nat): (r: string)
    ensures r != [] && IsDigits(r)
  {
    if n < 10 then [DigitChar(n)] else NatToString(n / 10) + [DigitChar(n % 10)]
  }

  /** `str(i)` */
  function IntToString(i: int): string
  {
    if i < 0 then "-" + NatToString(-i) else NatToString(i)
  }

  /** Reading the rendered digits back gives the number: rendering loses nothing. */
  lemma {:induction false} NatToStringRoundTrip(n: nat)
    ensures DecimalValue(NatToString(n)) == n
  {
    var r := NatToString(n);
    if n >= 10 {
      NatToStringRoundTrip(n / 10);
      assert r[..|r| - 1] == NatToString(n / 10);
    }
  }

  /** Different numbers render differently. */
  lemma NatToStringInjective(a: nat, b: nat)
    ensures NatToString(a) == NatToString(b) ==> a == b
  {
    NatToStringRoundTrip(a);
    NatToStringRoundTrip(b);
  }

  // ---------------------------------------------------------------------
  // str.replace, str.lstrip, str.split, str.join

  /** `s.replace(pat, repl, count)`: replaces the first `count` non-overlapping
      occurrences of `pat`, scanning left to right (all of them when `count`
      is negative). An empty `pat` matches before every character and at the end. */
  function Replace(s: string, pat: string, repl: string, count: int): string
    decreases |s|
  {
    if count == 0 then s
    else if pat == [] then
      if s == [] then repl else repl + [s[0]] + Replace(s[1..], pat, repl, count - 1)
    else if |s| < |pat| then s
    else if s[..|pat|] == pat then repl + Replace(s[|pat|..], pat, repl, count - 1)
    else [s[0]] + Replace(s[1..], pat, repl, count)
  }

  /** Every character of the result comes from `s` or from `repl`. */
  lemma {:induction false} ReplaceChars(s: string, pat: string, repl: string, count: int)
    ensures forall c :: c in Replace(s, pat, repl, count) ==> c in s || c in repl
    decreases |s|
  {
    if count == 0 || (pat != [] && |s| < |pat|) {
    } else if pat == [] {
      if s != [] {
        ReplaceChars(s[1..], pat, repl, count - 1);
      }
    } else if s[..|pat|] == pat {
      ReplaceChars(s[|pat|..], pat, repl, count - 1);
    } else {
      ReplaceChars(s[1..], pat, repl, count);
    }
  }

  /** A non-empty `pat` that does not occur leaves the string as it is. */
  lemma {:induction false} ReplaceAbsent(s: string, pat: string, repl: string, count: int)
    requires pat != [] && !Contains(s, pat)
    ensures Replace(s, pat, repl, count) == s
    decreases |s|
  {
    if count != 0 && |s| >= |pat| {
      assert s[..|pat|] != pat;
      ReplaceAbsent(s[1..], pat, repl, count);
    }
  }

  /** `s.lstrip(chars)`: drops the longest prefix made only of characters in `chars`. */
  function LStripChars(s: string, chars: set<char>): (r: string)
    ensures |r| <= |s| && r == s[|s| - |r|..]
    ensures forall i :: 0 <= i < |s| - |r| ==> s[i] in chars
    ensures r == [] || r[0] !in chars
  {
    if s != [] && s[0] in chars then LStripChars(s[1..], chars) else s
  }

  /** Stripping a prefix made only of stripped characters, up to a character
      that is not stripped, leaves exactly the rest. */
  lemma {:induction false} LStripCharsPrefix(p: string, q: string, chars: set<char>)
    requires forall i :: 0 <= i < |p| ==> p[i] in chars
    requires q == [] || q[0] !in chars
    ensures LStripChars(p + q, chars) == q
  {
    if p != [] {
      assert (p + q)[0] == p[0] && (p + q)[1..] == p[1..] + q;
      LStripCharsPrefix(p[1..], q, chars);
    } else {
      assert p + q == q;
    }
  }

  /** `s.split(sep)` for a one-character separator. */
  function SplitOn(s: string, sep: char): (r: seq<string>)
    ensures |r| >= 1
  {
    if s == [] then [""]
    else
      var rest := SplitOn(s[1..], sep);
      if s[0] == sep then [""] + rest else [[s[0]] + rest[0]] + rest[1..]
  }

  /** `s.split(sep)[0]`: the part of `s` before the first `sep`. */
  function BeforeFirst(s: string, sep: char): (r: string)
    ensures StartsWith(s, r) && sep !in r
    ensures r == s || s[|r|] == sep
  {
    SplitHeadIsPrefix(s, sep);
    SplitOn(s, sep)[0]
  }

  lemma {:induction false} SplitHeadIsPrefix(s: string, sep: char)
    ensures var h := SplitOn(s, sep)[0];
      StartsWith(s, h) && sep !in h && (h == s || s[|h|] == sep)
  {
    if s != [] && s[0] != sep {
      var t := SplitOn(s[1..], sep)[0];
      SplitHeadIsPrefix(s[1..], sep);
      var h := [s[0]] + t;
      assert SplitOn(s, sep)[0] == h;
      assert s == [s[0]] + s[1..];
      assert s[..|h|] == h;
    }
  }

  /** `sep.join(xs)` */
  function Join(xs: seq<string>, sep: string): string
  {
    if xs == [] then ""
    else if |xs| == 1 then xs[0]
    else xs[0] + sep + Join(xs[1..], sep)
  }
}
