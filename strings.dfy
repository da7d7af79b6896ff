/** The handful of Python string operations the modelled code relies on:
    `str.strip()`, `str.lower()`, `in`, `find`, `rfind`, `count`, slicing and
    `str(int)`. */
module Strings {

  /** Python's `str.isspace()` for one character (the characters that
      `str.strip()` with no argument removes). */
  predicate IsSpace(c: char) {
    c == ' ' || ('\t' <= c <= '\r') || ('\U{1c}' <= c <= '\U{1f}')
    || c == '\U{85}' || c == '\U{a0}' || c == '\U{1680}'
    || ('\U{2000}' <= c <= '\U{200a}') || c == '\U{2028}' || c == '\U{2029}'
    || c == '\U{202f}' || c == '\U{205f}' || c == '\U{3000}'
  }

  /** `\d` in a pattern applied to a `str`: a character of Unicode general
      category Nd (decimal digit), as in the Unicode 15.0 tables of Python
      3.12. The category is 64 runs of code points, every one ten long but
      the mathematical digits at U+1D7CE-U+1D7FF. */
  predicate IsDecimalDigit(c: char)
    ensures '0' <= c <= '9' ==> IsDecimalDigit(c)
    ensures IsDecimalDigit(c) ==> !IsSpace(c)
  {
    ('0' <= c <= '9') || ('\U{660}' <= c <= '\U{669}') || ('\U{6f0}' <= c <= '\U{6f9}')
    || ('\U{7c0}' <= c <= '\U{7c9}') || ('\U{966}' <= c <= '\U{96f}')
    || ('\U{9e6}' <= c <= '\U{9ef}') || ('\U{a66}' <= c <= '\U{a6f}')
    || ('\U{ae6}' <= c <= '\U{aef}') || ('\U{b66}' <= c <= '\U{b6f}')
    || ('\U{be6}' <= c <= '\U{bef}') || ('\U{c66}' <= c <= '\U{c6f}')
    || ('\U{ce6}' <= c <= '\U{cef}') || ('\U{d66}' <= c <= '\U{d6f}')
    || ('\U{de6}' <= c <= '\U{def}') || ('\U{e50}' <= c <= '\U{e59}')
    || ('\U{ed0}' <= c <= '\U{ed9}') || ('\U{f20}' <= c <= '\U{f29}')
    || ('\U{1040}' <= c <= '\U{1049}') || ('\U{1090}' <= c <= '\U{1099}')
    || ('\U{17e0}' <= c <= '\U{17e9}') || ('\U{1810}' <= c <= '\U{1819}')
    || ('\U{1946}' <= c <= '\U{194f}') || ('\U{19d0}' <= c <= '\U{19d9}')
    || ('\U{1a80}' <= c <= '\U{1a89}') || ('\U{1a90}' <= c <= '\U{1a99}')
    || ('\U{1b50}' <= c <= '\U{1b59}') || ('\U{1bb0}' <= c <= '\U{1bb9}')
    || ('\U{1c40}' <= c <= '\U{1c49}') || ('\U{1c50}' <= c <= '\U{1c59}')
    || ('\U{a620}' <= c <= '\U{a629}') || ('\U{a8d0}' <= c <= '\U{a8d9}')
    || ('\U{a900}' <= c <= '\U{a909}') || ('\U{a9d0}' <= c <= '\U{a9d9}')
    || ('\U{a9f0}' <= c <= '\U{a9f9}') || ('\U{aa50}' <= c <= '\U{aa59}')
    || ('\U{abf0}' <= c <= '\U{abf9}') || ('\U{ff10}' <= c <= '\U{ff19}')
    || ('\U{104a0}' <= c <= '\U{104a9}') || ('\U{10d30}' <= c <= '\U{10d39}')
    || ('\U{11066}' <= c <= '\U{1106f}') || ('\U{110f0}' <= c <= '\U{110f9}')
    || ('\U{11136}' <= c <= '\U{1113f}') || ('\U{111d0}' <= c <= '\U{111d9}')
    || ('\U{112f0}' <= c <= '\U{112f9}') || ('\U{11450}' <= c <= '\U{11459}')
    || ('\U{114d0}' <= c <= '\U{114d9}') || ('\U{11650}' <= c <= '\U{11659}')
    || ('\U{116c0}' <= c <= '\U{116c9}') || ('\U{11730}' <= c <= '\U{11739}')
    || ('\U{118e0}' <= c <= '\U{118e9}') || ('\U{11950}' <= c <= '\U{11959}')
    || ('\U{11c50}' <= c <= '\U{11c59}') || ('\U{11d50}' <= c <= '\U{11d59}')
    || ('\U{11da0}' <= c <= '\U{11da9}') || ('\U{11f50}' <= c <= '\U{11f59}')
    || ('\U{16a60}' <= c <= '\U{16a69}') || ('\U{16ac0}' <= c <= '\U{16ac9}')
    || ('\U{16b50}' <= c <= '\U{16b59}') || ('\U{1d7ce}' <= c <= '\U{1d7ff}')
    || ('\U{1e140}' <= c <= '\U{1e149}') || ('\U{1e2f0}' <= c <= '\U{1e2f9}')
    || ('\U{1e4f0}' <= c <= '\U{1e4f9}') || ('\U{1e950}' <= c <= '\U{1e959}')
    || ('\U{1fbf0}' <= c <= '\U{1fbf9}')
  }

  /** `s.lstrip()`: drops the longest whitespace prefix. */
  function TrimLeft(s: string): (r: string)
    ensures |r| <= |s|
    decreases |s|
  {
    if s != [] && IsSpace(s[0]) then TrimLeft(s[1..]) else s
  }

  lemma {:induction false} TrimLeftFacts(s: string)
    ensures var r := TrimLeft(s);
      && r == s[|s| - |r|..]
      && (forall k | 0 <= k < |s| - |r| :: IsSpace(s[k]))
      && (r == [] || !IsSpace(r[0]))
    decreases |s|
  {
    if s != [] && IsSpace(s[0]) {
      TrimLeftFacts(s[1..]);
      var r := TrimLeft(s);
      forall k | 0 <= k < |s| - |r|
        ensures IsSpace(s[k])
      {
        if k > 0 {
          assert s[k] == s[1..][k - 1];
        }
      }
    }
  }

  /** `s.rstrip()`: drops the longest whitespace suffix. */
  function TrimRight(s: string): (r: string)
    ensures |r| <= |s|
    decreases |s|
  {
    if s != [] && IsSpace(s[|s| - 1]) then TrimRight(s[..|s| - 1]) else s
  }

  lemma {:induction false} TrimRightFacts(s: string)
    ensures var r := TrimRight(s);
      && r == s[..|r|]
      && (forall k | |r| <= k < |s| :: IsSpace(s[k]))
      && (r == [] || !IsSpace(r[|r| - 1]))
    decreases |s|
  {
    if s != [] && IsSpace(s[|s| - 1]) {
      TrimRightFacts(s[..|s| - 1]);
    }
  }

  /** `s.strip()` */
  function Strip(s: string): string {
    TrimRight(TrimLeft(s))
  }

  /** A string that starts and ends with a non-space character is its own strip. */
  lemma StripNoEdgeSpace(s: string)
    requires s != [] && !IsSpace(s[0]) && !IsSpace(s[|s| - 1])
    ensures Strip(s) == s
  {
    TrimLeftFacts(s);
    TrimRightFacts(s);
  }

  lemma StripIdempotent(s: string)
    ensures Strip(Strip(s)) == Strip(s)
  {
    var t := Strip(s);
    StripTrimmed(s);
    if t != [] {
      StripNoEdgeSpace(t);
    }
  }

  /** A non-empty string with no whitespace at either end: what
      `str.strip()` leaves of a non-blank string. */
  predicate Trimmed(s: string) {
    s != [] && !IsSpace(s[0]) && !IsSpace(s[|s| - 1])
  }

  /** What a non-blank string strips to is trimmed, and trimmed strings
      strip to themselves. */
  lemma StripTrimmed(s: string)
    ensures Strip(s) != [] ==> Trimmed(Strip(s))
    ensures Trimmed(s) ==> Strip(s) == s
  {
    var t := Strip(s);
    if t != [] {
      var u := TrimLeft(s);
      TrimLeftFacts(s);
      TrimRightFacts(u);
      assert t == u[..|t|];
      assert t[0] == u[0];
    }
    if Trimmed(s) {
      StripNoEdgeSpace(s);
    }
  }

  /** A string strips to "" exactly when every character is whitespace. */
  lemma StripEmptyIff(s: string)
    ensures Strip(s) == [] <==> forall k | 0 <= k < |s| :: IsSpace(s[k])
  {
    var u := TrimLeft(s);
    TrimLeftFacts(s);
    TrimRightFacts(u);
  }

  /** Two adjacent occurrences make an occurrence of the concatenation. */
  lemma OccursThen(s: string, a: string, b: string, i: int)
    requires OccursAt(s, a, i) && OccursAt(s, b, i + |a|)
    ensures OccursAt(s, a + b, i)
  {
    assert s[i..i + |a| + |b|] == s[i..i + |a|] + s[i + |a|..i + |a| + |b|];
  }

  /** A non-space character survives the strip, shifted left by the
      leading spaces removed. */
  lemma StripKeepsNonSpace(s: string, k: int)
    requires 0 <= k < |s| && !IsSpace(s[k])
    ensures var off := |s| - |TrimLeft(s)|;
      off <= k < off + |Strip(s)| && Strip(s)[k - off] == s[k]
  {
    var l := TrimLeft(s);
    var off := |s| - |l|;
    TrimLeftFacts(s);
    TrimRightFacts(l);
    assert l[k - off] == s[k];
  }

  /** Every character of the strip is a character of the original. */
  lemma StripWithin(s: string, j: int)
    requires 0 <= j < |Strip(s)|
    ensures var off := |s| - |TrimLeft(s)|;
      off + j < |s| && Strip(s)[j] == s[off + j]
  {
    var l := TrimLeft(s);
    TrimLeftFacts(s);
    TrimRightFacts(l);
    assert Strip(s)[j] == l[j];
  }

  /** Does `s` contain `t` as a contiguous substring (Python `t in s`)? */
  predicate Contains(s: string, t: string) {
    exists i | 0 <= i <= |s| - |t| :: OccursAt(s, t, i)
  }

  predicate OccursAt(s: string, t: string, i: int) {
    0 <= i <= |s| - |t| && s[i..i + |t|] == t
  }

  lemma ContainsPrefix(t: string, rest: string)
    ensures Contains(t + rest, t)
  {
    assert OccursAt(t + rest, t, 0);
  }

  lemma ContainsChar(s: string, i: nat)
    requires i < |s|
    ensures Contains(s, [s[i]])
  {
    assert OccursAt(s, [s[i]], i);
  }

  /** `s.lower()` restricted to ASCII letters. */
  function LowerChar(c: char): char {
    if 'A' <= c <= 'Z' then (c as int + 32) as char else c
  }

  function Lower(s: string): (r: string)
    ensures |r| == |s| && forall k | 0 <= k < |s| :: r[k] == LowerChar(s[k])
  {
    seq(|s|, k requires 0 <= k < |s| => LowerChar(s[k]))
  }

  /** `s.find(c)`: the first index of `c`, or -1. */
  function Find(s: string, c: char): (r: int)
    ensures -1 <= r < |s|
    ensures r == -1 <==> c !in s
    ensures r >= 0 ==> s[r] == c && c !in s[..r]
  {
    if s == [] then -1
    else if s[0] == c then 0
    else
      var k := Find(s[1..], c);
      if k == -1 then -1 else k + 1
  }

  /** `s.rfind(c)`: the last index of `c`, or -1. */
  function RFind(s: string, c: char): (r: int)
    ensures -1 <= r < |s|
    ensures r == -1 <==> c !in s
    ensures r >= 0 ==> s[r] == c && c !in s[r + 1..]
    decreases |s|
  {
    if s == [] then -1
    else if s[|s| - 1] == c then assert s[|s|..] == []; |s| - 1
    else
      var init := s[..|s| - 1];
      var r := RFind(init, c);
      assert s == init + [s[|s| - 1]];
      assert r >= 0 ==> s[r + 1..] == init[r + 1..] + [s[|s| - 1]];
      r
  }

  /** `s.count(c)` for a one-character needle. */
  function CountChar(s: string, c: char): nat
    decreases |s|
  {
    if s == [] then 0 else CountChar(s[..|s| - 1], c) + (if s[|s| - 1] == c then 1 else 0)
  }

  lemma CountCharAppend(s: string, t: string, c: char)
    ensures CountChar(s + t, c) == CountChar(s, c) + CountChar(t, c)
    decreases |t|
  {
    if t == [] {
      assert s + t == s;
    } else {
      assert (s + t)[..|s + t| - 1] == s + t[..|t| - 1];
      CountCharAppend(s, t[..|t| - 1], c);
    }
  }

  /** `s[:n]` for a non-negative `n`. */
  function Take(s: string, n: nat): (r: string)
    ensures |r| == if n < |s| then n else |s|
    ensures r == s[..|r|]
  {
    if n < |s| then s[..n] else s
  }

  function DigitChar(d: nat): (c: char)
    requires d < 10
    ensures '0' <= c <= '9' && c as int - '0' as int == d
  {
    "0123456789"[d]
  }

  /** The number a string of decimal digits denotes. */
  function DecimalValue(s: string): nat
    requires forall i | 0 <= i < |s| :: '0' <= s[i] <= '9'
  {
    if s == [] then 0 else DecimalValue(s[..|s| - 1]) * 10 + (s[|s| - 1] as int - '0' as int)
  }

  /** `str(n)` for a non-negative int: decimal digits without a leading
      zero, denoting `n`. */
  function NatToString(n: nat): (r: string)
    ensures r != []
    ensures forall i | 0 <= i < |r| :: '0' <= r[i] <= '9'
    ensures r[0] == '0' ==> r == "0"
    ensures DecimalValue(r) == n
  {
    if n < 10 then [DigitChar(n)] else NatToString(n / 10) + [DigitChar(n % 10)]
  }

  /** `str(n)` for a Python int. */
  function IntToString(n: int): string {
    if n < 0 then "-" + NatToString(-n) else NatToString(n)
  }
}
