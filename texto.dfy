/** The few Kotlin string built-ins that the simulator relies on, over `seq<char>`.
    Digits are the ASCII digits '0'..'9' and whitespace is the ASCII whitespace. */
module Texto {
  import opened Opcoes

  const MaxInt: int := 0x7fff_ffff
  const MinInt: int := -0x8000_0000

  predicate IsDigit(c: char) {
    '0' <= c <= '9'
  }

  /** `Char.isWhitespace` on the ASCII range: space, TAB..CR and the four
      information separators U+001C..U+001F. */
  predicate IsWhitespace(c: char) {
    c == ' ' || (9 <= c as int <= 13) || (28 <= c as int <= 31)
  }

  predicate AllDigits(s: string) {
    forall k :: 0 <= k < |s| ==> IsDigit(s[k])
  }

  /** `CharSequence.isBlank`: empty or whitespace only. */
  predicate IsBlank(s: string) {
    forall k :: 0 <= k < |s| ==> IsWhitespace(s[k])
  }

  function TrimStart(s: string): (r: string)
    ensures |r| <= |s| && r == s[|s| - |r|..]
    ensures r == [] || !IsWhitespace(r[0])
    ensures IsBlank(s[..|s| - |r|])
  {
    if s != [] && IsWhitespace(s[0]) then
      var r := TrimStart(s[1..]);
      assert s[..|s| - |r|] == [s[0]] + s[1..][..|s| - 1 - |r|];
      r
    else s
  }

  function TrimEnd(s: string): (r: string)
    ensures |r| <= |s| && r == s[..|r|]
    ensures r == [] || !IsWhitespace(r[|r| - 1])
    ensures IsBlank(s[|r|..])
  {
    if s != [] && IsWhitespace(s[|s| - 1]) then
      var r := TrimEnd(s[..|s| - 1]);
      assert s[..|s| - 1][..|r|] == s[..|r|];
      assert s[|r|..] == s[..|s| - 1][|r|..] + [s[|s| - 1]];
      r
    else s
  }

  /** `String.trim()`: drops leading and trailing whitespace. */
  function Trim(s: string): string {
    TrimEnd(TrimStart(s))
  }

  /** `String.replace(old, new)` on characters. */
  function Replace(s: string, from: char, to: char): (r: string)
    ensures |r| == |s|
    ensures forall k :: 0 <= k < |s| ==> r[k] == if s[k] == from then to else s[k]
  {
    if s == [] then [] else Replace(s[..|s| - 1], from, to) + [if s[|s| - 1] == from then to else s[|s| - 1]]
  }

  /** Replacing a character that does not occur changes nothing. */
  lemma ReplaceAbsent(s: string, from: char, to: char)
    requires from !in s
    ensures Replace(s, from, to) == s
  {
    var r := Replace(s, from, to);
    assert |r| == |s|;
    forall k | 0 <= k < |s|
      ensures r[k] == s[k]
    {
    }
  }

  /** `s.filter { it.isDigit() }`. */
  function FilterDigits(s: string): string {
    if s == [] then []
    else FilterDigits(s[..|s| - 1]) + (if IsDigit(s[|s| - 1]) then [s[|s| - 1]] else [])
  }

  /** `a` is `b` with some characters deleted. */
  predicate IsSubsequence(a: string, b: string)
    decreases |b|
  {
    if b == [] then a == []
    else (a != [] && a[|a| - 1] == b[|b| - 1] && IsSubsequence(a[..|a| - 1], b[..|b| - 1]))
         || IsSubsequence(a, b[..|b| - 1])
  }

  /** Decimal value of a string of digits. */
  function DigitsValue(s: string): (v: nat)
    requires AllDigits(s)
  {
    if s == [] then 0 else DigitsValue(s[..|s| - 1]) * 10 + (s[|s| - 1] as int - '0' as int)
  }

  /** Ten to the power `n`. */
  function Pow10(n: nat): (p: nat)
    ensures 1 <= p
  {
    if n == 0 then 1 else 10 * Pow10(n - 1)
  }

  /** `String.toIntOrNull()` in radix 10: an optional sign, then one or more
      digits, and a value that fits a 32-bit `Int`. */
  function ToIntOrNull(s: string): (r: Option<int>)
    ensures r.Some? ==> MinInt <= r.value <= MaxInt
    ensures r.Some? ==> s != [] && !IsWhitespace(s[0])
    ensures AllDigits(s) && s != [] ==> r == if DigitsValue(s) <= MaxInt then Some(DigitsValue(s)) else None
    ensures |s| > 1 && s[0] == '-' && AllDigits(s[1..]) ==>
              r == if DigitsValue(s[1..]) <= -MinInt then Some(-(DigitsValue(s[1..]) as int)) else None
    ensures |s| > 1 && s[0] == '+' && AllDigits(s[1..]) ==>
              r == if DigitsValue(s[1..]) <= MaxInt then Some(DigitsValue(s[1..])) else None
    ensures r.Some? ==> AllDigits(s) || ((s[0] == '-' || s[0] == '+') && |s| > 1 && AllDigits(s[1..]))
  {
    if s == [] then None
    else if s[0] == '-' || s[0] == '+' then
      if |s| == 1 || !AllDigits(s[1..]) then None
      else
        var v := if s[0] == '-' then -(DigitsValue(s[1..]) as int) else DigitsValue(s[1..]);
        if MinInt <= v <= MaxInt then Some(v) else None
    else if AllDigits(s) then
      if DigitsValue(s) <= MaxInt then Some(DigitsValue(s)) else None
    else None
  }

  lemma {:induction false} FilterDigitsAllDigits(s: string)
    ensures AllDigits(FilterDigits(s))
  {
    if s != [] {
      FilterDigitsAllDigits(s[..|s| - 1]);
    }
  }

  lemma {:induction false} FilterDigitsSubsequence(s: string)
    ensures IsSubsequence(FilterDigits(s), s)
  {
    if s != [] {
      FilterDigitsSubsequence(s[..|s| - 1]);
      var p := FilterDigits(s[..|s| - 1]);
      if IsDigit(s[|s| - 1]) {
        assert (p + [s[|s| - 1]])[..|p|] == p;
      } else {
        assert FilterDigits(s) == p;
      }
    }
  }

  /** The strings `FilterDigits` leaves alone are exactly the all-digit ones;
      in particular it is idempotent. */
  lemma {:induction false} FilterDigitsFixpoint(s: string)
    ensures FilterDigits(s) == s <==> AllDigits(s)
  {
    if s != [] {
      FilterDigitsFixpoint(s[..|s| - 1]);
      FilterDigitsAllDigits(s);
      if AllDigits(s) {
        assert AllDigits(s[..|s| - 1]);
        assert s[..|s| - 1] + [s[|s| - 1]] == s;
      }
    }
  }

  lemma FilterDigitsIdempotent(s: string)
    ensures FilterDigits(FilterDigits(s)) == FilterDigits(s)
  {
    FilterDigitsAllDigits(s);
    FilterDigitsFixpoint(FilterDigits(s));
  }

  /** Filtering a concatenation filters each part. */
  lemma {:induction false} FilterDigitsConcat(a: string, b: string)
    ensures FilterDigits(a + b) == FilterDigits(a) + FilterDigits(b)
  {
    if b == [] {
      assert a + b == a;
    } else {
      var b0 := b[..|b| - 1];
      assert (a + b)[..|a + b| - 1] == a + b0;
      assert (a + b)[|a + b| - 1] == b[|b| - 1];
      FilterDigitsConcat(a, b0);
    }
  }

  /** Every digit is kept as often as it occurs, and nothing else is kept. */
  lemma {:induction false} FilterDigitsCount(s: string)
    ensures forall c :: multiset(FilterDigits(s))[c] == if IsDigit(c) then multiset(s)[c] else 0
  {
    if s != [] {
      var p := s[..|s| - 1];
      FilterDigitsCount(p);
      assert s == p + [s[|s| - 1]];
      assert multiset(s) == multiset(p) + multiset{s[|s| - 1]};
    }
  }

  /** Appending digits shifts the value left by their count. */
  lemma {:induction false} DigitsValueConcat(a: string, b: string)
    requires AllDigits(a) && AllDigits(b)
    ensures AllDigits(a + b)
    ensures DigitsValue(a + b) == DigitsValue(a) * Pow10(|b|) + DigitsValue(b)
  {
    if b == [] {
      assert a + b == a;
    } else {
      var b0 := b[..|b| - 1];
      assert (a + b)[..|a + b| - 1] == a + b0;
      DigitsValueConcat(a, b0);
      PassoDigitos(DigitsValue(a + b), DigitsValue(a + b0), DigitsValue(a), Pow10(|b0|), Pow10(|b|),
                   DigitsValue(b0), DigitsValue(b), b[|b| - 1] as int - '0' as int);
    }
  }

  lemma PassoDigitos(ab: int, ab0: int, x: int, p: int, q: int, y: int, yd: int, d: int)
    requires ab0 == x * p + y && ab == ab0 * 10 + d && yd == y * 10 + d && q == 10 * p
    ensures ab == x * q + yd
  {
  }

  /** A run of `n` digits is below `10^n`. */
  lemma {:induction false} DigitsValueMenor(b: string)
    requires AllDigits(b)
    ensures DigitsValue(b) < Pow10(|b|)
  {
    if b != [] {
      DigitsValueMenor(b[..|b| - 1]);
    }
  }

  /** A string with no whitespace is its own trim. */
  lemma TrimNoWhitespace(s: string)
    requires forall k :: 0 <= k < |s| ==> !IsWhitespace(s[k])
    ensures Trim(s) == s
  {
  }

  /** A string is blank exactly when trimming leaves nothing. */
  lemma BlankIffTrimEmpty(s: string)
    ensures IsBlank(s) <==> Trim(s) == []
  {
    var t := TrimStart(s);
    if Trim(s) == [] {
      assert IsBlank(t[|TrimEnd(t)|..]);
      assert t == [];
      assert s[..|s|] == s;
    } else if t != [] {
      assert t[0] == s[|s| - |t|];
    }
  }
}
