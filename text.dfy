/** The string operations the pipeline relies on: ASCII case folding,
    substring search, decimal rendering and parsing of integers, and
    zero padding. */
module Text {
  import opened Wrappers

  predicate IsUpper(c: char)
  {
    'A' <= c <= 'Z'
  }

  predicate IsDigit(c: char)
  {
    '0' <= c <= '9'
  }

  predicate AllDigits(s: string)
  {
    forall i :: 0 <= i < |s| ==> IsDigit(s[i])
  }

  /** The ASCII characters `str.strip()` and `int()` treat as whitespace:
      tab, line feed, vertical tab, form feed, carriage return, the four
      separators 0x1C to 0x1F, and space. */
  predicate IsSpace(c: char)
  {
    c == ' ' || '\t' <= c <= '\r' || '\U{1C}' <= c <= '\U{1F}'
  }

  /** `c.lower()` for one character. */
  function LowerChar(c: char): (r: char)
    ensures !IsUpper(r)
    ensures IsUpper(c) ==> r != c && (r as int) - (c as int) == 32
    ensures !IsUpper(c) ==> r == c
  {
    if IsUpper(c) then (c as int + 32) as char else c
  }

  /** `s.lower()`: every capital moves to its lower-case letter and every
      other character is kept, so no capital is left. */
  function Lower(s: string): (r: string)
    ensures |r| == |s|
    ensures forall i :: 0 <= i < |s| ==> !IsUpper(r[i])
    ensures forall i :: 0 <= i < |s| && !IsUpper(s[i]) ==> r[i] == s[i]
    ensures forall i :: 0 <= i < |s| ==> r[i] == LowerChar(s[i])
  {
    seq(|s|, i requires 0 <= i < |s| => LowerChar(s[i]))
  }

  /** Lower-casing twice is lower-casing once. */
  lemma LowerIdempotent(s: string)
    ensures Lower(Lower(s)) == Lower(s)
  {
  }

  /** `s.replace(a, b)` for single characters `a` and `b`: each `a` becomes
      `b`, every other character is kept, and no `a` is left. */
  function ReplaceChar(s: string, a: char, b: char): (r: string)
    ensures |r| == |s|
    ensures forall i :: 0 <= i < |s| ==> r[i] == (if s[i] == a then b else s[i])
    ensures a != b ==> forall i :: 0 <= i < |s| ==> r[i] != a
  {
    seq(|s|, i requires 0 <= i < |s| => if s[i] == a then b else s[i])
  }

  predicate IsPrefix(p: string, s: string)
  {
    |p| <= |s| && s[..|p|] == p
  }

  /** `t in s`: whether `t` occurs in `s` as a contiguous substring. The empty
      string occurs in every string. */
  predicate Contains(s: string, t: string)
    decreases |s|
  {
    IsPrefix(t, s) || (|s| > 0 && Contains(s[1..], t))
  }

  /** `t` occurs in `s` starting at index `i`. */
  predicate OccursAt(s: string, t: string, i: int)
  {
    0 <= i <= |s| - |t| && s[i..i + |t|] == t
  }

  /** `Contains` finds exactly the substrings that start at some index of `s`. */
  lemma {:induction false} ContainsAt(s: string, t: string)
    ensures Contains(s, t) <==> exists i :: OccursAt(s, t, i)
    decreases |s|
  {
    if IsPrefix(t, s) {
      assert OccursAt(s, t, 0);
    }
    if |s| > 0 {
      ContainsAt(s[1..], t);
      if Contains(s[1..], t) {
        var i :| OccursAt(s[1..], t, i);
        assert s[1..][i..i + |t|] == s[i + 1..i + 1 + |t|];
        assert OccursAt(s, t, i + 1);
      }
      if exists i :: OccursAt(s, t, i) {
        var i :| OccursAt(s, t, i);
        if i > 0 {
          assert s[1..][i - 1..i - 1 + |t|] == s[i..i + |t|];
          assert OccursAt(s[1..], t, i - 1);
        }
      }
    }
  }

  /** `ContainsAt` for every pair of strings at once. */
  lemma ContainsAtEverywhere()
    ensures forall s, t :: Contains(s, t) <==> exists i :: OccursAt(s, t, i)
  {
    forall s, t
      ensures Contains(s, t) <==> exists i :: OccursAt(s, t, i)
    {
      ContainsAt(s, t);
    }
  }

  /** The empty term occurs in every string. */
  lemma ContainsEmpty(s: string)
    ensures Contains(s, "")
  {
    assert IsPrefix("", s);
  }

  function DigitChar(d: nat): (c: char)
    requires d < 10
    ensures IsDigit(c)
  {
    ('0' as int + d) as char
  }

  function DigitValue(c: char): (d: nat)
    requires IsDigit(c)
    ensures d < 10 && DigitChar(d) == c
  {
    (c as int) - ('0' as int)
  }

  /** `str(n)` for a non-negative integer: its decimal digits, most significant
      first, without leading zeros. */
  function NatToString(n: nat): (r: string)
    ensures |r| >= 1 && AllDigits(r)
    ensures |r| > 1 ==> r[0] != '0'
    decreases n
  {
    if n < 10 then [DigitChar(n)] else NatToString(n / 10) + [DigitChar(n % 10)]
  }

  /** The number a string of decimal digits denotes (the empty string denotes 0). */
  function DigitsValue(s: string): nat
    requires AllDigits(s)
  {
    if s == [] then 0 else DigitsValue(s[..|s| - 1]) * 10 + DigitValue(s[|s| - 1])
  }

  /** Reading back the digits of `str(n)` gives `n`. */
  lemma {:induction false} NatToStringValue(n: nat)
    ensures DigitsValue(NatToString(n)) == n
    decreases n
  {
    if n >= 10 {
      NatToStringValue(n / 10);
      var s := NatToString(n);
      assert s[..|s| - 1] == NatToString(n / 10);
    }
  }

  /** `str(n)` is injective. */
  lemma NatToStringInjective(m: nat, n: nat)
    requires NatToString(m) == NatToString(n)
    ensures m == n
  {
    NatToStringValue(m);
    NatToStringValue(n);
  }

  /** Fewer than `10^k` needs at most `k` digits. */
  lemma {:induction false} NatToStringLength(n: nat, k: nat)
    requires n < Pow10(k)
    ensures |NatToString(n)| <= k || (n == 0 && k == 0)
    decreases n
  {
    if n >= 10 {
      assert k > 0;
      NatToStringLength(n / 10, k - 1);
    } else if n > 0 {
      assert k > 0;
    }
  }

  function Pow10(k: nat): (r: nat)
    ensures r >= 1
  {
    if k == 0 then 1 else 10 * Pow10(k - 1)
  }

  /** `str(i)` for any integer: a minus sign before the digits of a negative
      one; the digits read back as the magnitude and have no leading zero. */
  function IntToString(i: int): (r: string)
    ensures |r| >= 1 && (r[0] == '-' <==> i < 0)
    ensures var digits := if i < 0 then r[1..] else r;
      && |digits| >= 1 && AllDigits(digits)
      && DigitsValue(digits) == (if i < 0 then -i else i)
      && (|digits| > 1 ==> digits[0] != '0')
  {
    var magnitude := if i < 0 then -i else i;
    NatToStringValue(magnitude);
    assert IsDigit(NatToString(magnitude)[0]);
    if i < 0 then
      assert ("-" + NatToString(magnitude))[1..] == NatToString(magnitude);
      "-" + NatToString(magnitude)
    else NatToString(i)
  }

  predicate AllSpace(s: string)
  {
    forall i :: 0 <= i < |s| ==> IsSpace(s[i])
  }

  function StripLeft(s: string): (r: string)
    ensures |r| <= |s| && r == s[|s| - |r|..]
    ensures r == [] || !IsSpace(r[0])
  {
    if s != [] && IsSpace(s[0]) then StripLeft(s[1..]) else s
  }

  function StripRight(s: string): (r: string)
    ensures |r| <= |s| && r == s[..|r|]
    ensures r == [] || !IsSpace(r[|r| - 1])
  {
    if s != [] && IsSpace(s[|s| - 1]) then StripRight(s[..|s| - 1]) else s
  }

  /** What `StripLeft` removes is blanks only. */
  lemma {:induction false} StripLeftRemovesSpace(s: string)
    ensures AllSpace(s[..|s| - |StripLeft(s)|])
    decreases |s|
  {
    if s != [] && IsSpace(s[0]) {
      var r := StripLeft(s[1..]);
      StripLeftRemovesSpace(s[1..]);
      assert s[..|s| - |r|] == [s[0]] + s[1..][..|s| - 1 - |r|];
    }
  }

  /** What `StripRight` removes is blanks only. */
  lemma {:induction false} StripRightRemovesSpace(s: string)
    ensures AllSpace(s[|StripRight(s)|..])
    decreases |s|
  {
    if s != [] && IsSpace(s[|s| - 1]) {
      var r := StripRight(s[..|s| - 1]);
      StripRightRemovesSpace(s[..|s| - 1]);
      assert s[|r|..] == s[..|s| - 1][|r|..] + [s[|s| - 1]];
    }
  }

  /** `s.strip()`: the result has no blank at either end, and it is empty
      exactly when `s` is all blanks. */
  function Strip(s: string): (r: string)
    ensures |r| <= |s|
    ensures r == [] || (!IsSpace(r[0]) && !IsSpace(r[|r| - 1]))
    ensures r == [] <==> AllSpace(s)
  {
    var t := StripLeft(s);
    var r := StripRight(t);
    StripLeftRemovesSpace(s);
    StripRightRemovesSpace(t);
    assert r != [] ==> r[0] == t[0];
    assert t == [] ==> s == s[..|s| - |t|];
    assert t != [] ==> !AllSpace(s) by {
      if t != [] {
        assert s[|s| - |t|] == t[0];
      }
    }
    assert r == [] ==> t == t[|r|..];
    r
  }

  /** A string with no surrounding whitespace is left alone by `strip`. */
  lemma StripUnspaced(s: string)
    requires s == [] || (!IsSpace(s[0]) && !IsSpace(s[|s| - 1]))
    ensures Strip(s) == s
  {
  }

  predicate HasDigit(s: string)
  {
    exists i :: 0 <= i < |s| && IsDigit(s[i])
  }

  /** `int(s)` for a string: surrounding whitespace, an optional sign and at
      least one decimal digit; anything else is a `ValueError` (`None`). So a
      string without a digit never parses. */
  function ParseInt(s: string): (r: Option<int>)
    ensures r.Some? ==> HasDigit(s)
  {
    StripKeepsDigit(s);
    ParseLiteral(Strip(s))
  }

  /** A digit of the stripped string is a digit of the string. */
  lemma StripKeepsDigit(s: string)
    ensures HasDigit(Strip(s)) ==> HasDigit(s)
  {
    var t := StripLeft(s);
    var u := StripRight(t);
    if HasDigit(u) {
      var i :| 0 <= i < |u| && IsDigit(u[i]);
      assert u[i] == t[i] == s[|s| - |t| + i];
    }
  }

  /** A literal without its leading sign, if it has one. */
  function Unsigned(t: string): string
  {
    if |t| > 0 && (t[0] == '+' || t[0] == '-') then t[1..] else t
  }

  /** `int` of a text whose stripped form is digits `d`, `+d` or `-d` gives
      the value of `d`, with the sign. */
  lemma ParseIntValue(s: string, d: string)
    requires |d| > 0 && AllDigits(d)
    ensures Strip(s) == d ==> ParseInt(s) == Some(DigitsValue(d))
    ensures Strip(s) == "+" + d ==> ParseInt(s) == Some(DigitsValue(d))
    ensures Strip(s) == "-" + d ==> ParseInt(s) == Some(-(DigitsValue(d) as int))
  {
    var t := Strip(s);
    assert ParseInt(s) == ParseLiteral(t);
    if t == d {
      DigitsLiteral(d);
    } else if t == "+" + d {
      SignedLiteral('+', d);
    } else if t == "-" + d {
      SignedLiteral('-', d);
    }
  }

  /** Digits alone are a literal of their value. */
  lemma DigitsLiteral(d: string)
    requires |d| > 0 && AllDigits(d)
    ensures ParseLiteral(d) == Some(DigitsValue(d))
  {
    assert IsDigit(d[0]);
  }

  /** A sign and digits are a literal of the signed value. */
  lemma SignedLiteral(sign: char, d: string)
    requires sign == '+' || sign == '-'
    requires |d| > 0 && AllDigits(d)
    ensures ParseLiteral([sign] + d) == Some(if sign == '-' then -(DigitsValue(d) as int) else DigitsValue(d))
  {
    assert ([sign] + d)[1..] == d;
  }

  /** Conversely, `int` succeeds only on a text whose stripped form is
      digits, with at most one sign in front. */
  lemma ParseIntShape(s: string)
    ensures ParseInt(s).Some? ==>
      var t := Strip(s);
      var d := Unsigned(t);
      && |d| > 0 && AllDigits(d)
      && (t == d || t == "+" + d || t == "-" + d)
  {
    var t := Strip(s);
    if ParseInt(s).Some? && |t| > 0 && (t[0] == '+' || t[0] == '-') {
      assert t == [t[0]] + t[1..];
    }
  }

  /** An optional sign followed by at least one decimal digit. */
  function ParseLiteral(t: string): (r: Option<int>)
    ensures r.Some? ==> HasDigit(t)
  {
    if |t| > 0 && (t[0] == '-' || t[0] == '+') then
      var d := t[1..];
      if |d| > 0 && AllDigits(d) then
        assert IsDigit(t[1]);
        var v: int := DigitsValue(d);
        Some(if t[0] == '-' then -v else v)
      else None
    else if |t| > 0 && AllDigits(t) then Some(DigitsValue(t))
    else None
  }

  /** `int(str(i)) == i`. */
  lemma ParseIntToString(i: int)
    ensures ParseInt(IntToString(i)) == Some(i)
  {
    IntToStringUnspaced(i);
    IntToStringLiteral(i);
  }

  /** `str(i)` has no surrounding whitespace. */
  lemma IntToStringUnspaced(i: int)
    ensures Strip(IntToString(i)) == IntToString(i)
  {
    var d := NatToString(if i < 0 then -i else i);
    assert IsDigit(d[0]) && IsDigit(d[|d| - 1]);
    var s := IntToString(i);
    assert s[|s| - 1] == d[|d| - 1];
    StripUnspaced(s);
  }

  /** `str(i)` is an integer literal denoting `i`. */
  lemma IntToStringLiteral(i: int)
    ensures ParseLiteral(IntToString(i)) == Some(i)
  {
    if i < 0 {
      NegativeLiteral(-i);
    } else {
      NaturalLiteral(i);
    }
  }

  lemma NaturalLiteral(n: nat)
    ensures ParseLiteral(NatToString(n)) == Some(n)
  {
    var d := NatToString(n);
    assert IsDigit(d[0]);
    NatToStringValue(n);
  }

  lemma NegativeLiteral(n: nat)
    ensures ParseLiteral("-" + NatToString(n)) == Some(-(n as int))
  {
    var d := NatToString(n);
    var s := "-" + d;
    assert s[0] == '-' && s[1..] == d;
    NatToStringValue(n);
  }

  /** A string of `n` zeros. */
  function Zeros(n: nat): (r: string)
    ensures |r| == n && AllDigits(r)
    ensures forall i :: 0 <= i < n ==> r[i] == '0'
  {
    seq(n, _ => '0')
  }

  /** `s.zfill(width)`: zeros on the left up to `width` characters, after a
      leading sign if there is one; a string already that wide is unchanged. */
  function ZFill(s: string, width: nat): (r: string)
    ensures |r| == if |s| >= width then |s| else width
    ensures |s| >= width ==> r == s
    ensures |s| < width && (s == [] || (s[0] != '+' && s[0] != '-')) ==> r == Zeros(width - |s|) + s
    ensures |s| < width && s != [] && (s[0] == '+' || s[0] == '-') ==> r == [s[0]] + Zeros(width - |s|) + s[1..]
  {
    if |s| >= width then s
    else if s != [] && (s[0] == '+' || s[0] == '-') then [s[0]] + Zeros(width - |s|) + s[1..]
    else Zeros(width - |s|) + s
  }

  /** Leading zeros do not change the value of a digit string. */
  lemma {:induction false} LeadingZerosValue(n: nat, s: string)
    requires AllDigits(s)
    ensures AllDigits(Zeros(n) + s) && DigitsValue(Zeros(n) + s) == DigitsValue(s)
    decreases |s|
  {
    var z := Zeros(n) + s;
    if s == [] {
      assert z == Zeros(n);
      ZerosValue(n);
    } else {
      LeadingZerosValue(n, s[..|s| - 1]);
      assert z[..|z| - 1] == Zeros(n) + s[..|s| - 1];
    }
  }

  lemma {:induction false} ZerosValue(n: nat)
    ensures DigitsValue(Zeros(n)) == 0
  {
    if n > 0 {
      ZerosValue(n - 1);
      assert Zeros(n)[..n - 1] == Zeros(n - 1);
    }
  }

  /** Zero padding of a digit string keeps its value. */
  lemma ZFillValue(s: string, width: nat)
    requires AllDigits(s)
    ensures AllDigits(ZFill(s, width)) && DigitsValue(ZFill(s, width)) == DigitsValue(s)
  {
    if |s| < width {
      LeadingZerosValue(width - |s|, s);
    }
  }
}
