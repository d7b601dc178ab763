/**
 * String helpers shared by the model: Python's `str(int)`, `str.zfill`,
 * ASCII digit strings and their values, and `split(sep)[k]`-style cuts.
 */
module Text {

  predicate IsDigit(c: char) {
    '0' <= c <= '9'
  }

  predicate AllDigits(s: string) {
    forall i :: 0 <= i < |s| ==> IsDigit(s[i])
  }

  function DigitChar(d: nat): (c: char)
    requires d < 10
    ensures IsDigit(c) && c as int - '0' as int == d
  {
    (d + '0' as int) as char
  }

  function DigitValue(c: char): (d: nat)
    requires IsDigit(c)
    ensures d < 10 && DigitChar(d) == c
  {
    c as int - '0' as int
  }

  /** Decimal value of a string of ASCII digits (the empty string is 0). */
  function DigitsValue(s: string): nat
    requires AllDigits(s)
  {
    if s == [] then 0 else DigitsValue(s[..|s| - 1]) * 10 + DigitValue(s[|s| - 1])
  }

  /** `str(n)` for a non-negative n. */
  function NatToString(n: nat): (s: string)
    ensures |s| >= 1 && AllDigits(s)
  {
    if n < 10 then [DigitChar(n)] else NatToString(n / 10) + [DigitChar(n % 10)]
  }

  /** Concatenated digit strings are digit strings. */
  lemma DigitsAppend(a: string, b: string)
    requires AllDigits(a) && AllDigits(b)
    ensures AllDigits(a + b)
  {
    forall i | 0 <= i < |a + b| ensures IsDigit((a + b)[i]) {
      if i < |a| { assert (a + b)[i] == a[i]; } else { assert (a + b)[i] == b[i - |a|]; }
    }
  }

  /** Python's `str(n)` for any int: a minus sign, then the digits of |n|. */
  function IntToString(n: int): (s: string)
    ensures |s| >= 1
    ensures n < 0 <==> s[0] == '-'
    ensures n < 0 ==> AllDigits(s[1..])
    ensures n >= 0 ==> AllDigits(s)
  {
    if n < 0 then "-" + NatToString(-n) else NatToString(n)
  }

  function Zeros(k: nat): (z: string)
    ensures |z| == k
  {
    if k == 0 then [] else Zeros(k - 1) + "0"
  }

  lemma {:induction false} ZerosAreZeros(k: nat)
    ensures forall i :: 0 <= i < k ==> Zeros(k)[i] == '0'
  {
    if k > 0 {
      ZerosAreZeros(k - 1);
      assert forall i :: 0 <= i < k - 1 ==> Zeros(k)[i] == Zeros(k - 1)[i];
    }
  }

  /**
   * Python's `str.zfill(width)`: left-pad with '0' to `width` characters,
   * keeping a leading sign in front of the padding.
   */
  function ZFill(s: string, width: nat): (r: string)
  {
    if |s| >= width then s
    else if |s| > 0 && (s[0] == '+' || s[0] == '-') then [s[0]] + Zeros(width - |s|) + s[1..]
    else Zeros(width - |s|) + s
  }

  /** Value of an optionally minus-signed decimal string. */
  function SignedValue(s: string): int
    requires |s| > 0
    requires s[0] == '-' ==> AllDigits(s[1..])
    requires s[0] != '-' ==> AllDigits(s)
  {
    if s[0] == '-' then 0 - DigitsValue(s[1..]) else DigitsValue(s)
  }

  lemma {:induction false} NatToStringRoundTrip(n: nat)
    ensures DigitsValue(NatToString(n)) == n
  {
    if n >= 10 {
      var s := NatToString(n);
      assert s[..|s| - 1] == NatToString(n / 10);
      NatToStringRoundTrip(n / 10);
    }
  }

  /** `str(n)` has as many characters as n has decimal digits. */
  lemma NatToStringLength(n: nat)
    ensures n < 10 ==> |NatToString(n)| == 1
    ensures 10 <= n < 100 ==> |NatToString(n)| == 2
    ensures 100 <= n < 1000 ==> |NatToString(n)| == 3
    ensures 1000 <= n < 10000 ==> |NatToString(n)| == 4
  {
    if n >= 10 {
      NatToStringLength(n / 10);
    }
  }

  /** Leading zeros do not change a decimal value. */
  lemma {:induction false} LeadingZerosValue(k: nat, s: string)
    requires AllDigits(s)
    ensures AllDigits(Zeros(k) + s)
    ensures DigitsValue(Zeros(k) + s) == DigitsValue(s)
  {
    var t := Zeros(k) + s;
    ZerosAreZeros(k);
    assert AllDigits(t) by {
      forall i | 0 <= i < |t| ensures IsDigit(t[i]) {
        if i < k { assert t[i] == Zeros(k)[i]; } else { assert t[i] == s[i - k]; }
      }
    }
    if s == [] {
      assert t == Zeros(k);
      ZerosValue(k);
    } else {
      var s' := s[..|s| - 1];
      assert t[..|t| - 1] == Zeros(k) + s';
      LeadingZerosValue(k, s');
    }
  }

  lemma {:induction false} ZerosValue(k: nat)
    ensures AllDigits(Zeros(k)) && DigitsValue(Zeros(k)) == 0
  {
    var z := Zeros(k);
    ZerosAreZeros(k);
    assert AllDigits(z);
    if k > 0 {
      assert z == Zeros(k - 1) + "0";
      assert z[..k - 1] == Zeros(k - 1);
      ZerosValue(k - 1);
      assert DigitValue(z[k - 1]) == 0;
    }
  }

  /** zfill never shortens and always reaches the requested width. */
  lemma ZFillLength(s: string, width: nat)
    ensures |ZFill(s, width)| == if |s| >= width then |s| else width
  {
  }

  /**
   * `str(n).zfill(width)` still reads back as n: padding is invisible to the
   * value, so distinct numbers keep distinct padded strings.
   */
  lemma ZFillRoundTrip(n: int, width: nat)
    ensures |ZFill(IntToString(n), width)| > 0
    ensures ZFill(IntToString(n), width)[0] == '-' <==> n < 0
    ensures n < 0 ==> AllDigits(ZFill(IntToString(n), width)[1..])
    ensures n >= 0 ==> AllDigits(ZFill(IntToString(n), width))
    ensures SignedValue(ZFill(IntToString(n), width)) == n
  {
    if n < 0 {
      ZFillNegative(n, width);
    } else {
      ZFillNonNegative(n, width);
    }
  }

  lemma ZFillNegative(n: int, width: nat)
    requires n < 0
    ensures |ZFill(IntToString(n), width)| > 0 && ZFill(IntToString(n), width)[0] == '-'
    ensures AllDigits(ZFill(IntToString(n), width)[1..])
    ensures DigitsValue(ZFill(IntToString(n), width)[1..]) == -n
  {
    ZFillAfterSign(n, width);
    PaddedValue(NegativePad(n, width), -n);
  }

  /** `str(n)` behind any number of zeros still reads back as n. */
  lemma PaddedValue(k: nat, n: nat)
    ensures AllDigits(Zeros(k) + NatToString(n)) && DigitsValue(Zeros(k) + NatToString(n)) == n
  {
    NatToStringRoundTrip(n);
    LeadingZerosValue(k, NatToString(n));
  }

  /** Padding zfill inserts after the sign of a negative number's string. */
  function NegativePad(n: int, width: nat): nat
    requires n < 0
  {
    var d := NatToString(-n);
    if |d| + 1 >= width then 0 else width - |d| - 1
  }

  /** zfill puts its zeros between a minus sign and the digits. */
  lemma ZFillAfterSign(n: int, width: nat)
    requires n < 0
    ensures |ZFill(IntToString(n), width)| > 0 && ZFill(IntToString(n), width)[0] == '-'
    ensures ZFill(IntToString(n), width)[1..] == Zeros(NegativePad(n, width)) + NatToString(-n)
  {
    var d := NatToString(-n);
    var s := IntToString(n);
    assert s == ['-'] + d;
    assert s[1..] == d;
    if |s| >= width {
      assert Zeros(0) + d == d;
    } else {
      var t := Zeros(NegativePad(n, width)) + d;
      assert ZFill(s, width) == ['-'] + t;
      assert (['-'] + t)[1..] == t;
    }
  }

  lemma ZFillNonNegative(n: int, width: nat)
    requires n >= 0
    ensures |ZFill(IntToString(n), width)| > 0 && ZFill(IntToString(n), width)[0] != '-'
    ensures AllDigits(ZFill(IntToString(n), width))
    ensures DigitsValue(ZFill(IntToString(n), width)) == n
  {
    var s := IntToString(n);
    assert s == NatToString(n);
    NatToStringRoundTrip(n);
    if |s| < width {
      assert s[0] != '+' && s[0] != '-';
      var z := Zeros(width - |s|);
      assert ZFill(s, width) == z + s;
      LeadingZerosValue(width - |s|, s);
      ZerosAreZeros(width - |s|);
      assert (z + s)[0] == '0';
    } else {
      assert ZFill(s, width) == s;
    }
  }

  /** str.zfill for the same width is injective on `str(n)`. */
  lemma ZFillInjective(m: int, n: int, width: nat)
    requires ZFill(IntToString(m), width) == ZFill(IntToString(n), width)
    ensures m == n
  {
    ZFillRoundTrip(m, width);
    ZFillRoundTrip(n, width);
  }

  /** `s.split(sep)[0]`: the text before the first `sep` (all of s if none). */
  function Before(s: string, sep: char): (r: string)
    ensures r <= s && sep !in r
    ensures |r| < |s| ==> s[|r|] == sep
  {
    if s == [] then []
    else if s[0] == sep then []
    else [s[0]] + Before(s[1..], sep)
  }

  /** The text after the first `sep`; requires `sep in s`. */
  function After(s: string, sep: char): (r: string)
    requires sep in s
    ensures s == Before(s, sep) + [sep] + r
  {
    if s[0] == sep then s[1..]
    else
      var rest := After(s[1..], sep);
      assert s == [s[0]] + s[1..];
      rest
  }

  /** `s.split(sep)[1]`: the text between the first and the second `sep`. */
  function SplitSecond(s: string, sep: char): (r: string)
    requires sep in s
    ensures sep !in r
  {
    Before(After(s, sep), sep)
  }

  /** Cutting at the first `sep` recovers the pieces it was glued from. */
  lemma {:induction false} CutAtFirst(a: string, sep: char, b: string)
    requires sep !in a
    ensures sep in a + [sep] + b
    ensures Before(a + [sep] + b, sep) == a
    ensures After(a + [sep] + b, sep) == b
  {
    var s := a + [sep] + b;
    assert s[|a|] == sep;
    if a != [] {
      assert s[1..] == a[1..] + [sep] + b;
      CutAtFirst(a[1..], sep, b);
    }
  }

  /** `Before` stops at the end of a string that lacks `sep`. */
  lemma {:induction false} BeforeAbsent(a: string, sep: char, b: string)
    requires sep !in a
    requires b == [] || b[0] == sep
    ensures Before(a + b, sep) == a
  {
    if a != [] {
      assert (a + b)[1..] == a[1..] + b;
      BeforeAbsent(a[1..], sep, b);
    }
  }

  /** Concatenation of `parts` with `sep` between neighbours (Python's `sep.join`). */
  function Join(parts: seq<string>, sep: string): string
  {
    if parts == [] then ""
    else if |parts| == 1 then parts[0]
    else parts[0] + sep + Join(parts[1..], sep)
  }

  /** Joining one more leading part adds it and a separator in front. */
  lemma JoinCons(x: string, rest: seq<string>, sep: string)
    requires rest != []
    ensures Join([x] + rest, sep) == x + sep + Join(rest, sep)
  {
    assert ([x] + rest)[1..] == rest;
  }

  /** Python's `str.lower()` on one character, restricted to ASCII letters. */
  function LowerChar(c: char): char {
    if 'A' <= c <= 'Z' then (c as int + 32) as char else c
  }

  /** Python's `str.lower()` restricted to ASCII letters. */
  function AsciiLower(s: string): (r: string)
    ensures |r| == |s|
  {
    if s == [] then [] else [LowerChar(s[0])] + AsciiLower(s[1..])
  }

  /** Lowering works character by character. */
  lemma {:induction false} AsciiLowerAt(s: string)
    ensures forall i :: 0 <= i < |s| ==> AsciiLower(s)[i] == LowerChar(s[i])
  {
    if s != [] {
      AsciiLowerAt(s[1..]);
      forall i | 0 < i < |s| ensures AsciiLower(s)[i] == LowerChar(s[i]) {
        assert AsciiLower(s)[i] == AsciiLower(s[1..])[i - 1];
      }
    }
  }
}
