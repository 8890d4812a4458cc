/** Decimal rendering of integers, as Java's string concatenation `"…" + n`
    renders an `int` (used for the GLSL version and layout locations). */
module Decimal {

  /** The character of a single decimal digit. */
  function DigitChar(d: nat): (c: char)
    requires d < 10
    ensures '0' <= c <= '9'
    ensures c as int - '0' as int == d
  {
    (d + '0' as int) as char
  }

  predicate IsDigit(c: char) {
    '0' <= c <= '9'
  }

  predicate AllDigits(s: string) {
    forall i :: 0 <= i < |s| ==> IsDigit(s[i])
  }

  /** Shortest decimal form of a natural number (no leading zeros). */
  function NatToString(n: nat): (s: string)
    ensures |s| >= 1
    ensures AllDigits(s)
    ensures |s| > 1 ==> s[0] != '0'
    decreases n
  {
    if n < 10 then [DigitChar(n)]
    else NatToString(n / 10) + [DigitChar(n % 10)]
  }

  /** Java's `Integer.toString`: a minus sign before the magnitude of a negative value. */
  function IntToString(n: int): (s: string)
    ensures |s| >= 1
    ensures n < 0 <==> s[0] == '-'
    ensures n >= 0 ==> AllDigits(s)
  {
    if n < 0 then "-" + NatToString(-n) else NatToString(n)
  }

  /** Value of a non-empty digit string, read most significant digit first. */
  function ParseNat(s: string): nat
    requires |s| >= 1 && AllDigits(s)
    decreases |s|
  {
    var last := s[|s| - 1] as int - '0' as int;
    if |s| == 1 then last
    else ParseNat(s[..|s| - 1]) * 10 + last
  }

  /** Inverse of IntToString: an optional minus sign followed by digits. */
  function ParseInt(s: string): (r: int)
    requires |s| >= 1
    requires s[0] == '-' ==> |s| >= 2 && AllDigits(s[1..])
    requires s[0] != '-' ==> AllDigits(s)
  {
    if s[0] == '-' then -(ParseNat(s[1..]) as int) else ParseNat(s)
  }

  /** Reading back the decimal form of a natural number gives the number. */
  lemma {:induction false} NatRoundTrip(n: nat)
    ensures ParseNat(NatToString(n)) == n
    decreases n
  {
    if n >= 10 {
      var a := NatToString(n / 10);
      var s := NatToString(n);
      assert s == a + [DigitChar(n % 10)];
      assert s[..|s| - 1] == a;
      NatRoundTrip(n / 10);
    }
  }

  /** The rendering of every int is readable back, so distinct ints render distinctly. */
  lemma IntRoundTrip(n: int)
    ensures ParseInt(IntToString(n)) == n
  {
    if n < 0 {
      var s := IntToString(n);
      assert s[1..] == NatToString(-n);
      NatRoundTrip(-n);
    } else {
      NatRoundTrip(n);
    }
  }

  /** A rendered int holds nothing but an optional minus sign and digits, so a
      reader can find where the number ends at the first other character. */
  lemma IntToStringChars(n: int)
    ensures forall i :: 0 <= i < |IntToString(n)| ==> IntToString(n)[i] == '-' || IsDigit(IntToString(n)[i])
  {
    var s := IntToString(n);
    if n < 0 {
      var m := NatToString(-n);
      assert s == "-" + m;
      forall i | 1 <= i < |s| ensures IsDigit(s[i]) {
        assert s[i] == m[i - 1];
      }
    }
  }

  /** The longest prefix of `s` that does not contain `stop`: how a reader takes
      one field off the front of a line. */
  function TakeUntil(s: string, stop: char): (p: string)
    ensures p <= s
    ensures forall i :: 0 <= i < |p| ==> p[i] != stop
    ensures |p| < |s| ==> s[|p|] == stop
    decreases |s|
  {
    if |s| == 0 || s[0] == stop then "" else [s[0]] + TakeUntil(s[1..], stop)
  }

  /** A number written in front of a character that is neither a sign nor a
      digit is read back as that number by taking the field up to that character. */
  lemma NumberFieldReadsBack(n: int, stop: char, rest: string)
    requires stop != '-' && !IsDigit(stop)
    ensures TakeUntil(IntToString(n) + [stop] + rest, stop) == IntToString(n)
    ensures ParseInt(IntToString(n)) == n
  {
    var digits := IntToString(n);
    var line := digits + [stop] + rest;
    var field := TakeUntil(line, stop);
    IntToStringChars(n);
    assert forall i :: 0 <= i < |digits| ==> line[i] == digits[i] != stop;
    assert line[|digits|] == stop;
    assert field == line[..|field|] == digits;
    IntRoundTrip(n);
  }

  lemma IntToStringInjective(m: int, n: int)
    ensures IntToString(m) == IntToString(n) ==> m == n
  {
    IntRoundTrip(m);
    IntRoundTrip(n);
  }
}
