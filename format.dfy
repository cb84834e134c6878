/**
 * The two number formats the G-code lines use: Python's `str()` of an
 * integer, and the `:.1f` format of a float. A float is taken as the exact
 * real number it denotes; CPython formats it correctly rounded, ties to even.
 */
module Format {

  predicate IsDigit(c: char) {
    '0' <= c <= '9'
  }

  predicate AllDigits(s: string) {
    forall i :: 0 <= i < |s| ==> IsDigit(s[i])
  }

  function DigitChar(d: nat): (c: char)
    requires d < 10
    ensures IsDigit(c) && c as int - '0' as int == d
  {
    "0123456789"[d]
  }

  function DigitValue(c: char): nat
    requires IsDigit(c)
  {
    c as int - '0' as int
  }

  /** Python's `str(n)` for a non-negative integer. */
  function NatToString(n: nat): (s: string)
    ensures |s| >= 1 && AllDigits(s)
    ensures (s[0] == '0') == (n == 0)
    decreases n
  {
    if n < 10 then [DigitChar(n)] else NatToString(n / 10) + [DigitChar(n % 10)]
  }

  /** The number a string of decimal digits denotes. */
  function DecimalValue(s: string): nat
    requires AllDigits(s)
  {
    if s == [] then 0 else DecimalValue(s[..|s| - 1]) * 10 + DigitValue(s[|s| - 1])
  }

  lemma {:induction false} NatToStringRoundTrip(n: nat)
    ensures DecimalValue(NatToString(n)) == n
    decreases n
  {
    var s := NatToString(n);
    if n >= 10 {
      NatToStringRoundTrip(n / 10);
      assert s[..|s| - 1] == NatToString(n / 10);
    }
  }

  /** Python's `str(i)` for any integer. */
  function IntToString(i: int): (s: string)
    ensures |s| >= 1 && (s[0] == '-' <==> i < 0)
    ensures s[0] == '-' ==> s[1..] == NatToString(-i)
    ensures s[0] != '-' ==> s == NatToString(i)
  {
    if i < 0 then "-" + NatToString(-i) else NatToString(i)
  }

  /** The integer a string of the shape `str(i)` denotes. */
  function SignedValue(s: string): int
    requires |s| >= 1
    requires s[0] == '-' ==> AllDigits(s[1..])
    requires s[0] != '-' ==> AllDigits(s)
  {
    if s[0] == '-' then -(DecimalValue(s[1..]) as int) else DecimalValue(s)
  }

  lemma IntToStringRoundTrip(i: int)
    ensures SignedValue(IntToString(i)) == i
  {
    if i < 0 {
      NatToStringRoundTrip(-i);
    } else {
      NatToStringRoundTrip(i);
    }
  }

  /** Nearest integer to v; an exact tie goes to the even neighbour. */
  function RoundHalfEven(v: real): (r: int)
    ensures -0.5 <= r as real - v <= 0.5
    ensures (r as real - v == 0.5 || v - r as real == 0.5) ==> r % 2 == 0
  {
    var f := v.Floor;
    var d := v - f as real;
    if d < 0.5 then f
    else if d > 0.5 then f + 1
    else if f % 2 == 0 then f
    else f + 1
  }

  /** Any integer within one half of v, taking the even one on a tie, is RoundHalfEven(v). */
  lemma RoundHalfEvenUnique(v: real, k: int)
    requires -0.5 <= k as real - v <= 0.5
    requires (k as real - v == 0.5 || v - k as real == 0.5) ==> k % 2 == 0
    ensures k == RoundHalfEven(v)
  {
  }

  function Abs(v: real): real {
    if v < 0.0 then -v else v
  }

  /** The number of tenths `:.1f` prints for |v|. */
  function Tenths(v: real): (t: nat)
    ensures -0.5 <= t as real - Abs(v) * 10.0 <= 0.5
  {
    var r := RoundHalfEven(Abs(v) * 10.0);
    assert r as real >= -0.5;
    r
  }

  /** Python's `format(v, '.1f')`: sign, integer part, point, one decimal digit. */
  function Fixed1(v: real): (s: string)
  {
    var t := Tenths(v);
    (if v < 0.0 then "-" else "") + NatToString(t / 10) + "." + [DigitChar(t % 10)]
  }

  /** The value a `:.1f` string denotes, in tenths, with its sign. */
  function Fixed1Tenths(s: string): int
    requires |s| >= 3 && s[|s| - 2] == '.' && IsDigit(s[|s| - 1])
    requires s[0] == '-' ==> |s| >= 4 && AllDigits(s[1..|s| - 2])
    requires s[0] != '-' ==> AllDigits(s[..|s| - 2])
  {
    var magnitude :=
      if s[0] == '-' then DecimalValue(s[1..|s| - 2]) * 10 + DigitValue(s[|s| - 1])
      else DecimalValue(s[..|s| - 2]) * 10 + DigitValue(s[|s| - 1]);
    if s[0] == '-' then -magnitude else magnitude
  }

  /**
   * `:.1f` always prints exactly one digit after the point, and the value it
   * prints is within a twentieth of v (half a tenth).
   */
  lemma Fixed1Denotes(v: real)
    ensures var s := Fixed1(v);
      |s| >= 3 && s[|s| - 2] == '.' && IsDigit(s[|s| - 1]) &&
      (s[0] == '-' <==> v < 0.0) &&
      (s[0] == '-' ==> |s| >= 4 && AllDigits(s[1..|s| - 2])) &&
      (s[0] != '-' ==> AllDigits(s[..|s| - 2])) &&
      -0.05 <= Fixed1Tenths(s) as real / 10.0 - v <= 0.05
  {
    var t := Tenths(v);
    var whole := NatToString(t / 10);
    var s := Fixed1(v);
    NatToStringRoundTrip(t / 10);
    assert t == (t / 10) * 10 + t % 10;
    if v < 0.0 {
      assert s == "-" + whole + "." + [DigitChar(t % 10)];
      assert |s| == |whole| + 3;
      assert forall k :: 0 <= k < |whole| ==> s[1..|s| - 2][k] == whole[k];
      assert s[1..|s| - 2] == whole;
      assert Fixed1Tenths(s) == -(t as int);
    } else {
      assert s == whole + "." + [DigitChar(t % 10)];
      assert s[..|s| - 2] == whole;
      assert Fixed1Tenths(s) == t;
    }
  }

  /** A whole number prints with `.0`, as `{safe_height}.0` writes it by hand. */
  lemma WholeNumberFixed1(k: nat)
    ensures Fixed1(k as real) == NatToString(k) + ".0"
  {
    assert RoundHalfEven(k as real * 10.0) == 10 * k by {
      assert (k as real * 10.0).Floor == 10 * k;
    }
    var t := Tenths(k as real);
    assert t == 10 * k;
    assert t / 10 == k && t % 10 == 0;
    assert [DigitChar(t % 10)] == "0";
    var whole := NatToString(k);
    assert Fixed1(k as real) == whole + "." + "0";
    assert whole + "." + "0" == whole + ".0";
  }
}
