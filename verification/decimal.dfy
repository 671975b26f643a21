/**
 * Decimal integers as Go writes and reads them: `%d` formatting and
 * strconv.ParseInt(s, 10, 64) (which strconv.Atoi matches on 64-bit targets).
 */
module Decimal {

  const MaxInt64: int := 0x7fff_ffff_ffff_ffff
  const MinInt64: int := -0x8000_0000_0000_0000
  const MaxUint64: int := 0xffff_ffff_ffff_ffff

  predicate IsDigit(c: char) {
    '0' <= c <= '9'
  }

  predicate AllDigits(s: string) {
    forall i | 0 <= i < |s| :: IsDigit(s[i])
  }

  function DigitValue(c: char): (d: nat)
    requires IsDigit(c)
    ensures d < 10
  {
    c as int - '0' as int
  }

  function DigitChar(d: nat): (c: char)
    requires d < 10
    ensures IsDigit(c) && DigitValue(c) == d
  {
    ('0' as int + d) as char
  }

  /** The number written by `acc`'s digits followed by the digits of `s`. */
  function Accumulate(acc: nat, s: string): nat
    requires AllDigits(s)
    decreases |s|
  {
    if |s| == 0 then acc else Accumulate(acc * 10 + DigitValue(s[0]), s[1..])
  }

  /** The value of a non-empty run of digits. */
  function DigitsValue(s: string): nat
    requires AllDigits(s)
  {
    Accumulate(0, s)
  }

  lemma {:induction false} AccumulateGrows(acc: nat, s: string)
    requires AllDigits(s)
    ensures Accumulate(acc, s) >= acc
    decreases |s|
  {
    if |s| > 0 {
      AccumulateGrows(acc * 10 + DigitValue(s[0]), s[1..]);
    }
  }

  lemma {:induction false} AccumulateAppend(acc: nat, a: string, b: string)
    requires AllDigits(a) && AllDigits(b)
    ensures AllDigits(a + b)
    ensures Accumulate(acc, a + b) == Accumulate(Accumulate(acc, a), b)
    decreases |a|
  {
    if |a| == 0 {
      assert a + b == b;
    } else {
      assert (a + b)[1..] == a[1..] + b;
      AccumulateAppend(acc * 10 + DigitValue(a[0]), a[1..], b);
    }
  }

  /** `%d` of a natural number: digits only, and no leading zero unless the number is 0. */
  function NatToString(n: nat): (r: string)
    ensures |r| > 0 && AllDigits(r)
    ensures r[0] == '0' ==> n == 0 && |r| == 1
    decreases n
  {
    if n < 10 then [DigitChar(n)] else NatToString(n / 10) + [DigitChar(n % 10)]
  }

  /** Reading back the digits of a natural number gives the number. */
  lemma {:induction false} NatToStringValue(n: nat)
    ensures DigitsValue(NatToString(n)) == n
    decreases n
  {
    if n >= 10 {
      NatToStringValue(n / 10);
      var d := [DigitChar(n % 10)];
      AccumulateAppend(0, NatToString(n / 10), d);
      assert Accumulate(n / 10, d) == Accumulate((n / 10) * 10 + n % 10, d[1..]);
    }
  }

  /** `%d` of any integer: a minus sign exactly for negative numbers, then the digits of the magnitude. */
  function IntToString(i: int): (r: string)
    ensures |r| > 0
    ensures r[0] == '-' <==> i < 0
    ensures i < 0 ==> r[1..] == NatToString(-i)
    ensures i >= 0 ==> r == NatToString(i)
  {
    if i < 0 then "-" + NatToString(-i) else NatToString(i)
  }

  /** Outcome of strconv.ParseUint's digit loop. */
  datatype UintScan = UintOk(value: nat) | UintSyntax | UintRange

  /**
   * The digit loop of strconv.ParseUint(s, 10, 64) continuing from `acc`: a
   * non-digit is a syntax error, and the scan stops with a range error as soon
   * as the value read so far exceeds the uint64 maximum.
   */
  function ScanUint(acc: nat, s: string): UintScan
    requires acc <= MaxUint64
    decreases |s|
  {
    if |s| == 0 then UintOk(acc)
    else if !IsDigit(s[0]) then UintSyntax
    else
      var n := acc * 10 + DigitValue(s[0]);
      if n > MaxUint64 then UintRange else ScanUint(n, s[1..])
  }

  /** strconv.ParseUint(s, 10, 64): the empty string is a syntax error. */
  function ParseUint(s: string): UintScan {
    if |s| == 0 then UintSyntax else ScanUint(0, s)
  }

  /** On a run of digits the scan overflows exactly when the full value does. */
  lemma {:induction false} ScanUintDigits(acc: nat, s: string)
    requires acc <= MaxUint64 && AllDigits(s)
    ensures ScanUint(acc, s) == if Accumulate(acc, s) <= MaxUint64 then UintOk(Accumulate(acc, s)) else UintRange
    decreases |s|
  {
    if |s| > 0 {
      var n := acc * 10 + DigitValue(s[0]);
      AccumulateGrows(n, s[1..]);
      if n <= MaxUint64 {
        ScanUintDigits(n, s[1..]);
      }
    }
  }

  /** A successful scan read digits only. */
  lemma {:induction false} ScanUintOkDigits(acc: nat, s: string)
    requires acc <= MaxUint64
    requires ScanUint(acc, s).UintOk?
    ensures AllDigits(s)
    decreases |s|
  {
    if |s| > 0 {
      ScanUintOkDigits(acc * 10 + DigitValue(s[0]), s[1..]);
    }
  }

  /** The result of strconv.ParseInt(s, 10, 64); a range error still carries the clamped value Go returns. */
  datatype IntParse = Parsed(value: int) | SyntaxError | RangeError(clamped: int)

  /** The digits after an optional leading sign. */
  function Unsigned(s: string): string {
    if |s| > 0 && (s[0] == '+' || s[0] == '-') then s[1..] else s
  }

  predicate IsNegative(s: string) {
    |s| > 0 && s[0] == '-'
  }

  /**
   * strconv.ParseInt(s, 10, 64). A result is always in the int64 range, and a
   * range error clamps towards the sign of the input.
   */
  function ParseInt(s: string): (r: IntParse)
    ensures r.Parsed? ==> MinInt64 <= r.value <= MaxInt64
    ensures r.RangeError? ==> r.clamped == (if IsNegative(s) then MinInt64 else MaxInt64)
    ensures |s| == 0 ==> r == SyntaxError
  {
    if |s| == 0 then SyntaxError
    else
      var neg := IsNegative(s);
      match ParseUint(Unsigned(s))
      case UintSyntax => SyntaxError
      case UintRange => if neg then RangeError(MinInt64) else RangeError(MaxInt64)
      case UintOk(u) =>
        if !neg && u > MaxInt64 then RangeError(MaxInt64)
        else if neg && u > MaxInt64 + 1 then RangeError(MinInt64)
        else Parsed(if neg then -(u as int) else u)
  }

  /** An optional sign followed by at least one digit. */
  predicate IsDecimal(s: string) {
    |Unsigned(s)| > 0 && AllDigits(Unsigned(s))
  }

  /** The value a decimal string denotes, with its sign. */
  function SignedValue(s: string): int
    requires IsDecimal(s)
  {
    if IsNegative(s) then -(DigitsValue(Unsigned(s)) as int) else DigitsValue(Unsigned(s))
  }

  /**
   * ParseInt succeeds exactly on a signed decimal whose value fits in int64,
   * and then yields that value.
   */
  lemma ParseIntAccepts(s: string)
    ensures ParseInt(s).Parsed? <==> IsDecimal(s) && MinInt64 <= SignedValue(s) <= MaxInt64
    ensures ParseInt(s).Parsed? ==> ParseInt(s).value == SignedValue(s)
  {
    var d := Unsigned(s);
    if |s| > 0 && |d| > 0 {
      if ParseUint(d).UintOk? {
        ScanUintOkDigits(0, d);
      }
      if AllDigits(d) {
        ScanUintDigits(0, d);
      }
    }
  }

  /** Go prints an int64 so that ParseInt reads the same value back. */
  lemma ParseIntRoundTrip(n: int)
    requires MinInt64 <= n <= MaxInt64
    ensures ParseInt(IntToString(n)) == Parsed(n)
  {
    var s := IntToString(n);
    var m := if n < 0 then -n else n;
    NatToStringValue(m);
    assert Unsigned(s) == NatToString(m);
    ParseIntAccepts(s);
  }
}
