/**
 * The two pieces of .NET numeric behaviour the box relies on: unchecked
 * 32-bit integer arithmetic (GetHashCode) and Math.Round(value, digits)
 * with its default midpoint rule, round-half-to-even (Objetosc, Pole).
 */
module Numeric {

  const TwoTo32: int := 0x1_0000_0000

  /** The C# int. */
  type Int32 = x: int | -0x8000_0000 <= x < 0x8000_0000

  /** Unchecked C# int arithmetic: the exact value modulo 2^32, read back as
      a signed 32-bit integer. */
  function WrapInt32(x: int): (r: Int32)
    ensures (x - r) % TwoTo32 == 0
  {
    var m := x % TwoTo32;
    if m >= 0x8000_0000 then m - TwoTo32 else m
  }

  /** Wrapping depends only on the value modulo 2^32. */
  lemma WrapCongruent(x: int, y: int)
    requires (x - y) % TwoTo32 == 0
    ensures WrapInt32(x) == WrapInt32(y)
  {
    var q := (x - y) / TwoTo32;
    assert x == y + TwoTo32 * q;
    ModOfMultipleAdded(y, q);
  }

  lemma ModOfMultipleAdded(y: int, q: int)
    ensures (y + TwoTo32 * q) % TwoTo32 == y % TwoTo32
  {
  }

  /** A value already in range is left alone. */
  lemma WrapInt32OfInt32(x: Int32)
    ensures WrapInt32(x) == x
  {
  }

  /** Wrapping after every step of `h * k + y` is the same as wrapping once at
      the end: unchecked arithmetic is arithmetic modulo 2^32. */
  lemma WrapMulAdd(x: int, k: int, y: int)
    ensures WrapInt32(WrapInt32(x) * k + y) == WrapInt32(x * k + y)
  {
    var w := WrapInt32(x);
    var t := (x - w) / TwoTo32;
    assert x - w == TwoTo32 * t;
    assert (x * k + y) - (w * k + y) == (x - w) * k;
    assert (x - w) * k == TwoTo32 * (t * k);
    WrapCongruent(x * k + y, w * k + y);
  }

  // ---------------------------------------------------------------------
  // Math.Round

  /** The runtime's table of powers of ten for Math.Round(value, digits). */
  const RoundPower10: seq<real> := [
    1.0, 10.0, 100.0, 1_000.0, 10_000.0, 100_000.0, 1_000_000.0, 10_000_000.0,
    100_000_000.0, 1_000_000_000.0, 10_000_000_000.0, 100_000_000_000.0,
    1_000_000_000_000.0, 10_000_000_000_000.0, 100_000_000_000_000.0,
    1_000_000_000_000_000.0]

  lemma RoundPower10Positive(digits: nat)
    requires digits <= MaxRoundingDigits
    ensures RoundPower10[digits] >= 1.0
  {
  }

  /** Math.Round scales only values of magnitude below this limit. */
  const RoundLimit: real := 10_000_000_000_000_000.0

  /** The largest `digits` Math.Round accepts. */
  const MaxRoundingDigits: nat := 15

  /** Math.Round(double): the nearest integer, a tie going to the even one. */
  function RoundHalfEven(y: real): (r: int)
    ensures y - 0.5 <= r as real <= y + 0.5
    ensures y - y.Floor as real == 0.5 ==> r % 2 == 0
  {
    var f := y.Floor;
    var d := y - f as real;
    if d < 0.5 then f
    else if d > 0.5 then f + 1
    else if f % 2 == 0 then f
    else f + 1
  }

  /** An integer is its own rounding. */
  lemma RoundHalfEvenOfInteger(n: int)
    ensures RoundHalfEven(n as real) == n
  {
  }

  /** Rounding is monotone. */
  lemma RoundHalfEvenMonotone(y1: real, y2: real)
    requires y1 <= y2
    ensures RoundHalfEven(y1) <= RoundHalfEven(y2)
  {
    var f1, f2 := y1.Floor, y2.Floor;
    if f1 == f2 {
    } else {
      assert f1 < f2;
    }
  }

  /** Scale by p, round half-to-even, scale back. */
  function ScaledRound(x: real, p: real): real
    requires p > 0.0
  {
    RoundHalfEven(x * p) as real / p
  }

  /** Math.Round(value, digits), digits <= 15: below the 1e16 limit the
      value is scaled by 10^digits, rounded half-to-even and scaled back, which
      moves it by at most half a unit of the last kept digit; at or above the
      limit the value is returned unchanged. */
  function Round(x: real, digits: nat): (r: real)
    requires digits <= MaxRoundingDigits
    ensures -RoundLimit < x < RoundLimit ==>
      x - 0.5 / RoundPower10[digits] <= r <= x + 0.5 / RoundPower10[digits]
    ensures !(-RoundLimit < x < RoundLimit) ==> r == x
  {
    RoundPower10Positive(digits);
    ScaledRoundError(x, RoundPower10[digits]);
    if -RoundLimit < x < RoundLimit then ScaledRound(x, RoundPower10[digits]) else x
  }

  /** Below the limit, Math.Round(x, digits) keeps at most `digits`
      decimals: it is a whole number of units of 10^-digits. */
  lemma RoundHasDigits(x: real, digits: nat) returns (n: int)
    requires digits <= MaxRoundingDigits && -RoundLimit < x < RoundLimit
    ensures Round(x, digits) == n as real / RoundPower10[digits]
  {
    RoundPower10Positive(digits);
    n := RoundHalfEven(x * RoundPower10[digits]);
  }

  /** x has at most `digits` decimals: x * 10^digits is a whole number. */
  predicate HasDecimals(x: real, digits: nat)
    requires digits <= MaxRoundingDigits
  {
    (x * RoundPower10[digits]).Floor as real == x * RoundPower10[digits]
  }

  /** Below the limit, Math.Round(x, digits) has at most `digits` decimals. */
  lemma RoundKeepsDecimals(x: real, digits: nat)
    requires digits <= MaxRoundingDigits && -RoundLimit < x < RoundLimit
    ensures HasDecimals(Round(x, digits), digits)
  {
    var n := RoundHasDigits(x, digits);
    RoundPower10Positive(digits);
    WholeUnits(n, RoundPower10[digits]);
  }

  /** n units of 1 / p, scaled back by p, are the whole number n. */
  lemma WholeUnits(n: int, p: real)
    requires p > 0.0
    ensures (n as real / p * p).Floor as real == n as real / p * p
  {
    assert n as real / p * p == n as real;
  }

  /** Scaled rounding moves a value by at most half a unit of 1 / p. */
  lemma ScaledRoundError(x: real, p: real)
    requires p > 0.0
    ensures x - 0.5 / p <= ScaledRound(x, p) <= x + 0.5 / p
  {
    var y := x * p;
    var n := RoundHalfEven(y) as real;
    DivideBounds(y - 0.5, n, y + 0.5, p);
    ScaleBack(x, p, -0.5);
    ScaleBack(x, p, 0.5);
  }

  lemma DivideBounds(lo: real, v: real, hi: real, p: real)
    requires p > 0.0 && lo <= v <= hi
    ensures lo / p <= v / p <= hi / p
  {
    assert lo / p * p == lo && v / p * p == v && hi / p * p == hi;
  }

  lemma ScaleBack(x: real, p: real, e: real)
    requires p > 0.0
    ensures (x * p + e) / p == x + e / p
  {
  }

  /** A value with at most `digits` decimals is unchanged by Math.Round. */
  lemma RoundOfExact(x: real, digits: nat, n: int)
    requires digits <= MaxRoundingDigits
    requires -RoundLimit < x < RoundLimit
    requires x * RoundPower10[digits] == n as real
    ensures Round(x, digits) == x
  {
    RoundPower10Positive(digits);
    RoundHalfEvenOfInteger(n);
    ScaleBack(x, RoundPower10[digits], 0.0);
  }

  /** Math.Round keeps a value between two bounds that have at most `digits`
      decimals. */
  lemma RoundBetween(x: real, digits: nat, lo: int, hi: int)
    requires digits <= MaxRoundingDigits
    requires -RoundLimit < x < RoundLimit
    requires lo as real <= x * RoundPower10[digits] <= hi as real
    ensures lo as real / RoundPower10[digits] <= Round(x, digits) <= hi as real / RoundPower10[digits]
  {
    RoundPower10Positive(digits);
    ScaledRoundBetween(x, RoundPower10[digits], lo, hi);
  }

  lemma ScaledRoundBetween(x: real, p: real, lo: int, hi: int)
    requires p > 0.0
    requires lo as real <= x * p <= hi as real
    ensures lo as real / p <= ScaledRound(x, p) <= hi as real / p
  {
    var y := x * p;
    var n := RoundHalfEven(y);
    assert lo <= n <= hi by {
      RoundHalfEvenMonotone(lo as real, y);
      RoundHalfEvenMonotone(y, hi as real);
      RoundHalfEvenOfInteger(lo);
      RoundHalfEvenOfInteger(hi);
    }
    DivideBounds(lo as real, n as real, hi as real, p);
  }
}
