/**
 * Python's numeric built-ins used by the plan pricer, over exact reals: int() of a float
 * (truncation toward zero), round() (to nearest, ties to even), min/max clamping.
 */
module Numbers {

  /** int(x) for a float x: drops the fractional part, rounding toward zero. */
  function Truncate(x: real): (r: int)
    ensures 0.0 <= x ==> r as real <= x < r as real + 1.0
    ensures x < 0.0 ==> r as real - 1.0 < x <= r as real
  {
    if x >= 0.0 then x.Floor else -((-x).Floor)
  }

  /** round(x): the nearest integer, an exact tie going to the even neighbour. */
  function RoundHalfEven(x: real): (r: int)
    ensures -0.5 <= x - r as real <= 0.5
    ensures (x - r as real == 0.5 || r as real - x == 0.5) ==> r % 2 == 0
  {
    var f := x.Floor;
    var d := x - f as real;
    if d < 0.5 then f
    else if d > 0.5 then f + 1
    else if f % 2 == 0 then f else f + 1
  }

  /** The two properties of RoundHalfEven determine it: no other integer has them. */
  lemma RoundHalfEvenUnique(x: real, n: int)
    requires -0.5 <= x - n as real <= 0.5
    requires (x - n as real == 0.5 || n as real - x == 0.5) ==> n % 2 == 0
    ensures n == RoundHalfEven(x)
  {
  }

  /** round(x, 2): the nearest multiple of 0.01, an exact tie going to the even multiple. */
  function RoundToHundredths(x: real): (r: real)
    ensures (r * 100.0).Floor as real == r * 100.0
    ensures -0.005 <= x - r <= 0.005
    ensures (x - r == 0.005 || r - x == 0.005) ==> (r * 100.0).Floor % 2 == 0
  {
    var n := RoundHalfEven(x * 100.0);
    assert n as real / 100.0 * 100.0 == n as real;
    n as real / 100.0
  }

  /** The three properties of RoundToHundredths determine it. */
  lemma RoundToHundredthsUnique(x: real, r: real)
    requires (r * 100.0).Floor as real == r * 100.0
    requires -0.005 <= x - r <= 0.005
    requires (x - r == 0.005 || r - x == 0.005) ==> (r * 100.0).Floor % 2 == 0
    ensures r == RoundToHundredths(x)
  {
    var n := (r * 100.0).Floor;
    assert x * 100.0 - n as real == (x - r) * 100.0;
    RoundHalfEvenUnique(x * 100.0, n);
  }

  /** round(x, -5): the nearest multiple of 100,000, an exact tie going to the even multiple. */
  function RoundToHundredThousands(x: real): (r: real)
    ensures (r / 100000.0).Floor as real * 100000.0 == r
    ensures -50000.0 <= x - r <= 50000.0
    ensures (x - r == 50000.0 || r - x == 50000.0) ==> (r / 100000.0).Floor % 2 == 0
  {
    var n := RoundHalfEven(x / 100000.0);
    assert n as real * 100000.0 / 100000.0 == n as real;
    n as real * 100000.0
  }

  /** The three properties of RoundToHundredThousands determine it. */
  lemma RoundToHundredThousandsUnique(x: real, r: real)
    requires (r / 100000.0).Floor as real * 100000.0 == r
    requires -50000.0 <= x - r <= 50000.0
    requires (x - r == 50000.0 || r - x == 50000.0) ==> (r / 100000.0).Floor % 2 == 0
    ensures r == RoundToHundredThousands(x)
  {
    var n := (r / 100000.0).Floor;
    assert x / 100000.0 - n as real == (x - r) / 100000.0;
    RoundHalfEvenUnique(x / 100000.0, n);
  }

  function Min(a: real, b: real): real {
    if a <= b then a else b
  }

  function Max(a: real, b: real): real {
    if a >= b then a else b
  }

  /** max(lo, min(hi, x)). */
  function Clamp(x: real, lo: real, hi: real): (r: real)
    requires lo <= hi
    ensures lo <= r <= hi
    ensures lo <= x <= hi ==> r == x
    ensures x <= lo ==> r == lo
    ensures hi <= x ==> r == hi
  {
    Max(lo, Min(hi, x))
  }

  /** Rounding to hundredths keeps a value inside bounds that are themselves multiples of 0.01. */
  lemma RoundToHundredthsWithin(x: real, lo: int, hi: int)
    requires lo as real / 100.0 <= x <= hi as real / 100.0
    ensures lo as real / 100.0 <= RoundToHundredths(x) <= hi as real / 100.0
  {
    var n := RoundHalfEven(x * 100.0);
    assert lo as real <= x * 100.0 <= hi as real;
    assert lo <= n <= hi;
  }

  /** Rounding to hundred-thousands keeps a value under a bound that is a multiple of 100,000. */
  lemma RoundToHundredThousandsBelow(x: real, k: int)
    requires x <= k as real * 100000.0
    ensures RoundToHundredThousands(x) <= k as real * 100000.0
  {
    var n := RoundHalfEven(x / 100000.0);
    assert x / 100000.0 <= k as real;
    assert n <= k;
  }
}
