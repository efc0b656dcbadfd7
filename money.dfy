/**
 * Exact monetary arithmetic: Go's `math.Round`, decimal rounding (`roundFloat`,
 * `roundToDecimalPlaces` and the summary's `roundTo2Decimals`, which all compute
 * `math.Round(x * 10^p) / 10^p`), absolute value and integer powers, over `real`.
 */
module Money {

  /** The one-cent tolerance used by every reconciliation step. */
  const Cent: real := 0.01

  function Abs(x: real): (r: real)
    ensures r >= 0.0
    ensures r == x || r == -x
  {
    if x < 0.0 then -x else x
  }

  /** Go's `math.Round`: the nearest integer, halves rounded away from zero. */
  function Round(x: real): (r: int)
    ensures x >= 0.0 ==> x - 0.5 < r as real <= x + 0.5
    ensures x < 0.0 ==> x - 0.5 <= r as real < x + 0.5
    ensures x >= 0.0 ==> r >= 0
  {
    if x >= 0.0 then (x + 0.5).Floor else -((-x + 0.5).Floor)
  }

  lemma RoundOfInteger(k: int)
    ensures Round(k as real) == k
  {
  }

  /** Go's `math.Round` is odd: rounding commutes with negation. */
  lemma RoundIsOdd(x: real)
    ensures Round(-x) == -Round(x)
  {
    if x == 0.0 {
    } else if x > 0.0 {
      assert -x < 0.0;
    } else {
      assert -x > 0.0;
    }
  }

  function Pow(x: real, n: nat): (r: real)
    ensures x > 0.0 ==> r > 0.0
    ensures x >= 1.0 ==> r >= 1.0
  {
    if n == 0 then 1.0 else x * Pow(x, n - 1)
  }

  function Pow10(places: nat): (r: real)
    ensures r >= 1.0
  {
    Pow(10.0, places)
  }

  /** `math.Round(value * 10^places) / 10^places`. */
  function RoundTo(value: real, places: nat): (r: real)
    ensures Abs(r - value) <= 0.5 / Pow10(places)
    ensures value >= 0.0 ==> r >= 0.0
  {
    RoundToScale(value, Pow10(places))
  }

  /** Rounding to the nearest multiple of `1 / m`. */
  function RoundToScale(value: real, m: real): (r: real)
    requires m >= 1.0
    ensures Abs(r - value) <= 0.5 / m
    ensures value >= 0.0 ==> r >= 0.0
  {
    var k := Round(value * m);
    RoundToError(value, m, k);
    k as real / m
  }

  lemma RoundToError(value: real, m: real, k: int)
    requires m >= 1.0
    requires k == Round(value * m)
    ensures Abs(k as real / m - value) <= 0.5 / m
  {
    assert Abs(k as real - value * m) <= 0.5;
    AbsScale(k as real - value * m, m);
    assert (k as real - value * m) / m == k as real / m - value;
  }

  /** Currency precision: two decimal places. */
  function Round2(value: real): (r: real)
    ensures Abs(r - value) <= 0.005
    ensures value >= 0.0 ==> r >= 0.0
  {
    assert Pow10(2) == 100.0;
    RoundTo(value, 2)
  }

  lemma AbsScale(d: real, m: real)
    requires m >= 1.0
    requires Abs(d) <= 0.5
    ensures Abs(d / m) <= 0.5 / m
  {
    assert (0.5 - d) / m >= 0.0;
    assert (0.5 + d) / m >= 0.0;
    assert 0.5 / m - d / m == (0.5 - d) / m;
    assert 0.5 / m + d / m == (0.5 + d) / m;
  }

  /** Rounding a value that is already rounded changes nothing. */
  lemma RoundToIdempotent(value: real, places: nat)
    ensures RoundTo(RoundTo(value, places), places) == RoundTo(value, places)
  {
    RoundToScaleIdempotent(value, Pow10(places));
  }

  lemma RoundToScaleIdempotent(value: real, m: real)
    requires m >= 1.0
    ensures RoundToScale(RoundToScale(value, m), m) == RoundToScale(value, m)
  {
    var k := Round(value * m);
    var y := RoundToScale(value, m);
    assert y * m == k as real by {
      assert y == k as real / m;
      DivTimes(k as real, m);
    }
    RoundToScaleOfGridPoint(y, m, k);
  }

  /** A multiple of `1 / m` is its own rounding. */
  lemma RoundToScaleOfGridPoint(y: real, m: real, k: int)
    requires m >= 1.0
    requires y * m == k as real
    ensures RoundToScale(y, m) == y
  {
    RoundOfInteger(k);
    assert RoundToScale(y, m) == k as real / m;
  }

  /** `n` equal amounts `a` added one after another. */
  function Repeated(a: real, n: nat): real {
    if n == 0 then 0.0 else Repeated(a, n - 1) + a
  }

  lemma {:induction false} RepeatedIsProduct(a: real, n: nat)
    ensures Repeated(a, n) == n as real * a
  {
    if n > 0 {
      RepeatedIsProduct(a, n - 1);
    }
  }

  lemma AbsTriangle(a: real, b: real, c: real)
    ensures Abs(a - c) <= Abs(a - b) + Abs(b - c)
  {
  }

  lemma DivTimes(a: real, m: real)
    requires m != 0.0
    ensures (a / m) * m == a
  {
  }

  lemma Round2Idempotent(value: real)
    ensures Round2(Round2(value)) == Round2(value)
  {
    RoundToIdempotent(value, 2);
  }

  lemma Round2OfZero()
    ensures Round2(0.0) == 0.0
  {
  }
}
