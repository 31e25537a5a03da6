/** Python's `round(x, ndigits)`, modelled on exact reals: the nearest multiple
    of 10^-ndigits, ties to the even multiple. (Python rounds the binary float,
    whose exact value is rarely a tie; the model treats the decimal value as exact.) */
module Rounding {

  function Pow10(places: nat): (r: nat)
    ensures r >= 1
  {
    if places == 0 then 1 else 10 * Pow10(places - 1)
  }

  /** The integer nearest to `y`, ties to even. */
  function RoundHalfEven(y: real): int {
    var f := y.Floor;
    var frac := y - f as real;
    if frac < 0.5 then f
    else if frac > 0.5 then f + 1
    else if f % 2 == 0 then f
    else f + 1
  }

  /** The multiple of 1/scale nearest to `x`, ties to even. */
  function RoundToGrid(x: real, scale: real): real
    requires scale > 0.0
  {
    RoundHalfEven(x * scale) as real / scale
  }

  /** `round(x, places)` */
  function Round(x: real, places: nat): real {
    RoundToGrid(x, Pow10(places) as real)
  }

  /** Half a unit in the last kept place: the most rounding can move a value. */
  function HalfUlp(places: nat): real {
    0.5 / Pow10(places) as real
  }

  lemma NearestInteger(y: real)
    ensures -0.5 <= RoundHalfEven(y) as real - y <= 0.5
    ensures y >= 0.0 ==> RoundHalfEven(y) >= 0
  {
  }

  lemma GridTimesScale(x: real, scale: real)
    requires scale > 0.0
    ensures RoundToGrid(x, scale) * scale == RoundHalfEven(x * scale) as real
  {
  }

  lemma GridIsClose(x: real, scale: real)
    requires scale > 0.0
    ensures -0.5 / scale <= RoundToGrid(x, scale) - x <= 0.5 / scale
    ensures x >= 0.0 ==> RoundToGrid(x, scale) >= 0.0
  {
    var y := x * scale;
    var d := RoundHalfEven(y) as real - y;
    NearestInteger(y);
    assert RoundToGrid(x, scale) - x == d / scale;
    DivideMonotone(-0.5, d, scale);
    DivideMonotone(d, 0.5, scale);
    if x >= 0.0 {
      assert y >= 0.0;
      DivideMonotone(0.0, RoundHalfEven(y) as real, scale);
    }
  }

  lemma DivideMonotone(a: real, b: real, s: real)
    requires a <= b && s > 0.0
    ensures a / s <= b / s
  {
    assert (b - a) / s >= 0.0;
    assert b / s - a / s == (b - a) / s;
  }

  /** Rounding moves a value by at most half a unit in the last kept place. */
  lemma RoundIsClose(x: real, places: nat)
    ensures -HalfUlp(places) <= Round(x, places) - x <= HalfUlp(places)
  {
    GridIsClose(x, Pow10(places) as real);
  }

  /** Rounding never makes a non-negative value negative. */
  lemma RoundNonNegative(x: real, places: nat)
    requires x >= 0.0
    ensures Round(x, places) >= 0.0
  {
    GridIsClose(x, Pow10(places) as real);
  }

  predicate IsWhole(y: real) {
    y.Floor as real == y
  }

  /** `x` counted in units of the `places`-th decimal place. */
  function Units(x: real, places: nat): real {
    x * Pow10(places) as real
  }

  /** `x` is a whole number of units in the `places`-th decimal place. */
  predicate OnGrid(x: real, places: nat) {
    IsWhole(Units(x, places))
  }

  lemma WholeOfInt(n: int)
    ensures IsWhole(n as real) && RoundHalfEven(n as real) == n
  {
    assert (n as real).Floor == n;
  }

  /** What `round(x, places)` returns is on the grid of its places. */
  lemma RoundIsOnGrid(x: real, places: nat)
    ensures OnGrid(Round(x, places), places)
  {
    var scale := Pow10(places) as real;
    var n := RoundHalfEven(x * scale);
    GridTimesScale(x, scale);
    assert Units(Round(x, places), places) == n as real;
    WholeOfInt(n);
  }

  /** A value already on the grid is left alone by rounding. */
  lemma RoundOnGridIsIdentity(x: real, places: nat)
    requires OnGrid(x, places)
    ensures Round(x, places) == x
  {
    var scale := Pow10(places) as real;
    var u := Units(x, places);
    var n := u.Floor;
    assert u == n as real;
    assert x * scale == n as real;
    WholeOfInt(n);
    assert Round(x, places) == (n as real) / scale;
    DivideBack(x, scale);
  }

  lemma DivideBack(x: real, s: real)
    requires s > 0.0
    ensures (x * s) / s == x
  {
  }

  /** Sums of values on a grid stay on it. */
  lemma OnGridAdd(a: real, b: real, places: nat)
    requires OnGrid(a, places) && OnGrid(b, places)
    ensures OnGrid(a + b, places)
  {
    var m := Units(a, places).Floor;
    var n := Units(b, places).Floor;
    assert Units(a + b, places) == Units(a, places) + Units(b, places);
    assert Units(a + b, places) == (m + n) as real;
    WholeOfInt(m + n);
  }

  /** Rounding twice is rounding once. */
  lemma RoundIdempotent(x: real, places: nat)
    ensures Round(Round(x, places), places) == Round(x, places)
  {
    RoundIsOnGrid(x, places);
    RoundOnGridIsIdentity(Round(x, places), places);
  }
}
