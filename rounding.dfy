/** The rounding operations the source applies: Python's `round` (to an
    integer, or to a number of decimal places, ties to even) and JavaScript's
    `Math.round` (ties towards positive infinity). Quantities are exact reals,
    so this is decimal rounding of the exact value. */
module Rounding {

  function Pow10(k: nat): (r: nat)
    ensures r >= 1
  {
    if k == 0 then 1 else 10 * Pow10(k - 1)
  }

  lemma {:induction false} Pow10Add(a: nat, b: nat)
    ensures Pow10(a + b) == Pow10(a) * Pow10(b)
  {
    if b > 0 {
      Pow10Add(a, b - 1);
    }
  }

  /** Python's `round(x)`: the nearest integer, a tie going to the even one. */
  function RoundHalfEven(x: real): (n: int)
    ensures x - 0.5 <= n as real <= x + 0.5
  {
    var f := x.Floor;
    var frac := x - f as real;
    if frac < 0.5 then f
    else if frac > 0.5 then f + 1
    else if f % 2 == 0 then f
    else f + 1
  }

  /** An integer rounds to itself. */
  lemma RoundHalfEvenOfInt(n: int)
    ensures RoundHalfEven(n as real) == n
  {
  }

  /** Rounding to an integer is monotone. */
  lemma RoundHalfEvenMonotone(x: real, y: real)
    requires x <= y
    ensures RoundHalfEven(x) <= RoundHalfEven(y)
  {
    var fx, fy := x.Floor, y.Floor;
    assert fx <= fy;
    if fx < fy {
      assert RoundHalfEven(x) <= fx + 1 <= fy <= RoundHalfEven(y);
    } else {
      assert x - fx as real <= y - fy as real;
    }
  }

  /** `10^places` as a real. */
  function Scale(places: nat): (s: real)
    ensures s >= 1.0
  {
    Pow10(places) as real
  }

  /** `x` shifted `places` decimal digits to the left. */
  function Shift(x: real, places: nat): real
  {
    x * Scale(places)
  }

  /** The integer `n` read as `n` units of the last place kept. */
  function Unshift(n: int, places: nat): real
  {
    n as real / Scale(places)
  }

  /** Python's `round(x, places)`. */
  function Round(x: real, places: nat): (r: real)
  {
    Unshift(RoundHalfEven(Shift(x, places)), places)
  }

  /** Rounding to `places` decimals moves a value by at most half a unit in
      the last place kept. */
  lemma RoundError(x: real, places: nat)
    ensures -0.5 / Scale(places) <= Round(x, places) - x <= 0.5 / Scale(places)
  {
    var s := Scale(places);
    var n := RoundHalfEven(Shift(x, places));
    assert Shift(x, places) == x * s;
    assert Round(x, places) == n as real / s;
    UnscaleError(x, s, n as real);
  }

  /** The bound for the one and two decimal places the source uses. */
  lemma RoundErrorSmall(x: real)
    ensures -0.05 <= Round(x, 1) - x <= 0.05
    ensures -0.005 <= Round(x, 2) - x <= 0.005
  {
    assert Pow10(1) == 10 && Pow10(2) == 100;
    RoundError(x, 1);
    RoundError(x, 2);
  }

  lemma UnscaleError(x: real, s: real, n: real)
    requires s > 0.0 && x * s - 0.5 <= n <= x * s + 0.5
    ensures -0.5 / s <= n / s - x <= 0.5 / s
  {
    DivMonotone(x * s - 0.5, n, s);
    DivMonotone(n, x * s + 0.5, s);
    DivDistributes(x * s, 0.5, s);
    DivDistributes(x * s, -0.5, s);
    MulDivCancel(x, s);
  }

  /** Rounding to `places` decimals is monotone. */
  lemma RoundMonotone(x: real, y: real, places: nat)
    requires x <= y
    ensures Round(x, places) <= Round(y, places)
  {
    MulMonotone(x, y, Scale(places));
    RoundHalfEvenMonotone(Shift(x, places), Shift(y, places));
    DivMonotone(RoundHalfEven(Shift(x, places)) as real, RoundHalfEven(Shift(y, places)) as real, Scale(places));
  }

  /** A value already on the grid of `places` decimals is left unchanged. */
  lemma RoundOnGrid(m: int, places: nat)
    ensures Round(Unshift(m, places), places) == Unshift(m, places)
  {
    DivMulCancel(m as real, Scale(places));
    assert Shift(Unshift(m, places), places) == m as real;
    RoundHalfEvenOfInt(m);
  }

  /** Rounding to `a` decimals and then to `b >= a` decimals is rounding to `a`
      decimals: the second rounding of the source's `round(round(x, 1), 2)` has
      no effect. */
  lemma RoundTwice(x: real, a: nat, b: nat)
    requires a <= b
    ensures Round(Round(x, a), b) == Round(x, a)
  {
    var n := RoundHalfEven(Shift(x, a));
    UnshiftRefine(n, a, b);
    RoundOnGrid(n * Pow10(b - a), b);
  }

  /** `n` units of `10^-a` are `n * 10^(b-a)` units of `10^-b`. */
  lemma UnshiftRefine(n: int, a: nat, b: nat)
    requires a <= b
    ensures Unshift(n, a) == Unshift(n * Pow10(b - a), b)
  {
    Pow10Add(a, b - a);
    assert a + (b - a) == b;
    FractionRefine(n, Pow10(a), Pow10(b - a), Pow10(b));
  }

  /** `n / p` is `(n * q) / (p * q)`, with the products taken on integers. */
  lemma FractionRefine(n: int, p: nat, q: nat, pq: nat)
    requires p >= 1 && q >= 1 && pq == p * q
    ensures n as real / p as real == (n * q) as real / pq as real
  {
    CastMul(p, q);
    CastMul(n, q);
    ScaleFraction(n as real, p as real, q as real);
  }

  lemma CastMul(i: int, j: int)
    ensures (i * j) as real == (i as real) * (j as real)
  {
  }

  lemma MulMonotone(x: real, y: real, s: real)
    requires x <= y && s > 0.0
    ensures x * s <= y * s
  {
  }

  lemma DivMonotone(x: real, y: real, s: real)
    requires x <= y && s > 0.0
    ensures x / s <= y / s
  {
  }

  lemma DivDistributes(x: real, y: real, s: real)
    requires s > 0.0
    ensures (x + y) / s == x / s + y / s
  {
  }

  lemma DivBelowOne(x: real, s: real)
    requires 0.0 <= x < s
    ensures 0.0 <= x / s < 1.0
  {
  }

  lemma MulDivCancel(x: real, s: real)
    requires s > 0.0
    ensures (x * s) / s == x
  {
  }

  lemma DivMulCancel(x: real, s: real)
    requires s > 0.0
    ensures (x / s) * s == x
  {
  }

  lemma ScaleFraction(x: real, s: real, t: real)
    requires s > 0.0 && t > 0.0
    ensures x / s == (x * t) / (s * t)
  {
  }

  /** JavaScript's `Math.round(x)`: the nearest integer, a tie going up. */
  function JsMathRound(x: real): (n: int)
    ensures x - 0.5 < n as real <= x + 0.5
  {
    (x + 0.5).Floor
  }
}
