/** Six-decimal money rounding: Python's `round(x, 6)` over the reals, ties to the even
    last digit. `Precision` lets one definition of the accounting serve both the code
    (`SixPlaces`) and the exact arithmetic it approximates (`Exact`). */
module Rounding {

  const SCALE := 1000000.0
  const HALF_UNIT := 0.0000005

  datatype Precision = Exact | SixPlaces

  /** Nearest integer, ties to even. */
  function HalfEven(y: real): (n: int)
    ensures -0.5 <= n as real - y <= 0.5
    ensures n as real - y in {-0.5, 0.5} ==> n % 2 == 0
  {
    var f := y.Floor;
    var d := y - f as real;
    if d < 0.5 || (d == 0.5 && f % 2 == 0) then f else f + 1
  }

  function Round6(x: real): real {
    HalfEven(x * SCALE) as real / SCALE
  }

  /** x is a whole number of millionths. */
  predicate OnGrid(x: real) {
    (x * SCALE).Floor as real == x * SCALE
  }

  function Round(p: Precision, x: real): real {
    match p
    case Exact => x
    case SixPlaces => Round6(x)
  }

  predicate Representable(p: Precision, x: real) {
    p.Exact? || OnGrid(x)
  }

  /** Largest error one rounding can introduce. */
  function Slack(p: Precision): real {
    if p.Exact? then 0.0 else HALF_UNIT
  }

  /** Product and quotient of two amounts, named so that a proof can rewrite them as a whole. */
  function Times(x: real, y: real): real {
    x * y
  }

  function Over(x: real, y: real): real
    requires y != 0.0
  {
    x / y
  }

  lemma TimesOver(x: real, y: real)
    requires y != 0.0
    ensures Times(y, Over(x, y)) == x
  {
  }

  lemma TimesDistributes(x: real, y: real, z: real)
    ensures Times(x, y + z) == Times(x, y) + Times(x, z)
    ensures Times(x, y - z) == Times(x, y) - Times(x, z)
    ensures Times(x + y, z) == Times(x, z) + Times(y, z)
    ensures Times(x - y, z) == Times(x, z) - Times(y, z)
    ensures Times(1.0, x) == x && Times(0.0, x) == 0.0 && Times(x, 0.0) == 0.0
  {
  }

  lemma TimesCommutes(x: real, y: real)
    ensures Times(x, y) == Times(y, x)
  {
  }

  lemma TimesSign(x: real, y: real)
    ensures x >= 0.0 && y >= 0.0 ==> Times(x, y) >= 0.0
    ensures x > 0.0 && y > 0.0 ==> Times(x, y) > 0.0
    ensures x >= 0.0 && y <= 0.0 ==> Times(x, y) <= 0.0
  {
  }

  lemma FactorSign(x: real, y: real)
    requires y > 0.0
    ensures x > 0.0 <==> Times(x, y) > 0.0
    ensures x < 0.0 <==> Times(x, y) < 0.0
  {
  }

  lemma OverSign(x: real, y: real)
    requires y > 0.0
    ensures x > 0.0 <==> Over(x, y) > 0.0
    ensures x < 0.0 <==> Over(x, y) < 0.0
  {
  }

  function Abs(x: real): real {
    if x < 0.0 then -x else x
  }

  function Max(x: real, y: real): real {
    if x < y then y else x
  }

  function Min(x: real, y: real): real {
    if y < x then y else x
  }

  lemma HalfEvenMonotone(x: real, y: real)
    requires x <= y
    ensures HalfEven(x) <= HalfEven(y)
  {
  }

  lemma HalfEvenUnique(y: real, n: int)
    requires -0.5 <= n as real - y <= 0.5
    requires n as real - y in {-0.5, 0.5} ==> n % 2 == 0
    ensures HalfEven(y) == n
  {
  }

  /** Rounding lands on the grid, moves a value by at most half a unit, and is the nearest
      grid point: nothing on the grid is closer. */
  lemma RoundIsNearest(x: real, g: real)
    ensures OnGrid(Round6(x))
    ensures Abs(Round6(x) - x) <= HALF_UNIT
    ensures OnGrid(g) ==> Abs(Round6(x) - x) <= Abs(g - x)
  {
    var n := HalfEven(x * SCALE);
    assert Round6(x) * SCALE == n as real;
    if OnGrid(g) {
      var m := (g * SCALE).Floor;
      if m != n {
        assert m <= n - 1 || m >= n + 1;
      }
    }
  }

  lemma RoundMonotone(p: Precision, x: real, y: real)
    requires x <= y
    ensures Round(p, x) <= Round(p, y)
  {
    HalfEvenMonotone(x * SCALE, y * SCALE);
  }

  lemma RoundOdd(p: Precision, x: real)
    ensures Round(p, -x) == -Round(p, x)
  {
    HalfEvenUnique((-x) * SCALE, -HalfEven(x * SCALE));
  }

  lemma RoundFixesGrid(p: Precision, x: real)
    requires Representable(p, x)
    ensures Round(p, x) == x
  {
    if p.SixPlaces? {
      HalfEvenUnique(x * SCALE, (x * SCALE).Floor);
    }
  }

  lemma GridPoint(x: real, n: int)
    requires x * SCALE == n as real
    ensures OnGrid(x)
  {
    var z := x * SCALE;
    assert z.Floor == n;
  }

  lemma GridSum(p: Precision, x: real, y: real)
    requires Representable(p, x) && Representable(p, y)
    ensures Representable(p, x + y) && Representable(p, x - y)
  {
    if p.SixPlaces? {
      var m, n := (x * SCALE).Floor, (y * SCALE).Floor;
      GridPoint(x + y, m + n);
      GridPoint(x - y, m - n);
    }
  }

  /** What the callers need of one rounding, at either precision. */
  lemma RoundNear(p: Precision, x: real)
    ensures Representable(p, Round(p, x))
    ensures -Slack(p) <= Round(p, x) - x <= Slack(p)
  {
    RoundIsNearest(x, x);
  }

  /** A grid point bounds x exactly when it bounds the rounded x from the same side;
      the converse fails only inside the half unit next to the bound. */
  lemma RoundKeepsBound(p: Precision, bound: real, x: real)
    requires Representable(p, bound)
    ensures bound <= x ==> bound <= Round(p, x)
    ensures x <= bound ==> Round(p, x) <= bound
  {
    RoundFixesGrid(p, bound);
    if bound <= x { RoundMonotone(p, bound, x); }
    if x <= bound { RoundMonotone(p, x, bound); }
  }

  /** Rounds away exactly up to half a unit. */
  lemma DustRoundsAway(x: real)
    requires x >= 0.0
    ensures Round6(x) > 0.0 <==> x > HALF_UNIT
  {
    if x * SCALE <= 0.5 {
      HalfEvenUnique(x * SCALE, 0);
    } else {
      assert HalfEven(x * SCALE) >= 1;
    }
  }

  lemma ZeroOnGrid(p: Precision)
    ensures Representable(p, 0.0)
  {
    assert 0.0 * SCALE == 0.0;
  }

  /** Exactly between two grid points. */
  predicate OnTie(x: real) {
    Abs(Round6(x) - x) == HALF_UNIT
  }

  lemma HalfEvenShift(y: real, m: int)
    ensures HalfEven(m as real + y) == m + HalfEven(y) <==> HalfEven(y) as real - y !in {-0.5, 0.5} || m % 2 == 0
    ensures -1 <= HalfEven(m as real + y) - (m + HalfEven(y)) <= 1
  {
    var n := HalfEven(y);
    if n as real - y !in {-0.5, 0.5} || m % 2 == 0 {
      HalfEvenUnique(m as real + y, n + m);
    } else {
      assert (n + m) % 2 == 1;
    }
  }

  /** Adding a grid amount before rounding or after it differs by at most one unit, and by nothing exactly
      when the rounded amount is not on a tie or the grid amount is an even number of units. */
  lemma RoundShift(p: Precision, g: real, x: real)
    requires Representable(p, g)
    ensures Abs(Round(p, g + x) - (g + Round(p, x))) <= 2.0 * Slack(p)
    ensures p.SixPlaces? ==> (Round6(g + x) == g + Round6(x) <==> !OnTie(x) || (g * SCALE).Floor % 2 == 0)
    ensures p.SixPlaces? ==> Abs(Round6(g + x) - (g + Round6(x))) in {0.0, 2.0 * HALF_UNIT}
  {
    if p.SixPlaces? {
      var y, m := x * SCALE, (g * SCALE).Floor;
      HalfEvenShift(y, m);
      hide HalfEven;
      assert (g + x) * SCALE == m as real + y;
      var apart := HalfEven(m as real + y) - (m + HalfEven(y));
      assert (Round6(g + x) - (g + Round6(x))) * SCALE == apart as real;
      assert Abs(Round6(x) - x) * SCALE == Abs(HalfEven(y) as real - y);
    }
  }
}
