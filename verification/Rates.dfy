/** Integer rates in basis points, as every report of the system computes them: floored, and
    0 when there is nothing to divide by. */
module Rates {

  function Bps(part: int, whole: int): int {
    if whole > 0 then part * 10000 / whole else 0
  }

  /** The harmonic mean of two rates that were already floored. */
  function F1(precision: int, recall: int): int {
    if precision + recall > 0 then 2 * precision * recall / (precision + recall) else 0
  }

  function Min(a: int, b: int): int { if a <= b then a else b }
  function Max(a: int, b: int): int { if a <= b then b else a }

  /** `q` is the floor of `n / d`. */
  predicate FloorOf(q: int, n: int, d: int) {
    q * d <= n < (q + 1) * d
  }

  lemma DivisionFloors(n: int, d: int)
    requires d > 0
    ensures FloorOf(n / d, n, d)
  {
    assert n == n / d * d + n % d;
  }

  lemma ProductsOrdered(x: int, y: int, k: int)
    requires x <= y && k >= 0
    ensures x * k <= y * k
  {
    assert (y - x) * k >= 0;
  }

  lemma FactorsOrdered(x: int, y: int, k: int)
    requires x * k <= y * k && k > 0
    ensures x <= y
  {
    if y < x {
      ProductsOrdered(y + 1, x, k);
    }
  }

  lemma FloorAtMost(q: int, n: int, d: int, bound: int)
    requires d > 0 && FloorOf(q, n, d) && n <= bound * d
    ensures q <= bound
  {
    FactorsOrdered(q, bound, d);
  }

  lemma FloorAtLeast(q: int, n: int, d: int, bound: int)
    requires d > 0 && FloorOf(q, n, d) && bound * d <= n
    ensures bound <= q
  {
    if q + 1 <= bound {
      ProductsOrdered(q + 1, bound, d);
    }
  }

  /** A rate in basis points is rounded down, and 0 when there is nothing to divide by. */
  predicate RateIs(rate: int, part: int, whole: int) {
    if whole > 0 then rate * whole <= 10000 * part < (rate + 1) * whole else rate == 0
  }

  lemma BpsIs(part: int, whole: int)
    ensures RateIs(Bps(part, whole), part, whole)
  {
    if whole > 0 {
      DivisionFloors(part * 10000, whole);
    }
  }

  /** The harmonic mean is rounded down, and 0 when both rates are. */
  predicate MeanIs(mean: int, p: int, r: int) {
    if p + r > 0 then mean * (p + r) <= 2 * p * r < (mean + 1) * (p + r) else mean == 0
  }

  lemma F1Is(p: int, r: int)
    ensures MeanIs(F1(p, r), p, r)
  {
    if p + r > 0 {
      DivisionFloors(2 * p * r, p + r);
    }
  }

  lemma BpsInRange(part: int, whole: int)
    requires 0 <= part <= whole
    ensures 0 <= Bps(part, whole) <= 10000
  {
    if whole > 0 {
      DivisionFloors(part * 10000, whole);
      FloorAtMost(Bps(part, whole), part * 10000, whole, 10000);
      FloorAtLeast(Bps(part, whole), part * 10000, whole, 0);
    }
  }

  // ---------------------------------------------------------------------------
  // How far the F1 of floored rates is from the true one
  // ---------------------------------------------------------------------------

  /** The F1 score lies between the two rates it combines. */
  lemma {:induction false} F1Between(p: int, r: int)
    requires 0 <= p && 0 <= r
    ensures Min(p, r) <= F1(p, r) <= Max(p, r)
  {
    if p + r > 0 {
      var low, high := Min(p, r), Max(p, r);
      DivisionFloors(2 * p * r, p + r);
      assert 2 * p * r - low * (p + r) == low * (high - low);
      assert high * (p + r) - 2 * p * r == high * (high - low);
      ProductsOrdered(0, high - low, low);
      ProductsOrdered(0, high - low, high);
      FloorAtLeast(F1(p, r), 2 * p * r, p + r, low);
      FloorAtMost(F1(p, r), 2 * p * r, p + r, high);
    }
  }

  /** Flooring both rates first never raises the score: in integers, f1 (a + b) <= 2 t. */
  lemma F1NotAbove(t: int, a: int, b: int, p: int, r: int, f1: int)
    requires a >= 0 && b >= 0 && p >= 0 && r >= 0 && p + r > 0
    requires p * a <= t && r * b <= t && f1 * (p + r) <= 2 * p * r
    ensures f1 * (a + b) <= 2 * t
  {
    ProductsOrdered(p * a, t, r);
    ProductsOrdered(r * b, t, p);
    assert p * r * (a + b) <= t * (p + r) by {
      assert p * r * (a + b) == p * a * r + r * b * p;
    }
    ProductsOrdered(f1 * (p + r), 2 * p * r, a + b);
    assert f1 * (a + b) * (p + r) == f1 * (p + r) * (a + b);
    assert 2 * p * r * (a + b) == 2 * (p * r * (a + b));
    assert 2 * t * (p + r) == 2 * (t * (p + r));
    FactorsOrdered(f1 * (a + b), 2 * t, p + r);
  }

  lemma UpperProducts(t: int, a: int, b: int, p: int, r: int)
    requires p > 0 && r > 0 && t <= p * a && t <= r * b
    ensures t * (p + r) <= p * r * (a + b)
  {
    ProductsOrdered(t, p * a, r);
    ProductsOrdered(t, r * b, p);
    assert p * r * (a + b) == p * a * r + r * b * p;
  }

  lemma UpperMean(p: int, r: int, f1: int)
    requires 0 <= f1 && 2 * p * r <= (f1 + 1) * (p + r)
    ensures 2 * ((p + 1) * (r + 1)) <= (f1 + 3) * (p + r + 2)
  {
    assert 2 * ((p + 1) * (r + 1)) == 2 * p * r + 2 * (p + r) + 2;
    assert (f1 + 3) * (p + r + 2) == (f1 + 1) * (p + r) + 2 * (f1 + 1) + 2 * (p + r) + 4;
  }

  lemma Combine(t: int, q: int, product: int, n: int, f: int)
    requires q > 0 && n > 0 && (t + 1) * q <= product * n && 2 * product <= f * q
    ensures 2 * t < f * n
  {
    ProductsOrdered(2 * product, f * q, n);
    assert f * q * n == f * n * q;
    assert 2 * product * n == 2 * (product * n);
    assert 2 * (t + 1) * q == 2 * ((t + 1) * q);
    FactorsOrdered(2 * (t + 1), f * n, q);
  }

  /** Nor does it lower the score by as much as three: 2 t < (f1 + 3) (a + b). */
  lemma {:induction false} F1NotFarBelow(t: int, a: int, b: int, p: int, r: int, f1: int)
    requires a > 0 && b > 0 && p >= 0 && r >= 0 && f1 >= 0
    requires t < (p + 1) * a && t < (r + 1) * b && 2 * p * r <= (f1 + 1) * (p + r)
    ensures 2 * t < (f1 + 3) * (a + b)
  {
    UpperProducts(t + 1, a, b, p + 1, r + 1);
    UpperMean(p, r, f1);
    Combine(t, p + r + 2, (p + 1) * (r + 1), a + b, f1 + 3);
  }

  lemma {:induction false} F1OfFloors(t: int, a: int, b: int, p: int, r: int)
    requires a > 0 && b > 0 && p >= 0 && r >= 0
    requires FloorOf(p, t, a) && FloorOf(r, t, b)
    ensures F1(p, r) * (a + b) <= 2 * t < (F1(p, r) + 3) * (a + b)
  {
    var f1 := F1(p, r);
    F1Between(p, r);
    if p + r > 0 {
      DivisionFloors(2 * p * r, p + r);
      hide F1;
      F1NotAbove(t, a, b, p, r, f1);
    } else {
      assert p * a == 0;
    }
    hide F1;
    F1NotFarBelow(t, a, b, p, r, f1);
  }

  /** With E = 20000 tp / (2 tp + fp + fn): the F1 computed from the floored precision and
      recall is at most the floor of E, and less than three below E. */
  lemma {:induction false} F1Accuracy(tp: nat, fp: nat, fn: nat)
    requires 2 * tp + fp + fn > 0
    ensures var n := 2 * tp + fp + fn;
            var f1 := F1(Bps(tp, tp + fp), Bps(tp, tp + fn));
            f1 <= 20000 * tp / n && 20000 * tp < (f1 + 3) * n
  {
    var a, b, n := tp + fp, tp + fn, 2 * tp + fp + fn;
    BpsInRange(tp, a);
    BpsInRange(tp, b);
    var f1 := F1(Bps(tp, a), Bps(tp, b));
    if tp > 0 {
      DivisionFloors(10000 * tp, a);
      DivisionFloors(10000 * tp, b);
      F1OfFloors(10000 * tp, a, b, Bps(tp, a), Bps(tp, b));
      assert a + b == n;
    } else {
      NothingFound(a, b);
    }
    hide F1, Bps;
    DivisionFloors(20000 * tp, n);
    FloorAtLeast(20000 * tp / n, 20000 * tp, n, f1);
  }

  lemma NothingFound(a: nat, b: nat)
    ensures F1(Bps(0, a), Bps(0, b)) == 0
  {
  }
}
