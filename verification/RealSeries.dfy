/**
  Powers and geometric series of reals, as far as the waiting loops need them.  Multiplication goes
  under a name, `Times`, so that inductions can `hide` it.
 */
module RealSeries {

  function Times(a: real, b: real): real {
    a * b
  }

  lemma ProductNonNegative(a: real, b: real)
    requires a >= 0.0 && b >= 0.0
    ensures a * b >= 0.0
  {
  }

  lemma TimesMonotone(a: real, x: real, y: real)
    requires a > 0.0
    ensures x <= y <==> Times(a, x) <= Times(a, y)
    ensures x < y <==> Times(a, x) < Times(a, y)
  {
    assert a * y - a * x == a * (y - x);
  }

  function Pow(b: real, n: nat): real {
    if n == 0 then 1.0 else Times(b, Pow(b, n - 1))
  }

  lemma {:induction false} PowPositive(b: real, n: nat)
    requires b > 0.0
    ensures Pow(b, n) > 0.0
  {
    if n > 0 {
      PowPositive(b, n - 1);
    }
  }

  lemma PowerStep(b: real, i: real, p: real)
    ensures Times(i, p) * b == Times(i, Times(b, p))
  {
  }

  lemma Archimedes(x: real, step: real) returns (n: nat)
    requires step > 0.0
    ensures n as real * step >= x && n >= 1
  {
    var q := x / step;
    n := if q < 0.0 then 1 else q.Floor + 1;
    assert n as real >= q;
    assert q * step == x;
    assert (n as real - q) * step >= 0.0;
  }

  lemma BernoulliStep(b: real, c: real, p: real, m: real)
    requires 0.0 < b < 1.0 && c > 0.0 && b * (1.0 + c) == 1.0 && p > 0.0 && m >= 0.0
    requires Times(p, 1.0 + m * c) <= 1.0
    ensures Times(Times(b, p), 1.0 + (m + 1.0) * c) <= 1.0
  {
    var k := m * c;
    assert k >= 0.0;
    assert (m + 1.0) * c == k + c;
    assert b * (1.0 + (k + c)) == b * (1.0 + c) + b * k;
    assert b * k <= k;
    assert (b * p) * (1.0 + (k + c)) == p * (b * (1.0 + (k + c)));
    assert p * (1.0 + b * k) <= p * (1.0 + k);
  }

  /** Bernoulli's inequality for a base below one: with b * (1 + c) == 1, b^n * (1 + n*c) <= 1. */
  lemma {:induction false} Bernoulli(b: real, c: real, n: nat)
    requires 0.0 < b < 1.0 && c > 0.0 && b * (1.0 + c) == 1.0
    ensures Times(Pow(b, n), 1.0 + n as real * c) <= 1.0
  {
    if n > 0 {
      Bernoulli(b, c, n - 1);
      PowPositive(b, n - 1);
      BernoulliStep(b, c, Pow(b, n - 1), (n - 1) as real);
    }
  }

  lemma Squeeze(p: real, k: real, d: real)
    requires d > 0.0 && k >= 1.0 / d && p > 0.0 && Times(p, k) <= 1.0
    ensures p <= d
  {
    var q := 1.0 / d;
    var x := p * q;
    assert x <= p * k;
    assert q * d == 1.0;
    assert x * d == p * (q * d);
    ProductNonNegative(1.0 - x, d);
    assert (1.0 - x) * d == d - x * d;
  }

  /** Powers of a base below one get below every positive bound. */
  lemma PowVanishes(b: real, d: real) returns (n: nat)
    requires 0.0 < b < 1.0 && d > 0.0
    ensures Pow(b, n) <= d
  {
    var c := 1.0 / b - 1.0;
    assert b * (1.0 / b) == 1.0;
    assert c > 0.0;
    n := Archimedes(1.0 / d, c);
    Bernoulli(b, c, n);
    PowPositive(b, n);
    Squeeze(Pow(b, n), 1.0 + n as real * c, d);
  }

  /** x is i * (p - 1) / (b - 1), written without the division. */
  predicate IsSeries(b: real, i: real, p: real, x: real) {
    Times(b - 1.0, x) == Times(i, p - 1.0)
  }

  lemma GeometricStep(b: real, i: real, p: real, x: real)
    requires IsSeries(b, i, p, x)
    ensures IsSeries(b, i, Times(b, p), x + Times(i, p))
  {
    var t := i * p;
    assert (b - 1.0) * (x + t) == (b - 1.0) * x + (b - 1.0) * t;
    assert i * (p - 1.0) == t - i;
    assert (b - 1.0) * t == b * t - t;
    assert i * (b * p - 1.0) == i * (b * p) - i;
    PowerStep(b, i, p);
  }

  lemma SeriesParts(b: real, i: real, p: real, x: real)
    requires IsSeries(b, i, p, x)
    ensures Times(1.0 - b, x) == i - Times(i, p)
  {
    assert i * (p - 1.0) == i * p - i;
    assert (b - 1.0) * x == -((1.0 - b) * x);
  }

  lemma SeriesReaches(b: real, i: real, t: real, d: real, p: real, x: real)
    requires 0.0 < b < 1.0 && i > 0.0 && IsSeries(b, i, p, x)
    requires d == (i - Times(1.0 - b, t)) / i && p <= d
    ensures x >= t
  {
    assert Times(i, d) == i - Times(1.0 - b, t);
    hide Times, IsSeries;
    SeriesParts(b, i, p, x);
    TimesMonotone(i, p, d);
    TimesMonotone(1.0 - b, t, x);
  }

  lemma SeriesBelow(b: real, i: real, t: real, p: real, x: real)
    requires 0.0 < b < 1.0 && i > 0.0 && p > 0.0 && IsSeries(b, i, p, x)
    requires Times(1.0 - b, t) >= i
    ensures x < t
  {
    assert Times(i, 0.0) == 0.0;
    hide Times, IsSeries;
    SeriesParts(b, i, p, x);
    TimesMonotone(i, 0.0, p);
    TimesMonotone(1.0 - b, x, t);
  }
}
