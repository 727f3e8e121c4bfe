/*
 * The reference-vector adaptation schedule: adaptation runs when the
 * generation counter is a multiple of ceil(adaptationFrequency * maxIterations).
 */
module Schedule {

  /** std::ceil, on exact reals. */
  function Ceil(x: real): (c: int)
    ensures c as real - 1.0 < x <= c as real
  {
    -((-x).Floor)
  }

  /** The adaptation period ceil(adaptationFrequency * maxIterations). */
  function AdaptationPeriod(frequency: real, maxIterations: nat): (p: int)
    ensures p as real - 1.0 < frequency * maxIterations as real <= p as real
  {
    Ceil(frequency * maxIterations as real)
  }

  /** shouldAdaptReferenceVectors: the counter is a multiple of the period. */
  predicate ShouldAdapt(counter: nat, period: nat): (due: bool)
    requires period > 0
    ensures counter < period ==> (due <==> counter == 0)
  {
    counter % period == 0
  }

  /** The schedule repeats with the period, and fires at counter 0. */
  lemma ShouldAdaptPeriodic(counter: nat, period: nat)
    requires period > 0
    ensures ShouldAdapt(0, period)
    ensures ShouldAdapt(counter + period, period) == ShouldAdapt(counter, period)
  {
    assert (counter + period) % period == counter % period by {
      var q, r := counter / period, counter % period;
      assert counter + period == (q + 1) * period + r;
      DivModUnique(counter + period, period, q + 1, r);
    }
  }

  /** How many of the counters 0 .. n-1 trigger adaptation. */
  function Adaptations(n: nat, period: nat): nat
    requires period > 0
  {
    if n == 0 then 0 else Adaptations(n - 1, period) + (if ShouldAdapt(n - 1, period) then 1 else 0)
  }

  /** Division and remainder are determined by any decomposition x == q*d + r with 0 <= r < d. */
  lemma DivModUnique(x: int, d: int, q: int, r: int)
    requires d > 0 && 0 <= r < d && x == q * d + r
    ensures x / d == q && x % d == r
  {
    var q', r' := x / d, x % d;
    assert (q' - q) * d == r - r';
    MultipleBound(q' - q, d);
  }

  /** A non-zero multiple of d is at least d away from zero. */
  lemma MultipleBound(k: int, d: int)
    requires d > 0
    ensures k == 0 || k * d >= d || k * d <= -d
  {
    if k > 0 {
      PositiveMultiple(k, d);
    } else if k < 0 {
      PositiveMultiple(-k, d);
      assert k * d == -((-k) * d);
    }
  }

  lemma {:induction false} PositiveMultiple(k: nat, d: int)
    requires d > 0 && k >= 1
    ensures k * d >= d
  {
    if k > 1 {
      PositiveMultiple(k - 1, d);
      assert k * d == (k - 1) * d + d;
    }
  }

  /** Over n updates from counter 0, adaptation runs ceil(n / period) times. */
  lemma {:induction false} AdaptationsCount(n: nat, period: nat)
    requires period > 0
    ensures Adaptations(n, period) == (n + period - 1) / period
  {
    if n == 0 {
      DivModUnique(period - 1, period, 0, period - 1);
    } else {
      AdaptationsCount(n - 1, period);
      var m := n - 1;
      var q, r := m / period, m % period;
      assert m == q * period + r;
      if r == 0 {
        DivModUnique(m + period - 1, period, q, period - 1);
        DivModUnique(m + period, period, q + 1, 0);
      } else {
        DivModUnique(m + period - 1, period, q + 1, r - 1);
        DivModUnique(m + period, period, q + 1, r);
      }
    }
  }
}
