/**
 * The generic integrator of js/class/simulation/simulation.js (the same code is
 * bundled in src/main.js): one fourth-order Runge-Kutta step for first- and
 * second-order equations, and the composite Simpson rule whose loops stop at
 * `i < n`.
 *
 * The right-hand side is a function value.  The source passes the simulation
 * object as a first argument to it; here that object is captured by the
 * closure the caller builds.
 */
module Integrator {

  // ---------------------------------------------------------------------
  // Runge-Kutta steps
  // ---------------------------------------------------------------------

  /** One RK4 step of `dy/dx = f(x, y)`; the result is `(x_1, y_1)`. */
  function RungeKutta1(step: real, x0: real, y0: real, f: (real, real) -> real): (r: (real, real))
    ensures r.0 == x0 + step
  {
    var k1 := f(x0, y0);
    var k2 := f(x0 + step / 2.0, y0 + step / 2.0 * k1);
    var k3 := f(x0 + step / 2.0, y0 + step / 2.0 * k2);
    var k4 := f(x0 + step, y0 + step * k3);
    (x0 + step, y0 + step * ((1.0 / 6.0) * k1 + (1.0 / 3.0) * k2 + (1.0 / 3.0) * k3 + (1.0 / 6.0) * k4))
  }

  /** One RK4 step of `y'' = f(x, y, y')`; the result is `(x_1, y_1, y'_1)`. */
  function RungeKutta2(step: real, x0: real, y0: real, dy0: real, f: (real, real, real) -> real): (r: (real, real, real))
    ensures r.0 == x0 + step
  {
    var k1 := f(x0, y0, dy0);
    var k2 := f(x0 + step / 2.0, y0 + step / 2.0 * dy0, dy0 + step / 2.0 * k1);
    var k3 := f(x0 + step / 2.0, y0 + step / 2.0 * dy0 + step * step / 4.0 * k1, dy0 + step / 2.0 * k2);
    var k4 := f(x0 + step, y0 + step * dy0 + step * step / 2.0 * k2, dy0 + step * k3);
    (x0 + step,
     y0 + step * dy0 + step * step / 6.0 * (k1 + k2 + k3),
     dy0 + step / 6.0 * (k1 + 2.0 * k2 + 2.0 * k3 + k4))
  }

  /** A constant slope `C` is integrated exactly: the four weights sum to one. */
  lemma RungeKutta1ConstantSlope(step: real, x0: real, y0: real, f: (real, real) -> real, C: real)
    requires forall x: real, y: real :: f(x, y) == C
    ensures RungeKutta1(step, x0, y0, f) == (x0 + step, y0 + step * C)
  {
    var k1 := f(x0, y0);
    var k2 := f(x0 + step / 2.0, y0 + step / 2.0 * k1);
    var k3 := f(x0 + step / 2.0, y0 + step / 2.0 * k2);
    var k4 := f(x0 + step, y0 + step * k3);
    assert k1 == C && k2 == C && k3 == C && k4 == C;
    assert (1.0 / 6.0) * k1 + (1.0 / 3.0) * k2 + (1.0 / 3.0) * k3 + (1.0 / 6.0) * k4 == C;
    assert RungeKutta1(step, x0, y0, f).1 == y0 + step * ((1.0 / 6.0) * k1 + (1.0 / 3.0) * k2 + (1.0 / 3.0) * k3 + (1.0 / 6.0) * k4);
    assert RungeKutta1(step, x0, y0, f).1 == y0 + step * C;
    assert RungeKutta1(step, x0, y0, f).0 == x0 + step;
  }

  /**
   * On a right-hand side that ignores `y`, one step is one panel of Simpson's
   * rule over `[x0, x0 + step]`.
   */
  lemma RungeKutta1IsSimpsonPanel(step: real, x0: real, y0: real, f: (real, real) -> real, g: real -> real)
    requires forall x: real, y: real :: f(x, y) == g(x)
    ensures RungeKutta1(step, x0, y0, f).1
      == y0 + step / 6.0 * (g(x0) + 4.0 * g(x0 + step / 2.0) + g(x0 + step))
  {
  }

  /** A step of length zero returns the input point. */
  lemma RungeKutta1ZeroStep(x0: real, y0: real, f: (real, real) -> real)
    ensures RungeKutta1(0.0, x0, y0, f) == (x0, y0)
  {
  }

  /** A constant second derivative `C` is integrated exactly (uniform acceleration). */
  lemma RungeKutta2ConstantAcceleration(step: real, x0: real, y0: real, dy0: real, f: (real, real, real) -> real, C: real)
    requires forall x: real, y: real, dy: real :: f(x, y, dy) == C
    ensures RungeKutta2(step, x0, y0, dy0, f)
      == (x0 + step, y0 + step * dy0 + step * step * C / 2.0, dy0 + step * C)
  {
    var k1 := f(x0, y0, dy0);
    var k2 := f(x0 + step / 2.0, y0 + step / 2.0 * dy0, dy0 + step / 2.0 * k1);
    var k3 := f(x0 + step / 2.0, y0 + step / 2.0 * dy0 + step * step / 4.0 * k1, dy0 + step / 2.0 * k2);
    var k4 := f(x0 + step, y0 + step * dy0 + step * step / 2.0 * k2, dy0 + step * k3);
    assert k1 == C && k2 == C && k3 == C && k4 == C;
    assert step * step / 6.0 * (C + C + C) == step * step * C / 2.0;
    assert step / 6.0 * (C + 2.0 * C + 2.0 * C + C) == step * C;
    assert RungeKutta2(step, x0, y0, dy0, f).1 == y0 + step * dy0 + step * step / 6.0 * (k1 + k2 + k3);
    assert RungeKutta2(step, x0, y0, dy0, f).2 == dy0 + step / 6.0 * (k1 + 2.0 * k2 + 2.0 * k3 + k4);
    assert RungeKutta2(step, x0, y0, dy0, f).1 == y0 + step * dy0 + step * step * C / 2.0;
    assert RungeKutta2(step, x0, y0, dy0, f).2 == dy0 + step * C;
  }

  /** A step of length zero returns the input state. */
  lemma RungeKutta2ZeroStep(x0: real, y0: real, dy0: real, f: (real, real, real) -> real)
    ensures RungeKutta2(0.0, x0, y0, dy0, f) == (x0, y0, dy0)
  {
  }

  // ---------------------------------------------------------------------
  // Simpson's rule: the weighted sums shared by both revisions
  // ---------------------------------------------------------------------

  /** The weight of sample `i` out of `0..n`: 1 at either end, 4 at odd and 2 at even interior indices. */
  function Weight(i: nat, n: nat): (w: real)
    ensures w == 1.0 || w == 2.0 || w == 4.0
    ensures 0 < i < n ==> (w == 4.0 <==> i % 2 == 1)
  {
    if i == 0 || i == n then 1.0 else if i % 2 != 0 then 4.0 else 2.0
  }

  /** The abscissa of sample `i` on the grid starting at `a` with spacing `h`. */
  function Node(a: real, h: real, i: nat): real {
    a + (i as real) * h
  }

  /** Consecutive nodes are `h` apart. */
  lemma NodeNext(a: real, h: real, i: nat)
    ensures Node(a, h, i + 1) == Node(a, h, i) + h
  {
    assert ((i + 1) as real) * h == (i as real) * h + h;
  }

  /** `Σ_{i < k} Weight(i, n) · f(a + i·h)`: what the accumulating loop has added after `k` rounds. */
  function WeightedSum(f: real -> real, a: real, h: real, n: nat, k: nat): real
    decreases k
  {
    if k == 0 then 0.0 else WeightedSum(f, a, h, n, k - 1) + Weight(k - 1, n) * f(Node(a, h, k - 1))
  }

  /** Two integrands that agree on the first `k` nodes give the same weighted sum. */
  lemma {:induction false} WeightedSumOnNodes(f: real -> real, g: real -> real, a: real, h: real, n: nat, k: nat)
    requires forall i: nat :: i < k ==> f(Node(a, h, i)) == g(Node(a, h, i))
    ensures WeightedSum(f, a, h, n, k) == WeightedSum(g, a, h, n, k)
  {
    if k > 0 {
      WeightedSumOnNodes(f, g, a, h, n, k - 1);
      assert f(Node(a, h, k - 1)) == g(Node(a, h, k - 1));
    }
  }

  /** The weights of the first `k <= n` samples add up to `2k - 1 + 2⌊k/2⌋`. */
  lemma {:induction false} ConstantWeightedSum(f: real -> real, C: real, a: real, h: real, n: nat, k: nat)
    requires forall x: real :: f(x) == C
    requires 1 <= k <= n
    ensures WeightedSum(f, a, h, n, k) == C * ((2 * k - 1 + 2 * (k / 2)) as real)
  {
    if k == 1 {
      assert WeightedSum(f, a, h, n, 0) == 0.0;
    } else {
      ConstantWeightedSum(f, C, a, h, n, k - 1);
      assert f(Node(a, h, k - 1)) == C;
      if (k - 1) % 2 == 1 {
        assert Weight(k - 1, n) == 4.0;
        assert k / 2 == (k - 1) / 2 + 1;
      } else {
        assert Weight(k - 1, n) == 2.0;
        assert k / 2 == (k - 1) / 2;
      }
    }
  }

  /** Two grid nodes of a non-degenerate grid `a + i·(b - a)/n` differ when their indices do. */
  lemma NodeReachesSupremumOnlyAtN(a: real, b: real, n: nat, i: nat)
    requires n > 0 && a != b
    ensures Node(a, (b - a) / (n as real), i) == b <==> i == n
  {
    var h := (b - a) / (n as real);
    assert h * (n as real) == b - a;
    assert h != 0.0;
    if Node(a, h, i) == b {
      assert (i as real) * h == (n as real) * h;
      assert ((i as real) - (n as real)) * h == 0.0;
    }
  }

  // ---------------------------------------------------------------------
  // Simpson's rule as written in this revision (both loops stop at i < n)
  // ---------------------------------------------------------------------

  /** The value the `i < n` loops compute: the right end `supremum` never enters the sum. */
  function SimpsonRule(f: real -> real, infimum: real, supremum: real, n: nat): real
    requires n > 0
  {
    var h := (supremum - infimum) / (n as real);
    WeightedSum(f, infimum, h, n, n) * h / 3.0
  }

  /** The sampling loop of both `simpson` revisions: `x[i] = a + i·h` and `y[i] = f(x[i])` for `i < count`. */
  method Sample(f: real -> real, a: real, h: real, count: nat) returns (x: array<real>, y: array<real>)
    ensures fresh(x) && fresh(y) && x.Length == count && y.Length == count
    ensures forall j :: 0 <= j < count ==> x[j] == Node(a, h, j)
    ensures forall j :: 0 <= j < count ==> y[j] == f(Node(a, h, j))
  {
    x := new real[count];
    y := new real[count];
    for i := 0 to count
      invariant forall j :: 0 <= j < i ==> x[j] == Node(a, h, j)
      invariant forall j :: 0 <= j < i ==> y[j] == f(Node(a, h, j))
    {
      x[i] := Node(a, h, i);
      y[i] := f(x[i]);
    }
  }

  /**
   * The accumulation loop of both `simpson` revisions: the samples at the ends
   * of `[0, n]` count once, odd ones four times, even ones twice.
   */
  method Accumulate(y: array<real>, f: real -> real, a: real, h: real, n: nat, count: nat) returns (res: real)
    requires y.Length == count
    requires forall j :: 0 <= j < count ==> y[j] == f(Node(a, h, j))
    ensures res == WeightedSum(f, a, h, n, count)
  {
    res := 0.0;
    for i := 0 to count
      invariant res == WeightedSum(f, a, h, n, i)
    {
      assert WeightedSum(f, a, h, n, i + 1) == res + Weight(i, n) * y[i];
      if i == 0 || i == n {
        res := res + y[i];
      } else if i % 2 != 0 {
        res := res + 4.0 * y[i];
      } else {
        res := res + 2.0 * y[i];
      }
    }
  }

  /** `simpson`: sample `f` at the first `n` nodes into two arrays, then accumulate the weighted sum. */
  method Simpson(f: real -> real, infimum: real, supremum: real, n: nat) returns (res: real)
    requires n > 0
    ensures res == SimpsonRule(f, infimum, supremum, n)
  {
    var step := (supremum - infimum) / (n as real);
    var x, y := Sample(f, infimum, step, n);
    res := Accumulate(y, f, infimum, step, n, n);
    res := res * step / 3.0;
  }

  /** The rule reads `f` only at the `n` nodes `infimum + i·step`, `0 <= i < n`. */
  lemma SimpsonRuleSamples(f: real -> real, g: real -> real, infimum: real, supremum: real, n: nat)
    requires n > 0
    requires forall i: nat {:trigger Node(infimum, (supremum - infimum) / (n as real), i)} :: i < n ==>
      f(Node(infimum, (supremum - infimum) / (n as real), i)) == g(Node(infimum, (supremum - infimum) / (n as real), i))
    ensures SimpsonRule(f, infimum, supremum, n) == SimpsonRule(g, infimum, supremum, n)
  {
    WeightedSumOnNodes(f, g, infimum, (supremum - infimum) / (n as real), n, n);
  }

  /** The value of `f` at `supremum` is never read: changing it there changes nothing. */
  lemma SimpsonRuleIgnoresSupremum(f: real -> real, g: real -> real, infimum: real, supremum: real, n: nat)
    requires n > 0 && infimum != supremum
    requires forall x: real :: x != supremum ==> f(x) == g(x)
    ensures SimpsonRule(f, infimum, supremum, n) == SimpsonRule(g, infimum, supremum, n)
  {
    var h := (supremum - infimum) / (n as real);
    forall i: nat | i < n
      ensures f(Node(infimum, h, i)) == g(Node(infimum, h, i))
    {
      NodeReachesSupremumOnlyAtN(infimum, supremum, n, i);
    }
    SimpsonRuleSamples(f, g, infimum, supremum, n);
  }

  /** A zero-width interval gives 0. */
  lemma SimpsonRuleZeroWidth(f: real -> real, x: real, n: nat)
    requires n > 0
    ensures SimpsonRule(f, x, x, n) == 0.0
  {
  }

  /**
   * For a constant integrand and an even `n`, the missing right-end term leaves
   * the result short of `C·(supremum - infimum)` by one part in `3n`.
   */
  lemma SimpsonRuleConstant(f: real -> real, C: real, infimum: real, supremum: real, n: nat)
    requires forall x: real :: f(x) == C
    requires n >= 2 && n % 2 == 0
    ensures SimpsonRule(f, infimum, supremum, n)
      == C * (supremum - infimum) * ((3 * n - 1) as real) / ((3 * n) as real)
  {
    var h := (supremum - infimum) / (n as real);
    ConstantWeightedSum(f, C, infimum, h, n, n);
    assert n / 2 * 2 == n;
    assert WeightedSum(f, infimum, h, n, n) == C * ((3 * n - 1) as real);
    assert ((3 * n) as real) == 3.0 * (n as real);
    Rescale(C, supremum - infimum, (3 * n - 1) as real, n as real);
  }

  /** `C·k·(d/N)/3 == C·d·k/(3N)`, kept apart so that the integrand is out of sight. */
  lemma Rescale(C: real, d: real, k: real, N: real)
    requires N != 0.0
    ensures C * k * (d / N) / 3.0 == C * d * k / (3.0 * N)
  {
    var q := d / N;
    assert q * N == d;
    assert (C * k * q / 3.0) * (3.0 * N) == C * k * (q * N);
  }
}
