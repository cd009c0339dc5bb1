/**
 * The integration loops of `Simulation_universe` (identical in
 * ts/class/simulation/simulation_universe.js and src/main.js):
 * `runge_kutta_universe_1` marches `x` forward from `x_0` by `push`, then
 * backward from `x_0` by `unshift`, while `x` stays in the interval;
 * `runge_kutta_universe_2` does the same for a second-order equation while
 * `y` stays in the interval.  Also the in-place rescaling of the abscissae to
 * years that `compute_scale_factor` / `compute_a_tau` apply.
 */
module UniverseSeries {
  import opened RealMath
  import opened Integrator
  import Cosmology

  /** The loop guard `interval[0] <= v && v < interval[1]`. */
  predicate InRange(v: real, lo: real, hi: real) {
    lo <= v && v < hi
  }

  /** How many whole steps of length `|step|` remain before `v` leaves `[lo, hi)` travelling with `step`. */
  function StepsLeft(v: real, step: real, lo: real, hi: real): int
    requires step != 0.0
  {
    if step > 0.0 then ((hi - v) / step).Floor else ((v - lo) / (-step)).Floor
  }

  /** `a / b == q` as soon as `q` multiplies back to `a`. */
  lemma QuotientUnique(a: real, b: real, q: real)
    requires b != 0.0 && q * b == a
    ensures a / b == q
  {
    assert (a / b) * b == a;
    assert (a / b - q) * b == 0.0;
    ZeroProduct(a / b - q, b);
  }

  /** Each in-range step brings the march one step closer to leaving the interval. */
  lemma StepsLeftDecreases(v: real, step: real, lo: real, hi: real)
    requires step != 0.0 && InRange(v, lo, hi)
    ensures 0 <= StepsLeft(v, step, lo, hi)
    ensures InRange(v + step, lo, hi) ==> StepsLeft(v + step, step, lo, hi) < StepsLeft(v, step, lo, hi)
  {
    if step > 0.0 {
      var q := (hi - v) / step;
      assert q * step == hi - v;
      assert q > 0.0;
      assert (q - 1.0) * step == hi - (v + step);
      QuotientUnique(hi - (v + step), step, q - 1.0);
    } else {
      var s := -step;
      var q := (v - lo) / s;
      assert q * s == v - lo;
      assert q >= 0.0;
      assert (q - 1.0) * s == (v + step) - lo;
      QuotientUnique((v + step) - lo, s, q - 1.0);
    }
  }

  /** Consecutive abscissae differ by `step`. */
  predicate Grid(x: seq<real>, step: real) {
    forall k :: 0 <= k < |x| - 1 ==> x[k + 1] == x[k] + step
  }

  /** Every entry strictly between the two ends of `v` lies in `[lo, hi)`. */
  predicate Interior(v: seq<real>, lo: real, hi: real) {
    forall k :: 0 < k < |v| - 1 ==> InRange(v[k], lo, hi)
  }

  /** `runge_kutta_equation_order1` as a stepper `(h, x, y) ↦ y(x + h)`; its abscissa is always `x + h`. */
  function RungeKuttaStepper1(f: (real, real) -> real): (real, real, real) -> real {
    (h: real, a: real, b: real) => RungeKutta1(h, a, b, f).1
  }

  /** `runge_kutta_equation_order2` as a stepper `(h, x, y, y') ↦ (y, y')(x + h)`. */
  function RungeKuttaStepper2(f: (real, real, real) -> real): (real, real, real, real) -> (real, real) {
    (h: real, a: real, b: real, c: real) => (RungeKutta2(h, a, b, c, f).1, RungeKutta2(h, a, b, c, f).2)
  }

  /**
   * The shape a first-order march with stepper `g` leaves: abscissae on a grid
   * of `step`, entries right of the seed index `p` one step of `step` from
   * their left neighbour, entries left of it one step of `-step` from their
   * right neighbour.
   */
  ghost predicate Shape1(x: seq<real>, y: seq<real>, p: nat, step: real, g: (real, real, real) -> real) {
    && |x| == |y| && p < |x|
    && Grid(x, step)
    && (forall k :: p <= k < |x| - 1 ==> y[k + 1] == g(step, x[k], y[k]))
    && (forall k :: 0 <= k < p ==> y[k] == g(-step, x[k + 1], y[k + 1]))
  }

  /** The shape `runge_kutta_universe_1` leaves: `Shape1` for the RK4 step of `funct`. */
  ghost predicate Series1(x: seq<real>, y: seq<real>, p: nat, step: real, f: (real, real) -> real) {
    Shape1(x, y, p, step, RungeKuttaStepper1(f))
  }

  /** `Series1` spelled out with `runge_kutta_equation_order1` itself, abscissa included. */
  lemma Series1Steps(x: seq<real>, y: seq<real>, p: nat, step: real, f: (real, real) -> real)
    requires Series1(x, y, p, step, f)
    ensures forall k :: p <= k < |x| - 1 ==> (x[k + 1], y[k + 1]) == RungeKutta1(step, x[k], y[k], f)
    ensures forall k :: 0 <= k < p ==> RungeKutta1(-step, x[k + 1], y[k + 1], f) == (x[k], y[k])
  {
    forall k | p <= k < |x| - 1
      ensures (x[k + 1], y[k + 1]) == RungeKutta1(step, x[k], y[k], f)
    {
      assert y[k + 1] == RungeKuttaStepper1(f)(step, x[k], y[k]);
      assert x[k + 1] == x[k] + step;
    }
    forall k | 0 <= k < p
      ensures RungeKutta1(-step, x[k + 1], y[k + 1], f) == (x[k], y[k])
    {
      assert y[k] == RungeKuttaStepper1(f)(-step, x[k + 1], y[k + 1]);
      assert x[k + 1] == x[k] + step;
    }
  }

  /** `push` of one forward step keeps the shape. */
  lemma Shape1Push(x: seq<real>, y: seq<real>, p: nat, step: real, g: (real, real, real) -> real)
    requires Shape1(x, y, p, step, g)
    ensures Shape1(x + [x[|x| - 1] + step], y + [g(step, x[|x| - 1], y[|y| - 1])], p, step, g)
  {
    var x', y' := x + [x[|x| - 1] + step], y + [g(step, x[|x| - 1], y[|y| - 1])];
    assert forall k :: 0 <= k < |x| ==> x'[k] == x[k] && y'[k] == y[k];
  }

  /**
   * `unshift` of one backward step keeps the shape, with the seed one index
   * further right; while the first `x` is in range the interior stays in range.
   */
  lemma Shape1Unshift(x: seq<real>, y: seq<real>, p: nat, step: real, g: (real, real, real) -> real,
                      lo: real, hi: real)
    requires Shape1(x, y, p, step, g)
    requires Interior(x, lo, hi) && InRange(x[0], lo, hi)
    ensures var x', y' := [x[0] - step] + x, [g(-step, x[0], y[0])] + y;
      && Shape1(x', y', p + 1, step, g)
      && Interior(x', lo, hi)
      && x'[p + 1] == x[p] && y'[p + 1] == y[p]
      && x'[|x|] == x[|x| - 1]
  {
    var x', y' := [x[0] - step] + x, [g(-step, x[0], y[0])] + y;
    assert forall k :: 0 < k < |x'| ==> x'[k] == x[k - 1] && y'[k] == y[k - 1];
    assert x'[1] == x'[0] + step;
    assert y'[0] == g(-step, x'[1], y'[1]);
  }

  /** The `push` loop of `runge_kutta_universe_1`: march forward from the seed while `x` is in range. */
  method March1Forward(step: real, x0: real, y0: real, g: (real, real, real) -> real, lo: real, hi: real)
    returns (x: seq<real>, y: seq<real>)
    requires step != 0.0 || !InRange(x0, lo, hi)
    ensures Shape1(x, y, 0, step, g) && x[0] == x0 && y[0] == y0
    ensures forall k :: 0 <= k < |x| - 1 ==> InRange(x[k], lo, hi)
    ensures !InRange(x[|x| - 1], lo, hi)
  {
    x := [x0];
    y := [y0];
    var i := 0;
    while lo <= x[i] && x[i] < hi
      invariant Shape1(x, y, 0, step, g) && |x| == i + 1
      invariant x[0] == x0 && y[0] == y0
      invariant forall k :: 0 <= k < i ==> InRange(x[k], lo, hi)
      invariant step == 0.0 ==> i == 0
      decreases if step != 0.0 && InRange(x[i], lo, hi) then StepsLeft(x[i], step, lo, hi) + 1 else 0
    {
      StepsLeftDecreases(x[i], step, lo, hi);
      Shape1Push(x, y, 0, step, g);
      var yNext := g(step, x[i], y[i]);
      x := x + [x[i] + step];
      y := y + [yNext];
      i := i + 1;
    }
  }

  /** The `unshift` loop of `runge_kutta_universe_1`: extend a series backward while its first `x` is in range. */
  method March1Backward(step: real, x: seq<real>, y: seq<real>, ghost p: nat, g: (real, real, real) -> real,
                        lo: real, hi: real)
    returns (x': seq<real>, y': seq<real>, ghost p': nat)
    requires Shape1(x, y, p, step, g) && Interior(x, lo, hi) && !InRange(x[|x| - 1], lo, hi)
    requires step != 0.0 || |x| == 1
    ensures Shape1(x', y', p', step, g) && Interior(x', lo, hi)
    ensures p' - p == |x'| - |x| >= 0 && x'[p'] == x[p] && y'[p'] == y[p]
    ensures !InRange(x[0], lo, hi) ==> x' == x && p' == p
    ensures !InRange(x'[0], lo, hi) && !InRange(x'[|x'| - 1], lo, hi)
  {
    x', y', p' := x, y, p;
    while lo <= x'[0] && x'[0] < hi
      invariant Shape1(x', y', p', step, g) && Interior(x', lo, hi)
      invariant p' - p == |x'| - |x| >= 0 && x'[p'] == x[p] && y'[p'] == y[p]
      invariant !InRange(x[0], lo, hi) ==> x' == x && p' == p
      invariant !InRange(x'[|x'| - 1], lo, hi)
      invariant step == 0.0 ==> |x'| == 1
      decreases if step != 0.0 && InRange(x'[0], lo, hi) then StepsLeft(x'[0], -step, lo, hi) + 1 else 0
    {
      StepsLeftDecreases(x'[0], -step, lo, hi);
      Shape1Unshift(x', y', p', step, g, lo, hi);
      var yPrev := g(-step, x'[0], y'[0]);
      x' := [x'[0] - step] + x';
      y' := [yPrev] + y';
      p' := p' + 1;
    }
  }

  /**
   * `runge_kutta_universe_1(step, x_0, y_0, funct, interval)`.  The result has
   * the shape `Series1` with the seed `(x_0, y_0)` at index `p`; every entry
   * strictly inside the series lies in the interval, both ends lie outside it,
   * and the series is a single point exactly when the seed is outside.  A zero
   * step with the seed inside would loop forever in the source, hence the
   * precondition.  The abscissa RK4 returns is always `x + step`
   * (`Integrator.RungeKutta1`), so the march computes it directly.
   */
  method RungeKuttaUniverse1(step: real, x0: real, y0: real, f: (real, real) -> real, lo: real, hi: real)
    returns (x: seq<real>, y: seq<real>, ghost p: nat)
    requires step != 0.0 || !InRange(x0, lo, hi)
    ensures Series1(x, y, p, step, f) && x[p] == x0 && y[p] == y0
    ensures Interior(x, lo, hi)
    ensures |x| == 1 <==> !InRange(x0, lo, hi)
    ensures 1 < |x| ==> !InRange(x[0], lo, hi) && !InRange(x[|x| - 1], lo, hi)
    ensures 0.0 < step && InRange(x0, lo, hi) ==> x[0] < lo && hi <= x[|x| - 1]
  {
    var g := RungeKuttaStepper1(f);
    var xs, ys := March1Forward(step, x0, y0, g, lo, hi);
    assert Interior(xs, lo, hi);
    x, y, p := March1Backward(step, xs, ys, 0, g, lo, hi);
    if InRange(x0, lo, hi) {
      assert 1 < |xs| && 1 < |x|;
      if 0.0 < step {
        assert InRange(x[1], lo, hi);
        assert InRange(x[|x| - 2], lo, hi);
        assert x[1] == x[0] + step;
        assert x[|x| - 1] == x[|x| - 2] + step;
      }
    } else {
      assert |x| == 1;
    }
  }

  /** The shape of a second-order march with stepper `g`, with `(y, dy)` advanced together. */
  ghost predicate Shape2(x: seq<real>, y: seq<real>, dy: seq<real>, p: nat, step: real,
                         g: (real, real, real, real) -> (real, real)) {
    && |x| == |y| == |dy| && p < |x|
    && Grid(x, step)
    && (forall k :: p <= k < |x| - 1 ==> (y[k + 1], dy[k + 1]) == g(step, x[k], y[k], dy[k]))
    && (forall k :: 0 <= k < p ==> (y[k], dy[k]) == g(-step, x[k + 1], y[k + 1], dy[k + 1]))
  }

  /** The shape `runge_kutta_universe_2` leaves: `Shape2` for the RK4 step of `funct`. */
  ghost predicate Series2(x: seq<real>, y: seq<real>, dy: seq<real>, p: nat, step: real, f: (real, real, real) -> real) {
    Shape2(x, y, dy, p, step, RungeKuttaStepper2(f))
  }

  /** `Series2` spelled out with `runge_kutta_equation_order2` itself, abscissa included. */
  lemma Series2Steps(x: seq<real>, y: seq<real>, dy: seq<real>, p: nat, step: real, f: (real, real, real) -> real)
    requires Series2(x, y, dy, p, step, f)
    ensures forall k :: p <= k < |x| - 1 ==> (x[k + 1], y[k + 1], dy[k + 1]) == RungeKutta2(step, x[k], y[k], dy[k], f)
    ensures forall k :: 0 <= k < p ==> RungeKutta2(-step, x[k + 1], y[k + 1], dy[k + 1], f) == (x[k], y[k], dy[k])
  {
    forall k | p <= k < |x| - 1
      ensures (x[k + 1], y[k + 1], dy[k + 1]) == RungeKutta2(step, x[k], y[k], dy[k], f)
    {
      assert (y[k + 1], dy[k + 1]) == RungeKuttaStepper2(f)(step, x[k], y[k], dy[k]);
      assert x[k + 1] == x[k] + step;
    }
    forall k | 0 <= k < p
      ensures RungeKutta2(-step, x[k + 1], y[k + 1], dy[k + 1], f) == (x[k], y[k], dy[k])
    {
      assert (y[k], dy[k]) == RungeKuttaStepper2(f)(-step, x[k + 1], y[k + 1], dy[k + 1]);
      assert x[k + 1] == x[k] + step;
    }
  }

  /** `push` of one forward step keeps the shape. */
  lemma Shape2Push(x: seq<real>, y: seq<real>, dy: seq<real>, p: nat, step: real,
                   g: (real, real, real, real) -> (real, real))
    requires Shape2(x, y, dy, p, step, g)
    ensures var r := g(step, x[|x| - 1], y[|y| - 1], dy[|dy| - 1]);
      Shape2(x + [x[|x| - 1] + step], y + [r.0], dy + [r.1], p, step, g)
  {
    var r := g(step, x[|x| - 1], y[|y| - 1], dy[|dy| - 1]);
    var x', y', dy' := x + [x[|x| - 1] + step], y + [r.0], dy + [r.1];
    assert forall k :: 0 <= k < |x| ==> x'[k] == x[k] && y'[k] == y[k] && dy'[k] == dy[k];
  }

  /**
   * `unshift` of one backward step keeps the shape, with the seed one index
   * further right; while the first `y` is in range the interior stays in range.
   */
  lemma Shape2Unshift(x: seq<real>, y: seq<real>, dy: seq<real>, p: nat, step: real,
                      g: (real, real, real, real) -> (real, real), lo: real, hi: real)
    requires Shape2(x, y, dy, p, step, g)
    requires Interior(y, lo, hi) && InRange(y[0], lo, hi)
    ensures var r := g(-step, x[0], y[0], dy[0]);
      var x', y', dy' := [x[0] - step] + x, [r.0] + y, [r.1] + dy;
      && Shape2(x', y', dy', p + 1, step, g)
      && Interior(y', lo, hi)
      && x'[p + 1] == x[p] && y'[p + 1] == y[p] && dy'[p + 1] == dy[p]
      && y'[|y|] == y[|y| - 1]
  {
    var r := g(-step, x[0], y[0], dy[0]);
    var x', y', dy' := [x[0] - step] + x, [r.0] + y, [r.1] + dy;
    assert forall k :: 0 < k < |x'| ==> x'[k] == x[k - 1] && y'[k] == y[k - 1] && dy'[k] == dy[k - 1];
    assert x'[1] == x'[0] + step;
    assert (y'[0], dy'[0]) == g(-step, x'[1], y'[1], dy'[1]);
  }

  /** The `push` loop of `runge_kutta_universe_2`, for at most `fuel` rounds. */
  method March2Forward(step: real, x0: real, y0: real, dy0: real, g: (real, real, real, real) -> (real, real),
                       lo: real, hi: real, fuel: nat)
    returns (x: seq<real>, y: seq<real>, dy: seq<real>)
    ensures Shape2(x, y, dy, 0, step, g) && x[0] == x0 && y[0] == y0 && dy[0] == dy0
    ensures forall k :: 0 <= k < |x| - 1 ==> InRange(y[k], lo, hi)
    ensures |x| - 1 <= fuel && (|x| - 1 < fuel ==> !InRange(y[|x| - 1], lo, hi))
  {
    x := [x0];
    y := [y0];
    dy := [dy0];
    var i := 0;
    while lo <= y[i] && y[i] < hi && i < fuel
      invariant Shape2(x, y, dy, 0, step, g) && |x| == i + 1 && i <= fuel
      invariant x[0] == x0 && y[0] == y0 && dy[0] == dy0
      invariant forall k :: 0 <= k < i ==> InRange(y[k], lo, hi)
      decreases fuel - i
    {
      Shape2Push(x, y, dy, 0, step, g);
      var r := g(step, x[i], y[i], dy[i]);
      x := x + [x[i] + step];
      y := y + [r.0];
      dy := dy + [r.1];
      i := i + 1;
    }
  }

  /** The `unshift` loop of `runge_kutta_universe_2`, for at most `fuel` rounds. */
  method March2Backward(step: real, x: seq<real>, y: seq<real>, dy: seq<real>, ghost p: nat,
                        g: (real, real, real, real) -> (real, real), lo: real, hi: real, fuel: nat)
    returns (x': seq<real>, y': seq<real>, dy': seq<real>, ghost p': nat)
    requires Shape2(x, y, dy, p, step, g) && Interior(y, lo, hi)
    ensures Shape2(x', y', dy', p', step, g) && Interior(y', lo, hi)
    ensures p' - p == |x'| - |x| && 0 <= p' - p <= fuel
    ensures x'[p'] == x[p] && y'[p'] == y[p] && dy'[p'] == dy[p]
    ensures y'[|y'| - 1] == y[|y| - 1]
    ensures p' - p < fuel ==> !InRange(y'[0], lo, hi)
  {
    x', y', dy', p' := x, y, dy, p;
    var j := 0;
    while lo <= y'[0] && y'[0] < hi && j < fuel
      invariant p' - p == j == |x'| - |x| && j <= fuel
      invariant Shape2(x', y', dy', p', step, g) && Interior(y', lo, hi)
      invariant x'[p'] == x[p] && y'[p'] == y[p] && dy'[p'] == dy[p]
      invariant y'[|y'| - 1] == y[|y| - 1]
      decreases fuel - j
    {
      Shape2Unshift(x', y', dy', p', step, g, lo, hi);
      var r := g(-step, x'[0], y'[0], dy'[0]);
      x' := [x'[0] - step] + x';
      y' := [r.0] + y';
      dy' := [r.1] + dy';
      p', j := p' + 1, j + 1;
    }
  }

  /**
   * `runge_kutta_universe_2(step, x_0, y_0, dy_0, funct, interval)`.  The
   * loops are guarded by `y`, whose course the model cannot bound, so each
   * loop here also stops after `fuel` rounds; a loop that stopped before using
   * its fuel stopped because `y` left the interval.  The result has the shape
   * `Series2` with the seed at index `p`, and every entry strictly inside it
   * has `y` in the interval.
   */
  method RungeKuttaUniverse2(step: real, x0: real, y0: real, dy0: real, f: (real, real, real) -> real,
                             lo: real, hi: real, fuel: nat)
    returns (x: seq<real>, y: seq<real>, dy: seq<real>, ghost p: nat)
    ensures Series2(x, y, dy, p, step, f) && x[p] == x0 && y[p] == y0 && dy[p] == dy0
    ensures Interior(y, lo, hi)
    ensures p <= fuel && |x| - 1 - p <= fuel
    ensures |x| - 1 - p < fuel ==> !InRange(y[|x| - 1], lo, hi)
    ensures p < fuel ==> !InRange(y[0], lo, hi)
  {
    var g := RungeKuttaStepper2(f);
    var xs, ys, dys := March2Forward(step, x0, y0, dy0, g, lo, hi, fuel);
    assert Interior(ys, lo, hi);
    x, y, dy, p := March2Backward(step, xs, ys, dys, 0, g, lo, hi, fuel);
  }

  /**
   * The loop of `compute_scale_factor` (`compute_a_tau` in the bundle) that
   * rewrites every abscissa `τ` in place as `(τ/H₀ + age)` seconds, in years.
   */
  method RescaleToYears(m: Math, x: seq<real>, hubble: real, age: real) returns (r: seq<real>)
    ensures |r| == |x|
    ensures forall k :: 0 <= k < |r| ==> r[k] == (m.Div(x[k], hubble) + age) / Cosmology.YearSeconds
  {
    r := x;
    for index := 0 to |r|
      invariant |r| == |x|
      invariant forall k :: 0 <= k < index ==> r[k] == (m.Div(x[k], hubble) + age) / Cosmology.YearSeconds
      invariant forall k :: index <= k < |r| ==> r[k] == x[k]
    {
      r := r[index := (m.Div(r[index], hubble) + age) / Cosmology.YearSeconds];
    }
  }

  /** Rescaling a grid of spacing `step` gives a grid of spacing `step/H₀` seconds, in years. */
  lemma RescaledGrid(m: Math, x: seq<real>, r: seq<real>, hubble: real, age: real, step: real)
    requires hubble != 0.0 && |r| == |x|
    requires Grid(x, step)
    requires forall k :: 0 <= k < |r| ==> r[k] == (m.Div(x[k], hubble) + age) / Cosmology.YearSeconds
    ensures Grid(r, (step / hubble) / Cosmology.YearSeconds)
  {
    forall k | 0 <= k < |r| - 1
      ensures r[k + 1] == r[k] + (step / hubble) / Cosmology.YearSeconds
    {
      assert x[k + 1] / hubble == x[k] / hubble + step / hubble;
    }
  }
}
