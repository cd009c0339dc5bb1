/**
 * The TypeScript revision of the integrator (ts/class/simulation/simulation.ts):
 * a second-order RK4 step that returns only `[y_1, y'_1]`, and a composite
 * Simpson rule whose loops run to `i <= n`, so both ends are sampled.
 */
module IntegratorTs {
  import opened Integrator

  /** `runge_kutta(funct, x_0, y_0, yp_0, h)`: one RK4 step of `y'' = f(x, y, y')`, returning `(y_1, y'_1)`. */
  function RungeKutta(f: (real, real, real) -> real, x0: real, y0: real, yp0: real, h: real): (r: (real, real))
  {
    var k1 := f(x0, y0, yp0);
    var k2 := f(x0 + h / 2.0, y0 + h / 2.0 * yp0, yp0 + h / 2.0 * k1);
    var k3 := f(x0 + h / 2.0, y0 + h / 2.0 * yp0 + h * h / 4.0 * k1, yp0 + h / 2.0 * k2);
    var k4 := f(x0 + h, y0 + h * yp0 + h * h / 2.0 * k2, yp0 + h * k3);
    (y0 + h * yp0 + h * h / 6.0 * (k1 + k2 + k3), yp0 + h / 6.0 * (k1 + 2.0 * k2 + 2.0 * k3 + k4))
  }

  /** The step is the js revision's second-order step without the abscissa. */
  lemma RungeKuttaIsOrder2Step(f: (real, real, real) -> real, x0: real, y0: real, yp0: real, h: real)
    ensures RungeKutta(f, x0, y0, yp0, h)
      == (RungeKutta2(h, x0, y0, yp0, f).1, RungeKutta2(h, x0, y0, yp0, f).2)
  {
    var k1 := f(x0, y0, yp0);
    var k2 := f(x0 + h / 2.0, y0 + h / 2.0 * yp0, yp0 + h / 2.0 * k1);
    var k3 := f(x0 + h / 2.0, y0 + h / 2.0 * yp0 + h * h / 4.0 * k1, yp0 + h / 2.0 * k2);
    var k4 := f(x0 + h, y0 + h * yp0 + h * h / 2.0 * k2, yp0 + h * k3);
    assert RungeKutta(f, x0, y0, yp0, h).0 == RungeKutta2(h, x0, y0, yp0, f).1;
    assert RungeKutta(f, x0, y0, yp0, h).1 == RungeKutta2(h, x0, y0, yp0, f).2;
  }

  /** A constant second derivative `C` is integrated exactly. */
  lemma RungeKuttaConstantAcceleration(f: (real, real, real) -> real, x0: real, y0: real, yp0: real, h: real, C: real)
    requires forall x: real, y: real, yp: real :: f(x, y, yp) == C
    ensures RungeKutta(f, x0, y0, yp0, h) == (y0 + h * yp0 + h * h * C / 2.0, yp0 + h * C)
  {
    RungeKuttaIsOrder2Step(f, x0, y0, yp0, h);
    RungeKutta2ConstantAcceleration(h, x0, y0, yp0, f, C);
  }

  /** A step of length zero returns `(y_0, y'_0)`. */
  lemma RungeKuttaZeroStep(f: (real, real, real) -> real, x0: real, y0: real, yp0: real)
    ensures RungeKutta(f, x0, y0, yp0, 0.0) == (y0, yp0)
  {
  }

  // ---------------------------------------------------------------------
  // Simpson's rule with `i <= n`
  // ---------------------------------------------------------------------

  /** The value the `i <= n` loops compute: all `n + 1` nodes, both ends with weight 1. */
  function SimpsonRule(f: real -> real, infimum: real, supremum: real, n: nat): real
    requires n > 0
  {
    var h := (supremum - infimum) / (n as real);
    WeightedSum(f, infimum, h, n, n + 1) * h / 3.0
  }

  /** `simpson`: sample `f` at the `n + 1` nodes into two arrays, then accumulate the weighted sum. */
  method Simpson(f: real -> real, infimum: real, supremum: real, n: nat) returns (res: real)
    requires n > 0
    ensures res == SimpsonRule(f, infimum, supremum, n)
  {
    var h := (supremum - infimum) / (n as real);
    var x, y := Sample(f, infimum, h, n + 1);
    res := Accumulate(y, f, infimum, h, n, n + 1);
    res := res * h / 3.0;
  }

  /** The last node of the grid is `supremum` itself. */
  lemma LastNodeIsSupremum(infimum: real, supremum: real, n: nat)
    requires n > 0
    ensures Node(infimum, (supremum - infimum) / (n as real), n) == supremum
  {
    var h := (supremum - infimum) / (n as real);
    assert h * (n as real) == supremum - infimum;
  }

  /** The rule reads `f` at exactly the `n + 1` nodes `infimum + i·h`, `0 <= i <= n`. */
  lemma SimpsonRuleSamples(f: real -> real, g: real -> real, infimum: real, supremum: real, n: nat)
    requires n > 0
    requires forall i: nat {:trigger Node(infimum, (supremum - infimum) / (n as real), i)} :: i <= n ==>
      f(Node(infimum, (supremum - infimum) / (n as real), i)) == g(Node(infimum, (supremum - infimum) / (n as real), i))
    ensures SimpsonRule(f, infimum, supremum, n) == SimpsonRule(g, infimum, supremum, n)
  {
    WeightedSumOnNodes(f, g, infimum, (supremum - infimum) / (n as real), n, n + 1);
  }

  /** Two integrands that agree on the first `n` nodes and differ by `d` at node `n`. */
  lemma WeightedSumReadsLast(f: real -> real, g: real -> real, a: real, h: real, n: nat, d: real)
    requires forall i: nat :: i < n ==> f(Node(a, h, i)) == g(Node(a, h, i))
    requires f(Node(a, h, n)) == g(Node(a, h, n)) + d
    ensures WeightedSum(f, a, h, n, n + 1) == WeightedSum(g, a, h, n, n + 1) + d
  {
    WeightedSumOnNodes(f, g, a, h, n, n);
    assert Weight(n, n) == 1.0;
  }

  /** Unlike the `i < n` revision, the value at `supremum` enters the result with weight `h/3`. */
  lemma SimpsonRuleReadsSupremum(f: real -> real, g: real -> real, infimum: real, supremum: real, n: nat, d: real)
    requires n > 0
    requires forall x: real :: f(x) == (if x == supremum then g(x) + d else g(x))
    ensures SimpsonRule(f, infimum, supremum, n)
      == SimpsonRule(g, infimum, supremum, n) + d * ((supremum - infimum) / (n as real)) / 3.0
  {
    var h := (supremum - infimum) / (n as real);
    if infimum == supremum {
      assert h == 0.0;
    } else {
      forall i: nat | i < n
        ensures f(Node(infimum, h, i)) == g(Node(infimum, h, i))
      {
        NodeReachesSupremumOnlyAtN(infimum, supremum, n, i);
      }
      LastNodeIsSupremum(infimum, supremum, n);
      WeightedSumReadsLast(f, g, infimum, h, n, d);
      ThirdOfSum(WeightedSum(g, infimum, h, n, n + 1), d, h);
    }
  }

  /** A zero-width interval gives 0. */
  lemma SimpsonRuleZeroWidth(f: real -> real, x: real, n: nat)
    requires n > 0
    ensures SimpsonRule(f, x, x, n) == 0.0
  {
  }

  // ---------------------------------------------------------------------
  // Exactness on cubics
  // ---------------------------------------------------------------------

  /** The three weighted samples of one panel `[l, l + 2h]`: `f(l) + 4f(l + h) + f(l + 2h)`. */
  function PanelSamples(f: real -> real, l: real, h: real): real {
    f(l) + 4.0 * f(l + h) + f(l + 2.0 * h)
  }

  /** `Σ_{j < m} PanelSamples(f, x_{2j}, h)`: the composite rule's samples grouped into `m` panels. */
  function PanelSum(f: real -> real, a: real, h: real, m: nat): real
    decreases m
  {
    if m == 0 then 0.0 else PanelSum(f, a, h, m - 1) + PanelSamples(f, Node(a, h, 2 * m - 2), h)
  }

  /** Up to an even `2j <= n`, the loop's sum is the panel sum less the last panel's right end. */
  lemma {:induction false} WeightedSumIsPanelSum(f: real -> real, a: real, h: real, n: nat, j: nat)
    requires 1 <= j && 2 * j <= n
    ensures WeightedSum(f, a, h, n, 2 * j) == PanelSum(f, a, h, j) - f(Node(a, h, 2 * j))
  {
    var l := Node(a, h, 2 * j - 2);
    NodeNext(a, h, 2 * j - 2);
    NodeNext(a, h, 2 * j - 1);
    assert PanelSamples(f, l, h) == f(l) + 4.0 * f(Node(a, h, 2 * j - 1)) + f(Node(a, h, 2 * j));
    if j == 1 {
      assert WeightedSum(f, a, h, n, 1) == f(Node(a, h, 0));
      assert Weight(1, n) == 4.0;
      assert PanelSum(f, a, h, 0) == 0.0;
    } else {
      WeightedSumIsPanelSum(f, a, h, n, j - 1);
      assert Weight(2 * j - 2, n) == 2.0;
      assert Weight(2 * j - 1, n) == 4.0;
      assert WeightedSum(f, a, h, n, 2 * j)
        == WeightedSum(f, a, h, n, 2 * j - 2) + 2.0 * f(l) + 4.0 * f(Node(a, h, 2 * j - 1));
    }
  }

  /** With `n` even, all `n + 1` weighted samples are exactly the `n/2` panels. */
  lemma FullWeightedSumIsPanelSum(f: real -> real, a: real, h: real, n: nat)
    requires n >= 2 && n % 2 == 0
    ensures WeightedSum(f, a, h, n, n + 1) == PanelSum(f, a, h, n / 2)
  {
    WeightedSumIsPanelSum(f, a, h, n, n / 2);
    assert 2 * (n / 2) == n;
  }

  /** Simpson's rule on the single panel `[l, l + 2h]`. */
  function Panel(f: real -> real, l: real, h: real): real {
    PanelSamples(f, l, h) * h / 3.0
  }

  /** `F` is an antiderivative of `f` as far as every single panel can tell. */
  ghost predicate PanelExact(f: real -> real, F: real -> real) {
    forall l: real, h: real :: Panel(f, l, h) == F(l + 2.0 * h) - F(l)
  }

  /** `Σ_{j < m} Panel(f, a + 2j·h, h)`: the single-panel rules of the first `m` panels. */
  function Panels(f: real -> real, a: real, h: real, m: nat): real
    decreases m
  {
    if m == 0 then 0.0 else Panels(f, a, h, m - 1) + Panel(f, Node(a, h, 2 * m - 2), h)
  }

  /** Scaling by `h/3` distributes over a sum. */
  lemma ThirdOfSum(a: real, b: real, h: real)
    ensures (a + b) * h / 3.0 == a * h / 3.0 + b * h / 3.0
  {
  }

  /** The raw panel sum scaled by `h/3` is the sum of the single-panel rules. */
  lemma {:induction false} PanelSumScaled(f: real -> real, a: real, h: real, m: nat)
    ensures PanelSum(f, a, h, m) * h / 3.0 == Panels(f, a, h, m)
  {
    if m == 0 {
      assert 0.0 * h / 3.0 == 0.0;
    } else {
      PanelSumScaled(f, a, h, m - 1);
      ThirdOfSum(PanelSum(f, a, h, m - 1), PanelSamples(f, Node(a, h, 2 * m - 2), h), h);
    }
  }

  /** The panels telescope: their sum is the change of `F` over `[a, a + 2m·h]`. */
  lemma {:induction false} PanelsTelescope(f: real -> real, F: real -> real, a: real, h: real, m: nat)
    requires PanelExact(f, F)
    ensures Panels(f, a, h, m) == F(Node(a, h, 2 * m)) - F(a)
  {
    if m > 0 {
      PanelsTelescope(f, F, a, h, m - 1);
      var l := Node(a, h, 2 * m - 2);
      NodeNext(a, h, 2 * m - 2);
      NodeNext(a, h, 2 * m - 1);
      assert Node(a, h, 2 * m) == l + 2.0 * h;
      assert Panel(f, l, h) == F(l + 2.0 * h) - F(l);
    }
  }

  /** For even `n >= 2`, the rule is exact on every integrand whose panels are exact. */
  lemma SimpsonRuleExact(f: real -> real, F: real -> real, infimum: real, supremum: real, n: nat)
    requires PanelExact(f, F)
    requires n >= 2 && n % 2 == 0
    ensures SimpsonRule(f, infimum, supremum, n) == F(supremum) - F(infimum)
  {
    var h := (supremum - infimum) / (n as real);
    var w := WeightedSum(f, infimum, h, n, n + 1);
    assert SimpsonRule(f, infimum, supremum, n) == w * h / 3.0;
    FullWeightedSumIsPanelSum(f, infimum, h, n);
    assert 2 * (n / 2) == n;
    PanelSumScaled(f, infimum, h, n / 2);
    PanelsTelescope(f, F, infimum, h, n / 2);
    LastNodeIsSupremum(infimum, supremum, n);
  }

  /** A constant `C` gives `C·(supremum - infimum)`. */
  lemma SimpsonRuleConstant(f: real -> real, C: real, infimum: real, supremum: real, n: nat)
    requires forall x: real :: f(x) == C
    requires n >= 2 && n % 2 == 0
    ensures SimpsonRule(f, infimum, supremum, n) == C * (supremum - infimum)
  {
    var F := (x: real) => C * x;
    forall l: real, h: real
      ensures Panel(f, l, h) == F(l + 2.0 * h) - F(l)
    {
      assert f(l) == C && f(l + h) == C && f(l + 2.0 * h) == C;
    }
    SimpsonRuleExact(f, F, infimum, supremum, n);
  }

  /** `x ↦ x` gives `(supremum² - infimum²)/2`. */
  lemma SimpsonRuleIdentity(f: real -> real, infimum: real, supremum: real, n: nat)
    requires forall x: real :: f(x) == x
    requires n >= 2 && n % 2 == 0
    ensures SimpsonRule(f, infimum, supremum, n) == (supremum * supremum - infimum * infimum) / 2.0
  {
    var F := (x: real) => x * x / 2.0;
    forall l: real, h: real
      ensures Panel(f, l, h) == F(l + 2.0 * h) - F(l)
    {
      assert (l + 2.0 * h) * (l + 2.0 * h) == l * l + 4.0 * l * h + 4.0 * h * h;
    }
    SimpsonRuleExact(f, F, infimum, supremum, n);
  }

  /** `x ↦ x³` gives `(supremum⁴ - infimum⁴)/4`. */
  lemma SimpsonRuleCube(f: real -> real, infimum: real, supremum: real, n: nat)
    requires forall x: real :: f(x) == x * x * x
    requires n >= 2 && n % 2 == 0
    ensures SimpsonRule(f, infimum, supremum, n)
      == (supremum * supremum * supremum * supremum - infimum * infimum * infimum * infimum) / 4.0
  {
    var F := (x: real) => x * x * x * x / 4.0;
    forall l: real, h: real
      ensures Panel(f, l, h) == F(l + 2.0 * h) - F(l)
    {
      CubePanel(l, h);
    }
    SimpsonRuleExact(f, F, infimum, supremum, n);
  }

  /** One panel is exact for `x³`: both sides expand to `2l³h + 6l²h² + 8lh³ + 4h⁴`. */
  lemma CubePanel(l: real, h: real)
    ensures (l * l * l + 4.0 * ((l + h) * (l + h) * (l + h)) + (l + 2.0 * h) * (l + 2.0 * h) * (l + 2.0 * h)) * h / 3.0
      == ((l + 2.0 * h) * (l + 2.0 * h) * (l + 2.0 * h) * (l + 2.0 * h) - l * l * l * l) / 4.0
  {
    var l2, l3, h2, h3 := l * l, l * l * l, h * h, h * h * h;
    assert (l + h) * (l + h) * (l + h) == l3 + 3.0 * l2 * h + 3.0 * l * h2 + h3;
    assert (l + 2.0 * h) * (l + 2.0 * h) * (l + 2.0 * h) == l3 + 6.0 * l2 * h + 12.0 * l * h2 + 8.0 * h3;
    assert (l + 2.0 * h) * (l + 2.0 * h) * (l + 2.0 * h) * (l + 2.0 * h)
      == l * l3 + 8.0 * l3 * h + 24.0 * l2 * h2 + 32.0 * l * h3 + 16.0 * h * h3;
  }
}
