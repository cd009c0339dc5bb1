/**
 * `Simulation_universe` as in js/class/simulation/simulation_universe.js,
 * the earliest of the three revisions.  Its setters store values unchecked
 * (there is no `check_sum_omegas`), `Ω_k` always closes the budget (the
 * `is_flat` flag is stored but read by nothing), every formula converts `H₀`
 * to 1/s on the fly, and `runge_kutta_universe_2` stores `y` where the
 * derivative belongs.
 */
module UniverseJs {
  import opened RealMath
  import opened Wrappers
  import Cosmology
  import Integrator
  import IntegratorTs
  import UniverseSeries

  /** The fields of a `Simulation_universe` of this revision. */
  datatype Cosmos = Cosmos(
    temperature: real,
    hubble: real,
    matter: real,
    darkEnergy: Cosmology.DarkEnergy,
    constants: Cosmology.Constants,
    hasCmb: bool,
    hasNeutrino: bool,
    isFlat: bool)

  /** `H0_si`: the Hubble constant in 1/s, recomputed from `hubble_cst` by every formula. */
  function HubbleSi(m: Math, au: real, u: Cosmos): real {
    Cosmology.HubbleSi(m, au, u.hubble)
  }

  /** `calcul_omega_r`: times 1.68 with neutrinos, and 0 unless both neutrinos and CMB are present. */
  function OmegaR(m: Math, au: real, u: Cosmos): real {
    var base := Cosmology.RadiationParameter(m, u.constants, u.temperature, HubbleSi(m, au, u));
    var withNeutrino := if u.hasNeutrino then base * 1.68 else base;
    if !(u.hasNeutrino && u.hasCmb) then 0.0 else withNeutrino
  }

  /** Radiation is present only with both flags set, and then carries the neutrino factor. */
  lemma OmegaRFlags(m: Math, au: real, u: Cosmos)
    ensures !(u.hasCmb && u.hasNeutrino) ==> OmegaR(m, au, u) == 0.0
    ensures u.hasCmb && u.hasNeutrino ==>
      OmegaR(m, au, u) == 1.68 * Cosmology.RadiationParameter(m, u.constants, u.temperature, HubbleSi(m, au, u))
  {
  }

  /** `calcul_omega_k`: `1 - Ω_r - Ω_m - Ω_DE` whatever `is_flat` says. */
  function OmegaK(m: Math, au: real, u: Cosmos): real {
    Cosmology.Curvature(false, OmegaR(m, au, u), u.matter, u.darkEnergy.parameterValue)
  }

  /** `F`. */
  function F(m: Math, au: real, u: Cosmos, x: real): real {
    Cosmology.Friedmann(m, u.darkEnergy, OmegaK(m, au, u), u.matter, OmegaR(m, au, u), x)
  }

  /** Because `Ω_k` closes the budget, `F(0) = 1` in every universe of this revision, flat or not. */
  lemma FToday(m: Math, au: real, u: Cosmos)
    requires Lawful(m)
    ensures F(m, au, u, 0.0) == 1.0
  {
    Cosmology.FriedmannAtZero(m, u.darkEnergy, OmegaK(m, au, u), u.matter, OmegaR(m, au, u));
  }

  /** `integral_duration`: `(1/(1 + x))/√F(x)`. */
  function IntegralDuration(m: Math, au: real, u: Cosmos, x: real): real {
    m.Div(m.Div(1.0, 1.0 + x) * 1.0, m.sqrt(F(m, au, u, x)))
  }

  /** `integral_duration_substituated`: `((1 - y)/(1 - y)²)/√F(y/(1 - y))`. */
  function IntegralDurationSubstituted(m: Math, au: real, u: Cosmos, y: real): real {
    m.Div(m.Div((1.0 - y) * 1.0, Sq(1.0 - y)) * 1.0, m.sqrt(F(m, au, u, m.Div(y, 1.0 - y))))
  }

  /**
   * `integral_duration_substituated` at `y` is `integral_duration` at
   * `x = y/(1 - y)` times the Jacobian `dx/dy = 1/(1 - y)²`: integrating it
   * over `[0, 1)` in `y` integrates `integral_duration` over `[0, ∞)`.
   */
  lemma DurationSubstitution(m: Math, au: real, u: Cosmos, y: real)
    requires Lawful(m) && y != 1.0 && F(m, au, u, m.Div(y, 1.0 - y)) > 0.0
    ensures IntegralDurationSubstituted(m, au, u, y)
      == m.Div(1.0, Sq(1.0 - y)) * IntegralDuration(m, au, u, m.Div(y, 1.0 - y))
  {
    SqrtPositive(m, F(m, au, u, m.Div(y, 1.0 - y)));
    Cosmology.DurationSubstitution(m, y, m.sqrt(F(m, au, u, m.Div(y, 1.0 - y))), 1.0);
  }

  /** `integral_distance`: `1/√F(x)`. */
  function IntegralDistance(m: Math, au: real, u: Cosmos, x: real): real {
    m.Div(1.0, m.sqrt(F(m, au, u, x)))
  }

  function DurationIntegrand(m: Math, au: real, u: Cosmos): real -> real {
    (x: real) => IntegralDuration(m, au, u, x)
  }

  function SubstitutedIntegrand(m: Math, au: real, u: Cosmos): real -> real {
    (y: real) => IntegralDurationSubstituted(m, au, u, y)
  }

  function DistanceIntegrand(m: Math, au: real, u: Cosmos): real -> real {
    (x: real) => IntegralDistance(m, au, u, x)
  }

  /** `universe_age`: Simpson's rule (the four-argument, `i <= n` form, 100 intervals) on `[0, 1]`, over `H0_si`. */
  function UniverseAge(m: Math, au: real, u: Cosmos): real {
    m.Div(IntegratorTs.SimpsonRule(SubstitutedIntegrand(m, au, u), 0.0, 1.0, 100), HubbleSi(m, au, u))
  }

  /**
   * `duration`: Simpson's rule on `integral_duration` from `z₂` down to `z₁`,
   * not divided by `H₀`; only redshifts below -1 are refused.
   */
  function Duration(m: Math, au: real, u: Cosmos, z1: real, z2: real): (r: Result<real>)
    ensures r.Failure? <==> z1 < -1.0 || z2 < -1.0
  {
    if z1 < -1.0 || z2 < -1.0 then Failure("Cosmologic shift z cannot be lower than -1")
    else Success(IntegratorTs.SimpsonRule(DurationIntegrand(m, au, u), z2, z1, 100))
  }

  /** Unlike the later revisions, `z = -1` is accepted, and no time passes between a redshift and itself. */
  lemma DurationAcceptsMinusOne(m: Math, au: real, u: Cosmos, z: real)
    requires z >= -1.0
    ensures Duration(m, au, u, z, z) == Success(0.0)
    ensures Duration(m, au, u, -1.0, z).Success?
  {
    IntegratorTs.SimpsonRuleZeroWidth(DurationIntegrand(m, au, u), z, 100);
  }

  /** `metric_distance`: Simpson's rule (100 intervals) on `[0, z]`, curved by `Ω_k`, times `c/H0_si`. */
  function MetricDistance(m: Math, au: real, u: Cosmos, z: real): real {
    var d := IntegratorTs.SimpsonRule(DistanceIntegrand(m, au, u), 0.0, z, 100);
    Cosmology.Curved(m, OmegaK(m, au, u), d) * m.Div(u.constants.c, HubbleSi(m, au, u))
  }

  /** The metric distance to ourselves is 0 in every geometry. */
  lemma MetricDistanceToday(m: Math, au: real, u: Cosmos)
    requires Lawful(m)
    ensures MetricDistance(m, au, u, 0.0) == 0.0
  {
    IntegratorTs.SimpsonRuleZeroWidth(DistanceIntegrand(m, au, u), 0.0, 100);
    Cosmology.CurvedFacts(m, OmegaK(m, au, u), 0.0);
  }

  /** The optional `distance_metric` argument, or the metric distance when it is left out. */
  function MetricOrGiven(m: Math, au: real, u: Cosmos, z: real, distance: Option<real>): real {
    if distance.Some? then distance.value else MetricDistance(m, au, u, z)
  }

  /** `luminosity_distance`. */
  function LuminosityDistance(m: Math, au: real, u: Cosmos, z: real, distance: Option<real>): real {
    Cosmology.LuminosityDistance(z, MetricOrGiven(m, au, u, z, distance))
  }

  /** `angular_diameter_distance`. */
  function AngularDiameterDistance(m: Math, au: real, u: Cosmos, z: real, distance: Option<real>): real {
    Cosmology.AngularDiameterDistance(m, z, MetricOrGiven(m, au, u, z, distance))
  }

  /** `brightness`. */
  function Brightness(m: Math, au: real, u: Cosmos, z: real, luminosity: real, distance: Option<real>): real {
    Cosmology.Brightness(m, z, luminosity, MetricOrGiven(m, au, u, z, distance))
  }

  /** `apparent_diameter`. */
  function ApparentDiameter(m: Math, au: real, u: Cosmos, diameter: real, z: real, distance: Option<real>): real {
    Cosmology.ApparentDiameter(m, diameter, z, MetricOrGiven(m, au, u, z, distance))
  }

  /** `equa_diff_a`: radiation over `a²`, and `dY` without the `1/x`. */
  function EquaDiffA(m: Math, au: real, u: Cosmos, tau: real, a: real, da: real): real {
    Cosmology.AccelerationWithSquare(m, u.darkEnergy, OmegaR(m, au, u), u.matter, a)
  }

  /** With a cosmological constant this revision's `a''` is `-(Ω_r + Ω_m/2)/a² + Ω_DE·a`. */
  lemma EquaDiffACosmologicalConstant(m: Math, au: real, u: Cosmos, tau: real, a: real, da: real)
    requires Lawful(m) && u.darkEnergy.w0 == -1.0 && u.darkEnergy.w1 == 0.0 && a != 0.0
    ensures EquaDiffA(m, au, u, tau, a, da)
      == -m.Div(OmegaR(m, au, u) + u.matter / 2.0, Sq(a)) + u.darkEnergy.parameterValue * a
  {
    Cosmology.AccelerationWithSquareCosmologicalConstant(m, u.darkEnergy, OmegaR(m, au, u), u.matter, a);
  }

  /** `equa_diff_time`: `1/(H0_si(1 + z)√F(z))`. */
  function EquaDiffTime(m: Math, au: real, u: Cosmos, z: real, t: real): real {
    m.Div(1.0, HubbleSi(m, au, u) * (1.0 + z) * m.sqrt(F(m, au, u, z)))
  }

  function TimeSlope(m: Math, au: real, u: Cosmos): (real, real) -> real {
    (z: real, t: real) => EquaDiffTime(m, au, u, z, t)
  }

  function ScaleFactorAcceleration(m: Math, au: real, u: Cosmos): (real, real, real) -> real {
    (tau: real, a: real, da: real) => EquaDiffA(m, au, u, tau, a, da)
  }

  // ---------------------------------------------------------------------
  // runge_kutta_universe_2 as written: `yp` receives `y`
  // ---------------------------------------------------------------------

  /** The step of this revision's march: RK4's new `y`, stored both as `y` and as the derivative. */
  function LostDerivativeStepper(f: (real, real, real) -> real): (real, real, real, real) -> (real, real) {
    (h: real, a: real, b: real, c: real) => (Integrator.RungeKutta2(h, a, b, c, f).1, Integrator.RungeKutta2(h, a, b, c, f).1)
  }

  /**
   * `runge_kutta_universe_2` of this revision: the march of
   * `UniverseSeries.RungeKuttaUniverse2`, except that each new derivative is
   * the new `y`; so every derivative but the seed's equals its `y`.
   */
  method RungeKuttaUniverse2(step: real, x0: real, y0: real, dy0: real, f: (real, real, real) -> real,
                             lo: real, hi: real, fuel: nat)
    returns (x: seq<real>, y: seq<real>, dy: seq<real>, ghost p: nat)
    ensures UniverseSeries.Shape2(x, y, dy, p, step, LostDerivativeStepper(f))
    ensures x[p] == x0 && y[p] == y0 && dy[p] == dy0
    ensures UniverseSeries.Interior(y, lo, hi)
    ensures forall k :: 0 <= k < |x| && k != p ==> dy[k] == y[k]
  {
    var g := LostDerivativeStepper(f);
    var xs, ys, dys := UniverseSeries.March2Forward(step, x0, y0, dy0, g, lo, hi, fuel);
    assert UniverseSeries.Interior(ys, lo, hi);
    x, y, dy, p := UniverseSeries.March2Backward(step, xs, ys, dys, 0, g, lo, hi, fuel);
    forall k | 0 <= k < |x| && k != p
      ensures dy[k] == y[k]
    {
      if k > p {
        assert (y[k], dy[k]) == g(step, x[k - 1], y[k - 1], dy[k - 1]);
      } else {
        assert (y[k], dy[k]) == g(-step, x[k + 1], y[k + 1], dy[k + 1]);
      }
    }
  }

  /** The zero acceleration, for which RK4 is exact. */
  function NoAcceleration(): (real, real, real) -> real {
    (x: real, y: real, dy: real) => 0.0
  }

  /**
   * With no acceleration, one step of length 1 from `a = 1`, `a' = 1` keeps
   * `a' = 1` (RK4 is exact), while this revision records `a' = 2`.
   */
  lemma LostDerivativeCounterexample()
    ensures Integrator.RungeKutta2(1.0, 0.0, 1.0, 1.0, NoAcceleration()) == (1.0, 2.0, 1.0)
    ensures LostDerivativeStepper(NoAcceleration())(1.0, 0.0, 1.0, 1.0) == (2.0, 2.0)
  {
    Integrator.RungeKutta2ConstantAcceleration(1.0, 0.0, 1.0, 1.0, NoAcceleration(), 0.0);
  }

  // ---------------------------------------------------------------------
  // The object
  // ---------------------------------------------------------------------

  /** The constants of `modify_constants`' optional arguments. */
  function ConstantsModified(k: Cosmology.Constants, c: Option<real>, boltzmann: Option<real>, planck: Option<real>, G: Option<real>): Cosmology.Constants {
    Cosmology.Constants(OrElse(c, k.c), OrElse(boltzmann, k.k), OrElse(planck, k.h), OrElse(G, k.G))
  }

  /** The dark energy of `modify_dark_energy`'s optional arguments. */
  function DarkEnergyModified(de: Cosmology.DarkEnergy, value: Option<real>, w0: Option<real>, w1: Option<real>): Cosmology.DarkEnergy {
    Cosmology.DarkEnergy(OrElse(value, de.parameterValue), OrElse(w0, de.w0), OrElse(w1, de.w1))
  }

  class Universe {
    /** The `Math` functions the formulas call. */
    const math: Math
    /** The astronomical unit in metres, a module constant of the source. */
    const au: real
    var temperature: real
    var hubble: real
    var matter: real
    var darkEnergy: Cosmology.DarkEnergy
    var constants: Cosmology.Constants
    var hasCmb: bool
    var hasNeutrino: bool
    var isFlat: bool

    function Model(): Cosmos
      reads this
    {
      Cosmos(temperature, hubble, matter, darkEnergy, constants, hasCmb, hasNeutrino, isFlat)
    }

    /** The constructor: the given values, each argument left out taking its default, and the default dark energy. */
    constructor(m: Math, au: real, constants: Cosmology.Constants, temperature: Option<real>, hubble: Option<real>,
                matter: Option<real>, hasCmb: Option<bool>, hasNeutrino: Option<bool>, isFlat: Option<bool>)
      ensures math == m && this.au == au
      ensures Model() == Cosmos(OrElse(temperature, Cosmology.DefaultTemperature), OrElse(hubble, Cosmology.DefaultHubble), OrElse(matter, Cosmology.DefaultMatter),
        Cosmology.DefaultDarkEnergy, constants, OrElse(hasCmb, Cosmology.DefaultHasCmb),
        OrElse(hasNeutrino, Cosmology.DefaultHasNeutrino), OrElse(isFlat, Cosmology.DefaultIsFlat))
    {
      math := m;
      this.au := au;
      darkEnergy := Cosmology.DefaultDarkEnergy;
      this.constants := constants;
      this.temperature := OrElse(temperature, Cosmology.DefaultTemperature);
      this.hubble := OrElse(hubble, Cosmology.DefaultHubble);
      this.matter := OrElse(matter, Cosmology.DefaultMatter);
      this.hasCmb := OrElse(hasCmb, Cosmology.DefaultHasCmb);
      this.hasNeutrino := OrElse(hasNeutrino, Cosmology.DefaultHasNeutrino);
      this.isFlat := OrElse(isFlat, Cosmology.DefaultIsFlat);
    }

    /** The `temperature` setter. */
    method SetTemperature(v: real)
      modifies this
      ensures Model() == old(Model()).(temperature := v)
    {
      temperature := v;
    }

    /** The `hubble_cst` setter. */
    method SetHubble(v: real)
      modifies this
      ensures Model() == old(Model()).(hubble := v)
    {
      hubble := v;
    }

    /** The `matter_parameter` setter. */
    method SetMatterParameter(v: real)
      modifies this
      ensures Model() == old(Model()).(matter := v)
    {
      matter := v;
    }

    /** The `has_cmb` setter. */
    method SetHasCmb(v: bool)
      modifies this
      ensures Model() == old(Model()).(hasCmb := v)
    {
      hasCmb := v;
    }

    /** The `has_neutrino` setter. */
    method SetHasNeutrino(v: bool)
      modifies this
      ensures Model() == old(Model()).(hasNeutrino := v)
    {
      hasNeutrino := v;
    }

    /** The `is_flat` setter. */
    method SetIsFlat(v: bool)
      modifies this
      ensures Model() == old(Model()).(isFlat := v)
    {
      isFlat := v;
    }

    /** `modify_dark_energy`: each argument left out keeps its field. */
    method ModifyDarkEnergy(value: Option<real>, w0: Option<real>, w1: Option<real>)
      modifies this
      ensures Model() == old(Model()).(darkEnergy := DarkEnergyModified(old(darkEnergy), value, w0, w1))
    {
      if value.Some? {
        darkEnergy := darkEnergy.(parameterValue := value.value);
      }
      if w0.Some? {
        darkEnergy := darkEnergy.(w0 := w0.value);
      }
      if w1.Some? {
        darkEnergy := darkEnergy.(w1 := w1.value);
      }
    }

    /** `modify_constants`: each argument left out keeps its constant. */
    method ModifyConstants(c: Option<real>, boltzmann: Option<real>, planck: Option<real>, G: Option<real>)
      modifies this
      ensures Model() == old(Model()).(constants := ConstantsModified(old(constants), c, boltzmann, planck, G))
    {
      if c.Some? {
        constants := constants.(c := c.value);
      }
      if boltzmann.Some? {
        constants := constants.(k := boltzmann.value);
      }
      if planck.Some? {
        constants := constants.(h := planck.value);
      }
      if G.Some? {
        constants := constants.(G := G.value);
      }
    }

    /**
     * `compute_a_tau(step)`: this revision's `runge_kutta_universe_2` from
     * `a = 1`, `a' = 1` at `τ = 0`, on the default interval `[0, 5)` of `a`.
     */
    method ComputeATau(step: real, fuel: nat) returns (x: seq<real>, y: seq<real>, dy: seq<real>, ghost p: nat)
      ensures UniverseSeries.Shape2(x, y, dy, p, step, LostDerivativeStepper(ScaleFactorAcceleration(math, au, Model())))
      ensures x[p] == 0.0 && y[p] == 1.0 && dy[p] == 1.0
      ensures UniverseSeries.Interior(y, 0.0, 5.0)
      ensures forall k :: 0 <= k < |x| && k != p ==> dy[k] == y[k]
    {
      x, y, dy, p := RungeKuttaUniverse2(step, 0.0, 1.0, 1.0, ScaleFactorAcceleration(math, au, Model()), 0.0, 5.0, fuel);
    }

    /**
     * `time(n, zmin, zmax)`: as in the later revisions, from this revision's
     * `duration(0, zmin)`.
     */
    method Time(n: nat, zmin: real, zmax: real) returns (r: Result<(seq<real>, seq<real>)>, ghost p: nat)
      requires n > 0
      ensures r.Failure? <==> zmin < -1.0
      ensures r.Success? ==> TimeSeries(math, au, Model(), r.value.0, r.value.1, p, n, zmin, zmax)
    {
      var u := Model();
      var step := (zmax - zmin) / (n as real);
      var start := Duration(math, au, u, 0.0, zmin);
      if start.Failure? {
        return Failure(start.error), 0;
      }
      PositiveStep(zmin, zmax, n);
      var z, t;
      z, t, p := UniverseSeries.RungeKuttaUniverse1(step, zmin, start.value, TimeSlope(math, au, u), zmin, zmax);
      assert TimeSeries(math, au, u, z, t, p, n, zmin, zmax);
      r := Success((z, t));
    }
  }

  /** What `time(n, zmin, zmax)` returns: the RK4 series of `dt/dz` through `(zmin, duration(0, zmin))`. */
  ghost predicate TimeSeries(m: Math, au: real, u: Cosmos, z: seq<real>, t: seq<real>, p: nat, n: nat, zmin: real, zmax: real)
    requires n > 0
  {
    && UniverseSeries.Series1(z, t, p, (zmax - zmin) / (n as real), TimeSlope(m, au, u))
    && p < |z| && p < |t|
    && z[p] == zmin && Duration(m, au, u, 0.0, zmin).Success? && t[p] == Duration(m, au, u, 0.0, zmin).value
    && (zmin < zmax ==> z[0] < zmin && zmax <= z[|z| - 1])
  }

  /** The step of `time` is positive on a non-empty interval. */
  lemma PositiveStep(zmin: real, zmax: real, n: nat)
    requires n > 0
    ensures zmin < zmax ==> (zmax - zmin) / (n as real) > 0.0
  {
  }
}
