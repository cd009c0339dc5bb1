/**
 * `Simulation_universe` as bundled in src/main.js: the revision that stores
 * the Hubble constant already converted to 1/s.  Its setters store values
 * unchecked; `check_sum_omegas` closes a flat universe's budget and always
 * reports `false`; integrals use the bundled `i < n` Simpson's rule.
 */
module UniverseSrc {
  import opened RealMath
  import opened Wrappers
  import Cosmology
  import Integrator
  import UniverseSeries

  /** The fields of a `Simulation_universe` of this revision; `hubble` is in 1/s. */
  datatype Cosmos = Cosmos(
    temperature: real,
    hubble: real,
    matter: real,
    darkEnergy: Cosmology.DarkEnergy,
    constants: Cosmology.Constants,
    hasCmb: bool,
    hasNeutrino: bool,
    isFlat: bool)

  /** `calcul_omega_r`, from the stored `H₀`: times 1.68 with neutrinos, and 0 unless both neutrinos and CMB are present. */
  function OmegaR(m: Math, u: Cosmos): real {
    var base := Cosmology.RadiationParameter(m, u.constants, u.temperature, u.hubble);
    var withNeutrino := if u.hasNeutrino then base * 1.68 else base;
    if !(u.hasNeutrino && u.hasCmb) then 0.0 else withNeutrino
  }

  /** Radiation is present only with both flags set, and it does not depend on the other parameters. */
  lemma OmegaRFlags(m: Math, u: Cosmos)
    ensures !(u.hasCmb && u.hasNeutrino) ==> OmegaR(m, u) == 0.0
    ensures u.hasCmb && u.hasNeutrino ==>
      OmegaR(m, u) == 1.68 * Cosmology.RadiationParameter(m, u.constants, u.temperature, u.hubble)
    ensures OmegaR(m, u) == OmegaR(m, u.(matter := 0.0, darkEnergy := Cosmology.DefaultDarkEnergy, isFlat := false))
  {
  }

  /** `calcul_omega_k`: 0 when flat, otherwise what closes the budget. */
  function OmegaK(m: Math, u: Cosmos): real {
    Cosmology.Curvature(u.isFlat, OmegaR(m, u), u.matter, u.darkEnergy.parameterValue)
  }

  /** The sum `check_sum_omegas` compares with 1. */
  function SumOmegas(m: Math, u: Cosmos): (s: real)
    ensures !u.isFlat ==> s == 1.0
    ensures u.isFlat ==> s == u.matter + OmegaR(m, u) + u.darkEnergy.parameterValue
  {
    u.matter + OmegaR(m, u) + u.darkEnergy.parameterValue + OmegaK(m, u)
  }

  /** `F`. */
  function F(m: Math, u: Cosmos, x: real): real {
    Cosmology.Friedmann(m, u.darkEnergy, OmegaK(m, u), u.matter, OmegaR(m, u), x)
  }

  /** `F(0)` is the budget's sum: 1 in a curved universe. */
  lemma FToday(m: Math, u: Cosmos)
    requires Lawful(m)
    ensures F(m, u, 0.0) == SumOmegas(m, u)
    ensures !u.isFlat ==> F(m, u, 0.0) == 1.0
  {
    Cosmology.FriedmannAtZero(m, u.darkEnergy, OmegaK(m, u), u.matter, OmegaR(m, u));
  }

  // ---------------------------------------------------------------------
  // check_sum_omegas
  // ---------------------------------------------------------------------

  /**
   * The state `check_sum_omegas(modifyMatter)` leaves: in a flat universe
   * whose budget is not closed the matter (or dark-energy) parameter becomes
   * what closes it; otherwise nothing changes.
   */
  function Checked(m: Math, u: Cosmos, modifyMatter: bool): (c: Cosmos)
    ensures SumOmegas(m, c) == 1.0
    ensures c.isFlat == u.isFlat && OmegaR(m, c) == OmegaR(m, u)
    ensures SumOmegas(m, u) == 1.0 ==> c == u
    ensures modifyMatter ==> c == u.(matter := c.matter)
    ensures !modifyMatter ==> c == u.(darkEnergy := u.darkEnergy.(parameterValue := c.darkEnergy.parameterValue))
  {
    var omegaR := OmegaR(m, u);
    if !(u.isFlat && SumOmegas(m, u) != 1.0) then u
    else if modifyMatter then u.(matter := 1.0 - u.darkEnergy.parameterValue - omegaR)
    else u.(darkEnergy := u.darkEnergy.(parameterValue := 1.0 - u.matter - omegaR))
  }

  /** Checking twice changes nothing more than checking once, whichever parameter each check may modify. */
  lemma {:induction false} CheckedIsIdempotent(m: Math, u: Cosmos, modifyMatter: bool, again: bool)
    ensures Checked(m, Checked(m, u, modifyMatter), again) == Checked(m, u, modifyMatter)
  {
  }

  // ---------------------------------------------------------------------
  // Integrands and integrals
  // ---------------------------------------------------------------------

  /** `integral_duration`: `(1/(1 + x))/√F(x)`. */
  function IntegralDuration(m: Math, u: Cosmos, x: real): real {
    m.Div(m.Div(1.0, 1.0 + x), m.sqrt(F(m, u, x)))
  }

  /** `integral_duration_substituated`: `((1 - y)/(1 - y)²)/√F(y/(1 - y))`. */
  function IntegralDurationSubstituted(m: Math, u: Cosmos, y: real): real {
    m.Div(m.Div(1.0 - y, Sq(1.0 - y)), m.sqrt(F(m, u, m.Div(y, 1.0 - y))))
  }

  /**
   * `integral_duration_substituated` at `y` is `integral_duration` at
   * `x = y/(1 - y)` times the Jacobian `dx/dy = 1/(1 - y)²`: integrating it
   * over `[0, 1)` in `y` integrates `integral_duration` over `[0, ∞)`.
   */
  lemma DurationSubstitution(m: Math, u: Cosmos, y: real)
    requires Lawful(m) && y != 1.0 && F(m, u, m.Div(y, 1.0 - y)) > 0.0
    ensures IntegralDurationSubstituted(m, u, y)
      == m.Div(1.0, Sq(1.0 - y)) * IntegralDuration(m, u, m.Div(y, 1.0 - y))
  {
    SqrtPositive(m, F(m, u, m.Div(y, 1.0 - y)));
    Cosmology.DurationSubstitution(m, y, m.sqrt(F(m, u, m.Div(y, 1.0 - y))), 1.0);
  }

  /** `integral_distance`: `1/√F(x)`. */
  function IntegralDistance(m: Math, u: Cosmos, x: real): real {
    m.Div(1.0, m.sqrt(F(m, u, x)))
  }

  function DurationIntegrand(m: Math, u: Cosmos): real -> real {
    (x: real) => IntegralDuration(m, u, x)
  }

  function SubstitutedIntegrand(m: Math, u: Cosmos): real -> real {
    (y: real) => IntegralDurationSubstituted(m, u, y)
  }

  function DistanceIntegrand(m: Math, u: Cosmos): real -> real {
    (x: real) => IntegralDistance(m, u, x)
  }

  /** `universe_age`: Simpson's rule (100 intervals) on `[0, 1]` over the stored `H₀`, in seconds. */
  function UniverseAge(m: Math, u: Cosmos): real {
    m.Div(Integrator.SimpsonRule(SubstitutedIntegrand(m, u), 0.0, 1.0, 100), u.hubble)
  }

  /** `duration`: Simpson's rule (1000 intervals) on `integral_duration` from `z₂` to `z₁`, over `H₀`. */
  function Duration(m: Math, u: Cosmos, z1: real, z2: real): (r: Result<real>)
    ensures r.Failure? <==> z1 <= -1.0 || z2 <= -1.0
  {
    if z1 <= -1.0 || z2 <= -1.0 then Failure("Cosmologic shift z cannot be lower than -1 included")
    else Success(m.Div(Integrator.SimpsonRule(DurationIntegrand(m, u), z2, z1, 1000), u.hubble))
  }

  /** No time passes between a redshift and itself. */
  lemma DurationSameShift(m: Math, u: Cosmos, z: real)
    requires z > -1.0 && u.hubble != 0.0
    ensures Duration(m, u, z, z) == Success(0.0)
  {
    Integrator.SimpsonRuleZeroWidth(DurationIntegrand(m, u), z, 1000);
    DivUnique(m, 0.0, u.hubble, 0.0);
  }

  /** `metric_distance`: Simpson's rule (100 intervals) on `[0, z]`, curved by `Ω_k`, times `c/H₀`. */
  function MetricDistance(m: Math, u: Cosmos, z: real): real {
    var d := Integrator.SimpsonRule(DistanceIntegrand(m, u), 0.0, z, 100);
    Cosmology.Curved(m, OmegaK(m, u), d) * m.Div(u.constants.c, u.hubble)
  }

  /** The metric distance to ourselves is 0 in every geometry. */
  lemma MetricDistanceToday(m: Math, u: Cosmos)
    requires Lawful(m)
    ensures MetricDistance(m, u, 0.0) == 0.0
  {
    Integrator.SimpsonRuleZeroWidth(DistanceIntegrand(m, u), 0.0, 100);
    Cosmology.CurvedFacts(m, OmegaK(m, u), 0.0);
  }

  /** The optional `distance_metric` argument, or the metric distance when it is left out. */
  function MetricOrGiven(m: Math, u: Cosmos, z: real, distance: Option<real>): real {
    if distance.Some? then distance.value else MetricDistance(m, u, z)
  }

  /** `luminosity_distance`. */
  function LuminosityDistance(m: Math, u: Cosmos, z: real, distance: Option<real>): real {
    Cosmology.LuminosityDistance(z, MetricOrGiven(m, u, z, distance))
  }

  /** `angular_diameter_distance`. */
  function AngularDiameterDistance(m: Math, u: Cosmos, z: real, distance: Option<real>): real {
    Cosmology.AngularDiameterDistance(m, z, MetricOrGiven(m, u, z, distance))
  }

  /** `brightness`. */
  function Brightness(m: Math, u: Cosmos, z: real, luminosity: real, distance: Option<real>): real {
    Cosmology.Brightness(m, z, luminosity, MetricOrGiven(m, u, z, distance))
  }

  /** `apparent_diameter`. */
  function ApparentDiameter(m: Math, u: Cosmos, diameter: real, z: real, distance: Option<real>): real {
    Cosmology.ApparentDiameter(m, diameter, z, MetricOrGiven(m, u, z, distance))
  }

  /** `equa_diff_a`: radiation over `a²`, and `dY` without the `1/x`. */
  function EquaDiffA(m: Math, u: Cosmos, tau: real, a: real, da: real): real {
    Cosmology.AccelerationWithSquare(m, u.darkEnergy, OmegaR(m, u), u.matter, a)
  }

  /** With a cosmological constant `a'' = -(Ω_r + Ω_m/2)/a² + Ω_DE·a`. */
  lemma EquaDiffACosmologicalConstant(m: Math, u: Cosmos, tau: real, a: real, da: real)
    requires Lawful(m) && u.darkEnergy.w0 == -1.0 && u.darkEnergy.w1 == 0.0 && a != 0.0
    ensures EquaDiffA(m, u, tau, a, da) == -m.Div(OmegaR(m, u) + u.matter / 2.0, Sq(a)) + u.darkEnergy.parameterValue * a
  {
    Cosmology.AccelerationWithSquareCosmologicalConstant(m, u.darkEnergy, OmegaR(m, u), u.matter, a);
  }

  /** `equa_diff_time`: `1/(H₀(1 + z)√F(z))`. */
  function EquaDiffTime(m: Math, u: Cosmos, z: real, t: real): real {
    m.Div(1.0, u.hubble * (1.0 + z) * m.sqrt(F(m, u, z)))
  }

  function TimeSlope(m: Math, u: Cosmos): (real, real) -> real {
    (z: real, t: real) => EquaDiffTime(m, u, z, t)
  }

  function ScaleFactorAcceleration(m: Math, u: Cosmos): (real, real, real) -> real {
    (tau: real, a: real, da: real) => EquaDiffA(m, u, tau, a, da)
  }

  /** The constants of `modify_constants`' optional arguments. */
  function ConstantsModified(k: Cosmology.Constants, c: Option<real>, boltzmann: Option<real>, planck: Option<real>, G: Option<real>): Cosmology.Constants {
    Cosmology.Constants(OrElse(c, k.c), OrElse(boltzmann, k.k), OrElse(planck, k.h), OrElse(G, k.G))
  }

  /** The dark energy of `modify_dark_energy`'s optional arguments. */
  function DarkEnergyModified(de: Cosmology.DarkEnergy, value: Option<real>, w0: Option<real>, w1: Option<real>): Cosmology.DarkEnergy {
    Cosmology.DarkEnergy(OrElse(value, de.parameterValue), OrElse(w0, de.w0), OrElse(w1, de.w1))
  }

  /** What `time(n, zmin, zmax)` returns: the RK4 series of `dt/dz` through `(zmin, duration(0, zmin))`. */
  ghost predicate TimeSeries(m: Math, u: Cosmos, z: seq<real>, t: seq<real>, p: nat, n: nat, zmin: real, zmax: real)
    requires n > 0
  {
    && UniverseSeries.Series1(z, t, p, (zmax - zmin) / (n as real), TimeSlope(m, u))
    && p < |z| && p < |t|
    && z[p] == zmin && Duration(m, u, 0.0, zmin).Success? && t[p] == Duration(m, u, 0.0, zmin).value
    && (zmin < zmax ==> z[0] < zmin && zmax <= z[|z| - 1])
  }

  /** The step of `time` is positive on a non-empty interval. */
  lemma PositiveStep(zmin: real, zmax: real, n: nat)
    requires n > 0
    ensures zmin < zmax ==> (zmax - zmin) / (n as real) > 0.0
  {
  }

  // ---------------------------------------------------------------------
  // The object
  // ---------------------------------------------------------------------

  class Universe {
    /** The `Math` functions the formulas call. */
    const math: Math
    /** The astronomical unit in metres, a module constant of the source. */
    const au: real
    var temperature: real
    var hubble: real
    var matter: real
    var darkEnergy: Cosmology.DarkEnergy
    var constants: Cosmology.Constants
    var hasCmb: bool
    var hasNeutrino: bool
    var isFlat: bool

    function Model(): Cosmos
      reads this
    {
      Cosmos(temperature, hubble, matter, darkEnergy, constants, hasCmb, hasNeutrino, isFlat)
    }

    /** The constructor: the given values, each argument left out taking its default, with `H₀` converted to 1/s, and the default dark energy. */
    constructor(m: Math, au: real, constants: Cosmology.Constants, temperature: Option<real>, hubble: Option<real>,
                matter: Option<real>, hasCmb: Option<bool>, hasNeutrino: Option<bool>, isFlat: Option<bool>)
      ensures math == m && this.au == au
      ensures Model() == Cosmos(OrElse(temperature, Cosmology.DefaultTemperature), Cosmology.HubbleSi(m, au, OrElse(hubble, Cosmology.DefaultHubble)), OrElse(matter, Cosmology.DefaultMatter),
        Cosmology.DefaultDarkEnergy, constants, OrElse(hasCmb, Cosmology.DefaultHasCmb),
        OrElse(hasNeutrino, Cosmology.DefaultHasNeutrino), OrElse(isFlat, Cosmology.DefaultIsFlat))
    {
      math := m;
      this.au := au;
      darkEnergy := Cosmology.DefaultDarkEnergy;
      this.constants := constants;
      this.temperature := OrElse(temperature, Cosmology.DefaultTemperature);
      this.hubble := Cosmology.HubbleSi(m, au, OrElse(hubble, Cosmology.DefaultHubble));
      this.matter := OrElse(matter, Cosmology.DefaultMatter);
      this.hasCmb := OrElse(hasCmb, Cosmology.DefaultHasCmb);
      this.hasNeutrino := OrElse(hasNeutrino, Cosmology.DefaultHasNeutrino);
      this.isFlat := OrElse(isFlat, Cosmology.DefaultIsFlat);
    }

    /** The `temperature` setter. */
    method SetTemperature(v: real)
      modifies this
      ensures Model() == old(Model()).(temperature := v)
    {
      temperature := v;
    }

    /** The `hubble_cst` setter: stores the value converted from km/s/Mpc to 1/s. */
    method SetHubble(v: real)
      modifies this
      ensures Model() == old(Model()).(hubble := Cosmology.HubbleSi(math, au, v))
    {
      hubble := Cosmology.HubbleSi(math, au, v);
    }

    /** The `matter_parameter` setter. */
    method SetMatterParameter(v: real)
      modifies this
      ensures Model() == old(Model()).(matter := v)
    {
      matter := v;
    }

    /** The `has_cmb` setter. */
    method SetHasCmb(v: bool)
      modifies this
      ensures Model() == old(Model()).(hasCmb := v)
    {
      hasCmb := v;
    }

    /** The `has_neutrino` setter. */
    method SetHasNeutrino(v: bool)
      modifies this
      ensures Model() == old(Model()).(hasNeutrino := v)
    {
      hasNeutrino := v;
    }

    /** The `is_flat` setter. */
    method SetIsFlat(v: bool)
      modifies this
      ensures Model() == old(Model()).(isFlat := v)
    {
      isFlat := v;
    }

    /** `modify_dark_energy`: each argument left out keeps its field. */
    method ModifyDarkEnergy(value: Option<real>, w0: Option<real>, w1: Option<real>)
      modifies this
      ensures Model() == old(Model()).(darkEnergy := DarkEnergyModified(old(darkEnergy), value, w0, w1))
    {
      if value.Some? {
        darkEnergy := darkEnergy.(parameterValue := value.value);
      }
      if w0.Some? {
        darkEnergy := darkEnergy.(w0 := w0.value);
      }
      if w1.Some? {
        darkEnergy := darkEnergy.(w1 := w1.value);
      }
    }

    /** `modify_constants`: each argument left out keeps its constant. */
    method ModifyConstants(c: Option<real>, boltzmann: Option<real>, planck: Option<real>, G: Option<real>)
      modifies this
      ensures Model() == old(Model()).(constants := ConstantsModified(old(constants), c, boltzmann, planck, G))
    {
      if c.Some? {
        constants := constants.(c := c.value);
      }
      if boltzmann.Some? {
        constants := constants.(k := boltzmann.value);
      }
      if planck.Some? {
        constants := constants.(h := planck.value);
      }
      if G.Some? {
        constants := constants.(G := G.value);
      }
    }

    /**
     * `check_sum_omegas(modifyMatter)`: closes a flat universe's open budget
     * through the matter (or dark-energy) parameter, and returns `false`
     * whatever it did; afterwards the budget sums to 1.
     */
    method CheckSumOmegas(modifyMatter: bool) returns (modified: bool)
      modifies this
      ensures !modified
      ensures Model() == Checked(math, old(Model()), modifyMatter)
    {
      modified := false;
      var omegaR := OmegaR(math, Model());
      var sum := matter + omegaR + darkEnergy.parameterValue + OmegaK(math, Model());
      if isFlat && sum != 1.0 {
        if modifyMatter {
          SetMatterParameter(1.0 - darkEnergy.parameterValue - omegaR);
        } else {
          ModifyDarkEnergy(Some(1.0 - matter - omegaR), None, None);
        }
      }
    }

    /**
     * `compute_a_tau(step, interval_a, universe_age)`: integrates
     * `a'' = equa_diff_a` from `a = 1`, `a' = 1` at `τ = 0` in both directions
     * while `a` stays in `[lo, hi)`, then turns each `τ` into years,
     * `(τ/H₀ + age)/year`.  `tau` is the series before the rescaling.
     */
    method ComputeATau(step: real, lo: real, hi: real, universeAge: Option<real>, fuel: nat)
      returns (x: seq<real>, y: seq<real>, dy: seq<real>, tau: seq<real>, ghost p: nat)
      ensures UniverseSeries.Series2(tau, y, dy, p, step, ScaleFactorAcceleration(math, Model()))
      ensures tau[p] == 0.0 && y[p] == 1.0 && dy[p] == 1.0
      ensures UniverseSeries.Interior(y, lo, hi)
      ensures |x| == |tau|
      ensures forall k :: 0 <= k < |x| ==>
        x[k] == (math.Div(tau[k], hubble) + OrElse(universeAge, UniverseAge(math, Model()))) / Cosmology.YearSeconds
      ensures hubble != 0.0 ==> x[p] == OrElse(universeAge, UniverseAge(math, Model())) / Cosmology.YearSeconds
      ensures hubble != 0.0 ==> UniverseSeries.Grid(x, (step / hubble) / Cosmology.YearSeconds)
    {
      var u := Model();
      var m := math;
      var age := OrElse(universeAge, UniverseAge(m, u));
      tau, y, dy, p := UniverseSeries.RungeKuttaUniverse2(step, 0.0, 1.0, 1.0, ScaleFactorAcceleration(m, u), lo, hi, fuel);
      x := UniverseSeries.RescaleToYears(m, tau, u.hubble, age);
      if u.hubble != 0.0 {
        DivUnique(m, 0.0, u.hubble, 0.0);
        UniverseSeries.RescaledGrid(m, tau, x, u.hubble, age, step);
      }
    }

    /**
     * `time(n, zmin, zmax)`: the age at each redshift of `[zmin, zmax]`,
     * integrating `dt/dz` with step `(zmax - zmin)/n` from the duration since
     * `zmin`; the error of `duration` when `zmin <= -1`.
     */
    method Time(n: nat, zmin: real, zmax: real) returns (r: Result<(seq<real>, seq<real>)>, ghost p: nat)
      requires n > 0
      ensures r.Failure? <==> zmin <= -1.0
      ensures r.Success? ==> TimeSeries(math, Model(), r.value.0, r.value.1, p, n, zmin, zmax)
    {
      var u := Model();
      var m := math;
      var step := (zmax - zmin) / (n as real);
      var start := Duration(m, u, 0.0, zmin);
      if start.Failure? {
        return Failure(start.error), 0;
      }
      PositiveStep(zmin, zmax, n);
      var z, t;
      z, t, p := UniverseSeries.RungeKuttaUniverse1(step, zmin, start.value, TimeSlope(m, u), zmin, zmax);
      assert TimeSeries(m, u, z, t, p, n, zmin, zmax);
      r := Success((z, t));
    }
  }
}
