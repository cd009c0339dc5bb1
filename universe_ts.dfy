/**
 * `Simulation_universe` as in ts/class/simulation/simulation_universe.js: a
 * Friedmann–Lemaître universe described by its temperature, its Hubble
 * constant (in km/s/Mpc, with the value in 1/s kept in a second field), the
 * matter and dark-energy density parameters and three flags.  Every setter
 * re-establishes the flat-universe budget `Ω_m + Ω_r + Ω_DE = 1` through
 * `check_sum_omegas`.
 *
 * The state is a `Universe` object; the formulas read a `Cosmos` snapshot of
 * its fields.
 */
module UniverseTs {
  import opened RealMath
  import opened Wrappers
  import Cosmology
  import Integrator
  import UniverseSeries

  /** The fields of a `Simulation_universe`. */
  datatype Cosmos = Cosmos(
    temperature: real,
    hubble: real,
    h0parsec: real,
    matter: real,
    darkEnergy: Cosmology.DarkEnergy,
    constants: Cosmology.Constants,
    hasCmb: bool,
    hasNeutrino: bool,
    isFlat: bool)

  // ---------------------------------------------------------------------
  // Density parameters
  // ---------------------------------------------------------------------

  /** `calcul_omega_r`: the radiation parameter, times 1.68 with neutrinos, 0 without CMB. */
  function OmegaR(m: Math, u: Cosmos): real {
    var base := Cosmology.RadiationParameter(m, u.constants, u.temperature, u.h0parsec);
    var withNeutrino := if u.hasNeutrino then base * 1.68 else base;
    if !u.hasCmb then 0.0 else withNeutrino
  }

  /** Without CMB there is no radiation; with it, neutrinos multiply the parameter by 1.68. */
  lemma OmegaRFlags(m: Math, u: Cosmos)
    ensures !u.hasCmb ==> OmegaR(m, u) == 0.0
    ensures u.hasCmb ==> OmegaR(m, u.(hasNeutrino := true)) == 1.68 * OmegaR(m, u.(hasNeutrino := false))
    ensures OmegaR(m, u) == OmegaR(m, u.(matter := 0.0, darkEnergy := Cosmology.DefaultDarkEnergy, isFlat := false))
  {
  }

  /** `calcul_omega_k`. */
  function OmegaK(m: Math, u: Cosmos): real {
    Cosmology.Curvature(u.isFlat, OmegaR(m, u), u.matter, u.darkEnergy.parameterValue)
  }

  /** The sum `check_sum_omegas` compares with 1: identically 1 unless the universe is flat. */
  function SumOmegas(m: Math, u: Cosmos): (s: real)
    ensures !u.isFlat ==> s == 1.0
    ensures u.isFlat ==> s == u.matter + OmegaR(m, u) + u.darkEnergy.parameterValue
  {
    u.matter + OmegaR(m, u) + u.darkEnergy.parameterValue + OmegaK(m, u)
  }

  /** `F`: the normalised Friedmann function of this universe. */
  function F(m: Math, u: Cosmos, x: real): real {
    Cosmology.Friedmann(m, u.darkEnergy, OmegaK(m, u), u.matter, OmegaR(m, u), x)
  }

  /** Today `F` is the sum of the density parameters, so it is 1 whenever the budget is closed. */
  lemma FToday(m: Math, u: Cosmos)
    requires Lawful(m)
    ensures F(m, u, 0.0) == SumOmegas(m, u)
    ensures !u.isFlat ==> F(m, u, 0.0) == 1.0
  {
    Cosmology.FriedmannAtZero(m, u.darkEnergy, OmegaK(m, u), u.matter, OmegaR(m, u));
  }

  /** `function_E`: `Ω_r(1+x)⁴ + Ω_m(1+x)³ + (1 - Ω_m - Ω_r - Ω_DE)(1+x)² + Ω_DE`. */
  function FunctionE(x: real, omegaM: real, omegaDE: real, omegaR: real): (e: real)
    ensures x == 0.0 ==> e == 1.0
  {
    omegaR * Pow4(1.0 + x) + omegaM * Cube(1.0 + x)
      + (1.0 - omegaM - omegaR - omegaDE) * Sq(1.0 + x) + omegaDE
  }

  /** `E` of the present density parameters. */
  function E(m: Math, u: Cosmos, z: real): real {
    FunctionE(z, u.matter, u.darkEnergy.parameterValue, OmegaR(m, u))
  }

  /** `T`: the temperature at redshift `z`. */
  function T(u: Cosmos, z: real): real {
    u.temperature * (1.0 + z)
  }

  /** The temperature scales with `1 + z` and is today's temperature at `z = 0`. */
  lemma TemperatureScales(u: Cosmos, z: real)
    ensures T(u, 0.0) == u.temperature
    ensures T(u, z) - T(u, 0.0) == z * u.temperature
  {
  }

  /** `H`: the Hubble parameter `H₀·√E(z)` at redshift `z` (`Math.pow(·, 0.5)` is the square root). */
  function H(m: Math, u: Cosmos, z: real): real {
    u.hubble * m.sqrt(E(m, u, z))
  }

  /** Today the Hubble parameter is the Hubble constant. */
  lemma HubbleToday(m: Math, u: Cosmos)
    requires Lawful(m)
    ensures H(m, u, 0.0) == u.hubble
  {
    SqrtOne(m);
  }

  /** `omega_m_shift` once the present parameters are read: `Ω_m(1 + z)³/E(z)`. */
  function MatterShift(m: Math, om: real, ode: real, or: real, z: real): real {
    m.Div(om * Cube(1.0 + z), FunctionE(z, om, ode, or))
  }

  /** `omega_k_shift` once the present parameters are read: `Ω_k(1 + z)²/E(z)`. */
  function CurvatureShift(m: Math, ok: real, om: real, ode: real, or: real, z: real): real {
    m.Div(ok * Sq(1.0 + z), FunctionE(z, om, ode, or))
  }

  /** `omega_DE_shift` once the present parameters are read: `Ω_DE/E(z)`. */
  function DarkEnergyShift(m: Math, om: real, ode: real, or: real, z: real): real {
    m.Div(ode, FunctionE(z, om, ode, or))
  }

  /** `omega_r_shift` once the present parameters are read: `Ω_r(1 + z)⁴/E(z)`. */
  function RadiationShift(m: Math, om: real, ode: real, or: real, z: real): real {
    m.Div(or * Pow4(1.0 + z), FunctionE(z, om, ode, or))
  }

  /** At `z = 0` each shifted parameter is the present one. */
  lemma ShiftsToday(m: Math, ok: real, om: real, ode: real, or: real)
    ensures MatterShift(m, om, ode, or, 0.0) == om
    ensures CurvatureShift(m, ok, om, ode, or, 0.0) == ok
    ensures DarkEnergyShift(m, om, ode, or, 0.0) == ode
    ensures RadiationShift(m, om, ode, or, 0.0) == or
  {
    assert FunctionE(0.0, om, ode, or) == 1.0;
    DivUnique(m, om, 1.0, om);
    DivUnique(m, ok, 1.0, ok);
    DivUnique(m, ode, 1.0, ode);
    DivUnique(m, or, 1.0, or);
  }

  /** When `Ω_k` closes the budget, the four shifted parameters add up to 1 wherever `E` is non-zero. */
  lemma ShiftsSumToOne(m: Math, ok: real, om: real, ode: real, or: real, z: real)
    requires ok == 1.0 - om - or - ode && FunctionE(z, om, ode, or) != 0.0
    ensures MatterShift(m, om, ode, or, z) + CurvatureShift(m, ok, om, ode, or, z)
      + DarkEnergyShift(m, om, ode, or, z) + RadiationShift(m, om, ode, or, z) == 1.0
  {
    var e := FunctionE(z, om, ode, or);
    var a, b, c, d := om * Cube(1.0 + z), ok * Sq(1.0 + z), ode, or * Pow4(1.0 + z);
    DivSum4(m, a, b, c, d, e);
    assert a + b + c + d == e;
    DivSelf(m, e);
  }

  /** The four shifted parameters of this universe at redshift `z`, in the order matter, curvature, dark energy, radiation. */
  function Shifts(m: Math, u: Cosmos, z: real): (real, real, real, real) {
    var om, ode, or := u.matter, u.darkEnergy.parameterValue, OmegaR(m, u);
    (MatterShift(m, om, ode, or, z), CurvatureShift(m, OmegaK(m, u), om, ode, or, z),
     DarkEnergyShift(m, om, ode, or, z), RadiationShift(m, om, ode, or, z))
  }

  /** In a curved universe the shifted parameters add up to 1 at every redshift where `E` is non-zero. */
  lemma CurvedShiftsSumToOne(m: Math, u: Cosmos, z: real)
    requires !u.isFlat && E(m, u, z) != 0.0
    ensures var s := Shifts(m, u, z); s.0 + s.1 + s.2 + s.3 == 1.0
  {
    ShiftsSumToOne(m, OmegaK(m, u), u.matter, u.darkEnergy.parameterValue, OmegaR(m, u), z);
  }

  // ---------------------------------------------------------------------
  // Integrands, durations and distances
  // ---------------------------------------------------------------------

  /** `integral_duration_substituated`: `((1 - y)/(1 - y)²)/√F(y/(1 - y))`. */
  function IntegralDurationSubstituted(m: Math, u: Cosmos, y: real): real {
    m.Div(m.Div(1.0 - y, Sq(1.0 - y)), m.sqrt(F(m, u, m.Div(y, 1.0 - y))))
  }

  /** The duration integrand as the function Simpson's rule samples. */
  function DurationIntegrand(m: Math, u: Cosmos): real -> real {
    (y: real) => IntegralDurationSubstituted(m, u, y)
  }

  /** `integral_distance`: `1/√F(x)`. */
  function IntegralDistance(m: Math, u: Cosmos, x: real): real {
    m.Div(1.0, m.sqrt(F(m, u, x)))
  }

  /** The distance integrand as the function Simpson's rule samples. */
  function DistanceIntegrand(m: Math, u: Cosmos): real -> real {
    (x: real) => IntegralDistance(m, u, x)
  }

  /** `universe_age`: Simpson's rule (the `i < n` revision, 10000 intervals) on `[0, 1]`, over `H₀`. */
  function UniverseAge(m: Math, u: Cosmos): real {
    m.Div(Integrator.SimpsonRule(DurationIntegrand(m, u), 0.0, 1.0, 10000), u.hubble)
  }

  /**
   * The integrand of `universe_age`, over `H₀`, is `dt/dz` at `x = y/(1 - y)`
   * times the Jacobian `dx/dy = 1/(1 - y)²`: integrating it over `[0, 1)` in
   * `y` integrates `dt/dz` over `[0, ∞)` in `z`.
   */
  lemma UniverseAgeSubstitution(m: Math, u: Cosmos, y: real, t: real)
    requires Lawful(m) && y != 1.0 && u.hubble != 0.0 && F(m, u, m.Div(y, 1.0 - y)) > 0.0
    ensures m.Div(IntegralDurationSubstituted(m, u, y), u.hubble)
      == m.Div(1.0, Sq(1.0 - y)) * EquaDiffTime(m, u, m.Div(y, 1.0 - y), t)
  {
    var x := m.Div(y, 1.0 - y);
    SqrtPositive(m, F(m, u, x));
    SubstitutionOver(m, y, m.sqrt(F(m, u, x)), u.hubble, IntegralDurationSubstituted(m, u, y), EquaDiffTime(m, u, x, t));
  }

  /** `Cosmology.DurationSubstitution` with the integrand and the slope given by their values. */
  lemma SubstitutionOver(m: Math, y: real, s: real, h: real, integrand: real, slope: real)
    requires y != 1.0 && s != 0.0 && h != 0.0
    requires integrand == m.Div(m.Div(1.0 - y, Sq(1.0 - y)), s)
    requires slope == m.Div(1.0, h * (1.0 + m.Div(y, 1.0 - y)) * s)
    ensures m.Div(integrand, h) == m.Div(1.0, Sq(1.0 - y)) * slope
  {
    Cosmology.DurationSubstitution(m, y, s, h);
  }

  /** `duration`: the time between redshifts `z₁` and `z₂`, or the error the source throws. */
  function Duration(m: Math, u: Cosmos, z1: real, z2: real): (r: Result<real>)
    ensures r.Failure? <==> z1 <= -1.0 || z2 <= -1.0
  {
    if z1 <= -1.0 || z2 <= -1.0 then
      Failure("Cosmologic shift z cannot be equal or lower than -1 included")
    else
      var infimum := z1 / (1.0 + z1);
      var supremum := z2 / (1.0 + z2);
      Success(m.Div(Integrator.SimpsonRule(DurationIntegrand(m, u), infimum, supremum, 1000), u.hubble))
  }

  /** No time passes between a redshift and itself. */
  lemma DurationSameShift(m: Math, u: Cosmos, z: real)
    requires z > -1.0 && u.hubble != 0.0
    ensures Duration(m, u, z, z) == Success(0.0)
  {
    var x := z / (1.0 + z);
    Integrator.SimpsonRuleZeroWidth(DurationIntegrand(m, u), x, 1000);
    DivUnique(m, 0.0, u.hubble, 0.0);
  }

  /** `metric_distance`: Simpson's rule (100 intervals) on `[0, z]`, curved by `Ω_k`, times `c/H₀`. */
  function MetricDistance(m: Math, u: Cosmos, z: real): real {
    var d := Integrator.SimpsonRule(DistanceIntegrand(m, u), 0.0, z, 100);
    Cosmology.Curved(m, OmegaK(m, u), d) * m.Div(u.constants.c, u.hubble)
  }

  /** The metric distance to ourselves is 0 in every geometry. */
  lemma MetricDistanceToday(m: Math, u: Cosmos)
    requires Lawful(m)
    ensures MetricDistance(m, u, 0.0) == 0.0
  {
    Integrator.SimpsonRuleZeroWidth(DistanceIntegrand(m, u), 0.0, 100);
    Cosmology.CurvedFacts(m, OmegaK(m, u), 0.0);
  }

  /** The optional `distance_metric` argument, or the metric distance when it is left out. */
  function MetricOrGiven(m: Math, u: Cosmos, z: real, distance: Option<real>): real {
    if distance.Some? then distance.value else MetricDistance(m, u, z)
  }

  /** `luminosity_distance`. */
  function LuminosityDistance(m: Math, u: Cosmos, z: real, distance: Option<real>): real {
    Cosmology.LuminosityDistance(z, MetricOrGiven(m, u, z, distance))
  }

  /** `angular_diameter_distance`. */
  function AngularDiameterDistance(m: Math, u: Cosmos, z: real, distance: Option<real>): real {
    Cosmology.AngularDiameterDistance(m, z, MetricOrGiven(m, u, z, distance))
  }

  /** `brightness`. */
  function Brightness(m: Math, u: Cosmos, z: real, luminosity: real, distance: Option<real>): real {
    Cosmology.Brightness(m, z, luminosity, MetricOrGiven(m, u, z, distance))
  }

  /** `apparent_diameter`. */
  function ApparentDiameter(m: Math, u: Cosmos, diameter: real, z: real, distance: Option<real>): real {
    Cosmology.ApparentDiameter(m, diameter, z, MetricOrGiven(m, u, z, distance))
  }

  /** `light_distance`: `c` times the duration since redshift `z`. */
  function LightDistance(m: Math, u: Cosmos, z: real): (r: Result<real>)
    ensures r.Failure? <==> z <= -1.0
  {
    var d := Duration(m, u, 0.0, z);
    if d.Failure? then Failure(d.error) else Success(d.value * u.constants.c)
  }

  /** `equa_diff_a`: the acceleration of the scale factor, radiation over `a³`. */
  function EquaDiffA(m: Math, u: Cosmos, tau: real, a: real, da: real): real {
    Cosmology.Acceleration(m, u.darkEnergy, OmegaR(m, u), u.matter, a)
  }

  /** With a cosmological constant `a'' = -Ω_r/a³ - Ω_m/(2a²) + Ω_DE·a`, half the slope of `a'² = a²F(1/a - 1)`. */
  lemma EquaDiffACosmologicalConstant(m: Math, u: Cosmos, tau: real, a: real, da: real)
    requires Lawful(m) && u.darkEnergy.w0 == -1.0 && u.darkEnergy.w1 == 0.0 && a != 0.0
    ensures EquaDiffA(m, u, tau, a, da)
      == -m.Div(OmegaR(m, u), Cube(a)) - m.Div(0.5 * u.matter, Sq(a)) + u.darkEnergy.parameterValue * a
    ensures 2.0 * EquaDiffA(m, u, tau, a, da)
      == Cosmology.EnergySlope(u.matter, OmegaR(m, u), u.darkEnergy.parameterValue, a, a)
  {
    Cosmology.AccelerationCosmologicalConstant(m, u.darkEnergy, OmegaR(m, u), u.matter, a);
    Cosmology.AccelerationIsHalfEnergySlope(m, u.darkEnergy, OmegaR(m, u), u.matter, a);
  }

  /** The slope `time` integrates. */
  function TimeSlope(m: Math, u: Cosmos): (real, real) -> real {
    (z: real, t: real) => EquaDiffTime(m, u, z, t)
  }

  /** The acceleration `compute_scale_factor` integrates. */
  function ScaleFactorAcceleration(m: Math, u: Cosmos): (real, real, real) -> real {
    (tau: real, a: real, da: real) => EquaDiffA(m, u, tau, a, da)
  }

  /** `equa_diff_time`: `dt/dz = 1/(H₀(1 + z)√F(z))`. */
  function EquaDiffTime(m: Math, u: Cosmos, z: real, t: real): real {
    m.Div(1.0, u.hubble * (1.0 + z) * m.sqrt(F(m, u, z)))
  }

  /** `ω(1 + z)³/f`: a density parameter as `compute_omegas` scales it, with `f` the value of `F(z)`. */
  function CubedShare(m: Math, omega: real, z: real, f: real): real {
    m.Div(omega * Cube(1.0 + z), f)
  }

  /** The scaled shares of four parameters add up to the scaled share of their sum. */
  lemma CubedSharesAdd(m: Math, a: real, b: real, c: real, d: real, z: real, f: real)
    requires f != 0.0
    ensures CubedShare(m, a, z, f) + CubedShare(m, b, z, f) + CubedShare(m, c, z, f) + CubedShare(m, d, z, f)
      == CubedShare(m, a + b + c + d, z, f)
  {
    ScaledDivSum4(m, a, b, c, d, Cube(1.0 + z), f);
  }

  /** One entry of `compute_omegas`. */
  function OmegaAt(m: Math, u: Cosmos, omega: real, z: real): real {
    CubedShare(m, omega, z, F(m, u, z))
  }

  /** In a curved universe `compute_omegas` at `z = 0` gives back the four present parameters. */
  lemma OmegaAtToday(m: Math, u: Cosmos, omega: real)
    requires Lawful(m) && !u.isFlat
    ensures OmegaAt(m, u, omega, 0.0) == omega
  {
    FToday(m, u);
    DivUnique(m, omega, 1.0, omega);
  }

  /** The four entries of `compute_omegas` add up to `(1 + z)³·ΣΩ/F(z)`, not to 1, since every one is scaled by `(1 + z)³`. */
  lemma OmegaAtSum(m: Math, u: Cosmos, z: real)
    requires F(m, u, z) != 0.0
    ensures OmegaAt(m, u, u.matter, z) + OmegaAt(m, u, OmegaR(m, u), z)
      + OmegaAt(m, u, u.darkEnergy.parameterValue, z) + OmegaAt(m, u, OmegaK(m, u), z)
      == CubedShare(m, SumOmegas(m, u), z, F(m, u, z))
  {
    CubedSharesAdd(m, u.matter, OmegaR(m, u), u.darkEnergy.parameterValue, OmegaK(m, u), z, F(m, u, z));
  }

  // ---------------------------------------------------------------------
  // check_sum_omegas
  // ---------------------------------------------------------------------

  /** Whether `check_sum_omegas` finds something to correct: 1 in a flat universe whose budget is not closed. */
  function Pending(m: Math, u: Cosmos): nat {
    if u.isFlat && SumOmegas(m, u) != 1.0 then 1 else 0
  }

  /**
   * The state `check_sum_omegas(modifyMatter)` leaves: in a flat universe
   * whose budget is not closed, the matter (or dark-energy) parameter becomes
   * what closes it; otherwise nothing changes.
   */
  function Corrected(m: Math, u: Cosmos, modifyMatter: bool): (c: Cosmos)
    ensures c.isFlat ==> SumOmegas(m, c) == 1.0
    ensures c.isFlat == u.isFlat && OmegaR(m, c) == OmegaR(m, u)
    ensures Pending(m, u) == 0 ==> c == u
    ensures modifyMatter ==> c == u.(matter := c.matter)
    ensures !modifyMatter ==> c == u.(darkEnergy := u.darkEnergy.(parameterValue := c.darkEnergy.parameterValue))
  {
    var omegaR := OmegaR(m, u);
    if Pending(m, u) == 0 then u
    else if modifyMatter then u.(matter := 1.0 - u.darkEnergy.parameterValue - omegaR)
    else u.(darkEnergy := u.darkEnergy.(parameterValue := 1.0 - u.matter - omegaR))
  }

  /** A corrected state needs no further correction: the setter/check recursion stops after one round. */
  lemma {:induction false} CorrectedIsFinal(m: Math, u: Cosmos, modifyMatter: bool, again: bool)
    ensures Pending(m, Corrected(m, u, modifyMatter)) == 0
    ensures Corrected(m, Corrected(m, u, modifyMatter), again) == Corrected(m, u, modifyMatter)
  {
  }

  /** The dark-energy record after `modify_dark_energy`'s optional `w₀` and `w₁`. */
  function WithShape(de: Cosmology.DarkEnergy, w0: Option<real>, w1: Option<real>): Cosmology.DarkEnergy {
    de.(w0 := OrElse(w0, de.w0), w1 := OrElse(w1, de.w1))
  }

  /**
   * The state `modify_dark_energy(value, w₀, w₁)` leaves: the new value is
   * stored and checked (correcting the matter parameter), then the
   * equation-of-state coefficients are replaced.
   */
  function DarkEnergyModified(m: Math, u: Cosmos, value: Option<real>, w0: Option<real>, w1: Option<real>): Cosmos {
    var v := if value.Some? then Corrected(m, u.(darkEnergy := u.darkEnergy.(parameterValue := value.value)), true) else u;
    v.(darkEnergy := WithShape(v.darkEnergy, w0, w1))
  }

  /** `modify_dark_energy` keeps a flat universe's budget closed whenever it is given a value, and changes `w₀`, `w₁` only as told. */
  lemma DarkEnergyModifiedFacts(m: Math, u: Cosmos, value: Option<real>, w0: Option<real>, w1: Option<real>)
    ensures var v := DarkEnergyModified(m, u, value, w0, w1);
      && (value.Some? && v.isFlat ==> SumOmegas(m, v) == 1.0)
      && (value.Some? ==> v.darkEnergy.parameterValue == value.value)
      && (value.None? ==> v == u.(darkEnergy := WithShape(u.darkEnergy, w0, w1)))
      && v.darkEnergy.w0 == OrElse(w0, u.darkEnergy.w0) && v.darkEnergy.w1 == OrElse(w1, u.darkEnergy.w1)
  {
    if value.Some? {
      var u' := u.(darkEnergy := u.darkEnergy.(parameterValue := value.value));
      var c := Corrected(m, u', true);
      assert OmegaR(m, c.(darkEnergy := WithShape(c.darkEnergy, w0, w1))) == OmegaR(m, c);
    }
  }

  /** The physical constants after `modify_constants`' optional arguments. */
  function ConstantsModified(k: Cosmology.Constants, c: Option<real>, boltzmann: Option<real>, planck: Option<real>, G: Option<real>): Cosmology.Constants {
    Cosmology.Constants(OrElse(c, k.c), OrElse(boltzmann, k.k), OrElse(planck, k.h), OrElse(G, k.G))
  }

  // ---------------------------------------------------------------------
  // The object
  // ---------------------------------------------------------------------

  /**
   * What `time(n, zmin, zmax)` returns: the RK4 series of `dt/dz` with step
   * `(zmax - zmin)/n` through `(zmin, duration(0, zmin))`, reaching past both
   * ends of a non-empty interval.
   */
  ghost predicate TimeSeries(m: Math, u: Cosmos, z: seq<real>, t: seq<real>, p: nat, n: nat, zmin: real, zmax: real)
    requires n > 0
  {
    && UniverseSeries.Series1(z, t, p, (zmax - zmin) / (n as real), TimeSlope(m, u))
    && p < |z| && p < |t|
    && z[p] == zmin && Duration(m, u, 0.0, zmin).Success? && t[p] == Duration(m, u, 0.0, zmin).value
    && (zmin < zmax ==> z[0] < zmin && zmax <= z[|z| - 1])
  }

  /** The step of `time` is positive on a non-empty interval. */
  lemma PositiveStep(zmin: real, zmax: real, n: nat)
    requires n > 0
    ensures zmin < zmax ==> (zmax - zmin) / (n as real) > 0.0
  {
  }

  class Universe {
    /** The `Math` functions the formulas call. */
    const math: Math
    var temperature: real
    var hubble: real
    var h0parsec: real
    var matter: real
    var darkEnergy: Cosmology.DarkEnergy
    var constants: Cosmology.Constants
    var hasCmb: bool
    var hasNeutrino: bool
    var isFlat: bool

    /** The current fields as a value. */
    function Model(): Cosmos
      reads this
    {
      Cosmos(temperature, hubble, h0parsec, matter, darkEnergy, constants, hasCmb, hasNeutrino, isFlat)
    }

    /**
     * The constructor: the given values, each argument left out taking its
     * default, the default dark energy, `H₀` also converted to 1/s; no budget check.
     */
    constructor(m: Math, au: real, constants: Cosmology.Constants, temperature: Option<real>, hubble: Option<real>,
                matter: Option<real>, hasCmb: Option<bool>, hasNeutrino: Option<bool>, isFlat: Option<bool>)
      ensures math == m
      ensures Model() == Cosmos(OrElse(temperature, Cosmology.DefaultTemperature), OrElse(hubble, Cosmology.DefaultHubble),
        Cosmology.HubbleSi(m, au, OrElse(hubble, Cosmology.DefaultHubble)), OrElse(matter, Cosmology.DefaultMatter),
        Cosmology.DefaultDarkEnergy, constants, OrElse(hasCmb, Cosmology.DefaultHasCmb),
        OrElse(hasNeutrino, Cosmology.DefaultHasNeutrino), OrElse(isFlat, Cosmology.DefaultIsFlat))
    {
      math := m;
      darkEnergy := Cosmology.DefaultDarkEnergy;
      this.constants := constants;
      this.temperature := OrElse(temperature, Cosmology.DefaultTemperature);
      this.hubble := OrElse(hubble, Cosmology.DefaultHubble);
      h0parsec := Cosmology.HubbleSi(m, au, OrElse(hubble, Cosmology.DefaultHubble));
      this.matter := OrElse(matter, Cosmology.DefaultMatter);
      this.hasCmb := OrElse(hasCmb, Cosmology.DefaultHasCmb);
      this.hasNeutrino := OrElse(hasNeutrino, Cosmology.DefaultHasNeutrino);
      this.isFlat := OrElse(isFlat, Cosmology.DefaultIsFlat);
    }

    /**
     * `check_sum_omegas(modifyMatter)`: reports whether a flat universe's
     * budget was open, and closes it by resetting the matter parameter (or,
     * through `modify_dark_energy`, the dark-energy parameter).  The source's
     * doc comment states the opposite return convention; this is what the code returns.
     */
    method CheckSumOmegas(modifyMatter: bool) returns (modified: bool)
      modifies this
      decreases Pending(math, Model()), 1
      ensures modified <==> Pending(math, old(Model())) == 1
      ensures Model() == Corrected(math, old(Model()), modifyMatter)
    {
      var omegaR := OmegaR(math, Model());
      var sum := matter + omegaR + darkEnergy.parameterValue + OmegaK(math, Model());
      modified := false;
      if isFlat && sum != 1.0 {
        modified := true;
        if modifyMatter {
          SetMatterParameter(1.0 - darkEnergy.parameterValue - omegaR);
        } else {
          ModifyDarkEnergy(Some(1.0 - matter - omegaR), None, None);
        }
      }
    }

    /** The `matter_parameter` setter. */
    method SetMatterParameter(v: real)
      modifies this
      decreases Pending(math, Model().(matter := v)), 2
      ensures Model() == Corrected(math, old(Model()).(matter := v), true)
    {
      matter := v;
      var _ := CheckSumOmegas(true);
    }

    /** `modify_dark_energy`: each argument left out keeps its field. */
    method ModifyDarkEnergy(value: Option<real>, w0: Option<real>, w1: Option<real>)
      modifies this
      decreases if value.Some? then Pending(math, Model().(darkEnergy := darkEnergy.(parameterValue := value.value))) else 0, 2
      ensures Model() == DarkEnergyModified(math, old(Model()), value, w0, w1)
    {
      if value.Some? {
        darkEnergy := darkEnergy.(parameterValue := value.value);
        var _ := CheckSumOmegas(true);
      }
      if w0.Some? {
        darkEnergy := darkEnergy.(w0 := w0.value);
      }
      if w1.Some? {
        darkEnergy := darkEnergy.(w1 := w1.value);
      }
    }

    /** The `temperature` setter. */
    method SetTemperature(v: real)
      modifies this
      ensures Model() == Corrected(math, old(Model()).(temperature := v), true)
    {
      temperature := v;
      var _ := CheckSumOmegas(true);
    }

    /** The `hubble_cst` setter: the value in 1/s is not refreshed. */
    method SetHubble(v: real)
      modifies this
      ensures Model() == Corrected(math, old(Model()).(hubble := v), true)
    {
      hubble := v;
      var _ := CheckSumOmegas(true);
    }

    /** The `H0parsec` setter. */
    method SetH0Parsec(v: real)
      modifies this
      ensures Model() == Corrected(math, old(Model()).(h0parsec := v), true)
    {
      h0parsec := v;
      var _ := CheckSumOmegas(true);
    }

    /** The `has_cmb` setter. */
    method SetHasCmb(v: bool)
      modifies this
      ensures Model() == Corrected(math, old(Model()).(hasCmb := v), true)
    {
      hasCmb := v;
      var _ := CheckSumOmegas(true);
    }

    /** The `has_neutrino` setter. */
    method SetHasNeutrino(v: bool)
      modifies this
      ensures Model() == Corrected(math, old(Model()).(hasNeutrino := v), true)
    {
      hasNeutrino := v;
      var _ := CheckSumOmegas(true);
    }

    /** The `is_flat` setter. */
    method SetIsFlat(v: bool)
      modifies this
      ensures Model() == Corrected(math, old(Model()).(isFlat := v), true)
    {
      isFlat := v;
      var _ := CheckSumOmegas(true);
    }

    /**
     * `modify_constants`: each argument left out keeps its constant.  The
     * year-type argument only sets a local variable, so it changes nothing;
     * the budget is not re-checked, although `c`, `k`, `h` and `G` enter `Ω_r`.
     */
    method ModifyConstants(c: Option<real>, boltzmann: Option<real>, planck: Option<real>, G: Option<real>, yearType: Option<string>)
      modifies this
      ensures Model() == old(Model()).(constants := ConstantsModified(old(constants), c, boltzmann, planck, G))
    {
      if c.Some? {
        constants := constants.(c := c.value);
      }
      if boltzmann.Some? {
        constants := constants.(k := boltzmann.value);
      }
      if planck.Some? {
        constants := constants.(h := planck.value);
      }
      if G.Some? {
        constants := constants.(G := G.value);
      }
    }

    /**
     * `compute_scale_factor`: integrates `a'' = equa_diff_a` from `a = 1`,
     * `a' = 1` at `τ = 0` in both directions while `a` stays in `[lo, hi)`,
     * then turns each `τ` into years, `(τ/H₀ + age)/year`.  `tau` is the
     * series before the rescaling.
     */
    method ComputeScaleFactor(step: real, lo: real, hi: real, universeAge: Option<real>, fuel: nat)
      returns (x: seq<real>, y: seq<real>, dy: seq<real>, tau: seq<real>, ghost p: nat)
      ensures UniverseSeries.Series2(tau, y, dy, p, step, ScaleFactorAcceleration(math, Model()))
      ensures tau[p] == 0.0 && y[p] == 1.0 && dy[p] == 1.0
      ensures UniverseSeries.Interior(y, lo, hi)
      ensures |x| == |tau|
      ensures forall k :: 0 <= k < |x| ==>
        x[k] == (math.Div(tau[k], hubble) + OrElse(universeAge, UniverseAge(math, Model()))) / Cosmology.YearSeconds
      ensures hubble != 0.0 ==> x[p] == OrElse(universeAge, UniverseAge(math, Model())) / Cosmology.YearSeconds
      ensures hubble != 0.0 ==> UniverseSeries.Grid(x, (step / hubble) / Cosmology.YearSeconds)
    {
      var u := Model();
      var m := math;
      var age := OrElse(universeAge, UniverseAge(m, u));
      tau, y, dy, p := UniverseSeries.RungeKuttaUniverse2(step, 0.0, 1.0, 1.0, ScaleFactorAcceleration(m, u), lo, hi, fuel);
      x := UniverseSeries.RescaleToYears(m, tau, u.hubble, age);
      if u.hubble != 0.0 {
        DivUnique(m, 0.0, u.hubble, 0.0);
        UniverseSeries.RescaledGrid(m, tau, x, u.hubble, age, step);
      }
    }

    /**
     * `time(n, zmin, zmax)`: the age at each redshift of `[zmin, zmax]`,
     * integrating `dt/dz` with step `(zmax - zmin)/n` from the duration since
     * `zmin`; the error of `duration` when `zmin <= -1`.
     */
    method Time(n: nat, zmin: real, zmax: real) returns (r: Result<(seq<real>, seq<real>)>, ghost p: nat)
      requires n > 0
      ensures r.Failure? <==> zmin <= -1.0
      ensures r.Success? ==> TimeSeries(math, Model(), r.value.0, r.value.1, p, n, zmin, zmax)
    {
      var u := Model();
      var m := math;
      var step := (zmax - zmin) / (n as real);
      var start := Duration(m, u, 0.0, zmin);
      if start.Failure? {
        return Failure(start.error), 0;
      }
      PositiveStep(zmin, zmax, n);
      var z, t;
      z, t, p := UniverseSeries.RungeKuttaUniverse1(step, zmin, start.value, TimeSlope(m, u), zmin, zmax);
      assert TimeSeries(m, u, z, t, p, n, zmin, zmax);
      r := Success((z, t));
    }

    /**
     * `compute_omegas`: for each redshift of `zs`, the matter, radiation,
     * dark-energy and curvature parameters, each scaled by `(1 + z)³/F(z)`.
     */
    method ComputeOmegas(zs: seq<real>) returns (matterSeries: seq<real>, radiation: seq<real>, darkEnergySeries: seq<real>, curvature: seq<real>)
      ensures |matterSeries| == |radiation| == |darkEnergySeries| == |curvature| == |zs|
      ensures forall k :: 0 <= k < |zs| ==>
        && matterSeries[k] == OmegaAt(math, Model(), matter, zs[k])
        && radiation[k] == OmegaAt(math, Model(), OmegaR(math, Model()), zs[k])
        && darkEnergySeries[k] == OmegaAt(math, Model(), darkEnergy.parameterValue, zs[k])
        && curvature[k] == OmegaAt(math, Model(), OmegaK(math, Model()), zs[k])
    {
      var u := Model();
      var omegaR := OmegaR(math, u);
      var omegaK := OmegaK(math, u);
      matterSeries, radiation, darkEnergySeries, curvature := [], [], [], [];
      for i := 0 to |zs|
        invariant |matterSeries| == |radiation| == |darkEnergySeries| == |curvature| == i
        invariant forall k :: 0 <= k < i ==>
          && matterSeries[k] == OmegaAt(math, u, matter, zs[k])
          && radiation[k] == OmegaAt(math, u, omegaR, zs[k])
          && darkEnergySeries[k] == OmegaAt(math, u, darkEnergy.parameterValue, zs[k])
          && curvature[k] == OmegaAt(math, u, omegaK, zs[k])
      {
        var z := zs[i];
        matterSeries := matterSeries + [OmegaAt(math, u, matter, z)];
        radiation := radiation + [OmegaAt(math, u, omegaR, z)];
        darkEnergySeries := darkEnergySeries + [OmegaAt(math, u, darkEnergy.parameterValue, z)];
        curvature := curvature + [OmegaAt(math, u, omegaK, z)];
      }
    }
  }
}
