/**
 * The formulas the three revisions of `Simulation_universe` share: the dark
 * energy record, the radiation density, the dark-energy evolution `Y`, the
 * normalised Friedmann function `F` as a function of the density parameters,
 * the curvature correction of the metric distance, and the distances derived
 * from a metric distance.
 */
module Cosmology {
  import opened RealMath

  /** `_dark_energy`: the density parameter and the two equation-of-state coefficients. */
  datatype DarkEnergy = DarkEnergy(parameterValue: real, w0: real, w1: real)

  /** The dark energy every constructor installs: a cosmological constant with Ω_DE = 0.6911. */
  const DefaultDarkEnergy: DarkEnergy := DarkEnergy(0.6911, -1.0, 0.0)

  /** The defaults of the `Simulation_universe` constructor's optional arguments. */
  const DefaultTemperature: real := 2.7255
  const DefaultHubble: real := 67.74
  const DefaultMatter: real := 0.3089
  const DefaultHasCmb: bool := true
  const DefaultHasNeutrino: bool := true
  const DefaultIsFlat: bool := false

  /** `_constants`: the physical constants the formulas read. */
  datatype Constants = Constants(c: real, k: real, h: real, G: real)

  /** Seconds in a Gregorian year, `3600·24·365.2425`. */
  const YearSeconds: real := 3600.0 * 24.0 * 365.2425

  /** A Hubble constant in km/s/Mpc converted to 1/s: `H·10³ / ((AU·180·3600/π)·10⁶)`. */
  function HubbleSi(m: Math, au: real, hubble: real): real {
    m.Div(hubble * 1000.0, m.Div(au * (180.0 * 3600.0), m.pi) * 1000000.0)
  }

  /** The conversion is a fixed factor (when AU and π are non-zero). */
  lemma HubbleSiIsLinear(m: Math, au: real, hubble: real)
    requires au != 0.0 && m.pi != 0.0
    ensures HubbleSi(m, au, hubble) == hubble * HubbleSi(m, au, 1.0)
  {
    var d := m.Div(au * (180.0 * 3600.0), m.pi) * 1000000.0;
    assert m.Div(au * (180.0 * 3600.0), m.pi) * m.pi == au * (180.0 * 3600.0);
    assert d != 0.0;
    assert m.Div(hubble * 1000.0, d) * d == hubble * 1000.0;
    assert m.Div(1000.0, d) * d == 1000.0;
    assert (hubble * m.Div(1000.0, d)) * d == hubble * 1000.0;
    DivUnique(m, hubble * 1000.0, d, hubble * m.Div(1000.0, d));
  }

  /** `calcul_rho_r`: black-body radiation density `4σT⁴/c³`, with `σ = 2π⁵k⁴/(15h³c²)`. */
  function RadiationDensity(m: Math, k: Constants, temperature: real): real {
    var sigma := m.Div(2.0 * (Pow4(m.pi) * m.pi) * Pow4(k.k), 15.0 * Cube(k.h) * Sq(k.c));
    m.Div(4.0 * sigma * Pow4(temperature), Cube(k.c))
  }

  /** The radiation density parameter `8πGρ_r / (3H₀²)` before the neutrino and CMB flags apply. */
  function RadiationParameter(m: Math, k: Constants, temperature: real, h0si: real): real {
    m.Div(8.0 * m.pi * k.G * RadiationDensity(m, k, temperature), 3.0 * Sq(h0si))
  }

  /** `Y(x) = exp(-3(w₀ + w₁ + 1)·ln x - 3w₁(1 - x))`: how the dark-energy density evolves. */
  function Y(m: Math, de: DarkEnergy, x: real): real {
    m.exp(-3.0 * (de.w0 + de.w1 + 1.0) * m.log(x) - 3.0 * de.w1 * (1.0 - x))
  }

  /** `Y(1) = 1` whatever the equation of state. */
  lemma YAtOne(m: Math, de: DarkEnergy)
    requires Lawful(m)
    ensures Y(m, de, 1.0) == 1.0
  {
    var l := m.log(1.0);
    assert l == 0.0;
    assert -3.0 * (de.w0 + de.w1 + 1.0) * l == 0.0;
    assert -3.0 * (de.w0 + de.w1 + 1.0) * l - 3.0 * de.w1 * (1.0 - 1.0) == 0.0;
  }

  /** With `w₀ = -1` and `w₁ = 0` (a cosmological constant) `Y ≡ 1`. */
  lemma YCosmologicalConstant(m: Math, de: DarkEnergy, x: real)
    requires Lawful(m) && de.w0 == -1.0 && de.w1 == 0.0
    ensures Y(m, de, x) == 1.0
  {
    assert de.w0 + de.w1 + 1.0 == 0.0;
    assert -3.0 * (de.w0 + de.w1 + 1.0) * m.log(x) == 0.0;
    assert -3.0 * (de.w0 + de.w1 + 1.0) * m.log(x) - 3.0 * de.w1 * (1.0 - x) == 0.0;
  }

  /** `F(x) = (1+x)²Ω_k + (1+x)³Ω_m + (1+x)⁴Ω_r + Y(1/(1+x))·Ω_DE`, for given density parameters. */
  function Friedmann(m: Math, de: DarkEnergy, omegaK: real, omegaM: real, omegaR: real, x: real): real {
    Sq(1.0 + x) * omegaK + Cube(1.0 + x) * omegaM + Pow4(1.0 + x) * omegaR
      + Y(m, de, m.Div(1.0, 1.0 + x)) * de.parameterValue
  }

  /** Today (`x = 0`) `F` is the sum of the four density parameters. */
  lemma FriedmannAtZero(m: Math, de: DarkEnergy, omegaK: real, omegaM: real, omegaR: real)
    requires Lawful(m)
    ensures Friedmann(m, de, omegaK, omegaM, omegaR, 0.0) == omegaK + omegaM + omegaR + de.parameterValue
  {
    DivUnique(m, 1.0, 1.0, 1.0);
    YAtOne(m, de);
  }

  /** For a cosmological constant `F` is the polynomial `(1+x)²Ω_k + (1+x)³Ω_m + (1+x)⁴Ω_r + Ω_DE`. */
  lemma FriedmannCosmologicalConstant(m: Math, de: DarkEnergy, omegaK: real, omegaM: real, omegaR: real, x: real)
    requires Lawful(m) && de.w0 == -1.0 && de.w1 == 0.0
    ensures Friedmann(m, de, omegaK, omegaM, omegaR, x)
      == Sq(1.0 + x) * omegaK + Cube(1.0 + x) * omegaM + Pow4(1.0 + x) * omegaR + de.parameterValue
  {
    YCosmologicalConstant(m, de, m.Div(1.0, 1.0 + x));
  }

  /**
   * `calcul_omega_k` of the revisions that honour `is_flat`: 0 for a flat
   * universe, otherwise whatever closes the budget of the other three.
   */
  function Curvature(isFlat: bool, omegaR: real, omegaM: real, omegaDE: real): (k: real)
    ensures isFlat ==> k == 0.0
    ensures !isFlat ==> omegaM + omegaR + omegaDE + k == 1.0
  {
    if isFlat then 0.0 else 1.0 - omegaR - omegaM - omegaDE
  }

  /** `dY` of ts/class/simulation/simulation_universe.js: `Y(x)·(3w₁ - 3(1 + w₀ + w₁)/x)`, the derivative of `Y`. */
  function DY(m: Math, de: DarkEnergy, x: real): real {
    Y(m, de, x) * (3.0 * de.w1 - m.Div(3.0 * (1.0 + de.w0 + de.w1), x))
  }

  /** `dY` of the two older revisions: `Y(x)·(3w₁ - 3(1 + w₀ + w₁))`, the `1/x` factor missing. */
  function DYWithoutQuotient(m: Math, de: DarkEnergy, x: real): real {
    Y(m, de, x) * (3.0 * de.w1 - 3.0 * (1.0 + de.w0 + de.w1))
  }

  /** For a cosmological constant both forms of `dY` vanish (the first wherever `x != 0`). */
  lemma DYCosmologicalConstant(m: Math, de: DarkEnergy, x: real)
    requires de.w0 == -1.0 && de.w1 == 0.0
    ensures x != 0.0 ==> DY(m, de, x) == 0.0
    ensures DYWithoutQuotient(m, de, x) == 0.0
  {
    assert 3.0 * (1.0 + de.w0 + de.w1) == 0.0;
    if x != 0.0 {
      DivUnique(m, 0.0, x, 0.0);
    }
  }

  /**
   * The substitution `x = y/(1 - y)` behind `integral_duration_substituated`:
   * with `s = √F(x)`, the substituted integrand `((1 - y)/(1 - y)²)/s` is the
   * duration integrand `(1/(1 + x))/s` times the Jacobian `dx/dy = 1/(1 - y)²`,
   * and once divided by `H₀` it is `dt/dz = 1/(H₀(1 + x)s)` times the same
   * Jacobian.
   */
  lemma DurationSubstitution(m: Math, y: real, s: real, h: real)
    requires y != 1.0 && s != 0.0 && h != 0.0
    ensures 1.0 + m.Div(y, 1.0 - y) != 0.0
    ensures m.Div(m.Div(1.0 - y, Sq(1.0 - y)), s)
      == m.Div(1.0, Sq(1.0 - y)) * m.Div(m.Div(1.0, 1.0 + m.Div(y, 1.0 - y)), s)
    ensures m.Div(m.Div(m.Div(1.0 - y, Sq(1.0 - y)), s), h)
      == m.Div(1.0, Sq(1.0 - y)) * m.Div(1.0, h * (1.0 + m.Div(y, 1.0 - y)) * s)
  {
    IntegrandJacobian(m, y, s);
    SlopeJacobian(m, y, s, h);
  }

  /** The first half of `DurationSubstitution`: the substituted integrand before the division by `H₀`. */
  lemma IntegrandJacobian(m: Math, y: real, s: real)
    requires y != 1.0 && s != 0.0
    ensures 1.0 + m.Div(y, 1.0 - y) != 0.0
    ensures m.Div(m.Div(1.0 - y, Sq(1.0 - y)), s)
      == m.Div(1.0, Sq(1.0 - y)) * m.Div(m.Div(1.0, 1.0 + m.Div(y, 1.0 - y)), s)
  {
    JacobianFactors(m, y);
    ScaledBy(m, m.Div(1.0, Sq(1.0 - y)), 1.0 - y, s, m.Div(1.0 - y, Sq(1.0 - y)));
  }

  /** The second half of `DurationSubstitution`: the substituted integrand over `H₀`. */
  lemma SlopeJacobian(m: Math, y: real, s: real, h: real)
    requires y != 1.0 && s != 0.0 && h != 0.0
    ensures m.Div(m.Div(m.Div(1.0 - y, Sq(1.0 - y)), s), h)
      == m.Div(1.0, Sq(1.0 - y)) * m.Div(1.0, h * (1.0 + m.Div(y, 1.0 - y)) * s)
  {
    JacobianFactors(m, y);
    OverHubble(m, m.Div(1.0, Sq(1.0 - y)), 1.0 - y, s, h, 1.0 + m.Div(y, 1.0 - y), m.Div(1.0 - y, Sq(1.0 - y)),
      h * (1.0 + m.Div(y, 1.0 - y)) * s);
  }

  /** `1 + y/(1 - y)` is `1/(1 - y)`, and `(1 - y)/(1 - y)²` is `(1 - y)` times `1/(1 - y)²`. */
  lemma JacobianFactors(m: Math, y: real)
    requires y != 1.0
    ensures (1.0 + m.Div(y, 1.0 - y)) * (1.0 - y) == 1.0
    ensures m.Div(1.0, 1.0 + m.Div(y, 1.0 - y)) == 1.0 - y
    ensures m.Div(1.0 - y, Sq(1.0 - y)) == m.Div(1.0, Sq(1.0 - y)) * (1.0 - y)
  {
    var q := 1.0 - y;
    var t := 1.0 + m.Div(y, q);
    ShiftedReciprocal(m, y);
    DivUnique(m, 1.0, t, q);
    var sq := Sq(q);
    ProductNonZero(q, q, sq);
    ReciprocalScale(m.Div(1.0, sq), m.Div(q, sq), q, sq);
  }

  /** A factor `j` passes through a division: `p/s == j·(q/s)` when `p == j·q`. */
  lemma ScaledBy(m: Math, j: real, q: real, s: real, p: real)
    requires s != 0.0 && p == j * q
    ensures m.Div(p, s) == j * m.Div(q, s)
  {
    var b := m.Div(q, s);
    ScaledQuotient(j, b, s, q);
    DivUnique(m, p, s, j * b);
  }

  /** With `t·q == 1`, `p == j·q` and `d == h·t·s`: `(p/s)/h == j/d`. */
  lemma OverHubble(m: Math, j: real, q: real, s: real, h: real, t: real, p: real, d: real)
    requires s != 0.0 && h != 0.0 && t * q == 1.0 && p == j * q && d == h * t * s
    ensures m.Div(m.Div(p, s), h) == j * m.Div(1.0, d)
  {
    ProductNonZero(h, t, h * t);
    ProductNonZero(h * t, s, d);
    var c := m.Div(1.0, d);
    CancelShift(c, h, t, s, q);
    ScaledQuotient(j, c * h, s, q);
    var a := m.Div(p, s);
    DivUnique(m, p, s, j * (c * h));
    DivUnique(m, a, h, j * c);
  }

  /**
   * `z ↦ z/(1 + z)`, the bound `duration` gives the substituted integrand,
   * is undone by `y ↦ y/(1 - y)`: the substitution covers every redshift
   * `z != -1`.
   */
  lemma ShiftRoundTrip(m: Math, z: real)
    requires z != -1.0
    ensures m.Div(z, 1.0 + z) != 1.0
    ensures m.Div(m.Div(z, 1.0 + z), 1.0 - m.Div(z, 1.0 + z)) == z
  {
    var y := m.Div(z, 1.0 + z);
    assert y * (1.0 + z) == z;
    assert (1.0 - y) * (1.0 + z) == 1.0;
    assert z * (1.0 - y) == y;
    DivUnique(m, y, 1.0 - y, z);
  }

  /** `1 + y/(1 - y)` is the reciprocal of `1 - y`. */
  lemma ShiftedReciprocal(m: Math, y: real)
    requires y != 1.0
    ensures (1.0 + m.Div(y, 1.0 - y)) * (1.0 - y) == 1.0
  {
    var q := 1.0 - y;
    var x := m.Div(y, q);
    assert x * q == y;
  }

  /** With `j·S == 1` and `p·S == q`, `p == j·q`. */
  lemma ReciprocalScale(j: real, p: real, q: real, sq: real)
    requires sq != 0.0 && j * sq == 1.0 && p * sq == q
    ensures p == j * q
  {
    assert (j * q) * sq == q by {
      Associate(j, q, sq);
      assert q * sq == sq * q;
      Associate(j, sq, q);
    }
    assert (p - j * q) * sq == 0.0;
    ZeroProduct(p - j * q, sq);
  }

  /** With `b·s == q`, `(j·b)·s == j·q`. */
  lemma ScaledQuotient(j: real, b: real, s: real, q: real)
    requires b * s == q
    ensures (j * b) * s == j * q
  {
    Associate(j, b, s);
  }

  /** With `c·(h·t·s) == 1` and `t·q == 1`, `(c·h)·s == q`. */
  lemma CancelShift(c: real, h: real, t: real, s: real, q: real)
    requires c * (h * t * s) == 1.0 && t * q == 1.0
    ensures (c * h) * s == q
  {
    var k := (c * h) * s;
    assert k * t == 1.0;
    assert (k - q) * t == 0.0;
    ZeroProduct(k - q, t);
  }

  /**
   * `equa_diff_a` of ts/class/simulation/simulation_universe.js: the
   * acceleration `a'' = -Ω_r/a³ - Ω_m/(2a²) + Ω_DE·(a·Y(a) + a²·Y'(a)/2)`.
   */
  function Acceleration(m: Math, de: DarkEnergy, omegaR: real, omegaM: real, a: real): real {
    -m.Div(omegaR, Cube(a)) - m.Div(0.5 * omegaM, Sq(a))
      + de.parameterValue * (a * Y(m, de, a) + Sq(a) * DY(m, de, a) / 2.0)
  }

  /** `equa_diff_a` of the two older revisions: the radiation term divided by `a²`, and the older `dY`. */
  function AccelerationWithSquare(m: Math, de: DarkEnergy, omegaR: real, omegaM: real, a: real): real {
    -m.Div(omegaR, Sq(a)) - m.Div(0.5 * omegaM, Sq(a))
      + de.parameterValue * (a * Y(m, de, a) + Sq(a) * DYWithoutQuotient(m, de, a) / 2.0)
  }

  /** `a²` and `a³` are non-zero with `a`. */
  lemma PowersNonZero(a: real)
    requires a != 0.0
    ensures Sq(a) != 0.0 && Cube(a) != 0.0
  {
    var aa := a * a;
    ProductNonZero(a, a, aa);
    var aaa := aa * a;
    ProductNonZero(aa, a, aaa);
  }

  /** With a cosmological constant `a'' = -Ω_r/a³ - Ω_m/(2a²) + Ω_DE·a`. */
  lemma AccelerationCosmologicalConstant(m: Math, de: DarkEnergy, omegaR: real, omegaM: real, a: real)
    requires Lawful(m) && de.w0 == -1.0 && de.w1 == 0.0 && a != 0.0
    ensures Acceleration(m, de, omegaR, omegaM, a)
      == -m.Div(omegaR, Cube(a)) - m.Div(0.5 * omegaM, Sq(a)) + de.parameterValue * a
  {
    YCosmologicalConstant(m, de, a);
    DYCosmologicalConstant(m, de, a);
    PowersNonZero(a);
  }

  /** With a cosmological constant the older form is `-(Ω_r + Ω_m/2)/a² + Ω_DE·a`. */
  lemma AccelerationWithSquareCosmologicalConstant(m: Math, de: DarkEnergy, omegaR: real, omegaM: real, a: real)
    requires Lawful(m) && de.w0 == -1.0 && de.w1 == 0.0 && a != 0.0
    ensures AccelerationWithSquare(m, de, omegaR, omegaM, a)
      == -m.Div(omegaR + omegaM / 2.0, Sq(a)) + de.parameterValue * a
  {
    YCosmologicalConstant(m, de, a);
    DYCosmologicalConstant(m, de, a);
    PowersNonZero(a);
    var s := Sq(a);
    var inv := 1.0 / s;
    assert inv * s == 1.0;
    Quotient(omegaR, s, inv);
    Quotient(0.5 * omegaM, s, inv);
    Quotient(omegaR + omegaM / 2.0, s, inv);
  }

  /**
   * `(da/dτ)² = a²·F(1/a - 1) = Ω_r/a² + Ω_m/a + Ω_k + Ω_DE·a²·Y(a)` in units of
   * `H₀`: the quantity whose half-derivative the acceleration must be.
   */
  function Energy(m: Math, de: DarkEnergy, omegaK: real, omegaM: real, omegaR: real, a: real): real
    requires a != 0.0
  {
    ProductNonZero(a, a, a * a);
    omegaR / (a * a) + omegaM / a + omegaK + de.parameterValue * Sq(a) * Y(m, de, a)
  }

  /** `Energy` is `a²` times the Friedmann function at the redshift `1/a - 1` of the scale factor `a`, for every equation of state. */
  lemma EnergyIsScaledFriedmann(m: Math, de: DarkEnergy, omegaK: real, omegaM: real, omegaR: real, a: real)
    requires Lawful(m) && a != 0.0
    ensures Sq(a) * Friedmann(m, de, omegaK, omegaM, omegaR, 1.0 / a - 1.0)
      == Energy(m, de, omegaK, omegaM, omegaR, a)
  {
    var u := 1.0 / a;
    assert u * a == 1.0;
    assert 1.0 + (u - 1.0) == u;
    DivUnique(m, 1.0, u, a);
    var y := Y(m, de, a);
    assert Y(m, de, m.Div(1.0, 1.0 + (u - 1.0))) == y;
    var s := Sq(a);
    PowersNonZero(a);
    ScaledPowers(a, u);
    Quotient(omegaM, a, u);
    var inv := Sq(u);
    Quotient(omegaR, s, inv);
    assert s * (y * de.parameterValue) == de.parameterValue * s * y;
  }

  /** For a cosmological constant `Energy` is the rational function `Ω_r/a² + Ω_m/a + Ω_k + Ω_DE·a²`. */
  lemma EnergyCosmologicalConstant(m: Math, de: DarkEnergy, omegaK: real, omegaM: real, omegaR: real, a: real)
    requires Lawful(m) && de.w0 == -1.0 && de.w1 == 0.0 && a != 0.0
    ensures a * a != 0.0
    ensures Energy(m, de, omegaK, omegaM, omegaR, a)
      == omegaR / (a * a) + omegaM / a + omegaK + de.parameterValue * Sq(a)
  {
    ProductNonZero(a, a, a * a);
    YCosmologicalConstant(m, de, a);
  }

  /** With `u·a == 1`: `a²u² == 1`, `a²u³ == u` and `a²u⁴ == u²`. */
  lemma ScaledPowers(a: real, u: real)
    requires u * a == 1.0
    ensures Sq(a) * Sq(u) == 1.0 && Sq(a) * Cube(u) == u && Sq(a) * Pow4(u) == Sq(u)
    ensures Sq(u) * Sq(a) == 1.0
  {
    assert Sq(a) * Sq(u) == (u * a) * (u * a);
    assert Sq(a) * Cube(u) == (u * a) * (u * a) * u;
    assert Sq(a) * Pow4(u) == (u * a) * (u * a) * (u * u);
  }

  /**
   * The difference quotient of `Energy` between the scale factors `a` and `b`:
   * `Energy(b) - Energy(a) == (b - a)·EnergySlope(a, b)`, a rational function
   * that is continuous at `b == a`, where it is the derivative.
   */
  function EnergySlope(omegaM: real, omegaR: real, omegaDE: real, a: real, b: real): real
    requires a != 0.0 && b != 0.0
  {
    ProductNonZero(a, a, a * a);
    ProductNonZero(b, b, b * b);
    ProductNonZero(a * a, b * b, (a * a) * (b * b));
    ProductNonZero(a, b, a * b);
    -omegaR * (a + b) / ((a * a) * (b * b)) - omegaM / (a * b) + omegaDE * (a + b)
  }

  /** For a cosmological constant `EnergySlope` is the slope of the chord of `Energy` between `a` and `b`. */
  lemma EnergyChord(m: Math, de: DarkEnergy, omegaK: real, omegaM: real, omegaR: real, a: real, b: real)
    requires Lawful(m) && de.w0 == -1.0 && de.w1 == 0.0 && a != 0.0 && b != 0.0
    ensures Energy(m, de, omegaK, omegaM, omegaR, b) - Energy(m, de, omegaK, omegaM, omegaR, a)
      == (b - a) * EnergySlope(omegaM, omegaR, de.parameterValue, a, b)
  {
    EnergyCosmologicalConstant(m, de, omegaK, omegaM, omegaR, a);
    EnergyCosmologicalConstant(m, de, omegaK, omegaM, omegaR, b);
    RationalChord(omegaM, omegaR, de.parameterValue, a, b);
  }

  /** The chord of the rational form `Ω_r/a² + Ω_m/a + Ω_DE·a²`, term by term. */
  lemma RationalChord(omegaM: real, omegaR: real, omegaDE: real, a: real, b: real)
    requires a != 0.0 && b != 0.0
    ensures (omegaR / (b * b) - omegaR / (a * a)) + (omegaM / b - omegaM / a) + (omegaDE * Sq(b) - omegaDE * Sq(a))
      == (b - a) * EnergySlope(omegaM, omegaR, omegaDE, a, b)
  {
    var k := b - a;
    var x, y, z := -omegaR * (a + b) / ((a * a) * (b * b)), -(omegaM / (a * b)), omegaDE * (a + b);
    assert omegaR / (b * b) - omegaR / (a * a) == k * x by {
      InverseSquareChord(omegaR, a, b);
    }
    assert omegaM / b - omegaM / a == k * y by {
      InverseChord(omegaM, a, b);
      ProductNonZero(a, b, a * b);
      NegatedQuotient(omegaM, a * b);
    }
    assert omegaDE * Sq(b) - omegaDE * Sq(a) == k * z by {
      SquareChord(omegaDE, a, b);
    }
    assert EnergySlope(omegaM, omegaR, omegaDE, a, b) == x + y + z by {
      SlopeTerms(omegaM, omegaR, omegaDE, a, b);
    }
    ChordSum(k, omegaR / (b * b) - omegaR / (a * a), omegaM / b - omegaM / a, omegaDE * Sq(b) - omegaDE * Sq(a), x, y, z);
    Scale(k, EnergySlope(omegaM, omegaR, omegaDE, a, b), x + y + z);
  }

  /** Three chords with slopes `x`, `y` and `z` add up to one chord with slope `x + y + z`. */
  lemma ChordSum(k: real, dR: real, dM: real, dD: real, x: real, y: real, z: real)
    requires dR == k * x && dM == k * y && dD == k * z
    ensures dR + dM + dD == k * (x + y + z)
  {
    Combine(x, y, z, k);
  }

  lemma SlopeTerms(omegaM: real, omegaR: real, omegaDE: real, a: real, b: real)
    requires a != 0.0 && b != 0.0
    ensures EnergySlope(omegaM, omegaR, omegaDE, a, b)
      == -omegaR * (a + b) / ((a * a) * (b * b)) + -(omegaM / (a * b)) + omegaDE * (a + b)
  {
  }

  lemma Scale(k: real, s: real, t: real)
    requires s == t
    ensures k * s == k * t
  {
  }

  /** Three chords added up: the linear step of `EnergyChord`, with the products kept out of sight. */
  lemma Combine(x: real, y: real, z: real, k: real)
    ensures k * x + k * y + k * z == k * (x + y + z)
  {
  }

  lemma NegatedQuotient(c: real, q: real)
    requires q != 0.0
    ensures -c / q == -(c / q)
  {
    assert (c / q) * q == c;
    assert (-(c / q)) * q == -c;
  }

  /** The chord of `x ↦ c·x²` between `a` and `b` has slope `c(a + b)`. */
  lemma SquareChord(c: real, a: real, b: real)
    ensures c * Sq(b) - c * Sq(a) == (b - a) * (c * (a + b))
  {
  }

  /** At `b == a` the chord slope is twice the acceleration of the current revision: `a'' = ½·d(a'²)/da`. */
  lemma AccelerationIsHalfEnergySlope(m: Math, de: DarkEnergy, omegaR: real, omegaM: real, a: real)
    requires Lawful(m) && de.w0 == -1.0 && de.w1 == 0.0 && a != 0.0
    ensures EnergySlope(omegaM, omegaR, de.parameterValue, a, a) == 2.0 * Acceleration(m, de, omegaR, omegaM, a)
  {
    AccelerationCosmologicalConstant(m, de, omegaR, omegaM, a);
    PowersNonZero(a);
    RadiationSlopeTerm(omegaR, a);
    MatterSlopeTerm(omegaM, a);
  }

  /**
   * For every equation of state, twice the acceleration is the derivative of
   * `Energy` term by term: the exact slope of the radiation and matter terms,
   * and the product rule `2a·Y(a) + a²·Y'(a)` on `Ω_DE·a²·Y(a)`, with `dY` in
   * the place of `Y'`.
   */
  lemma AccelerationIsHalfEnergyRate(m: Math, de: DarkEnergy, omegaR: real, omegaM: real, a: real)
    requires Lawful(m) && a != 0.0
    ensures 2.0 * Acceleration(m, de, omegaR, omegaM, a)
      == EnergySlope(omegaM, omegaR, 0.0, a, a)
        + de.parameterValue * (2.0 * a * Y(m, de, a) + Sq(a) * DY(m, de, a))
  {
    PowersNonZero(a);
    RadiationSlopeTerm(omegaR, a);
    MatterSlopeTerm(omegaM, a);
    var y, dy := Y(m, de, a), DY(m, de, a);
    assert 2.0 * (de.parameterValue * (a * y + Sq(a) * dy / 2.0))
      == de.parameterValue * (2.0 * a * y + Sq(a) * dy);
  }

  lemma RadiationSlopeTerm(c: real, a: real)
    requires a != 0.0 && Cube(a) != 0.0
    ensures -c * (a + a) / ((a * a) * (a * a)) == -2.0 * (c / Cube(a))
  {
    var u := 1.0 / a;
    assert u * a == 1.0;
    ReciprocalPowers(a, u);
    Quotient(-c * (a + a), (a * a) * (a * a), Pow4(u));
    Quotient(c, Cube(a), Cube(u));
    DoubleOverFourth(a, u);
    Associate(-c, a + a, Pow4(u));
  }

  /** With `u·a == 1`: `(a + a)·u⁴ == 2u³`. */
  lemma DoubleOverFourth(a: real, u: real)
    requires u * a == 1.0
    ensures (a + a) * Pow4(u) == 2.0 * Cube(u)
  {
    assert Pow4(u) == Cube(u) * u;
    Associate(a + a, u, Cube(u));
    assert (a + a) * u == 2.0;
  }

  lemma MatterSlopeTerm(c: real, a: real)
    requires a != 0.0 && Sq(a) != 0.0
    ensures c / (a * a) == 2.0 * ((0.5 * c) / Sq(a))
  {
    var u := 1.0 / a;
    assert u * a == 1.0;
    ReciprocalPowers(a, u);
    Quotient(c, a * a, Sq(u));
    Quotient(0.5 * c, Sq(a), Sq(u));
  }

  /** With `u·a == 1`: `u²` inverts `a²`, `u³` inverts `a³` and `u⁴` inverts `a⁴`. */
  lemma ReciprocalPowers(a: real, u: real)
    requires u * a == 1.0
    ensures Pow4(u) * ((a * a) * (a * a)) == 1.0
    ensures Sq(u) * (a * a) == 1.0 && Sq(u) * Sq(a) == 1.0
    ensures Cube(u) * Cube(a) == 1.0
  {
    assert Sq(u) * (a * a) == (u * a) * (u * a);
    assert Cube(u) * Cube(a) == (u * a) * (u * a) * (u * a);
    assert Pow4(u) * ((a * a) * (a * a)) == (u * a) * (u * a) * (u * a) * (u * a);
  }

  /**
   * The older form is not: with `Ω_r = 1`, `Ω_m = Ω_DE = 0` and `a = 2` it gives
   * `-1/4` where half the slope of `Energy` is `-1/8`.
   */
  lemma AccelerationWithSquareIsNotHalfEnergySlope(m: Math, de: DarkEnergy)
    requires Lawful(m) && de == DarkEnergy(0.0, -1.0, 0.0)
    ensures AccelerationWithSquare(m, de, 1.0, 0.0, 2.0) == -0.25
    ensures EnergySlope(0.0, 1.0, 0.0, 2.0, 2.0) / 2.0 == -0.125
  {
    AccelerationWithSquareCosmologicalConstant(m, de, 1.0, 0.0, 2.0);
  }

  /** The curvature correction of `metric_distance`: `sinh(√|Ω_k|·d)/√|Ω_k|` when Ω_k < 0, `sin` when Ω_k > 0. */
  function Curved(m: Math, curvature: real, d: real): real {
    if curvature < 0.0 then m.Div(m.sinh(m.sqrt(Abs(curvature)) * d), m.sqrt(Abs(curvature)))
    else if curvature > 0.0 then m.Div(m.sin(m.sqrt(Abs(curvature)) * d), m.sqrt(Abs(curvature)))
    else d
  }

  /** A flat universe leaves the distance as it is, and a zero distance stays zero in every geometry. */
  lemma CurvedFacts(m: Math, curvature: real, d: real)
    requires Lawful(m)
    ensures curvature == 0.0 ==> Curved(m, curvature, d) == d
    ensures d == 0.0 ==> Curved(m, curvature, d) == 0.0
  {
    if d == 0.0 && curvature != 0.0 {
      var s := m.sqrt(Abs(curvature));
      SqrtPositive(m, Abs(curvature));
      assert s * d == 0.0;
      DivUnique(m, 0.0, s, 0.0);
    }
  }

  /** `luminosity`: the luminosity `4πI` of an object of uniform intensity `I`. */
  function Luminosity(m: Math, intensity: real): real {
    4.0 * m.pi * intensity
  }

  /** `luminosity_distance` once the metric distance `d` is known: `d·(1 + z)`. */
  function LuminosityDistance(z: real, d: real): real {
    d * (1.0 + z)
  }

  /** `angular_diameter_distance` once the metric distance `d` is known: `d/(1 + z)`. */
  function AngularDiameterDistance(m: Math, z: real, d: real): real {
    m.Div(d, 1.0 + z)
  }

  /** `brightness`: `L / (4π(d·(1 + z))²)`. */
  function Brightness(m: Math, z: real, luminosity: real, d: real): real {
    m.Div(luminosity, 4.0 * m.pi * Sq(d * (1.0 + z)))
  }

  /** `apparent_diameter`: `D_e·(1 + z)/d`. */
  function ApparentDiameter(m: Math, diameter: real, z: real, d: real): real {
    m.Div(diameter * (1.0 + z), d)
  }

  /** Etherington's relation: the luminosity distance is `(1 + z)²` times the angular-diameter distance. */
  lemma LuminosityIsSquareTimesAngular(m: Math, z: real, d: real)
    requires z != -1.0
    ensures LuminosityDistance(z, d) == Sq(1.0 + z) * AngularDiameterDistance(m, z, d)
  {
    var a := AngularDiameterDistance(m, z, d);
    assert a * (1.0 + z) == d;
    assert Sq(1.0 + z) * a == (a * (1.0 + z)) * (1.0 + z);
  }

  /** Inverse-square law: the brightness times the squared luminosity distance gives back `I`. */
  lemma BrightnessInverseSquare(m: Math, z: real, intensity: real, d: real)
    requires m.pi != 0.0 && LuminosityDistance(z, d) != 0.0
    ensures Brightness(m, z, Luminosity(m, intensity), d) * Sq(LuminosityDistance(z, d)) == intensity
  {
    var l := LuminosityDistance(z, d);
    var q := Sq(l);
    var b := Brightness(m, z, Luminosity(m, intensity), d);
    SqPositive(l);
    NonZeroProduct(4.0 * m.pi, q);
    assert b * (4.0 * m.pi * q) == 4.0 * m.pi * intensity;
    assert (b * q - intensity) * (4.0 * m.pi) == 0.0;
    ZeroProduct(b * q - intensity, 4.0 * m.pi);
  }

  /** The apparent diameter is the linear diameter over the angular-diameter distance. */
  lemma ApparentDiameterTimesAngular(m: Math, diameter: real, z: real, d: real)
    requires z != -1.0 && d != 0.0
    ensures ApparentDiameter(m, diameter, z, d) * AngularDiameterDistance(m, z, d) == diameter
  {
    var t := ApparentDiameter(m, diameter, z, d);
    var a := AngularDiameterDistance(m, z, d);
    var u := 1.0 + z;
    assert t * d == diameter * u;
    assert a * u == d;
    assert (t * a) * (u * d) == (t * d) * (a * u);
    assert (t * a - diameter) * (u * d) == 0.0;
    NonZeroProduct(u, d);
    ZeroProduct(t * a - diameter, u * d);
  }
}
