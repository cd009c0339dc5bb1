/**
 * The Kerr simulation of js/class/simulation/kerr.js: the closed-form
 * integration constants, potentials and radial accelerations of a massive
 * particle (MP) or a photon (PH) in the equatorial plane of a rotating body,
 * for an astronaut (A) or a distant observer (DO); and the per-mobile state
 * updates the simulation loop drives.
 *
 * The central body's `R_s`, `a`, `R_h+`, `R_h-` and mass are given fields.
 * The speed of light `c` and Newton's constant `G` are parameters.  Every
 * formula takes plain numbers, so that the mobile-level operations below only
 * pass a mobile's fields to them.
 */
module Kerr {
  import opened RealMath
  import opened Wrappers
  import Integrator
  import Schwarzschild

  /** The fields of `central_body` the Kerr methods read. */
  datatype Body = Body(rs: real, a: real, rhp: real, rhm: real, radius: real, mass: real)

  /** A clock reading: `clock_do` becomes `Infinity` once a mobile crosses the outer horizon. */
  datatype Clock = Finite(time: real) | Infinite

  /** `clock += d`: an infinite reading stays infinite. */
  function Advance(c: Clock, d: real): (r: Clock)
    ensures r.Infinite? <==> c.Infinite?
    ensures c.Finite? ==> r.time - c.time == d
  {
    if c.Finite? then Finite(c.time + d) else Infinite
  }

  // ---------------------------------------------------------------------
  // Formulas
  // ---------------------------------------------------------------------

  /** `KM_delta_r`: `Δ(r) = (r - R_h+)(r - R_h-)`. */
  function Delta(rhp: real, rhm: real, r: real): real {
    (r - rhp) * (r - rhm)
  }

  /** `Δ` vanishes on both horizons, and only there. */
  lemma DeltaZeros(rhp: real, rhm: real, r: real)
    ensures Delta(rhp, rhm, r) == 0.0 <==> r == rhp || r == rhm
  {
    if r != rhp && r != rhm {
      ProductNonZero(r - rhp, r - rhm, Delta(rhp, rhm, r));
    }
  }

  /** `W = (r² + a² + R_s a²/r)E - R_s a L/r`, the common denominator of `dφ/dτ` and `dt/dτ`. */
  function W(m: Math, rs: real, a: real, r: real, e: real, l: real): real {
    (Sq(r) + Sq(a) + m.Div(rs * Sq(a), r)) * e - m.Div(rs * a * l, r)
  }

  /** `R_s a E/r + (1 - R_s/r)L`, the numerator of `dφ/dτ`. */
  function AngularRate(m: Math, rs: real, a: real, r: real, e: real, l: real): real {
    m.Div(rs * a * e, r) + (1.0 - m.Div(rs, r)) * l
  }

  /** The radicand `U_r²(r - R_s)r³ + c²r(r - R_s)Δ + Δ²U_φ²` of a massive mobile's `E`. */
  function MassiveNumerator(c: real, rs: real, r: real, uR: real, uPhi: real, d: real): real {
    Sq(uR) * (r - rs) * Cube(r) + Sq(c) * r * (r - rs) * d + Sq(d) * Sq(uPhi)
  }

  /** The radicand `U_r²(r - R_s)r³ + Δ²U_φ²` of a photon's `E`. */
  function PhotonNumerator(rs: real, r: real, uR: real, uPhi: real, d: real): real {
    Sq(uR) * (r - rs) * Cube(r) + Sq(d) * Sq(uPhi)
  }

  /** The divisor `c²r²Δ` of both energies. */
  function EnergyScale(c: real, r: real, d: real): real {
    Sq(c) * Sq(r) * d
  }

  /** `E` of `KM_MP_integration_constants`: `√(U_r²(r - R_s)r³ + c²r(r - R_s)Δ + Δ²U_φ²)/(c²r²Δ)`, the root of the numerator only. */
  function MassiveEnergy(m: Math, c: real, rs: real, rhp: real, rhm: real, r: real, uR: real, uPhi: real): real {
    var d := Delta(rhp, rhm, r);
    m.Div(m.sqrt(MassiveNumerator(c, rs, r, uR, uPhi, d)), EnergyScale(c, r, d))
  }

  /** `E` of `KM_PH_integration_constants`: `√(U_r²(r - R_s)r³ + Δ²U_φ²)/(c²r²Δ)`, the root of the numerator only. */
  function PhotonEnergy(m: Math, c: real, rs: real, rhp: real, rhm: real, r: real, uR: real, uPhi: real): real {
    var d := Delta(rhp, rhm, r);
    m.Div(m.sqrt(PhotonNumerator(rs, r, uR, uPhi, d)), EnergyScale(c, r, d))
  }

  /** `L` of both integration-constant methods, from the `E` just computed: `(ΔU_φ - R_s a c E)/(c(r - R_s))`. */
  function AngularMomentum(m: Math, c: real, rs: real, a: real, rhp: real, rhm: real, r: real, uPhi: real, e: real): real {
    m.Div(1.0, c * (r - rs)) * (Delta(rhp, rhm, r) * uPhi - rs * a * c * e)
  }

  /**
   * Without rotation (`a = 0`, `R_h+ = R_s`, `R_h- = 0`) the Kerr angular
   * momentum is Schwarzschild's `U_φ r/c`.
   */
  lemma AngularMomentumWithoutRotation(m: Math, c: real, rs: real, r: real, uPhi: real, e: real)
    requires c != 0.0 && r != rs
    ensures AngularMomentum(m, c, rs, 0.0, rs, 0.0, r, uPhi, e) == Schwarzschild.AngularMomentum(m, c, r, uPhi)
  {
    var k := c * (r - rs);
    ProductNonZero(c, r - rs, k);
    var q := m.Div(1.0, k);
    var s := m.Div(uPhi * r, c);
    assert q * k == 1.0;
    assert s * c == uPhi * r;
    assert Delta(rs, 0.0, r) == r * (r - rs);
    calc {
      q * (r * (r - rs) * uPhi);
      q * ((s * c) * (r - rs));
      (q * k) * s;
      s;
    }
  }

  /** The `E` of `KM_MP_integration_constants` with the root taken of the whole quotient: `√(N/(c²r²Δ))`. */
  function MassiveEnergyCorrected(m: Math, c: real, rs: real, rhp: real, rhm: real, r: real, uR: real, uPhi: real): real {
    var d := Delta(rhp, rhm, r);
    m.sqrt(m.Div(MassiveNumerator(c, rs, r, uR, uPhi, d), EnergyScale(c, r, d)))
  }

  /** The `E` of `KM_PH_integration_constants` with the root taken of the whole quotient. */
  function PhotonEnergyCorrected(m: Math, c: real, rs: real, rhp: real, rhm: real, r: real, uR: real, uPhi: real): real {
    var d := Delta(rhp, rhm, r);
    m.sqrt(m.Div(PhotonNumerator(rs, r, uR, uPhi, d), EnergyScale(c, r, d)))
  }

  /**
   * With `U_r = u·c`, `U_φ = p·c`, `R_s = s·r` and `Δ = (r - R_s)r`, the terms of
   * Schwarzschild's radicands times `k = c²r²Δ` are the terms of the Kerr numerators.
   */
  lemma RadicandTerms(c: real, rs: real, r: real, uR: real, uPhi: real, u: real, p: real, s: real, d: real, k: real)
    requires u * c == uR && p * c == uPhi && s * r == rs
    requires d == Delta(rs, 0.0, r) && k == Sq(c) * Sq(r) * d
    ensures Sq(u) * k == Sq(uR) * (r - rs) * Cube(r)
    ensures (1.0 - s) * Sq(p) * k == Sq(d) * Sq(uPhi)
    ensures (1.0 - s) * k == Sq(c) * r * (r - rs) * d
  {
    var g := r - rs;
    assert d == g * r;
    assert (1.0 - s) * r == g;
    assert Sq(u) * k == Sq(u * c) * (g * Cube(r));
    assert (1.0 - s) * Sq(p) * k == ((1.0 - s) * r) * Sq(p * c) * (r * d);
    assert ((1.0 - s) * r) * (r * d) == g * r * d == Sq(d);
    assert (1.0 - s) * k == ((1.0 - s) * r) * (Sq(c) * r * d);
  }

  /** `c²r²Δ` is non-zero without rotation, off the axis and the horizon, and for `c != 0`. */
  lemma ScaleNonZero(c: real, rs: real, r: real, d: real)
    requires c != 0.0 && r != 0.0 && r != rs && d == Delta(rs, 0.0, r)
    ensures EnergyScale(c, r, d) != 0.0
  {
    ProductNonZero(r - rs, r, d);
    ProductNonZero(c, c, Sq(c));
    ProductNonZero(r, r, Sq(r));
    ProductNonZero(Sq(c), Sq(r), Sq(c) * Sq(r));
    ProductNonZero(Sq(c) * Sq(r), d, EnergyScale(c, r, d));
  }

  /** Without rotation the massive Kerr quotient is Schwarzschild's massive radicand. */
  lemma MassiveQuotientWithoutRotation(m: Math, c: real, rs: real, r: real, uR: real, uPhi: real, d: real)
    requires c != 0.0 && r != 0.0 && r != rs && d == Delta(rs, 0.0, r)
    ensures m.Div(MassiveNumerator(c, rs, r, uR, uPhi, d), EnergyScale(c, r, d))
      == Schwarzschild.ExternalMassiveRadicand(m, c, rs, r, uR, uPhi)
  {
    var u, p, s := m.Div(uR, c), m.Div(uPhi, c), m.Div(rs, r);
    var k := EnergyScale(c, r, d);
    RadicandTerms(c, rs, r, uR, uPhi, u, p, s, d, k);
    ScaleNonZero(c, rs, r, d);
    var q := Sq(u) + (1.0 - s) * (1.0 + Sq(p));
    assert q * k == Sq(u) * k + (1.0 - s) * k + (1.0 - s) * Sq(p) * k;
    DivUnique(m, MassiveNumerator(c, rs, r, uR, uPhi, d), k, q);
  }

  /** Without rotation the photon's Kerr quotient is Schwarzschild's photon radicand. */
  lemma PhotonQuotientWithoutRotation(m: Math, c: real, rs: real, r: real, uR: real, uPhi: real, d: real)
    requires c != 0.0 && r != 0.0 && r != rs && d == Delta(rs, 0.0, r)
    ensures m.Div(PhotonNumerator(rs, r, uR, uPhi, d), EnergyScale(c, r, d))
      == Schwarzschild.ExternalPhotonRadicand(m, c, rs, r, uR, uPhi)
  {
    var u, p, s := m.Div(uR, c), m.Div(uPhi, c), m.Div(rs, r);
    var k := EnergyScale(c, r, d);
    RadicandTerms(c, rs, r, uR, uPhi, u, p, s, d, k);
    ScaleNonZero(c, rs, r, d);
    var q := Sq(u) + (1.0 - s) * Sq(p);
    assert q * k == Sq(u) * k + (1.0 - s) * Sq(p) * k;
    DivUnique(m, PhotonNumerator(rs, r, uR, uPhi, d), k, q);
  }

  /**
   * Without rotation (`a = 0`, `R_h+ = R_s`, `R_h- = 0`) the corrected Kerr
   * energies are the `E` of `ESM_MP_integration_constants` and
   * `ESM_PH_integration_constants`, for both kinds of mobile.
   */
  lemma EnergyCorrectedWithoutRotation(m: Math, c: real, rs: real, r: real, uR: real, uPhi: real)
    requires c != 0.0 && r != 0.0 && r != rs
    ensures MassiveEnergyCorrected(m, c, rs, rs, 0.0, r, uR, uPhi) == Schwarzschild.ExternalMassiveConstants(m, c, rs, r, uR, uPhi).e
    ensures PhotonEnergyCorrected(m, c, rs, rs, 0.0, r, uR, uPhi) == Schwarzschild.ExternalPhotonConstants(m, c, rs, r, uR, uPhi).e
  {
    MassiveQuotientWithoutRotation(m, c, rs, r, uR, uPhi, Delta(rs, 0.0, r));
    PhotonQuotientWithoutRotation(m, c, rs, r, uR, uPhi, Delta(rs, 0.0, r));
  }

  /**
   * As written, the root is taken of the numerator only: with `R_s = R_h+ = 1`,
   * `a = R_h- = 0`, `r = 2`, `c = 1` and `U_r = 0`, a massive mobile at rest
   * and a photon with `U_φ = 1` both get `E = 1/4`, where Schwarzschild's
   * `E² = 1/2` (and `EnergyCorrectedWithoutRotation` gives the corrected `E` as
   * Schwarzschild's).
   */
  lemma EnergyAsWrittenIsNotSchwarzschilds(m: Math)
    requires Lawful(m)
    ensures MassiveEnergy(m, 1.0, 1.0, 1.0, 0.0, 2.0, 0.0, 0.0) == 0.25
    ensures PhotonEnergy(m, 1.0, 1.0, 1.0, 0.0, 2.0, 0.0, 1.0) == 0.25
    ensures Sq(Schwarzschild.ExternalMassiveConstants(m, 1.0, 1.0, 2.0, 0.0, 0.0).e) == 0.5
    ensures Sq(Schwarzschild.ExternalPhotonConstants(m, 1.0, 1.0, 2.0, 0.0, 1.0).e) == 0.5
  {
    assert Delta(1.0, 0.0, 2.0) == 2.0;
    assert MassiveNumerator(1.0, 1.0, 2.0, 0.0, 0.0, 2.0) == 4.0;
    assert PhotonNumerator(1.0, 2.0, 0.0, 1.0, 2.0) == 4.0;
    assert EnergyScale(1.0, 2.0, 2.0) == 8.0;
    SqrtOfSquare(m, 2.0);
    DivUnique(m, 2.0, 8.0, 0.25);
    DivUnique(m, 0.0, 1.0, 0.0);
    DivUnique(m, 1.0, 1.0, 1.0);
    DivUnique(m, 1.0, 2.0, 0.5);
    assert Schwarzschild.ExternalMassiveRadicand(m, 1.0, 1.0, 2.0, 0.0, 0.0) == 0.5;
    assert Schwarzschild.ExternalPhotonRadicand(m, 1.0, 1.0, 2.0, 0.0, 1.0) == 0.5;
    assert m.sqrt(0.5) * m.sqrt(0.5) == 0.5;
  }

  /** `KM_MP_potential_A`: `1 - R_s/r - (a²(E² - 1) - L²)/r² - R_s(L - aE)²/r³`. */
  function MassivePotentialA(m: Math, rs: real, a: real, r: real, e: real, l: real): real {
    1.0 - m.Div(rs, r) - m.Div(Sq(a) * (Sq(e) - 1.0) - Sq(l), Sq(r)) - m.Div(rs * Sq(l - a * e), Cube(r))
  }

  /** `KM_PH_potential_A`: `-(a²E² - L²)/r² - R_s(L - aE)²/r³`. */
  function PhotonPotentialA(m: Math, rs: real, a: real, r: real, e: real, l: real): real {
    m.Div(-(Sq(a) * Sq(e) - Sq(l)), Sq(r)) - m.Div(rs * Sq(l - a * e), Cube(r))
  }

  /** The distant observer's potential from the astronaut's: `E² - (c²E² - V_A)Δ²/(W²c²)`. */
  function PotentialDO(m: Math, c: real, rs: real, a: real, rhp: real, rhm: real, r: real, e: real, l: real, va: real): real {
    var x := (Sq(c) * Sq(e) - va) * Sq(Delta(rhp, rhm, r));
    Sq(e) - m.Div(x, Sq(W(m, rs, a, r, e, l)) * Sq(c))
  }

  /** `KM_MP_potential_DO`. */
  function MassivePotentialDO(m: Math, c: real, rs: real, a: real, rhp: real, rhm: real, r: real, e: real, l: real): real {
    PotentialDO(m, c, rs, a, rhp, rhm, r, e, l, MassivePotentialA(m, rs, a, r, e, l))
  }

  /** `KM_PH_potential_DO`. */
  function PhotonPotentialDO(m: Math, c: real, rs: real, a: real, rhp: real, rhm: real, r: real, e: real, l: real): real {
    PotentialDO(m, c, rs, a, rhp, rhm, r, e, l, PhotonPotentialA(m, rs, a, r, e, l))
  }

  /** A massive particle's astronaut potential exceeds a photon's by `1 - R_s/r + a²/r²` (for `r != 0`). */
  lemma PotentialGap(m: Math, rs: real, a: real, r: real, e: real, l: real)
    requires r != 0.0
    ensures MassivePotentialA(m, rs, a, r, e, l) - PhotonPotentialA(m, rs, a, r, e, l)
      == 1.0 - m.Div(rs, r) + m.Div(Sq(a), Sq(r))
  {
    var r2 := Sq(r);
    ProductNonZero(r, r, r2);
    var p := m.Div(Sq(a) * (Sq(e) - 1.0) - Sq(l), r2);
    var q := m.Div(-(Sq(a) * Sq(e) - Sq(l)), r2);
    var s := m.Div(Sq(a), r2);
    assert p * r2 == Sq(a) * (Sq(e) - 1.0) - Sq(l);
    assert q * r2 == -(Sq(a) * Sq(e) - Sq(l));
    assert s * r2 == Sq(a);
    assert (-p - q - s) * r2 == 0.0;
    ZeroProduct(-p - q - s, r2);
  }

  /**
   * `KM_MP_trajectory_A` as written:
   * `c²/(2r⁴)·(R_s r² + 2r(a²(E² - 1) - L²) + 3R_s(L - aE)²)`.
   */
  function MassiveAAsWritten(m: Math, c: real, rs: real, a: real, r: real, e: real, l: real): real {
    m.Div(Sq(c), 2.0 * Pow4(r)) * (rs * Sq(r) + 2.0 * r * (Sq(a) * (Sq(e) - 1.0) - Sq(l)) + 3.0 * rs * Sq(l - a * e))
  }

  /** `KM_MP_trajectory_A` with the sign of the photon's and of the Schwarzschild formulas. */
  function MassiveA(m: Math, c: real, rs: real, a: real, r: real, e: real, l: real): real {
    -m.Div(Sq(c), 2.0 * Pow4(r)) * (rs * Sq(r) + 2.0 * r * (Sq(a) * (Sq(e) - 1.0) - Sq(l)) + 3.0 * rs * Sq(l - a * e))
  }

  /** `KM_PH_trajectory_A`: `-c²/(2r⁴)·(2r(a²E² - L²) + 3R_s(L - aE)²)`. */
  function PhotonA(m: Math, c: real, rs: real, a: real, r: real, e: real, l: real): real {
    -m.Div(Sq(c), 2.0 * Pow4(r)) * (2.0 * r * (Sq(a) * Sq(e) - Sq(l)) + 3.0 * rs * Sq(l - a * e))
  }

  /** A photon with `L = aE` has no radial acceleration. */
  lemma PhotonAZeroWhenLIsAE(m: Math, c: real, rs: real, a: real, r: real, e: real)
    ensures PhotonA(m, c, rs, a, r, e, a * e) == 0.0
  {
    assert Sq(a) * Sq(e) - Sq(a * e) == 0.0;
    assert Sq(a * e - a * e) == 0.0;
  }

  /** Without rotation the Kerr photon equation is Schwarzschild's. */
  lemma PhotonAWithoutRotation(m: Math, c: real, rs: real, r: real, e: real, l: real)
    ensures PhotonA(m, c, rs, 0.0, r, e, l) == Schwarzschild.ExternalPhotonA(m, c, rs, r, l)
  {
    var q := m.Div(Sq(c), 2.0 * Pow4(r));
    assert Sq(l - 0.0 * e) == Sq(l);
    assert -q * (2.0 * r * (Sq(0.0) * Sq(e) - Sq(l)) + 3.0 * rs * Sq(l)) == q * (2.0 * r - 3.0 * rs) * Sq(l);
  }

  /**
   * Without rotation the massive-particle equation as written is the
   * negative of Schwarzschild's, where the photon equations agree.
   */
  lemma MassiveAAsWrittenWithoutRotation(m: Math, c: real, rs: real, r: real, e: real, l: real)
    ensures MassiveAAsWritten(m, c, rs, 0.0, r, e, l) == -Schwarzschild.ExternalMassiveA(m, c, rs, r, l)
  {
    var q := m.Div(Sq(c), 2.0 * Pow4(r));
    assert Sq(l - 0.0 * e) == Sq(l);
    assert q * (rs * Sq(r) + 2.0 * r * (Sq(0.0) * (Sq(e) - 1.0) - Sq(l)) + 3.0 * rs * Sq(l))
      == -(q * (-rs * Sq(r) + (2.0 * r - 3.0 * rs) * Sq(l)));
  }

  /**
   * The radial attraction on a non-rotating body pointing outwards: with
   * `c = 1`, `R_s = 1`, `r = 1`, `L = 0`, the massive equation as written
   * gives `+1/2` where Schwarzschild's gives `-1/2`.
   */
  lemma MassiveAAsWrittenRepels(m: Math)
    ensures MassiveAAsWritten(m, 1.0, 1.0, 0.0, 1.0, 1.0, 0.0) == 0.5
    ensures Schwarzschild.ExternalMassiveA(m, 1.0, 1.0, 1.0, 0.0) == -0.5
  {
    assert m.Div(1.0, 2.0) == 0.5;
  }

  /** With the sign corrected, the massive equation without rotation is Schwarzschild's. */
  lemma MassiveAWithoutRotation(m: Math, c: real, rs: real, r: real, e: real, l: real)
    ensures MassiveA(m, c, rs, 0.0, r, e, l) == Schwarzschild.ExternalMassiveA(m, c, rs, r, l)
  {
    MassiveAAsWrittenWithoutRotation(m, c, rs, r, e, l);
  }

  /**
   * With the sign corrected, a massive particle's acceleration is a
   * photon's plus `-c²R_s/(2r²) + c²a²(E² - (E² - 1))/r³`: the Newtonian pull
   * and the spin term, as in the Schwarzschild pair.
   */
  lemma MassiveMinusPhoton(m: Math, c: real, rs: real, a: real, r: real, e: real, l: real)
    requires r != 0.0
    ensures MassiveA(m, c, rs, a, r, e, l) - PhotonA(m, c, rs, a, r, e, l)
      == -m.Div(Sq(c), 2.0 * Pow4(r)) * (rs * Sq(r) - 2.0 * r * Sq(a))
  {
    var q := m.Div(Sq(c), 2.0 * Pow4(r));
    var x := Sq(a) * (Sq(e) - 1.0) - Sq(l);
    var y := Sq(a) * Sq(e) - Sq(l);
    assert x - y == -Sq(a);
    assert -q * (rs * Sq(r) + 2.0 * r * x + 3.0 * rs * Sq(l - a * e)) - -q * (2.0 * r * y + 3.0 * rs * Sq(l - a * e))
      == -q * (rs * Sq(r) + 2.0 * r * (x - y));
  }

  /**
   * `KM_MP_trajectory_DO`; `d` is `KM_delta_r(mobile)`, read from the
   * mobile's stored radius rather than from the Runge-Kutta stage's `r`.
   */
  function MassiveDO(m: Math, c: real, rs: real, a: real, r: real, e: real, l: real, d: real): real {
    var w := W(m, rs, a, r, e, l);
    var x := Sq(e) * Sq(a) - Sq(l) - Sq(a);
    var y := rs * Sq(l - a * e);
    var z := 2.0 * (Sq(e) - 1.0 + m.Div(rs, r) + m.Div(x, Sq(r)) + m.Div(y, Cube(r)));
    m.Div(Sq(c) * d, 2.0 * Sq(w))
      * ((m.Div(-rs, Sq(r)) - m.Div(2.0 * x, Cube(r)) - m.Div(3.0 * y, Pow4(r))) * d
         + z * (2.0 * r - rs)
         - m.Div(z * ((2.0 * r - m.Div(rs * Sq(a), Sq(r))) * e + m.Div(rs * a * l, Sq(r))) * d, w))
  }

  /** `KM_PH_trajectory_DO`, with `d` as in `MassiveDO`. */
  function PhotonDO(m: Math, c: real, rs: real, a: real, r: real, e: real, l: real, d: real): real {
    var w := W(m, rs, a, r, e, l);
    var x := Sq(e) * Sq(a) - Sq(l);
    var y := rs * Sq(l - a * e);
    var z := 2.0 * (Sq(e) + m.Div(x, Sq(r)) + m.Div(y, Cube(r)));
    m.Div(Sq(c) * d, 2.0 * Sq(w))
      * ((m.Div(-2.0 * x, Cube(r)) - m.Div(3.0 * y, Pow4(r))) * d
         + z * (2.0 * r - rs)
         - m.Div(z * ((2.0 * r - m.Div(rs * Sq(a), Sq(r))) * e + m.Div(rs * a * l, Sq(r))) * d, w))
  }

  /** For a mobile stored on a horizon (`Δ = 0`) both distant-observer accelerations vanish, when `W != 0`. */
  lemma DistantObserverVanishesOnHorizon(m: Math, c: real, rs: real, a: real, r: real, e: real, l: real)
    requires W(m, rs, a, r, e, l) != 0.0
    ensures MassiveDO(m, c, rs, a, r, e, l, 0.0) == 0.0
    ensures PhotonDO(m, c, rs, a, r, e, l, 0.0) == 0.0
  {
    var w := W(m, rs, a, r, e, l);
    var w2 := Sq(w);
    ProductNonZero(w, w, w2);
    DivUnique(m, 0.0, 2.0 * w2, 0.0);
  }

  // ---------------------------------------------------------------------
  // Mobile updates, on values
  // ---------------------------------------------------------------------

  /** The fields of a mobile the Kerr methods read or write. */
  datatype MobileState = MobileState(
    isPhoton: bool,
    r: real, phi: real, uR: real, uPhi: real,
    e: real, l: real, dtau: real,
    clockA: Clock, clockDo: Clock,
    vR: real, vAlpha: real, vPhi: real, vNorm: real)

  /** `U_r` and `U_φ` of `mobile_initialization` for a massive mobile launched at speed `v_r` and angle `v_α`. */
  function MassiveLaunch(m: Math, c: real, rs: real, rhp: real, rhm: real, r: real, vR: real, vAlpha: real): (real, real) {
    var d := Delta(rhp, rhm, r);
    (m.Div(vR * m.cos(vAlpha) * c * m.sqrt(d), r * m.sqrt(Sq(c) - Sq(vR))),
     vR * m.sin(vAlpha) * c * m.sqrt(m.Div(Abs(r * (r - rs)), m.sqrt(d * (Sq(c) - Sq(vR))))))
  }

  /** `U_r` and `U_φ` of `mobile_initialization` for a photon launched at angle `v_α`. */
  function PhotonLaunch(m: Math, c: real, rs: real, rhp: real, rhm: real, r: real, vAlpha: real): (real, real) {
    var d := Delta(rhp, rhm, r);
    (c * m.cos(vAlpha) * m.sqrt(m.Div(d, r * (r - rs))),
     m.Div(c * m.sin(vAlpha) * r, m.sqrt(d)))
  }

  /** `U_r`, `U_φ`, `E` and `L` as `mobile_initialization` computes them from a mobile's kind, radius and launch. */
  function LaunchConstants(m: Math, c: real, b: Body, isPhoton: bool, r: real, vR: real, vAlpha: real): (real, real, real, real) {
    var u := if isPhoton then PhotonLaunch(m, c, b.rs, b.rhp, b.rhm, r, vAlpha)
             else MassiveLaunch(m, c, b.rs, b.rhp, b.rhm, r, vR, vAlpha);
    var e := if isPhoton then PhotonEnergy(m, c, b.rs, b.rhp, b.rhm, r, u.0, u.1)
             else MassiveEnergy(m, c, b.rs, b.rhp, b.rhm, r, u.0, u.1);
    (u.0, u.1, e, AngularMomentum(m, c, b.rs, b.a, b.rhp, b.rhm, r, u.1, e))
  }

  /** What `mobile_initialization` makes of one mobile: only `U_r`, `U_φ`, `E` and `L` change. */
  function Initialized(m: Math, c: real, b: Body, s: MobileState): (t: MobileState)
    ensures t == s.(uR := t.uR, uPhi := t.uPhi, e := t.e, l := t.l)
    ensures (t.uR, t.uPhi, t.e, t.l) == LaunchConstants(m, c, b, s.isPhoton, s.r, s.vR, s.vAlpha)
  {
    var k := LaunchConstants(m, c, b, s.isPhoton, s.r, s.vR, s.vAlpha);
    s.(uR := k.0, uPhi := k.1, e := k.2, l := k.3)
  }

  /** The free-fall time `π r √(√(r/(2GM)))/2` that caps `dtau`. */
  function FreeFallTime(m: Math, G: real, mass: real, r: real): real {
    m.pi * r * m.sqrt(m.sqrt(m.Div(r, 2.0 * G * mass))) / 2.0
  }

  /** `raw`, capped at `cap`. */
  function Clamped(raw: real, cap: real): (d: real)
    ensures d <= cap
    ensures raw <= cap ==> d == raw
  {
    if raw > cap then cap else raw
  }

  /**
   * The `dtau` `mobile_dtau(frame)` gives a mobile: capped at a 500th of the
   * free-fall time, except for a photon in the astronaut's frame.
   */
  function Dtau(m: Math, G: real, mass: real, s: MobileState, frame: string): (d: real)
    ensures !s.isPhoton || frame != "A" ==> d <= FreeFallTime(m, G, mass, s.r) / 500.0
    ensures s.isPhoton && frame == "A" ==> d == m.Div(0.001 * s.r, Abs(s.uR) + Abs(s.uPhi) + 1.0)
  {
    var cap := FreeFallTime(m, G, mass, s.r) / 500.0;
    if !s.isPhoton then Clamped(m.Div(s.r * 500.0, m.sqrt(Sq(s.uR) + Sq(s.uPhi)) + 1e-20), cap)
    else if frame == "A" then m.Div(0.001 * s.r, Abs(s.uR) + Abs(s.uPhi) + 1.0)
    else Clamped(m.Div(s.r, m.sqrt(Sq(s.uR) + Sq(s.uPhi)) + 1.0) / 1000.0, cap)
  }

  /** The right-hand sides `mobile_trajectory` can pass to Runge-Kutta; `t` and `U_r` are unused. */
  function MassiveAAsWrittenRhs(m: Math, c: real, b: Body, e: real, l: real): (real, real, real) -> real {
    (t: real, r: real, uR: real) => MassiveAAsWritten(m, c, b.rs, b.a, r, e, l)
  }

  function MassiveARhs(m: Math, c: real, b: Body, e: real, l: real): (real, real, real) -> real {
    (t: real, r: real, uR: real) => MassiveA(m, c, b.rs, b.a, r, e, l)
  }

  function MassiveDORhs(m: Math, c: real, b: Body, e: real, l: real, d: real): (real, real, real) -> real {
    (t: real, r: real, uR: real) => MassiveDO(m, c, b.rs, b.a, r, e, l, d)
  }

  function PhotonARhs(m: Math, c: real, b: Body, e: real, l: real): (real, real, real) -> real {
    (t: real, r: real, uR: real) => PhotonA(m, c, b.rs, b.a, r, e, l)
  }

  function PhotonDORhs(m: Math, c: real, b: Body, e: real, l: real, d: real): (real, real, real) -> real {
    (t: real, r: real, uR: real) => PhotonDO(m, c, b.rs, b.a, r, e, l, d)
  }

  /**
   * The right-hand side for a kind of mobile and a frame, with `massiveA`
   * standing for the massive particle's astronaut-frame equation; none for a
   * frame other than `"A"` and `"DO"`.
   */
  function SelectRhs(m: Math, c: real, b: Body, s: MobileState, frame: string, massiveA: (real, real, real) -> real)
    : (f: Option<(real, real, real) -> real>)
    ensures f.Some? <==> frame == "A" || frame == "DO"
  {
    var d := Delta(b.rhp, b.rhm, s.r);
    if !s.isPhoton && frame == "A" then Some(massiveA)
    else if !s.isPhoton && frame == "DO" then Some(MassiveDORhs(m, c, b, s.e, s.l, d))
    else if s.isPhoton && frame == "A" then Some(PhotonARhs(m, c, b, s.e, s.l))
    else if s.isPhoton && frame == "DO" then Some(PhotonDORhs(m, c, b, s.e, s.l, d))
    else None
  }

  /** The right-hand side `mobile_trajectory` selects, `KM_MP_trajectory_A` as written included. */
  function RightHandSide(m: Math, c: real, b: Body, s: MobileState, frame: string): (f: Option<(real, real, real) -> real>)
    ensures f.Some? <==> frame == "A" || frame == "DO"
  {
    SelectRhs(m, c, b, s, frame, MassiveAAsWrittenRhs(m, c, b, s.e, s.l))
  }

  /** The same selection with the sign of `KM_MP_trajectory_A` corrected. */
  function RightHandSideCorrected(m: Math, c: real, b: Body, s: MobileState, frame: string): (f: Option<(real, real, real) -> real>)
    ensures f.Some? <==> frame == "A" || frame == "DO"
  {
    SelectRhs(m, c, b, s, frame, MassiveARhs(m, c, b, s.e, s.l))
  }

  /**
   * One RK4 step of `r'' = f` from the mobile's `r` and `U_r`, as `[τ, r, U_r]`;
   * nothing without a right-hand side.  The abscissa the source leaves
   * undefined is 0 here; no right-hand side reads it.
   */
  function StepWith(s: MobileState, step: real, f: Option<(real, real, real) -> real>): (res: Option<(real, real, real)>)
    ensures res.Some? <==> f.Some?
    ensures res.Some? ==> res.value == Integrator.RungeKutta2(step, 0.0, s.r, s.uR, f.value)
    ensures res.Some? ==> res.value.0 == step
    ensures step == 0.0 && res.Some? ==> res.value == (0.0, s.r, s.uR)
  {
    if f.None? then None
    else
      Integrator.RungeKutta2ZeroStep(0.0, s.r, s.uR, f.value);
      Some(Integrator.RungeKutta2(step, 0.0, s.r, s.uR, f.value))
  }

  /** `mobile_trajectory(mobile, step, frame)`; nothing (the source's `undefined`) for another frame. */
  function Trajectory(m: Math, c: real, b: Body, s: MobileState, step: real, frame: string): (res: Option<(real, real, real)>)
    ensures res.Some? <==> frame == "A" || frame == "DO"
    ensures res.Some? ==> res.value == Integrator.RungeKutta2(step, 0.0, s.r, s.uR, RightHandSide(m, c, b, s, frame).value)
    ensures step == 0.0 && res.Some? ==> res.value == (0.0, s.r, s.uR)
  {
    StepWith(s, step, RightHandSide(m, c, b, s, frame))
  }

  /** `mobile_trajectory` with the sign of `KM_MP_trajectory_A` corrected. */
  function TrajectoryCorrected(m: Math, c: real, b: Body, s: MobileState, step: real, frame: string): (res: Option<(real, real, real)>)
    ensures res.Some? <==> frame == "A" || frame == "DO"
    ensures res.Some? ==> res.value == Integrator.RungeKutta2(step, 0.0, s.r, s.uR, RightHandSideCorrected(m, c, b, s, frame).value)
    ensures !s.isPhoton && frame == "A" ==> res == Some(Integrator.RungeKutta2(step, 0.0, s.r, s.uR, MassiveARhs(m, c, b, s.e, s.l)))
    ensures s.isPhoton || frame != "A" ==> res == Trajectory(m, c, b, s, step, frame)
  {
    StepWith(s, step, RightHandSideCorrected(m, c, b, s, frame))
  }

  /**
   * On a non-rotating body (`a = 0`, `R_h+ = R_s`, `R_h- = 0`) the astronaut
   * frame integrates Schwarzschild's equation for a photon and, with the sign
   * corrected, for a massive particle; as written, a massive particle is
   * integrated under the opposite of Schwarzschild's acceleration.
   */
  lemma RightHandSideWithoutRotation(m: Math, c: real, rs: real, radius: real, mass: real, s: MobileState)
    ensures var f := RightHandSide(m, c, Body(rs, 0.0, rs, 0.0, radius, mass), s, "A").value;
      forall t: real, r: real, uR: real :: f(t, r, uR)
        == if s.isPhoton then Schwarzschild.ExternalPhotonA(m, c, rs, r, s.l) else -Schwarzschild.ExternalMassiveA(m, c, rs, r, s.l)
    ensures var f := RightHandSideCorrected(m, c, Body(rs, 0.0, rs, 0.0, radius, mass), s, "A").value;
      forall t: real, r: real, uR: real :: f(t, r, uR)
        == if s.isPhoton then Schwarzschild.ExternalPhotonA(m, c, rs, r, s.l) else Schwarzschild.ExternalMassiveA(m, c, rs, r, s.l)
  {
    var b := Body(rs, 0.0, rs, 0.0, radius, mass);
    forall t: real, r: real, uR: real
      ensures RightHandSide(m, c, b, s, "A").value(t, r, uR)
        == if s.isPhoton then Schwarzschild.ExternalPhotonA(m, c, rs, r, s.l) else -Schwarzschild.ExternalMassiveA(m, c, rs, r, s.l)
      ensures RightHandSideCorrected(m, c, b, s, "A").value(t, r, uR)
        == if s.isPhoton then Schwarzschild.ExternalPhotonA(m, c, rs, r, s.l) else Schwarzschild.ExternalMassiveA(m, c, rs, r, s.l)
    {
      PhotonAWithoutRotation(m, c, rs, r, s.e, s.l);
      MassiveAAsWrittenWithoutRotation(m, c, rs, r, s.e, s.l);
      MassiveAWithoutRotation(m, c, rs, r, s.e, s.l);
    }
  }

  /** The astronaut-frame increment of `φ`, `c·dτ/Δ·(R_s aE/r + (1 - R_s/r)L)`, at the new radius. */
  function PhiStepA(m: Math, c: real, b: Body, r: real, e: real, l: real, dtau: real): real {
    m.Div(c * dtau, Delta(b.rhp, b.rhm, r)) * AngularRate(m, b.rs, b.a, r, e, l)
  }

  /** The distant-observer increment of `φ`, `c·dτ·(R_s aE/r + (1 - R_s/r)L)/W`, at the new radius. */
  function PhiStepDO(m: Math, c: real, b: Body, r: real, e: real, l: real, dtau: real): real {
    m.Div(c * dtau * AngularRate(m, b.rs, b.a, r, e, l), W(m, b.rs, b.a, r, e, l))
  }

  /** The mobile moved to the result `res` of a Runge-Kutta step, `φ` advanced at the new radius. */
  function MovedTo(m: Math, c: real, b: Body, s: MobileState, step: real, frame: string, res: Option<(real, real, real)>)
    : Option<MobileState>
  {
    if res.None? then None
    else
      var r := res.value.1;
      var inc := if frame == "A" then PhiStepA(m, c, b, r, s.e, s.l, step) else PhiStepDO(m, c, b, r, s.e, s.l, step);
      Some(s.(r := r, uR := res.value.2, phi := s.phi + inc))
  }

  /**
   * `mobile_new_position(mobile, step, frame)`: `r` and `U_r` from the RK4
   * step, `φ` advanced; the source throws (reading `undefined`) for a frame
   * other than `"A"` and `"DO"`.
   */
  function NewPosition(m: Math, c: real, b: Body, s: MobileState, step: real, frame: string): (t: Option<MobileState>)
    ensures t.Some? <==> frame == "A" || frame == "DO"
    ensures t.Some? ==> t.value == s.(r := t.value.r, uR := t.value.uR, phi := t.value.phi)
    ensures t.Some? ==> t.value.r == Trajectory(m, c, b, s, step, frame).value.1
    ensures t.Some? ==> t.value.uR == Trajectory(m, c, b, s, step, frame).value.2
    ensures frame == "A" ==> t.value.phi == s.phi + PhiStepA(m, c, b, t.value.r, s.e, s.l, step)
    ensures frame == "DO" ==> t.value.phi == s.phi + PhiStepDO(m, c, b, t.value.r, s.e, s.l, step)
  {
    MovedTo(m, c, b, s, step, frame, Trajectory(m, c, b, s, step, frame))
  }

  /** `mobile_new_position` with the sign of `KM_MP_trajectory_A` corrected: only a massive mobile in the astronaut's frame moves differently. */
  function NewPositionCorrected(m: Math, c: real, b: Body, s: MobileState, step: real, frame: string): (t: Option<MobileState>)
    ensures t.Some? <==> frame == "A" || frame == "DO"
    ensures t.Some? ==> t.value == s.(r := t.value.r, uR := t.value.uR, phi := t.value.phi)
    ensures t.Some? ==> t.value.r == TrajectoryCorrected(m, c, b, s, step, frame).value.1
    ensures t.Some? ==> t.value.uR == TrajectoryCorrected(m, c, b, s, step, frame).value.2
    ensures s.isPhoton || frame != "A" ==> t == NewPosition(m, c, b, s, step, frame)
  {
    MovedTo(m, c, b, s, step, frame, TrajectoryCorrected(m, c, b, s, step, frame))
  }

  /**
   * On a non-rotating body a mobile without angular momentum keeps its
   * angle, wherever the new radius is not 0 (and, for the distant observer,
   * where `E != 0`).
   */
  lemma RadialMobileKeepsAngle(m: Math, c: real, b: Body, s: MobileState, step: real, frame: string)
    requires b.a == 0.0 && s.l == 0.0
    requires frame == "A" || frame == "DO"
    requires Trajectory(m, c, b, s, step, frame).value.1 != 0.0
    requires frame == "DO" ==> s.e != 0.0
    ensures NewPosition(m, c, b, s, step, frame).value.phi == s.phi
  {
    var t := NewPosition(m, c, b, s, step, frame).value;
    NoTurnWithoutRotation(m, c, b, t.r, s.e, step);
  }

  /** Without rotation and angular momentum neither `φ` increment turns the mobile. */
  lemma NoTurnWithoutRotation(m: Math, c: real, b: Body, r: real, e: real, step: real)
    requires b.a == 0.0 && r != 0.0
    ensures PhiStepA(m, c, b, r, e, 0.0, step) == 0.0
    ensures e != 0.0 ==> PhiStepDO(m, c, b, r, e, 0.0, step) == 0.0
  {
    DivUnique(m, 0.0, r, 0.0);
    assert AngularRate(m, b.rs, b.a, r, e, 0.0) == 0.0;
    if e != 0.0 {
      var w := W(m, b.rs, b.a, r, e, 0.0);
      assert w == Sq(r) * e;
      NonZeroProduct(r, r);
      ProductNonZero(Sq(r), e, w);
      DivUnique(m, c * step * 0.0, w, 0.0);
    }
  }

  /** A step of 0 moves nothing, where the `φ` increment's divisor (`Δ` or `W`) is non-zero. */
  lemma NewPositionZeroStep(m: Math, c: real, b: Body, s: MobileState, frame: string)
    requires frame == "A" || frame == "DO"
    requires frame == "A" ==> Delta(b.rhp, b.rhm, s.r) != 0.0
    requires frame == "DO" ==> W(m, b.rs, b.a, s.r, s.e, s.l) != 0.0
    ensures NewPosition(m, c, b, s, 0.0, frame) == Some(s)
    ensures NewPositionCorrected(m, c, b, s, 0.0, frame) == Some(s)
  {
    if frame == "A" {
      DivUnique(m, c * 0.0, Delta(b.rhp, b.rhm, s.r), 0.0);
    } else {
      DivUnique(m, c * 0.0 * AngularRate(m, b.rs, b.a, s.r, s.e, s.l), W(m, b.rs, b.a, s.r, s.e, s.l), 0.0);
    }
  }

  /** `dφ/dτ` of `mobile_velocity`: `c(R_s aE/r + (1 - R_s/r)L)/((r² + a² + (R_s/r)a²)E - R_s aL/r)`. */
  function VelocityPhiRate(m: Math, c: real, rs: real, a: real, r: real, e: real, l: real): real {
    m.Div(c * AngularRate(m, rs, a, r, e, l), (Sq(r) + Sq(a) + m.Div(rs, r) * Sq(a)) * e - m.Div(rs * a * l, r))
  }

  /** `v_φ` of `mobile_velocity`. */
  function VelocityPhi(m: Math, c: real, rs: real, a: real, d: real, r: real, dphi: real): real {
    m.sqrt(m.Div(d * Sq(dphi), 1.0 - m.Div(rs, r) + m.Div(rs * a * dphi, Sq(c * r))))
  }

  /** The `dr` of `mobile_velocity` before its rescaling: for a massive mobile or a photon. */
  function RadialRate(m: Math, c: real, rs: real, a: real, r: real, e: real, l: real, isPhoton: bool): real {
    if isPhoton then
      Sq(c) * (Sq(e) + m.Div(Sq(a) * Sq(e) - Sq(l), Sq(r)) + rs * m.Div(Sq(l - a * e), Cube(r)))
    else
      Sq(c) * (Sq(e) - 1.0 + m.Div(rs, r) + m.Div(Sq(a) * (Sq(e) - 1.0) - Sq(l), Sq(r)) + rs * m.Div(Sq(l - a * e), Cube(r)))
  }

  /** `v_r` of `mobile_velocity`. */
  function VelocityR(m: Math, c: real, rs: real, a: real, d: real, r: real, e: real, l: real, dphi: real, isPhoton: bool): real {
    var dr := RadialRate(m, c, rs, a, r, e, l, isPhoton)
      * m.Div(Sq(d), Sq((Sq(r) + Sq(a) + m.Div(rs, r) * Sq(a)) * e - m.Div(rs * a * l, r)));
    m.sqrt(Abs(m.Div((1.0 - m.Div(rs, r)) * m.Div(Sq(r) * dr, d), Sq(1.0 - m.Div(rs, r) + m.Div(rs * a * dphi, c * r)))))
  }

  /** `mobile_velocity(mobile)`: the physical velocity `v_r`, `v_φ` and its norm. */
  function Velocity(m: Math, c: real, b: Body, s: MobileState): (t: MobileState)
    ensures t == s.(vR := t.vR, vPhi := t.vPhi, vNorm := t.vNorm)
  {
    var d := Delta(b.rhp, b.rhm, s.r);
    var dphi := VelocityPhiRate(m, c, b.rs, b.a, s.r, s.e, s.l);
    var vPhi := VelocityPhi(m, c, b.rs, b.a, d, s.r, dphi);
    var vR := VelocityR(m, c, b.rs, b.a, d, s.r, s.e, s.l, dphi, s.isPhoton);
    s.(vR := vR, vPhi := vPhi, vNorm := m.sqrt(Sq(vR) + Sq(vPhi)))
  }

  /** The norm is the Euclidean norm of the two components, and `v_r` is never negative. */
  lemma VelocityNorm(m: Math, c: real, b: Body, s: MobileState)
    requires Lawful(m)
    ensures var t := Velocity(m, c, b, s);
      t.vNorm >= 0.0 && Sq(t.vNorm) == Sq(t.vR) + Sq(t.vPhi) && t.vR >= 0.0
  {
    var t := Velocity(m, c, b, s);
    assert Sq(t.vR) + Sq(t.vPhi) >= 0.0;
  }

  /**
   * The far clock's increment as `mobile_clocks` computes it in the
   * astronaut's frame: `dτ((r² + a² + R_s a²/E) - R_s aL/r)/Δ`, where `W/Δ`
   * (`(r² + a² + R_s a²/r)E - R_s aL/r` over `Δ`) is meant.
   */
  function FarClockStepAsWritten(m: Math, b: Body, s: MobileState): real {
    m.Div(s.dtau * ((Sq(s.r) + Sq(b.a) + m.Div(b.rs * Sq(b.a), s.e)) - m.Div(b.rs * b.a * s.l, s.r)), Delta(b.rhp, b.rhm, s.r))
  }

  /**
   * The mobile's own clock increment as `mobile_clocks` computes it in the
   * distant observer's frame: `dτΔ/((r² + a²/r)E - R_s aL/r)`, where `Δ/W` is meant.
   */
  function OwnClockStepAsWritten(m: Math, b: Body, s: MobileState): real {
    m.Div(s.dtau * Delta(b.rhp, b.rhm, s.r), (Sq(s.r) + m.Div(Sq(b.a), s.r)) * s.e - m.Div(b.rs * b.a * s.l, s.r))
  }

  /** The far clock's increment over a proper-time step: `dτ·W/Δ`. */
  function FarClockStep(m: Math, b: Body, s: MobileState): real {
    m.Div(s.dtau * W(m, b.rs, b.a, s.r, s.e, s.l), Delta(b.rhp, b.rhm, s.r))
  }

  /** The mobile's own clock increment over a far-clock step: `dt·Δ/W`. */
  function OwnClockStep(m: Math, b: Body, s: MobileState): real {
    m.Div(s.dtau * Delta(b.rhp, b.rhm, s.r), W(m, b.rs, b.a, s.r, s.e, s.l))
  }

  /**
   * On a Schwarzschild body (`a = 0`, `R_h+ = R_s`, `R_h- = 0`) the astronaut
   * frame's far clock as written runs at `1/(1 - R_s/r)` and misses the factor
   * `E` of the time dilation: 2 instead of 4 at `r = 2`, `R_s = 1`, `E = 2`.
   */
  lemma FarClockStepAsWrittenMissesEnergy(m: Math)
    ensures var b := Body(1.0, 0.0, 1.0, 0.0, 1.0, 1.0);
      var s := MobileState(false, 2.0, 0.0, 0.0, 0.0, 2.0, 0.0, 1.0, Finite(0.0), Finite(0.0), 0.0, 0.0, 0.0, 0.0);
      FarClockStepAsWritten(m, b, s) == 2.0 && FarClockStep(m, b, s) == 4.0
  {
    DivUnique(m, 0.0, 2.0, 0.0);
    DivUnique(m, 4.0, 2.0, 2.0);
    DivUnique(m, 8.0, 2.0, 4.0);
  }

  /**
   * With rotation the distant observer frame's own clock as written differs
   * from `Δ/W`: at `R_s = 2`, `a = 0.8` (horizons 1.6 and 0.4), `r = 2`,
   * `E = 1`, `L = 0` its denominator is 4.32 where `W` is 5.28.
   */
  lemma OwnClockStepAsWrittenDiffers(m: Math)
    ensures var b := Body(2.0, 0.8, 1.6, 0.4, 1.0, 1.0);
      var s := MobileState(false, 2.0, 0.0, 0.0, 0.0, 1.0, 0.0, 1.0, Finite(0.0), Finite(0.0), 0.0, 0.0, 0.0, 0.0);
      OwnClockStepAsWritten(m, b, s) != OwnClockStep(m, b, s)
  {
    DivUnique(m, 0.0, 2.0, 0.0);
    DivUnique(m, 0.64, 2.0, 0.32);
    DivUnique(m, 1.28, 2.0, 0.64);
    var b := Body(2.0, 0.8, 1.6, 0.4, 1.0, 1.0);
    var s := MobileState(false, 2.0, 0.0, 0.0, 0.0, 1.0, 0.0, 1.0, Finite(0.0), Finite(0.0), 0.0, 0.0, 0.0, 0.0);
    assert W(m, b.rs, b.a, s.r, s.e, s.l) == 5.28;
    var p := OwnClockStepAsWritten(m, b, s);
    var q := OwnClockStep(m, b, s);
    assert p * 4.32 == 0.64;
    assert q * 5.28 == 0.64;
  }

  /**
   * The two conversions are inverse: the far-clock time of a proper-time
   * step `dτ`, converted back, is `dτ` (off the horizons and where `W != 0`).
   */
  lemma {:induction false} ClockStepsAreInverse(m: Math, b: Body, s: MobileState)
    requires Delta(b.rhp, b.rhm, s.r) != 0.0 && W(m, b.rs, b.a, s.r, s.e, s.l) != 0.0
    ensures OwnClockStep(m, b, s.(dtau := FarClockStep(m, b, s))) == s.dtau
  {
    var d := Delta(b.rhp, b.rhm, s.r);
    var w := W(m, b.rs, b.a, s.r, s.e, s.l);
    var t := FarClockStep(m, b, s);
    assert t * d == s.dtau * w;
    DivUnique(m, t * d, w, s.dtau);
  }

  /**
   * On a Schwarzschild body the far clock runs at the time dilation
   * `dt/dτ = E/(1 - R_s/r)`.
   */
  lemma FarClockStepWithoutRotation(m: Math, rs: real, s: MobileState)
    requires s.r != 0.0 && s.r != rs
    ensures FarClockStep(m, Body(rs, 0.0, rs, 0.0, 0.0, 0.0), s) == m.Div(s.dtau * s.e, 1.0 - m.Div(rs, s.r))
  {
    var b := Body(rs, 0.0, rs, 0.0, 0.0, 0.0);
    var r := s.r;
    DivUnique(m, 0.0, r, 0.0);
    assert W(m, rs, 0.0, r, s.e, s.l) == Sq(r) * s.e;
    var d := Delta(rs, 0.0, r);
    ProductNonZero(r - rs, r, d);
    var f := FarClockStep(m, b, s);
    assert f * d == s.dtau * (Sq(r) * s.e);
    var k := m.Div(rs, r);
    assert k * r == rs;
    assert (1.0 - k) * r == r - rs;
    assert 1.0 - k != 0.0;
    assert f * (1.0 - k) * (r * r) == s.dtau * s.e * (r * r);
    ZeroProduct(f * (1.0 - k) - s.dtau * s.e, r * r);
    DivUnique(m, s.dtau * s.e, 1.0 - k, f);
  }

  /**
   * The clock update of `mobile_clocks`, given the far clock's increment
   * `far` over a proper-time step and the own clock's increment `own` over a
   * far-clock step.
   */
  function ClocksWith(b: Body, s: MobileState, frame: string, far: real, own: real): MobileState {
    if frame == "A" then
      if s.isPhoton then s
      else
        var clockDo := if s.r > b.rhp then Advance(s.clockDo, far) else Infinite;
        s.(clockA := Advance(s.clockA, s.dtau), clockDo := clockDo)
    else
      var clockA := if !s.isPhoton && s.r >= b.rhp then Advance(s.clockA, own) else s.clockA;
      s.(clockDo := Advance(s.clockDo, s.dtau), clockA := clockA)
  }

  /**
   * `mobile_clocks(mobile, frame)`: in the astronaut's frame a massive
   * mobile's own clock runs by `dtau` and the far clock by the increment of
   * kerr.js:193-194, or stops at infinity on or inside the outer horizon;
   * photons keep their clocks.  In any other frame the far clock runs by
   * `dtau`, and a massive mobile's own clock by the increment of
   * kerr.js:204-205 on or outside the horizon.
   */
  function Clocks(m: Math, b: Body, s: MobileState, frame: string): (t: MobileState)
    ensures t == s.(clockA := t.clockA, clockDo := t.clockDo)
    ensures frame == "A" && s.isPhoton ==> t == s
    ensures frame == "A" && !s.isPhoton ==> t.clockA == Advance(s.clockA, s.dtau)
    ensures frame == "A" && !s.isPhoton ==> (s.r <= b.rhp ==> t.clockDo == Infinite)
    ensures frame == "A" && !s.isPhoton && s.clockDo.Finite? ==> (t.clockDo.Infinite? <==> s.r <= b.rhp)
    ensures frame != "A" ==> t.clockDo == Advance(s.clockDo, s.dtau)
    ensures frame == "A" && !s.isPhoton && s.r > b.rhp ==> t.clockDo == Advance(s.clockDo, FarClockStepAsWritten(m, b, s))
    ensures frame != "A" && (s.isPhoton || s.r < b.rhp) ==> t.clockA == s.clockA
    ensures frame != "A" && !s.isPhoton && s.r >= b.rhp ==> t.clockA == Advance(s.clockA, OwnClockStepAsWritten(m, b, s))
  {
    ClocksWith(b, s, frame, FarClockStepAsWritten(m, b, s), OwnClockStepAsWritten(m, b, s))
  }

  /**
   * `mobile_clocks` with the time dilations `W/Δ` and `Δ/W`: the same as
   * `Clocks` except for the converted clock, which advances by `FarClockStep`
   * or `OwnClockStep`.
   */
  function ClocksCorrected(m: Math, b: Body, s: MobileState, frame: string): (t: MobileState)
    ensures t == s.(clockA := t.clockA, clockDo := t.clockDo)
    ensures frame == "A" ==> t.clockA == Clocks(m, b, s, frame).clockA
    ensures frame != "A" ==> t.clockDo == Clocks(m, b, s, frame).clockDo
    ensures frame == "A" && !s.isPhoton && s.r > b.rhp ==> t.clockDo == Advance(s.clockDo, FarClockStep(m, b, s))
    ensures frame == "A" && !(!s.isPhoton && s.r > b.rhp) ==> t == Clocks(m, b, s, frame)
    ensures frame != "A" && !s.isPhoton && s.r >= b.rhp ==> t.clockA == Advance(s.clockA, OwnClockStep(m, b, s))
    ensures frame != "A" && !(!s.isPhoton && s.r >= b.rhp) ==> t == Clocks(m, b, s, frame)
  {
    ClocksWith(b, s, frame, FarClockStep(m, b, s), OwnClockStep(m, b, s))
  }

  /**
   * On a Schwarzschild body the far-clock increment as written lacks exactly
   * the factor `E` of the time dilation (where `E != 0`, `r != 0`, `r != R_s`).
   */
  lemma FarClockStepsWithoutRotation(m: Math, rs: real, radius: real, mass: real, s: MobileState)
    requires s.r != 0.0 && s.r != rs && s.e != 0.0
    ensures var b := Body(rs, 0.0, rs, 0.0, radius, mass);
      FarClockStep(m, b, s) == s.e * FarClockStepAsWritten(m, b, s)
  {
    var b := Body(rs, 0.0, rs, 0.0, radius, mass);
    var r := s.r;
    DivUnique(m, 0.0, r, 0.0);
    DivUnique(m, 0.0, s.e, 0.0);
    var d := Delta(rs, 0.0, r);
    ProductNonZero(r - rs, r, d);
    assert W(m, rs, 0.0, r, s.e, s.l) == Sq(r) * s.e;
    var p := FarClockStepAsWritten(m, b, s);
    assert p * d == s.dtau * Sq(r);
    var q := FarClockStep(m, b, s);
    assert q * d == s.dtau * (Sq(r) * s.e);
    assert (s.e * p) * d == s.dtau * (Sq(r) * s.e);
    DivUnique(m, s.dtau * (Sq(r) * s.e), d, s.e * p);
  }

  /**
   * The state the `Mobile` constructor leaves: both angles converted from
   * degrees, `L = E = 0`, both clocks at 0, `v_φ = v_r·sin(v_α)` and the
   * norm of `(v_r, v_φ)`; a photon's `v_r` and norm are then set to `c`.
   * `U_r`, `U_φ` and `dtau`, which the constructor leaves unset, are 0.
   */
  function Created(m: Math, c: real, isPhoton: bool, r: real, phiDegrees: real, vR: real, vAlphaDegrees: real): (s: MobileState)
    ensures s.isPhoton == isPhoton && s.r == r
    ensures s.phi == phiDegrees * m.pi / 180.0 && s.vAlpha == vAlphaDegrees * m.pi / 180.0
    ensures s.e == 0.0 && s.l == 0.0 && s.clockA == Finite(0.0) && s.clockDo == Finite(0.0)
    ensures s.vPhi == vR * m.sin(s.vAlpha)
    ensures isPhoton ==> s.vR == c && s.vNorm == c
    ensures !isPhoton ==> s.vR == vR
    ensures !isPhoton && Lawful(m) ==> s.vNorm >= 0.0 && Sq(s.vNorm) == Sq(s.vR) + Sq(s.vPhi)
  {
    var vAlpha := vAlphaDegrees * m.pi / 180.0;
    var vPhi := vR * m.sin(vAlpha);
    var vNorm := m.sqrt(Sq(vR) + Sq(vPhi));
    MobileState(isPhoton, r, phiDegrees * m.pi / 180.0, 0.0, 0.0, 0.0, 0.0, 0.0, Finite(0.0), Finite(0.0),
      if isPhoton then c else vR, vAlpha, vPhi, if isPhoton then c else vNorm)
  }

  // ---------------------------------------------------------------------
  // The objects
  // ---------------------------------------------------------------------

  /** A mobile of the simulation: its fields are updated in place. */
  class Mobile {
    const isPhoton: bool
    var r: real
    var phi: real
    var uR: real
    var uPhi: real
    var e: real
    var l: real
    var dtau: real
    var clockA: Clock
    var clockDo: Clock
    var vR: real
    var vAlpha: real
    var vPhi: real
    var vNorm: real

    function State(): MobileState
      reads this
    {
      MobileState(isPhoton, r, phi, uR, uPhi, e, l, dtau, clockA, clockDo, vR, vAlpha, vPhi, vNorm)
    }

    /**
     * A mobile at radius `r` and angle `φ` (in degrees) launched at speed
     * `v_r` and angle `v_α` (in degrees): the state `Created` describes.
     */
    constructor(m: Math, c: real, isPhoton: bool, r: real, phiDegrees: real, vR: real, vAlphaDegrees: real)
      ensures State() == Created(m, c, isPhoton, r, phiDegrees, vR, vAlphaDegrees)
    {
      var t := Created(m, c, isPhoton, r, phiDegrees, vR, vAlphaDegrees);
      this.isPhoton := isPhoton;
      this.r := r;
      this.phi := t.phi;
      uR, uPhi, e, l, dtau := 0.0, 0.0, 0.0, 0.0, 0.0;
      clockA, clockDo := Finite(0.0), Finite(0.0);
      this.vR := t.vR;
      this.vAlpha := t.vAlpha;
      vPhi, vNorm := t.vPhi, t.vNorm;
    }
  }

  /** The Kerr simulation: a central body and the list of mobiles it moves. */
  class Simulation {
    const math: Math
    const c: real
    const G: real
    const body: Body
    var mobiles: seq<Mobile>

    constructor(m: Math, c: real, G: real, body: Body, mobiles: seq<Mobile>)
      ensures math == m && this.c == c && this.G == G && this.body == body && this.mobiles == mobiles
    {
      math := m;
      this.c := c;
      this.G := G;
      this.body := body;
      this.mobiles := mobiles;
    }

    /**
     * `mobile_initialization`: each mobile of the list gets its `U_r`, `U_φ`,
     * `E` and `L`; a mobile listed twice gets the same values twice.
     */
    method MobileInitialization()
      modifies mobiles`uR, mobiles`uPhi, mobiles`e, mobiles`l
      ensures forall k :: 0 <= k < |mobiles| ==> mobiles[k].State() == Initialized(math, c, body, old(mobiles[k].State()))
    {
      for i := 0 to |mobiles|
        invariant forall k :: 0 <= k < i ==> Launched(mobiles[k])
      {
        Launch(mobiles[i]);
      }
    }

    /** The body of `mobile_initialization`'s loop, for one mobile. */
    method Launch(mobile: Mobile)
      modifies mobile`uR, mobile`uPhi, mobile`e, mobile`l
      ensures Launched(mobile)
    {
      var k := LaunchConstants(math, c, body, mobile.isPhoton, mobile.r, mobile.vR, mobile.vAlpha);
      mobile.uR, mobile.uPhi, mobile.e, mobile.l := k.0, k.1, k.2, k.3;
    }

    /** The mobile holds the `U_r`, `U_φ`, `E` and `L` of its own launch. */
    predicate Launched(mb: Mobile)
      reads this, mb
    {
      (mb.uR, mb.uPhi, mb.e, mb.l) == LaunchConstants(math, c, body, mb.isPhoton, mb.r, mb.vR, mb.vAlpha)
    }

    /**
     * `mobile_dtau(frame)`: each mobile of the list gets the `dtau` of
     * `Dtau`; nothing else changes.
     */
    method MobileDtau(frame: string)
      modifies mobiles`dtau
      ensures forall k :: 0 <= k < |mobiles| ==>
        mobiles[k].State() == old(mobiles[k].State()).(dtau := Dtau(math, G, body.mass, old(mobiles[k].State()), frame))
    {
      for i := 0 to |mobiles|
        invariant forall k :: 0 <= k < i ==>
          mobiles[k].dtau == Dtau(math, G, body.mass, old(mobiles[k].State()), frame)
      {
        var mobile := mobiles[i];
        mobile.dtau := Dtau(math, G, body.mass, mobile.State(), frame);
      }
    }

    /** `mobile_new_position(mobile, step, frame)`; `false`, changing nothing, where the source throws. */
    method MobileNewPosition(mobile: Mobile, step: real, frame: string) returns (ok: bool)
      modifies mobile`r, mobile`uR, mobile`phi
      ensures ok <==> frame == "A" || frame == "DO"
      ensures ok ==> Some(mobile.State()) == NewPosition(math, c, body, old(mobile.State()), step, frame)
      ensures !ok ==> mobile.State() == old(mobile.State())
    {
      var t := NewPosition(math, c, body, mobile.State(), step, frame);
      if t.None? {
        return false;
      }
      mobile.r := t.value.r;
      mobile.uR := t.value.uR;
      mobile.phi := t.value.phi;
      ok := true;
    }

    /** `mobile_velocity(mobile)`. */
    method MobileVelocity(mobile: Mobile)
      modifies mobile`vR, mobile`vPhi, mobile`vNorm
      ensures mobile.State() == Velocity(math, c, body, old(mobile.State()))
    {
      var t := Velocity(math, c, body, mobile.State());
      mobile.vR := t.vR;
      mobile.vPhi := t.vPhi;
      mobile.vNorm := t.vNorm;
    }

    /** `mobile_clocks(mobile, frame)`. */
    method MobileClocks(mobile: Mobile, frame: string)
      modifies mobile`clockA, mobile`clockDo
      ensures mobile.State() == Clocks(math, body, old(mobile.State()), frame)
    {
      var t := Clocks(math, body, mobile.State(), frame);
      mobile.clockA := t.clockA;
      mobile.clockDo := t.clockDo;
    }
  }
}
