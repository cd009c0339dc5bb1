/**
 * The Schwarzschild formulas of js/class/simulation/schwarzschild.js: the
 * integration constants `L` and `E` of a massive particle (MP) or a photon
 * (PH) outside (external metric, ESM) or inside (internal metric, ISM) a
 * spherical body, and the second derivative `d²r/dτ²` (astronaut, A) or
 * `d²r/dt²` (distant observer, DO) that Runge-Kutta integrates.  The speed
 * of light `c` is a parameter.
 */
module Schwarzschild {
  import opened RealMath

  /** The pair `[L, E]` an `*_integration_constants` method returns. */
  datatype Integrals = Integrals(l: real, e: real)

  /** `L = U_φ(0)·r(0)/c`, shared by the four integration-constant methods. */
  function AngularMomentum(m: Math, c: real, r0: real, uPhi0: real): real {
    m.Div(uPhi0 * r0, c)
  }

  // ---------------------------------------------------------------------
  // External metric
  // ---------------------------------------------------------------------

  /** The radicand `(U_r/c)² + (1 - R_s/r₀)(1 + (U_φ/c)²)` of a massive particle's `E`. */
  function ExternalMassiveRadicand(m: Math, c: real, rs: real, r0: real, uR0: real, uPhi0: real): real {
    Sq(m.Div(uR0, c)) + (1.0 - m.Div(rs, r0)) * (1.0 + Sq(m.Div(uPhi0, c)))
  }

  /** The radicand `(U_r/c)² + (1 - R_s/r₀)(U_φ/c)²` of a photon's `E`. */
  function ExternalPhotonRadicand(m: Math, c: real, rs: real, r0: real, uR0: real, uPhi0: real): real {
    Sq(m.Div(uR0, c)) + (1.0 - m.Div(rs, r0)) * Sq(m.Div(uPhi0, c))
  }

  /** `ESM_MP_integration_constants`: `E = √((U_r/c)² + (1 - R_s/r₀)(1 + (U_φ/c)²))`. */
  function ExternalMassiveConstants(m: Math, c: real, rs: real, r0: real, uR0: real, uPhi0: real): Integrals {
    Integrals(AngularMomentum(m, c, r0, uPhi0), m.sqrt(ExternalMassiveRadicand(m, c, rs, r0, uR0, uPhi0)))
  }

  /** `ESM_PH_integration_constants`: `E = √((U_r/c)² + (1 - R_s/r₀)(U_φ/c)²)`. */
  function ExternalPhotonConstants(m: Math, c: real, rs: real, r0: real, uR0: real, uPhi0: real): Integrals {
    Integrals(AngularMomentum(m, c, r0, uPhi0), m.sqrt(ExternalPhotonRadicand(m, c, rs, r0, uR0, uPhi0)))
  }

  /** `ESM_MP_trajectory_A`: `c²/(2r⁴)·(-R_s r² + (2r - 3R_s)L²)`. */
  function ExternalMassiveA(m: Math, c: real, rs: real, r: real, l: real): real {
    m.Div(Sq(c), 2.0 * Pow4(r)) * (-rs * Sq(r) + (2.0 * r - 3.0 * rs) * Sq(l))
  }

  /** `ESM_MP_trajectory_DO`. */
  function ExternalMassiveDO(m: Math, c: real, rs: real, r: real, l: real, e: real): real {
    m.Div(Sq(c) * (r - rs) * (2.0 * Sq(e) * Cube(r) * rs + 2.0 * Sq(l * r) - 7.0 * Sq(l) * r * rs
        + 5.0 * Sq(l * rs) - 3.0 * Cube(r) * rs + 3.0 * Sq(r * rs)),
      2.0 * Sq(e) * Pow4(r) * Sq(r))
  }

  /** `ESM_PH_trajectory_A`: `c²/(2r⁴)·(2r - 3R_s)·L²`. */
  function ExternalPhotonA(m: Math, c: real, rs: real, r: real, l: real): real {
    m.Div(Sq(c), 2.0 * Pow4(r)) * (2.0 * r - 3.0 * rs) * Sq(l)
  }

  /** `ESM_PH_trajectory_DO`. */
  function ExternalPhotonDO(m: Math, c: real, rs: real, r: real, l: real, e: real): real {
    m.Div(Sq(c) * (r - rs) * (2.0 * Sq(e) * Cube(r) * rs + 2.0 * Sq(l * r) - 7.0 * Sq(l) * r * rs
        + 5.0 * Sq(l * rs)),
      2.0 * Sq(e) * Pow4(r) * Sq(r))
  }

  // ---------------------------------------------------------------------
  // Internal metric
  // ---------------------------------------------------------------------

  /** `ISM_alpha_r`: `α(r) = 1 - r²R_s/R³`. */
  function Alpha(m: Math, rs: real, radius: real, r: real): real {
    1.0 - m.Div(Sq(r) * rs, Cube(radius))
  }

  /** `ISM_beta_r`: `β(r) = (3/2)√(1 - R_s/R) - (1/2)√(1 - r²R_s/R³)`. */
  function Beta(m: Math, rs: real, radius: real, r: real): real {
    3.0 / 2.0 * m.sqrt(1.0 - m.Div(rs, radius)) - 0.5 * m.sqrt(1.0 - m.Div(Sq(r) * rs, Cube(radius)))
  }

  /** `ISM_MP_integration_constants`: `E = β₀/c·√(U_r²/α₀ + U_φ² + c²)`. */
  function InternalMassiveConstants(m: Math, c: real, r0: real, uR0: real, uPhi0: real, alpha0: real, beta0: real): Integrals {
    Integrals(AngularMomentum(m, c, r0, uPhi0),
      m.Div(beta0, c) * m.sqrt(m.Div(Sq(uR0), alpha0) + Sq(uPhi0) + Sq(c)))
  }

  /** `ISM_PH_integration_constants`: `E = β₀/c·√(U_r²/α₀ + U_φ²)`. */
  function InternalPhotonConstants(m: Math, c: real, r0: real, uR0: real, uPhi0: real, alpha0: real, beta0: real): Integrals {
    Integrals(AngularMomentum(m, c, r0, uPhi0),
      m.Div(beta0, c) * m.sqrt(m.Div(Sq(uR0), alpha0) + Sq(uPhi0)))
  }

  /** The `-(c²rR_s/R³)` factor of both internal trajectories. */
  function InternalTide(m: Math, c: real, rs: real, radius: real, r: real): real {
    m.Div(Sq(c) * r * rs, Cube(radius))
  }

  /** The second term `c²α/2·(-E²rR_s/((βR)³√α) + 2L²/r³)` of both internal trajectories. */
  function InternalCentrifugal(m: Math, c: real, rs: real, radius: real, r: real, alpha: real, beta: real, l: real, e: real): real {
    Sq(c) * alpha * 0.5 * (m.Div(-(Sq(e) * r * rs), Cube(beta * radius) * m.sqrt(alpha)) + m.Div(2.0 * Sq(l), Cube(r)))
  }

  /** `ISM_MP_trajectory_A`. */
  function InternalMassiveA(m: Math, c: real, rs: real, radius: real, r: real, alpha: real, beta: real, l: real, e: real): real {
    -InternalTide(m, c, rs, radius, r) * (Sq(m.Div(e, beta)) - Sq(m.Div(l, r)) - 1.0)
      + InternalCentrifugal(m, c, rs, radius, r, alpha, beta, l, e)
  }

  /** `ISM_PH_trajectory_A`. */
  function InternalPhotonA(m: Math, c: real, rs: real, radius: real, r: real, alpha: real, beta: real, l: real, e: real): real {
    -InternalTide(m, c, rs, radius, r) * (Sq(m.Div(e, beta)) - Sq(m.Div(l, r)))
      + InternalCentrifugal(m, c, rs, radius, r, alpha, beta, l, e)
  }

  // ---------------------------------------------------------------------
  // Properties
  // ---------------------------------------------------------------------

  /** The four integration-constant methods agree on `L` for the same initial state. */
  lemma SameAngularMomentum(m: Math, c: real, rs: real, r0: real, uR0: real, uPhi0: real, alpha0: real, beta0: real)
    ensures ExternalMassiveConstants(m, c, rs, r0, uR0, uPhi0).l == ExternalPhotonConstants(m, c, rs, r0, uR0, uPhi0).l
    ensures ExternalMassiveConstants(m, c, rs, r0, uR0, uPhi0).l == InternalMassiveConstants(m, c, r0, uR0, uPhi0, alpha0, beta0).l
    ensures ExternalMassiveConstants(m, c, rs, r0, uR0, uPhi0).l == InternalPhotonConstants(m, c, r0, uR0, uPhi0, alpha0, beta0).l
    ensures c != 0.0 ==> ExternalMassiveConstants(m, c, rs, r0, uR0, uPhi0).l * c == uPhi0 * r0
  {
  }

  /** `a + q·(1 + s)` and `a + q·s` are non-negative for non-negative `a`, `q`, `s`, and differ by `q`. */
  lemma Radicands(a: real, q: real, s: real)
    requires a >= 0.0 && q >= 0.0 && s >= 0.0
    ensures a + q * s >= 0.0 && a + q * (1.0 + s) >= 0.0
    ensures (a + q * (1.0 + s)) - (a + q * s) == q
  {
  }

  /**
   * Outside the horizon's radius (`R_s/r₀ <= 1`), the squared energies of a
   * massive particle and of a photon with the same initial state differ by
   * `1 - R_s/r₀`.
   */
  lemma ExternalEnergyGap(m: Math, c: real, rs: real, r0: real, uR0: real, uPhi0: real)
    requires Lawful(m) && m.Div(rs, r0) <= 1.0
    ensures Sq(ExternalMassiveConstants(m, c, rs, r0, uR0, uPhi0).e) - Sq(ExternalPhotonConstants(m, c, rs, r0, uR0, uPhi0).e)
      == 1.0 - m.Div(rs, r0)
  {
    var a := Sq(m.Div(uR0, c));
    var q := 1.0 - m.Div(rs, r0);
    var s := Sq(m.Div(uPhi0, c));
    Radicands(a, q, s);
    assert m.sqrt(a + q * (1.0 + s)) * m.sqrt(a + q * (1.0 + s)) == a + q * (1.0 + s);
    assert m.sqrt(a + q * s) * m.sqrt(a + q * s) == a + q * s;
  }

  /** `k/(2r⁴)·r² == k/(2r²)` for `r != 0`. */
  lemma QuarticOverSquare(m: Math, k: real, r: real)
    requires r != 0.0
    ensures m.Div(k, 2.0 * Pow4(r)) * Sq(r) == m.Div(k, 2.0 * Sq(r))
  {
    var r2 := Sq(r);
    ProductNonZero(r, r, r2);
    var r4 := Pow4(r);
    assert r4 == r2 * r2;
    var d4 := 2.0 * r4;
    var d2 := 2.0 * r2;
    assert d4 == d2 * r2;
    ProductNonZero(d2, r2, d4);
    var q := m.Div(k, d4);
    assert q * d4 == k;
    assert (q * r2) * d2 == k;
    DivUnique(m, k, d2, q * r2);
  }

  /**
   * A massive particle's radial acceleration is a photon's with the same
   * `R_s`, `r` and `L`, plus the Newtonian pull `-c²R_s/(2r²)`.
   */
  lemma ExternalMassiveIsPhotonPlusNewton(m: Math, c: real, rs: real, r: real, l: real)
    requires r != 0.0
    ensures ExternalMassiveA(m, c, rs, r, l) == ExternalPhotonA(m, c, rs, r, l) - m.Div(Sq(c), 2.0 * Sq(r)) * rs
  {
    var q := m.Div(Sq(c), 2.0 * Pow4(r));
    QuarticOverSquare(m, Sq(c), r);
    assert q * (-rs * Sq(r) + (2.0 * r - 3.0 * rs) * Sq(l)) == q * (2.0 * r - 3.0 * rs) * Sq(l) - (q * Sq(r)) * rs;
  }

  /**
   * For `c != 0` and `r != 0`, a photon has no radial acceleration exactly
   * when it has no angular momentum or sits on the photon sphere `r = 3R_s/2`.
   */
  lemma ExternalPhotonAZeros(m: Math, c: real, rs: real, r: real, l: real)
    requires c != 0.0 && r != 0.0
    ensures ExternalPhotonA(m, c, rs, r, l) == 0.0 <==> l == 0.0 || 2.0 * r == 3.0 * rs
  {
    var r2 := Sq(r);
    ProductNonZero(r, r, r2);
    var r4 := Pow4(r);
    assert r4 == r2 * r2;
    ProductNonZero(r2, r2, r4);
    var c2 := Sq(c);
    ProductNonZero(c, c, c2);
    var q := m.Div(c2, 2.0 * r4);
    assert q * (2.0 * r4) == c2;
    assert q != 0.0;
    var g := 2.0 * r - 3.0 * rs;
    var l2 := Sq(l);
    if l != 0.0 && g != 0.0 {
      ProductNonZero(l, l, l2);
      ProductNonZero(q, g, q * g);
      ProductNonZero(q * g, l2, q * g * l2);
    }
  }

  /** Both distant-observer accelerations vanish on the horizon `r = R_s` (for `E != 0`, `r != 0`). */
  lemma DistantObserverVanishesAtHorizon(m: Math, c: real, rs: real, l: real, e: real)
    requires e != 0.0 && rs != 0.0
    ensures ExternalMassiveDO(m, c, rs, rs, l, e) == 0.0
    ensures ExternalPhotonDO(m, c, rs, rs, l, e) == 0.0
  {
    var e2 := Sq(e);
    ProductNonZero(e, e, e2);
    var r2 := Sq(rs);
    ProductNonZero(rs, rs, r2);
    var r4 := Pow4(rs);
    assert r4 == r2 * r2;
    ProductNonZero(r2, r2, r4);
    var d := 2.0 * e2 * r4 * r2;
    ProductNonZero(2.0 * e2, r4, 2.0 * e2 * r4);
    ProductNonZero(2.0 * e2 * r4, r2, d);
    DivUnique(m, 0.0, d, 0.0);
  }

  /** `α(0) = 1`, and at the surface `α(R) = 1 - R_s/R`. */
  lemma AlphaValues(m: Math, rs: real, radius: real)
    requires radius != 0.0
    ensures Alpha(m, rs, radius, 0.0) == 1.0
    ensures Alpha(m, rs, radius, radius) == 1.0 - m.Div(rs, radius)
  {
    DivUnique(m, 0.0, Cube(radius), 0.0);
    SurfaceRatio(m, rs, radius);
  }

  /** `R²R_s/R³ = R_s/R`. */
  lemma SurfaceRatio(m: Math, rs: real, radius: real)
    requires radius != 0.0
    ensures m.Div(Sq(radius) * rs, Cube(radius)) == m.Div(rs, radius)
  {
    var r2 := Sq(radius);
    ProductNonZero(radius, radius, r2);
    var r3 := Cube(radius);
    assert r3 == r2 * radius;
    ProductNonZero(r2, radius, r3);
    var q := m.Div(rs, radius);
    assert q * radius == rs;
    assert q * r3 == (q * radius) * r2;
    DivUnique(m, Sq(radius) * rs, r3, q);
  }

  /** At the surface, `β(R) = √(1 - R_s/R)`: the internal metric meets the external one. */
  lemma BetaAtSurface(m: Math, rs: real, radius: real)
    requires radius != 0.0
    ensures Beta(m, rs, radius, radius) == m.sqrt(1.0 - m.Div(rs, radius))
    ensures Beta(m, rs, radius, radius) == m.sqrt(Alpha(m, rs, radius, radius))
  {
    SurfaceRatio(m, rs, radius);
    var s := m.sqrt(1.0 - m.Div(rs, radius));
    assert Beta(m, rs, radius, radius) == 3.0 / 2.0 * s - 0.5 * s;
  }

  /** Inside the body (`α₀ > 0`, `c != 0`) the squared energies of a massive particle and a photon differ by `β₀²`. */
  lemma InternalEnergyGap(m: Math, c: real, r0: real, uR0: real, uPhi0: real, alpha0: real, beta0: real)
    requires Lawful(m) && c != 0.0 && alpha0 > 0.0
    ensures Sq(InternalMassiveConstants(m, c, r0, uR0, uPhi0, alpha0, beta0).e)
      - Sq(InternalPhotonConstants(m, c, r0, uR0, uPhi0, alpha0, beta0).e) == Sq(beta0)
  {
    var x := m.Div(Sq(uR0), alpha0) + Sq(uPhi0);
    var u2 := Sq(uR0);
    var inv := 1.0 / alpha0;
    assert inv > 0.0;
    assert m.Div(u2, alpha0) == u2 * inv;
    assert u2 * inv >= 0.0;
    var b := m.Div(beta0, c);
    assert b * c == beta0;
    var s1 := m.sqrt(x + Sq(c));
    var s0 := m.sqrt(x);
    assert s1 * s1 == x + Sq(c);
    assert s0 * s0 == x;
    assert Sq(b * s1) - Sq(b * s0) == (b * b) * (s1 * s1 - s0 * s0);
    assert (b * b) * Sq(c) == (b * c) * (b * c);
  }

  /** The internal massive and photon accelerations differ by exactly the tidal term `c²rR_s/R³`. */
  lemma InternalMassiveMinusPhoton(m: Math, c: real, rs: real, radius: real, r: real, alpha: real, beta: real, l: real, e: real)
    ensures InternalMassiveA(m, c, rs, radius, r, alpha, beta, l, e) - InternalPhotonA(m, c, rs, radius, r, alpha, beta, l, e)
      == m.Div(Sq(c) * r * rs, Cube(radius))
  {
  }
}
