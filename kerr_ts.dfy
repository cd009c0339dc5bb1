/**
 * The TypeScript revision of the Kerr formulas (ts/class/simulation/kerr.ts):
 * `KM_delta_r` and the two astronaut-frame accelerations, which take every
 * quantity as a parameter instead of reading it from a mobile.
 */
module KerrTs {
  import opened RealMath
  import Kerr
  import Schwarzschild

  /** `KM_delta_r(R_hp, R_hm, r)`: `(r - R_h+)(r - R_h-)`. */
  function DeltaR(rhp: real, rhm: real, r: real): real {
    (r - rhp) * (r - rhm)
  }

  /** `DeltaR` is `Kerr.Delta`: zero exactly on the horizons, symmetric in them, negative between them. */
  lemma DeltaRShape(rhp: real, rhm: real, r: real)
    ensures DeltaR(rhp, rhm, r) == Kerr.Delta(rhp, rhm, r)
    ensures DeltaR(rhp, rhm, r) == 0.0 <==> r == rhp || r == rhm
    ensures DeltaR(rhp, rhm, r) == DeltaR(rhm, rhp, r)
    ensures rhm < r < rhp ==> DeltaR(rhp, rhm, r) < 0.0
  {
    Kerr.DeltaZeros(rhp, rhm, r);
    if rhm < r < rhp {
      assert (rhp - r) * (r - rhm) > 0.0;
    }
  }

  /** `KM_PM_trajectory_A(R_s, r, a, L, E)`. */
  function MassiveA(m: Math, c: real, rs: real, r: real, a: real, l: real, e: real): real {
    m.Div(Sq(c), 2.0 * Pow4(r)) * (rs * Sq(r) + 2.0 * r * (Sq(a) * (Sq(e) - 1.0) - Sq(l)) + 3.0 * rs * Sq(l - a * e))
  }

  /** `KM_PH_trajectory_A(R_s, r, a, L, E)`. */
  function PhotonA(m: Math, c: real, rs: real, r: real, a: real, l: real, e: real): real {
    -m.Div(Sq(c), 2.0 * Pow4(r)) * (2.0 * r * (Sq(a) * Sq(e) - Sq(l)) + 3.0 * rs * Sq(l - a * e))
  }

  /** The massive-particle acceleration is the JavaScript one as written, sign included. */
  lemma MassiveAIsJavaScripts(m: Math, c: real, rs: real, r: real, a: real, l: real, e: real)
    ensures MassiveA(m, c, rs, r, a, l, e) == Kerr.MassiveAAsWritten(m, c, rs, a, r, e, l)
    ensures a == 0.0 ==> MassiveA(m, c, rs, r, a, l, e) == -Schwarzschild.ExternalMassiveA(m, c, rs, r, l)
  {
    if a == 0.0 {
      Kerr.MassiveAAsWrittenWithoutRotation(m, c, rs, r, e, l);
    }
  }

  /**
   * The photon acceleration is the JavaScript one, vanishes for `L = aE`,
   * and without rotation is `c²(2r - 3R_s)L²/(2r⁴)`.
   */
  lemma PhotonAIsJavaScripts(m: Math, c: real, rs: real, r: real, a: real, l: real, e: real)
    ensures PhotonA(m, c, rs, r, a, l, e) == Kerr.PhotonA(m, c, rs, a, r, e, l)
    ensures l == a * e ==> PhotonA(m, c, rs, r, a, l, e) == 0.0
    ensures a == 0.0 ==> PhotonA(m, c, rs, r, a, l, e) == m.Div(Sq(c), 2.0 * Pow4(r)) * (2.0 * r - 3.0 * rs) * Sq(l)
  {
    if l == a * e {
      Kerr.PhotonAZeroWhenLIsAE(m, c, rs, a, r, e);
    }
    if a == 0.0 {
      Kerr.PhotonAWithoutRotation(m, c, rs, r, e, l);
    }
  }
}
