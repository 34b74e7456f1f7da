/** Aggregate elastic properties by Voigt-Reuss-Hill averaging (Hill 1952):
    the Voigt bounds (constant strain) from the stiffness constants, the
    Reuss bounds (constant stress) from the compliance matrix, their Hill
    means, the first-order error terms and the body-wave velocities, laid
    out as a 2x9 table. The compliance matrix is numpy's inverse of the
    Voigt matrix; the inverse and the square root come in as parameters. */
module CijKGvrh {
  import opened Numerics
  import opened CijSij124d

  /** Voigt bulk modulus, from c11 c22 c33 (slots 0..2) and c12 c13 c23
      (slots 6..8). */
  function Kv(c1d: seq<real>): real
    requires |c1d| == 21
  {
    1.0 / 9.0 * ((c1d[0] + c1d[1] + c1d[2]) + 2.0 * (c1d[6] + c1d[8] + c1d[7]))
  }

  /** Voigt shear modulus, from c11 c22 c33, c12 c13 c23 and c44 c55 c66
      (slots 3..5). */
  function Gv(c1d: seq<real>): real
    requires |c1d| == 21
  {
    1.0 / 15.0 * ((c1d[0] + c1d[1] + c1d[2]) - (c1d[6] + c1d[8] + c1d[7]) + 3.0 * (c1d[3] + c1d[4] + c1d[5]))
  }

  /** The compliance sum whose reciprocal is the Reuss bulk modulus. */
  function KrDenominator(s2r: Matrix): real
    requires IsMatrix(s2r, 6, 6)
  {
    (s2r[0][0] + s2r[1][1] + s2r[2][2]) + 2.0 * (s2r[0][1] + s2r[0][2] + s2r[1][2])
  }

  /** The compliance sum that divides 15 to give the Reuss shear modulus. */
  function GrDenominator(s2r: Matrix): real
    requires IsMatrix(s2r, 6, 6)
  {
    4.0 * (s2r[0][0] + s2r[1][1] + s2r[2][2]) - 4.0 * (s2r[0][1] + s2r[0][2] + s2r[1][2])
      + 3.0 * (s2r[3][3] + s2r[4][4] + s2r[5][5])
  }

  /** Reuss bulk modulus: the reciprocal of its compliance sum. */
  function Kr(s2r: Matrix): (k: real)
    requires IsMatrix(s2r, 6, 6) && KrDenominator(s2r) != 0.0
    ensures k * KrDenominator(s2r) == 1.0
  {
    1.0 / KrDenominator(s2r)
  }

  /** Reuss shear modulus: 15 over its compliance sum. */
  function Gr(s2r: Matrix): (g: real)
    requires IsMatrix(s2r, 6, 6) && GrDenominator(s2r) != 0.0
    ensures g * GrDenominator(s2r) == 15.0
  {
    15.0 / GrDenominator(s2r)
  }

  /** The Hill average of a Voigt and a Reuss bound: it lies between them. */
  function Hill(voigt: real, reuss: real): (h: real)
    ensures Min(voigt, reuss) <= h <= Max(voigt, reuss)
    ensures h - Min(voigt, reuss) == Max(voigt, reuss) - h
  {
    (reuss + voigt) / 2.0
  }

  /** Propagated error of the Voigt bulk modulus, from the errors of
      c11 c22 c33 and c12 c13 c23. */
  function KvrhErrB(c1derr: seq<real>, sqrt: real -> real): real
    requires |c1derr| == 21
  {
    sqrt((Sq(c1derr[0]) + Sq(c1derr[1]) + Sq(c1derr[2])
          + 4.0 * (Sq(c1derr[6]) + Sq(c1derr[7]) + Sq(c1derr[8]))) / 81.0)
  }

  /** Propagated error of the Voigt shear modulus, from the errors of
      c11 c22 c33, c12 c13 c23 and c44 c55 c66. */
  function GvrhErrB(c1derr: seq<real>, sqrt: real -> real): real
    requires |c1derr| == 21
  {
    sqrt((Sq(c1derr[0]) + Sq(c1derr[1]) + Sq(c1derr[2])
          + Sq(c1derr[6]) + Sq(c1derr[7]) + Sq(c1derr[8])
          + 9.0 * (Sq(c1derr[3]) + Sq(c1derr[4]) + Sq(c1derr[5]))) / 225.0)
  }

  /** Error of a Hill mean: half the spread of the bounds plus the
      propagated error `errb`, counted once for each bound. */
  function HillErr(voigt: real, reuss: real, errb: real, sqrt: real -> real): real {
    Abs(voigt - reuss) / 2.0 + sqrt(1.0 / 4.0 * Sq(errb) + 1.0 / 4.0 * Sq(errb))
  }

  /** Compressional velocity. */
  function Vp(kvrh: real, gvrh: real, dens: real, sqrt: real -> real): real
    requires dens != 0.0
  {
    sqrt((kvrh + 4.0 / 3.0 * gvrh) / dens)
  }

  /** Shear velocity. */
  function Vs(gvrh: real, dens: real, sqrt: real -> real): real
    requires dens != 0.0
  {
    sqrt(gvrh / dens)
  }

  /** Error of the compressional velocity. */
  function VpErr(vp: real, kvrh: real, gvrh: real, kerr: real, gerr: real,
                 dens: real, denserr: real, sqrt: real -> real): real
    requires dens != 0.0 && kvrh + 4.0 / 3.0 * gvrh != 0.0
  {
    SqNonZero(dens);
    SqNonZero(kvrh + 4.0 / 3.0 * gvrh);
    vp / 2.0 * sqrt((Sq(kerr) + 16.0 / 9.0 * Sq(gerr)) / Sq(kvrh + 4.0 / 3.0 * gvrh)
                    + Sq(denserr) / Sq(dens))
  }

  /** Error of the shear velocity. */
  function VsErr(vs: real, gvrh: real, gerr: real, dens: real, denserr: real,
                 sqrt: real -> real): real
    requires dens != 0.0 && gvrh != 0.0
  {
    SqNonZero(dens);
    SqNonZero(gvrh);
    vs / 2.0 * sqrt(Sq(gerr) / Sq(gvrh) + Sq(denserr) / Sq(dens))
  }

  /** The divisions of CijVRH are all defined: both Reuss denominators, the
      density, the P-wave modulus Kvrh + 4/3 Gvrh and Gvrh are nonzero. */
  predicate VrhDefined(c1d: seq<real>, dens: real, s2r: Matrix)
    requires |c1d| == 21 && IsMatrix(s2r, 6, 6)
  {
    && KrDenominator(s2r) != 0.0
    && GrDenominator(s2r) != 0.0
    && dens != 0.0
    && Hill(Gv(c1d), Gr(s2r)) != 0.0
    && Hill(Kv(c1d), Kr(s2r)) + 4.0 / 3.0 * Hill(Gv(c1d), Gr(s2r)) != 0.0
  }

  /** Row 0 of the CijVRH table, [dens, Kv, Kr, Kvrh, Gv, Gr, Gvrh, Vp, Vs]:
      the Hill slots are the midpoints of the bounds beside them and the
      velocities are computed from the row's own Hill slots. */
  function ModuliRow(c1d: seq<real>, dens: real, s2r: Matrix, sqrt: real -> real): (row: seq<real>)
    requires |c1d| == 21 && IsMatrix(s2r, 6, 6) && VrhDefined(c1d, dens, s2r)
    ensures |row| == 9 && row[0] == dens
    ensures row[1] == Kv(c1d) && row[2] == Kr(s2r) && row[3] == (row[1] + row[2]) / 2.0
    ensures row[4] == Gv(c1d) && row[5] == Gr(s2r) && row[6] == (row[4] + row[5]) / 2.0
    ensures row[7] == Vp(row[3], row[6], dens, sqrt) && row[8] == Vs(row[6], dens, sqrt)
  {
    var kv, gv, kr, gr := Kv(c1d), Gv(c1d), Kr(s2r), Gr(s2r);
    var kvrh, gvrh := Hill(kv, kr), Hill(gv, gr);
    [dens, kv, kr, kvrh, gv, gr, gvrh, Vp(kvrh, gvrh, dens, sqrt), Vs(gvrh, dens, sqrt)]
  }

  /** Row 1 of the CijVRH table, [denserr, Kvrherrb, Kvrherrb, Kvrherr,
      Gvrherrb, Gvrherrb, Gvrherr, Vperr, Vserr], given row 0: the Voigt
      errors stand in both the Voigt and the Reuss columns, and the Hill
      errors combine the spread of the bounds in row 0 with them. */
  function ErrorRow(moduli: seq<real>, c1derr: seq<real>, denserr: real, sqrt: real -> real): (row: seq<real>)
    requires |moduli| == 9 && |c1derr| == 21
    requires moduli[0] != 0.0 && moduli[6] != 0.0 && moduli[3] + 4.0 / 3.0 * moduli[6] != 0.0
    ensures |row| == 9 && row[0] == denserr
    ensures row[1] == row[2] == KvrhErrB(c1derr, sqrt)
    ensures row[4] == row[5] == GvrhErrB(c1derr, sqrt)
    ensures row[3] == HillErr(moduli[1], moduli[2], row[1], sqrt)
    ensures row[6] == HillErr(moduli[4], moduli[5], row[4], sqrt)
    ensures row[7] == VpErr(moduli[7], moduli[3], moduli[6], row[3], row[6], moduli[0], denserr, sqrt)
    ensures row[8] == VsErr(moduli[8], moduli[6], row[6], moduli[0], denserr, sqrt)
  {
    var dens, kv, kr, kvrh, gv, gr, gvrh, vp, vs :=
      moduli[0], moduli[1], moduli[2], moduli[3], moduli[4], moduli[5], moduli[6], moduli[7], moduli[8];
    var kerrb, gerrb := KvrhErrB(c1derr, sqrt), GvrhErrB(c1derr, sqrt);
    var kerr, gerr := HillErr(kv, kr, kerrb, sqrt), HillErr(gv, gr, gerrb, sqrt);
    [denserr, kerrb, kerrb, kerr, gerrb, gerrb, gerr,
     VpErr(vp, kvrh, gvrh, kerr, gerr, dens, denserr, sqrt),
     VsErr(vs, gvrh, gerr, dens, denserr, sqrt)]
  }

  /** CijVRH on a given compliance matrix `s2r`: the 2x9 table of the
      moduli row over the error row. */
  function Vrh(c1d: seq<real>, c1derr: seq<real>, dens: real, denserr: real,
               s2r: Matrix, sqrt: real -> real): (evrh: seq<seq<real>>)
    requires |c1d| == 21 && |c1derr| == 21 && IsMatrix(s2r, 6, 6)
    requires VrhDefined(c1d, dens, s2r)
    ensures IsMatrix(evrh, 2, 9)
    ensures evrh[0] == ModuliRow(c1d, dens, s2r, sqrt)
    ensures evrh[1] == ErrorRow(evrh[0], c1derr, denserr, sqrt)
  {
    var moduli := ModuliRow(c1d, dens, s2r, sqrt);
    [moduli, ErrorRow(moduli, c1derr, denserr, sqrt)]
  }

  /** CijVRH: the table for the stiffness constants, their errors, the
      density and its error, with the compliance matrix s2r inverted from
      the Voigt matrix by `inverse`. Row 0 holds the Voigt bounds of the
      constants, the Reuss bounds of s2r, their Hill means and the
      velocities; row 1 holds the density error, the Voigt-bound errors in
      both the Voigt and the Reuss columns, the Hill errors made from the
      spread of the bounds and those errors, and the velocity errors made
      from the Hill errors. For a square root the Hill errors are at least
      half the spread of the bounds. */
  function CijVRH(c1d: seq<real>, c1derr: seq<real>, dens: real, denserr: real,
                  inverse: Matrix -> Matrix, sqrt: real -> real): (evrh: seq<seq<real>>)
    requires |c1d| == 21 && |c1derr| == 21
    requires IsMatrix(inverse(VoigtMatrix(c1d)), 6, 6)
    requires VrhDefined(c1d, dens, inverse(VoigtMatrix(c1d)))
    ensures IsMatrix(evrh, 2, 9)
    ensures var s2r := inverse(VoigtMatrix(c1d));
      && evrh[0][0] == dens
      && evrh[0][1] == Kv(c1d) && evrh[0][2] == Kr(s2r) && evrh[0][3] == (Kv(c1d) + Kr(s2r)) / 2.0
      && evrh[0][4] == Gv(c1d) && evrh[0][5] == Gr(s2r) && evrh[0][6] == (Gv(c1d) + Gr(s2r)) / 2.0
      && evrh[0][7] == Vp(evrh[0][3], evrh[0][6], dens, sqrt) && evrh[0][8] == Vs(evrh[0][6], dens, sqrt)
    ensures evrh[1][0] == denserr
    ensures evrh[1][1] == evrh[1][2] == KvrhErrB(c1derr, sqrt)
    ensures evrh[1][4] == evrh[1][5] == GvrhErrB(c1derr, sqrt)
    ensures evrh[1][3] == HillErr(evrh[0][1], evrh[0][2], evrh[1][1], sqrt)
    ensures evrh[1][6] == HillErr(evrh[0][4], evrh[0][5], evrh[1][4], sqrt)
    ensures evrh[1][7] == VpErr(evrh[0][7], evrh[0][3], evrh[0][6], evrh[1][3], evrh[1][6], dens, denserr, sqrt)
    ensures evrh[1][8] == VsErr(evrh[0][8], evrh[0][6], evrh[1][6], dens, denserr, sqrt)
    ensures IsSqrt(sqrt) ==>
      evrh[1][3] >= Abs(evrh[0][1] - evrh[0][2]) / 2.0 && evrh[1][6] >= Abs(evrh[0][4] - evrh[0][5]) / 2.0
  {
    VrhErrorBounds(c1d, c1derr, dens, denserr, inverse(VoigtMatrix(c1d)), sqrt);
    Vrh(c1d, c1derr, dens, denserr, inverse(VoigtMatrix(c1d)), sqrt)
  }

  /** For a square root, the Hill errors in the table are at least half the
      spread of the bounds. */
  lemma VrhErrorBounds(c1d: seq<real>, c1derr: seq<real>, dens: real, denserr: real,
                       s2r: Matrix, sqrt: real -> real)
    requires |c1d| == 21 && |c1derr| == 21 && IsMatrix(s2r, 6, 6)
    requires VrhDefined(c1d, dens, s2r)
    ensures var evrh := Vrh(c1d, c1derr, dens, denserr, s2r, sqrt);
      IsSqrt(sqrt) ==>
      && evrh[1][3] >= Abs(evrh[0][1] - evrh[0][2]) / 2.0
      && evrh[1][6] >= Abs(evrh[0][4] - evrh[0][5]) / 2.0
  {
    var evrh := Vrh(c1d, c1derr, dens, denserr, s2r, sqrt);
    HillErrBound(evrh[0][1], evrh[0][2], evrh[1][1], sqrt);
    HillErrBound(evrh[0][4], evrh[0][5], evrh[1][4], sqrt);
  }

  /** For a square root, the error of a non-negative compressional velocity
      is non-negative: it is half the velocity times a root. */
  lemma VpErrNonNegative(vp: real, kvrh: real, gvrh: real, kerr: real, gerr: real,
                         dens: real, denserr: real, sqrt: real -> real)
    requires dens != 0.0 && kvrh + 4.0 / 3.0 * gvrh != 0.0
    ensures IsSqrt(sqrt) && 0.0 <= vp ==> VpErr(vp, kvrh, gvrh, kerr, gerr, dens, denserr, sqrt) >= 0.0
  {
    if IsSqrt(sqrt) && 0.0 <= vp {
      var m := kvrh + 4.0 / 3.0 * gvrh;
      SqNonZero(dens); SqNonZero(m);
      SqNonNegative(dens); SqNonNegative(m);
      SqNonNegative(kerr); SqNonNegative(gerr); SqNonNegative(denserr);
      QuotientNonNegative(Sq(kerr) + 16.0 / 9.0 * Sq(gerr), Sq(m));
      QuotientNonNegative(Sq(denserr), Sq(dens));
      var x := (Sq(kerr) + 16.0 / 9.0 * Sq(gerr)) / Sq(m) + Sq(denserr) / Sq(dens);
      assert 0.0 <= Root(sqrt, x);
      ProductNonNegative(vp / 2.0, sqrt(x));
    }
  }

  /** For a square root, the error of a non-negative shear velocity is
      non-negative. */
  lemma VsErrNonNegative(vs: real, gvrh: real, gerr: real, dens: real, denserr: real,
                         sqrt: real -> real)
    requires dens != 0.0 && gvrh != 0.0
    ensures IsSqrt(sqrt) && 0.0 <= vs ==> VsErr(vs, gvrh, gerr, dens, denserr, sqrt) >= 0.0
  {
    if IsSqrt(sqrt) && 0.0 <= vs {
      SqNonZero(dens); SqNonZero(gvrh);
      SqNonNegative(dens); SqNonNegative(gvrh);
      SqNonNegative(gerr); SqNonNegative(denserr);
      QuotientNonNegative(Sq(gerr), Sq(gvrh));
      QuotientNonNegative(Sq(denserr), Sq(dens));
      var x := Sq(gerr) / Sq(gvrh) + Sq(denserr) / Sq(dens);
      assert 0.0 <= Root(sqrt, x);
      ProductNonNegative(vs / 2.0, sqrt(x));
    }
  }

  /** For a square root, a positive density and non-negative moduli, the
      velocities in row 0 are real and their errors in row 1 are
      non-negative. */
  lemma VrhVelocityErrors(c1d: seq<real>, c1derr: seq<real>, dens: real, denserr: real,
                          s2r: Matrix, sqrt: real -> real)
    requires |c1d| == 21 && |c1derr| == 21 && IsMatrix(s2r, 6, 6)
    requires VrhDefined(c1d, dens, s2r)
    ensures var evrh := Vrh(c1d, c1derr, dens, denserr, s2r, sqrt);
      IsSqrt(sqrt) && 0.0 < dens && 0.0 <= evrh[0][6] && 0.0 <= evrh[0][3] + 4.0 / 3.0 * evrh[0][6] ==>
      && evrh[0][7] >= 0.0 && evrh[0][8] >= 0.0
      && evrh[1][7] >= 0.0 && evrh[1][8] >= 0.0
  {
    var evrh := Vrh(c1d, c1derr, dens, denserr, s2r, sqrt);
    if IsSqrt(sqrt) && 0.0 < dens && 0.0 <= evrh[0][6] && 0.0 <= evrh[0][3] + 4.0 / 3.0 * evrh[0][6] {
      var m := evrh[0][3] + 4.0 / 3.0 * evrh[0][6];
      QuotientNonNegative(m, dens);
      QuotientNonNegative(evrh[0][6], dens);
      assert 0.0 <= Root(sqrt, m / dens) && 0.0 <= Root(sqrt, evrh[0][6] / dens);
      VpErrNonNegative(evrh[0][7], evrh[0][3], evrh[0][6], evrh[1][3], evrh[1][6], dens, denserr, sqrt);
      VsErrNonNegative(evrh[0][8], evrh[0][6], evrh[1][6], dens, denserr, sqrt);
    }
  }

  /** For a square root and a positive density, the velocities in row 0
      of the table square back to modulus over density: Vs^2 dens = Gvrh and
      Vp^2 dens = Kvrh + 4/3 Gvrh, whenever those moduli are non-negative. */
  lemma VrhVelocities(c1d: seq<real>, dens: real, s2r: Matrix, sqrt: real -> real)
    requires |c1d| == 21 && IsMatrix(s2r, 6, 6)
    requires VrhDefined(c1d, dens, s2r) && 0.0 < dens
    ensures var row := ModuliRow(c1d, dens, s2r, sqrt);
      && (IsSqrt(sqrt) && 0.0 <= row[6] ==> Sq(row[8]) * dens == row[6])
      && (IsSqrt(sqrt) && 0.0 <= row[3] + 4.0 / 3.0 * row[6] ==>
            Sq(row[7]) * dens == row[3] + 4.0 / 3.0 * row[6])
  {
    var row := ModuliRow(c1d, dens, s2r, sqrt);
    VelocitySquare(row[6], dens, sqrt);
    VelocitySquare(row[3] + 4.0 / 3.0 * row[6], dens, sqrt);
  }

  /** The error of a Hill mean is at least half the spread of its bounds,
      because the added square root is of a sum of squares. */
  lemma HillErrBound(voigt: real, reuss: real, errb: real, sqrt: real -> real)
    ensures IsSqrt(sqrt) ==> HillErr(voigt, reuss, errb, sqrt) >= Abs(voigt - reuss) / 2.0
  {
    SqNonNegative(errb);
    assert Root(sqrt, 1.0 / 4.0 * Sq(errb) + 1.0 / 4.0 * Sq(errb)) == sqrt(1.0 / 4.0 * Sq(errb) + 1.0 / 4.0 * Sq(errb));
  }

  /** A velocity computed as sqrt(modulus / density) squares back to
      modulus / density. */
  lemma VelocitySquare(modulus: real, dens: real, sqrt: real -> real)
    requires dens != 0.0
    ensures IsSqrt(sqrt) && 0.0 < dens && 0.0 <= modulus ==> Sq(sqrt(modulus / dens)) * dens == modulus
  {
    assert Root(sqrt, modulus / dens) == sqrt(modulus / dens);
  }

  /** The Voigt bounds read only the first nine constants (c11 c22 c33 c44
      c55 c66 c12 c13 c23); the twelve off-axis constants do not move them. */
  lemma VoigtReadsFirstNine(c1d: seq<real>, c1d': seq<real>)
    requires |c1d| == 21 && |c1d'| == 21 && c1d[..9] == c1d'[..9]
    ensures Kv(c1d) == Kv(c1d') && Gv(c1d) == Gv(c1d')
  {
    forall k | 0 <= k < 9 ensures c1d[k] == c1d'[k] {
      assert c1d[k] == c1d[..9][k] && c1d'[k] == c1d'[..9][k];
    }
  }

  /** With exact constants the propagated errors vanish, and the Hill errors
      reduce to half the spread of the bounds. */
  lemma ExactConstants(c1d: seq<real>, dens: real, denserr: real, s2r: Matrix, sqrt: real -> real)
    requires |c1d| == 21 && IsMatrix(s2r, 6, 6) && VrhDefined(c1d, dens, s2r)
    requires IsSqrt(sqrt)
    ensures var evrh := Vrh(c1d, seq(21, k => 0.0), dens, denserr, s2r, sqrt);
      && evrh[1][1] == evrh[1][2] == evrh[1][4] == evrh[1][5] == 0.0
      && evrh[1][3] == Abs(Kv(c1d) - Kr(s2r)) / 2.0
      && evrh[1][6] == Abs(Gv(c1d) - Gr(s2r)) / 2.0
  {
    var zero := seq(21, k => 0.0);
    SqrtOfZero(sqrt);
    assert KvrhErrB(zero, sqrt) == 0.0 by {
      assert (Sq(zero[0]) + Sq(zero[1]) + Sq(zero[2]) + 4.0 * (Sq(zero[6]) + Sq(zero[7]) + Sq(zero[8]))) / 81.0 == 0.0;
    }
    assert GvrhErrB(zero, sqrt) == 0.0 by {
      assert (Sq(zero[0]) + Sq(zero[1]) + Sq(zero[2]) + Sq(zero[6]) + Sq(zero[7]) + Sq(zero[8])
              + 9.0 * (Sq(zero[3]) + Sq(zero[4]) + Sq(zero[5]))) / 225.0 == 0.0;
    }
    assert 1.0 / 4.0 * Sq(0.0) + 1.0 / 4.0 * Sq(0.0) == 0.0;
  }

  /** For the constants c11 = c22 = c33 = 200, c44 = c55 = c66 = 100 and
      c12 = c13 = c23 = 100, the Voigt formulas give Kv = 400 / 3 and
      Gv = 80. */
  lemma CubicExample()
    ensures var c1d := [200.0, 200.0, 200.0, 100.0, 100.0, 100.0, 100.0, 100.0, 100.0] + seq(12, k => 0.0);
      Kv(c1d) == 400.0 / 3.0 && Gv(c1d) == 80.0
  {
  }
}
