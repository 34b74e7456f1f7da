/** Elastic anisotropy of a single crystal: the universal anisotropy index
    AU from the Voigt and Reuss bounds, and a survey of P and S velocities
    over a grid of propagation directions that reports the azimuthal
    anisotropy of Vp and Vs and the largest shear-wave splitting. */
module CijAniso {
  import opened Numerics
  import opened CijSij124d
  import opened CijKGvrh
  import opened CijtVel

  // ---------------------------------------------------------------------
  // Universal anisotropy index
  // ---------------------------------------------------------------------

  /** AU = 5 Gv / Gr + Kv / Kr - 6. */
  function AuIndex(kv: real, kr: real, gv: real, gr: real): real
    requires kr != 0.0 && gr != 0.0
  {
    5.0 * gv / gr + kv / kr - 6.0
  }

  /** The square of the first-order error of AU, from the errors of the
      four bounds. */
  function AuErrorSquare(kv: real, kverr: real, kr: real, krerr: real,
                         gv: real, gverr: real, gr: real, grerr: real): real
    requires kv != 0.0 && kr != 0.0 && gv != 0.0 && gr != 0.0
  {
    SqNonZero(kv); SqNonZero(kr); SqNonZero(gv); SqNonZero(gr);
    25.0 * (Sq(gv / gr) * (Sq(gverr) / Sq(gv) + Sq(grerr) / Sq(gr))) +
    Sq(kv / kr) * (Sq(kverr) / Sq(kv) + Sq(krerr) / Sq(kr))
  }

  /** AUerr. */
  function AuError(kv: real, kverr: real, kr: real, krerr: real,
                   gv: real, gverr: real, gr: real, grerr: real, sqrt: real -> real): real
    requires kv != 0.0 && kr != 0.0 && gv != 0.0 && gr != 0.0
  {
    sqrt(AuErrorSquare(kv, kverr, kr, krerr, gv, gverr, gr, grerr))
  }

  /** UnivAniso: [AU, AUerr] from the Voigt-Reuss-Hill table. The two error
      arguments of each modulus are the ones CijVRH stores, and CijVRH
      stores the same Voigt-bound error in its Voigt and Reuss columns. */
  function UnivAniso(c1d: seq<real>, c1derr: seq<real>, dens: real, denserr: real,
                     inverse: Matrix -> Matrix, sqrt: real -> real): (au: seq<real>)
    requires |c1d| == 21 && |c1derr| == 21
    requires IsMatrix(inverse(VoigtMatrix(c1d)), 6, 6)
    requires VrhDefined(c1d, dens, inverse(VoigtMatrix(c1d)))
    requires Kv(c1d) != 0.0 && Gv(c1d) != 0.0
    ensures |au| == 2
    ensures var s2r := inverse(VoigtMatrix(c1d));
      au[0] == AuIndex(Kv(c1d), Kr(s2r), Gv(c1d), Gr(s2r)) &&
      au[1] == AuError(Kv(c1d), KvrhErrB(c1derr, sqrt), Kr(s2r), KvrhErrB(c1derr, sqrt),
                       Gv(c1d), GvrhErrB(c1derr, sqrt), Gr(s2r), GvrhErrB(c1derr, sqrt), sqrt)
  {
    var evrh := CijVRH(c1d, c1derr, dens, denserr, inverse, sqrt);
    var kv, kverr, gv, gverr := evrh[0][1], evrh[1][1], evrh[0][4], evrh[1][4];
    var kr, krerr, gr, grerr := evrh[0][2], evrh[1][2], evrh[0][5], evrh[1][5];
    [AuIndex(kv, kr, gv, gr), AuError(kv, kverr, kr, krerr, gv, gverr, gr, grerr, sqrt)]
  }

  /** A crystal whose Voigt and Reuss bounds coincide has AU = 0. */
  lemma AuIsotropic(kv: real, gv: real)
    requires kv != 0.0 && gv != 0.0
    ensures AuIndex(kv, kv, gv, gv) == 0.0
  {
    assert kv / kv == 1.0;
    assert 5.0 * gv / gv == 5.0;
  }

  /** When the Voigt bounds are at least the Reuss bounds (positive), AU is
      non-negative. */
  lemma AuNonNegative(kv: real, kr: real, gv: real, gr: real)
    requires 0.0 < kr <= kv && 0.0 < gr <= gv
    ensures AuIndex(kv, kr, gv, gr) >= 0.0
  {
    var p, q := kv / kr, gv / gr;
    assert p * kr == kv && q * gr == gv;
    assert p < 1.0 ==> p * kr < kr;
    assert q < 1.0 ==> q * gr < gr;
    assert 5.0 * gv / gr == 5.0 * q;
  }

  /** The relative errors squared, weighted and summed, are non-negative. */
  lemma AuErrorSquareNonNegative(kv: real, kverr: real, kr: real, krerr: real,
                                 gv: real, gverr: real, gr: real, grerr: real)
    requires kv != 0.0 && kr != 0.0 && gv != 0.0 && gr != 0.0
    ensures AuErrorSquare(kv, kverr, kr, krerr, gv, gverr, gr, grerr) >= 0.0
  {
    SqNonZero(kv); SqNonZero(kr); SqNonZero(gv); SqNonZero(gr);
    SqNonNegative(kv); SqNonNegative(kr); SqNonNegative(gv); SqNonNegative(gr);
    SqNonNegative(kverr); SqNonNegative(krerr); SqNonNegative(gverr); SqNonNegative(grerr);
    SqNonNegative(gv / gr); SqNonNegative(kv / kr);
    QuotientNonNegative(Sq(gverr), Sq(gv)); QuotientNonNegative(Sq(grerr), Sq(gr));
    QuotientNonNegative(Sq(kverr), Sq(kv)); QuotientNonNegative(Sq(krerr), Sq(kr));
    ProductNonNegative(Sq(gv / gr), Sq(gverr) / Sq(gv) + Sq(grerr) / Sq(gr));
    ProductNonNegative(Sq(kv / kr), Sq(kverr) / Sq(kv) + Sq(krerr) / Sq(kr));
  }

  /** AUerr is a square root of a sum of squares, so it is non-negative. */
  lemma AuErrorNonNegative(kv: real, kverr: real, kr: real, krerr: real,
                           gv: real, gverr: real, gr: real, grerr: real, sqrt: real -> real)
    requires kv != 0.0 && kr != 0.0 && gv != 0.0 && gr != 0.0 && IsSqrt(sqrt)
    ensures AuError(kv, kverr, kr, krerr, gv, gverr, gr, grerr, sqrt) >= 0.0
  {
    AuErrorSquareNonNegative(kv, kverr, kr, krerr, gv, gverr, gr, grerr);
    assert 0.0 <= Root(sqrt, AuErrorSquare(kv, kverr, kr, krerr, gv, gverr, gr, grerr));
  }

  /** With exact bounds (zero errors) AUerr is zero. */
  lemma AuErrorExact(kv: real, kr: real, gv: real, gr: real, sqrt: real -> real)
    requires kv != 0.0 && kr != 0.0 && gv != 0.0 && gr != 0.0 && IsSqrt(sqrt)
    ensures AuError(kv, 0.0, kr, 0.0, gv, 0.0, gr, 0.0, sqrt) == 0.0
  {
    SqNonZero(kv); SqNonZero(kr); SqNonZero(gv); SqNonZero(gr);
    assert Sq(0.0) == 0.0;
    assert AuErrorSquare(kv, 0.0, kr, 0.0, gv, 0.0, gr, 0.0) == 0.0;
    SqrtOfZero(sqrt);
  }

  // ---------------------------------------------------------------------
  // The direction grid
  // ---------------------------------------------------------------------

  /** numpy's eig returns three eigenvalues and a 3x3 eigenvector matrix for
      every 3x3 input. */
  ghost predicate EigTotal(eig: Matrix -> Eigensystem) {
    forall a :: IsMatrix(a, 3, 3) ==> EigShaped(eig(a))
  }

  /** The sampled direction [nx, ny, z] / m. */
  function Direction(nx: int, ny: int, z: int, m: int): (n: seq<real>)
    requires m != 0
    ensures |n| == 3
  {
    [nx as real / m as real, ny as real / m as real, z as real / m as real]
  }

  /** A grid direction with z != 0 is not the zero vector, so its norm is
      positive and Cijtvel may divide by it. */
  lemma DirectionNonZero(nx: int, ny: int, z: int, m: int, sqrt: real -> real)
    requires m != 0 && z != 0 && IsSqrt(sqrt)
    ensures 0.0 < NormSq(Direction(nx, ny, z, m))
    ensures sqrt(NormSq(Direction(nx, ny, z, m))) != 0.0
  {
    var n := Direction(nx, ny, z, m);
    var q := z as real / m as real;
    assert q * (m as real) == z as real;
    assert n[2] == q;
    SqNonZero(q);
    SqNonNegative(n[0]); SqNonNegative(n[1]); SqNonNegative(q);
    SqrtOfPositive(sqrt, NormSq(n));
  }

  /** A grid point (nx, ny, z) of AVpVs: 0 <= nx, ny <= m and 1 <= |z| <= m. */
  type Point = (int, int, int)

  predicate OnGrid(p: Point, m: int) {
    0 <= p.0 <= m && 0 <= p.1 <= m && (1 <= p.2 <= m || -m <= p.2 <= -1)
  }

  /** The number of directions AVpVs samples: (m + 1)^2 columns (nx, ny) of
      2 m points each, none when m < 1. */
  function SurveySize(m: int): nat {
    if m < 1 then 0 else 2 * m * ((m + 1) * (m + 1))
  }

  /** The t-th point AVpVs visits. Its loops run nx, then ny over 0 .. m,
      then nz over 1 .. m, and visit (nx, ny, nz) before (nx, ny, -nz). */
  function SurveyPoint(m: int, t: int): Point
    requires 1 <= m && 0 <= t
  {
    var k, r := t / (2 * m), t % (2 * m);
    var nz := r / 2 + 1;
    (k / (m + 1), k % (m + 1), if r % 2 == 0 then nz else -nz)
  }

  /** The number of points AVpVs visits before (nx, ny, nz). */
  function SurveyIndex(m: int, nx: int, ny: int, nz: int): int {
    2 * m * ((m + 1) * nx + ny) + 2 * (nz - 1)
  }

  /** The survey is empty exactly when m < 1. */
  lemma SurveyEmpty(m: int)
    ensures SurveySize(m) == 0 <==> m < 1
  {
    if 1 <= m {
      MulLeq(m + 1, 1, m + 1);
      MulLeq(2 * m, 1, (m + 1) * (m + 1));
    }
  }

  /** Every point the survey visits lies on the grid; in particular its z
      is nonzero, so Cijtvel never meets the zero direction. */
  lemma SurveyOnGrid(m: int, t: int)
    requires 0 <= t < SurveySize(m)
    ensures OnGrid(SurveyPoint(m, t), m)
  {
    var k := t / (2 * m);
    QuotientBelow(t, 2 * m, (m + 1) * (m + 1));
    QuotientBelow(k, m + 1, m + 1);
  }

  /** Every grid point (nx, ny, nz) with nz > 0 is visited at SurveyIndex,
      immediately followed by (nx, ny, -nz). */
  lemma SurveyPairs(m: int, nx: int, ny: int, nz: int)
    requires 0 <= nx <= m && 0 <= ny <= m && 1 <= nz <= m
    ensures var t := SurveyIndex(m, nx, ny, nz);
      0 <= t && t + 1 < SurveySize(m) &&
      SurveyPoint(m, t) == (nx, ny, nz) && SurveyPoint(m, t + 1) == (nx, ny, -nz)
  {
    var k, r := (m + 1) * nx + ny, 2 * (nz - 1);
    MulLeq(m + 1, 0, nx);
    MulLeq(2 * m, 0, k);
    DivModUnique(2 * m, k, r);
    DivModUnique(2 * m, k, r + 1);
    DivModUnique(m + 1, nx, ny);
    DivModUnique(2, nz - 1, 0);
    DivModUnique(2, nz - 1, 1);
    MulLeq(m + 1, nx, m);
    assert k + 1 <= (m + 1) * (m + 1);
    MulLeq(2 * m, k + 1, (m + 1) * (m + 1));
    assert 2 * m * (k + 1) == 2 * m * k + 2 * m;
  }

  /** Conversely, the t-th point visited is the point whose SurveyIndex is
      t (for +nz) or t - 1 (for -nz), so no point is visited twice. */
  lemma SurveyPointIndex(m: int, t: int)
    requires 0 <= t < SurveySize(m)
    ensures var p := SurveyPoint(m, t);
      if p.2 > 0 then t == SurveyIndex(m, p.0, p.1, p.2) else t == SurveyIndex(m, p.0, p.1, -p.2) + 1
  {
    var k, r := t / (2 * m), t % (2 * m);
    assert t == 2 * m * k + r;
    assert k == (m + 1) * (k / (m + 1)) + k % (m + 1);
    assert r == 2 * (r / 2) + r % 2;
  }

  /** Distinct positions of the survey hold distinct points. */
  lemma SurveyDistinct(m: int, t: int, u: int)
    requires 0 <= t < SurveySize(m) && 0 <= u < SurveySize(m) && t != u
    ensures SurveyPoint(m, t) != SurveyPoint(m, u)
  {
    SurveyPointIndex(m, t);
    SurveyPointIndex(m, u);
  }

  // ---------------------------------------------------------------------
  // The survey table
  // ---------------------------------------------------------------------

  /** What Cijtvel returns for the t-th direction of the survey. */
  function Sample(c1d: seq<real>, dens: real, m: int, sqrt: real -> real,
                  eig: Matrix -> Eigensystem, t: int): (w: Wave)
    requires |c1d| == 21 && dens != 0.0 && IsSqrt(sqrt) && EigTotal(eig)
    requires 1 <= m && 0 <= t
    ensures |w.vel| == 3 && IsMatrix(w.pol, 3, 3)
  {
    var p := SurveyPoint(m, t);
    DirectionNonZero(p.0, p.1, p.2, m, sqrt);
    VelocitySolution(c1d, Direction(p.0, p.1, p.2, m), dens, sqrt, eig)
  }

  /** np.reshape(pol, 9): the rows of pol one after another. */
  function Flatten(pol: Matrix): (flat: seq<real>)
    requires IsMatrix(pol, 3, 3)
    ensures |flat| == 9
    ensures forall a, b :: 0 <= a < 3 && 0 <= b < 3 ==> flat[3 * a + b] == pol[a][b]
  {
    pol[0] + pol[1] + pol[2]
  }

  /** A row of VelPol: Vp, Vs1, Vs2, then the P, S1 and S2 polarizations. */
  function Row(w: Wave): (row: seq<real>)
    requires |w.vel| == 3 && IsMatrix(w.pol, 3, 3)
    ensures |row| == 12
  {
    w.vel + Flatten(w.pol)
  }

  predicate IsTable(table: seq<seq<real>>) {
    forall i :: 0 <= i < |table| ==> |table[i]| == 12
  }

  /** VelPol once the seed row is deleted: one row per surveyed direction,
      in the order AVpVs visits them. */
  function SurveyTable(c1d: seq<real>, dens: real, m: int, sqrt: real -> real,
                       eig: Matrix -> Eigensystem): (table: seq<seq<real>>)
    requires |c1d| == 21 && dens != 0.0 && IsSqrt(sqrt) && EigTotal(eig)
    ensures |table| == SurveySize(m) && IsTable(table)
  {
    seq(SurveySize(m), t requires 0 <= t < SurveySize(m) => Row(Sample(c1d, dens, m, sqrt, eig, t)))
  }

  /** The rows at SurveyIndex(nx, ny, nz) and the next are Cijtvel's waves
      along [nx, ny, nz] / m and [nx, ny, -nz] / m. */
  lemma TablePairs(c1d: seq<real>, dens: real, m: int, sqrt: real -> real,
                   eig: Matrix -> Eigensystem, nx: int, ny: int, nz: int)
    requires |c1d| == 21 && dens != 0.0 && IsSqrt(sqrt) && EigTotal(eig)
    requires 0 <= nx <= m && 0 <= ny <= m && 1 <= nz <= m
    ensures sqrt(NormSq(Direction(nx, ny, nz, m))) != 0.0
    ensures sqrt(NormSq(Direction(nx, ny, -nz, m))) != 0.0
    ensures var table, t := SurveyTable(c1d, dens, m, sqrt, eig), SurveyIndex(m, nx, ny, nz);
      && 0 <= t && t + 1 < |table|
      && table[t] == Row(VelocitySolution(c1d, Direction(nx, ny, nz, m), dens, sqrt, eig))
      && table[t + 1] == Row(VelocitySolution(c1d, Direction(nx, ny, -nz, m), dens, sqrt, eig))
  {
    DirectionNonZero(nx, ny, nz, m, sqrt);
    DirectionNonZero(nx, ny, -nz, m, sqrt);
    SampleIndex(c1d, dens, m, sqrt, eig, nx, ny, nz);
    var table, t := SurveyTable(c1d, dens, m, sqrt, eig), SurveyIndex(m, nx, ny, nz);
    assert table[t] == Row(Sample(c1d, dens, m, sqrt, eig, t));
    assert table[t + 1] == Row(Sample(c1d, dens, m, sqrt, eig, t + 1));
  }

  lemma SampleIndex(c1d: seq<real>, dens: real, m: int, sqrt: real -> real,
                    eig: Matrix -> Eigensystem, nx: int, ny: int, nz: int)
    requires |c1d| == 21 && dens != 0.0 && IsSqrt(sqrt) && EigTotal(eig)
    requires 0 <= nx <= m && 0 <= ny <= m && 1 <= nz <= m
    ensures sqrt(NormSq(Direction(nx, ny, nz, m))) != 0.0
    ensures sqrt(NormSq(Direction(nx, ny, -nz, m))) != 0.0
    ensures var t := SurveyIndex(m, nx, ny, nz);
      && 0 <= t && t + 1 < SurveySize(m)
      && Sample(c1d, dens, m, sqrt, eig, t) == VelocitySolution(c1d, Direction(nx, ny, nz, m), dens, sqrt, eig)
      && Sample(c1d, dens, m, sqrt, eig, t + 1) == VelocitySolution(c1d, Direction(nx, ny, -nz, m), dens, sqrt, eig)
  {
    DirectionNonZero(nx, ny, nz, m, sqrt);
    DirectionNonZero(nx, ny, -nz, m, sqrt);
    SurveyPairs(m, nx, ny, nz);
  }

  /** Every row lists its velocities as Cijtvel orders them: Vp >= Vs1 >= Vs2. */
  lemma TableOrdered(c1d: seq<real>, dens: real, m: int, sqrt: real -> real,
                     eig: Matrix -> Eigensystem)
    requires |c1d| == 21 && dens != 0.0 && IsSqrt(sqrt) && EigTotal(eig)
    ensures var table := SurveyTable(c1d, dens, m, sqrt, eig);
      forall i :: 0 <= i < |table| ==> table[i][0] >= table[i][1] >= table[i][2]
  {
    var table := SurveyTable(c1d, dens, m, sqrt, eig);
    forall i | 0 <= i < |table|
      ensures table[i][0] >= table[i][1] >= table[i][2]
    {
      var p := SurveyPoint(m, i);
      DirectionNonZero(p.0, p.1, p.2, m, sqrt);
      var w := VelocitySolution(c1d, Direction(p.0, p.1, p.2, m), dens, sqrt, eig);
      assert table[i] == Row(w);
    }
  }

  // ---------------------------------------------------------------------
  // Extremes of a column and where they first occur
  // ---------------------------------------------------------------------

  /** numpy's max: the largest entry. */
  function SeqMax(s: seq<real>): (x: real)
    requires |s| > 0
    ensures x in s && forall i :: 0 <= i < |s| ==> s[i] <= x
  {
    if |s| == 1 then s[0] else Max(SeqMax(s[..|s| - 1]), s[|s| - 1])
  }

  /** numpy's min: the smallest entry. */
  function SeqMin(s: seq<real>): (x: real)
    requires |s| > 0
    ensures x in s && forall i :: 0 <= i < |s| ==> x <= s[i]
  {
    if |s| == 1 then s[0] else Min(SeqMin(s[..|s| - 1]), s[|s| - 1])
  }

  /** np.where(s == x)[0][0]: the first position holding x. */
  function FirstIndex(s: seq<real>, x: real): (k: nat)
    requires x in s
    ensures k < |s| && s[k] == x && forall j :: 0 <= j < k ==> s[j] != x
  {
    if s[0] == x then 0 else 1 + FirstIndex(s[1..], x)
  }

  /** Column c of the table, VelPol[:, c]. */
  function Column(table: seq<seq<real>>, c: int): (col: seq<real>)
    requires IsTable(table) && 0 <= c < 12
    ensures |col| == |table| && forall i :: 0 <= i < |table| ==> col[i] == table[i][c]
  {
    seq(|table|, i requires 0 <= i < |table| => table[i][c])
  }

  /** DelVs = Vs1 - Vs2, row by row. */
  function Splitting(table: seq<seq<real>>): (d: seq<real>)
    requires IsTable(table)
    ensures |d| == |table| && forall i :: 0 <= i < |table| ==> d[i] == table[i][1] - table[i][2]
  {
    seq(|table|, i requires 0 <= i < |table| => table[i][1] - table[i][2])
  }

  /** Entries c, c + 1, c + 2 of a row: one of its three polarizations. */
  function Triple(row: seq<real>, c: int): seq<real>
    requires 0 <= c <= |row| - 3
  {
    row[c..c + 3]
  }

  // ---------------------------------------------------------------------
  // What AVpVs reports
  // ---------------------------------------------------------------------

  /** [AVp, Vpmax, VpmaxPol, Vpmin, VpminPol]. */
  datatype VpAnisotropy = VpAnisotropy(avp: real, vpmax: real, vpmaxPol: seq<real>,
                                       vpmin: real, vpminPol: seq<real>)

  /** [AVs, Vsmax, VsmaxPhon, VsmaxPol, Vsmin, VsminPhon, VsminPol]. The
      "Phon" entries are columns 3 to 5, the P-wave polarization. */
  datatype VsAnisotropy = VsAnisotropy(avs: real, vsmax: real, vsmaxPhon: seq<real>, vsmaxPol: seq<real>,
                                       vsmin: real, vsminPhon: seq<real>, vsminPol: seq<real>)

  /** [DVs, Vs1, DelVsmaxPhon, DelVsmaxPol1, Vs2, DelVsmaxPhon, DelVsmaxPol2],
      all read from the first row of largest splitting. */
  datatype VsSplitting = VsSplitting(dvs: real, vs1: real, phon: seq<real>, pol1: seq<real>,
                                     vs2: real, phon2: seq<real>, pol2: seq<real>)

  /** The triple AVpVs returns, or the ValueError numpy raises when asked
      for the maximum of the empty table. */
  datatype Survey = EmptyTable | Anisotropy(vp: VpAnisotropy, vs: VsAnisotropy, split: VsSplitting)

  function VpSummary(table: seq<seq<real>>, vpvrh: real): VpAnisotropy
    requires IsTable(table) && |table| > 0 && vpvrh != 0.0
  {
    var vp := Column(table, 0);
    var vpmax, vpmin := SeqMax(vp), SeqMin(vp);
    var i, j := FirstIndex(vp, vpmax), FirstIndex(vp, vpmin);
    VpAnisotropy((vpmax - vpmin) / vpvrh, vpmax, Triple(table[i], 3), vpmin, Triple(table[j], 3))
  }

  function VsSummary(table: seq<seq<real>>, vsvrh: real): VsAnisotropy
    requires IsTable(table) && |table| > 0 && vsvrh != 0.0
  {
    var vs1, vs2 := Column(table, 1), Column(table, 2);
    var vsmax, vsmin := SeqMax(vs1), SeqMin(vs2);
    var i, j := FirstIndex(vs1, vsmax), FirstIndex(vs2, vsmin);
    VsAnisotropy((vsmax - vsmin) / vsvrh, vsmax, Triple(table[i], 3), Triple(table[i], 6),
                 vsmin, Triple(table[j], 3), Triple(table[j], 9))
  }

  function SplitSummary(table: seq<seq<real>>, vsvrh: real): VsSplitting
    requires IsTable(table) && |table| > 0 && vsvrh != 0.0
  {
    var delvs := Splitting(table);
    var delvsmax := SeqMax(delvs);
    var k := FirstIndex(delvs, delvsmax);
    VsSplitting(delvsmax / vsvrh, table[k][1], Triple(table[k], 3), Triple(table[k], 6),
                table[k][2], Triple(table[k], 3), Triple(table[k], 9))
  }

  /** The three reports of AVpVs for a table of rows. */
  function Summary(table: seq<seq<real>>, vpvrh: real, vsvrh: real): Survey
    requires IsTable(table) && vpvrh != 0.0 && vsvrh != 0.0
  {
    if |table| == 0 then EmptyTable
    else Anisotropy(VpSummary(table, vpvrh), VsSummary(table, vsvrh), SplitSummary(table, vsvrh))
  }

  /** Vpmax and Vpmin bound column 0, each is reported with the P
      polarization of the first row attaining it, and AVp is their spread
      relative to Vpvrh. */
  lemma VpReport(table: seq<seq<real>>, vpvrh: real)
    requires IsTable(table) && |table| > 0 && vpvrh != 0.0
    ensures var r := VpSummary(table, vpvrh);
      && (forall i :: 0 <= i < |table| ==> r.vpmin <= table[i][0] <= r.vpmax)
      && (exists i :: 0 <= i < |table| && table[i][0] == r.vpmax && r.vpmaxPol == table[i][3..6] &&
            forall j :: 0 <= j < i ==> table[j][0] < r.vpmax)
      && (exists i :: 0 <= i < |table| && table[i][0] == r.vpmin && r.vpminPol == table[i][3..6] &&
            forall j :: 0 <= j < i ==> r.vpmin < table[j][0])
      && r.avp == (r.vpmax - r.vpmin) / vpvrh
      && (0.0 < vpvrh ==> 0.0 <= r.avp)
  {
    var r := VpSummary(table, vpvrh);
    var vp := Column(table, 0);
    var i, j := FirstIndex(vp, r.vpmax), FirstIndex(vp, r.vpmin);
    assert table[i][0] == r.vpmax && table[j][0] == r.vpmin;
    if 0.0 < vpvrh {
      QuotientNonNegative(r.vpmax - r.vpmin, vpvrh);
    }
  }

  /** Vsmax is the largest Vs1 and Vsmin the smallest Vs2, each taken from
      the first row attaining it, possibly two different rows; AVs is their
      spread relative to Vsvrh, non-negative when every row has Vs1 >= Vs2. */
  lemma VsReport(table: seq<seq<real>>, vsvrh: real)
    requires IsTable(table) && |table| > 0 && vsvrh != 0.0
    ensures var r := VsSummary(table, vsvrh);
      && (forall i :: 0 <= i < |table| ==> table[i][1] <= r.vsmax && r.vsmin <= table[i][2])
      && (exists i :: 0 <= i < |table| && table[i][1] == r.vsmax &&
            r.vsmaxPhon == table[i][3..6] && r.vsmaxPol == table[i][6..9] &&
            forall j :: 0 <= j < i ==> table[j][1] < r.vsmax)
      && (exists i :: 0 <= i < |table| && table[i][2] == r.vsmin &&
            r.vsminPhon == table[i][3..6] && r.vsminPol == table[i][9..12] &&
            forall j :: 0 <= j < i ==> r.vsmin < table[j][2])
      && r.avs == (r.vsmax - r.vsmin) / vsvrh
      && (0.0 < vsvrh && (forall i :: 0 <= i < |table| ==> table[i][1] >= table[i][2]) ==> 0.0 <= r.avs)
  {
    var r := VsSummary(table, vsvrh);
    var vs1, vs2 := Column(table, 1), Column(table, 2);
    var i, j := FirstIndex(vs1, r.vsmax), FirstIndex(vs2, r.vsmin);
    assert table[i][1] == r.vsmax && table[j][2] == r.vsmin;
    if 0.0 < vsvrh && (forall i :: 0 <= i < |table| ==> table[i][1] >= table[i][2]) {
      assert r.vsmin <= table[0][2] <= table[0][1] <= r.vsmax;
      QuotientNonNegative(r.vsmax - r.vsmin, vsvrh);
    }
  }

  /** DelVsmax is the largest Vs1 - Vs2; DVs reports it relative to Vsvrh
      with the two shear velocities and polarizations of the first row
      attaining it, and is non-negative when every row has Vs1 >= Vs2. */
  lemma SplitReport(table: seq<seq<real>>, vsvrh: real)
    requires IsTable(table) && |table| > 0 && vsvrh != 0.0
    ensures var r := SplitSummary(table, vsvrh);
      && (forall i :: 0 <= i < |table| ==> table[i][1] - table[i][2] <= r.vs1 - r.vs2)
      && (exists k :: 0 <= k < |table| && r.vs1 == table[k][1] && r.vs2 == table[k][2] &&
            r.phon == table[k][3..6] && r.phon2 == r.phon &&
            r.pol1 == table[k][6..9] && r.pol2 == table[k][9..12] &&
            forall j :: 0 <= j < k ==> table[j][1] - table[j][2] < r.vs1 - r.vs2)
      && r.dvs == (r.vs1 - r.vs2) / vsvrh
      && (0.0 < vsvrh && (forall i :: 0 <= i < |table| ==> table[i][1] >= table[i][2]) ==> 0.0 <= r.dvs)
  {
    var r := SplitSummary(table, vsvrh);
    var delvs := Splitting(table);
    var k := FirstIndex(delvs, SeqMax(delvs));
    assert r.vs1 - r.vs2 == SeqMax(delvs);
    if 0.0 < vsvrh && (forall i :: 0 <= i < |table| ==> table[i][1] >= table[i][2]) {
      assert 0.0 <= delvs[0];
      QuotientNonNegative(r.vs1 - r.vs2, vsvrh);
    }
  }

  /** For a table whose rows list Vp >= Vs1 >= Vs2 and positive Vpvrh and
      Vsvrh, the three anisotropy measures are non-negative. */
  lemma SummaryNonNegative(table: seq<seq<real>>, vpvrh: real, vsvrh: real)
    requires IsTable(table) && 0.0 < vpvrh && 0.0 < vsvrh
    requires forall i :: 0 <= i < |table| ==> table[i][0] >= table[i][1] >= table[i][2]
    ensures var r := Summary(table, vpvrh, vsvrh);
      r.Anisotropy? ==> 0.0 <= r.vp.avp && 0.0 <= r.vs.avs && 0.0 <= r.split.dvs
  {
    if |table| > 0 {
      VpReport(table, vpvrh);
      VsReport(table, vsvrh);
      SplitReport(table, vsvrh);
    }
  }

  /** Over the survey with positive Vpvrh and Vsvrh, the three anisotropy
      measures are non-negative. */
  lemma SurveyNonNegative(c1d: seq<real>, dens: real, m: int, sqrt: real -> real,
                          eig: Matrix -> Eigensystem, vpvrh: real, vsvrh: real)
    requires |c1d| == 21 && dens != 0.0 && IsSqrt(sqrt) && EigTotal(eig)
    requires 0.0 < vpvrh && 0.0 < vsvrh
    ensures var r := Summary(SurveyTable(c1d, dens, m, sqrt, eig), vpvrh, vsvrh);
      r.Anisotropy? ==> 0.0 <= r.vp.avp && 0.0 <= r.vs.avs && 0.0 <= r.split.dvs
  {
    TableOrdered(c1d, dens, m, sqrt, eig);
    SummaryNonNegative(SurveyTable(c1d, dens, m, sqrt, eig), vpvrh, vsvrh);
  }

  // ---------------------------------------------------------------------
  // The scans AVpVs runs over the table
  // ---------------------------------------------------------------------

  /** s.max(). */
  method MaxScan(s: seq<real>) returns (x: real)
    requires |s| > 0
    ensures x == SeqMax(s)
  {
    x := s[0];
    var i := 1;
    while i < |s|
      invariant 1 <= i <= |s| && x == SeqMax(s[..i])
    {
      assert s[..i + 1][..i] == s[..i];
      x := Max(x, s[i]);
      i := i + 1;
    }
    assert s[..|s|] == s;
  }

  /** s.min(). */
  method MinScan(s: seq<real>) returns (x: real)
    requires |s| > 0
    ensures x == SeqMin(s)
  {
    x := s[0];
    var i := 1;
    while i < |s|
      invariant 1 <= i <= |s| && x == SeqMin(s[..i])
    {
      assert s[..i + 1][..i] == s[..i];
      x := Min(x, s[i]);
      i := i + 1;
    }
    assert s[..|s|] == s;
  }

  /** np.where(s == x)[0][0]. */
  method FirstIndexScan(s: seq<real>, x: real) returns (k: nat)
    requires x in s
    ensures k == FirstIndex(s, x)
  {
    k := 0;
    while s[k] != x
      invariant k <= FirstIndex(s, x)
      decreases FirstIndex(s, x) - k
    {
      k := k + 1;
    }
  }

  /** The "Vp azimuthal anisotropy" block. */
  method VpScan(table: seq<seq<real>>, vpvrh: real) returns (r: VpAnisotropy)
    requires IsTable(table) && |table| > 0 && vpvrh != 0.0
    ensures r == VpSummary(table, vpvrh)
  {
    var vp := Column(table, 0);
    var vpmax := MaxScan(vp);
    var vpmin := MinScan(vp);
    var vpmaxIndex := FirstIndexScan(vp, vpmax);
    var vpminIndex := FirstIndexScan(vp, vpmin);
    assert |table[vpmaxIndex]| == 12 && |table[vpminIndex]| == 12;
    r := VpAnisotropy((vpmax - vpmin) / vpvrh, vpmax, Triple(table[vpmaxIndex], 3),
                      vpmin, Triple(table[vpminIndex], 3));
  }

  /** The "Vs azimuthal anisotropy" block. */
  method VsScan(table: seq<seq<real>>, vsvrh: real) returns (r: VsAnisotropy)
    requires IsTable(table) && |table| > 0 && vsvrh != 0.0
    ensures r == VsSummary(table, vsvrh)
  {
    var vs1, vs2 := Column(table, 1), Column(table, 2);
    var vsmax := MaxScan(vs1);
    var vsmin := MinScan(vs2);
    var vsmaxIndex := FirstIndexScan(vs1, vsmax);
    var vsminIndex := FirstIndexScan(vs2, vsmin);
    assert |table[vsmaxIndex]| == 12 && |table[vsminIndex]| == 12;
    r := VsAnisotropy((vsmax - vsmin) / vsvrh, vsmax, Triple(table[vsmaxIndex], 3), Triple(table[vsmaxIndex], 6),
                      vsmin, Triple(table[vsminIndex], 3), Triple(table[vsminIndex], 9));
  }

  /** The "Vs splitting anisotropy" block. */
  method SplitScan(table: seq<seq<real>>, vsvrh: real) returns (r: VsSplitting)
    requires IsTable(table) && |table| > 0 && vsvrh != 0.0
    ensures r == SplitSummary(table, vsvrh)
  {
    var delvs := Splitting(table);
    var delvsmax := MaxScan(delvs);
    var k := FirstIndexScan(delvs, delvsmax);
    r := VsSplitting(delvsmax / vsvrh, table[k][1], Triple(table[k], 3), Triple(table[k], 6),
                     table[k][2], Triple(table[k], 3), Triple(table[k], 9));
  }

  // ---------------------------------------------------------------------
  // AVpVs
  // ---------------------------------------------------------------------

  function Zeros(n: nat): (z: seq<real>)
    ensures |z| == n && forall i :: 0 <= i < n ==> z[i] == 0.0
  {
    seq(n, _ => 0.0)
  }

  /** vel and pol1d hold the zero seed row and then, side by side in row
      t + 1, row t of the table, for the first `count` rows. */
  ghost predicate Grown(vel: seq<seq<real>>, pol1d: seq<seq<real>>, table: seq<seq<real>>, count: int) {
    && 0 <= count <= |table|
    && |vel| == count + 1 && |pol1d| == count + 1
    && vel[0] == Zeros(3) && pol1d[0] == Zeros(9)
    && forall t :: 0 <= t < count ==> vel[t + 1] + pol1d[t + 1] == table[t]
  }

  /** Appending the next row keeps vel and pol1d grown. */
  lemma GrownStep(vel: seq<seq<real>>, pol1d: seq<seq<real>>, table: seq<seq<real>>, count: int,
                  v: seq<real>, p: seq<real>)
    requires Grown(vel, pol1d, table, count) && count < |table| && table[count] == v + p
    ensures Grown(vel + [v], pol1d + [p], table, count + 1)
  {
  }

  /** The body of the nz loop without the appends: Cijtvel along
      [nx, ny, nz] / m and then along [nx, ny, -nz] / m, with the
      polarizations flattened as np.reshape(pol, 9) does. */
  method SamplePair(ghost table: seq<seq<real>>, c1d: seq<real>, dens: real, m: int, sqrt: real -> real,
                    eig: Matrix -> Eigensystem, nx: int, ny: int, nz: int)
    returns (veltpos: seq<real>, pol1dtpos: seq<real>, veltneg: seq<real>, pol1dtneg: seq<real>)
    requires |c1d| == 21 && dens != 0.0 && IsSqrt(sqrt) && EigTotal(eig)
    requires table == SurveyTable(c1d, dens, m, sqrt, eig)
    requires 0 <= nx <= m && 0 <= ny <= m && 1 <= nz <= m
    ensures var t := SurveyIndex(m, nx, ny, nz);
      0 <= t && t + 1 < |table| && table[t] == veltpos + pol1dtpos && table[t + 1] == veltneg + pol1dtneg
  {
    TablePairs(c1d, dens, m, sqrt, eig, nx, ny, nz);
    var npos := Direction(nx, ny, nz, m);
    var poltpos;
    veltpos, poltpos := Cijtvel(c1d, npos, dens, sqrt, eig);
    pol1dtpos := Flatten(poltpos);
    var nneg := Direction(nx, ny, -nz, m);
    var poltneg;
    veltneg, poltneg := Cijtvel(c1d, nneg, dens, sqrt, eig);
    pol1dtneg := Flatten(poltneg);
  }

  /** The nz loop for one column (nx, ny). */
  method ColumnLoop(vel: seq<seq<real>>, pol1d: seq<seq<real>>, ghost table: seq<seq<real>>,
                    c1d: seq<real>, dens: real, m: int, sqrt: real -> real,
                    eig: Matrix -> Eigensystem, nx: int, ny: int)
    returns (vel': seq<seq<real>>, pol1d': seq<seq<real>>)
    requires |c1d| == 21 && dens != 0.0 && IsSqrt(sqrt) && EigTotal(eig)
    requires table == SurveyTable(c1d, dens, m, sqrt, eig)
    requires 0 <= nx <= m && 0 <= ny <= m
    requires Grown(vel, pol1d, table, 2 * m * ((m + 1) * nx + ny))
    ensures Grown(vel', pol1d', table, 2 * m * ((m + 1) * nx + ny + 1))
  {
    vel', pol1d' := vel, pol1d;
    var nz := 1;
    while nz <= m
      invariant 1 <= nz <= m + 1
      invariant Grown(vel', pol1d', table, SurveyIndex(m, nx, ny, nz))
    {
      var veltpos, pol1dtpos, veltneg, pol1dtneg := SamplePair(table, c1d, dens, m, sqrt, eig, nx, ny, nz);
      GrownStep(vel', pol1d', table, SurveyIndex(m, nx, ny, nz), veltpos, pol1dtpos);
      vel', pol1d' := vel' + [veltpos], pol1d' + [pol1dtpos];
      GrownStep(vel', pol1d', table, SurveyIndex(m, nx, ny, nz) + 1, veltneg, pol1dtneg);
      vel', pol1d' := vel' + [veltneg], pol1d' + [pol1dtneg];
      nz := nz + 1;
    }
    assert 2 * (nz - 1) == 2 * m;
    assert 2 * m * (((m + 1) * nx + ny) + 1) == 2 * m * ((m + 1) * nx + ny) + 2 * m;
  }

  /** The ny loop for one plane nx. */
  method PlaneLoop(vel: seq<seq<real>>, pol1d: seq<seq<real>>, ghost table: seq<seq<real>>,
                   c1d: seq<real>, dens: real, m: int, sqrt: real -> real,
                   eig: Matrix -> Eigensystem, nx: int)
    returns (vel': seq<seq<real>>, pol1d': seq<seq<real>>)
    requires |c1d| == 21 && dens != 0.0 && IsSqrt(sqrt) && EigTotal(eig)
    requires table == SurveyTable(c1d, dens, m, sqrt, eig)
    requires 0 <= nx <= m
    requires Grown(vel, pol1d, table, 2 * m * ((m + 1) * nx))
    ensures Grown(vel', pol1d', table, 2 * m * ((m + 1) * (nx + 1)))
  {
    vel', pol1d' := vel, pol1d;
    var ny := 0;
    while ny <= m
      invariant 0 <= ny <= m + 1
      invariant Grown(vel', pol1d', table, 2 * m * ((m + 1) * nx + ny))
    {
      vel', pol1d' := ColumnLoop(vel', pol1d', table, c1d, dens, m, sqrt, eig, nx, ny);
      ny := ny + 1;
    }
    assert (m + 1) * nx + (m + 1) == (m + 1) * (nx + 1);
  }

  /** The nx/ny/nz loops of AVpVs, then VelPol: vel and pol1d side by side
      with the seed row deleted. */
  method BuildTable(c1d: seq<real>, dens: real, m: int, sqrt: real -> real,
                    eig: Matrix -> Eigensystem) returns (velPol: seq<seq<real>>)
    requires |c1d| == 21 && dens != 0.0 && IsSqrt(sqrt) && EigTotal(eig)
    ensures velPol == SurveyTable(c1d, dens, m, sqrt, eig)
  {
    ghost var table := SurveyTable(c1d, dens, m, sqrt, eig);
    var vel: seq<seq<real>> := [Zeros(3)];
    var pol1d: seq<seq<real>> := [Zeros(9)];
    var nx := 0;
    while nx <= m
      invariant 0 <= nx && (0 <= m ==> nx <= m + 1)
      invariant Grown(vel, pol1d, table, 2 * m * ((m + 1) * nx))
    {
      vel, pol1d := PlaneLoop(vel, pol1d, table, c1d, dens, m, sqrt, eig, nx);
      nx := nx + 1;
    }
    assert 2 * m * ((m + 1) * nx) == SurveySize(m);
    velPol := seq(|vel|, i requires 0 <= i < |vel| => vel[i] + pol1d[i]);
    velPol := velPol[1..];
    assert velPol == table;
  }

  /** AVpVs: CijVRH with exact constants and density for Vpvrh and Vsvrh,
      the survey table, and the three reports; the empty table of m < 1 is
      numpy's ValueError. */
  method AVpVs(c1d: seq<real>, dens: real, m: int, inverse: Matrix -> Matrix,
               sqrt: real -> real, eig: Matrix -> Eigensystem) returns (result: Survey)
    requires |c1d| == 21 && IsMatrix(inverse(VoigtMatrix(c1d)), 6, 6)
    requires VrhDefined(c1d, dens, inverse(VoigtMatrix(c1d)))
    requires IsSqrt(sqrt) && EigTotal(eig)
    requires var row := ModuliRow(c1d, dens, inverse(VoigtMatrix(c1d)), sqrt);
      row[7] != 0.0 && row[8] != 0.0
    ensures var row := ModuliRow(c1d, dens, inverse(VoigtMatrix(c1d)), sqrt);
      result == Summary(SurveyTable(c1d, dens, m, sqrt, eig), row[7], row[8])
    ensures result.EmptyTable? <==> m < 1
  {
    var denserr := 0.0;
    var c1derr := Zeros(21);
    var evrh := CijVRH(c1d, c1derr, dens, denserr, inverse, sqrt);
    var vpvrh, vsvrh := evrh[0][7], evrh[0][8];
    var velPol := BuildTable(c1d, dens, m, sqrt, eig);
    SurveyEmpty(m);
    if |velPol| == 0 {
      return EmptyTable;
    }
    var avp := VpScan(velPol, vpvrh);
    var avs := VsScan(velPol, vsvrh);
    var dvs := SplitScan(velPol, vsvrh);
    result := Anisotropy(avp, avs, dvs);
  }
}
