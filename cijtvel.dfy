/** Phase velocities and polarizations along one propagation direction
    (the Christoffel equation). The direction is normalised, the Christoffel
    matrix A[i][k] = sum over j, l of c[i][j][k][l] n[j] n[l] is accumulated
    in place, numpy's eigensolver gives its eigenvalues E and eigenvectors,
    the velocities are sqrt(E / dens), and the three (velocity, eigenvector)
    pairs are put in descending order of velocity. The eigensolver and the
    square root come in as parameters. */
module CijtVel {
  import opened Numerics
  import opened CijSij124d
  import CijKGvrh

  /** What numpy's eig returns: three eigenvalues, and a 3x3 matrix whose
      column c is the eigenvector of eigenvalue c. */
  datatype Eigensystem = Eigensystem(values: seq<real>, vectors: Matrix)

  predicate EigShaped(e: Eigensystem) {
    |e.values| == 3 && IsMatrix(e.vectors, 3, 3)
  }

  /** The result of Cijtvel: velocities [Vp, Vs1, Vs2] and, in row r of
      `pol`, the polarization of velocity r. */
  datatype Wave = Wave(vel: seq<real>, pol: Matrix)

  /** The squared Euclidean norm of a direction. */
  function NormSq(n: seq<real>): real
    requires |n| == 3
  {
    Sq(n[0]) + Sq(n[1]) + Sq(n[2])
  }

  /** `n / linalg.norm(n)`. The direction must not be the zero vector. */
  function Normalize(n: seq<real>, sqrt: real -> real): (u: seq<real>)
    requires |n| == 3 && sqrt(NormSq(n)) != 0.0
    ensures |u| == 3
  {
    var r := sqrt(NormSq(n));
    [n[0] / r, n[1] / r, n[2] / r]
  }

  function Negate(n: seq<real>): (m: seq<real>)
    ensures |m| == |n| && forall i :: 0 <= i < |n| ==> m[i] == -n[i]
  {
    seq(|n|, i requires 0 <= i < |n| => -n[i])
  }

  /** Term t (0 <= t < 9) of A[i][k] in the order the loops add them: j is
      t / 3 and l is t % 3. */
  function Term(c4r: Tensor, u: seq<real>, i: int, k: int, t: int): real
    requires IsTensor(c4r) && |u| == 3 && 0 <= i < 3 && 0 <= k < 3 && 0 <= t < 9
  {
    c4r[i][t / 3][k][t % 3] * u[t / 3] * u[t % 3]
  }

  /** The sum of the first `p` terms of A[i][k]. */
  function PartialSum(c4r: Tensor, u: seq<real>, i: int, k: int, p: int): real
    requires IsTensor(c4r) && |u| == 3 && 0 <= i < 3 && 0 <= k < 3 && 0 <= p <= 9
  {
    if p == 0 then 0.0 else PartialSum(c4r, u, i, k, p - 1) + Term(c4r, u, i, k, p - 1)
  }

  /** The Christoffel matrix of the tensor along the unit direction `u`. */
  function Christoffel(c4r: Tensor, u: seq<real>): (a: Matrix)
    requires IsTensor(c4r) && |u| == 3
    ensures IsMatrix(a, 3, 3)
    ensures forall i, k :: 0 <= i < 3 && 0 <= k < 3 ==> a[i][k] == PartialSum(c4r, u, i, k, 9)
  {
    seq(3, i requires 0 <= i < 3 => seq(3, k requires 0 <= k < 3 => PartialSum(c4r, u, i, k, 9)))
  }

  /** Entries of A before row-major position `q` hold `p + 1` terms, the
      others `p`. */
  ghost predicate AccumulatedUpTo(a: Matrix, c4r: Tensor, u: seq<real>, p: int, q: int)
    requires IsMatrix(a, 3, 3) && IsTensor(c4r) && |u| == 3 && 0 <= p < 9
  {
    forall i, k :: 0 <= i < 3 && 0 <= k < 3 ==>
      a[i][k] == PartialSum(c4r, u, i, k, if 3 * i + k < q then p + 1 else p)
  }

  /** The j/l/i/k loop of Cijtvel: starting from zero, A[i][k] accumulates
      c4r[i][j][k][l] u[j] u[l] for every j, l. */
  method ChristoffelMatrix(c4r: Tensor, u: seq<real>) returns (a: Matrix)
    requires IsTensor(c4r) && |u| == 3
    ensures a == Christoffel(c4r, u)
  {
    a := seq(3, i => seq(3, k => 0.0));
    for j := 0 to 3
      invariant IsMatrix(a, 3, 3)
      invariant forall i, k :: 0 <= i < 3 && 0 <= k < 3 ==> a[i][k] == PartialSum(c4r, u, i, k, 3 * j)
    {
      for l := 0 to 3
        invariant IsMatrix(a, 3, 3)
        invariant forall i, k :: 0 <= i < 3 && 0 <= k < 3 ==> a[i][k] == PartialSum(c4r, u, i, k, 3 * j + l)
      {
        a := AddTerms(a, c4r, u, j, l);
      }
    }
    SameChristoffel(a, c4r, u);
  }

  /** The i/k sweep for one (j, l): every A[i][k] gains its term for (j, l). */
  method AddTerms(a0: Matrix, c4r: Tensor, u: seq<real>, j: int, l: int) returns (a: Matrix)
    requires IsMatrix(a0, 3, 3) && IsTensor(c4r) && |u| == 3 && 0 <= j < 3 && 0 <= l < 3
    requires forall i, k :: 0 <= i < 3 && 0 <= k < 3 ==> a0[i][k] == PartialSum(c4r, u, i, k, 3 * j + l)
    ensures IsMatrix(a, 3, 3)
    ensures forall i, k :: 0 <= i < 3 && 0 <= k < 3 ==> a[i][k] == PartialSum(c4r, u, i, k, 3 * j + l + 1)
  {
    a := a0;
    for i := 0 to 3
      invariant IsMatrix(a, 3, 3) && AccumulatedUpTo(a, c4r, u, 3 * j + l, 3 * i)
    {
      for k := 0 to 3
        invariant IsMatrix(a, 3, 3) && AccumulatedUpTo(a, c4r, u, 3 * j + l, 3 * i + k)
      {
        a := AddTerm(a, c4r, u, i, j, k, l);
      }
    }
  }

  /** `A[i, k] += c4r[i, j, k, l] * n[j] * n[l]`: entry (i, k) gains term
      3 j + l, and the entries after it in row-major order are untouched. */
  method AddTerm(a0: Matrix, c4r: Tensor, u: seq<real>, i: int, j: int, k: int, l: int) returns (a: Matrix)
    requires IsMatrix(a0, 3, 3) && IsTensor(c4r) && |u| == 3
    requires 0 <= i < 3 && 0 <= j < 3 && 0 <= k < 3 && 0 <= l < 3
    requires AccumulatedUpTo(a0, c4r, u, 3 * j + l, 3 * i + k)
    ensures IsMatrix(a, 3, 3) && AccumulatedUpTo(a, c4r, u, 3 * j + l, 3 * i + k + 1)
  {
    ghost var p := 3 * j + l;
    assert p / 3 == j && p % 3 == l;
    assert PartialSum(c4r, u, i, k, p + 1) == a0[i][k] + c4r[i][j][k][l] * u[j] * u[l];
    a := a0[i := a0[i][k := a0[i][k] + c4r[i][j][k][l] * u[j] * u[l]]];
  }

  lemma SameChristoffel(a: Matrix, c4r: Tensor, u: seq<real>)
    requires IsMatrix(a, 3, 3) && IsTensor(c4r) && |u| == 3
    requires forall i, k :: 0 <= i < 3 && 0 <= k < 3 ==> a[i][k] == PartialSum(c4r, u, i, k, 9)
    ensures a == Christoffel(c4r, u)
  {
    var c := Christoffel(c4r, u);
    forall i | 0 <= i < 3 ensures a[i] == c[i] {
    }
  }

  /** The tensor has major symmetry: c[i][j][k][l] == c[k][l][i][j]. */
  ghost predicate MajorSymmetric(c4r: Tensor)
    requires IsTensor(c4r)
  {
    forall i, j, k, l :: 0 <= i < 3 && 0 <= j < 3 && 0 <= k < 3 && 0 <= l < 3 ==>
      c4r[i][j][k][l] == c4r[k][l][i][j]
  }

  /** The nine terms of A[i][k], as a flat sum. */
  lemma PartialSumExpanded(c4r: Tensor, u: seq<real>, i: int, k: int)
    requires IsTensor(c4r) && |u| == 3 && 0 <= i < 3 && 0 <= k < 3
    ensures PartialSum(c4r, u, i, k, 9) ==
      Term(c4r, u, i, k, 0) + Term(c4r, u, i, k, 1) + Term(c4r, u, i, k, 2) +
      Term(c4r, u, i, k, 3) + Term(c4r, u, i, k, 4) + Term(c4r, u, i, k, 5) +
      Term(c4r, u, i, k, 6) + Term(c4r, u, i, k, 7) + Term(c4r, u, i, k, 8)
  {
    assert PartialSum(c4r, u, i, k, 1) == PartialSum(c4r, u, i, k, 0) + Term(c4r, u, i, k, 0);
    assert PartialSum(c4r, u, i, k, 2) == PartialSum(c4r, u, i, k, 1) + Term(c4r, u, i, k, 1);
    assert PartialSum(c4r, u, i, k, 3) == PartialSum(c4r, u, i, k, 2) + Term(c4r, u, i, k, 2);
    assert PartialSum(c4r, u, i, k, 4) == PartialSum(c4r, u, i, k, 3) + Term(c4r, u, i, k, 3);
    assert PartialSum(c4r, u, i, k, 5) == PartialSum(c4r, u, i, k, 4) + Term(c4r, u, i, k, 4);
    assert PartialSum(c4r, u, i, k, 6) == PartialSum(c4r, u, i, k, 5) + Term(c4r, u, i, k, 5);
    assert PartialSum(c4r, u, i, k, 7) == PartialSum(c4r, u, i, k, 6) + Term(c4r, u, i, k, 6);
    assert PartialSum(c4r, u, i, k, 8) == PartialSum(c4r, u, i, k, 7) + Term(c4r, u, i, k, 7);
    assert PartialSum(c4r, u, i, k, 9) == PartialSum(c4r, u, i, k, 8) + Term(c4r, u, i, k, 8);
  }

  /** Under major symmetry, term (j, l) of A[i][k] equals term (l, j) of
      A[k][i]. */
  lemma TermSwap(c4r: Tensor, u: seq<real>, i: int, k: int, j: int, l: int)
    requires IsTensor(c4r) && |u| == 3 && MajorSymmetric(c4r)
    requires 0 <= i < 3 && 0 <= k < 3 && 0 <= j < 3 && 0 <= l < 3
    ensures Term(c4r, u, i, k, 3 * j + l) == Term(c4r, u, k, i, 3 * l + j)
  {
    assert (3 * j + l) / 3 == j && (3 * j + l) % 3 == l;
    assert (3 * l + j) / 3 == l && (3 * l + j) % 3 == j;
    assert c4r[i][j][k][l] == c4r[k][l][i][j];
    var c := c4r[i][j][k][l];
    assert c * u[j] * u[l] == c * u[l] * u[j];
  }

  /** For a tensor with major symmetry the Christoffel matrix is symmetric:
      swapping i and k swaps j and l in every term. */
  lemma ChristoffelSymmetric(c4r: Tensor, u: seq<real>)
    requires IsTensor(c4r) && |u| == 3 && MajorSymmetric(c4r)
    ensures var a := Christoffel(c4r, u);
      forall i, k :: 0 <= i < 3 && 0 <= k < 3 ==> a[i][k] == a[k][i]
  {
    forall i, k | 0 <= i < 3 && 0 <= k < 3
      ensures PartialSum(c4r, u, i, k, 9) == PartialSum(c4r, u, k, i, 9)
    {
      PartialSumSwap(c4r, u, i, k);
    }
  }

  lemma PartialSumSwap(c4r: Tensor, u: seq<real>, i: int, k: int)
    requires IsTensor(c4r) && |u| == 3 && MajorSymmetric(c4r) && 0 <= i < 3 && 0 <= k < 3
    ensures PartialSum(c4r, u, i, k, 9) == PartialSum(c4r, u, k, i, 9)
  {
    PartialSumExpanded(c4r, u, i, k);
    PartialSumExpanded(c4r, u, k, i);
    TermSwap(c4r, u, i, k, 0, 0); TermSwap(c4r, u, i, k, 0, 1); TermSwap(c4r, u, i, k, 0, 2);
    TermSwap(c4r, u, i, k, 1, 0); TermSwap(c4r, u, i, k, 1, 1); TermSwap(c4r, u, i, k, 1, 2);
    TermSwap(c4r, u, i, k, 2, 0); TermSwap(c4r, u, i, k, 2, 1); TermSwap(c4r, u, i, k, 2, 2);
  }

  /** Every term has the product u[j] u[l], so reversing the direction
      leaves every partial sum as it was. */
  lemma {:induction false} PartialSumEven(c4r: Tensor, u: seq<real>, i: int, k: int, p: int)
    requires IsTensor(c4r) && |u| == 3 && 0 <= i < 3 && 0 <= k < 3 && 0 <= p <= 9
    ensures PartialSum(c4r, Negate(u), i, k, p) == PartialSum(c4r, u, i, k, p)
  {
    if p > 0 {
      PartialSumEven(c4r, u, i, k, p - 1);
      TermEven(c4r, u, i, k, p - 1);
    }
  }

  lemma TermEven(c4r: Tensor, u: seq<real>, i: int, k: int, t: int)
    requires IsTensor(c4r) && |u| == 3 && 0 <= i < 3 && 0 <= k < 3 && 0 <= t < 9
    ensures Term(c4r, Negate(u), i, k, t) == Term(c4r, u, i, k, t)
  {
    var c, x, y := c4r[i][t / 3][k][t % 3], u[t / 3], u[t % 3];
    assert Negate(u)[t / 3] == -x && Negate(u)[t % 3] == -y;
    NegatedProduct(c, x, y);
  }

  lemma NegatedProduct(c: real, x: real, y: real)
    ensures c * (-x) * (-y) == c * x * y
  {
  }

  /** The Christoffel matrix is the same along -u as along u. */
  lemma ChristoffelEven(c4r: Tensor, u: seq<real>)
    requires IsTensor(c4r) && |u| == 3
    ensures Christoffel(c4r, Negate(u)) == Christoffel(c4r, u)
  {
    forall i, k | 0 <= i < 3 && 0 <= k < 3
      ensures PartialSum(c4r, Negate(u), i, k, 9) == PartialSum(c4r, u, i, k, 9)
    {
      PartialSumEven(c4r, u, i, k, 9);
    }
    SameChristoffel(Christoffel(c4r, Negate(u)), c4r, u);
  }

  /** Reversing a direction keeps its squared norm. */
  lemma NormSqEven(n: seq<real>)
    requires |n| == 3
    ensures NormSq(Negate(n)) == NormSq(n)
  {
    var m := Negate(n);
    assert Sq(m[0]) == (-n[0]) * (-n[0]);
    assert Sq(m[1]) == (-n[1]) * (-n[1]);
    assert Sq(m[2]) == (-n[2]) * (-n[2]);
  }

  lemma DivideNegated(x: real, r: real)
    requires r != 0.0
    ensures (-x) / r == -(x / r)
  {
    var q := x / r;
    assert q * r == x;
    assert (-q) * r == -x;
  }

  /** Normalising -n gives minus the normalised n. */
  lemma NormalizeOdd(n: seq<real>, sqrt: real -> real)
    requires |n| == 3 && sqrt(NormSq(n)) != 0.0
    ensures NormSq(Negate(n)) == NormSq(n)
    ensures Normalize(Negate(n), sqrt) == Negate(Normalize(n, sqrt))
  {
    NormSqEven(n);
    var r := sqrt(NormSq(n));
    DivideNegated(n[0], r);
    DivideNegated(n[1], r);
    DivideNegated(n[2], r);
  }

  /** The velocities sqrt(E / dens), one per eigenvalue. */
  function Velocities(values: seq<real>, dens: real, sqrt: real -> real): (v: seq<real>)
    requires |values| == 3 && dens != 0.0
    ensures |v| == 3
  {
    [sqrt(values[0] / dens), sqrt(values[1] / dens), sqrt(values[2] / dens)]
  }

  /** Each velocity squares back to its eigenvalue over the density, when
      the eigenvalue is non-negative and the density positive. */
  lemma VelocitiesSquare(values: seq<real>, dens: real, sqrt: real -> real)
    requires |values| == 3 && 0.0 < dens && IsSqrt(sqrt)
    ensures var v := Velocities(values, dens, sqrt);
      forall c :: 0 <= c < 3 && 0.0 <= values[c] ==> Sq(v[c]) * dens == values[c]
  {
    CijKGvrh.VelocitySquare(values[0], dens, sqrt);
    CijKGvrh.VelocitySquare(values[1], dens, sqrt);
    CijKGvrh.VelocitySquare(values[2], dens, sqrt);
  }

  /** `idx` lists 0, 1 and 2, each once. */
  predicate IsPermutation3(idx: seq<int>) {
    |idx| == 3 && (forall r :: 0 <= r < 3 ==> 0 <= idx[r] < 3) &&
    idx[0] != idx[1] && idx[0] != idx[2] && idx[1] != idx[2]
  }

  /** argsort of three values: the indices in ascending order of value.
      numpy's default sort does not promise an order for equal values; the
      model fixes one, equal values keeping their index order. */
  function Argsort(v: seq<real>): (idx: seq<int>)
    requires |v| == 3
    ensures IsPermutation3(idx)
    ensures v[idx[0]] <= v[idx[1]] <= v[idx[2]]
    ensures forall r, s :: 0 <= r < s < 3 && v[idx[r]] == v[idx[s]] ==> idx[r] < idx[s]
  {
    if v[0] <= v[1] then
      if v[1] <= v[2] then [0, 1, 2]
      else if v[0] <= v[2] then [0, 2, 1]
      else [2, 0, 1]
    else
      if v[0] <= v[2] then [1, 0, 2]
      else if v[1] <= v[2] then [1, 2, 0]
      else [2, 1, 0]
  }

  /** The descending reorder of Cijtvel: velocity r of the result is
      velocity idx[2 - r] of the eigensolver's order and row r of the
      polarizations is eigenvector column idx[2 - r], so velocities and
      eigenvectors move together. */
  function Reorder(v: seq<real>, vectors: Matrix): (w: Wave)
    requires |v| == 3 && IsMatrix(vectors, 3, 3)
    ensures |w.vel| == 3 && IsMatrix(w.pol, 3, 3)
    ensures w.vel[0] >= w.vel[1] >= w.vel[2]
    ensures var idx := Argsort(v);
      forall r :: 0 <= r < 3 ==>
        w.vel[r] == v[idx[2 - r]] &&
        forall c :: 0 <= c < 3 ==> w.pol[r][c] == vectors[c][idx[2 - r]]
  {
    var idx := Argsort(v);
    var vel := [v[idx[2]], v[idx[1]], v[idx[0]]];
    var pol := [ColumnOf(vectors, idx[2]), ColumnOf(vectors, idx[1]), ColumnOf(vectors, idx[0])];
    Wave(vel, pol)
  }

  /** Column `c` of a 3x3 matrix, as numpy's `m[:, c]`. */
  function ColumnOf(m: Matrix, c: int): (col: seq<real>)
    requires IsMatrix(m, 3, 3) && 0 <= c < 3
    ensures |col| == 3 && forall r :: 0 <= r < 3 ==> col[r] == m[r][c]
  {
    [m[0][c], m[1][c], m[2][c]]
  }

  /** What Cijtvel computes, as a value: the stiffness tensor of the
      constants, the Christoffel matrix along the normalised direction, its
      eigensystem, the velocities and the descending reorder. */
  function VelocitySolution(c1d: seq<real>, n: seq<real>, dens: real,
                            sqrt: real -> real, eig: Matrix -> Eigensystem): (w: Wave)
    requires |c1d| == 21 && |n| == 3 && sqrt(NormSq(n)) != 0.0 && dens != 0.0
    requires EigShaped(eig(Christoffel(VoigtTensor(VoigtMatrix(c1d)), Normalize(n, sqrt))))
    ensures |w.vel| == 3 && IsMatrix(w.pol, 3, 3) && w.vel[0] >= w.vel[1] >= w.vel[2]
  {
    var e := eig(Christoffel(VoigtTensor(VoigtMatrix(c1d)), Normalize(n, sqrt)));
    Reorder(Velocities(e.values, dens, sqrt), e.vectors)
  }

  /** Cijtvel: velocities [Vp, Vs1, Vs2] in descending order and their
      polarizations along the direction `n`. */
  method Cijtvel(c1d: seq<real>, n: seq<real>, dens: real,
                 sqrt: real -> real, eig: Matrix -> Eigensystem) returns (vel: seq<real>, pol: Matrix)
    requires |c1d| == 21 && |n| == 3 && sqrt(NormSq(n)) != 0.0 && dens != 0.0
    requires EigShaped(eig(Christoffel(VoigtTensor(VoigtMatrix(c1d)), Normalize(n, sqrt))))
    ensures Wave(vel, pol) == VelocitySolution(c1d, n, dens, sqrt, eig)
    ensures |vel| == 3 && IsMatrix(pol, 3, 3) && vel[0] >= vel[1] >= vel[2]
  {
    var c2r := Cij1t2r(c1d);
    var c4r := Cij2t4r(c2r);
    var u := Normalize(n, sqrt);
    var a := ChristoffelMatrix(c4r, u);
    var e := eig(a);
    var w := Reorder(Velocities(e.values, dens, sqrt), e.vectors);
    vel, pol := w.vel, w.pol;
  }

  /** Cijtvel gives the same velocities and polarizations along -n as along
      n: the Christoffel matrix only sees products n[j] n[l]. */
  lemma SignInvariance(c1d: seq<real>, n: seq<real>, dens: real,
                       sqrt: real -> real, eig: Matrix -> Eigensystem)
    requires |c1d| == 21 && |n| == 3 && sqrt(NormSq(n)) != 0.0 && dens != 0.0
    requires EigShaped(eig(Christoffel(VoigtTensor(VoigtMatrix(c1d)), Normalize(n, sqrt))))
    ensures sqrt(NormSq(Negate(n))) != 0.0
    ensures EigShaped(eig(Christoffel(VoigtTensor(VoigtMatrix(c1d)), Normalize(Negate(n), sqrt))))
    ensures VelocitySolution(c1d, Negate(n), dens, sqrt, eig) == VelocitySolution(c1d, n, dens, sqrt, eig)
  {
    NormalizeOdd(n, sqrt);
    ChristoffelEven(VoigtTensor(VoigtMatrix(c1d)), Normalize(n, sqrt));
  }

  /** The stiffness tensor of the constants Cijtvel builds has major
      symmetry, so its Christoffel matrix is symmetric. */
  lemma VoigtTensorSymmetric(c1d: seq<real>, u: seq<real>)
    requires |c1d| == 21 && |u| == 3
    ensures MajorSymmetric(VoigtTensor(VoigtMatrix(c1d)))
    ensures var a := Christoffel(VoigtTensor(VoigtMatrix(c1d)), u);
      forall i, k :: 0 <= i < 3 && 0 <= k < 3 ==> a[i][k] == a[k][i]
  {
    VoigtEntryFacts(c1d);
    ChristoffelSymmetric(VoigtTensor(VoigtMatrix(c1d)), u);
  }
}
