/** Reshaping of the single-crystal elasticity tensor: the 21 independent
    constants, the 6x6 Voigt matrix and the 3x3x3x3 stiffness tensor.
    Indices are 0-based throughout; the program's own 1-based loop counters
    (`r`, `s`, `i`, `j`, `k`, `l` running from 1) are shifted down by one.
    numpy arrays are sequence values here, and an assignment to one element
    replaces the value by its update at that element. */
module CijSij124d {
  import opened Numerics

  type Matrix = seq<seq<real>>
  type Tensor = seq<seq<seq<seq<real>>>>

  /** `t` has the shape 3x3x3x3. */
  predicate IsTensor(t: Tensor) {
    && |t| == 3
    && (forall a :: 0 <= a < 3 ==> |t[a]| == 3)
    && (forall a, b :: 0 <= a < 3 && 0 <= b < 3 ==> |t[a][b]| == 3)
    && (forall a, b, c :: 0 <= a < 3 && 0 <= b < 3 && 0 <= c < 3 ==> |t[a][b][c]| == 3)
  }

  /** The (row, column) of constant `k` of the 1-D array in the Voigt matrix,
      in the order c11 c22 c33 c44 c55 c66 c12 c13 c23 c15 c25 c35 c46
      c14 c16 c24 c26 c34 c36 c45 c56. Filling the matrix and reading
      compliances back out use this one list. */
  function Slot(k: int): (ij: (int, int))
    requires 0 <= k < 21
  {
    if k == 0 then (0, 0)
    else if k == 1 then (1, 1)
    else if k == 2 then (2, 2)
    else if k == 3 then (3, 3)
    else if k == 4 then (4, 4)
    else if k == 5 then (5, 5)
    else if k == 6 then (0, 1)
    else if k == 7 then (0, 2)
    else if k == 8 then (1, 2)
    else if k == 9 then (0, 4)
    else if k == 10 then (1, 4)
    else if k == 11 then (2, 4)
    else if k == 12 then (3, 5)
    else if k == 13 then (0, 3)
    else if k == 14 then (0, 5)
    else if k == 15 then (1, 3)
    else if k == 16 then (1, 5)
    else if k == 17 then (2, 3)
    else if k == 18 then (2, 5)
    else if k == 19 then (3, 4)
    else (4, 5)
  }

  /** The position in the 1-D array of the constant that ends up at (i, j)
      once the upper triangle is filled and mirrored. */
  function SlotOf(i: int, j: int): int
    requires 0 <= i < 6 && 0 <= j < 6
  {
    if i == 0 then (if j == 0 then 0 else if j == 1 then 6 else if j == 2 then 7 else if j == 3 then 13 else if j == 4 then 9 else 14)
    else if i == 1 then (if j == 0 then 6 else if j == 1 then 1 else if j == 2 then 8 else if j == 3 then 15 else if j == 4 then 10 else 16)
    else if i == 2 then (if j == 0 then 7 else if j == 1 then 8 else if j == 2 then 2 else if j == 3 then 17 else if j == 4 then 11 else 18)
    else if i == 3 then (if j == 0 then 13 else if j == 1 then 15 else if j == 2 then 17 else if j == 3 then 3 else if j == 4 then 19 else 12)
    else if i == 4 then (if j == 0 then 9 else if j == 1 then 10 else if j == 2 then 11 else if j == 3 then 19 else if j == 4 then 4 else 20)
    else (if j == 0 then 14 else if j == 1 then 16 else if j == 2 then 18 else if j == 3 then 12 else if j == 4 then 20 else 5)
  }

  /** The slot list sends the 21 constants to 21 distinct positions on or
      above the diagonal, `SlotOf` undoes it, and every such position is hit. */
  lemma SlotBijection()
    ensures forall k :: 0 <= k < 21 ==>
      0 <= Slot(k).0 <= Slot(k).1 < 6 && SlotOf(Slot(k).0, Slot(k).1) == k
    ensures forall i, j :: 0 <= i <= j < 6 ==>
      0 <= SlotOf(i, j) < 21 && Slot(SlotOf(i, j)) == (i, j)
    ensures forall k, k' :: 0 <= k < k' < 21 ==> Slot(k) != Slot(k')
  {
    forall k | 0 <= k < 21
      ensures 0 <= Slot(k).0 <= Slot(k).1 < 6 && SlotOf(Slot(k).0, Slot(k).1) == k
    {
      SlotCase(k);
    }
    forall i, j | 0 <= i <= j < 6
      ensures 0 <= SlotOf(i, j) < 21 && Slot(SlotOf(i, j)) == (i, j)
    {
      UpperCase(i, j);
    }
  }

  lemma SlotCase(k: int)
    requires 0 <= k < 21
    ensures 0 <= Slot(k).0 <= Slot(k).1 < 6 && SlotOf(Slot(k).0, Slot(k).1) == k
  {
  }

  lemma UpperCase(i: int, j: int)
    requires 0 <= i <= j < 6
    ensures 0 <= SlotOf(i, j) < 21 && Slot(SlotOf(i, j)) == (i, j)
  {
  }

  /** The Voigt matrix entry (i, j) that the fill-and-mirror makes of the
      constants. */
  function VoigtEntry(c1d: seq<real>, i: int, j: int): real
    requires |c1d| == 21 && 0 <= i < 6 && 0 <= j < 6
  {
    c1d[SlotOf(i, j)]
  }

  /** The Voigt matrix of the constants is symmetric and holds each constant
      at its own slot. */
  lemma VoigtEntryFacts(c1d: seq<real>)
    requires |c1d| == 21
    ensures forall i, j :: 0 <= i < 6 && 0 <= j < 6 ==> VoigtEntry(c1d, i, j) == VoigtEntry(c1d, j, i)
    ensures forall k :: 0 <= k < 21 ==> VoigtEntry(c1d, Slot(k).0, Slot(k).1) == c1d[k]
  {
    SlotBijection();
  }

  /** The Voigt matrix of the constants, as a value. */
  function VoigtMatrix(c1d: seq<real>): (m: Matrix)
    requires |c1d| == 21
    ensures IsMatrix(m, 6, 6)
    ensures forall i, j :: 0 <= i < 6 && 0 <= j < 6 ==> m[i][j] == VoigtEntry(c1d, i, j)
  {
    seq(6, i requires 0 <= i < 6 => seq(6, j requires 0 <= j < 6 => VoigtEntry(c1d, i, j)))
  }

  /** A matrix read through the slot list, as the read-out of `C1dts1d` does. */
  function ReadSlots(m: Matrix): (s1d: seq<real>)
    requires IsMatrix(m, 6, 6)
    ensures |s1d| == 21
    ensures forall k :: 0 <= k < 21 ==> s1d[k] == m[Slot(k).0][Slot(k).1]
  {
    seq(21, k requires 0 <= k < 21 => m[Slot(k).0][Slot(k).1])
  }

  /** Round trip: the slot list used to read a matrix out is the one used to
      fill it, so reading the Voigt matrix back gives the constants. */
  lemma ReadSlotsRoundTrip(c1d: seq<real>)
    requires |c1d| == 21
    ensures ReadSlots(VoigtMatrix(c1d)) == c1d
  {
    var m := VoigtMatrix(c1d);
    forall k | 0 <= k < 21
      ensures ReadSlots(m)[k] == c1d[k]
    {
      SlotCase(k);
    }
  }

  /** The 21 assignments of Cij1t2r: each constant goes to its slot on or
      above the diagonal of a zero matrix; nothing below the diagonal is
      written. */
  method PlaceConstants(c1d: seq<real>) returns (c2r: Matrix)
    requires |c1d| == 21
    ensures IsMatrix(c2r, 6, 6)
    ensures forall a, b :: 0 <= a <= b < 6 ==> c2r[a][b] == VoigtEntry(c1d, a, b)
    ensures forall a, b :: 0 <= b < a < 6 ==> c2r[a][b] == 0.0
  {
    c2r := seq(6, i => seq(6, j => 0.0));
    c2r := c2r[0 := c2r[0][0 := c1d[0]]];
    c2r := c2r[1 := c2r[1][1 := c1d[1]]];
    c2r := c2r[2 := c2r[2][2 := c1d[2]]];
    c2r := c2r[3 := c2r[3][3 := c1d[3]]];
    c2r := c2r[4 := c2r[4][4 := c1d[4]]];
    c2r := c2r[5 := c2r[5][5 := c1d[5]]];
    c2r := c2r[0 := c2r[0][1 := c1d[6]]];
    c2r := c2r[0 := c2r[0][2 := c1d[7]]];
    c2r := c2r[1 := c2r[1][2 := c1d[8]]];
    c2r := c2r[0 := c2r[0][4 := c1d[9]]];
    c2r := c2r[1 := c2r[1][4 := c1d[10]]];
    c2r := c2r[2 := c2r[2][4 := c1d[11]]];
    c2r := c2r[3 := c2r[3][5 := c1d[12]]];
    c2r := c2r[0 := c2r[0][3 := c1d[13]]];
    c2r := c2r[0 := c2r[0][5 := c1d[14]]];
    c2r := c2r[1 := c2r[1][3 := c1d[15]]];
    c2r := c2r[1 := c2r[1][5 := c1d[16]]];
    c2r := c2r[2 := c2r[2][3 := c1d[17]]];
    c2r := c2r[2 := c2r[2][5 := c1d[18]]];
    c2r := c2r[3 := c2r[3][4 := c1d[19]]];
    c2r := c2r[4 := c2r[4][5 := c1d[20]]];
  }

  /** Every entry below the diagonal before row-major position `p` mirrors
      its partner above the diagonal of `upper`, and every other entry is
      that of `upper`. */
  ghost predicate MirroredUpTo(c2r: Matrix, upper: Matrix, p: int)
    requires IsMatrix(c2r, 6, 6) && IsMatrix(upper, 6, 6)
  {
    && (forall a, b :: 0 <= b < a < 6 && 6 * a + b < p ==> c2r[a][b] == upper[b][a])
    && (forall a, b :: 0 <= a < 6 && 0 <= b < 6 && (a <= b || p <= 6 * a + b) ==> c2r[a][b] == upper[a][b])
  }

  /** The mirroring pass of Cij1t2r: every entry below the diagonal takes the
      value of its partner above it; the diagonal and the upper triangle keep
      their values. */
  method MirrorUpperTriangle(upper: Matrix) returns (c2r: Matrix)
    requires IsMatrix(upper, 6, 6)
    ensures IsMatrix(c2r, 6, 6)
    ensures forall a, b :: 0 <= a <= b < 6 ==> c2r[a][b] == upper[a][b]
    ensures forall a, b :: 0 <= b < a < 6 ==> c2r[a][b] == upper[b][a]
  {
    c2r := upper;
    var i := 0;
    while i < 6
      invariant 0 <= i <= 6
      invariant IsMatrix(c2r, 6, 6) && MirroredUpTo(c2r, upper, 6 * i)
    {
      var j := 0;
      while j < 6
        invariant 0 <= j <= 6
        invariant IsMatrix(c2r, 6, 6) && MirroredUpTo(c2r, upper, 6 * i + j)
      {
        if i > j {
          c2r := c2r[i := c2r[i][j := c2r[j][i]]];
        }
        j := j + 1;
      }
      i := i + 1;
    }
  }

  /** Cij1t2r: scatter the 21 constants into the upper triangle of a zero
      6x6 matrix, then mirror it. The result is the symmetric Voigt matrix
      of the constants. */
  method Cij1t2r(c1d: seq<real>) returns (c2r: Matrix)
    requires |c1d| == 21
    ensures c2r == VoigtMatrix(c1d)
    ensures forall i, j :: 0 <= i < 6 && 0 <= j < 6 ==> c2r[i][j] == c2r[j][i]
    ensures forall k :: 0 <= k < 21 ==> c2r[Slot(k).0][Slot(k).1] == c1d[k]
  {
    var upper := PlaceConstants(c1d);
    c2r := MirrorUpperTriangle(upper);
    MirroredIsVoigt(c1d, upper, c2r);
    VoigtMatrixFacts(c1d);
  }

  /** The mirror image of the placed constants is the Voigt matrix. */
  lemma MirroredIsVoigt(c1d: seq<real>, upper: Matrix, c2r: Matrix)
    requires |c1d| == 21 && IsMatrix(upper, 6, 6) && IsMatrix(c2r, 6, 6)
    requires forall a, b :: 0 <= a <= b < 6 ==> upper[a][b] == VoigtEntry(c1d, a, b)
    requires forall a, b :: 0 <= a <= b < 6 ==> c2r[a][b] == upper[a][b]
    requires forall a, b :: 0 <= b < a < 6 ==> c2r[a][b] == upper[b][a]
    ensures c2r == VoigtMatrix(c1d)
  {
    VoigtEntryFacts(c1d);
    SameMatrix(c2r, VoigtMatrix(c1d));
  }

  /** The Voigt matrix is symmetric and holds each constant at its slot. */
  lemma VoigtMatrixFacts(c1d: seq<real>)
    requires |c1d| == 21
    ensures forall i, j :: 0 <= i < 6 && 0 <= j < 6 ==> VoigtMatrix(c1d)[i][j] == VoigtMatrix(c1d)[j][i]
    ensures forall k :: 0 <= k < 21 ==> VoigtMatrix(c1d)[Slot(k).0][Slot(k).1] == c1d[k]
  {
    var m := VoigtMatrix(c1d);
    forall i, j | 0 <= i < 6 && 0 <= j < 6
      ensures m[i][j] == m[j][i]
    {
      VoigtEntrySymmetric(c1d, i, j);
    }
    forall k | 0 <= k < 21
      ensures m[Slot(k).0][Slot(k).1] == c1d[k]
    {
      SlotCase(k);
    }
  }

  lemma VoigtEntrySymmetric(c1d: seq<real>, i: int, j: int)
    requires |c1d| == 21 && 0 <= i < 6 && 0 <= j < 6
    ensures VoigtEntry(c1d, i, j) == VoigtEntry(c1d, j, i)
  {
  }

  /** Two 6x6 matrices with the same entries are the same value. */
  lemma SameMatrix(m: Matrix, m': Matrix)
    requires IsMatrix(m, 6, 6) && IsMatrix(m', 6, 6)
    requires forall i, j :: 0 <= i < 6 && 0 <= j < 6 ==> m[i][j] == m'[i][j]
    ensures m == m'
  {
    forall i | 0 <= i < 6 ensures m[i] == m'[i] {
    }
  }

  /** The Voigt pair map (0-based): index r of the 6x6 matrix stands for the
      tensor index pair VoigtPair(r): 0:(0,0) 1:(1,1) 2:(2,2) 3:(1,2) 4:(0,2) 5:(0,1). */
  function VoigtPair(r: int): (ij: (int, int))
    requires 0 <= r < 6
    ensures 0 <= ij.0 <= ij.1 < 3
  {
    if r == 0 then (0, 0)
    else if r == 1 then (1, 1)
    else if r == 2 then (2, 2)
    else if r == 3 then (1, 2)
    else if r == 4 then (0, 2)
    else (0, 1)
  }

  /** The Voigt index of a tensor index pair, the same for (i, j) and (j, i). */
  function VoigtIndex(i: int, j: int): (r: int)
    requires 0 <= i < 3 && 0 <= j < 3
    ensures 0 <= r < 6
  {
    if i == j then i
    else if i + j == 3 then 3
    else if i + j == 2 then 4
    else 5
  }

  /** The Voigt pair map is a bijection between the six Voigt indices and
      the ordered pairs i <= j, and the Voigt index forgets the order of a pair. */
  lemma VoigtMapFacts()
    ensures forall r :: 0 <= r < 6 ==> VoigtIndex(VoigtPair(r).0, VoigtPair(r).1) == r
    ensures forall i, j :: 0 <= i <= j < 3 ==> VoigtPair(VoigtIndex(i, j)) == (i, j)
    ensures forall i, j :: 0 <= i < 3 && 0 <= j < 3 ==> VoigtIndex(i, j) == VoigtIndex(j, i)
  {
  }

  /** The stiffness tensor of a Voigt matrix: c2r at the Voigt indices of
      both index pairs. */
  function Stiffness(c2r: Matrix, i: int, j: int, k: int, l: int): real
    requires IsMatrix(c2r, 6, 6)
    requires 0 <= i < 3 && 0 <= j < 3 && 0 <= k < 3 && 0 <= l < 3
  {
    c2r[VoigtIndex(i, j)][VoigtIndex(k, l)]
  }

  /** The stiffness tensor of a Voigt matrix, as a value: Stiffness at
      every slot. This is the tensor Cij2t4r builds. */
  function VoigtTensor(c2r: Matrix): (t: Tensor)
    requires IsMatrix(c2r, 6, 6)
    ensures IsTensor(t)
    ensures forall i, j, k, l :: 0 <= i < 3 && 0 <= j < 3 && 0 <= k < 3 && 0 <= l < 3 ==>
      t[i][j][k][l] == Stiffness(c2r, i, j, k, l)
  {
    seq(3, i requires 0 <= i < 3 =>
      seq(3, j requires 0 <= j < 3 =>
        seq(3, k requires 0 <= k < 3 =>
          seq(3, l requires 0 <= l < 3 => Stiffness(c2r, i, j, k, l)))))
  }

  /** Two 3x3x3x3 tensors with the same entries are the same value. */
  lemma SameTensor(t: Tensor, t': Tensor)
    requires IsTensor(t) && IsTensor(t')
    requires forall i, j, k, l :: 0 <= i < 3 && 0 <= j < 3 && 0 <= k < 3 && 0 <= l < 3 ==>
      t[i][j][k][l] == t'[i][j][k][l]
    ensures t == t'
  {
    forall i, j, k | 0 <= i < 3 && 0 <= j < 3 && 0 <= k < 3 ensures t[i][j][k] == t'[i][j][k] {
    }
    forall i, j | 0 <= i < 3 && 0 <= j < 3 ensures t[i][j] == t'[i][j] {
    }
    forall i | 0 <= i < 3 ensures t[i] == t'[i] {
    }
  }

  /** The tensor `t` with the one slot (i, j, k, l) set to `v`, as numpy's
      element assignment `t[i, j, k, l] = v`. */
  function Update4(t: Tensor, i: int, j: int, k: int, l: int, v: real): (u: Tensor)
    requires IsTensor(t) && 0 <= i < 3 && 0 <= j < 3 && 0 <= k < 3 && 0 <= l < 3
    ensures IsTensor(u)
    ensures u[i][j][k][l] == v
    ensures forall a, b, c, d ::
      (0 <= a < 3 && 0 <= b < 3 && 0 <= c < 3 && 0 <= d < 3 && !(a == i && b == j && c == k && d == l))
      ==> u[a][b][c][d] == t[a][b][c][d]
  {
    t[i := t[i][j := t[i][j][k := t[i][j][k][l := v]]]]
  }

  /** The entries of the 6x6 loop copied so far: all (r, s) at row-major
      position below `p`. */
  ghost predicate CopiedUpTo(c4r: Tensor, c2r: Matrix, p: int)
    requires IsTensor(c4r) && IsMatrix(c2r, 6, 6)
  {
    forall r, s :: 0 <= r < 6 && 0 <= s < 6 && 6 * r + s < p ==>
      c4r[VoigtPair(r).0][VoigtPair(r).1][VoigtPair(s).0][VoigtPair(s).1] == c2r[r][s]
  }

  /** One step of the r/s loop of Cij2t4r: c2r[r, s] goes to the slot whose
      first index pair is VoigtPair(r) and whose second is VoigtPair(s). */
  method CopyEntry(c2r: Matrix, c4r: Tensor, r: int, s: int) returns (c4r': Tensor)
    requires IsMatrix(c2r, 6, 6) && IsTensor(c4r) && 0 <= r < 6 && 0 <= s < 6
    requires CopiedUpTo(c4r, c2r, 6 * r + s)
    ensures IsTensor(c4r') && CopiedUpTo(c4r', c2r, 6 * r + s + 1)
  {
    VoigtPairInjective();
    var (i, j) := VoigtPair(r);
    var (k, l) := VoigtPair(s);
    c4r' := Update4(c4r, i, j, k, l, c2r[r][s]);
  }

  lemma VoigtPairInjective()
    ensures forall r, r' :: 0 <= r < 6 && 0 <= r' < 6 && VoigtPair(r) == VoigtPair(r') ==> r == r'
  {
  }

  /** The r/s loop of Cij2t4r. Both Voigt pairs are ordered, so it fills
      exactly the slots with i <= j and k <= l. */
  method CopyVoigtEntries(c2r: Matrix) returns (c4r: Tensor)
    requires IsMatrix(c2r, 6, 6)
    ensures IsTensor(c4r)
    ensures forall a, b, c, d :: 0 <= a <= b < 3 && 0 <= c <= d < 3 ==>
      c4r[a][b][c][d] == Stiffness(c2r, a, b, c, d)
  {
    c4r := seq(3, a => seq(3, b => seq(3, c => seq(3, d => 0.0))));
    var r := 0;
    while r < 6
      invariant 0 <= r <= 6
      invariant IsTensor(c4r) && CopiedUpTo(c4r, c2r, 6 * r)
    {
      var s := 0;
      while s < 6
        invariant 0 <= s <= 6
        invariant IsTensor(c4r) && CopiedUpTo(c4r, c2r, 6 * r + s)
      {
        c4r := CopyEntry(c2r, c4r, r, s);
        s := s + 1;
      }
      r := r + 1;
    }
    OrderedSlotsCopied(c2r, c4r);
  }

  /** Once all 36 Voigt entries are copied, every slot with ordered index
      pairs holds its stiffness. */
  lemma OrderedSlotsCopied(c2r: Matrix, c4r: Tensor)
    requires IsMatrix(c2r, 6, 6) && IsTensor(c4r) && CopiedUpTo(c4r, c2r, 36)
    ensures forall a, b, c, d :: 0 <= a <= b < 3 && 0 <= c <= d < 3 ==>
      c4r[a][b][c][d] == Stiffness(c2r, a, b, c, d)
  {
    forall a, b, c, d | 0 <= a <= b < 3 && 0 <= c <= d < 3
      ensures c4r[a][b][c][d] == Stiffness(c2r, a, b, c, d)
    {
      var r, s := VoigtIndex(a, b), VoigtIndex(c, d);
      assert VoigtPair(r) == (a, b) && VoigtPair(s) == (c, d);
    }
  }

  /** Every slot with ordered index pairs, and every slot before flat
      position `p` = 27a + 9b + 3c + d, holds the stiffness at that slot. */
  ghost predicate TensorUpTo(c4r: Tensor, c2r: Matrix, p: int)
    requires IsTensor(c4r) && IsMatrix(c2r, 6, 6)
  {
    forall a, b, c, d :: 0 <= a < 3 && 0 <= b < 3 && 0 <= c < 3 && 0 <= d < 3 &&
      ((a <= b && c <= d) || 27 * a + 9 * b + 3 * c + d < p)
      ==> c4r[a][b][c][d] == Stiffness(c2r, a, b, c, d)
  }

  /** One step of the i/j/k/l loop of Cij2t4r, at slot (i, j, k, l). */
  method FillSlot(c2r: Matrix, c4r: Tensor, i: int, j: int, k: int, l: int) returns (c4r': Tensor)
    requires IsMatrix(c2r, 6, 6) && IsTensor(c4r)
    requires 0 <= i < 3 && 0 <= j < 3 && 0 <= k < 3 && 0 <= l < 3
    requires TensorUpTo(c4r, c2r, 27 * i + 9 * j + 3 * k + l)
    ensures IsTensor(c4r') && TensorUpTo(c4r', c2r, 27 * i + 9 * j + 3 * k + l + 1)
  {
    var v;
    if i > j {
      if k > l {
        v := c4r[j][i][l][k];
      } else {
        v := c4r[j][i][k][l];
      }
    } else {
      if k > l {
        v := c4r[i][j][l][k];
      } else {
        v := c4r[i][j][k][l];
      }
    }
    assert v == Stiffness(c2r, i, j, k, l);
    c4r' := Update4(c4r, i, j, k, l, v);
  }

  /** The i/j/k/l loop of Cij2t4r: a slot with i > j or k > l is copied from
      the slot with the offending pair swapped, which the r/s loop has already
      written; a slot with i <= j and k <= l is assigned to itself. */
  method FillSymmetricSlots(c2r: Matrix, copied: Tensor) returns (c4r: Tensor)
    requires IsMatrix(c2r, 6, 6) && IsTensor(copied)
    requires TensorUpTo(copied, c2r, 0)
    ensures IsTensor(c4r)
    ensures forall a, b, c, d :: 0 <= a < 3 && 0 <= b < 3 && 0 <= c < 3 && 0 <= d < 3 ==>
      c4r[a][b][c][d] == Stiffness(c2r, a, b, c, d)
  {
    VoigtMapFacts();
    c4r := copied;
    var i := 0;
    while i < 3
      invariant 0 <= i <= 3
      invariant IsTensor(c4r) && TensorUpTo(c4r, c2r, 27 * i)
    {
      var j := 0;
      while j < 3
        invariant 0 <= j <= 3
        invariant IsTensor(c4r) && TensorUpTo(c4r, c2r, 27 * i + 9 * j)
      {
        var k := 0;
        while k < 3
          invariant 0 <= k <= 3
          invariant IsTensor(c4r) && TensorUpTo(c4r, c2r, 27 * i + 9 * j + 3 * k)
        {
          var l := 0;
          while l < 3
            invariant 0 <= l <= 3
            invariant IsTensor(c4r) && TensorUpTo(c4r, c2r, 27 * i + 9 * j + 3 * k + l)
          {
            c4r := FillSlot(c2r, c4r, i, j, k, l);
            l := l + 1;
          }
          k := k + 1;
        }
        j := j + 1;
      }
      i := i + 1;
    }
  }

  /** Cij2t4r: copy each Voigt entry into the tensor slot of its two index
      pairs, then fill the remaining slots from their symmetric partners.
      The tensor has minor symmetry, reads back c2r at every pair of Voigt
      pairs, and has major symmetry when c2r is symmetric. */
  method Cij2t4r(c2r: Matrix) returns (c4r: Tensor)
    requires IsMatrix(c2r, 6, 6)
    ensures IsTensor(c4r)
    ensures forall i, j, k, l :: 0 <= i < 3 && 0 <= j < 3 && 0 <= k < 3 && 0 <= l < 3 ==>
      c4r[i][j][k][l] == c2r[VoigtIndex(i, j)][VoigtIndex(k, l)]
    ensures forall i, j, k, l :: 0 <= i < 3 && 0 <= j < 3 && 0 <= k < 3 && 0 <= l < 3 ==>
      c4r[i][j][k][l] == c4r[j][i][k][l] == c4r[i][j][l][k] == c4r[j][i][l][k]
    ensures forall r, s :: 0 <= r < 6 && 0 <= s < 6 ==>
      c4r[VoigtPair(r).0][VoigtPair(r).1][VoigtPair(s).0][VoigtPair(s).1] == c2r[r][s]
    ensures (forall r, s :: 0 <= r < 6 && 0 <= s < 6 ==> c2r[r][s] == c2r[s][r]) ==>
      forall i, j, k, l :: 0 <= i < 3 && 0 <= j < 3 && 0 <= k < 3 && 0 <= l < 3 ==>
        c4r[i][j][k][l] == c4r[k][l][i][j]
    ensures c4r == VoigtTensor(c2r)
  {
    var copied := CopyVoigtEntries(c2r);
    c4r := FillSymmetricSlots(c2r, copied);
    VoigtMapFacts();
    SameTensor(c4r, VoigtTensor(c2r));
  }

  /** The read-out of C1dts1d: copy the 21 slots of a compliance matrix into
      a zero 1-D array, in the order of the constants. */
  method ReadCompliances(s2r: Matrix) returns (s1d: seq<real>)
    requires IsMatrix(s2r, 6, 6)
    ensures s1d == ReadSlots(s2r)
  {
    s1d := seq(21, k => 0.0);
    s1d := s1d[0 := s2r[0][0]];
    s1d := s1d[1 := s2r[1][1]];
    s1d := s1d[2 := s2r[2][2]];
    s1d := s1d[3 := s2r[3][3]];
    s1d := s1d[4 := s2r[4][4]];
    s1d := s1d[5 := s2r[5][5]];
    s1d := s1d[6 := s2r[0][1]];
    s1d := s1d[7 := s2r[0][2]];
    s1d := s1d[8 := s2r[1][2]];
    s1d := s1d[9 := s2r[0][4]];
    s1d := s1d[10 := s2r[1][4]];
    s1d := s1d[11 := s2r[2][4]];
    s1d := s1d[12 := s2r[3][5]];
    s1d := s1d[13 := s2r[0][3]];
    s1d := s1d[14 := s2r[0][5]];
    s1d := s1d[15 := s2r[1][3]];
    s1d := s1d[16 := s2r[1][5]];
    s1d := s1d[17 := s2r[2][3]];
    s1d := s1d[18 := s2r[2][5]];
    s1d := s1d[19 := s2r[3][4]];
    s1d := s1d[20 := s2r[4][5]];
  }

  /** C1dts2d: the compliance matrix is the inverse of the Voigt matrix.
      The inverse is numpy's and stands here as the parameter `inverse`. */
  method C1dts2d(c1d: seq<real>, inverse: Matrix -> Matrix) returns (s2r: Matrix)
    requires |c1d| == 21
    ensures s2r == inverse(VoigtMatrix(c1d))
  {
    var c2r := Cij1t2r(c1d);
    s2r := inverse(c2r);
  }

  /** C1dts1d: the compliances of the constants, in the order of the
      constants. */
  method C1dts1d(c1d: seq<real>, inverse: Matrix -> Matrix) returns (s1d: seq<real>)
    requires |c1d| == 21
    requires IsMatrix(inverse(VoigtMatrix(c1d)), 6, 6)
    ensures s1d == ReadSlots(inverse(VoigtMatrix(c1d)))
  {
    var c2r := Cij1t2r(c1d);
    var s2r := inverse(c2r);
    s1d := ReadCompliances(s2r);
  }

  /** Running the read-out of C1dts1d over the matrix Cij1t2r builds gives
      the 21 constants back: both walk one slot list. */
  method SlotListsRoundTrip(c1d: seq<real>) returns (back: seq<real>)
    requires |c1d| == 21
    ensures back == c1d
  {
    var c2r := Cij1t2r(c1d);
    back := ReadCompliances(c2r);
    ReadSlotsRoundTrip(c1d);
  }
}
