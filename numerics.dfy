/** Shared numeric vocabulary: squares, the square-root oracle that stands
    for numpy's `**0.5` and `linalg.norm`, and shape predicates for the small
    dense matrices the program passes around as nested sequences. */
module Numerics {

  /** `x**2`. */
  function Sq(x: real): (y: real)
  {
    x * x
  }

  lemma SqNonNegative(x: real)
    ensures Sq(x) >= 0.0
  {
    if x < 0.0 {
      var y := -x;
      assert y * y >= 0.0;
      assert Sq(x) == y * y;
    }
  }

  /** Zero is the only non-negative number whose square is zero. */
  lemma SquareZero(s: real)
    requires 0.0 <= s
    ensures Sq(s) == 0.0 ==> s == 0.0
  {
    var t := s + 1.0;
    assert 0.0 < s ==> 0.0 < s * t;
    assert s * t == Sq(s) + s;
  }

  /** A nonzero number has a nonzero square, so dividing by it is defined. */
  lemma SqNonZero(x: real)
    requires x != 0.0
    ensures Sq(x) != 0.0
  {
    var y := Abs(x);
    SquareZero(y);
    assert Sq(x) == Sq(y) by {
      if x < 0.0 {
        assert Sq(x) == y * y;
      }
    }
  }

  lemma ProductNonNegative(x: real, y: real)
    requires 0.0 <= x && 0.0 <= y
    ensures 0.0 <= x * y
  {
  }

  lemma QuotientNonNegative(x: real, y: real)
    requires 0.0 <= x && 0.0 < y
    ensures 0.0 <= x / y
  {
    var q := x / y;
    assert q * y == x;
    assert q < 0.0 ==> q * y < 0.0;
  }

  /** Multiplying by a non-negative integer keeps order. */
  lemma MulLeq(a: int, x: int, y: int)
    requires 0 <= a && x <= y
    ensures a * x <= a * y
  {
    assert a * y - a * x == a * (y - x);
  }

  /** Euclidean division of b q + r by b, for 0 <= r < b, gives back q and r. */
  lemma DivModUnique(b: int, q: int, r: int)
    requires 0 < b && 0 <= r < b
    ensures (b * q + r) / b == q && (b * q + r) % b == r
  {
    var n := b * q + r;
    var q', r' := n / b, n % b;
    assert n == b * q' + r';
    if q' < q {
      MulLeq(b, q' + 1, q);
    } else if q < q' {
      MulLeq(b, q + 1, q');
    }
  }

  /** A number in [0, b k) has its quotient by b in [0, k). */
  lemma QuotientBelow(n: int, b: int, k: int)
    requires 0 < b && 0 <= n < b * k
    ensures 0 <= n / b < k
  {
    var q := n / b;
    assert n == b * q + n % b;
    if q < 0 {
      MulLeq(b, q, -1);
    } else if k <= q {
      MulLeq(b, k, q);
    }
  }

  /** `sqrt` applied to `x`. The model's formulas apply `sqrt` directly;
      proofs name the roots they reason about through `Root`, which is what
      `IsSqrt` speaks of. */
  function Root(sqrt: real -> real, x: real): real {
    sqrt(x)
  }

  /** `sqrt` behaves as the square root on the non-negative reals. What it
      returns for a negative argument is left open (numpy yields nan there). */
  ghost predicate IsSqrt(sqrt: real -> real) {
    forall x :: 0.0 <= x ==> 0.0 <= Root(sqrt, x) && Sq(Root(sqrt, x)) == x
  }

  lemma SqrtOfZero(sqrt: real -> real)
    requires IsSqrt(sqrt)
    ensures sqrt(0.0) == 0.0
  {
    assert 0.0 <= Root(sqrt, 0.0) && Sq(Root(sqrt, 0.0)) == 0.0;
    SquareZero(sqrt(0.0));
  }

  lemma SqrtOfPositive(sqrt: real -> real, x: real)
    requires IsSqrt(sqrt) && 0.0 < x
    ensures 0.0 < sqrt(x)
  {
    assert 0.0 <= Root(sqrt, x) && Sq(Root(sqrt, x)) == x;
  }

  /** `m` has `rows` rows of `cols` entries each. */
  predicate IsMatrix(m: seq<seq<real>>, rows: nat, cols: nat) {
    |m| == rows && forall i :: 0 <= i < rows ==> |m[i]| == cols
  }

  function Abs(x: real): (y: real)
    ensures 0.0 <= y && (y == x || y == -x)
  {
    if x < 0.0 then -x else x
  }

  function Min(x: real, y: real): real {
    if x <= y then x else y
  }

  function Max(x: real, y: real): real {
    if x <= y then y else x
  }
}
