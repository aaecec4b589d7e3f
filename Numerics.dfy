/**
 * Numerical vocabulary shared by the boomerang engine: the optional and
 * non-finite values the C++ code produces, dense vectors and matrices as
 * sequences of reals, and the assumed contracts of the numerical routines
 * the engine calls but whose code is not modelled (the hypotenuse, the
 * square root, the Gaussian CDF and the Cholesky factor/solve pair).
 */
module Numerics {

  datatype Option<T> = None | Some(value: T)

  /** A C++ double as the engine uses it: a real value, or NaN/infinity. */
  datatype Double = Finite(value: real) | NonFinite

  type Vector = seq<real>

  /** A dense matrix stored row by row. */
  type Matrix = seq<seq<real>>

  predicate IsSquare(B: Matrix) {
    forall i :: 0 <= i < |B| ==> |B[i]| == |B|
  }

  function Sum(v: Vector): real {
    if |v| == 0 then 0.0 else v[0] + Sum(v[1..])
  }

  function Dot(a: Vector, b: Vector): real
    requires |a| == |b|
  {
    if |a| == 0 then 0.0 else a[0] * b[0] + Dot(a[1..], b[1..])
  }

  function Ones(n: nat): (r: Vector)
    ensures |r| == n && forall i :: 0 <= i < n ==> r[i] == 1.0
  {
    seq(n, _ => 1.0)
  }

  /** `a·v`, the vector scaled by a scalar (the library's Multiply_aM). */
  function Scale(a: real, v: Vector): (r: Vector)
    ensures |r| == |v| && forall i :: 0 <= i < |v| ==> r[i] == a * v[i]
  {
    seq(|v|, i requires 0 <= i < |v| => a * v[i])
  }

  /** `u - v` elementwise (the library's Subtract_MM on column vectors). */
  function Minus(u: Vector, v: Vector): (r: Vector)
    requires |u| == |v|
    ensures |r| == |u| && forall i :: 0 <= i < |u| ==> r[i] == u[i] - v[i]
  {
    seq(|u|, i requires 0 <= i < |u| => u[i] - v[i])
  }

  /** The matrix-vector product `B·u`. */
  function MatVec(B: Matrix, u: Vector): (r: Vector)
    requires forall i :: 0 <= i < |B| ==> |B[i]| == |u|
    ensures |r| == |B| && forall i :: 0 <= i < |B| ==> r[i] == Dot(B[i], u)
  {
    seq(|B|, i requires 0 <= i < |B| => Dot(B[i], u))
  }

  lemma {:induction false} SumMinus(u: Vector, v: Vector)
    requires |u| == |v|
    ensures Sum(Minus(u, v)) == Sum(u) - Sum(v)
  {
    if |u| > 0 {
      SumMinus(u[1..], v[1..]);
      assert Minus(u, v)[1..] == Minus(u[1..], v[1..]);
    }
  }

  lemma ScaleTail(a: real, v: Vector)
    requires |v| > 0
    ensures Scale(a, v)[1..] == Scale(a, v[1..])
  {
    forall i | 0 <= i < |v| - 1
      ensures Scale(a, v)[1..][i] == Scale(a, v[1..])[i]
    {
      assert v[1..][i] == v[i + 1];
    }
  }

  lemma {:induction false} SumScale(a: real, v: Vector)
    ensures Sum(Scale(a, v)) == a * Sum(v)
  {
    if |v| > 0 {
      SumScale(a, v[1..]);
      ScaleTail(a, v);
    }
  }

  lemma {:induction false} DotMinus(a: Vector, u: Vector, v: Vector)
    requires |a| == |u| == |v|
    ensures Dot(a, Minus(u, v)) == Dot(a, u) - Dot(a, v)
  {
    if |a| > 0 {
      DotMinus(a[1..], u[1..], v[1..]);
      assert Minus(u, v)[1..] == Minus(u[1..], v[1..]);
    }
  }

  lemma {:induction false} DotScale(a: Vector, s: real, v: Vector)
    requires |a| == |v|
    ensures Dot(a, Scale(s, v)) == s * Dot(a, v)
  {
    if |a| > 0 {
      DotScale(a[1..], s, v[1..]);
      ScaleTail(s, v);
    }
  }

  /** `B·(u - s·v) = B·u - s·(B·v)`: the product is linear. */
  lemma MatVecLinear(B: Matrix, u: Vector, v: Vector, s: real)
    requires |u| == |v|
    requires forall i :: 0 <= i < |B| ==> |B[i]| == |u|
    ensures MatVec(B, Minus(u, Scale(s, v))) == Minus(MatVec(B, u), Scale(s, MatVec(B, v)))
  {
    var lhs := MatVec(B, Minus(u, Scale(s, v)));
    var Bu, Bv := MatVec(B, u), MatVec(B, v);
    var rhs := Minus(Bu, Scale(s, Bv));
    forall i | 0 <= i < |B| ensures lhs[i] == rhs[i] {
      RowLinear(B[i], u, v, s);
      assert rhs[i] == Bu[i] - s * Bv[i];
    }
  }

  /** `r·(u - s·v) = r·u - s·(r·v)`. */
  lemma RowLinear(r: Vector, u: Vector, v: Vector, s: real)
    requires |r| == |u| == |v|
    ensures Dot(r, Minus(u, Scale(s, v))) == Dot(r, u) - s * Dot(r, v)
  {
    DotMinus(r, u, Scale(s, v));
    DotScale(r, s, v);
  }

  /** The square root returns the non-negative root of a non-negative argument. */
  ghost predicate SqrtSound(sqrt: real -> real) {
    forall t :: 0.0 <= t ==> 0.0 <= sqrt(t) && sqrt(t) * sqrt(t) == t
  }

  /**
   * The standard normal CDF is a probability, non-decreasing, and symmetric
   * about zero: `Phi(-t) = 1 - Phi(t)`.
   */
  ghost predicate CdfSound(cdf: real -> real) {
    && (forall t :: 0.0 <= cdf(t) <= 1.0)
    && (forall t :: cdf(-t) == 1.0 - cdf(t))
    && (forall s, t :: s <= t ==> cdf(s) <= cdf(t))
  }

  /**
   * When the Cholesky factorisation of a square `B` succeeds with factor `L`,
   * solving against `L` yields a vector `u` with `B·u = c`.
   */
  ghost predicate SolverSound(factor: Matrix -> Option<Matrix>, solve: (Matrix, Vector) -> Vector) {
    forall B, L, c ::
      factor(B) == Some(L) && IsSquare(B) && |c| == |B| ==>
        |solve(L, c)| == |c| && MatVec(B, solve(L, c)) == c
  }

  /**
   * The numerical routines of the unmodelled matrix and special-function
   * libraries, passed to the engine as values.
   */
  datatype Oracles = Oracles(
    hypot: (real, real) -> real,
    sqrt: real -> real,
    cdf: real -> real,
    factor: Matrix -> Option<Matrix>,
    solve: (Matrix, Vector) -> Vector)
  {
    ghost predicate Valid() {
      SqrtSound(sqrt) && CdfSound(cdf) && SolverSound(factor, solve)
    }
  }

  /** `Sum(u - s·v) = Sum(u) - s·Sum(v)`. */
  lemma SumMinusScale(u: Vector, v: Vector, s: real)
    requires |u| == |v|
    ensures Sum(Minus(u, Scale(s, v))) == Sum(u) - s * Sum(v)
  {
    SumMinus(u, Scale(s, v));
    SumScale(s, v);
  }

  /** If `s·Sum(v) = Sum(u) - 1` then `u - s·v` sums to one. */
  lemma SumToOne(u: Vector, v: Vector, s: real)
    requires |u| == |v| && s * Sum(v) == Sum(u) - 1.0
    ensures Sum(Minus(u, Scale(s, v))) == 1.0
  {
    SumMinusScale(u, v, s);
  }

  lemma QuotientTimesDivisor(n: real, d: real)
    requires d != 0.0
    ensures (n / d) * d == n
  {
  }

  lemma QuotientSquare(x: real, s: real)
    requires s != 0.0
    ensures (x / s) * (x / s) * (s * s) == x * x
  {
  }

  /** Dividing by a positive number keeps the sign. */
  lemma QuotientSign(x: real, s: real)
    requires 0.0 < s
    ensures x / s < 0.0 <==> x < 0.0
    ensures x / s == 0.0 <==> x == 0.0
  {
  }

  lemma Distribute(u: real, v: real, w: real)
    ensures (u + v) * w == u * w + v * w
  {
  }

  /** A root of a positive quotient is not zero. */
  lemma RootNonZero(s: real, t: real, n: real)
    requires 0.0 < t && 0.0 < n && s * s == t / n
    ensures s != 0.0
  {
    assert 0.0 < t / n;
  }

  /** `r·(t/n) = t` with `t != 0` forces `r = n`. */
  lemma Cancel(r: real, m: real, t: real, n: real)
    requires t != 0.0 && n != 0.0 && m == t / n && r * m == t
    ensures r == n
  {
  }

  /** A positive argument has a positive square root. */
  lemma SqrtPositive(sqrt: real -> real, t: real)
    requires SqrtSound(sqrt) && 0.0 < t
    ensures 0.0 < sqrt(t) && sqrt(t) * sqrt(t) == t
  {
  }
}
