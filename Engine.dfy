/**
 * The boomerang engine of src/engine.cpp: leave-neighbourhood-out Ordinary
 * Kriging under a linear variogram whose slope is unknown (the implicit-sill
 * variant). For every observation k the engine drops k and every
 * observation within `radius` of it, predicts z[k] from the rest, and
 * finally scales all raw residuals by their root mean square into `zeta`
 * with a one-sided tail probability `pvalue`.
 *
 * Numbers are exact reals; NaN and the infinities are one value,
 * `NonFinite`. The matrix library's constructor is assumed to zero-fill,
 * which the model makes explicit with `0.0` initialisers.
 */
module Engine {
  import opened Numerics

  /** Fewer active observations than this and no prediction is attempted. */
  const MINIMUM_COUNT := 10

  /** One output record per observation (struct Boomerang). */
  datatype Boomerang = Boomerang(zhat: Double, zeta: Double, pvalue: Double, cnt: int)

  /** A slot of `std::vector<Boomerang> results(N)`: value-initialised to zeros. */
  const Unset := Boomerang(Finite(0.0), Finite(0.0), Finite(0.0), 0)

  /** The record written for a target with too few active observations. */
  const Skipped := Boomerang(NonFinite, NonFinite, NonFinite, 0)

  // ---------------------------------------------------------------------------
  // Separation distances
  // ---------------------------------------------------------------------------

  /**
   * D(i,j) as the fill loop leaves it: each unordered pair is measured once,
   * lower index first, and mirrored; the diagonal keeps its initial zero.
   */
  function Separation(x: seq<real>, y: seq<real>, hypot: (real, real) -> real, i: nat, j: nat): real
    requires i < |x| && j < |x| && |y| == |x|
  {
    if i < j then hypot(x[i] - x[j], y[i] - y[j])
    else if j < i then hypot(x[j] - x[i], y[j] - y[i])
    else 0.0
  }

  function DistanceMatrix(x: seq<real>, y: seq<real>, hypot: (real, real) -> real): (D: Matrix)
    requires |y| == |x|
    ensures |D| == |x| && IsSquare(D)
    ensures forall i :: 0 <= i < |x| ==> D[i][i] == 0.0
    ensures forall i, j :: 0 <= i < j < |x| ==> D[i][j] == hypot(x[i] - x[j], y[i] - y[j])
    ensures forall i, j :: 0 <= i < |x| && 0 <= j < |x| ==> D[i][j] == D[j][i]
  {
    seq(|x|, i requires 0 <= i < |x| =>
      seq(|x|, j requires 0 <= j < |x| => Separation(x, y, hypot, i, j)))
  }

  /**
   * The nested loop that fills the separation matrix: every off-diagonal
   * pair is written once and mirrored, and the diagonal is never written.
   */
  method FillDistances(x: seq<real>, y: seq<real>, hypot: (real, real) -> real) returns (D: Matrix)
    requires |y| == |x|
    ensures |D| == |x| && IsSquare(D)
    ensures forall i :: 0 <= i < |x| ==> D[i][i] == 0.0
    ensures forall i, j :: 0 <= i < j < |x| ==> D[i][j] == hypot(x[i] - x[j], y[i] - y[j])
    ensures forall i, j :: 0 <= i < |x| && 0 <= j < |x| ==> D[i][j] == D[j][i]
    ensures D == DistanceMatrix(x, y, hypot)
  {
    var N := |x|;
    var a := new real[N, N]((_, _) => 0.0);
    for i := 0 to N
      invariant forall p, q :: 0 <= p < N && 0 <= q < N ==>
        a[p, q] == if p < i || q < i then Separation(x, y, hypot, p, q) else 0.0
    {
      for j := i + 1 to N
        invariant forall p, q :: 0 <= p < N && 0 <= q < N ==>
          a[p, q] == if p < i || q < i || (p == i && i < q < j) || (q == i && i < p < j)
                     then Separation(x, y, hypot, p, q) else 0.0
      {
        a[i, j] := hypot(x[i] - x[j], y[i] - y[j]);
        a[j, i] := a[i, j];
      }
    }
    D := seq(N, p requires 0 <= p < N reads a =>
           seq(N, q requires 0 <= q < N reads a => a[p, q]));
    forall p | 0 <= p < N
      ensures D[p] == DistanceMatrix(x, y, hypot)[p]
    {
      assert forall q :: 0 <= q < N ==> D[p][q] == Separation(x, y, hypot, p, q);
    }
  }

  function Abs(t: real): real {
    if t < 0.0 then -t else t
  }

  function MaxAbsRow(r: Vector): (m: real)
    ensures 0.0 <= m
    ensures forall j :: 0 <= j < |r| ==> Abs(r[j]) <= m
    ensures m == 0.0 || exists j :: 0 <= j < |r| && m == Abs(r[j])
  {
    if |r| == 0 then 0.0
    else
      var rest := MaxAbsRow(r[1..]);
      if rest < Abs(r[0]) then Abs(r[0]) else rest
  }

  /** The largest absolute entry of a matrix (the library's MaxAbs). */
  function MaxAbs(D: Matrix): (m: real)
    ensures 0.0 <= m
    ensures forall i, j :: 0 <= i < |D| && 0 <= j < |D[i]| ==> Abs(D[i][j]) <= m
    ensures m == 0.0 || exists i, j :: 0 <= i < |D| && 0 <= j < |D[i]| && m == Abs(D[i][j])
  {
    if |D| == 0 then 0.0
    else
      var first := MaxAbsRow(D[0]);
      var rest := MaxAbs(D[1..]);
      assert forall i :: 1 <= i < |D| ==> D[1..][i - 1] == D[i];
      if rest < first then first else rest
  }

  // ---------------------------------------------------------------------------
  // Active set
  // ---------------------------------------------------------------------------

  /** Observation j is active for a target whose distance row is `row` iff it lies strictly beyond `radius`. */
  function Mask(row: Vector, radius: real): (m: seq<bool>)
    ensures |m| == |row|
  {
    seq(|row|, j requires 0 <= j < |row| => row[j] > radius)
  }

  /** The number of set entries of a mask (std::accumulate over the 0/1 vector). */
  function Count(m: seq<bool>): (n: nat)
    ensures n <= |m|
  {
    if |m| == 0 then 0 else (if m[0] then 1 else 0) + Count(m[1..])
  }

  /** A mask with an unset entry counts at most one less than its length. */
  lemma {:induction false} CountMissing(m: seq<bool>, k: nat)
    requires k < |m| && !m[k]
    ensures Count(m) <= |m| - 1
  {
    if k > 0 {
      CountMissing(m[1..], k - 1);
    }
  }

  /**
   * The loop that builds the active mask for target k, followed by the count
   * of active observations.
   */
  method SelectActive(D: Matrix, k: nat, radius: real) returns (active: seq<bool>, M: nat)
    requires k < |D| && IsSquare(D)
    ensures |active| == |D|
    ensures forall j :: 0 <= j < |D| ==> (active[j] <==> D[k][j] > radius)
    ensures M == Count(active) && M <= |D|
  {
    var N := |D|;
    var a := new bool[N];
    for j := 0 to N
      invariant forall q :: 0 <= q < j ==> (a[q] <==> D[k][q] > radius)
    {
      if D[k][j] > radius {
        a[j] := true;
      } else {
        a[j] := false;
      }
    }
    active := a[..];
    M := Count(active);
  }

  /**
   * With a non-negative radius and a zero diagonal, a target is never among
   * its own active observations, so at most N-1 are active.
   */
  lemma NotOwnNeighbour(x: seq<real>, y: seq<real>, hypot: (real, real) -> real, k: nat, radius: real)
    requires |y| == |x| && k < |x| && 0.0 <= radius
    ensures !Mask(DistanceMatrix(x, y, hypot)[k], radius)[k]
    ensures Count(Mask(DistanceMatrix(x, y, hypot)[k], radius)) <= |x| - 1
  {
    var m := Mask(DistanceMatrix(x, y, hypot)[k], radius);
    assert !m[k];
    CountMissing(m, k);
  }

  // ---------------------------------------------------------------------------
  // Slicing (the library's Slice and Subtract_aM)
  // ---------------------------------------------------------------------------

  /** The entries of `s` whose mask entry is set, in their original order. */
  function Select<T>(s: seq<T>, m: seq<bool>): (r: seq<T>)
    requires |s| == |m|
    ensures |r| == Count(m)
    ensures forall e :: e in r ==> e in s
  {
    if |s| == 0 then []
    else (if m[0] then [s[0]] else []) + Select(s[1..], m[1..])
  }

  /** The rows and columns of `D` selected by the two masks. */
  function Slice(D: Matrix, rows: seq<bool>, cols: seq<bool>): (S: Matrix)
    requires |rows| == |D| && forall i :: 0 <= i < |D| ==> |D[i]| == |cols|
    ensures |S| == Count(rows) && forall i :: 0 <= i < |S| ==> |S[i]| == Count(cols)
  {
    var narrowed := seq(|D|, i requires 0 <= i < |D| => Select(D[i], cols));
    var S := Select(narrowed, rows);
    assert forall i :: 0 <= i < |S| ==> S[i] in narrowed;
    S
  }

  /** Column k of `D`. */
  function Column(D: Matrix, k: nat): (col: Vector)
    requires forall i :: 0 <= i < |D| ==> k < |D[i]|
    ensures |col| == |D|
  {
    seq(|D|, i requires 0 <= i < |D| => D[i][k])
  }

  /** `a - S`, entry by entry. */
  function SubtractFrom(a: real, S: Matrix): (B: Matrix)
    ensures |B| == |S| && forall i :: 0 <= i < |S| ==> |B[i]| == |S[i]|
  {
    seq(|S|, i requires 0 <= i < |S| =>
      seq(|S[i]|, j requires 0 <= j < |S[i]| => a - S[i][j]))
  }

  /** The kriging matrix `lambda - D[active, active]` for one target. */
  function SystemMatrix(D: Matrix, active: seq<bool>, lambda: real): (B: Matrix)
    requires IsSquare(D) && |active| == |D|
    ensures |B| == Count(active) && IsSquare(B)
  {
    SubtractFrom(lambda, Slice(D, active, active))
  }

  /** The right-hand side `lambda - D[active, k]` for target k. */
  function SystemVector(D: Matrix, k: nat, active: seq<bool>, lambda: real): (c: Vector)
    requires IsSquare(D) && k < |D| && |active| == |D|
    ensures |c| == Count(active)
  {
    Minus(Scale(lambda, Ones(Count(active))), Select(Column(D, k), active))
  }

  // ---------------------------------------------------------------------------
  // Solving the Ordinary Kriging system
  // ---------------------------------------------------------------------------

  /**
   * Factor `B` once and solve it against `c` and against the ones vector.
   * `None` is a failed factorisation.
   */
  function Factorised(B: Matrix, c: Vector, o: Oracles): (r: Option<(Vector, Vector)>)
    requires o.Valid() && IsSquare(B) && |c| == |B|
    ensures r.Some? <==> o.factor(B).Some?
    ensures r.Some? ==>
      && |r.value.0| == |c| && |r.value.1| == |c|
      && MatVec(B, r.value.0) == c && MatVec(B, r.value.1) == Ones(|c|)
  {
    match o.factor(B)
    case None => None
    case Some(L) => Some((o.solve(L, c), o.solve(L, Ones(|c|))))
  }

  datatype Weights = Weights(beta: real, w: Vector)

  /**
   * The Lagrange multiplier `beta = (Sum(u) - 1) / Sum(v)` and the weights
   * `w = u - beta·v`; `None` when `Sum(v) = 0`, where the C++ division
   * yields a non-finite value.
   */
  function Lagrange(u: Vector, v: Vector): (r: Option<Weights>)
    requires |u| == |v|
    ensures r.Some? <==> Sum(v) != 0.0
    ensures r.Some? ==> |r.value.w| == |u|
  {
    if Sum(v) == 0.0 then None
    else
      var beta := (Sum(u) - 1.0) / Sum(v);
      Some(Weights(beta, Minus(u, Scale(beta, v))))
  }

  /** Unbiasedness: the kriging weights sum to one. */
  lemma UnbiasedWeights(u: Vector, v: Vector)
    requires |u| == |v| && Sum(v) != 0.0
    ensures Lagrange(u, v).Some? && Sum(Lagrange(u, v).value.w) == 1.0
  {
    var beta := (Sum(u) - 1.0) / Sum(v);
    QuotientTimesDivisor(Sum(u) - 1.0, Sum(v));
    SumToOne(u, v, beta);
  }

  /**
   * When `B·u = c` and `B·v = 1`, the weights and the multiplier solve the
   * bordered Ordinary Kriging system: `B·w + beta·1 = c` and `Sum(w) = 1`.
   */
  lemma KrigingSystemSolved(B: Matrix, c: Vector, u: Vector, v: Vector)
    requires IsSquare(B) && |c| == |B| && |u| == |B| && |v| == |B|
    requires MatVec(B, u) == c && MatVec(B, v) == Ones(|B|)
    requires Sum(v) != 0.0
    ensures Lagrange(u, v).Some?
    ensures var W := Lagrange(u, v).value;
      MatVec(B, W.w) == Minus(c, Scale(W.beta, Ones(|B|))) && Sum(W.w) == 1.0
  {
    UnbiasedWeights(u, v);
    var W := Lagrange(u, v).value;
    MatVecLinear(B, u, v, W.beta);
  }

  /** The estimate for one target: the prediction and the raw residual Xi(k). */
  datatype Estimate = Estimate(zhat: Double, xi: Double)

  /**
   * `zhat = w·zactive`, `tau2 = lambda - c·w - beta` and
   * `Xi(k) = (z[k] - zhat) / sqrt(tau2)`; the residual is non-finite when
   * `tau2 <= 0` (a square root of a negative number or a division by zero).
   * A finite residual is the prediction error in units of the kriging
   * standard deviation: its square times tau2 is the squared error, and it
   * has the sign of the error.
   */
  function Predict(u: Vector, v: Vector, c: Vector, zactive: Vector, zk: real, lambda: real,
                   sqrt: real -> real): (e: Estimate)
    requires |u| == |v| == |c| == |zactive|
    requires SqrtSound(sqrt)
    ensures e.zhat.Finite? <==> Lagrange(u, v).Some?
    ensures e.xi.Finite? ==> e.zhat.Finite?
    ensures Lagrange(u, v).Some? ==>
      var W := Lagrange(u, v).value;
      var tau2 := lambda - Dot(c, W.w) - W.beta;
      && e.zhat == Finite(Dot(W.w, zactive))
      && (e.xi.Finite? <==> 0.0 < tau2)
      && (e.xi.Finite? ==>
            && e.xi.value * e.xi.value * tau2 == (zk - e.zhat.value) * (zk - e.zhat.value)
            && (e.xi.value < 0.0 <==> zk < e.zhat.value)
            && (e.xi.value == 0.0 <==> zk == e.zhat.value))
  {
    match Lagrange(u, v)
    case None => Estimate(NonFinite, NonFinite)
    case Some(W) =>
      var zhat := Dot(W.w, zactive);
      var tau2 := lambda - Dot(c, W.w) - W.beta;
      if 0.0 < tau2 then
        SqrtPositive(sqrt, tau2);
        QuotientSquare(zk - zhat, sqrt(tau2));
        QuotientSign(zk - zhat, sqrt(tau2));
        Estimate(Finite(zhat), Finite((zk - zhat) / sqrt(tau2)))
      else
        Estimate(Finite(zhat), NonFinite)
  }

  /**
   * What pass k of the main loop leaves in results[k] and Xi(k,0), given
   * that both still hold their initial values. The sentinel is written
   * exactly when fewer than MINIMUM_COUNT observations are active; zeta and
   * pvalue are left for the final loop; and Xi(k,0) keeps its zero unless a
   * prediction was made, in which case cnt is M.
   */
  function Target(D: Matrix, z: seq<real>, k: nat, radius: real, lambda: real, o: Oracles): (r: (Boomerang, Double))
    requires o.Valid() && IsSquare(D) && |z| == |D| && k < |D|
    ensures var M := Count(Mask(D[k], radius));
      && (r.0 == Skipped <==> M < MINIMUM_COUNT)
      && (r.0.cnt == 0 || r.0.cnt == M)
      && (r.0 != Skipped ==> r.0.zeta == Finite(0.0) && r.0.pvalue == Finite(0.0))
      && (r.1 != Finite(0.0) ==> MINIMUM_COUNT <= M && r.0.cnt == M)
  {
    var active := Mask(D[k], radius);
    var M := Count(active);
    if M < MINIMUM_COUNT then (Skipped, Finite(0.0))
    else
      var B := SystemMatrix(D, active, lambda);
      var c := SystemVector(D, k, active, lambda);
      match Factorised(B, c, o)
      case None => (Unset, Finite(0.0))
      case Some(uv) =>
        var e := Predict(uv.0, uv.1, c, Select(z, active), z[k], lambda, o.sqrt);
        (Unset.(zhat := e.zhat, cnt := M), e.xi)
  }

  // ---------------------------------------------------------------------------
  // Normalisation
  // ---------------------------------------------------------------------------

  predicate AllFinite(s: seq<Double>) {
    forall k :: 0 <= k < |s| ==> s[k].Finite?
  }

  function SumSquares(s: seq<Double>): (r: real)
    requires AllFinite(s)
    ensures 0.0 <= r
  {
    if |s| == 0 then 0.0 else s[0].value * s[0].value + SumSquares(s[1..])
  }

  /** `sqrt(Xi·Xi / N)`; non-finite as soon as one residual is. */
  function RootMeanSquare(xi: seq<Double>, sqrt: real -> real): Double
    requires |xi| > 0
  {
    if AllFinite(xi) then Finite(sqrt(SumSquares(xi) / |xi| as real)) else NonFinite
  }

  /** C++ division of doubles: a zero or non-finite divisor gives a non-finite quotient. */
  function Divide(a: Double, b: Double): Double {
    if a.Finite? && b.Finite? && b.value != 0.0 then Finite(a.value / b.value) else NonFinite
  }

  /** The one-sided tail probability of a standardised residual. */
  function PValue(zeta: Double, cdf: real -> real): Double {
    match zeta
    case NonFinite => NonFinite
    case Finite(t) => Finite(if t < 0.0 then cdf(t) else 1.0 - cdf(t))
  }

  /** Every slot normalised with its own residual. */
  function NormalisedSlots(slots: seq<Boomerang>, xi: seq<Double>, stdXi: Double, cdf: real -> real): (r: seq<Boomerang>)
    requires |slots| == |xi|
    ensures |r| == |xi|
  {
    seq(|xi|, k requires 0 <= k < |xi| => Normalised(slots[k], xi[k], stdXi, cdf))
  }

  /** The final loop's update of one slot: zeta and pvalue are overwritten. */
  function Normalised(slot: Boomerang, xi: Double, stdXi: Double, cdf: real -> real): Boomerang {
    var zeta := Divide(xi, stdXi);
    slot.(zeta := zeta, pvalue := PValue(zeta, cdf))
  }

  // ---------------------------------------------------------------------------
  // The whole engine
  // ---------------------------------------------------------------------------

  /** The raw per-target outcomes of the main loop. */
  function Passes(D: Matrix, z: seq<real>, radius: real, lambda: real, o: Oracles): (r: seq<(Boomerang, Double)>)
    requires o.Valid() && IsSquare(D) && |z| == |D|
    ensures |r| == |D|
  {
    seq(|D|, k requires 0 <= k < |D| => Target(D, z, k, radius, lambda, o))
  }

  function Residuals(P: seq<(Boomerang, Double)>): (xi: seq<Double>)
    ensures |xi| == |P|
  {
    seq(|P|, k requires 0 <= k < |P| => P[k].1)
  }

  function Records(P: seq<(Boomerang, Double)>): (r: seq<Boomerang>)
    ensures |r| == |P|
  {
    seq(|P|, k requires 0 <= k < |P| => P[k].0)
  }

  /** The outcomes of the main loop for the engine's inputs, before normalisation. */
  function EnginePasses(x: seq<real>, y: seq<real>, z: seq<real>, radius: real, o: Oracles): (P: seq<(Boomerang, Double)>)
    requires |y| == |x| && |z| == |x| && o.Valid()
    ensures |P| == |x|
  {
    var D := DistanceMatrix(x, y, o.hypot);
    Passes(D, z, radius, MaxAbs(D), o)
  }

  /** The results the engine returns for observations (x, y, z) and a buffer radius. */
  function Boomerangs(x: seq<real>, y: seq<real>, z: seq<real>, radius: real, o: Oracles): (r: seq<Boomerang>)
    requires 1 < |x| && |y| == |x| && |z| == |x| && o.Valid()
    ensures |r| == |x|
  {
    var P := EnginePasses(x, y, z, radius, o);
    var stdXi := RootMeanSquare(Residuals(P), o.sqrt);
    seq(|x|, k requires 0 <= k < |x| => Normalised(P[k].0, P[k].1, stdXi, o.cdf))
  }

  /**
   * Pass k of the main loop: it reads the shared distance matrix and writes
   * only results[k] and Xi(k,0).
   */
  method VisitTarget(D: Matrix, z: seq<real>, k: nat, radius: real, lambda: real, o: Oracles,
                     results: array<Boomerang>, Xi: array<Double>)
    requires o.Valid() && IsSquare(D) && |z| == |D| && k < |D|
    requires results.Length == |D| && Xi.Length == |D|
    requires results[k] == Unset && Xi[k] == Finite(0.0)
    modifies results, Xi
    ensures results[..] == old(results[..])[k := Target(D, z, k, radius, lambda, o).0]
    ensures Xi[..] == old(Xi[..])[k := Target(D, z, k, radius, lambda, o).1]
  {
    var active, M := SelectActive(D, k, radius);
    assert active == Mask(D[k], radius);
    if M < MINIMUM_COUNT {
      results[k] := results[k].(zhat := NonFinite, zeta := NonFinite, pvalue := NonFinite, cnt := 0);
      return;
    }
    var B := SystemMatrix(D, active, lambda);
    var c := SystemVector(D, k, active, lambda);
    var zactive := Select(z, active);
    var L := o.factor(B);
    if L.Some? {
      var u := o.solve(L.value, c);
      var v := o.solve(L.value, Ones(M));
      var e := Predict(u, v, c, zactive, z[k], lambda, o.sqrt);
      Xi[k] := e.xi;
      results[k] := results[k].(zhat := e.zhat, cnt := M);
    }
    // otherwise the factorisation failed: a warning, and the slot is left as it was
  }

  /** The final loop: every slot's zeta and pvalue are rewritten from its residual. */
  method NormaliseAll(results: array<Boomerang>, Xi: seq<Double>, stdXi: Double, cdf: real -> real)
    requires results.Length == |Xi|
    modifies results
    ensures results[..] == NormalisedSlots(old(results[..]), Xi, stdXi, cdf)
  {
    for k := 0 to |Xi|
      invariant forall j :: 0 <= j < k ==> results[j] == Normalised(old(results[j]), Xi[j], stdXi, cdf)
      invariant forall j :: k <= j < |Xi| ==> results[j] == old(results[j])
    {
      var zeta := Divide(Xi[k], stdXi);
      results[k] := results[k].(zeta := zeta);
      results[k] := results[k].(pvalue := PValue(results[k].zeta, cdf));
    }
  }

  /**
   * The main loop: every target is visited once, starting from zeroed
   * records and residuals, and leaves its pass's record and residual.
   */
  method VisitAll(D: Matrix, z: seq<real>, radius: real, lambda: real, o: Oracles,
                  slots: array<Boomerang>, Xi: array<Double>)
    requires o.Valid() && IsSquare(D) && |z| == |D|
    requires slots.Length == |D| && Xi.Length == |D|
    requires forall j :: 0 <= j < |D| ==> slots[j] == Unset && Xi[j] == Finite(0.0)
    modifies slots, Xi
    ensures slots[..] == Records(Passes(D, z, radius, lambda, o))
    ensures Xi[..] == Residuals(Passes(D, z, radius, lambda, o))
  {
    var N := |D|;
    for k := 0 to N
      invariant forall j :: 0 <= j < k ==>
        slots[j] == Target(D, z, j, radius, lambda, o).0 && Xi[j] == Target(D, z, j, radius, lambda, o).1
      invariant forall j :: k <= j < N ==> slots[j] == Unset && Xi[j] == Finite(0.0)
    {
      VisitTarget(D, z, k, radius, lambda, o, slots, Xi);
    }
    assert slots[..] == Records(Passes(D, z, radius, lambda, o));
    assert Xi[..] == Residuals(Passes(D, z, radius, lambda, o));
  }

  /**
   * The engine: fill the separation matrix, visit every target once, then
   * normalise all residuals by their root mean square.
   */
  method Engine(x: seq<real>, y: seq<real>, z: seq<real>, radius: real, o: Oracles) returns (results: seq<Boomerang>)
    requires 1 < |x| && |y| == |x| && |z| == |x|
    requires o.Valid()
    ensures |results| == |x|
    ensures results == Boomerangs(x, y, z, radius, o)
  {
    var N := |x|;
    var slots := new Boomerang[N](_ => Unset);
    var D := FillDistances(x, y, o.hypot);
    var Xi := new Double[N](_ => Finite(0.0));
    var lambda := MaxAbs(D);
    VisitAll(D, z, radius, lambda, o, slots, Xi);
    var stdXi := RootMeanSquare(Xi[..], o.sqrt);
    NormaliseAll(slots, Xi[..], stdXi, o.cdf);
    results := slots[..];
    Assembled(x, y, z, radius, o, D, lambda);
  }

  /** The passes over the distance matrix, normalised by the RMS of their residuals, are `Boomerangs`. */
  lemma Assembled(x: seq<real>, y: seq<real>, z: seq<real>, radius: real, o: Oracles, D: Matrix, lambda: real)
    requires 1 < |x| && |y| == |x| && |z| == |x| && o.Valid()
    requires D == DistanceMatrix(x, y, o.hypot) && lambda == MaxAbs(D)
    ensures var P := Passes(D, z, radius, lambda, o);
      NormalisedSlots(Records(P), Residuals(P), RootMeanSquare(Residuals(P), o.sqrt), o.cdf) == Boomerangs(x, y, z, radius, o)
  {
  }
}
