/**
 * What the boomerang engine promises about its results: the sentinel
 * policy for sparse neighbourhoods, the record of a solved or failed
 * target, unbiased kriging weights, the global root-mean-square
 * normalisation and the one-sided p-value.
 */
module EngineProperties {
  import opened Numerics
  import opened Engine

  /** The engine's preconditions on its inputs. */
  ghost predicate Inputs(x: seq<real>, y: seq<real>, z: seq<real>, o: Oracles) {
    1 < |x| && |y| == |x| && |z| == |x| && o.Valid()
  }

  /** The active mask of target k. */
  function ActiveOf(x: seq<real>, y: seq<real>, o: Oracles, k: nat, radius: real): (m: seq<bool>)
    requires |y| == |x| && k < |x|
    ensures |m| == |x|
  {
    Mask(DistanceMatrix(x, y, o.hypot)[k], radius)
  }

  /** The raw residuals Xi(k,0) of all targets, before normalisation. */
  function RawResiduals(x: seq<real>, y: seq<real>, z: seq<real>, radius: real, o: Oracles): (xi: seq<Double>)
    requires |y| == |x| && |z| == |x| && o.Valid()
    ensures |xi| == |x|
  {
    Residuals(EnginePasses(x, y, z, radius, o))
  }

  function Zetas(r: seq<Boomerang>): (s: seq<Double>)
    ensures |s| == |r|
  {
    seq(|r|, k requires 0 <= k < |r| => r[k].zeta)
  }

  // ---------------------------------------------------------------------------
  // The per-target policy
  // ---------------------------------------------------------------------------

  /**
   * Too few active observations: the solver is not consulted, the slot gets
   * the NaN prediction with count 0, and Xi(k,0) keeps its zero.
   */
  lemma SentinelPolicy(x: seq<real>, y: seq<real>, z: seq<real>, radius: real, o: Oracles, k: nat)
    requires Inputs(x, y, z, o) && k < |x|
    requires Count(ActiveOf(x, y, o, k, radius)) < MINIMUM_COUNT
    ensures EnginePasses(x, y, z, radius, o)[k] == (Skipped, Finite(0.0))
    ensures Boomerangs(x, y, z, radius, o)[k].zhat == NonFinite
    ensures Boomerangs(x, y, z, radius, o)[k].cnt == 0
  {
  }

  /** Slot k of the results is slot k of the main loop, normalised by the global RMS. */
  lemma ResultAt(x: seq<real>, y: seq<real>, z: seq<real>, radius: real, o: Oracles, k: nat)
    requires Inputs(x, y, z, o) && k < |x|
    ensures
      var P := EnginePasses(x, y, z, radius, o);
      Boomerangs(x, y, z, radius, o)[k] == Normalised(P[k].0, P[k].1, RootMeanSquare(Residuals(P), o.sqrt), o.cdf)
  {
  }

  /** Slot k of the main loop is pass k over the distance matrix and its largest entry. */
  lemma PassAt(x: seq<real>, y: seq<real>, z: seq<real>, radius: real, o: Oracles, k: nat)
    requires Inputs(x, y, z, o) && k < |x|
    ensures
      var D := DistanceMatrix(x, y, o.hypot);
      EnginePasses(x, y, z, radius, o)[k] == Target(D, z, k, radius, MaxAbs(D), o)
  {
  }

  /** A zero residual divided by a positive RMS has zeta 0 and p-value 1/2. */
  lemma NormalisedZero(slot: Boomerang, s: real, cdf: real -> real)
    requires CdfSound(cdf) && 0.0 < s
    ensures Normalised(slot, Finite(0.0), Finite(s), cdf).zeta == Finite(0.0)
    ensures Normalised(slot, Finite(0.0), Finite(s), cdf).pvalue == Finite(0.5)
  {
    assert 0.0 / s == 0.0;
    assert cdf(-0.0) == 1.0 - cdf(0.0);
  }

  /** Finite residuals that are not all zero have a positive finite RMS. */
  lemma PositiveRms(xi: seq<Double>, sqrt: real -> real)
    requires SqrtSound(sqrt) && |xi| > 0 && AllFinite(xi) && 0.0 < SumSquares(xi)
    ensures RootMeanSquare(xi, sqrt).Finite?
    ensures 0.0 < RootMeanSquare(xi, sqrt).value
    ensures RootMeanSquare(xi, sqrt).value * RootMeanSquare(xi, sqrt).value == SumSquares(xi) / |xi| as real
  {
    var n := |xi| as real;
    var t := SumSquares(xi) / n;
    assert 0.0 < t;
    SqrtPositive(sqrt, t);
  }

  /**
   * The NaN zeta and pvalue of a skipped target do not survive: when the
   * residuals have a positive finite root mean square, the final loop
   * rewrites them to zeta = 0 and pvalue = 1/2.
   */
  lemma SentinelOverwritten(x: seq<real>, y: seq<real>, z: seq<real>, radius: real, o: Oracles, k: nat)
    requires Inputs(x, y, z, o) && k < |x|
    requires Count(ActiveOf(x, y, o, k, radius)) < MINIMUM_COUNT
    requires AllFinite(RawResiduals(x, y, z, radius, o)) && 0.0 < SumSquares(RawResiduals(x, y, z, radius, o))
    ensures Boomerangs(x, y, z, radius, o)[k].zeta == Finite(0.0)
    ensures Boomerangs(x, y, z, radius, o)[k].pvalue == Finite(0.5)
  {
    var P := EnginePasses(x, y, z, radius, o);
    var xi := Residuals(P);
    SentinelPolicy(x, y, z, radius, o, k);
    PositiveRms(xi, o.sqrt);
    ResultAt(x, y, z, radius, o, k);
    NormalisedZero(Skipped, RootMeanSquare(xi, o.sqrt).value, o.cdf);
  }

  /**
   * A target whose kriging matrix factors: the count is the number of active
   * observations, and when `Sum(v) != 0` the prediction is `w·zactive` for
   * weights that sum to one and solve the Ordinary Kriging system
   * `B·w + beta·1 = c`.
   */
  lemma SolvedSlot(x: seq<real>, y: seq<real>, z: seq<real>, radius: real, o: Oracles, k: nat)
    requires Inputs(x, y, z, o) && k < |x|
    requires Count(ActiveOf(x, y, o, k, radius)) >= MINIMUM_COUNT
    requires
      var D := DistanceMatrix(x, y, o.hypot);
      o.factor(SystemMatrix(D, ActiveOf(x, y, o, k, radius), MaxAbs(D))).Some?
    ensures Boomerangs(x, y, z, radius, o)[k].cnt == Count(ActiveOf(x, y, o, k, radius))
    ensures
      var D := DistanceMatrix(x, y, o.hypot);
      var active := ActiveOf(x, y, o, k, radius);
      var B := SystemMatrix(D, active, MaxAbs(D));
      var c := SystemVector(D, k, active, MaxAbs(D));
      var uv := Factorised(B, c, o).value;
      Sum(uv.1) != 0.0 ==>
        && Lagrange(uv.0, uv.1).Some?
        && var W := Lagrange(uv.0, uv.1).value;
        && Boomerangs(x, y, z, radius, o)[k].zhat == Finite(Dot(W.w, Select(z, active)))
        && Sum(W.w) == 1.0
        && MatVec(B, W.w) == Minus(c, Scale(W.beta, Ones(|c|)))
  {
    var D := DistanceMatrix(x, y, o.hypot);
    var active := ActiveOf(x, y, o, k, radius);
    var B := SystemMatrix(D, active, MaxAbs(D));
    var c := SystemVector(D, k, active, MaxAbs(D));
    var uv := Factorised(B, c, o).value;
    ResultAt(x, y, z, radius, o, k);
    PassAt(x, y, z, radius, o, k);
    if Sum(uv.1) != 0.0 {
      KrigingSystemSolved(B, c, uv.0, uv.1);
    }
  }

  /**
   * A target whose kriging matrix does not factor keeps the zero record it
   * was created with, and Xi(k,0) keeps its zero.
   */
  lemma FailedSlot(x: seq<real>, y: seq<real>, z: seq<real>, radius: real, o: Oracles, k: nat)
    requires Inputs(x, y, z, o) && k < |x|
    requires Count(ActiveOf(x, y, o, k, radius)) >= MINIMUM_COUNT
    requires
      var D := DistanceMatrix(x, y, o.hypot);
      o.factor(SystemMatrix(D, ActiveOf(x, y, o, k, radius), MaxAbs(D))).None?
    ensures EnginePasses(x, y, z, radius, o)[k] == (Unset, Finite(0.0))
    ensures Boomerangs(x, y, z, radius, o)[k].zhat == Finite(0.0)
    ensures Boomerangs(x, y, z, radius, o)[k].cnt == 0
  {
  }

  // ---------------------------------------------------------------------------
  // Normalisation and p-values
  // ---------------------------------------------------------------------------

  function Quotients(a: seq<Double>, s: real): (q: seq<Double>)
    ensures |q| == |a|
  {
    seq(|a|, k requires 0 <= k < |a| => Divide(a[k], Finite(s)))
  }

  /** Dividing every residual by `s` divides their sum of squares by `s²`. */
  lemma {:induction false} SumSquaresQuotients(a: seq<Double>, s: real)
    requires AllFinite(a) && s != 0.0
    ensures AllFinite(Quotients(a, s))
    ensures SumSquares(Quotients(a, s)) * (s * s) == SumSquares(a)
  {
    if |a| > 0 {
      var q := Quotients(a, s);
      assert q[1..] == Quotients(a[1..], s);
      SumSquaresQuotients(a[1..], s);
      var e := a[0].value / s;
      assert q[0] == Finite(e);
      QuotientSquare(a[0].value, s);
      var rest := SumSquares(q[1..]);
      calc {
        SumSquares(q) * (s * s);
        (e * e + rest) * (s * s);
        { Distribute(e * e, rest, s * s); }
        e * e * (s * s) + rest * (s * s);
        a[0].value * a[0].value + SumSquares(a[1..]);
        SumSquares(a);
      }
    }
  }

  /** Residuals divided by their root mean square have squares summing to N. */
  lemma NormalisedSquares(a: seq<Double>, s: real)
    requires AllFinite(a) && |a| > 0 && 0.0 < SumSquares(a)
    requires 0.0 <= s && s * s == SumSquares(a) / |a| as real
    ensures AllFinite(Quotients(a, s))
    ensures SumSquares(Quotients(a, s)) == |a| as real
  {
    var t, n := SumSquares(a), |a| as real;
    RootNonZero(s, t, n);
    SumSquaresQuotients(a, s);
    Cancel(SumSquares(Quotients(a, s)), s * s, t, n);
  }

  /**
   * When every residual is finite and not all are zero, the normalised
   * residuals are finite and their squares sum to N.
   */
  lemma ZetaSquaresSumToN(x: seq<real>, y: seq<real>, z: seq<real>, radius: real, o: Oracles)
    requires Inputs(x, y, z, o)
    requires AllFinite(RawResiduals(x, y, z, radius, o)) && 0.0 < SumSquares(RawResiduals(x, y, z, radius, o))
    ensures AllFinite(Zetas(Boomerangs(x, y, z, radius, o)))
    ensures SumSquares(Zetas(Boomerangs(x, y, z, radius, o))) == |x| as real
  {
    var P := EnginePasses(x, y, z, radius, o);
    var r := Boomerangs(x, y, z, radius, o);
    forall k | 0 <= k < |x|
      ensures r[k] == Normalised(P[k].0, P[k].1, RootMeanSquare(Residuals(P), o.sqrt), o.cdf)
    {
      ResultAt(x, y, z, radius, o, k);
    }
    NormalisedPasses(P, r, o.sqrt, o.cdf);
  }

  /** Normalising every slot by the RMS of the residuals makes the squared zetas sum to N. */
  lemma NormalisedPasses(P: seq<(Boomerang, Double)>, r: seq<Boomerang>, sqrt: real -> real, cdf: real -> real)
    requires SqrtSound(sqrt) && 0 < |P| && |r| == |P|
    requires AllFinite(Residuals(P)) && 0.0 < SumSquares(Residuals(P))
    requires forall k :: 0 <= k < |r| ==> r[k] == Normalised(P[k].0, P[k].1, RootMeanSquare(Residuals(P), sqrt), cdf)
    ensures AllFinite(Zetas(r))
    ensures SumSquares(Zetas(r)) == |P| as real
  {
    var xi := Residuals(P);
    PositiveRms(xi, sqrt);
    var s := RootMeanSquare(xi, sqrt).value;
    assert Zetas(r) == Quotients(xi, s);
    NormalisedSquares(xi, s);
  }

  /**
   * The p-value is the lower tail at `-|zeta|`: at most one half, and the
   * same for `zeta` and `-zeta`.
   */
  lemma PValueLowerTail(t: real, cdf: real -> real)
    requires CdfSound(cdf)
    ensures PValue(Finite(t), cdf) == Finite(cdf(-Abs(t)))
    ensures 0.0 <= cdf(-Abs(t)) <= 0.5
    ensures PValue(Finite(-t), cdf) == PValue(Finite(t), cdf)
  {
    assert cdf(-0.0) == 1.0 - cdf(0.0);
    assert cdf(-Abs(t)) <= cdf(0.0);
    assert cdf(-t) == 1.0 - cdf(t);
  }

  /** Every reported p-value is the lower tail of its zeta, or non-finite with it. */
  lemma ReportedPValues(x: seq<real>, y: seq<real>, z: seq<real>, radius: real, o: Oracles, k: nat)
    requires Inputs(x, y, z, o) && k < |x|
    ensures var r := Boomerangs(x, y, z, radius, o)[k];
      match r.zeta
      case NonFinite => r.pvalue == NonFinite
      case Finite(t) => r.pvalue == Finite(o.cdf(-Abs(t))) && 0.0 <= o.cdf(-Abs(t)) <= 0.5
  {
    var r := Boomerangs(x, y, z, radius, o)[k];
    if r.zeta.Finite? {
      PValueLowerTail(r.zeta.value, o.cdf);
    }
  }
}
