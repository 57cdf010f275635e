// The agreement weights of CLICD's first contrastive stage, from the
// sigmoided agreement scores onwards: min-max normalisation, rescaling to a
// configured mean, the override of one-item sequences, the personalisation
// and polar weights derived from them, and the choice of contrastive loss by
// the `cl_ablation` setting.
//
// Scores are PyTorch floats (`Float`): finite values are exact reals, and
// NaN and the infinities follow IEEE rules, because a batch whose scores are
// all equal normalises to NaN, and a sample with no foreign neighbours
// arrives with a NaN score that the batch minimum and maximum spread to
// every weight.

module Agreement {
  import opened Wrappers
  import opened Numerics

  datatype AgreementError = EmptyReduction | UnboundLoss(mode: string)

  // ---------------------------------------------------------------------
  // IEEE arithmetic on Float

  function Neg(a: Float): (r: Float)
    ensures a.Finite? ==> r == Finite(-a.v)
    ensures a.NaN? <==> r.NaN?
  {
    match a
    case Finite(x) => Finite(-x)
    case PosInf => NegInf
    case NegInf => PosInf
    case NaN => NaN
  }

  function Sub(a: Float, b: Float): (r: Float)
    ensures a.Finite? && b.Finite? ==> r == Finite(a.v - b.v)
    ensures a.NaN? || b.NaN? ==> r.NaN?
  {
    Add(a, Neg(b))
  }

  function Mul(a: Float, b: Float): (r: Float)
    ensures a.Finite? && b.Finite? ==> r == Finite(a.v * b.v)
    ensures a.NaN? || b.NaN? ==> r.NaN?
  {
    if a.NaN? || b.NaN? then NaN
    else if a.Finite? && b.Finite? then Finite(a.v * b.v)
    else if a.Finite? then
      (if a.v == 0.0 then NaN else if (a.v > 0.0) == b.PosInf? then PosInf else NegInf)
    else if b.Finite? then
      (if b.v == 0.0 then NaN else if (b.v > 0.0) == a.PosInf? then PosInf else NegInf)
    else if a == b then PosInf else NegInf
  }

  /** Division; a zero denominator is a positive zero. */
  function Div(a: Float, b: Float): (r: Float)
    ensures a.Finite? && b.Finite? && b.v != 0.0 ==> r == Finite(a.v / b.v)
    ensures a.Finite? && b.Finite? && a.v == 0.0 && b.v == 0.0 ==> r.NaN?
    ensures a.NaN? || b.NaN? ==> r.NaN?
  {
    match (a, b)
    case (NaN, _) => NaN
    case (_, NaN) => NaN
    case (Finite(x), Finite(y)) =>
      if y != 0.0 then Finite(x / y) else if x == 0.0 then NaN else if x > 0.0 then PosInf else NegInf
    case (Finite(_), _) => Finite(0.0)
    case (_, Finite(y)) => if y >= 0.0 then a else Neg(a)
    case (_, _) => NaN
  }

  function Abs(a: Float): (r: Float)
    ensures a.Finite? ==> r == Finite(if a.v >= 0.0 then a.v else -a.v)
    ensures a.NaN? <==> r.NaN?
  {
    match a
    case Finite(x) => Finite(if x >= 0.0 then x else -x)
    case NaN => NaN
    case _ => PosInf
  }

  /** `t.mean()`: the sum over the count; the mean of nothing is NaN. */
  function Mean(xs: seq<Float>): Float
  {
    if xs == [] then NaN else Div(Sum(xs), Finite(|xs| as real))
  }

  predicate AllFinite(xs: seq<Float>)
  {
    forall i :: 0 <= i < |xs| ==> xs[i].Finite?
  }

  function Values(xs: seq<Float>): (r: seq<real>)
    requires AllFinite(xs)
    ensures |r| == |xs| && forall i :: 0 <= i < |xs| ==> xs[i] == Finite(r[i])
  {
    seq(|xs|, i requires 0 <= i < |xs| => xs[i].v)
  }

  /** The mean of finite values is the finite real mean. */
  lemma MeanFinite(xs: seq<Float>)
    requires AllFinite(xs) && xs != []
    ensures Mean(xs) == Finite(RealSum(Values(xs)) / |xs| as real)
  {
    SumFinite(xs);
  }

  // ---------------------------------------------------------------------
  // Min-max normalisation and rescaling

  /** `torch.min` of two values; a NaN on either side wins. */
  function Min2(a: Float, b: Float): (r: Float)
    ensures a.Finite? && b.Finite? ==> r == Finite(if a.v <= b.v then a.v else b.v)
    ensures a.NaN? || b.NaN? ==> r.NaN?
  {
    if a.NaN? || b.NaN? then NaN
    else if a.NegInf? || b.PosInf? then a
    else if b.NegInf? || a.PosInf? then b
    else Finite(if a.v <= b.v then a.v else b.v)
  }

  /** `t.min()`. */
  function MinAll(xs: seq<Float>): Float
    requires xs != []
  {
    if |xs| == 1 then xs[0] else Min2(MinAll(xs[..|xs| - 1]), xs[|xs| - 1])
  }

  /** The minimum of finite scores is finite and is one of them; any NaN
      makes it NaN. */
  lemma {:induction false} MinAllMeaning(xs: seq<Float>)
    requires xs != []
    ensures HasNaN(xs) ==> MinAll(xs).NaN?
    ensures AllFinite(xs) ==>
      && MinAll(xs).Finite?
      && (exists i :: 0 <= i < |xs| && xs[i] == MinAll(xs))
      && forall i :: 0 <= i < |xs| ==> MinAll(xs).v <= xs[i].v
  {
    if |xs| > 1 {
      var n := |xs| - 1;
      MinAllMeaning(xs[..n]);
      assert forall i :: 0 <= i < n ==> xs[..n][i] == xs[i];
      if HasNaN(xs) && !xs[n].NaN? {
        var k :| 0 <= k < |xs| && xs[k].NaN?;
        assert xs[..n][k].NaN?;
      }
    } else if HasNaN(xs) {
      assert xs[0].NaN?;
    }
  }

  /** `(agreement - agreement.min()) / (agreement.max() - agreement.min())`;
      reducing an empty batch raises. */
  function Normalize(a: seq<Float>): (r: Result<seq<Float>, AgreementError>)
    ensures r.Err? <==> a == []
    ensures r.Ok? ==> |r.value| == |a|
  {
    if a == [] then Err(EmptyReduction)
    else
      var lo, hi := MinAll(a), MaxAll(a);
      Ok(seq(|a|, i requires 0 <= i < |a| => UnitScore(a[i], lo, hi)))
  }

  /** `(x - min) / (max - min)` for one score. */
  function UnitScore(x: Float, lo: Float, hi: Float): Float
  {
    Div(Sub(x, lo), Sub(hi, lo))
  }

  /** `(weight_mean / agreement.mean()) * agreement`. */
  function Rescale(xs: seq<Float>, weightMean: real): (r: seq<Float>)
    ensures |r| == |xs|
  {
    seq(|xs|, i requires 0 <= i < |xs| => Mul(Div(Finite(weightMean), Mean(xs)), xs[i]))
  }

  /** `_subgraph_agreement` after the sigmoid. */
  function SubgraphAgreement(a: seq<Float>, weightMean: real): (r: Result<seq<Float>, AgreementError>)
    ensures r.Err? <==> a == []
    ensures r.Ok? ==> |r.value| == |a|
  {
    match Normalize(a)
    case Err(e) => Err(e)
    case Ok(n) => Ok(Rescale(n, weightMean))
  }

  /** With finite scores that are not all equal, normalisation puts every
      score in [0, 1], the smallest at 0 and the largest at 1. */
  lemma NormalizeInUnit(a: seq<Float>)
    requires a != [] && AllFinite(a) && MinAll(a) != MaxAll(a)
    ensures var n := Normalize(a).value;
      && AllFinite(n)
      && (forall i :: 0 <= i < |a| ==> 0.0 <= n[i].v <= 1.0)
      && (forall i :: 0 <= i < |a| ==> (n[i].v == 0.0 <==> a[i] == MinAll(a)))
      && (forall i :: 0 <= i < |a| ==> (n[i].v == 1.0 <==> a[i] == MaxAll(a)))
  {
    MinAllMeaning(a);
    MaxAllMeaning(a);
    var lo, hi := MinAll(a), MaxAll(a);
    assert lo.v <= a[0].v <= hi.v;
    var n := Normalize(a).value;
    forall i | 0 <= i < |a|
      ensures n[i].Finite?
      ensures 0.0 <= n[i].v <= 1.0
      ensures n[i].v == 0.0 <==> a[i] == lo
      ensures n[i].v == 1.0 <==> a[i] == hi
    {
      assert n[i] == UnitScore(a[i], lo, hi);
      UnitScoreInUnit(a[i].v, lo.v, hi.v);
    }
  }

  /** One finite score between distinct finite extremes lands in [0, 1], at
      0 exactly for the minimum and at 1 exactly for the maximum. */
  lemma UnitScoreInUnit(x: real, lo: real, hi: real)
    requires lo <= x <= hi && lo < hi
    ensures UnitScore(Finite(x), Finite(lo), Finite(hi)).Finite?
    ensures 0.0 <= UnitScore(Finite(x), Finite(lo), Finite(hi)).v <= 1.0
    ensures UnitScore(Finite(x), Finite(lo), Finite(hi)).v == 0.0 <==> x == lo
    ensures UnitScore(Finite(x), Finite(lo), Finite(hi)).v == 1.0 <==> x == hi
  {
    var d := hi - lo;
    assert UnitScore(Finite(x), Finite(lo), Finite(hi)) == Finite((x - lo) / d);
    UnitRatio(x - lo, d);
  }

  lemma UnitRatio(x: real, d: real)
    requires 0.0 <= x <= d && d > 0.0
    ensures 0.0 <= x / d <= 1.0
    ensures x / d == 0.0 <==> x == 0.0
    ensures x / d == 1.0 <==> x == d
  {
    assert x / d * d == x;
  }

  /** With finite scores that are all equal, every normalised score and
      every agreement weight is NaN. */
  lemma EqualScoresGiveNaN(a: seq<Float>, weightMean: real)
    requires a != [] && AllFinite(a) && MinAll(a) == MaxAll(a)
    ensures forall i :: 0 <= i < |a| ==> Normalize(a).value[i].NaN?
    ensures forall i :: 0 <= i < |a| ==> SubgraphAgreement(a, weightMean).value[i].NaN?
  {
    MinAllMeaning(a);
    MaxAllMeaning(a);
    var n := Normalize(a).value;
    forall i | 0 <= i < |a|
      ensures n[i].NaN?
    {
      assert a[i] == MinAll(a);
      assert n[i] == UnitScore(a[i], a[i], a[i]);
    }
    AllNaNWeights(n, weightMean);
  }

  /** A NaN score, which is what a sample with no foreign neighbours
      scores, makes the batch minimum and maximum NaN, and with them every
      normalised score and every agreement weight. */
  lemma NaNScoreSpreads(a: seq<Float>, weightMean: real)
    requires HasNaN(a)
    ensures a != []
    ensures forall i :: 0 <= i < |a| ==> Normalize(a).value[i].NaN?
    ensures forall i :: 0 <= i < |a| ==> SubgraphAgreement(a, weightMean).value[i].NaN?
  {
    var k :| 0 <= k < |a| && a[k].NaN?;
    MinAllMeaning(a);
    var lo, hi := MinAll(a), MaxAll(a);
    var n := Normalize(a).value;
    forall i | 0 <= i < |a|
      ensures n[i].NaN?
    {
      assert n[i] == UnitScore(a[i], lo, hi);
    }
    AllNaNWeights(n, weightMean);
  }

  /** Normalised scores that are all NaN rescale to weights that are all
      NaN: their mean is NaN. */
  lemma AllNaNWeights(n: seq<Float>, weightMean: real)
    requires n != [] && forall i :: 0 <= i < |n| ==> n[i].NaN?
    ensures forall i :: 0 <= i < |n| ==> Rescale(n, weightMean)[i].NaN?
  {
    assert n[0].NaN?;
    SumNaN(n);
  }

  /** With finite scores that are not all equal, the agreement weights are
      finite and their mean is exactly `weight_mean`. */
  lemma RescaleHitsMean(a: seq<Float>, weightMean: real)
    requires a != [] && AllFinite(a) && MinAll(a) != MaxAll(a)
    ensures var w := SubgraphAgreement(a, weightMean).value;
      AllFinite(w) && Mean(w) == Finite(weightMean)
  {
    NormalizedSumPositive(a);
    var n := Normalize(a).value;
    var q := PositiveMean(n);
    var k := ScaleFor(q, weightMean);
    RescaleToMean(n, weightMean, q, k);
  }

  /** With finite scores that are not all equal, the normalised scores are
      finite and the maximum contributes 1 to their sum. */
  lemma NormalizedSumPositive(a: seq<Float>)
    requires a != [] && AllFinite(a) && MinAll(a) != MaxAll(a)
    ensures AllFinite(Normalize(a).value) && RealSum(Values(Normalize(a).value)) >= 1.0
  {
    NormalizeInUnit(a);
    MaxAllMeaning(a);
    var vs := Values(Normalize(a).value);
    var top :| 0 <= top < |a| && a[top] == MaxAll(a);
    RealSumAtLeast(vs, top);
  }

  /** Finite scores with a positive sum have a finite positive mean. */
  lemma PositiveMean(n: seq<Float>) returns (q: real)
    requires n != [] && AllFinite(n) && RealSum(Values(n)) > 0.0
    ensures Mean(n) == Finite(q) && q > 0.0
  {
    MeanFinite(n);
    q := RealSum(Values(n)) / |n| as real;
  }

  /** The factor that takes a positive mean `q` to `m`. */
  lemma ScaleFor(q: real, m: real) returns (k: real)
    requires q > 0.0
    ensures k * q == m && m / q == k
  {
    k := m / q;
  }

  /** Rescaling finite scores with mean `q > 0` by `k = weightMean / q`
      moves their mean to `weightMean`. */
  lemma RescaleToMean(n: seq<Float>, weightMean: real, q: real, k: real)
    requires n != [] && AllFinite(n) && Mean(n) == Finite(q) && q > 0.0
    requires k * q == weightMean && weightMean / q == k
    ensures AllFinite(Rescale(n, weightMean)) && Mean(Rescale(n, weightMean)) == Finite(weightMean)
  {
    RescaleValues(n, weightMean, q, k);
    MeanScaled(n, Rescale(n, weightMean), k, q);
  }

  /** With a finite positive mean `q`, rescaling multiplies every value by
      `k = weightMean / q`. */
  lemma RescaleValues(n: seq<Float>, weightMean: real, q: real, k: real)
    requires AllFinite(n) && Mean(n) == Finite(q) && q > 0.0 && weightMean / q == k
    ensures AllFinite(Rescale(n, weightMean))
    ensures forall i :: 0 <= i < |n| ==> Values(Rescale(n, weightMean))[i] == k * Values(n)[i]
  {
    assert Div(Finite(weightMean), Mean(n)) == Finite(k);
    var w := Rescale(n, weightMean);
    forall i | 0 <= i < |w|
      ensures w[i] == Finite(k * n[i].v)
    {
      assert w[i] == Mul(Finite(k), n[i]);
    }
  }

  /** Scaling every value by `k` scales the mean by `k`. */
  lemma MeanScaled(n: seq<Float>, w: seq<Float>, k: real, q: real)
    requires n != [] && |w| == |n| && AllFinite(n) && AllFinite(w) && Mean(n) == Finite(q)
    requires forall i :: 0 <= i < |n| ==> Values(w)[i] == k * Values(n)[i]
    ensures Mean(w) == Finite(k * q)
  {
    MeanFinite(n);
    MeanFinite(w);
    RealSumScaled(Values(n), Values(w), k);
    var s := RealSum(Values(n));
    var c := |n| as real;
    assert q == s / c;
    assert RealSum(Values(w)) == k * s;
    ScaledRatio(k, s, c, q);
  }

  lemma ScaledRatio(k: real, x: real, c: real, q: real)
    requires c > 0.0 && q == x / c
    ensures k * x / c == k * q
  {
  }

  lemma {:induction false} RealSumAtLeast(xs: seq<real>, k: nat)
    requires k < |xs| && forall i :: 0 <= i < |xs| ==> xs[i] >= 0.0
    ensures RealSum(xs) >= xs[k]
  {
    var n := |xs| - 1;
    RealSumNonNegative(xs[..n]);
    if k < n {
      RealSumAtLeast(xs[..n], k);
    }
  }

  lemma {:induction false} RealSumNonNegative(xs: seq<real>)
    requires forall i :: 0 <= i < |xs| ==> xs[i] >= 0.0
    ensures RealSum(xs) >= 0.0
  {
    if xs != [] {
      RealSumNonNegative(xs[..|xs| - 1]);
    }
  }

  /** Scaling every term scales the sum. */
  lemma {:induction false} RealSumScaled(xs: seq<real>, ys: seq<real>, k: real)
    requires |xs| == |ys| && forall i :: 0 <= i < |xs| ==> ys[i] == k * xs[i]
    ensures RealSum(ys) == k * RealSum(xs)
  {
    if xs != [] {
      var n := |xs| - 1;
      RealSumScaled(xs[..n], ys[..n], k);
      assert k * (RealSum(xs[..n]) + xs[n]) == k * RealSum(xs[..n]) + k * xs[n];
    }
  }

  /** The sum of termwise sums is the sum of the sums. */
  lemma {:induction false} RealSumAdded(xs: seq<real>, ys: seq<real>, zs: seq<real>)
    requires |xs| == |ys| == |zs| && forall i :: 0 <= i < |xs| ==> zs[i] == xs[i] + ys[i]
    ensures RealSum(zs) == RealSum(xs) + RealSum(ys)
  {
    if xs != [] {
      var n := |xs| - 1;
      RealSumAdded(xs[..n], ys[..n], zs[..n]);
    }
  }

  // ---------------------------------------------------------------------
  // One-item sequences

  /** The weights with every one-item sequence's weight set to 0.5. */
  function Overridden(w: seq<Float>, lens: seq<int>): (r: seq<Float>)
    requires |w| == |lens|
    ensures |r| == |w|
    ensures forall i :: 0 <= i < |w| ==> r[i] == if lens[i] == 1 then Finite(0.5) else w[i]
  {
    seq(|w|, i requires 0 <= i < |w| => if lens[i] == 1 then Finite(0.5) else w[i])
  }

  /** `mainstream_weights[item_seq_len == 1] = 0.5`, in place. */
  method OverrideLengthOne(w: array<Float>, lens: seq<int>)
    requires w.Length == |lens|
    modifies w
    ensures w[..] == Overridden(old(w[..]), lens)
  {
    var i := 0;
    while i < w.Length
      invariant 0 <= i <= w.Length
      invariant forall j :: 0 <= j < w.Length ==>
        w[j] == if j < i && lens[j] == 1 then Finite(0.5) else old(w[j])
    {
      if lens[i] == 1 {
        w[i] := Finite(0.5);
      }
      i := i + 1;
    }
  }

  // ---------------------------------------------------------------------
  // Derived weights

  /** Python's `max` of two floats with PyTorch's NaN propagation. */
  function Max2(a: Float, b: Float): (r: Float)
    ensures a.Finite? && b.Finite? ==> r == Finite(if a.v >= b.v then a.v else b.v)
    ensures a.NaN? || b.NaN? ==> r.NaN?
  {
    if a.NaN? || b.NaN? then NaN
    else if a.PosInf? || b.NegInf? then a
    else if b.PosInf? || a.NegInf? then b
    else Finite(if a.v >= b.v then a.v else b.v)
  }

  /** `t.max()`. */
  function MaxAll(xs: seq<Float>): Float
    requires xs != []
  {
    if |xs| == 1 then xs[0] else Max2(MaxAll(xs[..|xs| - 1]), xs[|xs| - 1])
  }

  /** The maximum of finite weights is finite and is one of them; any NaN
      makes it NaN. */
  lemma {:induction false} MaxAllMeaning(xs: seq<Float>)
    requires xs != []
    ensures HasNaN(xs) ==> MaxAll(xs).NaN?
    ensures AllFinite(xs) ==>
      && MaxAll(xs).Finite?
      && (exists i :: 0 <= i < |xs| && xs[i] == MaxAll(xs))
      && forall i :: 0 <= i < |xs| ==> xs[i].v <= MaxAll(xs).v
  {
    if |xs| > 1 {
      var n := |xs| - 1;
      MaxAllMeaning(xs[..n]);
      assert forall i :: 0 <= i < n ==> xs[..n][i] == xs[i];
      if HasNaN(xs) && !xs[n].NaN? {
        var k :| 0 <= k < |xs| && xs[k].NaN?;
        assert xs[..n][k].NaN?;
      }
    } else if HasNaN(xs) {
      assert xs[0].NaN?;
    }
  }

  /** `mainstream_weights.max() - mainstream_weights`; the max of an empty
      batch raises. */
  function Personalization(w: seq<Float>): (r: Result<seq<Float>, AgreementError>)
    ensures r.Err? <==> w == []
    ensures r.Ok? ==> |r.value| == |w|
  {
    if w == [] then Err(EmptyReduction)
    else Ok(seq(|w|, i requires 0 <= i < |w| => Sub(MaxAll(w), w[i])))
  }

  /** A personalisation weight is never negative, and is zero exactly for
      the samples with the largest agreement weight; a NaN weight anywhere
      makes all of them NaN. */
  lemma PersonalizationMeaning(w: seq<Float>)
    requires w != []
    ensures var p := Personalization(w).value;
      && (HasNaN(w) ==> forall i :: 0 <= i < |w| ==> p[i].NaN?)
      && (AllFinite(w) ==>
            && AllFinite(p)
            && (forall i :: 0 <= i < |w| ==> p[i].v >= 0.0)
            && (forall i :: 0 <= i < |w| ==> (p[i].v == 0.0 <==> w[i] == MaxAll(w))))
  {
    MaxAllMeaning(w);
    var m := MaxAll(w);
    var p := Personalization(w).value;
    forall i | 0 <= i < |w|
      ensures p[i] == Sub(m, w[i])
    {
    }
  }

  /** `(mainstream_weights - 0.5).abs()`. */
  function Polar(w: seq<Float>): (r: seq<Float>)
    ensures |r| == |w|
  {
    seq(|w|, i requires 0 <= i < |w| => Abs(Sub(w[i], Finite(0.5))))
  }

  /** A polar weight is the distance from 0.5: never negative, zero
      exactly at 0.5, and so zero for every one-item sequence after the
      override. */
  lemma PolarMeaning(w: seq<Float>, lens: seq<int>)
    requires |w| == |lens| && AllFinite(w)
    ensures var q := Polar(w);
      AllFinite(q) && forall i :: 0 <= i < |w| ==> q[i].v >= 0.0 && (q[i].v == 0.0 <==> w[i].v == 0.5)
    ensures forall i :: 0 <= i < |w| && lens[i] == 1 ==> Polar(Overridden(w, lens))[i] == Finite(0.0)
  {
  }

  // ---------------------------------------------------------------------
  // cl_loss

  /** The per-sample contrastive losses of the loss layer, whose values
      are not part of this model. */
  datatype Losses = Losses(graceAdj: seq<Float>, graceA2s: seq<Float>, push: seq<Float>,
                           vanillaAdj: seq<Float>, vanillaA2s: seq<Float>,
                           oneNegAdj: seq<Float>, oneNegA2s: seq<Float>)

  predicate Shaped(l: Losses, n: nat)
  {
    |l.graceAdj| == n && |l.graceA2s| == n && |l.push| == n && |l.vanillaAdj| == n
    && |l.vanillaA2s| == n && |l.oneNegAdj| == n && |l.oneNegA2s| == n
  }

  function Times(xs: seq<Float>, ys: seq<Float>): (r: seq<Float>)
    requires |xs| == |ys|
    ensures |r| == |xs|
  {
    seq(|xs|, i requires 0 <= i < |xs| => Mul(xs[i], ys[i]))
  }

  function Plus(xs: seq<Float>, ys: seq<Float>): (r: seq<Float>)
    requires |xs| == |ys|
    ensures |r| == |xs|
  {
    seq(|xs|, i requires 0 <= i < |xs| => Add(xs[i], ys[i]))
  }

  function Scale(c: real, xs: seq<Float>): (r: seq<Float>)
    ensures |r| == |xs|
  {
    seq(|xs|, i requires 0 <= i < |xs| => Mul(Finite(c), xs[i]))
  }

  const Modes: set<string> := {"adj", "a2s", "nocl", "static", "full", "pushandpull", "vanilla_loss", "one_neg"}

  /** `cl_loss` of `calculate_loss_graphcl` for the `cl_ablation` setting,
      from the agreement weights `w` after the override. The max in the
      personalisation weights raises on an empty batch before the choice is
      made; an unknown setting leaves `cl_loss` unbound when it is
      returned. */
  function ClLoss(mode: string, coef: real, w: seq<Float>, l: Losses): (r: Result<Float, AgreementError>)
    requires Shaped(l, |w|)
    ensures r.Err? <==> w == [] || mode !in Modes
  {
    match Personalization(w)
    case Err(e) => Err(e)
    case Ok(p) =>
      if mode == "adj" then Ok(Mean(Scale(coef, Times(w, l.graceAdj))))
      else if mode == "a2s" then Ok(Mean(Scale(coef, Times(p, l.graceA2s))))
      else if mode == "nocl" then Ok(Finite(0.0))
      else if mode == "static" then Ok(Mean(Scale(0.5 * coef, Plus(l.graceAdj, l.graceA2s))))
      else if mode == "full" then Ok(Mean(Scale(coef, Plus(Times(w, l.graceAdj), Times(p, l.graceA2s)))))
      else if mode == "pushandpull" then
        Ok(Mean(Scale(coef, Plus(Times(w, l.graceAdj), Times(Polar(w), Scale(2.0, l.push))))))
      else if mode == "vanilla_loss" then
        Ok(Mean(Scale(coef, Plus(Times(w, l.vanillaAdj), Times(p, l.vanillaA2s)))))
      else if mode == "one_neg" then
        Ok(Mean(Scale(5.0 * coef, Plus(Times(w, l.oneNegAdj), Times(p, l.oneNegA2s)))))
      else Err(UnboundLoss(mode))
  }

  /** With finite weights and losses, the "full" loss is the sum of the
      "adj" and the "a2s" ablations. */
  lemma FullIsAdjPlusA2s(coef: real, w: seq<Float>, l: Losses)
    requires Shaped(l, |w|) && w != []
    requires AllFinite(w) && AllFinite(l.graceAdj) && AllFinite(l.graceA2s)
    ensures ClLoss("full", coef, w, l).Ok?
    ensures ClLoss("full", coef, w, l).value == Add(ClLoss("adj", coef, w, l).value, ClLoss("a2s", coef, w, l).value)
  {
    PersonalizationMeaning(w);
    var p := Personalization(w).value;
    var x := Scale(coef, Times(w, l.graceAdj));
    var y := Scale(coef, Times(p, l.graceA2s));
    var z := Scale(coef, Plus(Times(w, l.graceAdj), Times(p, l.graceA2s)));
    forall i | 0 <= i < |z|
      ensures x[i].Finite? && y[i].Finite? && z[i] == Finite(x[i].v + y[i].v)
    {
      var u, v := w[i].v * l.graceAdj[i].v, p[i].v * l.graceA2s[i].v;
      assert x[i] == Finite(coef * u);
      assert y[i] == Finite(coef * v);
      assert z[i] == Finite(coef * (u + v));
      Distributes(coef, u, v);
    }
    MeanSplits(x, y, z);
  }

  lemma Distributes(c: real, u: real, v: real)
    ensures c * (u + v) == c * u + c * v
  {
  }

  /** A pointwise sum of finite scores has the sum of their means as its
      mean. */
  lemma MeanSplits(x: seq<Float>, y: seq<Float>, z: seq<Float>)
    requires |x| == |y| == |z| && x != []
    requires AllFinite(x) && AllFinite(y)
    requires forall i :: 0 <= i < |z| ==> z[i] == Finite(x[i].v + y[i].v)
    ensures Mean(z) == Add(Mean(x), Mean(y))
  {
    var n := |x| as real;
    MeanFinite(x);
    MeanFinite(y);
    MeanFinite(z);
    var xs, ys := Values(x), Values(y);
    RealSumAdded(xs, ys, Values(z));
    DivSplits(RealSum(xs), RealSum(ys), n);
  }

  lemma DivSplits(x: real, y: real, n: real)
    requires n > 0.0
    ensures (x + y) / n == x / n + y / n
  {
    assert (x / n + y / n) * n == x + y;
  }

  /** The "static" ablation ignores the agreement weights. */
  lemma StaticIgnoresWeights(coef: real, w: seq<Float>, w': seq<Float>, l: Losses)
    requires Shaped(l, |w|) && |w'| == |w| && w != []
    ensures ClLoss("static", coef, w, l) == ClLoss("static", coef, w', l)
  {
  }
}
