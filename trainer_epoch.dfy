// One training epoch of the generic trainer and the per-epoch rules of the
// trainer subclasses that reuse it (knowledge-graph alternation, MKR's KG
// cadence, RecVAE's encoder/decoder phases).
//
// The model's loss function, autograd, `backward` and the optimizer step are
// outside the model: a batch is represented only by the loss values the loss
// function returned for it.

module TrainEpoch {
  import opened Wrappers
  import opened Numerics

  /** What `loss_func(interaction)` returned for one batch. */
  datatype Losses = Scalar(loss: Float) | Parts(parts: seq<Float>)

  /** The running `total_loss` once it is no longer `None`. */
  datatype Total = ScalarTotal(sum: Float) | TupleTotal(sums: seq<Float>)

  datatype BatchFault =
    | NaNLoss                    // ValueError('Training loss is nan')
    | NotATensor                 // torch.isnan(0): a batch returned an empty tuple
    | ShapeClash                 // a scalar loss after tuple losses, or the reverse

  datatype TrainError =
    | BatchError(fault: BatchFault, batch: nat)  // raised while handling batch `batch`
    | ZeroDivision               // a cadence of 0 in a subclass
    | NotAScalarTotal            // RecVAE adds a tuple or None to a float

  /** `loss` as the trainer checks it: the scalar, or `sum(losses)`. */
  function BatchLoss(l: Losses): Float
  {
    match l
    case Scalar(x) => x
    case Parts(p) => Sum(p)
  }

  /** `tuple(map(sum, zip(a, b)))`: pairwise sums, cut to the shorter tuple. */
  function ZipAdd(a: seq<Float>, b: seq<Float>): (r: seq<Float>)
    ensures |r| == if |a| < |b| then |a| else |b|
    ensures forall j :: 0 <= j < |r| ==> r[j] == Add(a[j], b[j])
  {
    seq(if |a| < |b| then |a| else |b|, j requires 0 <= j < |a| && j < |b| => Add(a[j], b[j]))
  }

  /** One iteration of the batch loop, for batch number `k`. */
  function Step(total: Option<Total>, l: Losses, k: nat): (r: Result<Option<Total>, TrainError>)
    ensures r.Err? ==> r.error.BatchError? && r.error.batch == k
    ensures r.Ok? ==> r.value.Some? && (r.value.value.ScalarTotal? <==> l.Scalar?)
    ensures r.Ok? ==> !BatchLoss(l).NaN?
    ensures BatchLoss(l).NaN? && (total.None? || total.value.ScalarTotal? == l.Scalar?) ==> r.Err?
  {
    var acc :=
      match l
      case Parts(p) =>
        (match total
         case None => Some(TupleTotal(p))
         case Some(TupleTotal(t)) => Some(TupleTotal(ZipAdd(t, p)))
         case Some(ScalarTotal(_)) => None)
      case Scalar(x) =>
        (match total
         case None => Some(ScalarTotal(x))
         case Some(ScalarTotal(s)) => Some(ScalarTotal(Add(s, x)))
         case Some(TupleTotal(_)) => None);
    if acc.None? then Err(BatchError(ShapeClash, k))
    else if l.Parts? && l.parts == [] then Err(BatchError(NotATensor, k))
    else if BatchLoss(l).NaN? then Err(BatchError(NaNLoss, k))
    else Ok(acc)
  }

  /** The whole epoch: `Ok(None)` for no batches, else the final total. */
  function RunEpoch(bs: seq<Losses>): (r: Result<Option<Total>, TrainError>)
    ensures r == Ok(None) <==> bs == []
    ensures r.Ok? && bs != [] ==> (r.value.value.ScalarTotal? <==> bs[|bs| - 1].Scalar?)
  {
    if bs == [] then Ok(None)
    else match RunEpoch(bs[..|bs| - 1])
      case Err(e) => Err(e)
      case Ok(t) => Step(t, bs[|bs| - 1], |bs| - 1)
  }

  /** An epoch that completes saw no NaN loss, and all its batches had the
      shape of the total. */
  lemma {:induction false} RunEpochOk(bs: seq<Losses>)
    requires RunEpoch(bs).Ok?
    ensures forall i :: 0 <= i < |bs| ==> !BatchLoss(bs[i]).NaN?
    ensures bs != [] ==> forall i :: 0 <= i < |bs| ==> (bs[i].Scalar? <==> RunEpoch(bs).value.value.ScalarTotal?)
  {
    if bs != [] {
      var init := bs[..|bs| - 1];
      RunEpochOk(init);
      forall i | 0 <= i < |init|
        ensures bs[i] == init[i]
      {
      }
    }
  }

  /** An epoch raises only while handling one of its batches. */
  lemma {:induction false} RunEpochErrorBatch(bs: seq<Losses>)
    ensures RunEpoch(bs).Err? ==> RunEpoch(bs).error.BatchError? && RunEpoch(bs).error.batch < |bs|
  {
    if bs != [] { RunEpochErrorBatch(bs[..|bs| - 1]); }
  }

  /** Once a prefix of the batches has raised, the epoch raises the same error. */
  lemma {:induction false} RunEpochErrorSticks(bs: seq<Losses>, i: nat)
    requires i <= |bs| && RunEpoch(bs[..i]).Err?
    ensures RunEpoch(bs) == RunEpoch(bs[..i])
  {
    if i < |bs| {
      assert bs[..|bs| - 1][..i] == bs[..i];
      RunEpochErrorSticks(bs[..|bs| - 1], i);
    } else {
      assert bs[..i] == bs;
    }
  }

  /** `Trainer._train_epoch`: the batch loop. `steps` counts the batches that
      reached `backward()` and `optimizer.step()`. */
  method TrainEpoch(batches: seq<Losses>) returns (r: Result<Option<Total>, TrainError>, steps: nat)
    ensures r == RunEpoch(batches)
    ensures r.Ok? ==> steps == |batches|
    ensures r.Err? ==> r.error.BatchError? && steps == r.error.batch
  {
    var total: Option<Total> := None;
    var i := 0;
    while i < |batches|
      invariant 0 <= i <= |batches|
      invariant RunEpoch(batches[..i]) == Ok(total)
    {
      assert batches[..i + 1][..i] == batches[..i];
      var losses := batches[i];
      var loss: Float;
      if losses.Parts? {
        loss := Sum(losses.parts);
        match total {
          case None => total := Some(TupleTotal(losses.parts));
          case Some(TupleTotal(t)) => total := Some(TupleTotal(ZipAdd(t, losses.parts)));
          case Some(ScalarTotal(_)) =>
            RunEpochErrorSticks(batches, i + 1);
            return Err(BatchError(ShapeClash, i)), i;
        }
        if losses.parts == [] {
          RunEpochErrorSticks(batches, i + 1);
          return Err(BatchError(NotATensor, i)), i;
        }
      } else {
        loss := losses.loss;
        match total {
          case None => total := Some(ScalarTotal(loss));
          case Some(ScalarTotal(s)) => total := Some(ScalarTotal(Add(s, loss)));
          case Some(TupleTotal(_)) =>
            RunEpochErrorSticks(batches, i + 1);
            return Err(BatchError(ShapeClash, i)), i;
        }
      }
      // _check_nan: only NaN aborts; an infinite loss goes on to backward().
      if loss.NaN? {
        RunEpochErrorSticks(batches, i + 1);
        return Err(BatchError(NaNLoss, i)), i;
      }
      i := i + 1;
    }
    assert batches[..i] == batches;
    return Ok(total), |batches|;
  }

  // ---------------------------------------------------------------------
  // What an epoch returns and when it raises.

  ghost predicate AllScalar(bs: seq<Losses>) { forall k :: 0 <= k < |bs| ==> bs[k].Scalar? }

  ghost predicate AllTuples(bs: seq<Losses>, m: nat)
  {
    forall k :: 0 <= k < |bs| ==> bs[k].Parts? && |bs[k].parts| == m
  }

  /** Scalar losses: the epoch returns the sum of the per-batch losses. */
  lemma {:induction false} ScalarEpochSum(bs: seq<Losses>)
    requires AllScalar(bs) && bs != []
    requires forall k :: 0 <= k < |bs| ==> !bs[k].loss.NaN?
    ensures RunEpoch(bs) == Ok(Some(ScalarTotal(Sum(seq(|bs|, k requires 0 <= k < |bs| => bs[k].loss)))))
  {
    var ls := seq(|bs|, k requires 0 <= k < |bs| => bs[k].loss);
    if |bs| > 1 {
      var init := bs[..|bs| - 1];
      ScalarEpochSum(init);
      assert seq(|init|, k requires 0 <= k < |init| => init[k].loss) == ls[..|ls| - 1];
    } else {
      assert ls[..0] == [];
      assert Sum(ls) == Add(Finite(0.0), bs[0].loss);
    }
  }

  /** The sum of column `j` over the first `n` tuples. */
  function ColumnSum(bs: seq<Losses>, n: nat, j: nat): Float
    requires n <= |bs|
    requires forall k :: 0 <= k < |bs| ==> bs[k].Parts? && j < |bs[k].parts|
  {
    if n == 0 then Finite(0.0) else Add(ColumnSum(bs, n - 1, j), bs[n - 1].parts[j])
  }

  lemma ZeroAddLeft(x: Float)
    ensures Add(Finite(0.0), x) == x
  {
  }

  /** Tuple losses: component `j` of the result is the sum over batches of
      component `j`. */
  lemma {:induction false} TupleEpochSum(bs: seq<Losses>, m: nat)
    requires AllTuples(bs, m) && m > 0 && bs != []
    requires forall k :: 0 <= k < |bs| ==> !BatchLoss(bs[k]).NaN?
    ensures RunEpoch(bs).Ok? && RunEpoch(bs).value.Some? && RunEpoch(bs).value.value.TupleTotal?
    ensures |RunEpoch(bs).value.value.sums| == m
    ensures forall j :: 0 <= j < m ==> RunEpoch(bs).value.value.sums[j] == ColumnSum(bs, |bs|, j)
  {
    if |bs| > 1 {
      var init := bs[..|bs| - 1];
      TupleEpochSum(init, m);
      forall j | 0 <= j < m ensures ColumnSum(init, |init|, j) == ColumnSum(bs, |bs| - 1, j) {
        ColumnSumPrefix(bs, init, |init|, j);
      }
    } else {
      forall j | 0 <= j < m ensures ColumnSum(bs, 1, j) == bs[0].parts[j] {
        ZeroAddLeft(bs[0].parts[j]);
      }
    }
  }

  lemma {:induction false} ColumnSumPrefix(bs: seq<Losses>, init: seq<Losses>, n: nat, j: nat)
    requires n <= |init| <= |bs| && init == bs[..|init|]
    requires forall k :: 0 <= k < |bs| ==> bs[k].Parts? && j < |bs[k].parts|
    ensures ColumnSum(init, n, j) == ColumnSum(bs, n, j)
  {
    if n > 0 { ColumnSumPrefix(bs, init, n - 1, j); }
  }

  /** With losses of one shape, the epoch raises exactly when some batch's
      loss is NaN, and then at the first such batch (an infinite loss does
      not raise). */
  lemma {:induction false} EpochRaisesAtFirstNaN(bs: seq<Losses>, m: nat)
    requires AllScalar(bs) || (m > 0 && AllTuples(bs, m))
    ensures RunEpoch(bs).Ok? <==> forall k :: 0 <= k < |bs| ==> !BatchLoss(bs[k]).NaN?
    ensures RunEpoch(bs).Err? ==>
      && RunEpoch(bs).error.BatchError? && RunEpoch(bs).error.fault == NaNLoss
      && RunEpoch(bs).error.batch < |bs|
      && BatchLoss(bs[RunEpoch(bs).error.batch]).NaN?
      && forall k :: 0 <= k < RunEpoch(bs).error.batch ==> !BatchLoss(bs[k]).NaN?
    ensures RunEpoch(bs).Ok? && bs != [] ==>
      RunEpoch(bs).value.Some? && (AllScalar(bs) <==> RunEpoch(bs).value.value.ScalarTotal?)
  {
    if bs != [] {
      var init := bs[..|bs| - 1];
      assert AllScalar(bs) ==> AllScalar(init);
      assert AllTuples(bs, m) ==> AllTuples(init, m);
      EpochRaisesAtFirstNaN(init, m);
      if init != [] && RunEpoch(init).Ok? {
        if AllTuples(bs, m) { TupleEpochSum(init, m); }
      }
    }
  }

  // ---------------------------------------------------------------------
  // KGTrainer: the data-loader mode and loss function chosen per epoch.

  datatype KgState = RSKG | RS | KG
  datatype LossFn = CalculateLoss | CalculateKgLoss | CalculateRsLoss | DecoderLoss

  function KgMode(epoch: int, recStep: Option<int>, kgStep: Option<int>): (r: Result<KgState, TrainError>)
    ensures r == Ok(RSKG) <==> recStep.None? || kgStep.None?
    ensures r.Err? <==> recStep.Some? && kgStep.Some? && recStep.value + kgStep.value == 0
    ensures r.Err? ==> r.error == ZeroDivision
    ensures r == Ok(RS) && recStep.value + kgStep.value > 0 ==> recStep.value > 0
  {
    if recStep.None? || kgStep.None? then Ok(RSKG)
    else if recStep.value + kgStep.value == 0 then Err(ZeroDivision)
    else if PyMod(epoch, recStep.value + kgStep.value) < recStep.value then Ok(RS)
    else Ok(KG)
  }

  /** The loss function `KGTrainer._train_epoch` hands to the base epoch. */
  function KgLossFn(s: KgState): (f: LossFn)
    ensures f == CalculateKgLoss <==> s == KG
  {
    if s == KG then CalculateKgLoss else CalculateLoss
  }


  /** With both steps set and not both zero, every cycle of
      `train_rec_step + train_kg_step` epochs starts with `train_rec_step`
      recommendation epochs followed by `train_kg_step` KG epochs. */
  lemma KgSchedule(rec: int, kg: int, cycle: nat, j: int)
    requires rec >= 0 && kg >= 0 && rec + kg > 0
    requires 0 <= j < rec + kg
    ensures KgMode(cycle * (rec + kg) + j, Some(rec), Some(kg)) == Ok(if j < rec then RS else KG)
  {
    DivModUnique(cycle * (rec + kg) + j, rec + kg, cycle, j);
  }

  // ---------------------------------------------------------------------
  // MKRTrainer: RS every epoch, KG every `kge_interval` epochs.

  /** `epoch_idx % kge_interval == 0`. */
  function MkrTrainsKg(epoch: int, interval: int): (r: Result<bool, TrainError>)
    ensures r.Err? <==> interval == 0
    ensures interval != 0 ==> (r == Ok(true) <==> epoch % interval == 0)
  {
    if interval == 0 then Err(ZeroDivision) else Ok(PyMod(epoch, interval) == 0)
  }

  /** `MKRTrainer._train_epoch`: the RS epoch runs first; the KG epoch runs
      only on the cadence, otherwise its total stays `0.`. */
  function MkrEpoch(epoch: int, interval: int, rsBatches: seq<Losses>, kgBatches: seq<Losses>)
    : (r: Result<(Option<Total>, Option<Total>), TrainError>)
    ensures RunEpoch(rsBatches).Err? ==> r == Err(RunEpoch(rsBatches).error)
    ensures r.Ok? ==> r.value.0 == RunEpoch(rsBatches).value
    ensures RunEpoch(rsBatches).Ok? && interval == 0 ==> r == Err(ZeroDivision)
    ensures RunEpoch(rsBatches).Ok? && MkrTrainsKg(epoch, interval) == Ok(false)
            ==> r == Ok((RunEpoch(rsBatches).value, Some(ScalarTotal(Finite(0.0)))))
    ensures RunEpoch(rsBatches).Ok? && MkrTrainsKg(epoch, interval) == Ok(true) && RunEpoch(kgBatches).Err?
            ==> r == Err(RunEpoch(kgBatches).error)
    ensures RunEpoch(rsBatches).Ok? && MkrTrainsKg(epoch, interval) == Ok(true) && RunEpoch(kgBatches).Ok?
            ==> r == Ok((RunEpoch(rsBatches).value, RunEpoch(kgBatches).value))
  {
    match RunEpoch(rsBatches)
    case Err(e) => Err(e)
    case Ok(rs) =>
      match MkrTrainsKg(epoch, interval)
      case Err(e) => Err(e)
      case Ok(false) => Ok((rs, Some(ScalarTotal(Finite(0.0)))))
      case Ok(true) =>
        match RunEpoch(kgBatches)
        case Err(e) => Err(e)
        case Ok(kg) => Ok((rs, kg))
  }

  /** How many of the epochs `0 .. n-1` train the KG side. */
  function CountKgEpochs(n: nat, interval: int): nat
    requires interval > 0
  {
    if n == 0 then 0 else CountKgEpochs(n - 1, interval) + (if PyMod(n - 1, interval) == 0 then 1 else 0)
  }

  /** Over `n` epochs the KG side trains `ceil(n / kge_interval)` times. */
  lemma {:induction false} MkrKgCount(n: nat, interval: int)
    requires interval > 0
    ensures CountKgEpochs(n, interval) == (n + interval - 1) / interval
  {
    if n > 0 {
      MkrKgCount(n - 1, interval);
      CeilStep(n - 1, interval);
    }
  }

  lemma CeilStep(m: nat, k: int)
    requires k > 0
    ensures (m + k) / k == (m + k - 1) / k + (if m % k == 0 then 1 else 0)
  {
    var q, r := m / k, m % k;
    assert m == k * q + r;
    if r == 0 {
      DivModUnique(m + k - 1, k, q, k - 1);
      DivModUnique(m + k, k, q + 1, 0);
    } else {
      DivModUnique(m + k - 1, k, q + 1, r - 1);
      DivModUnique(m + k, k, q + 1, r);
    }
  }

  // ---------------------------------------------------------------------
  // RecVAETrainer: encoder epochs, then decoder epochs whose totals are added.

  function DecoderSum(runs: seq<seq<Losses>>): Result<Float, TrainError>
  {
    if runs == [] then Ok(Finite(0.0))
    else match DecoderSum(runs[..|runs| - 1])
      case Err(e) => Err(e)
      case Ok(acc) =>
        match RunEpoch(runs[|runs| - 1])
        case Err(e) => Err(e)
        case Ok(Some(ScalarTotal(x))) => Ok(Add(acc, x))
        case Ok(_) => Err(NotAScalarTotal)
  }

  function EncoderPhase(runs: seq<seq<Losses>>): Result<(), TrainError>
  {
    if runs == [] then Ok(())
    else match EncoderPhase(runs[..|runs| - 1])
      case Err(e) => Err(e)
      case Ok(_) => match RunEpoch(runs[|runs| - 1]) case Err(e) => Err(e) case Ok(_) => Ok(())
  }

  function RecVaeEpoch(encRuns: seq<seq<Losses>>, decRuns: seq<seq<Losses>>): Result<Float, TrainError>
  {
    match EncoderPhase(encRuns)
    case Err(e) => Err(e)
    case Ok(_) => DecoderSum(decRuns)
  }

  /** `RecVAETrainer._train_epoch`: `n_enc_epochs` encoder epochs (their
      totals are dropped), `update_prior()`, then `n_dec_epochs` decoder epochs
      whose totals are added to `loss = 0.0`. */
  method RecVaeTrainEpoch(encRuns: seq<seq<Losses>>, decRuns: seq<seq<Losses>>)
    returns (r: Result<Float, TrainError>)
    ensures r == RecVaeEpoch(encRuns, decRuns)
  {
    var e := 0;
    while e < |encRuns|
      invariant 0 <= e <= |encRuns|
      invariant EncoderPhase(encRuns[..e]) == Ok(())
    {
      assert encRuns[..e + 1][..e] == encRuns[..e];
      var res, _ := TrainEpoch(encRuns[e]);
      if res.Err? {
        EncoderErrorSticks(encRuns, e + 1);
        return Err(res.error);
      }
      e := e + 1;
    }
    assert encRuns[..e] == encRuns;
    var loss := Finite(0.0);
    var d := 0;
    while d < |decRuns|
      invariant 0 <= d <= |decRuns|
      invariant DecoderSum(decRuns[..d]) == Ok(loss)
    {
      assert decRuns[..d + 1][..d] == decRuns[..d];
      var res, _ := TrainEpoch(decRuns[d]);
      if res.Err? {
        DecoderErrorSticks(decRuns, d + 1);
        return Err(res.error);
      }
      match res.value {
        case Some(ScalarTotal(x)) => loss := Add(loss, x);
        case _ =>
          DecoderErrorSticks(decRuns, d + 1);
          return Err(NotAScalarTotal);
      }
      d := d + 1;
    }
    assert decRuns[..d] == decRuns;
    return Ok(loss);
  }

  lemma {:induction false} EncoderErrorSticks(runs: seq<seq<Losses>>, i: nat)
    requires i <= |runs| && EncoderPhase(runs[..i]).Err?
    ensures EncoderPhase(runs) == EncoderPhase(runs[..i])
  {
    if i < |runs| {
      assert runs[..|runs| - 1][..i] == runs[..i];
      EncoderErrorSticks(runs[..|runs| - 1], i);
    } else {
      assert runs[..i] == runs;
    }
  }

  lemma {:induction false} DecoderErrorSticks(runs: seq<seq<Losses>>, i: nat)
    requires i <= |runs| && DecoderSum(runs[..i]).Err?
    ensures DecoderSum(runs) == DecoderSum(runs[..i])
  {
    if i < |runs| {
      assert runs[..|runs| - 1][..i] == runs[..i];
      DecoderErrorSticks(runs[..|runs| - 1], i);
    } else {
      assert runs[..i] == runs;
    }
  }

  /** The RecVAE epoch reports only the decoder losses: two encoder phases
      that both complete give the same result. */
  lemma RecVaeIgnoresEncoderLosses(enc1: seq<seq<Losses>>, enc2: seq<seq<Losses>>, dec: seq<seq<Losses>>)
    requires EncoderPhase(enc1).Ok? && EncoderPhase(enc2).Ok?
    ensures RecVaeEpoch(enc1, dec) == RecVaeEpoch(enc2, dec) == DecoderSum(dec)
  {
  }

  /** With scalar, non-NaN decoder batches, the RecVAE epoch is the sum of
      the decoder epochs' totals. */
  lemma {:induction false} RecVaeDecoderTotal(dec: seq<seq<Losses>>)
    requires forall d :: 0 <= d < |dec| ==> dec[d] != [] && AllScalar(dec[d])
    requires forall d, k :: 0 <= d < |dec| && 0 <= k < |dec[d]| ==> !BatchLoss(dec[d][k]).NaN?
    ensures DecoderSum(dec).Ok?
    ensures DecoderSum(dec).value ==
      Sum(seq(|dec|, d requires 0 <= d < |dec| => Sum(seq(|dec[d]|, k requires 0 <= k < |dec[d]| => BatchLoss(dec[d][k])))))
  {
    if dec != [] {
      var init := dec[..|dec| - 1];
      RecVaeDecoderTotal(init);
      ScalarEpochSum(dec[|dec| - 1]);
      var last := dec[|dec| - 1];
      assert seq(|last|, k requires 0 <= k < |last| => last[k].loss)
          == seq(|last|, k requires 0 <= k < |last| => BatchLoss(last[k]));
      assert seq(|init|, d requires 0 <= d < |init| => Sum(seq(|init[d]|, k requires 0 <= k < |init[d]| => BatchLoss(init[d][k]))))
          == seq(|dec|, d requires 0 <= d < |dec| => Sum(seq(|dec[d]|, k requires 0 <= k < |dec[d]| => BatchLoss(dec[d][k]))))[..|dec| - 1];
    }
  }
}
