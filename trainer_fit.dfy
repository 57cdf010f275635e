// The generic trainer's state machine: optimizer selection, checkpoint
// save/resume, the `fit` epoch loop with its evaluation schedule and early
// stopping hand-off, and the pretraining loop of PretrainTrainer.
//
// `early_stopping`, the evaluator and the model's parameters are abstract:
// `fit` receives them as function-valued inputs (FitInputs).

module TrainerCore {
  import opened Wrappers
  import opened Numerics
  import opened TrainEpoch

  /** The configuration keys the trainer reads. */
  datatype Config = Config(
    model: string, dataset: string, learner: string, learningRate: real,
    epochs: int, evalStep: int, stoppingStep: int, validMetricBigger: bool,
    evalBatchSize: int, weightDecay: real, regWeight: Option<real>,
    checkpointDir: string, pretrainEpochs: int, saveStep: int)

  /** Model parameters, optimizer state and the like, as opaque blobs. */
  type Params = seq<real>

  /** A validation result dict: metric name to value. */
  type EvalResult = map<string, real>

  /** What `torch.save` writes: the trainer's checkpoint, or the smaller
      record of `PretrainTrainer.save_pretrained_model`. */
  datatype Checkpoint =
    | Checkpoint(config: Config, epoch: int, curStep: int, bestValidScore: Float,
                 stateDict: Params, otherParameter: Params, optimizer: Params)
    | PretrainSnapshot(config: Config, epoch: int, stateDict: Params, optimizer: Params,
                       otherParameter: Params)

  // ---------------------------------------------------------------------
  // _build_optimizer

  datatype OptimizerKind = Adam | SGD | Adagrad | RMSprop | SparseAdam
  datatype Optimizer = Optimizer(kind: OptimizerKind, lr: real, weightDecay: real)
  datatype OptimizerWarning = DoubleRegularization | SparseAdamIgnoresDecay | UnrecognizedOptimizer

  function BuildOptimizer(learner: string, lr: real, weightDecay: real, regWeight: Option<real>)
    : (r: (Optimizer, seq<OptimizerWarning>))
  {
    var double :=
      if regWeight.Some? && regWeight.value != 0.0 && weightDecay != 0.0 && weightDecay * regWeight.value > 0.0
      then [DoubleRegularization] else [];
    var name := Lower(learner);
    if name == "adam" then (Optimizer(Adam, lr, weightDecay), double)
    else if name == "sgd" then (Optimizer(SGD, lr, weightDecay), double)
    else if name == "adagrad" then (Optimizer(Adagrad, lr, weightDecay), double)
    else if name == "rmsprop" then (Optimizer(RMSprop, lr, weightDecay), double)
    else if name == "sparse_adam" then
      (Optimizer(SparseAdam, lr, 0.0), double + (if weightDecay > 0.0 then [SparseAdamIgnoresDecay] else []))
    else (Optimizer(Adam, lr, 0.0), double + [UnrecognizedOptimizer])
  }

  /** The optimizer is chosen by the lower-cased learner name; an unknown
      name falls back to Adam, with a warning and without weight decay; the
      double-regularisation warning is raised exactly when
      `weight_decay * reg_weight > 0`. */
  lemma BuildOptimizerChoice(learner: string, lr: real, wd: real, reg: Option<real>)
    ensures var (opt, warns) := BuildOptimizer(learner, lr, wd, reg);
      && opt.lr == lr
      && (DoubleRegularization in warns <==> reg.Some? && wd * reg.value > 0.0)
      && (UnrecognizedOptimizer in warns <==>
            Lower(learner) !in {"adam", "sgd", "adagrad", "rmsprop", "sparse_adam"})
      && (UnrecognizedOptimizer in warns ==> opt == Optimizer(Adam, lr, 0.0))
      && (opt.kind == SparseAdam ==> opt.weightDecay == 0.0)
      && (opt.kind != SparseAdam && UnrecognizedOptimizer !in warns ==> opt.weightDecay == wd)
      && (Lower(learner) == "adam" ==> opt.kind == Adam)
      && (Lower(learner) == "sgd" ==> opt.kind == SGD)
      && (Lower(learner) == "adagrad" ==> opt.kind == Adagrad)
      && (Lower(learner) == "rmsprop" ==> opt.kind == RMSprop)
      && (Lower(learner) == "sparse_adam" ==> opt.kind == SparseAdam)
      && (SparseAdamIgnoresDecay in warns <==> Lower(learner) == "sparse_adam" && wd > 0.0)
  {
  }

  /** Learner names that differ only in ASCII case select the same optimizer. */
  lemma BuildOptimizerIgnoresCase(a: string, b: string, lr: real, wd: real, reg: Option<real>)
    requires Lower(a) == Lower(b)
    ensures BuildOptimizer(a, lr, wd, reg) == BuildOptimizer(b, lr, wd, reg)
  {
  }

  // ---------------------------------------------------------------------
  // The abstract state of a trainer and the specification of `fit`.

  /** The trainer's settings fixed at construction (plus the checkpoint path). */
  datatype Settings = Settings(config: Config, epochs: int, evalStep: int, stoppingStep: int,
                               bigger: bool, savedModelFile: string)

  /** The inputs `fit` cannot see into: per-epoch batch losses, the effect of
      training on the parameters, the evaluator and `early_stopping`. */
  datatype FitInputs = FitInputs(
    batchesAt: int -> seq<Losses>,
    paramsAfter: int -> Params,
    optAfter: int -> Params,
    hasValid: bool,
    validate: int -> (Float, EvalResult),
    earlyStop: (Float, Float, int, int, bool) -> (Float, int, bool, bool),
    saved: bool)

  /** The trainer's state as `fit` changes it, with what it did recorded:
      epochs trained, evaluated, with an update flag, checkpoints saved,
      and the epoch that stopped training early. */
  datatype FitState = FitState(
    curStep: int, best: Float, bestResult: Option<EvalResult>, lossDict: map<int, Float>,
    params: Params, other: Params, optState: Params, files: map<string, Checkpoint>,
    trained: seq<int>, evaluated: seq<int>, updated: seq<int>, saves: seq<int>, stopped: Option<int>)

  datatype FitError = Raised(error: TrainError) | EmptyEpoch(epoch: int)

  /** `_save_checkpoint(epoch)` on the abstract state. */
  function SaveRecord(st: Settings, s: FitState, epoch: int): (r: FitState)
    ensures r.files.Keys == s.files.Keys + {st.savedModelFile}
    ensures r.files[st.savedModelFile].Checkpoint?
    ensures r.files[st.savedModelFile].epoch == epoch && r.files[st.savedModelFile].curStep == s.curStep
    ensures r.files[st.savedModelFile].bestValidScore == s.best
    ensures r.saves == s.saves + [epoch]
  {
    s.(files := s.files[st.savedModelFile := Checkpoint(st.config, epoch, s.curStep, s.best, s.params, s.other, s.optState)],
       saves := s.saves + [epoch])
  }

  /** The saved record also holds the config, the parameters and the
      optimizer state; every other file and every other part of the state
      is kept. */
  lemma SaveRecordKeeps(st: Settings, s: FitState, epoch: int)
    ensures var r := SaveRecord(st, s, epoch);
      && r.files[st.savedModelFile].config == st.config
      && r.files[st.savedModelFile].stateDict == s.params
      && r.files[st.savedModelFile].otherParameter == s.other
      && r.files[st.savedModelFile].optimizer == s.optState
      && (forall k :: k in s.files && k != st.savedModelFile ==> r.files[k] == s.files[k])
      && r == s.(files := r.files, saves := r.saves)
  {
  }

  /** Evaluation is on when `eval_step > 0` and there is validation data. */
  predicate EvalOn(st: Settings, inp: FitInputs) { st.evalStep > 0 && inp.hasValid }

  /** The epochs at which `fit` evaluates. */
  predicate EvalDue(st: Settings, inp: FitInputs, e: int)
  {
    EvalOn(st, inp) && PyMod(e + 1, st.evalStep) == 0
  }

  /** The train-loss value `fit` records: the total, or the sum of a tuple. */
  function RecordedLoss(t: Total): Float
  {
    match t
    case ScalarTotal(x) => x
    case TupleTotal(xs) => Sum(xs)
  }

  /** The state after training epoch `e` to the total `t`, before evaluation. */
  function Trained(inp: FitInputs, s: FitState, e: int, t: Total): FitState
  {
    s.(lossDict := s.lossDict[e := RecordedLoss(t)], params := inp.paramsAfter(e),
       optState := inp.optAfter(e), trained := s.trained + [e])
  }

  /** The evaluation branch of `fit` at a due epoch: `early_stopping` returns
      the new best score and step counter and the stop and update flags. */
  function Evaluated(st: Settings, inp: FitInputs, s: FitState, e: int): (FitState, bool)
  {
    var v := inp.validate(e);
    var es := inp.earlyStop(v.0, s.best, s.curStep, st.stoppingStep, st.bigger);
    var s2 := s.(best := es.0, curStep := es.1, evaluated := s.evaluated + [e]);
    var s3 := if es.3 then (if inp.saved then SaveRecord(st, s2, e) else s2).(bestResult := Some(v.1), updated := s2.updated + [e])
              else s2;
    (s3.(stopped := if es.2 then Some(e) else None), es.2)
  }

  /** One epoch of `fit`; the flag says whether training stops after it. */
  function EpochStep(st: Settings, inp: FitInputs, s: FitState, e: int): Result<(FitState, bool), FitError>
  {
    match RunEpoch(inp.batchesAt(e))
    case Err(err) => Err(Raised(err))
    case Ok(None) => Err(EmptyEpoch(e))
    case Ok(Some(t)) =>
      var s1 := Trained(inp, s, e, t);
      if !EvalOn(st, inp) then Ok((if inp.saved then SaveRecord(st, s1, e) else s1, false))
      else if !EvalDue(st, inp, e) then Ok((s1, false))
      else Ok(Evaluated(st, inp, s1, e))
  }

  /** What one epoch records: it is trained, evaluated when due, stops only
      after an evaluation, updates the best result only at an evaluation, and
      saves after the epoch when evaluation is off or at an update. */
  lemma EpochStepLog(st: Settings, inp: FitInputs, s: FitState, e: int)
    requires EpochStep(st, inp, s, e).Ok?
    ensures var (s1, stop) := EpochStep(st, inp, s, e).value;
      && s1.trained == s.trained + [e]
      && s1.evaluated == s.evaluated + (if EvalDue(st, inp, e) then [e] else [])
      && (stop ==> EvalDue(st, inp, e) && s1.stopped == Some(e))
      && (!stop ==> s1.stopped == (if EvalDue(st, inp, e) then None else s.stopped))
      && ((s1.updated == s.updated && s1.bestResult == s.bestResult)
          || (EvalDue(st, inp, e) && s1.updated == s.updated + [e] && s1.bestResult == Some(inp.validate(e).1)))
      && (!EvalOn(st, inp) ==> s1.updated == s.updated && s1.saves == s.saves + (if inp.saved then [e] else []))
      && (EvalOn(st, inp) ==> s1.saves == s.saves + (if inp.saved && s1.updated != s.updated then [e] else []))
      && (!EvalOn(st, inp) && inp.saved ==>
            st.savedModelFile in s1.files && s1.files[st.savedModelFile].Checkpoint?
            && s1.files[st.savedModelFile].epoch == e)
  {
  }

  /** The part of EpochStepLog about `best_valid_result`: an epoch either
      leaves it and the update log alone, or is a due evaluation that
      records an update with its own result. */
  lemma EpochUpdates(st: Settings, inp: FitInputs, s: FitState, e: int)
    requires EpochStep(st, inp, s, e).Ok?
    ensures var s1 := EpochStep(st, inp, s, e).value.0;
      && (s1.updated == s.updated ==> s1.bestResult == s.bestResult)
      && (s1.updated != s.updated ==>
            EvalDue(st, inp, e) && s1.updated == s.updated + [e] && s1.bestResult == Some(inp.validate(e).1))
  {
  }

  /** One step of the loop, whatever its outcome: an error ends it, a stop
      ends it with the epoch's state, and otherwise it goes on. */
  lemma FitLoopStep(st: Settings, inp: FitInputs, s: FitState, e: int)
    requires e < st.epochs
    ensures EpochStep(st, inp, s, e).Err? ==> FitLoop(st, inp, s, e) == Err(EpochStep(st, inp, s, e).error)
    ensures EpochStep(st, inp, s, e).Ok? && EpochStep(st, inp, s, e).value.1 ==>
      FitLoop(st, inp, s, e) == Ok(EpochStep(st, inp, s, e).value.0)
    ensures EpochStep(st, inp, s, e).Ok? && !EpochStep(st, inp, s, e).value.1 ==>
      FitLoop(st, inp, s, e) == FitLoop(st, inp, EpochStep(st, inp, s, e).value.0, e + 1)
  {
  }

  /** The part of EpochStepLog about the schedule: the epoch is trained,
      evaluated when due, and stops only at a due evaluation. */
  lemma EpochSchedule(st: Settings, inp: FitInputs, s: FitState, e: int)
    requires EpochStep(st, inp, s, e).Ok?
    ensures var (s1, stop) := EpochStep(st, inp, s, e).value;
      && s1.trained == s.trained + [e]
      && s1.evaluated == s.evaluated + (if EvalDue(st, inp, e) then [e] else [])
      && (stop ==> EvalDue(st, inp, e) && s1.stopped == Some(e))
      && (!stop ==> s1.stopped == (if EvalDue(st, inp, e) then None else s.stopped))
  {
  }

  /** The part of EpochStepLog about saving with evaluation on: a save
      happens exactly with an update. */
  lemma EpochSavesAtUpdate(st: Settings, inp: FitInputs, s: FitState, e: int)
    requires EpochStep(st, inp, s, e).Ok? && EvalOn(st, inp)
    ensures var s1 := EpochStep(st, inp, s, e).value.0;
      && (s1.updated == s.updated || s1.updated == s.updated + [e])
      && s1.saves == s.saves + (if inp.saved && s1.updated != s.updated then [e] else [])
  {
  }

  /** An epoch's update log extends the old one, by its own epoch at most. */
  lemma EpochUpdatesPrefix(st: Settings, inp: FitInputs, s: FitState, e: int)
    requires EpochStep(st, inp, s, e).Ok?
    ensures var s1 := EpochStep(st, inp, s, e).value.0;
      && |s.updated| <= |s1.updated| && s1.updated[..|s.updated|] == s.updated
      && s1.updated[|s.updated|..] == (if s1.updated == s.updated then [] else [e])
  {
    EpochUpdates(st, inp, s, e);
    var s1 := EpochStep(st, inp, s, e).value.0;
    if s1.updated != s.updated {
      assert s1.updated == s.updated + [e];
      assert s1.updated[..|s.updated|] == s.updated;
    }
  }

  /** The epoch loop of `fit` from epoch `e` on. */
  function FitLoop(st: Settings, inp: FitInputs, s: FitState, e: int): Result<FitState, FitError>
    decreases st.epochs - e
  {
    if e >= st.epochs then Ok(s)
    else match EpochStep(st, inp, s, e)
      case Err(err) => Err(err)
      case Ok((s1, stop)) => if stop then Ok(s1) else FitLoop(st, inp, s1, e + 1)
  }

  /** `fit` as a whole, started at `start_epoch`. */
  function FitSpec(st: Settings, inp: FitInputs, s: FitState, start: int): Result<FitState, FitError>
  {
    FitLoop(st, inp, if inp.saved && start >= st.epochs then SaveRecord(st, s, -1) else s, start)
  }

  // ---------------------------------------------------------------------
  // What `fit` promises.

  /** One step of the loop: a successful run started below `epochs` runs
      epoch `e`, then ends if it stopped and goes on otherwise. */
  lemma FitLoopUnfold(st: Settings, inp: FitInputs, s: FitState, e: int)
    requires e < st.epochs && FitLoop(st, inp, s, e).Ok?
    ensures EpochStep(st, inp, s, e).Ok?
    ensures var (s1, stop) := EpochStep(st, inp, s, e).value;
      FitLoop(st, inp, s, e) == if stop then Ok(s1) else FitLoop(st, inp, s1, e + 1)
  {
  }

  function Range(a: int, b: int): (r: seq<int>)
    ensures |r| == if a <= b then b - a else 0
    ensures forall i :: 0 <= i < |r| ==> r[i] == a + i
    decreases b - a
  {
    if a >= b then [] else [a] + Range(a + 1, b)
  }

  /** The epochs of `a .. b-1` at which evaluation is due, in order. */
  function DueIn(st: Settings, inp: FitInputs, a: int, b: int): seq<int>
    decreases b - a
  {
    if a >= b then [] else (if EvalDue(st, inp, a) then [a] else []) + DueIn(st, inp, a + 1, b)
  }

  /** Where the loop ends: one past the stopping epoch, or `epochs`. */
  function EndEpoch(st: Settings, e: int, sf: FitState): int
  {
    if sf.stopped.Some? then sf.stopped.value + 1 else if e <= st.epochs then st.epochs else e
  }

  /** `fit` trains the consecutive epochs `start .. end-1`, evaluates exactly
      at the due ones among them, and, if it stopped early, stopped right
      after an evaluation at the last trained epoch. */
  lemma {:induction false} FitEpochSchedule(st: Settings, inp: FitInputs, s: FitState, e: int)
    requires s.stopped.None?
    requires FitLoop(st, inp, s, e).Ok?
    ensures var sf := FitLoop(st, inp, s, e).value;
      && sf.trained == s.trained + Range(e, EndEpoch(st, e, sf))
      && sf.evaluated == s.evaluated + DueIn(st, inp, e, EndEpoch(st, e, sf))
      && (sf.stopped.Some? ==> e <= sf.stopped.value < st.epochs && EvalDue(st, inp, sf.stopped.value))
    decreases st.epochs - e
  {
    if e >= st.epochs {
      assert Range(e, EndEpoch(st, e, s)) == [];
      assert DueIn(st, inp, e, EndEpoch(st, e, s)) == [];
    } else {
      FitLoopUnfold(st, inp, s, e);
      var (s1, stop) := EpochStep(st, inp, s, e).value;
      EpochSchedule(st, inp, s, e);
      if stop {
        assert EndEpoch(st, e, s1) == e + 1;
        assert Range(e, e + 1) == [e];
        assert DueIn(st, inp, e, e + 1) == [e];
      } else {
        FitEpochSchedule(st, inp, s1, e + 1);
        var sf := FitLoop(st, inp, s1, e + 1).value;
        var end := EndEpoch(st, e + 1, sf);
        assert EndEpoch(st, e, sf) == end && end > e;
        assert Range(e, end) == [e] + Range(e + 1, end);
        var due := if EvalDue(st, inp, e) then [e] else [];
        assert DueIn(st, inp, e, end) == due + DueIn(st, inp, e + 1, end);
        AppendAssoc(s.evaluated, due, DueIn(st, inp, e + 1, end));
        AppendAssoc(s.trained, [e], Range(e + 1, end));
      }
    }
  }

  /** With evaluation off (`eval_step <= 0` or no validation data) and
      `saved`, `fit` never stops early and saves a checkpoint after every
      trained epoch, the last one holding that epoch. */
  lemma {:induction false} FitSavesEveryEpochWhenEvalOff(st: Settings, inp: FitInputs, s: FitState, e: int)
    requires !EvalOn(st, inp) && inp.saved && s.stopped.None?
    requires FitLoop(st, inp, s, e).Ok?
    ensures var sf := FitLoop(st, inp, s, e).value;
      && sf.stopped.None?
      && sf.saves == s.saves + Range(e, st.epochs)
      && sf.evaluated == s.evaluated
      && (e < st.epochs ==> st.savedModelFile in sf.files && sf.files[st.savedModelFile].Checkpoint? && sf.files[st.savedModelFile].epoch == st.epochs - 1)
    decreases st.epochs - e
  {
    if e < st.epochs {
      FitLoopUnfold(st, inp, s, e);
      var (s1, stop) := EpochStep(st, inp, s, e).value;
      EpochStepLog(st, inp, s, e);
      FitSavesEveryEpochWhenEvalOff(st, inp, s1, e + 1);
      assert Range(e, st.epochs) == [e] + Range(e + 1, st.epochs);
      AppendAssoc(s.saves, [e], Range(e + 1, st.epochs));
    }
  }

  /** `best_valid_result` changes only at an evaluation whose update flag is
      set: it is the result of the last such evaluation, or unchanged if there
      was none. */
  lemma {:induction false} FitBestResultFollowsUpdates(st: Settings, inp: FitInputs, s: FitState, e: int)
    requires s.stopped.None? && EvalOn(st, inp)
    requires FitLoop(st, inp, s, e).Ok?
    ensures var sf := FitLoop(st, inp, s, e).value;
      && |sf.updated| >= |s.updated| && sf.updated[..|s.updated|] == s.updated
      && (sf.updated == s.updated ==> sf.bestResult == s.bestResult)
      && (sf.updated != s.updated ==> sf.bestResult == Some(inp.validate(sf.updated[|sf.updated| - 1]).1))
    decreases st.epochs - e
  {
    if e < st.epochs {
      FitLoopUnfold(st, inp, s, e);
      var s1 := EpochStep(st, inp, s, e).value.0;
      EpochUpdates(st, inp, s, e);
      EpochUpdatesPrefix(st, inp, s, e);
      var sf := FitLoop(st, inp, s, e).value;
      if EpochStep(st, inp, s, e).value.1 {
        assert sf == s1;
        if s1.updated != s.updated {
          assert s1.updated[|s1.updated| - 1] == e;
        }
      } else {
        FitBestResultFollowsUpdates(st, inp, s1, e + 1);
        assert sf == FitLoop(st, inp, s1, e + 1).value;
        PrefixStep(s.updated, s1.updated, sf.updated);
        if sf.updated != s1.updated {
          assert |sf.updated| > |s1.updated| >= |s.updated|;
        } else if s1.updated != s.updated {
          assert sf.updated[|sf.updated| - 1] == e;
          assert sf.bestResult == s1.bestResult;
        } else {
          assert sf.bestResult == s1.bestResult;
        }
      }
    }
  }

  /** Every update `fit` records happens at an epoch where evaluation is
      due. */
  lemma {:induction false} FitUpdatesAreDue(st: Settings, inp: FitInputs, s: FitState, e: int)
    requires s.stopped.None? && EvalOn(st, inp)
    requires FitLoop(st, inp, s, e).Ok?
    ensures var sf := FitLoop(st, inp, s, e).value;
      && |sf.updated| >= |s.updated| && sf.updated[..|s.updated|] == s.updated
      && (forall i :: |s.updated| <= i < |sf.updated| ==> EvalDue(st, inp, sf.updated[i]))
    decreases st.epochs - e
  {
    if e < st.epochs {
      FitLoopUnfold(st, inp, s, e);
      var s1 := EpochStep(st, inp, s, e).value.0;
      EpochUpdates(st, inp, s, e);
      EpochUpdatesPrefix(st, inp, s, e);
      if EpochStep(st, inp, s, e).value.1 {
        assert FitLoop(st, inp, s, e).value == s1;
      } else {
        FitUpdatesAreDue(st, inp, s1, e + 1);
        var sf := FitLoop(st, inp, s1, e + 1).value;
        assert FitLoop(st, inp, s, e).value == sf;
        PrefixStep(s.updated, s1.updated, sf.updated);
        forall i | |s.updated| <= i < |sf.updated|
          ensures EvalDue(st, inp, sf.updated[i])
        {
          if i < |s1.updated| {
            assert sf.updated[i] == s1.updated[i] == e;
          }
        }
      }
    }
  }

  /** Growing a list twice: the second growth extends the first. */
  lemma PrefixStep<T>(a: seq<T>, b: seq<T>, c: seq<T>)
    requires |a| <= |b| <= |c| && b[..|a|] == a && c[..|b|] == b
    ensures c[..|a|] == a && c[|a|..] == b[|a|..] + c[|b|..]
  {
    assert c[..|a|] == c[..|b|][..|a|];
    assert c[|a|..] == c[|a|..|b|] + c[|b|..];
  }

  /** With evaluation on, `fit` saves a checkpoint exactly at the updates
      (and never when `saved` is off). */
  lemma {:induction false} FitSavesAtUpdates(st: Settings, inp: FitInputs, s: FitState, e: int)
    requires s.stopped.None? && EvalOn(st, inp)
    requires FitLoop(st, inp, s, e).Ok?
    ensures var sf := FitLoop(st, inp, s, e).value;
      && |sf.updated| >= |s.updated| && sf.updated[..|s.updated|] == s.updated
      && (inp.saved ==> sf.saves == s.saves + sf.updated[|s.updated|..])
      && (!inp.saved ==> sf.saves == s.saves)
    decreases st.epochs - e
  {
    if e < st.epochs {
      FitLoopUnfold(st, inp, s, e);
      var (s1, stop) := EpochStep(st, inp, s, e).value;
      EpochSavesAtUpdate(st, inp, s, e);
      EpochUpdatesPrefix(st, inp, s, e);
      if !stop {
        FitSavesAtUpdates(st, inp, s1, e + 1);
        var sf := FitLoop(st, inp, s1, e + 1).value;
        PrefixStep(s.updated, s1.updated, sf.updated);
        if inp.saved {
          var mine := s1.updated[|s.updated|..];
          assert s1.saves == s.saves + mine;
          AppendAssoc(s.saves, mine, sf.updated[|s1.updated|..]);
        }
      }
    }
  }

  // ---------------------------------------------------------------------
  // PretrainTrainer.pretrain

  /** `'{}-{}-{}.pth'.format(model, dataset, str(epoch_idx + 1))` under the
      checkpoint directory. */
  function PretrainFileName(cfg: Config, n: int): string
  {
    PathJoin(cfg.checkpointDir, cfg.model + "-" + cfg.dataset + "-" + IntToString(n) + ".pth")
  }

  /** The pretraining loop from epoch `e` to `pretrain_epochs - 1`: every
      epoch trains; an epoch whose number plus one is a multiple of
      `save_step` saves a pretrain snapshot. */
  function PretrainLoop(cfg: Config, inp: FitInputs, s: FitState, e: int): Result<FitState, FitError>
    decreases cfg.pretrainEpochs - e
  {
    if e >= cfg.pretrainEpochs then Ok(s)
    else match RunEpoch(inp.batchesAt(e))
      case Err(err) => Err(Raised(err))
      case Ok(None) => Err(EmptyEpoch(e))
      case Ok(Some(t)) =>
        if cfg.saveStep == 0 then Err(Raised(ZeroDivision))
        else PretrainLoop(cfg, inp, PretrainEpoch(cfg, inp, s, e, t), e + 1)
  }

  /** A trained pretraining epoch hands its state to the rest of the loop. */
  lemma PretrainLoopUnfold(cfg: Config, inp: FitInputs, s: FitState, e: int, t: Total)
    requires e < cfg.pretrainEpochs && cfg.saveStep != 0 && RunEpoch(inp.batchesAt(e)) == Ok(Some(t))
    ensures PretrainLoop(cfg, inp, s, e) == PretrainLoop(cfg, inp, PretrainEpoch(cfg, inp, s, e, t), e + 1)
  {
  }

  /** One trained pretraining epoch, with `save_pretrained_model` when due. */
  function PretrainEpoch(cfg: Config, inp: FitInputs, s: FitState, e: int, t: Total): FitState
    requires cfg.saveStep != 0
  {
    var s1 := Trained(inp, s, e, t);
    if PyMod(e + 1, cfg.saveStep) == 0 then
      s1.(files := s1.files[PretrainFileName(cfg, e + 1) := PretrainSnapshot(cfg, e, s1.params, s1.optState, s1.other)],
          saves := s1.saves + [e])
    else s1
  }

  /** A pretraining epoch logs itself as trained, logs a save when due, and
      leaves the best score, best result and step counter alone. */
  lemma PretrainEpochLog(cfg: Config, inp: FitInputs, s: FitState, e: int, t: Total)
    requires cfg.saveStep != 0
    ensures var s1 := PretrainEpoch(cfg, inp, s, e, t);
      && s1.saves == s.saves + (if PyMod(e + 1, cfg.saveStep) == 0 then [e] else [])
      && s1.trained == s.trained + [e]
      && s1.best == s.best && s1.bestResult == s.bestResult && s1.curStep == s.curStep
  {
  }

  /** The epochs of `a .. b-1` whose successor is a multiple of `step`. */
  function SaveDueIn(step: int, a: int, b: int): seq<int>
    requires step != 0
    decreases b - a
  {
    if a >= b then [] else (if PyMod(a + 1, step) == 0 then [a] else []) + SaveDueIn(step, a + 1, b)
  }

  /** Pretraining saves at exactly the epochs `e` with `(e + 1) % save_step ==
      0`, never touches the best score or result, and trains every epoch. */
  lemma {:induction false} PretrainSaveSchedule(cfg: Config, inp: FitInputs, s: FitState, e: int)
    requires cfg.saveStep != 0
    requires PretrainLoop(cfg, inp, s, e).Ok?
    ensures var sf := PretrainLoop(cfg, inp, s, e).value;
      && sf.saves == s.saves + SaveDueIn(cfg.saveStep, e, cfg.pretrainEpochs)
      && sf.trained == s.trained + Range(e, cfg.pretrainEpochs)
      && sf.best == s.best && sf.bestResult == s.bestResult && sf.curStep == s.curStep
    decreases cfg.pretrainEpochs - e
  {
    if e < cfg.pretrainEpochs {
      var t := RunEpoch(inp.batchesAt(e)).value.value;
      var s1 := PretrainEpoch(cfg, inp, s, e, t);
      PretrainLoopUnfold(cfg, inp, s, e, t);
      PretrainSaveSchedule(cfg, inp, s1, e + 1);
      assert Range(e, cfg.pretrainEpochs) == [e] + Range(e + 1, cfg.pretrainEpochs);
      var due := if PyMod(e + 1, cfg.saveStep) == 0 then [e] else [];
      PretrainEpochLog(cfg, inp, s, e, t);
      AppendAssoc(s.saves, due, SaveDueIn(cfg.saveStep, e + 1, cfg.pretrainEpochs));
      AppendAssoc(s.trained, [e], Range(e + 1, cfg.pretrainEpochs));
    }
  }

  /** S3Rec and RaCT trainers: which loop `fit` runs for a training stage. */
  datatype Stage = RunPretrain | RunFit | StageError

  function S3RecStage(stage: string): (r: Stage)
    ensures r == RunPretrain <==> stage == "pretrain"
    ensures r == RunFit <==> stage == "finetune"
  {
    if stage == "pretrain" then RunPretrain else if stage == "finetune" then RunFit else StageError
  }

  function RaCTStage(stage: string): (r: Stage)
    ensures r == RunPretrain <==> stage == "actor_pretrain" || stage == "critic_pretrain"
    ensures r == RunFit <==> stage == "finetune"
  {
    if stage == "actor_pretrain" then RunPretrain
    else if stage == "critic_pretrain" then RunPretrain
    else if stage == "finetune" then RunFit
    else StageError
  }

  // ---------------------------------------------------------------------
  // The trainer object.

  /** POSIX `os.path.join(dir, name)`: an absolute `name` replaces `dir`;
      otherwise one '/' separates the two, unless `dir` is empty or already
      ends in one. */
  function PathJoin(dir: string, name: string): string
  {
    if |name| > 0 && name[0] == '/' then name
    else if dir == "" || dir[|dir| - 1] == '/' then dir + name
    else dir + "/" + name
  }

  /** The joined path starts with the directory and ends with the name,
      with a '/' between them when the directory is not empty. */
  lemma PathJoinParts(dir: string, name: string)
    ensures var r := PathJoin(dir, name);
      && (|name| > 0 && name[0] == '/' ==> r == name)
      && (!(|name| > 0 && name[0] == '/') ==>
            && |dir| + |name| <= |r| <= |dir| + |name| + 1
            && r[..|dir|] == dir && r[|r| - |name|..] == name
            && (dir != "" ==> r[|r| - |name| - 1] == '/'))
  {
  }

  /** `'{}-{}.pth'.format(model, dataset)` under the checkpoint directory. */
  function SavedModelFile(cfg: Config): string
  {
    PathJoin(cfg.checkpointDir, cfg.model + "-" + cfg.dataset + ".pth")
  }

  /** The files `torch.save` writes and `torch.load` reads. */
  class Disk {
    var files: map<string, Checkpoint>

    constructor ()
      ensures files == map[]
    {
      files := map[];
    }
  }

  datatype ResumeError = FileNotFound(path: string) | MissingKey(path: string)

  class Trainer {
    const config: Config
    const epochs: int
    const evalStep: int
    const stoppingStep: int
    const bigger: bool
    const testBatchSize: int
    const optimizer: Optimizer
    var savedModelFile: string
    var startEpoch: int
    var curStep: int
    var bestValidScore: Float
    var bestValidResult: Option<EvalResult>
    var trainLossDict: map<int, Float>
    var modelParams: Params
    var otherParameter: Params
    var optimizerState: Params
    // What has happened so far, for the specification of `fit`.
    ghost var trainedLog: seq<int>
    ghost var evaluatedLog: seq<int>
    ghost var updatedLog: seq<int>
    ghost var savesLog: seq<int>
    ghost var stoppedAt: Option<int>

    function Setup(): Settings
      reads this
    {
      Settings(config, epochs, evalStep, stoppingStep, bigger, savedModelFile)
    }

    ghost function State(disk: Disk): FitState
      reads this, disk
    {
      FitState(curStep, bestValidScore, bestValidResult, trainLossDict, modelParams, otherParameter,
               optimizerState, disk.files, trainedLog, evaluatedLog, updatedLog, savesLog, stoppedAt)
    }

    /** `Trainer.__init__`: `eval_step` is clamped to `epochs`; the best score
        starts at the worst value for the metric's direction. */
    constructor (cfg: Config, params: Params, other: Params)
      ensures config == cfg && epochs == cfg.epochs
      ensures evalStep == (if cfg.evalStep < cfg.epochs then cfg.evalStep else cfg.epochs)
      ensures stoppingStep == cfg.stoppingStep && bigger == cfg.validMetricBigger
      ensures testBatchSize == cfg.evalBatchSize
      ensures optimizer == BuildOptimizer(cfg.learner, cfg.learningRate, cfg.weightDecay, cfg.regWeight).0
      ensures savedModelFile == SavedModelFile(cfg)
      ensures startEpoch == 0 && curStep == 0 && bestValidResult.None? && trainLossDict == map[]
      ensures bestValidScore == if cfg.validMetricBigger then NegInf else PosInf
      ensures modelParams == params && otherParameter == other && optimizerState == []
      ensures trainedLog == [] && evaluatedLog == [] && updatedLog == [] && savesLog == [] && stoppedAt.None?
    {
      config := cfg;
      epochs := cfg.epochs;
      evalStep := if cfg.evalStep < cfg.epochs then cfg.evalStep else cfg.epochs;
      stoppingStep := cfg.stoppingStep;
      bigger := cfg.validMetricBigger;
      testBatchSize := cfg.evalBatchSize;
      optimizer := BuildOptimizer(cfg.learner, cfg.learningRate, cfg.weightDecay, cfg.regWeight).0;
      savedModelFile := SavedModelFile(cfg);
      startEpoch, curStep := 0, 0;
      bestValidScore := if cfg.validMetricBigger then NegInf else PosInf;
      bestValidResult := None;
      trainLossDict := map[];
      modelParams, otherParameter, optimizerState := params, other, [];
      trainedLog, evaluatedLog, updatedLog, savesLog, stoppedAt := [], [], [], [], None;
    }

    /** `TraditionalTrainer.__init__`: the base initialisation, then `epochs`
        forced to 1. `eval_step` keeps the value clamped against the
        configured epochs. */
    constructor Traditional(cfg: Config, params: Params, other: Params)
      ensures config == cfg && epochs == 1
      ensures evalStep == (if cfg.evalStep < cfg.epochs then cfg.evalStep else cfg.epochs)
      ensures stoppingStep == cfg.stoppingStep && bigger == cfg.validMetricBigger
      ensures testBatchSize == cfg.evalBatchSize
      ensures optimizer == BuildOptimizer(cfg.learner, cfg.learningRate, cfg.weightDecay, cfg.regWeight).0
      ensures savedModelFile == SavedModelFile(cfg)
      ensures startEpoch == 0 && curStep == 0 && bestValidResult.None? && trainLossDict == map[]
      ensures bestValidScore == if cfg.validMetricBigger then NegInf else PosInf
      ensures modelParams == params && otherParameter == other && optimizerState == []
      ensures trainedLog == [] && evaluatedLog == [] && updatedLog == [] && savesLog == [] && stoppedAt.None?
    {
      config := cfg;
      evalStep := if cfg.evalStep < cfg.epochs then cfg.evalStep else cfg.epochs;
      epochs := 1;
      stoppingStep := cfg.stoppingStep;
      bigger := cfg.validMetricBigger;
      testBatchSize := cfg.evalBatchSize;
      optimizer := BuildOptimizer(cfg.learner, cfg.learningRate, cfg.weightDecay, cfg.regWeight).0;
      savedModelFile := SavedModelFile(cfg);
      startEpoch, curStep := 0, 0;
      bestValidScore := if cfg.validMetricBigger then NegInf else PosInf;
      bestValidResult := None;
      trainLossDict := map[];
      modelParams, otherParameter, optimizerState := params, other, [];
      trainedLog, evaluatedLog, updatedLog, savesLog, stoppedAt := [], [], [], [], None;
    }

    /** `_save_checkpoint(epoch)`: writes the record to `saved_model_file`. */
    method SaveCheckpoint(disk: Disk, epoch: int)
      modifies disk, this`savesLog
      ensures State(disk) == SaveRecord(Setup(), old(State(disk)), epoch)
    {
      disk.files := disk.files[savedModelFile :=
        Checkpoint(config, epoch, curStep, bestValidScore, modelParams, otherParameter, optimizerState)];
      savesLog := savesLog + [epoch];
    }

    /** `resume_checkpoint(resume_file)`: the path is adopted before loading;
        a missing file or a pretrain snapshot (no `cur_step`) raises; otherwise
        training resumes after the saved epoch with the saved counters, score
        and parameters. The result is whether the model-name warning fired. */
    method ResumeCheckpoint(disk: Disk, file: string) returns (r: Result<bool, ResumeError>)
      modifies this`savedModelFile, this`startEpoch, this`curStep, this`bestValidScore,
               this`modelParams, this`otherParameter, this`optimizerState
      ensures savedModelFile == file
      ensures file !in disk.files ==> r == Err(FileNotFound(file))
      ensures file in disk.files && disk.files[file].PretrainSnapshot? ==>
        && r == Err(MissingKey(file))
        && startEpoch == disk.files[file].epoch + 1
      ensures file !in disk.files ==> startEpoch == old(startEpoch)
      ensures r.Err? ==>
        curStep == old(curStep) && bestValidScore == old(bestValidScore)
        && modelParams == old(modelParams) && otherParameter == old(otherParameter)
        && optimizerState == old(optimizerState)
      ensures file in disk.files && disk.files[file].Checkpoint? ==>
        var ck := disk.files[file];
        && r == Ok(Lower(ck.config.model) != Lower(config.model))
        && startEpoch == ck.epoch + 1 && curStep == ck.curStep && bestValidScore == ck.bestValidScore
        && modelParams == ck.stateDict && otherParameter == ck.otherParameter && optimizerState == ck.optimizer
    {
      savedModelFile := file;
      if file !in disk.files {
        return Err(FileNotFound(file));
      }
      var ck := disk.files[file];
      startEpoch := ck.epoch + 1;
      if ck.PretrainSnapshot? {
        // A pretraining snapshot has no 'cur_step': the KeyError comes after `start_epoch` is set.
        return Err(MissingKey(file));
      }
      curStep := ck.curStep;
      bestValidScore := ck.bestValidScore;
      var warned := Lower(ck.config.model) != Lower(config.model);
      modelParams := ck.stateDict;
      otherParameter := ck.otherParameter;
      optimizerState := ck.optimizer;
      return Ok(warned);
    }

    /** `fit`: the epoch loop, proved to compute FitSpec. */
    method Fit(disk: Disk, inp: FitInputs) returns (r: Result<(Float, Option<EvalResult>), FitError>)
      requires stoppedAt.None?
      modifies this`trainLossDict, this`modelParams, this`optimizerState, this`trainedLog,
               this`bestValidScore, this`curStep, this`bestValidResult, this`evaluatedLog,
               this`updatedLog, this`savesLog, this`stoppedAt, disk
      ensures savedModelFile == old(savedModelFile) && startEpoch == old(startEpoch)
      ensures var spec := FitSpec(old(Setup()), inp, old(State(disk)), old(startEpoch));
        && (r.Ok? <==> spec.Ok?)
        && (r.Err? ==> r.error == spec.error)
        && (r.Ok? ==> State(disk) == spec.value && r.value == (bestValidScore, bestValidResult))
    {
      ghost var st := Setup();
      if inp.saved && startEpoch >= epochs {
        SaveCheckpoint(disk, -1);
      }
      ghost var goal := FitLoop(st, inp, State(disk), startEpoch);
      assert goal == FitSpec(st, inp, old(State(disk)), startEpoch);
      var e := startEpoch;
      while e < epochs
        invariant Setup() == st && savedModelFile == old(savedModelFile) && startEpoch == old(startEpoch)
        invariant stoppedAt.None?
        invariant FitLoop(st, inp, State(disk), e) == goal
        decreases epochs - e
      {
        ghost var s0 := State(disk);
        FitLoopStep(st, inp, s0, e);
        var step := FitEpoch(disk, inp, e);
        if step.Err? {
          return Err(step.error);
        }
        if step.value {
          return Ok((bestValidScore, bestValidResult));
        }
        e := e + 1;
      }
      return Ok((bestValidScore, bestValidResult));
    }

    /** One pass of the body of `fit`'s loop: train epoch `e`, then save or
        evaluate; the result says whether training stops. */
    method FitEpoch(disk: Disk, inp: FitInputs, e: int) returns (r: Result<bool, FitError>)
      requires stoppedAt.None?
      modifies this`trainLossDict, this`modelParams, this`optimizerState, this`trainedLog,
               this`bestValidScore, this`curStep, this`bestValidResult, this`evaluatedLog,
               this`updatedLog, this`savesLog, this`stoppedAt, disk
      ensures savedModelFile == old(savedModelFile) && startEpoch == old(startEpoch)
      ensures r.Ok? && !r.value ==> stoppedAt.None?
      ensures match EpochStep(old(Setup()), inp, old(State(disk)), e)
        case Err(err) => r == Err(err)
        case Ok((s1, stop)) => r == Ok(stop) && State(disk) == s1
    {
      var res, _ := TrainEpoch.TrainEpoch(inp.batchesAt(e));
      if res.Err? {
        return Err(Raised(res.error));
      }
      if res.value.None? {
        return Err(EmptyEpoch(e));
      }
      RecordTrained(disk, inp, e, res.value.value);
      if evalStep <= 0 || !inp.hasValid {
        if inp.saved {
          SaveCheckpoint(disk, e);
        }
        return Ok(false);
      }
      if PyMod(e + 1, evalStep) == 0 {
        var stop := Validate(disk, inp, e);
        return Ok(stop);
      }
      return Ok(false);
    }

    /** A trained epoch: `train_loss_dict[epoch]` is the recorded loss and
        the model and optimizer have stepped. */
    method RecordTrained(disk: Disk, inp: FitInputs, e: int, t: Total)
      modifies this`trainLossDict, this`modelParams, this`optimizerState, this`trainedLog
      ensures State(disk) == Trained(inp, old(State(disk)), e, t)
    {
      trainLossDict := trainLossDict[e := RecordedLoss(t)];
      modelParams := inp.paramsAfter(e);
      optimizerState := inp.optAfter(e);
      trainedLog := trainedLog + [e];
    }

    /** The evaluation branch of `fit`'s loop at a due epoch. */
    method Validate(disk: Disk, inp: FitInputs, e: int) returns (stop: bool)
      modifies this`bestValidScore, this`curStep, this`bestValidResult, this`evaluatedLog,
               this`updatedLog, this`savesLog, this`stoppedAt, disk
      ensures savedModelFile == old(savedModelFile) && startEpoch == old(startEpoch)
      ensures (State(disk), stop) == Evaluated(old(Setup()), inp, old(State(disk)), e)
    {
      var v := inp.validate(e);
      var es := inp.earlyStop(v.0, bestValidScore, curStep, stoppingStep, bigger);
      ghost var s2 := old(State(disk)).(best := es.0, curStep := es.1, evaluated := old(State(disk)).evaluated + [e]);
      bestValidScore, curStep := es.0, es.1;
      evaluatedLog := evaluatedLog + [e];
      assert State(disk) == s2;
      if es.3 {
        RecordUpdate(disk, inp, e, v.1);
      }
      stop := es.2;
      stoppedAt := if stop then Some(e) else None;
    }

    /** An improved validation score: save when `saved`, then keep the
        result as the best one. */
    method RecordUpdate(disk: Disk, inp: FitInputs, e: int, result: EvalResult)
      modifies this`bestValidResult, this`updatedLog, this`savesLog, disk
      ensures var s := old(State(disk));
        State(disk) == (if inp.saved then SaveRecord(Setup(), s, e) else s).(bestResult := Some(result), updated := s.updated + [e])
    {
      if inp.saved {
        SaveCheckpoint(disk, e);
      }
      bestValidResult := Some(result);
      updatedLog := updatedLog + [e];
    }

    /** `PretrainTrainer.pretrain`: the pretraining loop, proved to compute
        PretrainLoop; it returns the (unchanged) best score and result. */
    method Pretrain(disk: Disk, inp: FitInputs) returns (r: Result<(Float, Option<EvalResult>), FitError>)
      modifies this`trainLossDict, this`modelParams, this`optimizerState, this`trainedLog, this`savesLog, disk
      ensures var spec := PretrainLoop(config, inp, old(State(disk)), old(startEpoch));
        && (r.Ok? <==> spec.Ok?)
        && (r.Err? ==> r.error == spec.error)
        && (r.Ok? ==> State(disk) == spec.value && r.value == (bestValidScore, bestValidResult))
    {
      ghost var goal := PretrainLoop(config, inp, State(disk), startEpoch);
      var e := startEpoch;
      while e < config.pretrainEpochs
        invariant PretrainLoop(config, inp, State(disk), e) == goal
        decreases config.pretrainEpochs - e
      {
        var res, _ := TrainEpoch.TrainEpoch(inp.batchesAt(e));
        if res.Err? {
          return Err(Raised(res.error));
        }
        if res.value.None? {
          return Err(EmptyEpoch(e));
        }
        if config.saveStep == 0 {
          // The epoch has trained; `(epoch + 1) % save_step` then raises.
          return Err(Raised(ZeroDivision));
        }
        ghost var before := State(disk);
        PretrainEpochStep(disk, inp, e, res.value.value);
        PretrainLoopUnfold(config, inp, before, e, res.value.value);
        e := e + 1;
      }
      return Ok((bestValidScore, bestValidResult));
    }

    /** One trained pretraining epoch: record the loss and the stepped
        parameters, then `save_pretrained_model` when `(epoch + 1) %
        save_step == 0`. */
    method PretrainEpochStep(disk: Disk, inp: FitInputs, e: int, t: Total)
      requires config.saveStep != 0
      modifies this`trainLossDict, this`modelParams, this`optimizerState, this`trainedLog, this`savesLog, disk
      ensures State(disk) == PretrainEpoch(config, inp, old(State(disk)), e, t)
    {
      RecordTrained(disk, inp, e, t);
      if PyMod(e + 1, config.saveStep) == 0 {
        var name := PretrainFileName(config, e + 1);
        disk.files := disk.files[name := PretrainSnapshot(config, e, modelParams, optimizerState, otherParameter)];
        savesLog := savesLog + [e];
      }
    }
  }

  /** Saving at epoch `e` and resuming from the saved file restarts at `e + 1`
      with the saved step counter and best score (a client of the two
      methods). */
  method SaveThenResume(t: Trainer, disk: Disk, e: int) returns (warned: bool)
    modifies t, disk
    ensures t.startEpoch == e + 1
    ensures t.curStep == old(t.curStep) && t.bestValidScore == old(t.bestValidScore)
    ensures t.modelParams == old(t.modelParams) && t.optimizerState == old(t.optimizerState)
    ensures warned == false
  {
    t.SaveCheckpoint(disk, e);
    var r := t.ResumeCheckpoint(disk, t.savedModelFile);
    warned := r.value;
  }
}
