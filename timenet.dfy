/** The TimeNet object: its component-inclusion flag and the saved previous
    value, the per-mode component stackers, the forward entry point that reads
    both, one training step (progress, its forward pass, loss, optimiser and
    scheduler sequence, metrics' denormalisation), and denormalisation of the
    target. */
module Network {
  import opened Tensors
  import opened QuantileForecasts
  import opened Composition
  import opened Components
  import opened Loss

  /** A component stacker, reduced to the feature keys it can unstack. */
  datatype Stacker = Stacker(featureIndices: set<string>)

  /** The modes a stacker can be set for. */
  const Modes: seq<string> := ["train", "val", "test", "predict"]

  /** What one training step does, in order: optimiser and scheduler calls and log entries. */
  datatype Step =
    | ZeroGrad
    | Backward(loss: real)
    | OptimizerStep
    | SchedulerStep(epoch: Option<real>)   // None: stepped without an epoch
    | Log(name: string)
    | LogMetrics

  /** `current_epoch + batch_idx / train_steps_per_epoch` */
  function EpochFloat(currentEpoch: nat, batchIdx: nat, stepsPerEpoch: nat): real
    requires stepsPerEpoch > 0
  {
    currentEpoch as real + batchIdx as real / stepsPerEpoch as real
  }

  /** `train_progress`: the fraction of all epochs done. */
  function Progress(currentEpoch: nat, batchIdx: nat, stepsPerEpoch: nat, epochs: nat): real
    requires stepsPerEpoch > 0 && epochs > 0
  {
    EpochFloat(currentEpoch, batchIdx, stepsPerEpoch) / epochs as real
  }

  /** Within an epoch, the progress lies between that epoch's start and the
      next one's; during the configured epochs it lies in [0, 1). */
  lemma ProgressBounds(currentEpoch: nat, batchIdx: nat, stepsPerEpoch: nat, epochs: nat)
    requires stepsPerEpoch > 0 && epochs > 0 && batchIdx < stepsPerEpoch
    ensures currentEpoch as real / epochs as real <= Progress(currentEpoch, batchIdx, stepsPerEpoch, epochs)
    ensures Progress(currentEpoch, batchIdx, stepsPerEpoch, epochs) < (currentEpoch + 1) as real / epochs as real
    ensures currentEpoch < epochs ==> 0.0 <= Progress(currentEpoch, batchIdx, stepsPerEpoch, epochs) < 1.0
  {
    var e, n := currentEpoch as real, epochs as real;
    var f := batchIdx as real / stepsPerEpoch as real;
    assert 0.0 <= f < 1.0 by {
      assert batchIdx as real < stepsPerEpoch as real;
    }
    var x := EpochFloat(currentEpoch, batchIdx, stepsPerEpoch);
    assert e <= x < e + 1.0;
    DivideMonotone(e, x, n);
    DivideStrictMonotone(x, e + 1.0, n);
    if currentEpoch < epochs {
      assert e + 1.0 <= n;
      DivideMonotone(e + 1.0, n, n);
      assert n / n == 1.0;
    }
  }

  lemma DivideMonotone(x: real, y: real, n: real)
    requires n > 0.0 && x <= y
    ensures x / n <= y / n
  {
    assert y / n - x / n == (y - x) / n;
  }

  lemma DivideStrictMonotone(x: real, y: real, n: real)
    requires n > 0.0 && x < y
    ensures x / n < y / n
  {
    assert y / n - x / n == (y - x) / n;
  }

  /** zero_grad, backward, the optimiser step, then the scheduler step, with
      the fractional epoch unless the learning-rate finder runs. */
  function OptimizationTrace(loss: real, findingLr: bool, epochFloat: real): seq<Step> {
    [ZeroGrad, Backward(loss), OptimizerStep, SchedulerStep(if findingLr then None else Some(epochFloat))]
  }

  /** The log entries of a step: the finder's loss, or the metrics and values. */
  function LogTrace(findingLr: bool, metricsEnabled: bool): seq<Step> {
    (if findingLr then [Log("train_loss")] else [])
    + (if metricsEnabled && !findingLr then [LogMetrics, Log("Loss"), Log("RegLoss"), Log("LR")] else [])
  }

  /** What a successful training step appends: the optimisation calls, then the log entries. */
  function StepTrace(loss: real, findingLr: bool, metricsEnabled: bool, epochFloat: real): seq<Step> {
    OptimizationTrace(loss, findingLr, epochFloat) + LogTrace(findingLr, metricsEnabled)
  }

  /** The gradient is cleared before the backward pass, which precedes the
      single optimiser step, which precedes the single scheduler step; the
      scheduler gets the epoch exactly when the learning-rate finder is off,
      and the learning-rate finder's loss and the metrics are never both logged. */
  lemma StepTraceOrder(loss: real, findingLr: bool, metricsEnabled: bool, epochFloat: real)
    ensures var t := StepTrace(loss, findingLr, metricsEnabled, epochFloat);
      && t[0] == ZeroGrad && t[1] == Backward(loss) && t[2] == OptimizerStep && t[3].SchedulerStep?
      && (forall i | 4 <= i < |t| :: t[i].Log? || t[i].LogMetrics?)
      && (t[3].epoch.Some? <==> !findingLr)
      && (Log("train_loss") in t <==> findingLr)
      && (LogMetrics in t <==> metricsEnabled && !findingLr)
  {
    var t := StepTrace(loss, findingLr, metricsEnabled, epochFloat);
    assert Log("train_loss") in t ==> findingLr by {
      if !findingLr {
        forall i | 0 <= i < |t| ensures t[i] != Log("train_loss") {
        }
      }
    }
    assert LogMetrics in t ==> metricsEnabled && !findingLr by {
      if !(metricsEnabled && !findingLr) {
        forall i | 0 <= i < |t| ensures t[i] != LogMetrics {
        }
      }
    }
  }

  /** `denormalize` reads the global normalisation of the target "y". */
  datatype ShiftScale = ShiftScale(shift: real, scale: real)

  datatype NormalizationConfig = NormalizationConfig(
    globalNormalization: bool,
    normalize: string,
    globalDataParams: map<string, ShiftScale>)

  /** `denormalize` looks up the target's parameters, and they are missing. */
  predicate MissingTarget(config: NormalizationConfig) {
    config.globalNormalization && config.normalize != "off" && "y" !in config.globalDataParams
  }

  /** `denormalize(ts)`: with global normalisation, scale then shift, using
      scale 1 and shift 0 when normalisation is off; otherwise unchanged. */
  function Denormalize(config: NormalizationConfig, ts: seq<real>): (r: Result<seq<real>>)
    ensures r.Err? <==> MissingTarget(config)
    ensures r.Err? ==> r.error == KeyError("y")
    ensures r.Ok? ==> |r.value| == |ts|
  {
    if !config.globalNormalization then Ok(ts)
    else if config.normalize == "off" then Ok(seq(|ts|, i requires 0 <= i < |ts| => 1.0 * ts[i] + 0.0))
    else if "y" !in config.globalDataParams then Err(KeyError("y"))
    else
      var p := config.globalDataParams["y"];
      Ok(seq(|ts|, i requires 0 <= i < |ts| => p.scale * ts[i] + p.shift))
  }

  /** The normalisation `denormalize` undoes. */
  function Normalize(p: ShiftScale, ts: seq<real>): (r: seq<real>)
    requires p.scale != 0.0
    ensures |r| == |ts|
  {
    seq(|ts|, i requires 0 <= i < |ts| => (ts[i] - p.shift) / p.scale)
  }

  /** Denormalising a normalised series gives the series back. */
  lemma DenormalizeNormalize(config: NormalizationConfig, ts: seq<real>)
    requires config.globalNormalization && config.normalize != "off" && "y" in config.globalDataParams
    requires config.globalDataParams["y"].scale != 0.0
    ensures Denormalize(config, Normalize(config.globalDataParams["y"], ts)) == Ok(ts)
  {
    var p := config.globalDataParams["y"];
    var n := Normalize(p, ts);
    var d := Denormalize(config, n).value;
    forall i | 0 <= i < |ts| ensures d[i] == ts[i] {
      assert d[i] == p.scale * ((ts[i] - p.shift) / p.scale) + p.shift;
      CancelScale(ts[i] - p.shift, p.scale);
    }
    assert d == ts;
  }

  lemma CancelScale(x: real, s: real)
    requires s != 0.0
    ensures s * (x / s) == x
  {
  }

  /** Without global normalisation, or with normalisation off, the series is unchanged. */
  lemma DenormalizeIdentity(config: NormalizationConfig, ts: seq<real>)
    requires !config.globalNormalization || config.normalize == "off"
    ensures Denormalize(config, ts) == Ok(ts)
  {
    if config.globalNormalization {
      var d := Denormalize(config, ts).value;
      assert forall i | 0 <= i < |ts| :: d[i] == ts[i];
      assert d == ts;
    }
  }

  /** `denormalize` of a (batch, step) tensor: the lookup fails whatever the
      values, otherwise every row is denormalised. */
  function DenormalizeMatrix(config: NormalizationConfig, ts: Matrix): (r: Result<Matrix>)
    ensures r.Err? <==> MissingTarget(config)
    ensures r.Err? ==> r.error == KeyError("y")
    ensures r.Ok? ==> |r.value| == |ts| && forall b | 0 <= b < |ts| :: Ok(r.value[b]) == Denormalize(config, ts[b])
  {
    if MissingTarget(config) then Err(KeyError("y"))
    else Ok(seq(|ts|, b requires 0 <= b < |ts| => Denormalize(config, ts[b]).value))
  }

  /** `predicted[:, :, 0]`: the median channel. */
  function Medians(p: Tensor3, nB: nat, nS: nat, nQ: nat): (r: Matrix)
    requires IsTensor3(p, nB, nS, nQ) && nQ >= 1
    ensures IsMatrix(r, nB, nS)
    ensures forall b, s | 0 <= b < nB && 0 <= s < nS :: r[b][s] == p[b][s][0]
  {
    seq(nB, b requires 0 <= b < nB => seq(nS, s requires 0 <= s < nS => p[b][s][0]))
  }

  /** The values held by a (batch, step, quantile) array. */
  function Values(a: array3<real>): (r: Tensor3)
    reads a
    ensures IsTensor3(r, a.Length0, a.Length1, a.Length2)
    ensures forall b, h | 0 <= b < a.Length0 && 0 <= h < a.Length1 :: r[b][h] == Row(a, b, h)
  {
    seq(a.Length0, b requires 0 <= b < a.Length0 reads a =>
      seq(a.Length1, h requires 0 <= h < a.Length1 reads a =>
        seq(a.Length2, q requires 0 <= q < a.Length2 reads a => a[b, h, q])))
  }

  /** The prediction `forward` returns in a mode: every row reconciled from the composition. */
  function Prediction(m: Model, x: Batch, arNet: seq<real> -> seq<real>, mode: string): (r: Tensor3)
    requires MedianFirst(m.quantiles) && Shaped(m, x) && ArNetShaped(m, arNet)
    ensures IsTensor3(r, x.nBatch, m.nForecasts, |m.quantiles|)
  {
    var c := Composed(m, x, arNet);
    seq(x.nBatch, b requires 0 <= b < x.nBatch =>
      seq(m.nForecasts, h requires 0 <= h < m.nForecasts => Reconciled(m.quantiles, c[b][h], mode != "train")))
  }

  /** A regressor block is to be unstacked, but `future_regressors` is built
      only when future regressors are configured. */
  predicate RegressorsUnbuilt(m: Model, y: Batch) {
    (RegressorsOn(y, Additive) || RegressorsOn(y, Multiplicative)) && m.regressors.None?
  }

  /** The lags are to be unstacked, but `ar_net` is built only when n_lags > 0. */
  predicate ArNetUnbuilt(m: Model, y: Batch) { "lags" in y.features && m.nLags == 0 }

  /** What `forward(inputs, mode)` gives for a batch whose feature keys are the
      mode's stacker's: the prediction and, while components are included, the
      component dictionary. The missing sub-networks fail in the order in which
      `forward` reaches them, regressors before lags, and then
      `compute_components` may fail. */
  function Forwarded(m: Model, y: Batch, arNet: seq<real> -> seq<real>, mode: string, includeComponents: bool,
                     attributions: seq<Matrix>, fourier: string -> Tensor3, regressorEffect: string -> Tensor3)
    : (r: Result<(Tensor3, Option<map<string, Tensor3>>)>)
    requires MedianFirst(m.quantiles) && TensorsShaped(m, y) && ArNetShaped(m, arNet)
    requires m.events.Some? ==> EventIndicesValid(m, m.events.value)
    requires m.covariates.Some? ==> |attributions| == |m.covariates.value|
    requires AttributionsShaped(attributions, m.nForecasts * |m.quantiles|)
    ensures RegressorsUnbuilt(m, y) ==> r == Err(AttributeError("future_regressors"))
    ensures !RegressorsUnbuilt(m, y) && ArNetUnbuilt(m, y) ==> r == Err(AttributeError("ar_net"))
    ensures !RegressorsUnbuilt(m, y) && !ArNetUnbuilt(m, y) ==>
      && Shaped(m, y)
      && (r.Err? <==> includeComponents && ComputeComponents(m, y, arNet, attributions, fourier, regressorEffect).Err?)
      && (r.Err? ==> r.error == ComputeComponents(m, y, arNet, attributions, fourier, regressorEffect).error)
    ensures r.Ok? ==>
      && Shaped(m, y)
      && IsTensor3(r.value.0, y.nBatch, m.nForecasts, |m.quantiles|)
      && (forall b, h | 0 <= b < y.nBatch && 0 <= h < m.nForecasts ::
            r.value.0[b][h] == Reconciled(m.quantiles, Composed(m, y, arNet)[b][h], mode != "train"))
      && (r.value.1.Some? <==> includeComponents)
      && (includeComponents ==>
            r.value.1.value == ComputeComponents(m, y, arNet, attributions, fourier, regressorEffect).value)
  {
    if RegressorsUnbuilt(m, y) then Err(AttributeError("future_regressors"))
    else if ArNetUnbuilt(m, y) then Err(AttributeError("ar_net"))
    else if !includeComponents then Ok((Prediction(m, y, arNet, mode), None))
    else
      match ComputeComponents(m, y, arNet, attributions, fourier, regressorEffect)
      case Err(e) => Err(e)
      case Ok(components) => Ok((Prediction(m, y, arNet, mode), Some(components)))
  }

  /** What a training step reads besides the batch: the unstacked targets, the
      time-based sample weights of the horizon, the training and the
      normalisation configuration. */
  datatype TrainInputs = TrainInputs(
    targets: Tensor3,
    weights: Matrix,
    newerSamplesWeight: real,
    reg: Regularization,         // its delay weight is replaced by the one for the progress
    normalization: NormalizationConfig)

  /** `config_train.loss_func` without reduction keeps the prediction's shape. */
  ghost predicate LossFnShaped(lossFn: (Tensor3, Tensor3) -> Tensor3, targets: Tensor3, nB: nat, nS: nat, nQ: nat) {
    forall p: Tensor3 :: IsTensor3(p, nB, nS, nQ) ==> IsTensor3(lossFn(p, targets), nB, nS, nQ)
  }

  class TimeNet {
    /** The mode flag `forward` reads to decide whether to compute components. */
    var includeComponents: bool
    /** `prev_include_components`; None until `set_compute_components` first runs. */
    var prevIncludeComponents: Option<bool>
    var componentsStacker: map<string, Option<Stacker>>
    var findingLr: bool
    const regEnabled: bool
    const metricsEnabled: bool
    /** `train_progress`; None until the first training step. */
    var trainProgress: Option<real>
    /** The optimiser, scheduler and log calls made so far. */
    var trace: seq<Step>
    /** `train_epoch_prediction`; None until a training step has run forward. */
    var trainEpochPrediction: Option<Tensor3>

    /** Every mode has a stacker slot and nothing else does. */
    ghost predicate Valid()
      reads this
    {
      componentsStacker.Keys == {"train", "val", "test", "predict"}
    }

    constructor(regEnabled: bool, metricsEnabled: bool)
      ensures Valid()
      ensures !includeComponents && prevIncludeComponents.None? && !findingLr
      ensures this.regEnabled == regEnabled && this.metricsEnabled == metricsEnabled
      ensures componentsStacker == map["train" := None, "val" := None, "test" := None, "predict" := None]
      ensures trainProgress.None? && trace == [] && trainEpochPrediction.None?
    {
      this.regEnabled := regEnabled;
      this.metricsEnabled := metricsEnabled;
      includeComponents := false;
      prevIncludeComponents := None;
      componentsStacker := map["train" := None, "val" := None, "test" := None, "predict" := None];
      findingLr := false;
      trainProgress := None;
      trace := [];
      trainEpochPrediction := None;
    }

    /** `set_compute_components`: saves the flag, then sets it. */
    method SetComputeComponents(flag: bool)
      modifies this
      ensures prevIncludeComponents == Some(old(includeComponents)) && includeComponents == flag
      ensures componentsStacker == old(componentsStacker) && findingLr == old(findingLr)
      ensures trainProgress == old(trainProgress) && trace == old(trace)
      ensures trainEpochPrediction == old(trainEpochPrediction)
    {
      prevIncludeComponents := Some(includeComponents);
      includeComponents := flag;
    }

    /** `reset_compute_components`: restores the saved flag; before any save
        the attribute does not exist. */
    method ResetComputeComponents() returns (res: Result<()>)
      modifies this
      ensures old(prevIncludeComponents).None? ==>
        res == Err(AttributeError("prev_include_components")) && includeComponents == old(includeComponents)
      ensures old(prevIncludeComponents).Some? ==> res == Ok(()) && includeComponents == old(prevIncludeComponents).value
      ensures prevIncludeComponents == old(prevIncludeComponents)
      ensures componentsStacker == old(componentsStacker) && findingLr == old(findingLr)
      ensures trainProgress == old(trainProgress) && trace == old(trace)
      ensures trainEpochPrediction == old(trainEpochPrediction)
    {
      if prevIncludeComponents.None? {
        return Err(AttributeError("prev_include_components"));
      }
      includeComponents := prevIncludeComponents.value;
      res := Ok(());
    }

    /** A set followed by a reset leaves the flag as it was. */
    method WithComponents(flag: bool) returns (res: Result<()>)
      modifies this
      ensures res.Ok? && includeComponents == old(includeComponents)
      ensures componentsStacker == old(componentsStacker) && trace == old(trace)
    {
      SetComputeComponents(flag);
      res := ResetComputeComponents();
    }

    /** Only one level is saved: after two sets and two resets the flag is
        the first set's value, not the original one. */
    method NestedToggle(outer: bool, inner: bool) returns (res: Result<()>)
      modifies this
      ensures res.Ok? && includeComponents == outer && prevIncludeComponents == Some(outer)
    {
      SetComputeComponents(outer);
      SetComputeComponents(inner);
      res := ResetComputeComponents();
      res := ResetComputeComponents();
    }

    /** `set_components_stacker`: only the four modes are accepted. */
    method SetComponentsStacker(stacker: Stacker, mode: string) returns (res: Result<()>)
      modifies this
      requires Valid()
      ensures Valid()
      ensures mode in Modes ==> res == Ok(()) && componentsStacker == old(componentsStacker)[mode := Some(stacker)]
      ensures mode !in Modes ==>
        res == Err(AssertionError("mode must be one of ['train', 'val', 'test', 'predict']")) &&
        componentsStacker == old(componentsStacker)
      ensures includeComponents == old(includeComponents) && prevIncludeComponents == old(prevIncludeComponents)
      ensures findingLr == old(findingLr) && trainProgress == old(trainProgress) && trace == old(trace)
      ensures trainEpochPrediction == old(trainEpochPrediction)
    {
      if mode !in Modes {
        return Err(AssertionError("mode must be one of ['train', 'val', 'test', 'predict']"));
      }
      componentsStacker := componentsStacker[mode := Some(stacker)];
      res := Ok(());
    }

    /** `forward(input, mode)` as the object runs it: the batch's feature keys
        are replaced by those of the mode's stacker, and the component
        dictionary is computed exactly when the inclusion flag is set. */
    method Forward(m: Model, x: Batch, arNet: seq<real> -> seq<real>, mode: string, attributions: seq<Matrix>,
                   fourier: string -> Tensor3, regressorEffect: string -> Tensor3)
      returns (res: Result<(array3<real>, Option<map<string, Tensor3>>)>)
      requires MedianFirst(m.quantiles) && TensorsShaped(m, x) && ArNetShaped(m, arNet)
      requires m.events.Some? ==> EventIndicesValid(m, m.events.value)
      requires m.covariates.Some? ==> |attributions| == |m.covariates.value|
      requires AttributionsShaped(attributions, m.nForecasts * |m.quantiles|)
      ensures mode !in componentsStacker ==> res == Err(KeyError(mode))
      ensures mode in componentsStacker && componentsStacker[mode].None? ==> res == Err(AttributeError("unstack"))
      ensures mode in componentsStacker && componentsStacker[mode].Some? ==>
        var y := x.(features := componentsStacker[mode].value.featureIndices);
        var out := Forwarded(m, y, arNet, mode, includeComponents, attributions, fourier, regressorEffect);
        && (out.Err? ==> res == Err(out.error))
        && (out.Ok? ==>
              && res.Ok? && fresh(res.value.0)
              && res.value.0.Length0 == x.nBatch && res.value.0.Length1 == m.nForecasts
              && res.value.0.Length2 == |m.quantiles|
              && Values(res.value.0) == out.value.0 && res.value.1 == out.value.1)
    {
      if mode !in componentsStacker {
        return Err(KeyError(mode));
      }
      if componentsStacker[mode].None? {
        return Err(AttributeError("unstack"));
      }
      var y := x.(features := componentsStacker[mode].value.featureIndices);
      if RegressorsUnbuilt(m, y) {
        return Err(AttributeError("future_regressors"));
      }
      if ArNetUnbuilt(m, y) {
        return Err(AttributeError("ar_net"));
      }
      var prediction, raw := Composition.Forward(m, y, arNet, mode);
      ValuesArePrediction(prediction, m, y, arNet, mode);
      if includeComponents {
        var components := ComputeComponents(m, y, arNet, attributions, fourier, regressorEffect);
        if components.Err? {
          return Err(components.error);
        }
        res := Ok((prediction, Some(components.value)));
      } else {
        res := Ok((prediction, None));
      }
    }

    /** The optimiser and scheduler calls once the loss is known. */
    method Optimize(loss: real, epochFloat: real)
      modifies this
      ensures trace == old(trace) + OptimizationTrace(loss, findingLr, epochFloat)
      ensures includeComponents == old(includeComponents) && prevIncludeComponents == old(prevIncludeComponents)
      ensures componentsStacker == old(componentsStacker) && findingLr == old(findingLr)
      ensures trainProgress == old(trainProgress) && trainEpochPrediction == old(trainEpochPrediction)
    {
      trace := trace + [ZeroGrad, Backward(loss), OptimizerStep];
      if findingLr {
        trace := trace + [SchedulerStep(None)];
      } else {
        trace := trace + [SchedulerStep(Some(epochFloat))];
      }
    }

    /** The log calls that end a step. */
    method LogStep()
      modifies this
      ensures trace == old(trace) + LogTrace(findingLr, metricsEnabled)
      ensures includeComponents == old(includeComponents) && prevIncludeComponents == old(prevIncludeComponents)
      ensures componentsStacker == old(componentsStacker) && findingLr == old(findingLr)
      ensures trainProgress == old(trainProgress) && trainEpochPrediction == old(trainEpochPrediction)
    {
      if findingLr {
        trace := trace + [Log("train_loss")];
      }
      if metricsEnabled && !findingLr {
        trace := trace + [LogMetrics, Log("Loss"), Log("RegLoss"), Log("LR")];
      }
    }

    /** The part of `training_step` after `forward`: stores the prediction,
        computes the loss, steps the optimiser and the scheduler, then
        denormalises for the metrics and logs. A missing target normalisation
        raises only after the optimiser and scheduler have stepped. */
    method Learn(predicted: Tensor3, nB: nat, nS: nat, nQ: nat, lossFn: (Tensor3, Tensor3) -> Tensor3,
                 t: TrainInputs, reg: Regularization, epochFloat: real)
      returns (res: Result<real>)
      modifies this
      requires IsTensor3(predicted, nB, nS, nQ) && nQ >= 1 && IsMatrix(t.weights, nB, nS)
      requires LossFnShaped(lossFn, t.targets, nB, nS, nQ)
      ensures trainEpochPrediction == Some(predicted)
      ensures var losses := LossPair(lossFn(predicted, t.targets), t.weights, t.newerSamplesWeight,
                                     nB, nS, nQ, regEnabled, findingLr, reg);
        var denormalizing := metricsEnabled && !findingLr;
        && (losses.Err? ==> res == Err(losses.error) && trace == old(trace))
        && (losses.Ok? && denormalizing && MissingTarget(t.normalization) ==>
              res == Err(KeyError("y")) && trace == old(trace) + OptimizationTrace(losses.value.0, findingLr, epochFloat))
        && (losses.Ok? && !(denormalizing && MissingTarget(t.normalization)) ==>
              res == Ok(losses.value.0)
              && trace == old(trace) + StepTrace(losses.value.0, findingLr, metricsEnabled, epochFloat))
      ensures includeComponents == old(includeComponents) && prevIncludeComponents == old(prevIncludeComponents)
      ensures componentsStacker == old(componentsStacker) && findingLr == old(findingLr)
      ensures trainProgress == old(trainProgress)
    {
      trainEpochPrediction := Some(predicted);
      var losses := LossFunc(lossFn(predicted, t.targets), t.weights, t.newerSamplesWeight,
                             nB, nS, nQ, regEnabled, findingLr, reg);
      if losses.Err? {
        return Err(losses.error);
      }
      var loss := losses.value.0;
      Optimize(loss, epochFloat);
      if metricsEnabled && !findingLr {
        // the targets' denormalisation reads the same parameters, so only this one can raise
        var predictedDenorm := DenormalizeMatrix(t.normalization, Medians(predicted, nB, nS, nQ));
        if predictedDenorm.Err? {
          return Err(predictedDenorm.error);
        }
      }
      LogStep();
      res := Ok(loss);
    }

    /** `training_step(batch, batch_idx)`: sets the training progress, unstacks
        through the train stacker, runs `forward` in train mode, then learns
        from its prediction with the delay weight for that progress. */
    method TrainingStep(m: Model, x: Batch, arNet: seq<real> -> seq<real>, attributions: seq<Matrix>,
                        fourier: string -> Tensor3, regressorEffect: string -> Tensor3,
                        lossFn: (Tensor3, Tensor3) -> Tensor3, t: TrainInputs,
                        currentEpoch: nat, batchIdx: nat, stepsPerEpoch: nat, epochs: nat,
                        delayWeight: real -> real)
      returns (res: Result<real>)
      modifies this
      requires MedianFirst(m.quantiles) && TensorsShaped(m, x) && ArNetShaped(m, arNet)
      requires m.events.Some? ==> EventIndicesValid(m, m.events.value)
      requires m.covariates.Some? ==> |attributions| == |m.covariates.value|
      requires AttributionsShaped(attributions, m.nForecasts * |m.quantiles|)
      requires IsMatrix(t.weights, x.nBatch, m.nForecasts)
      requires LossFnShaped(lossFn, t.targets, x.nBatch, m.nForecasts, |m.quantiles|)
      ensures stepsPerEpoch == 0 || epochs == 0 ==>
        && res == Err(ZeroDivisionError("float division by zero"))
        && trainProgress == old(trainProgress) && trace == old(trace)
        && trainEpochPrediction == old(trainEpochPrediction)
      ensures stepsPerEpoch > 0 && epochs > 0 ==>
        trainProgress == Some(Progress(currentEpoch, batchIdx, stepsPerEpoch, epochs))
      ensures stepsPerEpoch > 0 && epochs > 0 && "train" !in componentsStacker ==>
        res == Err(KeyError("train")) && trace == old(trace) && trainEpochPrediction == old(trainEpochPrediction)
      ensures stepsPerEpoch > 0 && epochs > 0 && "train" in componentsStacker && componentsStacker["train"].None? ==>
        res == Err(AttributeError("unstack")) && trace == old(trace) && trainEpochPrediction == old(trainEpochPrediction)
      ensures stepsPerEpoch > 0 && epochs > 0 && "train" in componentsStacker && componentsStacker["train"].Some? ==>
        var y := x.(features := componentsStacker["train"].value.featureIndices);
        var out := Forwarded(m, y, arNet, "train", includeComponents, attributions, fourier, regressorEffect);
        && (out.Err? ==>
              res == Err(out.error) && trace == old(trace) && trainEpochPrediction == old(trainEpochPrediction))
        && (out.Ok? ==>
              var predicted := out.value.0;
              var reg := t.reg.(delayWeight := delayWeight(Progress(currentEpoch, batchIdx, stepsPerEpoch, epochs)));
              var losses := LossPair(lossFn(predicted, t.targets), t.weights, t.newerSamplesWeight,
                                     x.nBatch, m.nForecasts, |m.quantiles|, regEnabled, findingLr, reg);
              var epochFloat := EpochFloat(currentEpoch, batchIdx, stepsPerEpoch);
              var denormalizing := metricsEnabled && !findingLr;
              && trainEpochPrediction == Some(predicted)
              && (losses.Err? ==> res == Err(losses.error) && trace == old(trace))
              && (losses.Ok? && denormalizing && MissingTarget(t.normalization) ==>
                    res == Err(KeyError("y"))
                    && trace == old(trace) + OptimizationTrace(losses.value.0, findingLr, epochFloat))
              && (losses.Ok? && !(denormalizing && MissingTarget(t.normalization)) ==>
                    res == Ok(losses.value.0)
                    && trace == old(trace) + StepTrace(losses.value.0, findingLr, metricsEnabled, epochFloat)))
      ensures includeComponents == old(includeComponents) && componentsStacker == old(componentsStacker)
      ensures findingLr == old(findingLr) && prevIncludeComponents == old(prevIncludeComponents)
    {
      if stepsPerEpoch == 0 || epochs == 0 {
        return Err(ZeroDivisionError("float division by zero"));
      }
      var epochFloat := currentEpoch as real + batchIdx as real / stepsPerEpoch as real;
      trainProgress := Some(epochFloat / epochs as real);
      assert trainProgress.value == Progress(currentEpoch, batchIdx, stepsPerEpoch, epochs);
      if "train" !in componentsStacker {
        return Err(KeyError("train"));
      }
      if componentsStacker["train"].None? {
        return Err(AttributeError("unstack"));
      }
      var forward := Forward(m, x, arNet, "train", attributions, fourier, regressorEffect);
      if forward.Err? {
        return Err(forward.error);
      }
      var predicted := Values(forward.value.0);
      var reg := t.reg.(delayWeight := delayWeight(trainProgress.value));
      res := Learn(predicted, x.nBatch, m.nForecasts, |m.quantiles|, lossFn, t, reg, epochFloat);
    }
  }

  /** An array holding the reconciled rows of the composition holds the mode's prediction. */
  lemma ValuesArePrediction(a: array3<real>, m: Model, y: Batch, arNet: seq<real> -> seq<real>, mode: string)
    requires MedianFirst(m.quantiles) && Shaped(m, y) && ArNetShaped(m, arNet)
    requires a.Length0 == y.nBatch && a.Length1 == m.nForecasts && a.Length2 == |m.quantiles|
    requires forall b, h | 0 <= b < y.nBatch && 0 <= h < m.nForecasts ::
      Row(a, b, h) == Reconciled(m.quantiles, Composed(m, y, arNet)[b][h], mode != "train")
    ensures Values(a) == Prediction(m, y, arNet, mode)
  {
    var v, p := Values(a), Prediction(m, y, arNet, mode);
    forall b | 0 <= b < y.nBatch ensures v[b] == p[b] {
    }
  }
}
