/** TimeNet.loss_func and TimeNet._add_batch_regularizations: the data loss,
    the gate that decides whether regularisation applies, and which
    regularisation terms enter `reg_loss`. The element-wise loss, the sample
    weights, the regulariser functions and the delay weight are inputs. */
module Loss {
  import opened Tensors
  import opened Configs

  // ---------------------------------------------------------------------------
  // Data loss

  /** The element-wise loss, weighted by the sample weights only when newer
      samples are to weigh more; a weight applies to every quantile. */
  function Weighted(loss: Tensor3, weights: Matrix, newerSamplesWeight: real, nB: nat, nS: nat, nQ: nat)
    : (r: Tensor3)
    requires IsTensor3(loss, nB, nS, nQ) && IsMatrix(weights, nB, nS)
    ensures IsTensor3(r, nB, nS, nQ)
  {
    if newerSamplesWeight > 1.0 then
      seq(nB, b requires 0 <= b < nB =>
        seq(nS, s requires 0 <= s < nS =>
          seq(nQ, q requires 0 <= q < nQ => loss[b][s][q] * weights[b][s])))
    else loss
  }

  /** The per-position sums over quantiles, summed over steps and batch rows. */
  function Total(t: Tensor3, nB: nat, nS: nat, nQ: nat): real
    requires IsTensor3(t, nB, nS, nQ)
  {
    Sum(seq(nB, b requires 0 <= b < nB => Sum(seq(nS, s requires 0 <= s < nS => Sum(t[b][s])))))
  }

  /** `loss.sum(dim=2).mean()`: the mean over positions of the sum over
      quantiles; the mean of no positions is not a number. */
  function DataLoss(loss: Tensor3, weights: Matrix, newerSamplesWeight: real, nB: nat, nS: nat, nQ: nat)
    : (r: Result<real>)
    requires IsTensor3(loss, nB, nS, nQ) && IsMatrix(weights, nB, nS)
    ensures r.Err? <==> nB == 0 || nS == 0
  {
    if nB == 0 || nS == 0 then Err(NonFinite)
    else Ok(Total(Weighted(loss, weights, newerSamplesWeight, nB, nS, nQ), nB, nS, nQ) / (nB * nS) as real)
  }

  /** Without newer-sample weighting the weights play no part. */
  lemma DataLossIgnoresWeights(loss: Tensor3, w1: Matrix, w2: Matrix, newerSamplesWeight: real,
                               nB: nat, nS: nat, nQ: nat)
    requires IsTensor3(loss, nB, nS, nQ) && IsMatrix(w1, nB, nS) && IsMatrix(w2, nB, nS)
    requires newerSamplesWeight <= 1.0
    ensures DataLoss(loss, w1, newerSamplesWeight, nB, nS, nQ) == DataLoss(loss, w2, newerSamplesWeight, nB, nS, nQ)
  {
  }

  /** Unit weights leave the loss as it is. */
  lemma UnitWeightsAreNeutral(loss: Tensor3, weights: Matrix, newerSamplesWeight: real, nB: nat, nS: nat, nQ: nat)
    requires IsTensor3(loss, nB, nS, nQ) && IsMatrix(weights, nB, nS)
    requires forall b, s | 0 <= b < nB && 0 <= s < nS :: weights[b][s] == 1.0
    ensures DataLoss(loss, weights, newerSamplesWeight, nB, nS, nQ) == DataLoss(loss, weights, 1.0, nB, nS, nQ)
  {
    var t := Weighted(loss, weights, newerSamplesWeight, nB, nS, nQ);
    forall b | 0 <= b < nB ensures t[b] == loss[b] {
      forall s | 0 <= s < nS ensures t[b][s] == loss[b][s] {
        forall q | 0 <= q < nQ ensures t[b][s][q] == loss[b][s][q] {
          assert t[b][s][q] == loss[b][s][q] * weights[b][s] || t[b][s][q] == loss[b][s][q];
        }
      }
    }
    assert t == loss;
  }

  lemma {:induction false} SumNonnegative(s: seq<real>)
    requires forall i | 0 <= i < |s| :: s[i] >= 0.0
    ensures Sum(s) >= 0.0
  {
    if s != [] {
      SumNonnegative(s[1..]);
    }
  }

  /** A nonnegative element-wise loss with nonnegative weights gives a nonnegative data loss. */
  lemma DataLossNonnegative(loss: Tensor3, weights: Matrix, newerSamplesWeight: real, nB: nat, nS: nat, nQ: nat)
    requires IsTensor3(loss, nB, nS, nQ) && IsMatrix(weights, nB, nS)
    requires forall b, s, q | 0 <= b < nB && 0 <= s < nS && 0 <= q < nQ :: loss[b][s][q] >= 0.0
    requires forall b, s | 0 <= b < nB && 0 <= s < nS :: weights[b][s] >= 0.0
    requires nB > 0 && nS > 0
    ensures DataLoss(loss, weights, newerSamplesWeight, nB, nS, nQ).value >= 0.0
  {
    var t := Weighted(loss, weights, newerSamplesWeight, nB, nS, nQ);
    var rows := seq(nB, b requires 0 <= b < nB => Sum(seq(nS, s requires 0 <= s < nS => Sum(t[b][s]))));
    forall b | 0 <= b < nB ensures rows[b] >= 0.0 {
      var positions := seq(nS, s requires 0 <= s < nS => Sum(t[b][s]));
      forall s | 0 <= s < nS ensures positions[s] >= 0.0 {
        forall q | 0 <= q < nQ ensures t[b][s][q] >= 0.0 {
          if newerSamplesWeight > 1.0 {
            assert t[b][s][q] == loss[b][s][q] * weights[b][s];
          }
        }
        SumNonnegative(t[b][s]);
      }
      SumNonnegative(positions);
    }
    SumNonnegative(rows);
    var total := Total(t, nB, nS, nQ);
    var n := (nB * nS) as real;
    assert n > 0.0;
    assert total / n >= 0.0;
  }

  // ---------------------------------------------------------------------------
  // Regularisation

  /** What `_add_batch_regularizations` reads: the delay weight for the
      current progress, the configurations that gate each term, and the value
      each regulariser function returns for the current weights. */
  datatype Regularization = Regularization(
    delayWeight: real,                    // config_train.get_reg_delay_weight(progress)
    maxLags: nat,
    nForecasts: nat,
    arRegLambda: Option<real>,            // config_ar.reg_lambda
    arPenalty: real,                      // torch.sum(config_ar.regularize(ar_weights))
    trend: Option<TrendConfig>,           // config_trend
    trendPenalty: real,                   // reg_func_trend(...)
    seasonality: Option<SeasonalityConfig>,
    seasonDimsPresent: bool,              // seasonality.season_dims is not None
    seasonPenalties: seq<real>,           // reg_func_season per entry of season_params
    eventsConfigured: bool,               // config_events or config_holidays is not None
    eventsPenalty: real,                  // reg_func_events(...)
    regressorsConfigured: bool,           // config_regressors.regressors is not None
    regressorsPenalty: real,              // reg_func_regressors(...)
    trendGlocalPenalty: real,             // reg_func_trend_glocal(...)
    seasonGlocalPenalty: real)            // reg_func_seasonality_glocal(...)

  predicate ArRegularized(r: Regularization) { r.maxLags > 0 && r.arRegLambda.Some? }

  /** The AR term; the sum is divided by n_forecasts. */
  function ArTerm(r: Regularization): real
    requires ArRegularized(r) ==> r.nForecasts > 0
  {
    if ArRegularized(r) then r.arRegLambda.value * (r.arPenalty / r.nForecasts as real) else 0.0
  }

  predicate TrendRegularized(t: TrendConfig) { t.nChangepoints > 0 && PositiveSome(t.trendReg) }

  function TrendTerm(r: Regularization): real
    requires r.trend.Some?
  {
    if TrendRegularized(r.trend.value) then r.trend.value.trendReg.value * r.trendPenalty else 0.0
  }

  predicate SeasonsRegularized(r: Regularization) {
    r.seasonality.Some? && r.seasonDimsPresent && PositiveSome(r.seasonality.value.regLambda)
  }

  /** The terms `l * p` added one per seasonal period, in order. */
  function ScaledSum(l: real, penalties: seq<real>): real {
    if penalties == [] then 0.0 else ScaledSum(l, penalties[..|penalties| - 1]) + l * penalties[|penalties| - 1]
  }

  function SeasonTerms(r: Regularization): real {
    if SeasonsRegularized(r) then ScaledSum(r.seasonality.value.regLambda.value, r.seasonPenalties) else 0.0
  }

  /** The terms added only while the delay weight is positive. */
  function DelayedTerms(r: Regularization): real
    requires r.trend.Some? && (ArRegularized(r) ==> r.nForecasts > 0)
  {
    ArTerm(r) + TrendTerm(r) + SeasonTerms(r)
    + (if r.eventsConfigured then r.eventsPenalty else 0.0)
    + (if r.regressorsConfigured then r.regressorsPenalty else 0.0)
  }

  predicate TrendGlocal(r: Regularization) {
    r.trend.Some? && r.trend.value.trendGlobalLocal == "local" && Truthy(r.trend.value.trendLocalReg)
  }

  predicate SeasonGlocal(r: Regularization) {
    r.seasonality.Some? && r.seasonality.value.globalLocal in ["local", "glocal"]
    && Truthy(r.seasonality.value.seasonalityLocalReg)
  }

  /** The global-local terms, added whatever the delay weight. */
  function GlocalTerms(r: Regularization): real {
    (if TrendGlocal(r) then r.trendGlocalPenalty else 0.0) + (if SeasonGlocal(r) then r.seasonGlocalPenalty else 0.0)
  }

  /** With a positive delay weight the trend configuration is read even when there is none. */
  predicate MissingTrend(r: Regularization) { r.delayWeight > 0.0 && r.trend.None? }

  /** Dividing the AR term by zero forecasts makes it non-finite. */
  predicate ArNonFinite(r: Regularization) { r.delayWeight > 0.0 && ArRegularized(r) && r.nForecasts == 0 }

  /** `reg_loss` of `_add_batch_regularizations`. */
  function RegLoss(r: Regularization): (res: Result<real>)
    ensures res.Err? <==> MissingTrend(r) || ArNonFinite(r)
    ensures MissingTrend(r) ==> res == Err(AttributeError("trend_reg"))
    ensures r.delayWeight <= 0.0 ==> res == Ok(GlocalTerms(r))
  {
    if MissingTrend(r) then Err(AttributeError("trend_reg"))
    else if ArNonFinite(r) then Err(NonFinite)
    else if r.delayWeight > 0.0 then Ok(DelayedTerms(r) + GlocalTerms(r))
    else Ok(GlocalTerms(r))
  }

  /** The trend's global-local term counts only for a local trend. */
  lemma TrendGlocalOnlyLocal(r: Regularization)
    requires r.trend.Some? && r.trend.value.trendGlobalLocal != "local"
    ensures GlocalTerms(r) == (if SeasonGlocal(r) then r.seasonGlocalPenalty else 0.0)
  {
  }

  /** The seasonality's global-local term counts only for local or glocal seasonality. */
  lemma SeasonGlocalOnlyLocalOrGlocal(r: Regularization)
    requires r.seasonality.Some? && r.seasonality.value.globalLocal != "local"
    requires r.seasonality.value.globalLocal != "glocal"
    ensures GlocalTerms(r) == (if TrendGlocal(r) then r.trendGlocalPenalty else 0.0)
  {
    assert !(r.seasonality.value.globalLocal in ["local", "glocal"]);
  }

  /** Adding the seasonal terms one by one is scaling their sum. */
  lemma {:induction false} ScaledSumIsScale(l: real, penalties: seq<real>)
    ensures ScaledSum(l, penalties) == l * Sum(penalties)
    decreases |penalties|
  {
    if penalties != [] {
      var init, last := penalties[..|penalties| - 1], penalties[|penalties| - 1];
      ScaledSumIsScale(l, init);
      assert penalties == init + [last];
      SumConcat(init, [last]);
      assert Sum([last]) == last + Sum([]);
    }
  }

  /** Nonnegative lambdas and penalties give a nonnegative regularisation loss. */
  lemma RegLossNonnegative(r: Regularization)
    requires RegLoss(r).Ok?
    requires r.arPenalty >= 0.0 && r.trendPenalty >= 0.0 && r.eventsPenalty >= 0.0 && r.regressorsPenalty >= 0.0
    requires r.trendGlocalPenalty >= 0.0 && r.seasonGlocalPenalty >= 0.0
    requires r.arRegLambda.Some? ==> r.arRegLambda.value >= 0.0
    requires forall i | 0 <= i < |r.seasonPenalties| :: r.seasonPenalties[i] >= 0.0
    ensures RegLoss(r).value >= 0.0
  {
    if r.delayWeight > 0.0 {
      if ArRegularized(r) {
        var n := r.nForecasts as real;
        assert r.arPenalty / n >= 0.0;
      }
      if SeasonsRegularized(r) {
        ScaledSumIsScale(r.seasonality.value.regLambda.value, r.seasonPenalties);
        SumNonnegative(r.seasonPenalties);
      }
    }
  }

  /** The seasonal loop: one term per period added to the running `reg_loss`. */
  method AddSeasonTerms(regLoss: real, l: real, penalties: seq<real>) returns (out: real)
    ensures out == regLoss + ScaledSum(l, penalties)
  {
    out := regLoss;
    var i := 0;
    while i < |penalties|
      invariant 0 <= i <= |penalties|
      invariant out == regLoss + ScaledSum(l, penalties[..i])
    {
      assert penalties[..i + 1][..i] == penalties[..i];
      out := out + l * penalties[i];
      i := i + 1;
    }
    assert penalties[..i] == penalties;
  }

  /** The terms added while the delay weight is positive, in source order. */
  method AddDelayedTerms(regLoss: real, r: Regularization) returns (res: Result<real>)
    requires r.delayWeight > 0.0
    ensures MissingTrend(r) ==> res == Err(AttributeError("trend_reg"))
    ensures !MissingTrend(r) && ArNonFinite(r) ==> res == Err(NonFinite)
    ensures !MissingTrend(r) && !ArNonFinite(r) ==> res == Ok(regLoss + DelayedTerms(r))
  {
    var acc := regLoss;
    var nonFinite := false;
    if r.maxLags > 0 && r.arRegLambda.Some? {
      if r.nForecasts == 0 {
        nonFinite := true;
      } else {
        acc := acc + r.arRegLambda.value * (r.arPenalty / r.nForecasts as real);
      }
    }
    if r.trend.None? {
      return Err(AttributeError("trend_reg"));
    }
    assert !nonFinite ==> acc == regLoss + ArTerm(r);
    var trend := r.trend.value;
    if trend.nChangepoints > 0 && trend.trendReg.Some? && trend.trendReg.value > 0.0 {
      acc := acc + trend.trendReg.value * r.trendPenalty;
    }
    assert !nonFinite ==> acc == regLoss + ArTerm(r) + TrendTerm(r);
    if r.seasonality.Some? {
      var lSeason := r.seasonality.value.regLambda;
      if r.seasonDimsPresent && lSeason.Some? && lSeason.value > 0.0 {
        acc := AddSeasonTerms(acc, lSeason.value, r.seasonPenalties);
      }
    }
    assert !nonFinite ==> acc == regLoss + ArTerm(r) + TrendTerm(r) + SeasonTerms(r);
    if r.eventsConfigured {
      acc := acc + r.eventsPenalty;
    }
    if r.regressorsConfigured {
      acc := acc + r.regressorsPenalty;
    }
    if nonFinite {
      return Err(NonFinite);
    }
    res := Ok(acc);
  }

  /** `_add_batch_regularizations(loss, progress)`: accumulates `reg_loss`
      term by term and returns the regularised loss with it. */
  method AddBatchRegularizations(loss: real, r: Regularization) returns (res: Result<(real, real)>)
    ensures RegLoss(r).Err? ==> res == Err(RegLoss(r).error)
    ensures RegLoss(r).Ok? ==> res == Ok((loss + RegLoss(r).value, RegLoss(r).value))
  {
    var regLoss := 0.0;
    if r.delayWeight > 0.0 {
      var delayed := AddDelayedTerms(regLoss, r);
      if delayed.Err? {
        return Err(delayed.error);
      }
      regLoss := delayed.value;
    }
    if r.trend.Some? {
      var trend := r.trend.value;
      if trend.trendGlobalLocal == "local" && trend.trendLocalReg.Some? && trend.trendLocalReg.value != 0.0 {
        regLoss := regLoss + r.trendGlocalPenalty;
      }
    }
    if r.seasonality.Some? {
      var season := r.seasonality.value;
      if season.globalLocal in ["local", "glocal"] && season.seasonalityLocalReg.Some?
         && season.seasonalityLocalReg.value != 0.0 {
        regLoss := regLoss + r.seasonGlocalPenalty;
      }
    }
    res := Ok((loss + regLoss, regLoss));
  }

  /** Regularisation applies only when it is enabled and the learning-rate finder is not running. */
  predicate Regularizing(regEnabled: bool, findingLr: bool) { regEnabled && !findingLr }

  /** What `loss_func(time, predicted, targets)` returns, (loss, reg_loss): the
      data loss, regularised when regularisation applies; otherwise `reg_loss`
      is zero and the loss is the data loss. The mean of an empty batch is not
      a number but raises nothing, so the regularisation still runs and its
      exception wins. */
  function LossPair(loss: Tensor3, weights: Matrix, newerSamplesWeight: real, nB: nat, nS: nat, nQ: nat,
                    regEnabled: bool, findingLr: bool, r: Regularization): (res: Result<(real, real)>)
    requires IsTensor3(loss, nB, nS, nQ) && IsMatrix(weights, nB, nS)
    ensures var data := DataLoss(loss, weights, newerSamplesWeight, nB, nS, nQ);
      !Regularizing(regEnabled, findingLr) ==>
        res == (if data.Err? then Err(NonFinite) else Ok((data.value, 0.0)))
    ensures var data := DataLoss(loss, weights, newerSamplesWeight, nB, nS, nQ);
      Regularizing(regEnabled, findingLr) ==>
        match RegLoss(r)
        case Err(e) => res == Err(e)
        case Ok(reg) => res == (if data.Err? then Err(NonFinite) else Ok((data.value + reg, reg)))
  {
    var data := DataLoss(loss, weights, newerSamplesWeight, nB, nS, nQ);
    if Regularizing(regEnabled, findingLr) && RegLoss(r).Err? then Err(RegLoss(r).error)
    else if data.Err? then Err(NonFinite)
    else if Regularizing(regEnabled, findingLr) then Ok((data.value + RegLoss(r).value, RegLoss(r).value))
    else Ok((data.value, 0.0))
  }

  /** A nonnegative element-wise loss, nonnegative weights and nonnegative
      regularisation strengths and penalties give a nonnegative loss, at least
      as large as its `reg_loss`, which is nonnegative too. */
  lemma LossPairNonnegative(loss: Tensor3, weights: Matrix, newerSamplesWeight: real, nB: nat, nS: nat, nQ: nat,
                            regEnabled: bool, findingLr: bool, r: Regularization)
    requires IsTensor3(loss, nB, nS, nQ) && IsMatrix(weights, nB, nS)
    requires forall b, s, q | 0 <= b < nB && 0 <= s < nS && 0 <= q < nQ :: loss[b][s][q] >= 0.0
    requires forall b, s | 0 <= b < nB && 0 <= s < nS :: weights[b][s] >= 0.0
    requires r.arPenalty >= 0.0 && r.trendPenalty >= 0.0 && r.eventsPenalty >= 0.0 && r.regressorsPenalty >= 0.0
    requires r.trendGlocalPenalty >= 0.0 && r.seasonGlocalPenalty >= 0.0
    requires r.arRegLambda.Some? ==> r.arRegLambda.value >= 0.0
    requires forall i | 0 <= i < |r.seasonPenalties| :: r.seasonPenalties[i] >= 0.0
    ensures var res := LossPair(loss, weights, newerSamplesWeight, nB, nS, nQ, regEnabled, findingLr, r);
      res.Ok? ==> 0.0 <= res.value.1 <= res.value.0
  {
    var res := LossPair(loss, weights, newerSamplesWeight, nB, nS, nQ, regEnabled, findingLr, r);
    if res.Ok? {
      DataLossNonnegative(loss, weights, newerSamplesWeight, nB, nS, nQ);
      if Regularizing(regEnabled, findingLr) {
        RegLossNonnegative(r);
      }
    }
  }

  /** `loss_func`, with the regularisation accumulated by `_add_batch_regularizations`. */
  method LossFunc(loss: Tensor3, weights: Matrix, newerSamplesWeight: real, nB: nat, nS: nat, nQ: nat,
                  regEnabled: bool, findingLr: bool, r: Regularization)
    returns (res: Result<(real, real)>)
    requires IsTensor3(loss, nB, nS, nQ) && IsMatrix(weights, nB, nS)
    ensures res == LossPair(loss, weights, newerSamplesWeight, nB, nS, nQ, regEnabled, findingLr, r)
  {
    var data := DataLoss(loss, weights, newerSamplesWeight, nB, nS, nQ);
    if Regularizing(regEnabled, findingLr) {
      var regularized := AddBatchRegularizations(if data.Ok? then data.value else 0.0, r);
      if regularized.Err? {
        return Err(regularized.error);
      }
      if data.Err? {
        return Err(NonFinite);
      }
      res := regularized;
    } else {
      if data.Err? {
        return Err(NonFinite);
      }
      res := Ok((data.value, 0.0));
    }
  }
}
