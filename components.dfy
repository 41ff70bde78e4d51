/** TimeNet.compute_components: the forecast split into named parts over the
    horizon, with each event's and each covariate's own part. */
module Components {
  import opened Tensors
  import opened Configs
  import opened ScalarEffects
  import opened Composition

  /** `t[:, n_lags:window, :]` */
  function Horizon(m: Model, t: Tensor3, nB: nat, nC: nat): (r: Tensor3)
    requires IsTensor3(t, nB, Window(m), nC)
    ensures IsTensor3(r, nB, m.nForecasts, nC)
    ensures forall b, h | 0 <= b < nB && 0 <= h < m.nForecasts :: r[b][h] == t[b][m.nLags + h]
  {
    SliceSteps(t, m.nLags, Window(m), nB, Window(m), nC)
  }

  predicate HasPrefix(k: string, p: string) { |p| <= |k| && k[..|p|] == p }

  /** Every key of the dictionary starts with the prefix. */
  ghost predicate KeysHavePrefix(d: map<string, Tensor3>, p: string) {
    forall k :: k in d ==> HasPrefix(k, p)
  }

  lemma PrefixOfConcat(p: string, s: string)
    ensures |p| <= |p + s| && (p + s)[..|p|] == p
  {
  }

  lemma PrefixInjective(p: string, a: string, b: string)
    requires a != b
    ensures p + a != p + b
  {
    assert (p + a)[|p|..] == a;
    assert (p + b)[|p|..] == b;
  }

  // ---------------------------------------------------------------------------
  // Events

  predicate EventIndicesValid(m: Model, events: seq<EventDims>) {
    forall i | 0 <= i < |events| ::
      (events[i].mode == "additive" ==> IndicesIn(events[i].eventIndices, m.nAdditiveEventFeatures)) &&
      (events[i].mode != "additive" ==> IndicesIn(events[i].eventIndices, m.nMultiplicativeEventFeatures))
  }

  /** One event's effect over the horizon through its own columns of its mode's block. */
  function EventComponent(m: Model, x: Batch, e: EventDims): (r: Tensor3)
    requires Shaped(m, x)
    requires e.mode == "additive" ==> IndicesIn(e.eventIndices, m.nAdditiveEventFeatures)
    requires e.mode != "additive" ==> IndicesIn(e.eventIndices, m.nMultiplicativeEventFeatures)
    ensures IsTensor3(r, x.nBatch, m.nForecasts, |m.quantiles|)
  {
    if e.mode == "additive" then
      EffectsTensor(Horizon(m, x.additiveEventFeatures, x.nBatch, m.nAdditiveEventFeatures),
                    m.additiveEventParams, Some(e.eventIndices), x.nBatch, m.nForecasts, m.nAdditiveEventFeatures)
    else
      EffectsTensor(Horizon(m, x.multiplicativeEventFeatures, x.nBatch, m.nMultiplicativeEventFeatures),
                    m.multiplicativeEventParams, Some(e.eventIndices), x.nBatch, m.nForecasts,
                    m.nMultiplicativeEventFeatures)
  }

  /** The unstacked input an event reads was produced in the forward pass. */
  predicate InputPresent(x: Batch, e: EventDims) {
    if e.mode == "additive" then "additive_events" in x.features else "multiplicative_events" in x.features
  }

  /** The per-event entries; an event whose mode's input is None fails on
      slicing it with a TypeError. */
  function EventEntries(m: Model, x: Batch, events: seq<EventDims>): Result<map<string, Tensor3>>
    requires Shaped(m, x) && EventIndicesValid(m, events)
    decreases |events|
  {
    if events == [] then Ok(map[])
    else
      var e := events[|events| - 1];
      match EventEntries(m, x, events[..|events| - 1])
      case Err(err) => Err(err)
      case Ok(entries) =>
        if !InputPresent(x, e) then Err(TypeError("'NoneType' object is not subscriptable"))
        else Ok(entries["event_" + e.name := EventComponent(m, x, e)])
  }

  /** The entries fail exactly when some event's input is missing. */
  lemma {:induction false} EventEntriesOk(m: Model, x: Batch, events: seq<EventDims>)
    requires Shaped(m, x) && EventIndicesValid(m, events)
    ensures EventEntries(m, x, events).Ok? <==> forall i | 0 <= i < |events| :: InputPresent(x, events[i])
    decreases |events|
  {
    if events != [] {
      var init := events[..|events| - 1];
      assert EventIndicesValid(m, init);
      EventEntriesOk(m, x, init);
      assert forall i | 0 <= i < |init| :: init[i] == events[i];
    }
  }

  lemma {:induction false} EventEntriesKeys(m: Model, x: Batch, events: seq<EventDims>)
    requires Shaped(m, x) && EventIndicesValid(m, events)
    requires EventEntries(m, x, events).Ok?
    ensures KeysHavePrefix(EventEntries(m, x, events).value, "event_")
    decreases |events|
  {
    if events != [] {
      var init := events[..|events| - 1];
      assert EventIndicesValid(m, init);
      EventEntriesKeys(m, x, init);
      PrefixOfConcat("event_", events[|events| - 1].name);
    }
  }

  predicate DistinctNames(events: seq<EventDims>) {
    forall i, j | 0 <= i < j < |events| :: events[i].name != events[j].name
  }

  /** Every event of a dictionary of distinct names has its own entry. */
  lemma {:induction false} EventEntriesValue(m: Model, x: Batch, events: seq<EventDims>, i: nat)
    requires Shaped(m, x) && EventIndicesValid(m, events) && DistinctNames(events)
    requires EventEntries(m, x, events).Ok? && i < |events|
    ensures "event_" + events[i].name in EventEntries(m, x, events).value
    ensures EventEntries(m, x, events).value["event_" + events[i].name] == EventComponent(m, x, events[i])
    decreases |events|
  {
    var n := |events|;
    if i < n - 1 {
      var init := events[..n - 1];
      assert EventIndicesValid(m, init) && DistinctNames(init);
      assert init[i] == events[i];
      EventEntriesValue(m, x, init, i);
      PrefixInjective("event_", events[i].name, events[n - 1].name);
    }
  }

  /** The sum, over the events of one mode, of one quantile's effect at one position. */
  function SumModeEffects(f: seq<real>, w: seq<real>, events: seq<EventDims>, mode: string): real
    requires |f| == |w|
    requires forall i | 0 <= i < |events| && events[i].mode == mode :: IndicesIn(events[i].eventIndices, |f|)
  {
    if events == [] then 0.0
    else (if events[0].mode == mode then GatheredDot(f, w, events[0].eventIndices) else 0.0)
         + SumModeEffects(f, w, events[1..], mode)
  }

  /** The index lists of the events of one mode, in order. */
  function ModeIndexLists(events: seq<EventDims>, mode: string): seq<seq<nat>> {
    if events == [] then []
    else if events[0].mode == mode then [events[0].eventIndices] + ModeIndexLists(events[1..], mode)
    else ModeIndexLists(events[1..], mode)
  }

  lemma {:induction false} SumModeEffectsIsSumOfGathered(f: seq<real>, w: seq<real>, events: seq<EventDims>,
                                                         mode: string)
    requires |f| == |w|
    requires forall i | 0 <= i < |events| && events[i].mode == mode :: IndicesIn(events[i].eventIndices, |f|)
    ensures forall k | 0 <= k < |ModeIndexLists(events, mode)| :: IndicesIn(ModeIndexLists(events, mode)[k], |f|)
    ensures SumModeEffects(f, w, events, mode) == SumOfGathered(f, w, ModeIndexLists(events, mode))
  {
    if events != [] {
      assert forall i | 0 <= i < |events[1..]| :: events[1..][i] == events[i + 1];
      SumModeEffectsIsSumOfGathered(f, w, events[1..], mode);
      var lists := ModeIndexLists(events, mode);
      if events[0].mode == mode {
        assert lists[1..] == ModeIndexLists(events[1..], mode);
      }
    }
  }

  /** Each event's part at (b, h, q) is its gathered effect on the horizon's
      features of its mode's block: the additive block for an additive event,
      the multiplicative block for any other. */
  lemma EventComponentAt(m: Model, x: Batch, e: EventDims, b: nat, h: nat, q: nat)
    requires Shaped(m, x)
    requires e.mode == "additive" ==> IndicesIn(e.eventIndices, m.nAdditiveEventFeatures)
    requires e.mode != "additive" ==> IndicesIn(e.eventIndices, m.nMultiplicativeEventFeatures)
    requires b < x.nBatch && h < m.nForecasts && q < |m.quantiles|
    ensures e.mode == "additive" ==>
      EventComponent(m, x, e)[b][h][q] ==
        GatheredDot(x.additiveEventFeatures[b][m.nLags + h], m.additiveEventParams[q], e.eventIndices)
    ensures e.mode != "additive" ==>
      EventComponent(m, x, e)[b][h][q] ==
        GatheredDot(x.multiplicativeEventFeatures[b][m.nLags + h], m.multiplicativeEventParams[q], e.eventIndices)
  {
  }

  /** When the additive events own disjoint columns that together cover the
      additive feature block, the sum of their parts at every position and
      quantile is the whole additive events component over the horizon. */
  lemma AdditiveEventsDecompose(m: Model, x: Batch, events: seq<EventDims>, b: nat, h: nat, q: nat)
    requires Shaped(m, x) && EventIndicesValid(m, events)
    requires b < x.nBatch && h < m.nForecasts && q < |m.quantiles|
    requires Partitions(ModeIndexLists(events, "additive"), m.nAdditiveEventFeatures)
    ensures SumModeEffects(x.additiveEventFeatures[b][m.nLags + h], m.additiveEventParams[q], events, "additive")
      == Horizon(m, Events(m, x, Additive), x.nBatch, |m.quantiles|)[b][h][q]
  {
    var f := x.additiveEventFeatures[b][m.nLags + h];
    SumModeEffectsIsSumOfGathered(f, m.additiveEventParams[q], events, "additive");
    PartitionedEffect(f, m.additiveEventParams, ModeIndexLists(events, "additive"));
  }

  // ---------------------------------------------------------------------------
  // Covariate attribution shares

  predicate AttributionsShaped(attributions: seq<Matrix>, rows: nat) {
    forall i | 0 <= i < |attributions| :: |attributions[i]| == rows
  }

  /** `reduce(torch.add, [covar.sum(axis=1) ...])` at output row r. */
  function RowTotal(attributions: seq<Matrix>, r: nat): real
    requires forall i | 0 <= i < |attributions| :: r < |attributions[i]|
  {
    if attributions == [] then 0.0
    else RowTotal(attributions[..|attributions| - 1], r) + Sum(attributions[|attributions| - 1][r])
  }

  predicate NonzeroTotals(attributions: seq<Matrix>, rows: nat)
    requires AttributionsShaped(attributions, rows)
  {
    forall r | 0 <= r < rows :: RowTotal(attributions, r) != 0.0
  }

  /** Covariate i's share of the attributions to output row r. */
  function Share(attributions: seq<Matrix>, i: nat, r: nat): real
    requires i < |attributions| && forall j | 0 <= j < |attributions| :: r < |attributions[j]|
    requires RowTotal(attributions, r) != 0.0
  {
    Sum(attributions[i][r]) / RowTotal(attributions, r)
  }

  function SumShares(attributions: seq<Matrix>, k: nat, r: nat): real
    requires k <= |attributions| && forall j | 0 <= j < |attributions| :: r < |attributions[j]|
    requires RowTotal(attributions, r) != 0.0
  {
    if k == 0 then 0.0 else SumShares(attributions, k - 1, r) + Share(attributions, k - 1, r)
  }

  lemma DivideAdd(a: real, b: real, t: real)
    requires t != 0.0
    ensures a / t + b / t == (a + b) / t
  {
  }

  lemma {:induction false} SumSharesPrefix(attributions: seq<Matrix>, k: nat, r: nat)
    requires k <= |attributions| && forall j | 0 <= j < |attributions| :: r < |attributions[j]|
    requires RowTotal(attributions, r) != 0.0
    ensures SumShares(attributions, k, r) == RowTotal(attributions[..k], r) / RowTotal(attributions, r)
  {
    var t := RowTotal(attributions, r);
    if k == 0 {
      assert RowTotal(attributions[..0], r) == 0.0;
    } else {
      SumSharesPrefix(attributions, k - 1, r);
      var prefix := attributions[..k];
      assert prefix[..k - 1] == attributions[..k - 1];
      assert prefix[k - 1] == attributions[k - 1];
      var before, last := RowTotal(attributions[..k - 1], r), Sum(attributions[k - 1][r]);
      assert RowTotal(prefix, r) == before + last;
      assert Share(attributions, k - 1, r) == last / t;
      DivideAdd(before, last, t);
    }
  }

  /** Where the total attribution is nonzero, the shares of all covariates sum to one. */
  lemma SharesSumToOne(attributions: seq<Matrix>, r: nat)
    requires forall j | 0 <= j < |attributions| :: r < |attributions[j]|
    requires RowTotal(attributions, r) != 0.0
    ensures SumShares(attributions, |attributions|, r) == 1.0
  {
    SumSharesPrefix(attributions, |attributions|, r);
    assert attributions[..|attributions|] == attributions;
    var t := RowTotal(attributions, r);
    assert t / t == 1.0;
  }

  /** Covariate i's share of row h of the covariate output, `share.reshape(n_forecasts, quantiles)[h]` times it. */
  function ScaledRow(out: seq<real>, attributions: seq<Matrix>, i: nat, h: nat, nH: nat, nQ: nat): (r: seq<real>)
    requires |out| == nQ && h < nH && i < |attributions|
    requires AttributionsShaped(attributions, nH * nQ) && NonzeroTotals(attributions, nH * nQ)
    ensures |r| == nQ
  {
    seq(nQ, q requires 0 <= q < nQ => ViewIndex(h, q, nH, nQ); out[q] * Share(attributions, i, h * nQ + q))
  }

  /** Covariate i's part of the covariate net's output. */
  function CovariateComponent(covariates: Tensor3, attributions: seq<Matrix>, i: nat, nB: nat, nH: nat, nQ: nat)
    : (r: Tensor3)
    requires IsTensor3(covariates, nB, nH, nQ) && i < |attributions|
    requires AttributionsShaped(attributions, nH * nQ) && NonzeroTotals(attributions, nH * nQ)
    ensures IsTensor3(r, nB, nH, nQ)
  {
    seq(nB, b requires 0 <= b < nB =>
      seq(nH, h requires 0 <= h < nH => ScaledRow(covariates[b][h], attributions, i, h, nH, nQ)))
  }

  lemma CovariateComponentAt(covariates: Tensor3, attributions: seq<Matrix>, i: nat, nB: nat, nH: nat, nQ: nat,
                             b: nat, h: nat, q: nat)
    requires IsTensor3(covariates, nB, nH, nQ) && i < |attributions|
    requires AttributionsShaped(attributions, nH * nQ) && NonzeroTotals(attributions, nH * nQ)
    requires b < nB && h < nH && q < nQ
    ensures h * nQ + q < nH * nQ
    ensures CovariateComponent(covariates, attributions, i, nB, nH, nQ)[b][h][q] ==
      covariates[b][h][q] * Share(attributions, i, h * nQ + q)
  {
    ViewIndex(h, q, nH, nQ);
  }

  function SumCovariateComponents(covariates: Tensor3, attributions: seq<Matrix>, k: nat, nB: nat, nH: nat, nQ: nat,
                                  b: nat, h: nat, q: nat): real
    requires IsTensor3(covariates, nB, nH, nQ) && k <= |attributions|
    requires AttributionsShaped(attributions, nH * nQ) && NonzeroTotals(attributions, nH * nQ)
    requires b < nB && h < nH && q < nQ
  {
    if k == 0 then 0.0
    else SumCovariateComponents(covariates, attributions, k - 1, nB, nH, nQ, b, h, q)
         + CovariateComponent(covariates, attributions, k - 1, nB, nH, nQ)[b][h][q]
  }

  /** c times each of the first k shares of output row r, added up. */
  function ScaledShares(c: real, attributions: seq<Matrix>, k: nat, r: nat): real
    requires k <= |attributions| && forall j | 0 <= j < |attributions| :: r < |attributions[j]|
    requires RowTotal(attributions, r) != 0.0
  {
    if k == 0 then 0.0 else ScaledShares(c, attributions, k - 1, r) + c * Share(attributions, k - 1, r)
  }

  lemma {:induction false} ScaledSharesFactor(c: real, attributions: seq<Matrix>, k: nat, r: nat)
    requires k <= |attributions| && forall j | 0 <= j < |attributions| :: r < |attributions[j]|
    requires RowTotal(attributions, r) != 0.0
    ensures ScaledShares(c, attributions, k, r) == c * SumShares(attributions, k, r)
  {
    if k > 0 {
      ScaledSharesFactor(c, attributions, k - 1, r);
      Distribute(ScaledShares(c, attributions, k - 1, r), c * Share(attributions, k - 1, r), c,
                 SumShares(attributions, k - 1, r), Share(attributions, k - 1, r), SumShares(attributions, k, r));
    }
  }

  lemma Distribute(prev: real, part: real, c: real, a: real, b: real, total: real)
    requires prev == c * a && part == c * b && total == a + b
    ensures prev + part == c * total
  {
  }

  lemma {:induction false} SumCovariateComponentsScaled(covariates: Tensor3, attributions: seq<Matrix>, k: nat,
                                                        nB: nat, nH: nat, nQ: nat, b: nat, h: nat, q: nat, r: nat)
    requires IsTensor3(covariates, nB, nH, nQ) && k <= |attributions|
    requires AttributionsShaped(attributions, nH * nQ) && NonzeroTotals(attributions, nH * nQ)
    requires b < nB && h < nH && q < nQ && r == h * nQ + q && r < nH * nQ
    ensures SumCovariateComponents(covariates, attributions, k, nB, nH, nQ, b, h, q) ==
      ScaledShares(covariates[b][h][q], attributions, k, r)
  {
    if k > 0 {
      SumCovariateComponentsScaled(covariates, attributions, k - 1, nB, nH, nQ, b, h, q, r);
      CovariateComponentAt(covariates, attributions, k - 1, nB, nH, nQ, b, h, q);
    }
  }

  /** The covariate parts add up to the covariate net's output. */
  lemma CovariateComponentsSum(covariates: Tensor3, attributions: seq<Matrix>, nB: nat, nH: nat, nQ: nat,
                               b: nat, h: nat, q: nat)
    requires IsTensor3(covariates, nB, nH, nQ)
    requires AttributionsShaped(attributions, nH * nQ) && NonzeroTotals(attributions, nH * nQ)
    requires b < nB && h < nH && q < nQ
    ensures SumCovariateComponents(covariates, attributions, |attributions|, nB, nH, nQ, b, h, q)
      == covariates[b][h][q]
  {
    ViewIndex(h, q, nH, nQ);
    SumCovariateComponentsScaled(covariates, attributions, |attributions|, nB, nH, nQ, b, h, q, h * nQ + q);
    ScaledSharesFactor(covariates[b][h][q], attributions, |attributions|, h * nQ + q);
    SharesSumToOne(attributions, h * nQ + q);
  }

  function CovariateEntriesFrom(names: seq<LaggedRegressor>, covariates: Tensor3, attributions: seq<Matrix>,
                                nB: nat, nH: nat, nQ: nat): map<string, Tensor3>
    requires IsTensor3(covariates, nB, nH, nQ) && |names| <= |attributions|
    requires AttributionsShaped(attributions, nH * nQ) && NonzeroTotals(attributions, nH * nQ)
    decreases |names|
  {
    if names == [] then map[]
    else CovariateEntriesFrom(names[..|names| - 1], covariates, attributions, nB, nH, nQ)
           ["lagged_regressor_" + names[|names| - 1].name :=
              CovariateComponent(covariates, attributions, |names| - 1, nB, nH, nQ)]
  }

  lemma {:induction false} CovariateEntriesKeys(names: seq<LaggedRegressor>, covariates: Tensor3,
                                                attributions: seq<Matrix>, nB: nat, nH: nat, nQ: nat)
    requires IsTensor3(covariates, nB, nH, nQ) && |names| <= |attributions|
    requires AttributionsShaped(attributions, nH * nQ) && NonzeroTotals(attributions, nH * nQ)
    ensures KeysHavePrefix(CovariateEntriesFrom(names, covariates, attributions, nB, nH, nQ), "lagged_regressor_")
    decreases |names|
  {
    if names != [] {
      CovariateEntriesKeys(names[..|names| - 1], covariates, attributions, nB, nH, nQ);
      PrefixOfConcat("lagged_regressor_", names[|names| - 1].name);
    }
  }

  predicate DistinctCovariates(names: seq<LaggedRegressor>) {
    forall i, j | 0 <= i < j < |names| :: names[i].name != names[j].name
  }

  /** Covariate i's entry holds its part, paired with the i-th attribution block. */
  lemma {:induction false} CovariateEntriesValue(names: seq<LaggedRegressor>, covariates: Tensor3,
                                                 attributions: seq<Matrix>, nB: nat, nH: nat, nQ: nat, i: nat)
    requires IsTensor3(covariates, nB, nH, nQ) && |names| <= |attributions|
    requires AttributionsShaped(attributions, nH * nQ) && NonzeroTotals(attributions, nH * nQ)
    requires DistinctCovariates(names) && i < |names|
    ensures "lagged_regressor_" + names[i].name in CovariateEntriesFrom(names, covariates, attributions, nB, nH, nQ)
    ensures CovariateEntriesFrom(names, covariates, attributions, nB, nH, nQ)["lagged_regressor_" + names[i].name]
      == CovariateComponent(covariates, attributions, i, nB, nH, nQ)
    decreases |names|
  {
    var n := |names|;
    if i < n - 1 {
      var init := names[..n - 1];
      assert init[i] == names[i];
      CovariateEntriesValue(init, covariates, attributions, nB, nH, nQ, i);
      PrefixInjective("lagged_regressor_", names[i].name, names[n - 1].name);
    }
  }

  /** `reduce` over no attribution blocks raises a TypeError. */
  predicate CovariatesReduceFails(m: Model, attributions: seq<Matrix>) {
    m.covariates.Some? && |attributions| == 0
  }

  /** A zero total attribution makes the shares non-finite. */
  predicate CovariatesNonFinite(m: Model, attributions: seq<Matrix>)
    requires AttributionsShaped(attributions, m.nForecasts * |m.quantiles|)
  {
    m.covariates.Some? && |attributions| > 0 && !NonzeroTotals(attributions, m.nForecasts * |m.quantiles|)
  }

  /** The covariate entries, each covariate's share of the covariate net's output. */
  function CovariateEntries(m: Model, x: Batch, attributions: seq<Matrix>): (r: Result<map<string, Tensor3>>)
    requires Shaped(m, x)
    requires m.covariates.Some? ==> |attributions| == |m.covariates.value|
    requires AttributionsShaped(attributions, m.nForecasts * |m.quantiles|)
    ensures r.Err? <==> CovariatesReduceFails(m, attributions) || CovariatesNonFinite(m, attributions)
    ensures r.Err? ==> r.error == (if CovariatesReduceFails(m, attributions)
                                   then TypeError("reduce() of empty iterable with no initial value") else NonFinite)
    ensures r.Ok? ==> KeysHavePrefix(r.value, "lagged_regressor_")
  {
    if m.covariates.None? then Ok(map[])
    else if |attributions| == 0 then Err(TypeError("reduce() of empty iterable with no initial value"))
    else if !NonzeroTotals(attributions, m.nForecasts * |m.quantiles|) then Err(NonFinite)
    else
      CovariateEntriesKeys(m.covariates.value, x.covariates, attributions, x.nBatch, m.nForecasts, |m.quantiles|);
      Ok(CovariateEntriesFrom(m.covariates.value, x.covariates, attributions, x.nBatch, m.nForecasts, |m.quantiles|))
  }

  // ---------------------------------------------------------------------------
  // Future regressors and seasonal terms

  /** The regressor entries, in regressor order; a regressor whose mode's input is absent gets none. */
  function RegressorEntriesFrom(regs: seq<RegressorDims>, x: Batch, regressorEffect: string -> Tensor3)
    : map<string, Tensor3>
    decreases |regs|
  {
    if regs == [] then map[]
    else
      var entries := RegressorEntriesFrom(regs[..|regs| - 1], x, regressorEffect);
      var reg := regs[|regs| - 1];
      if (reg.mode == "additive" && "additive_regressors" in x.features) ||
         (reg.mode == "multiplicative" && "multiplicative_regressors" in x.features)
      then entries["future_regressor_" + reg.name := regressorEffect(reg.name)]
      else entries
  }

  /** Each regressor has an entry exactly when its mode is additive or
      multiplicative and that mode's input is present. */
  lemma {:induction false} RegressorEntriesContent(regs: seq<RegressorDims>, x: Batch,
                                                   regressorEffect: string -> Tensor3, i: nat)
    requires i < |regs| && forall j, k | 0 <= j < k < |regs| :: regs[j].name != regs[k].name
    ensures var d := RegressorEntriesFrom(regs, x, regressorEffect);
      && ("future_regressor_" + regs[i].name in d <==>
            (regs[i].mode == "additive" && "additive_regressors" in x.features) ||
            (regs[i].mode == "multiplicative" && "multiplicative_regressors" in x.features))
      && ("future_regressor_" + regs[i].name in d ==> d["future_regressor_" + regs[i].name] == regressorEffect(regs[i].name))
    decreases |regs|
  {
    var n := |regs|;
    var init := regs[..n - 1];
    if i < n - 1 {
      assert init[i] == regs[i];
      RegressorEntriesContent(init, x, regressorEffect, i);
      PrefixInjective("future_regressor_", regs[i].name, regs[n - 1].name);
    } else {
      RegressorEntriesAbsent(init, x, regressorEffect, regs[i].name);
    }
  }

  /** A name that is not among the regressors has no entry. */
  lemma {:induction false} RegressorEntriesAbsent(regs: seq<RegressorDims>, x: Batch,
                                                  regressorEffect: string -> Tensor3, name: string)
    requires forall j | 0 <= j < |regs| :: regs[j].name != name
    ensures "future_regressor_" + name !in RegressorEntriesFrom(regs, x, regressorEffect)
    decreases |regs|
  {
    if regs != [] {
      RegressorEntriesAbsent(regs[..|regs| - 1], x, regressorEffect, name);
      PrefixInjective("future_regressor_", name, regs[|regs| - 1].name);
    }
  }

  lemma {:induction false} RegressorEntriesKeys(regs: seq<RegressorDims>, x: Batch, regressorEffect: string -> Tensor3)
    ensures KeysHavePrefix(RegressorEntriesFrom(regs, x, regressorEffect), "future_regressor")
    decreases |regs|
  {
    if regs != [] {
      RegressorEntriesKeys(regs[..|regs| - 1], x, regressorEffect);
      var k := "future_regressor_" + regs[|regs| - 1].name;
      assert k == "future_regressor" + ("_" + regs[|regs| - 1].name);
      PrefixOfConcat("future_regressor", "_" + regs[|regs| - 1].name);
    }
  }

  /** Each mode's regressors over the horizon, when that mode's input is present. */
  function RegressorSlices(m: Model, x: Batch): map<string, Tensor3>
    requires Shaped(m, x)
  {
    var slices := if "additive_regressors" in x.features then
      map["future_regressors_additive" := Horizon(m, x.additiveRegressors, x.nBatch, |m.quantiles|)] else map[];
    if "multiplicative_regressors" in x.features then
      slices["future_regressors_multiplicative" := Horizon(m, x.multiplicativeRegressors, x.nBatch, |m.quantiles|)]
    else slices
  }

  lemma RegressorSlicesKeys(m: Model, x: Batch)
    requires Shaped(m, x)
    ensures KeysHavePrefix(RegressorSlices(m, x), "future_regressor")
  {
    PrefixOfConcat("future_regressor", "s_additive");
    PrefixOfConcat("future_regressor", "s_multiplicative");
    assert "future_regressor" + "s_additive" == "future_regressors_additive";
    assert "future_regressor" + "s_multiplicative" == "future_regressors_multiplicative";
  }

  function RegressorEntries(m: Model, x: Batch, regressorEffect: string -> Tensor3): map<string, Tensor3>
    requires Shaped(m, x)
  {
    if m.regressors.None? then map[]
    else RegressorSlices(m, x) + RegressorEntriesFrom(m.regressors.value, x, regressorEffect)
  }

  lemma RegressorEntriesAllKeys(m: Model, x: Batch, regressorEffect: string -> Tensor3)
    requires Shaped(m, x)
    ensures KeysHavePrefix(RegressorEntries(m, x, regressorEffect), "future_regressor")
  {
    if m.regressors.Some? {
      RegressorSlicesKeys(m, x);
      RegressorEntriesKeys(m.regressors.value, x, regressorEffect);
    }
  }

  /** One entry per configured period, its Fourier term over the horizon. */
  function SeasonEntries(periods: seq<string>, fourier: string -> Tensor3): map<string, Tensor3>
    decreases |periods|
  {
    if periods == [] then map[]
    else SeasonEntries(periods[..|periods| - 1], fourier)["season_" + periods[|periods| - 1] := fourier(periods[|periods| - 1])]
  }

  lemma {:induction false} SeasonEntriesKeys(periods: seq<string>, fourier: string -> Tensor3)
    ensures KeysHavePrefix(SeasonEntries(periods, fourier), "season_")
    decreases |periods|
  {
    if periods != [] {
      SeasonEntriesKeys(periods[..|periods| - 1], fourier);
      PrefixOfConcat("season_", periods[|periods| - 1]);
    }
  }

  // ---------------------------------------------------------------------------
  // The dictionary

  /** No key of `d` has prefix `p` when it differs from `p` at position i. */
  lemma PrefixExcludes(d: map<string, Tensor3>, p: string, k: string, i: nat)
    requires KeysHavePrefix(d, p) && i < |p| && i < |k| && k[i] != p[i]
    ensures k !in d
  {
    forall k' | k' in d ensures k'[i] == p[i] {
      assert k'[..|p|][i] == k'[i];
    }
  }

  lemma PrefixExcludesShort(d: map<string, Tensor3>, p: string, k: string)
    requires KeysHavePrefix(d, p) && |k| < |p|
    ensures k !in d
  {
  }

  /** The trend and seasonal entries; seasonal terms only with a trend. */
  function SeasonalPart(m: Model, fourier: string -> Tensor3): map<string, Tensor3> {
    if m.hasTrend && SeasonalityActive(m) then SeasonEntries(m.seasonality.value.periods, fourier) else map[]
  }

  function ArPart(m: Model, x: Batch, arNet: seq<real> -> seq<real>): map<string, Tensor3>
    requires Shaped(m, x) && ArNetShaped(m, arNet)
  {
    if m.nLags > 0 && "lags" in x.features then map["ar" := ArComponent(m, x, arNet)] else map[]
  }

  /** Each mode's events over the horizon, when that mode's input is present. */
  function EventSlices(m: Model, x: Batch): map<string, Tensor3>
    requires Shaped(m, x)
  {
    var slices := if "additive_events" in x.features then
      map["events_additive" := Horizon(m, Events(m, x, Additive), x.nBatch, |m.quantiles|)] else map[];
    if "multiplicative_events" in x.features then
      slices["events_multiplicative" := Horizon(m, Events(m, x, Multiplicative), x.nBatch, |m.quantiles|)]
    else slices
  }

  lemma EventSlicesKeys(m: Model, x: Batch)
    requires Shaped(m, x)
    ensures KeysHavePrefix(EventSlices(m, x), "events_")
  {
    PrefixOfConcat("events_", "additive");
    PrefixOfConcat("events_", "multiplicative");
    assert "events_" + "additive" == "events_additive";
    assert "events_" + "multiplicative" == "events_multiplicative";
  }

  /** The event entries: both modes' slices, then one entry per event. */
  function EventPart(m: Model, x: Batch): Result<map<string, Tensor3>>
    requires Shaped(m, x)
    requires m.events.Some? ==> EventIndicesValid(m, m.events.value)
  {
    if m.events.None? then Ok(map[])
    else
      match EventEntries(m, x, m.events.value)
      case Err(e) => Err(e)
      case Ok(entries) => Ok(EventSlices(m, x) + entries)
  }

  predicate EventsFail(m: Model, x: Batch) {
    m.events.Some? && exists i | 0 <= i < |m.events.value| :: !InputPresent(x, m.events.value[i])
  }

  lemma PrefixShorten(d: map<string, Tensor3>, p: string, n: nat)
    requires KeysHavePrefix(d, p) && n <= |p|
    ensures KeysHavePrefix(d, p[..n])
  {
    forall k | k in d ensures |p[..n]| <= |k| && k[..n] == p[..n] {
      assert k[..|p|][..n] == k[..n];
    }
  }

  lemma PrefixUnion(a: map<string, Tensor3>, b: map<string, Tensor3>, p: string)
    requires KeysHavePrefix(a, p) && KeysHavePrefix(b, p)
    ensures KeysHavePrefix(a + b, p)
  {
  }

  lemma EventPartFails(m: Model, x: Batch)
    requires Shaped(m, x)
    requires m.events.Some? ==> EventIndicesValid(m, m.events.value)
    ensures EventPart(m, x).Err? <==> EventsFail(m, x)
  {
    if m.events.Some? {
      EventEntriesOk(m, x, m.events.value);
    }
  }

  lemma EventPartKeys(m: Model, x: Batch)
    requires Shaped(m, x)
    requires m.events.Some? ==> EventIndicesValid(m, m.events.value)
    requires EventPart(m, x).Ok?
    ensures KeysHavePrefix(EventPart(m, x).value, "event")
  {
    if m.events.Some? {
      var entries := EventEntries(m, x, m.events.value).value;
      var slices := EventSlices(m, x);
      assert EventPart(m, x).value == slices + entries;
      EventEntriesKeys(m, x, m.events.value);
      EventSlicesKeys(m, x);
      PrefixShorten(entries, "event_", 5);
      PrefixShorten(slices, "events_", 5);
      assert "event_"[..5] == "event" && "events_"[..5] == "event";
      PrefixUnion(slices, entries, "event");
    }
  }

  lemma EventPartOk(m: Model, x: Batch)
    requires Shaped(m, x)
    requires m.events.Some? ==> EventIndicesValid(m, m.events.value)
    ensures EventPart(m, x).Err? <==> EventsFail(m, x)
    ensures EventPart(m, x).Ok? ==> KeysHavePrefix(EventPart(m, x).value, "event")
  {
    EventPartFails(m, x);
    if EventPart(m, x).Ok? {
      EventPartKeys(m, x);
    }
  }

  /** `compute_components`. `attributions` are the covariate attribution
      blocks in covariate order; `fourier` and `regressorEffect` stand for the
      seasonality and future-regressor modules evaluated on the horizon. An
      empty `reduce` raises before the events are read; a missing event input
      raises before non-finite shares would be returned. */
  function ComputeComponents(m: Model, x: Batch, arNet: seq<real> -> seq<real>, attributions: seq<Matrix>,
                             fourier: string -> Tensor3, regressorEffect: string -> Tensor3)
    : (r: Result<map<string, Tensor3>>)
    requires Shaped(m, x) && ArNetShaped(m, arNet)
    requires m.events.Some? ==> EventIndicesValid(m, m.events.value)
    requires m.covariates.Some? ==> |attributions| == |m.covariates.value|
    requires AttributionsShaped(attributions, m.nForecasts * |m.quantiles|)
  {
    var covariates := CovariateEntries(m, x, attributions);
    var events := EventPart(m, x);
    if covariates.Err? && covariates.error.TypeError? then Err(covariates.error)
    else if events.Err? then Err(events.error)
    else if covariates.Err? then Err(covariates.error)
    else
      Ok(map["trend" := Horizon(m, x.trend, x.nBatch, |m.quantiles|)] + SeasonalPart(m, fourier) + ArPart(m, x, arNet)
         + covariates.value + events.value + RegressorEntries(m, x, regressorEffect))
  }

  /** The dictionary fails exactly when the covariate shares cannot be
      formed or an event's input is missing, with the error of the first
      failing step. */
  lemma ComponentsFail(m: Model, x: Batch, arNet: seq<real> -> seq<real>, attributions: seq<Matrix>,
                       fourier: string -> Tensor3, regressorEffect: string -> Tensor3)
    requires Shaped(m, x) && ArNetShaped(m, arNet)
    requires m.events.Some? ==> EventIndicesValid(m, m.events.value)
    requires m.covariates.Some? ==> |attributions| == |m.covariates.value|
    requires AttributionsShaped(attributions, m.nForecasts * |m.quantiles|)
    ensures var r := ComputeComponents(m, x, arNet, attributions, fourier, regressorEffect);
      && (r.Err? <==> CovariatesReduceFails(m, attributions) || EventsFail(m, x) || CovariatesNonFinite(m, attributions))
      && (CovariatesReduceFails(m, attributions) ==> r.Err? && r.error.TypeError?)
      && ((!CovariatesReduceFails(m, attributions) && !EventsFail(m, x) && CovariatesNonFinite(m, attributions))
            ==> r.Err? && r.error == NonFinite)
  {
    EventPartOk(m, x);
  }

  /** The groups of the dictionary never share a key. */
  lemma ComponentsGroups(m: Model, x: Batch, arNet: seq<real> -> seq<real>, attributions: seq<Matrix>,
                         fourier: string -> Tensor3, regressorEffect: string -> Tensor3)
    requires Shaped(m, x) && ArNetShaped(m, arNet)
    requires m.events.Some? ==> EventIndicesValid(m, m.events.value)
    requires m.covariates.Some? ==> |attributions| == |m.covariates.value|
    requires AttributionsShaped(attributions, m.nForecasts * |m.quantiles|)
    requires ComputeComponents(m, x, arNet, attributions, fourier, regressorEffect).Ok?
    ensures CovariateEntries(m, x, attributions).Ok? && EventPart(m, x).Ok?
    ensures KeysHavePrefix(SeasonalPart(m, fourier), "season_")
    ensures KeysHavePrefix(CovariateEntries(m, x, attributions).value, "lagged_regressor_")
    ensures KeysHavePrefix(EventPart(m, x).value, "event")
    ensures KeysHavePrefix(RegressorEntries(m, x, regressorEffect), "future_regressor")
    ensures ComputeComponents(m, x, arNet, attributions, fourier, regressorEffect).value ==
      map["trend" := Horizon(m, x.trend, x.nBatch, |m.quantiles|)] + SeasonalPart(m, fourier) + ArPart(m, x, arNet)
      + CovariateEntries(m, x, attributions).value + EventPart(m, x).value + RegressorEntries(m, x, regressorEffect)
  {
    EventPartOk(m, x);
    RegressorEntriesAllKeys(m, x, regressorEffect);
    if m.hasTrend && SeasonalityActive(m) {
      SeasonEntriesKeys(m.seasonality.value.periods, fourier);
    }
  }

  /** The arguments every statement about one dictionary takes. */
  predicate ComponentsOk(m: Model, x: Batch, arNet: seq<real> -> seq<real>, attributions: seq<Matrix>,
                         fourier: string -> Tensor3, regressorEffect: string -> Tensor3)
    requires Shaped(m, x) && ArNetShaped(m, arNet)
  {
    && (m.events.Some? ==> EventIndicesValid(m, m.events.value))
    && (m.covariates.Some? ==> |attributions| == |m.covariates.value|)
    && AttributionsShaped(attributions, m.nForecasts * |m.quantiles|)
    && ComputeComponents(m, x, arNet, attributions, fourier, regressorEffect).Ok?
  }

  /** The trend over the horizon is always there. */
  lemma ComponentsTrend(m: Model, x: Batch, arNet: seq<real> -> seq<real>, attributions: seq<Matrix>,
                        fourier: string -> Tensor3, regressorEffect: string -> Tensor3)
    requires Shaped(m, x) && ArNetShaped(m, arNet)
    requires ComponentsOk(m, x, arNet, attributions, fourier, regressorEffect)
    ensures var d := ComputeComponents(m, x, arNet, attributions, fourier, regressorEffect).value;
      "trend" in d && d["trend"] == Horizon(m, x.trend, x.nBatch, |m.quantiles|)
  {
    ComponentsGroups(m, x, arNet, attributions, fourier, regressorEffect);
    assert "trend" !in SeasonalPart(m, fourier) && "trend" !in ArPart(m, x, arNet)
        && "trend" !in CovariateEntries(m, x, attributions).value && "trend" !in EventPart(m, x).value
        && "trend" !in RegressorEntries(m, x, regressorEffect) by {
      PrefixExcludes(SeasonalPart(m, fourier), "season_", "trend", 0);
      PrefixExcludesShort(CovariateEntries(m, x, attributions).value, "lagged_regressor_", "trend");
      PrefixExcludes(EventPart(m, x).value, "event", "trend", 0);
      PrefixExcludesShort(RegressorEntries(m, x, regressorEffect), "future_regressor", "trend");
    }
  }

  /** The AR part is there exactly with lags configured and lags in the input. */
  lemma ComponentsAr(m: Model, x: Batch, arNet: seq<real> -> seq<real>, attributions: seq<Matrix>,
                     fourier: string -> Tensor3, regressorEffect: string -> Tensor3)
    requires Shaped(m, x) && ArNetShaped(m, arNet)
    requires ComponentsOk(m, x, arNet, attributions, fourier, regressorEffect)
    ensures var d := ComputeComponents(m, x, arNet, attributions, fourier, regressorEffect).value;
      && ("ar" in d <==> m.nLags > 0 && "lags" in x.features)
      && ("ar" in d ==> d["ar"] == ArComponent(m, x, arNet))
  {
    ComponentsGroups(m, x, arNet, attributions, fourier, regressorEffect);
    assert "ar" !in SeasonalPart(m, fourier) && "ar" !in CovariateEntries(m, x, attributions).value
        && "ar" !in EventPart(m, x).value && "ar" !in RegressorEntries(m, x, regressorEffect) by {
      PrefixExcludesShort(SeasonalPart(m, fourier), "season_", "ar");
      PrefixExcludesShort(CovariateEntries(m, x, attributions).value, "lagged_regressor_", "ar");
      PrefixExcludesShort(EventPart(m, x).value, "event", "ar");
      PrefixExcludesShort(RegressorEntries(m, x, regressorEffect), "future_regressor", "ar");
    }
  }

  /** Within the event group, the additive slice is there exactly when the
      additive events entered the forward pass. */
  lemma EventPartAdditive(m: Model, x: Batch)
    requires Shaped(m, x)
    requires m.events.Some? ==> EventIndicesValid(m, m.events.value)
    requires EventPart(m, x).Ok?
    ensures var d := EventPart(m, x).value;
      && ("events_additive" in d <==> EventsOn(m, x, Additive))
      && ("events_additive" in d ==> d["events_additive"] == Horizon(m, Events(m, x, Additive), x.nBatch, |m.quantiles|))
  {
    if m.events.Some? {
      var entries := EventEntries(m, x, m.events.value).value;
      EventEntriesKeys(m, x, m.events.value);
      PrefixExcludes(entries, "event_", "events_additive", 5);
      assert EventPart(m, x).value == EventSlices(m, x) + entries;
    }
  }

  /** The additive events over the horizon are there exactly when the
      additive events entered the forward pass. */
  lemma ComponentsEventsAdditive(m: Model, x: Batch, arNet: seq<real> -> seq<real>, attributions: seq<Matrix>,
                                 fourier: string -> Tensor3, regressorEffect: string -> Tensor3)
    requires Shaped(m, x) && ArNetShaped(m, arNet)
    requires ComponentsOk(m, x, arNet, attributions, fourier, regressorEffect)
    ensures var d := ComputeComponents(m, x, arNet, attributions, fourier, regressorEffect).value;
      && ("events_additive" in d <==> EventsOn(m, x, Additive))
      && ("events_additive" in d ==>
            d["events_additive"] == Horizon(m, Events(m, x, Additive), x.nBatch, |m.quantiles|))
  {
    var k := "events_additive";
    ComponentsGroups(m, x, arNet, attributions, fourier, regressorEffect);
    PrefixExcludes(RegressorEntries(m, x, regressorEffect), "future_regressor", k, 0);
    PrefixExcludes(CovariateEntries(m, x, attributions).value, "lagged_regressor_", k, 0);
    PrefixExcludes(SeasonalPart(m, fourier), "season_", k, 0);
    EventPartAdditive(m, x);
  }

  /** Every event has its own entry. */
  lemma ComponentsEvent(m: Model, x: Batch, arNet: seq<real> -> seq<real>, attributions: seq<Matrix>,
                        fourier: string -> Tensor3, regressorEffect: string -> Tensor3, i: nat)
    requires Shaped(m, x) && ArNetShaped(m, arNet)
    requires ComponentsOk(m, x, arNet, attributions, fourier, regressorEffect)
    requires m.events.Some? && DistinctNames(m.events.value) && i < |m.events.value|
    ensures var d := ComputeComponents(m, x, arNet, attributions, fourier, regressorEffect).value;
      && "event_" + m.events.value[i].name in d
      && d["event_" + m.events.value[i].name] == EventComponent(m, x, m.events.value[i])
  {
    var k := "event_" + m.events.value[i].name;
    ComponentsGroups(m, x, arNet, attributions, fourier, regressorEffect);
    PrefixExcludes(RegressorEntries(m, x, regressorEffect), "future_regressor", k, 0);
    var entries := EventEntries(m, x, m.events.value).value;
    assert EventPart(m, x).value == EventSlices(m, x) + entries;
    EventEntriesValue(m, x, m.events.value, i);
  }

  /** Every covariate's entry is its share of the covariate net's output, and
      the shares are finite. */
  lemma ComponentsCovariate(m: Model, x: Batch, arNet: seq<real> -> seq<real>, attributions: seq<Matrix>,
                            fourier: string -> Tensor3, regressorEffect: string -> Tensor3, i: nat)
    requires Shaped(m, x) && ArNetShaped(m, arNet)
    requires ComponentsOk(m, x, arNet, attributions, fourier, regressorEffect)
    requires m.covariates.Some? && DistinctCovariates(m.covariates.value) && i < |m.covariates.value|
    ensures NonzeroTotals(attributions, m.nForecasts * |m.quantiles|)
    ensures var d := ComputeComponents(m, x, arNet, attributions, fourier, regressorEffect).value;
      && "lagged_regressor_" + m.covariates.value[i].name in d
      && d["lagged_regressor_" + m.covariates.value[i].name] ==
           CovariateComponent(x.covariates, attributions, i, x.nBatch, m.nForecasts, |m.quantiles|)
  {
    var k := "lagged_regressor_" + m.covariates.value[i].name;
    ComponentsGroups(m, x, arNet, attributions, fourier, regressorEffect);
    PrefixExcludes(RegressorEntries(m, x, regressorEffect), "future_regressor", k, 0);
    PrefixExcludes(EventPart(m, x).value, "event", k, 0);
    CovariateEntriesValue(m.covariates.value, x.covariates, attributions, x.nBatch, m.nForecasts,
                          |m.quantiles|, i);
  }

  lemma RegressorSlicesLongKeys(m: Model, x: Batch)
    requires Shaped(m, x)
    ensures KeysHavePrefix(RegressorSlices(m, x), "future_regressors_")
  {
    PrefixOfConcat("future_regressors_", "additive");
    PrefixOfConcat("future_regressors_", "multiplicative");
    assert "future_regressors_" + "additive" == "future_regressors_additive";
    assert "future_regressors_" + "multiplicative" == "future_regressors_multiplicative";
  }

  /** Within the regressor group, a configured regressor has an entry exactly
      when its mode's input is present. */
  lemma RegressorEntriesAt(m: Model, x: Batch, regressorEffect: string -> Tensor3, i: nat)
    requires Shaped(m, x)
    requires m.regressors.Some? && i < |m.regressors.value|
    requires forall j, k | 0 <= j < k < |m.regressors.value| :: m.regressors.value[j].name != m.regressors.value[k].name
    ensures var d := RegressorEntries(m, x, regressorEffect);
      var reg := m.regressors.value[i];
      && ("future_regressor_" + reg.name in d <==>
            (reg.mode == "additive" && "additive_regressors" in x.features) ||
            (reg.mode == "multiplicative" && "multiplicative_regressors" in x.features))
      && ("future_regressor_" + reg.name in d ==> d["future_regressor_" + reg.name] == regressorEffect(reg.name))
  {
    var k := "future_regressor_" + m.regressors.value[i].name;
    RegressorSlicesLongKeys(m, x);
    PrefixExcludes(RegressorSlices(m, x), "future_regressors_", k, 16);
    RegressorEntriesContent(m.regressors.value, x, regressorEffect, i);
  }

  /** A configured regressor has an entry exactly when its mode's input is present. */
  lemma ComponentsRegressor(m: Model, x: Batch, arNet: seq<real> -> seq<real>, attributions: seq<Matrix>,
                            fourier: string -> Tensor3, regressorEffect: string -> Tensor3, i: nat)
    requires Shaped(m, x) && ArNetShaped(m, arNet)
    requires ComponentsOk(m, x, arNet, attributions, fourier, regressorEffect)
    requires m.regressors.Some? && i < |m.regressors.value|
    requires forall j, k | 0 <= j < k < |m.regressors.value| :: m.regressors.value[j].name != m.regressors.value[k].name
    ensures var d := ComputeComponents(m, x, arNet, attributions, fourier, regressorEffect).value;
      var reg := m.regressors.value[i];
      && ("future_regressor_" + reg.name in d <==>
            (reg.mode == "additive" && "additive_regressors" in x.features) ||
            (reg.mode == "multiplicative" && "multiplicative_regressors" in x.features))
      && ("future_regressor_" + reg.name in d ==> d["future_regressor_" + reg.name] == regressorEffect(reg.name))
  {
    var k := "future_regressor_" + m.regressors.value[i].name;
    ComponentsGroups(m, x, arNet, attributions, fourier, regressorEffect);
    var front := map["trend" := Horizon(m, x.trend, x.nBatch, |m.quantiles|)] + SeasonalPart(m, fourier)
      + ArPart(m, x, arNet) + CovariateEntries(m, x, attributions).value + EventPart(m, x).value;
    assert k !in front by {
      PrefixExcludes(SeasonalPart(m, fourier), "season_", k, 0);
      PrefixExcludes(CovariateEntries(m, x, attributions).value, "lagged_regressor_", k, 0);
      PrefixExcludes(EventPart(m, x).value, "event", k, 0);
    }
    RegressorEntriesAt(m, x, regressorEffect, i);
  }

  /** Every key is the trend, the AR part or one of the prefixed groups. */
  lemma ComponentsKeys(m: Model, x: Batch, arNet: seq<real> -> seq<real>, attributions: seq<Matrix>,
                       fourier: string -> Tensor3, regressorEffect: string -> Tensor3)
    requires Shaped(m, x) && ArNetShaped(m, arNet)
    requires ComponentsOk(m, x, arNet, attributions, fourier, regressorEffect)
    ensures forall k | k in ComputeComponents(m, x, arNet, attributions, fourier, regressorEffect).value ::
      k == "trend" || k == "ar" || HasPrefix(k, "season_") || HasPrefix(k, "lagged_regressor_") ||
      HasPrefix(k, "event") || HasPrefix(k, "future_regressor")
  {
    ComponentsGroups(m, x, arNet, attributions, fourier, regressorEffect);
  }
}
