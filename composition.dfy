/** The forward pass of TimeNet between its sub-networks: the three accumulators
    that collect the enabled components, the stationarised AR input, the
    horizon slice of the prediction and its quantile reconciliation. The
    sub-networks (trend, seasonality, future regressors, covariate net,
    Fourier terms) are inputs; the AR-net is a function parameter because its
    input depends on the composition. */
module Composition {
  import opened Tensors
  import opened Configs
  import opened ScalarEffects
  import opened QuantileForecasts

  /** What the forward pass reads from the model. */
  datatype Model = Model(
    quantiles: seq<real>,
    nLags: nat,
    nForecasts: nat,
    hasTrend: bool,                       // config_trend is not None
    seasonality: Option<SeasonalityConfig>,
    events: Option<seq<EventDims>>,       // events_dims
    nAdditiveEventFeatures: nat,
    nMultiplicativeEventFeatures: nat,
    additiveEventParams: Matrix,          // [quantiles, additive event columns]
    multiplicativeEventParams: Matrix,
    covariates: Option<seq<LaggedRegressor>>,  // lagged regressors, when configured
    regressors: Option<seq<RegressorDims>>)    // config_regressors.regressors

  /** One batch as the forward pass sees it after unstacking: the present
      feature keys of the mode's stacker and the sub-networks' outputs. */
  datatype Batch = Batch(
    nBatch: nat,
    features: set<string>,
    trend: Tensor3,                       // (batch, window, quantiles)
    seasonalities: Tensor3,               // (batch, window, quantiles)
    additiveEventFeatures: Tensor3,       // (batch, window, additive event columns)
    multiplicativeEventFeatures: Tensor3,
    additiveRegressors: Tensor3,          // (batch, window, quantiles)
    multiplicativeRegressors: Tensor3,
    lags: Matrix,                         // (batch, n_lags)
    covariates: Tensor3)                  // covariate net output, (batch, n_forecasts, quantiles)

  function Window(m: Model): nat { m.nLags + m.nForecasts }

  /** The batch's tensors have the shapes the model's dimensions give. */
  predicate TensorsShaped(m: Model, x: Batch) {
    var B, W, Q := x.nBatch, Window(m), |m.quantiles|;
    && Q >= 1
    && IsTensor3(x.trend, B, W, Q)
    && IsTensor3(x.seasonalities, B, W, Q)
    && IsTensor3(x.additiveEventFeatures, B, W, m.nAdditiveEventFeatures)
    && IsTensor3(x.multiplicativeEventFeatures, B, W, m.nMultiplicativeEventFeatures)
    && IsMatrix(m.additiveEventParams, Q, m.nAdditiveEventFeatures)
    && IsMatrix(m.multiplicativeEventParams, Q, m.nMultiplicativeEventFeatures)
    && IsTensor3(x.additiveRegressors, B, W, Q)
    && IsTensor3(x.multiplicativeRegressors, B, W, Q)
    && IsMatrix(x.lags, B, m.nLags)
    && IsTensor3(x.covariates, B, m.nForecasts, Q)
  }

  /** A well-formed batch; the stacker holds lags only when an AR-net exists to
      read them, and regressor blocks only when future regressors are configured. */
  predicate Shaped(m: Model, x: Batch) {
    && TensorsShaped(m, x)
    && ("lags" in x.features ==> m.nLags > 0)
    && ("additive_regressors" in x.features || "multiplicative_regressors" in x.features ==> m.regressors.Some?)
  }

  /** The AR-net maps n_lags inputs to n_forecasts * quantiles outputs. */
  ghost predicate ArNetShaped(m: Model, arNet: seq<real> -> seq<real>) {
    forall v: seq<real> :: |arNet(v)| == m.nForecasts * |m.quantiles|
  }


  predicate SeasonalityActive(m: Model) {
    m.seasonality.Some? && |m.seasonality.value.periods| > 0
  }

  /** The two non-stationary accumulators. */
  datatype Mode = Additive | Multiplicative

  function ModeName(k: Mode): string {
    match k
    case Additive => "additive"
    case Multiplicative => "multiplicative"
  }

  function EventsKey(k: Mode): string {
    match k
    case Additive => "additive_events"
    case Multiplicative => "multiplicative_events"
  }

  function RegressorsKey(k: Mode): string {
    match k
    case Additive => "additive_regressors"
    case Multiplicative => "multiplicative_regressors"
  }

  // ---------------------------------------------------------------------------
  // Component values

  /** The event effects of one mode over the whole window. */
  function Events(m: Model, x: Batch, k: Mode): (r: Tensor3)
    requires Shaped(m, x)
    ensures IsTensor3(r, x.nBatch, Window(m), |m.quantiles|)
  {
    match k
    case Additive =>
      EffectsTensor(x.additiveEventFeatures, m.additiveEventParams, None, x.nBatch, Window(m),
                    m.nAdditiveEventFeatures)
    case Multiplicative =>
      EffectsTensor(x.multiplicativeEventFeatures, m.multiplicativeEventParams, None, x.nBatch, Window(m),
                    m.nMultiplicativeEventFeatures)
  }

  /** Events enter the forward pass only with event dimensions and the mode's feature key. */
  predicate EventsOn(m: Model, x: Batch, k: Mode) { m.events.Some? && EventsKey(k) in x.features }

  /** Future regressors enter with their feature key alone. */
  predicate RegressorsOn(x: Batch, k: Mode) { RegressorsKey(k) in x.features }

  function Regressors(x: Batch, k: Mode): Tensor3 {
    match k
    case Additive => x.additiveRegressors
    case Multiplicative => x.multiplicativeRegressors
  }

  function SeasonalityTerm(m: Model, x: Batch, k: Mode, b: nat, t: nat, q: nat): real
    requires Shaped(m, x) && b < x.nBatch && t < Window(m) && q < |m.quantiles|
  {
    if SeasonalityActive(m) && m.seasonality.value.mode == ModeName(k) then x.seasonalities[b][t][q] else 0.0
  }

  function EventsTerm(m: Model, x: Batch, k: Mode, b: nat, t: nat, q: nat): real
    requires Shaped(m, x) && b < x.nBatch && t < Window(m) && q < |m.quantiles|
  {
    if EventsOn(m, x, k) then Events(m, x, k)[b][t][q] else 0.0
  }

  function RegressorsTerm(m: Model, x: Batch, k: Mode, b: nat, t: nat, q: nat): real
    requires Shaped(m, x) && b < x.nBatch && t < Window(m) && q < |m.quantiles|
  {
    if RegressorsOn(x, k) then Regressors(x, k)[b][t][q] else 0.0
  }

  /** The value accumulator k holds at window position t. */
  function Accumulated(m: Model, x: Batch, k: Mode, b: nat, t: nat, q: nat): real
    requires Shaped(m, x) && b < x.nBatch && t < Window(m) && q < |m.quantiles|
  {
    SeasonalityTerm(m, x, k, b, t, q) + EventsTerm(m, x, k, b, t, q) + RegressorsTerm(m, x, k, b, t, q)
  }

  /** Trend plus the additive part plus the trend scaled by the multiplicative part. */
  function Mix(trend: real, add: real, mul: real): real { trend + add + trend * mul }

  /** The non-stationary value at window position t. */
  function Nonstationary(m: Model, x: Batch, b: nat, t: nat, q: nat): real
    requires Shaped(m, x) && b < x.nBatch && t < Window(m) && q < |m.quantiles|
  {
    Mix(x.trend[b][t][q], Accumulated(m, x, Additive, b, t, q), Accumulated(m, x, Multiplicative, b, t, q))
  }

  /** The AR-net input of one batch row: the lags minus the median channel of
      the non-stationary components over the first n_lags window positions. */
  function StationarizedLags(m: Model, x: Batch, b: nat): (r: seq<real>)
    requires Shaped(m, x) && b < x.nBatch
    ensures |r| == m.nLags
  {
    seq(m.nLags, l requires 0 <= l < m.nLags => x.lags[b][l] - Nonstationary(m, x, b, l, 0))
  }

  lemma ViewIndex(h: nat, q: nat, nH: nat, nQ: nat)
    requires h < nH && q < nQ
    ensures h * nQ + q < nH * nQ
  {
    assert h * nQ + nQ == (h + 1) * nQ;
    MultiplyMonotone(h + 1, nH, nQ);
  }

  lemma {:induction false} MultiplyMonotone(a: nat, b: nat, n: nat)
    requires a <= b
    ensures a * n <= b * n
  {
    if n > 0 {
      MultiplyMonotone(a, b, n - 1);
      assert a * n == a * (n - 1) + a && b * n == b * (n - 1) + b;
    }
  }

  /** Row h of `v.view(nH, nQ)`. */
  function ViewRow(v: seq<real>, h: nat, nH: nat, nQ: nat): (r: seq<real>)
    requires |v| == nH * nQ && h < nH
    ensures |r| == nQ
  {
    seq(nQ, q requires 0 <= q < nQ => ViewIndex(h, q, nH, nQ); v[h * nQ + q])
  }

  /** `v.view(nH, nQ)` of a flat row, row-major. */
  function View(v: seq<real>, nH: nat, nQ: nat): (r: Matrix)
    requires |v| == nH * nQ
    ensures IsMatrix(r, nH, nQ)
  {
    seq(nH, h requires 0 <= h < nH => ViewRow(v, h, nH, nQ))
  }

  /** The view keeps the flat order: entry (h, q) is flat entry h * nQ + q. */
  lemma ViewAt(v: seq<real>, nH: nat, nQ: nat, h: nat, q: nat)
    requires |v| == nH * nQ && h < nH && q < nQ
    ensures h * nQ + q < |v| && View(v, nH, nQ)[h][q] == v[h * nQ + q]
  {
    ViewIndex(h, q, nH, nQ);
  }

  /** The AR component, `auto_regression` on the stationarised lags. */
  function ArComponent(m: Model, x: Batch, arNet: seq<real> -> seq<real>): (r: Tensor3)
    requires Shaped(m, x) && ArNetShaped(m, arNet)
    ensures IsTensor3(r, x.nBatch, m.nForecasts, |m.quantiles|)
  {
    assert forall b | 0 <= b < x.nBatch :: |arNet(StationarizedLags(m, x, b))| == m.nForecasts * |m.quantiles|;
    seq(x.nBatch, b requires 0 <= b < x.nBatch =>
      View(arNet(StationarizedLags(m, x, b)), m.nForecasts, |m.quantiles|))
  }

  /** What the horizon-only accumulator (AR and covariates) holds. */
  function AdditiveHorizon(m: Model, x: Batch, arNet: seq<real> -> seq<real>, b: nat, h: nat, q: nat): real
    requires Shaped(m, x) && ArNetShaped(m, arNet)
    requires b < x.nBatch && h < m.nForecasts && q < |m.quantiles|
  {
    (if "lags" in x.features then ArComponent(m, x, arNet)[b][h][q] else 0.0)
    + (if m.covariates.Some? then x.covariates[b][h][q] else 0.0)
  }

  /** The prediction before reconciliation: the non-stationary components over
      the horizon n_lags..window plus the horizon-only components. */
  function Composed(m: Model, x: Batch, arNet: seq<real> -> seq<real>): (r: Tensor3)
    requires Shaped(m, x) && ArNetShaped(m, arNet)
    ensures IsTensor3(r, x.nBatch, m.nForecasts, |m.quantiles|)
    ensures forall b, h, q | 0 <= b < x.nBatch && 0 <= h < m.nForecasts && 0 <= q < |m.quantiles| ::
      r[b][h][q] == Nonstationary(m, x, b, m.nLags + h, q) + AdditiveHorizon(m, x, arNet, b, h, q)
  {
    seq(x.nBatch, b requires 0 <= b < x.nBatch =>
      seq(m.nForecasts, h requires 0 <= h < m.nForecasts =>
        seq(|m.quantiles|, q requires 0 <= q < |m.quantiles| =>
          Nonstationary(m, x, b, m.nLags + h, q) + AdditiveHorizon(m, x, arNet, b, h, q))))
  }

  /** The raw components dictionary of the forward pass, entry by entry in the
      order the pass adds them. */
  function RawComponents(m: Model, x: Batch, arNet: seq<real> -> seq<real>): map<string, Tensor3>
    requires Shaped(m, x) && ArNetShaped(m, arNet)
  {
    var raw := map["trend" := x.trend];
    var raw := Put(raw, SeasonalityActive(m), "seasonalities", x.seasonalities);
    var raw := Put(raw, EventsOn(m, x, Additive), "additive_events", Events(m, x, Additive));
    var raw := Put(raw, EventsOn(m, x, Multiplicative), "multiplicative_events", Events(m, x, Multiplicative));
    var raw := Put(raw, RegressorsOn(x, Additive), "additive_regressors", x.additiveRegressors);
    var raw := Put(raw, RegressorsOn(x, Multiplicative), "multiplicative_regressors", x.multiplicativeRegressors);
    var raw := Put(raw, "lags" in x.features, "lags", ArComponent(m, x, arNet));
    Put(raw, m.covariates.Some?, "covariates", x.covariates)
  }

  /** The dictionary with the entry added when the condition holds. */
  function Put(d: map<string, Tensor3>, condition: bool, key: string, value: Tensor3): map<string, Tensor3> {
    if condition then d[key := value] else d
  }

  /** The trend is always in the raw dictionary; each non-stationary
      component exactly when it entered the pass. */
  lemma RawComponentsNonstationaryKeys(m: Model, x: Batch, arNet: seq<real> -> seq<real>)
    requires Shaped(m, x) && ArNetShaped(m, arNet)
    ensures var raw := RawComponents(m, x, arNet);
      && "trend" in raw
      && ("seasonalities" in raw <==> SeasonalityActive(m))
      && ("additive_events" in raw <==> EventsOn(m, x, Additive))
      && ("multiplicative_events" in raw <==> EventsOn(m, x, Multiplicative))
  {
  }

  /** The regressors, the AR part and the covariates are in the raw
      dictionary exactly when they entered the pass. */
  lemma RawComponentsOtherKeys(m: Model, x: Batch, arNet: seq<real> -> seq<real>)
    requires Shaped(m, x) && ArNetShaped(m, arNet)
    ensures var raw := RawComponents(m, x, arNet);
      && ("additive_regressors" in raw <==> RegressorsOn(x, Additive))
      && ("multiplicative_regressors" in raw <==> RegressorsOn(x, Multiplicative))
      && ("lags" in raw <==> "lags" in x.features)
      && ("covariates" in raw <==> m.covariates.Some?)
  {
  }

  /** The raw trend entry holds the trend over the whole window. */
  lemma RawComponentsTrend(m: Model, x: Batch, arNet: seq<real> -> seq<real>)
    requires Shaped(m, x) && ArNetShaped(m, arNet)
    ensures "trend" in RawComponents(m, x, arNet) && RawComponents(m, x, arNet)["trend"] == x.trend
  {
    var r0 := map["trend" := x.trend];
    var r1 := Put(r0, SeasonalityActive(m), "seasonalities", x.seasonalities);
    var r2 := Put(r1, EventsOn(m, x, Additive), "additive_events", Events(m, x, Additive));
    var r3 := Put(r2, EventsOn(m, x, Multiplicative), "multiplicative_events", Events(m, x, Multiplicative));
    var r4 := Put(r3, RegressorsOn(x, Additive), "additive_regressors", x.additiveRegressors);
    var r5 := Put(r4, RegressorsOn(x, Multiplicative), "multiplicative_regressors", x.multiplicativeRegressors);
    var r6 := Put(r5, "lags" in x.features, "lags", ArComponent(m, x, arNet));
    var r7 := Put(r6, m.covariates.Some?, "covariates", x.covariates);
    assert RawComponents(m, x, arNet) == r7;
    PutKeeps(r0, SeasonalityActive(m), "seasonalities", x.seasonalities, "trend");
    PutKeeps(r1, EventsOn(m, x, Additive), "additive_events", Events(m, x, Additive), "trend");
    PutKeeps(r2, EventsOn(m, x, Multiplicative), "multiplicative_events", Events(m, x, Multiplicative), "trend");
    PutKeeps(r3, RegressorsOn(x, Additive), "additive_regressors", x.additiveRegressors, "trend");
    PutKeeps(r4, RegressorsOn(x, Multiplicative), "multiplicative_regressors", x.multiplicativeRegressors, "trend");
    PutKeeps(r5, "lags" in x.features, "lags", ArComponent(m, x, arNet), "trend");
    PutKeeps(r6, m.covariates.Some?, "covariates", x.covariates, "trend");
  }

  /** The raw event entries hold each mode's event effects over the whole window. */
  lemma RawComponentsEvents(m: Model, x: Batch, arNet: seq<real> -> seq<real>)
    requires Shaped(m, x) && ArNetShaped(m, arNet)
    ensures var raw := RawComponents(m, x, arNet);
      && ("additive_events" in raw ==> raw["additive_events"] == Events(m, x, Additive))
      && ("multiplicative_events" in raw ==> raw["multiplicative_events"] == Events(m, x, Multiplicative))
  {
    var r0 := map["trend" := x.trend];
    var r1 := Put(r0, SeasonalityActive(m), "seasonalities", x.seasonalities);
    var r2 := Put(r1, EventsOn(m, x, Additive), "additive_events", Events(m, x, Additive));
    var r3 := Put(r2, EventsOn(m, x, Multiplicative), "multiplicative_events", Events(m, x, Multiplicative));
    var r4 := Put(r3, RegressorsOn(x, Additive), "additive_regressors", x.additiveRegressors);
    var r5 := Put(r4, RegressorsOn(x, Multiplicative), "multiplicative_regressors", x.multiplicativeRegressors);
    var r6 := Put(r5, "lags" in x.features, "lags", ArComponent(m, x, arNet));
    var r7 := Put(r6, m.covariates.Some?, "covariates", x.covariates);
    assert RawComponents(m, x, arNet) == r7;
    PutKeeps(r2, EventsOn(m, x, Multiplicative), "multiplicative_events", Events(m, x, Multiplicative), "additive_events");
    forall k | k in ["additive_events", "multiplicative_events"] ensures (k in r7 <==> k in r3) && (k in r3 ==> r7[k] == r3[k]) {
      PutKeeps(r3, RegressorsOn(x, Additive), "additive_regressors", x.additiveRegressors, k);
      PutKeeps(r4, RegressorsOn(x, Multiplicative), "multiplicative_regressors", x.multiplicativeRegressors, k);
      PutKeeps(r5, "lags" in x.features, "lags", ArComponent(m, x, arNet), k);
      PutKeeps(r6, m.covariates.Some?, "covariates", x.covariates, k);
    }
  }

  /** An entry under another key is left as it is. */
  lemma PutKeeps(d: map<string, Tensor3>, condition: bool, key: string, value: Tensor3, other: string)
    requires |other| != |key|
    ensures (other in Put(d, condition, key, value) <==> other in d)
    ensures other in d ==> Put(d, condition, key, value)[other] == d[other]
  {
  }

  /** The raw AR entry holds the AR component and the covariate entry the covariate net's output. */
  lemma RawComponentsHorizonValues(m: Model, x: Batch, arNet: seq<real> -> seq<real>)
    requires Shaped(m, x) && ArNetShaped(m, arNet)
    ensures var raw := RawComponents(m, x, arNet);
      && ("lags" in raw ==> raw["lags"] == ArComponent(m, x, arNet))
      && ("covariates" in raw ==> raw["covariates"] == x.covariates)
  {
  }

  // ---------------------------------------------------------------------------
  // The forward pass, block by block

  /** `Mix` of three tensors over window positions lo..lo+n. */
  function Combine(trend: Tensor3, add: Tensor3, mul: Tensor3, lo: nat, n: nat, nB: nat, nW: nat, nQ: nat)
    : (r: Tensor3)
    requires IsTensor3(trend, nB, nW, nQ) && IsTensor3(add, nB, nW, nQ) && IsTensor3(mul, nB, nW, nQ)
    requires lo + n <= nW
    ensures IsTensor3(r, nB, n, nQ)
    ensures forall b, i, q | 0 <= b < nB && 0 <= i < n && 0 <= q < nQ ::
      r[b][i][q] == Mix(trend[b][lo + i][q], add[b][lo + i][q], mul[b][lo + i][q])
  {
    seq(nB, b requires 0 <= b < nB =>
      seq(n, i requires 0 <= i < n =>
        seq(nQ, q requires 0 <= q < nQ => Mix(trend[b][lo + i][q], add[b][lo + i][q], mul[b][lo + i][q]))))
  }

  /** The seasonality block: the seasonal output goes into the accumulator of
      its mode when seasonality is configured with periods. */
  method SeasonalityBlock(m: Model, x: Batch, add: Tensor3, mul: Tensor3, raw: map<string, Tensor3>)
    returns (add': Tensor3, mul': Tensor3, raw': map<string, Tensor3>)
    requires Shaped(m, x)
    requires IsTensor3(add, x.nBatch, Window(m), |m.quantiles|) && IsTensor3(mul, x.nBatch, Window(m), |m.quantiles|)
    ensures IsTensor3(add', x.nBatch, Window(m), |m.quantiles|) && IsTensor3(mul', x.nBatch, Window(m), |m.quantiles|)
    ensures forall b, t, q | 0 <= b < x.nBatch && 0 <= t < Window(m) && 0 <= q < |m.quantiles| ::
      add'[b][t][q] == add[b][t][q] + SeasonalityTerm(m, x, Additive, b, t, q) &&
      mul'[b][t][q] == mul[b][t][q] + SeasonalityTerm(m, x, Multiplicative, b, t, q)
    ensures raw' == Put(raw, SeasonalityActive(m), "seasonalities", x.seasonalities)
  {
    add', mul', raw' := add, mul, raw;
    if SeasonalityActive(m) {
      if m.seasonality.value.mode == "additive" {
        add' := Add3(add, x.seasonalities, x.nBatch, Window(m), |m.quantiles|);
      } else if m.seasonality.value.mode == "multiplicative" {
        mul' := Add3(mul, x.seasonalities, x.nBatch, Window(m), |m.quantiles|);
      }
      raw' := raw["seasonalities" := x.seasonalities];
    }
  }

  /** The events block: each mode's effects go into that mode's accumulator. */
  method EventsBlock(m: Model, x: Batch, add: Tensor3, mul: Tensor3, raw: map<string, Tensor3>)
    returns (add': Tensor3, mul': Tensor3, raw': map<string, Tensor3>)
    requires Shaped(m, x)
    requires IsTensor3(add, x.nBatch, Window(m), |m.quantiles|) && IsTensor3(mul, x.nBatch, Window(m), |m.quantiles|)
    ensures IsTensor3(add', x.nBatch, Window(m), |m.quantiles|) && IsTensor3(mul', x.nBatch, Window(m), |m.quantiles|)
    ensures forall b, t, q | 0 <= b < x.nBatch && 0 <= t < Window(m) && 0 <= q < |m.quantiles| ::
      add'[b][t][q] == add[b][t][q] + EventsTerm(m, x, Additive, b, t, q) &&
      mul'[b][t][q] == mul[b][t][q] + EventsTerm(m, x, Multiplicative, b, t, q)
    ensures raw' == Put(Put(raw, EventsOn(m, x, Additive), "additive_events", Events(m, x, Additive)),
                        EventsOn(m, x, Multiplicative), "multiplicative_events", Events(m, x, Multiplicative))
  {
    add', mul', raw' := add, mul, raw;
    if m.events.Some? {
      if "additive_events" in x.features {
        var effects := Events(m, x, Additive);
        add' := Add3(add, effects, x.nBatch, Window(m), |m.quantiles|);
        raw' := raw'["additive_events" := effects];
      }
      if "multiplicative_events" in x.features {
        var effects := Events(m, x, Multiplicative);
        mul' := Add3(mul, effects, x.nBatch, Window(m), |m.quantiles|);
        raw' := raw'["multiplicative_events" := effects];
      }
    }
  }

  /** The future regressors block. */
  method RegressorsBlock(m: Model, x: Batch, add: Tensor3, mul: Tensor3, raw: map<string, Tensor3>)
    returns (add': Tensor3, mul': Tensor3, raw': map<string, Tensor3>)
    requires Shaped(m, x)
    requires IsTensor3(add, x.nBatch, Window(m), |m.quantiles|) && IsTensor3(mul, x.nBatch, Window(m), |m.quantiles|)
    ensures IsTensor3(add', x.nBatch, Window(m), |m.quantiles|) && IsTensor3(mul', x.nBatch, Window(m), |m.quantiles|)
    ensures forall b, t, q | 0 <= b < x.nBatch && 0 <= t < Window(m) && 0 <= q < |m.quantiles| ::
      add'[b][t][q] == add[b][t][q] + RegressorsTerm(m, x, Additive, b, t, q) &&
      mul'[b][t][q] == mul[b][t][q] + RegressorsTerm(m, x, Multiplicative, b, t, q)
    ensures raw' == Put(Put(raw, RegressorsOn(x, Additive), "additive_regressors", x.additiveRegressors),
                        RegressorsOn(x, Multiplicative), "multiplicative_regressors", x.multiplicativeRegressors)
  {
    add', mul', raw' := add, mul, raw;
    if "additive_regressors" in x.features {
      add' := Add3(add, x.additiveRegressors, x.nBatch, Window(m), |m.quantiles|);
      raw' := raw'["additive_regressors" := x.additiveRegressors];
    }
    if "multiplicative_regressors" in x.features {
      mul' := Add3(mul, x.multiplicativeRegressors, x.nBatch, Window(m), |m.quantiles|);
      raw' := raw'["multiplicative_regressors" := x.multiplicativeRegressors];
    }
  }

  /** The lags block: the AR-net reads the stationarised lags and its output
      goes into the horizon accumulator. */
  method LagsBlock(m: Model, x: Batch, arNet: seq<real> -> seq<real>, add: Tensor3, mul: Tensor3,
                   additive: Tensor3, raw: map<string, Tensor3>)
    returns (additive': Tensor3, raw': map<string, Tensor3>)
    requires Shaped(m, x) && ArNetShaped(m, arNet)
    requires IsTensor3(add, x.nBatch, Window(m), |m.quantiles|) && IsTensor3(mul, x.nBatch, Window(m), |m.quantiles|)
    requires forall b, t, q | 0 <= b < x.nBatch && 0 <= t < Window(m) && 0 <= q < |m.quantiles| ::
      add[b][t][q] == Accumulated(m, x, Additive, b, t, q) && mul[b][t][q] == Accumulated(m, x, Multiplicative, b, t, q)
    requires IsTensor3(additive, x.nBatch, m.nForecasts, |m.quantiles|)
    ensures IsTensor3(additive', x.nBatch, m.nForecasts, |m.quantiles|)
    ensures forall b, h, q | 0 <= b < x.nBatch && 0 <= h < m.nForecasts && 0 <= q < |m.quantiles| ::
      additive'[b][h][q] == additive[b][h][q] + (if "lags" in x.features then ArComponent(m, x, arNet)[b][h][q] else 0.0)
    ensures raw' == Put(raw, "lags" in x.features, "lags", ArComponent(m, x, arNet))
  {
    additive', raw' := additive, raw;
    if "lags" in x.features {
      var nonstationary := Combine(x.trend, add, mul, 0, m.nLags, x.nBatch, Window(m), |m.quantiles|);
      var stationarized := seq(x.nBatch, b requires 0 <= b < x.nBatch =>
        seq(m.nLags, l requires 0 <= l < m.nLags => x.lags[b][l] - nonstationary[b][l][0]));
      var lags := seq(x.nBatch, b requires 0 <= b < x.nBatch =>
        View(arNet(stationarized[b]), m.nForecasts, |m.quantiles|));
      forall b | 0 <= b < x.nBatch ensures stationarized[b] == StationarizedLags(m, x, b) {
        assert forall l | 0 <= l < m.nLags :: nonstationary[b][l][0] == Nonstationary(m, x, b, l, 0);
      }
      assert lags == ArComponent(m, x, arNet);
      additive' := Add3(additive, lags, x.nBatch, m.nForecasts, |m.quantiles|);
      raw' := raw["lags" := lags];
    }
  }

  /** The covariates block: the covariate net's output joins the horizon accumulator. */
  method CovariatesBlock(m: Model, x: Batch, additive: Tensor3, raw: map<string, Tensor3>)
    returns (additive': Tensor3, raw': map<string, Tensor3>)
    requires Shaped(m, x) && IsTensor3(additive, x.nBatch, m.nForecasts, |m.quantiles|)
    ensures IsTensor3(additive', x.nBatch, m.nForecasts, |m.quantiles|)
    ensures forall b, h, q | 0 <= b < x.nBatch && 0 <= h < m.nForecasts && 0 <= q < |m.quantiles| ::
      additive'[b][h][q] == additive[b][h][q] + (if m.covariates.Some? then x.covariates[b][h][q] else 0.0)
    ensures raw' == Put(raw, m.covariates.Some?, "covariates", x.covariates)
  {
    additive', raw' := additive, raw;
    if m.covariates.Some? {
      additive' := Add3(additive, x.covariates, x.nBatch, m.nForecasts, |m.quantiles|);
      raw' := raw["covariates" := x.covariates];
    }
  }

  /** The three blocks that fill the non-stationary accumulators, from zero. */
  method NonstationaryAccumulators(m: Model, x: Batch, raw: map<string, Tensor3>)
    returns (add: Tensor3, mul: Tensor3, raw': map<string, Tensor3>)
    requires Shaped(m, x)
    ensures IsTensor3(add, x.nBatch, Window(m), |m.quantiles|) && IsTensor3(mul, x.nBatch, Window(m), |m.quantiles|)
    ensures forall b, t, q | 0 <= b < x.nBatch && 0 <= t < Window(m) && 0 <= q < |m.quantiles| ::
      add[b][t][q] == Accumulated(m, x, Additive, b, t, q) && mul[b][t][q] == Accumulated(m, x, Multiplicative, b, t, q)
    ensures raw' ==
      var r := Put(raw, SeasonalityActive(m), "seasonalities", x.seasonalities);
      var r := Put(r, EventsOn(m, x, Additive), "additive_events", Events(m, x, Additive));
      var r := Put(r, EventsOn(m, x, Multiplicative), "multiplicative_events", Events(m, x, Multiplicative));
      var r := Put(r, RegressorsOn(x, Additive), "additive_regressors", x.additiveRegressors);
      Put(r, RegressorsOn(x, Multiplicative), "multiplicative_regressors", x.multiplicativeRegressors)
  {
    var nB, nW, nQ := x.nBatch, Window(m), |m.quantiles|;
    var add0 := Zeros3(nB, nW, nQ);
    var mul0 := Zeros3(nB, nW, nQ);
    var add1, mul1, add2, mul2;
    add1, mul1, raw' := SeasonalityBlock(m, x, add0, mul0, raw);
    add2, mul2, raw' := EventsBlock(m, x, add1, mul1, raw');
    add, mul, raw' := RegressorsBlock(m, x, add2, mul2, raw');
  }

  /** Copies the prediction into a (batch, n_forecasts, quantiles) array and
      reconciles its quantiles there. */
  method Reconcile(qs: seq<real>, total: Tensor3, nB: nat, nH: nat, predictMode: bool)
    returns (prediction: array3<real>)
    requires MedianFirst(qs) && IsTensor3(total, nB, nH, |qs|)
    ensures fresh(prediction)
    ensures prediction.Length0 == nB && prediction.Length1 == nH && prediction.Length2 == |qs|
    ensures forall b, h | 0 <= b < nB && 0 <= h < nH :: Row(prediction, b, h) == Reconciled(qs, total[b][h], predictMode)
  {
    var diffs := new real[nB, nH, |qs|]((b, h, q) requires 0 <= b < nB && 0 <= h < nH && 0 <= q < |qs| =>
      total[b][h][q]);
    forall b, h | 0 <= b < nB && 0 <= h < nH ensures Row(diffs, b, h) == total[b][h] {
    }
    prediction := ComputeQuantileForecasts(qs, diffs, predictMode);
  }

  /** The accumulators combine to the composed prediction. */
  lemma PredictionIsComposed(m: Model, x: Batch, arNet: seq<real> -> seq<real>, add: Tensor3, mul: Tensor3,
                             additive: Tensor3)
    requires Shaped(m, x) && ArNetShaped(m, arNet)
    requires IsTensor3(add, x.nBatch, Window(m), |m.quantiles|) && IsTensor3(mul, x.nBatch, Window(m), |m.quantiles|)
    requires forall b, t, q | 0 <= b < x.nBatch && 0 <= t < Window(m) && 0 <= q < |m.quantiles| ::
      add[b][t][q] == Accumulated(m, x, Additive, b, t, q) && mul[b][t][q] == Accumulated(m, x, Multiplicative, b, t, q)
    requires IsTensor3(additive, x.nBatch, m.nForecasts, |m.quantiles|)
    requires forall b, h, q | 0 <= b < x.nBatch && 0 <= h < m.nForecasts && 0 <= q < |m.quantiles| ::
      additive[b][h][q] == AdditiveHorizon(m, x, arNet, b, h, q)
    ensures Add3(Combine(x.trend, add, mul, m.nLags, m.nForecasts, x.nBatch, Window(m), |m.quantiles|),
                 additive, x.nBatch, m.nForecasts, |m.quantiles|) == Composed(m, x, arNet)
  {
    var nB, nH, nQ := x.nBatch, m.nForecasts, |m.quantiles|;
    var c := Combine(x.trend, add, mul, m.nLags, nH, nB, Window(m), nQ);
    var total := Add3(c, additive, nB, nH, nQ);
    var composed := Composed(m, x, arNet);
    forall b | 0 <= b < nB ensures total[b] == composed[b] {
      forall h | 0 <= h < nH ensures total[b][h] == composed[b][h] {
        forall q | 0 <= q < nQ ensures total[b][h][q] == composed[b][h][q] {
          var t := m.nLags + h;
          assert c[b][h][q] == Mix(x.trend[b][t][q], add[b][t][q], mul[b][t][q]);
          assert add[b][t][q] == Accumulated(m, x, Additive, b, t, q);
          assert mul[b][t][q] == Accumulated(m, x, Multiplicative, b, t, q);
          assert total[b][h][q] == c[b][h][q] + additive[b][h][q];
        }
      }
    }
  }

  /** `forward(input, mode)`: accumulates the enabled components, reconciles the
      quantiles (crossing correction outside training) and returns the forecast
      with the raw components dictionary. */
  method Forward(m: Model, x: Batch, arNet: seq<real> -> seq<real>, mode: string)
    returns (prediction: array3<real>, raw: map<string, Tensor3>)
    requires MedianFirst(m.quantiles) && Shaped(m, x) && ArNetShaped(m, arNet)
    ensures fresh(prediction)
    ensures prediction.Length0 == x.nBatch && prediction.Length1 == m.nForecasts
    ensures prediction.Length2 == |m.quantiles|
    ensures forall b, h | 0 <= b < x.nBatch && 0 <= h < m.nForecasts ::
      Row(prediction, b, h) == Reconciled(m.quantiles, Composed(m, x, arNet)[b][h], mode != "train")
    ensures raw == RawComponents(m, x, arNet)
  {
    var nB, nW, nH, nQ := x.nBatch, Window(m), m.nForecasts, |m.quantiles|;
    var additive := Zeros3(nB, nH, nQ);
    raw := map["trend" := x.trend];
    var add, mul;
    add, mul, raw := NonstationaryAccumulators(m, x, raw);
    additive, raw := LagsBlock(m, x, arNet, add, mul, additive, raw);
    additive, raw := CovariatesBlock(m, x, additive, raw);

    var predictionsNonstationary := Combine(x.trend, add, mul, m.nLags, nH, nB, nW, nQ);
    var total := Add3(predictionsNonstationary, additive, nB, nH, nQ);
    PredictionIsComposed(m, x, arNet, add, mul, additive);
    prediction := Reconcile(m.quantiles, total, nB, nH, mode != "train");
  }

  /** The condition under which the forecast is the trend alone. */
  predicate OnlyTrend(m: Model, x: Batch) {
    && !SeasonalityActive(m)
    && !EventsOn(m, x, Additive) && !EventsOn(m, x, Multiplicative)
    && !RegressorsOn(x, Additive) && !RegressorsOn(x, Multiplicative)
    && "lags" !in x.features
    && m.covariates.None?
  }

  /** Without seasonality, events, regressors, lags and covariates the
      prediction before reconciliation is the trend over the horizon. */
  lemma OnlyTrendPrediction(m: Model, x: Batch, arNet: seq<real> -> seq<real>)
    requires Shaped(m, x) && ArNetShaped(m, arNet) && OnlyTrend(m, x)
    ensures forall b, h | 0 <= b < x.nBatch && 0 <= h < m.nForecasts ::
      Composed(m, x, arNet)[b][h] == x.trend[b][m.nLags + h]
  {
    forall b, h | 0 <= b < x.nBatch && 0 <= h < m.nForecasts
      ensures Composed(m, x, arNet)[b][h] == x.trend[b][m.nLags + h]
    {
      forall q | 0 <= q < |m.quantiles| ensures Composed(m, x, arNet)[b][h][q] == x.trend[b][m.nLags + h][q] {
        assert Accumulated(m, x, Additive, b, m.nLags + h, q) == 0.0;
        assert Accumulated(m, x, Multiplicative, b, m.nLags + h, q) == 0.0;
        assert Composed(m, x, arNet)[b][h][q] == Nonstationary(m, x, b, m.nLags + h, q) + AdditiveHorizon(m, x, arNet, b, h, q);
      }
    }
  }

  /** With no multiplicative part the composition is a plain sum: the trend
      scales nothing. */
  lemma AdditiveOnlyIsSum(m: Model, x: Batch, arNet: seq<real> -> seq<real>, b: nat, h: nat, q: nat)
    requires Shaped(m, x) && ArNetShaped(m, arNet)
    requires b < x.nBatch && h < m.nForecasts && q < |m.quantiles|
    requires !(SeasonalityActive(m) && m.seasonality.value.mode == "multiplicative")
    requires !EventsOn(m, x, Multiplicative) && !RegressorsOn(x, Multiplicative)
    ensures Composed(m, x, arNet)[b][h][q] ==
      x.trend[b][m.nLags + h][q] + Accumulated(m, x, Additive, b, m.nLags + h, q) + AdditiveHorizon(m, x, arNet, b, h, q)
  {
    assert Accumulated(m, x, Multiplicative, b, m.nLags + h, q) == 0.0;
  }

  /** The AR input reads only the first n_lags window positions, and of the
      quantile-wide inputs only their median channel: two batches with the
      same feature keys that agree on a row's lags, on channel 0 of its trend,
      seasonality and regressor inputs and on its event features at those
      positions give that row the same AR input, whatever their other channels
      and horizon positions hold. */
  lemma {:induction false} StationarizedLagsUseMedianWindow(m: Model, x: Batch, y: Batch, b: nat)
    requires Shaped(m, x) && Shaped(m, y) && b < x.nBatch && b < y.nBatch
    requires x.features == y.features && x.lags[b] == y.lags[b]
    requires forall l | 0 <= l < m.nLags ::
      && x.trend[b][l][0] == y.trend[b][l][0]
      && x.seasonalities[b][l][0] == y.seasonalities[b][l][0]
      && x.additiveRegressors[b][l][0] == y.additiveRegressors[b][l][0]
      && x.multiplicativeRegressors[b][l][0] == y.multiplicativeRegressors[b][l][0]
      && x.additiveEventFeatures[b][l] == y.additiveEventFeatures[b][l]
      && x.multiplicativeEventFeatures[b][l] == y.multiplicativeEventFeatures[b][l]
    ensures StationarizedLags(m, x, b) == StationarizedLags(m, y, b)
  {
    forall l | 0 <= l < m.nLags ensures StationarizedLags(m, x, b)[l] == StationarizedLags(m, y, b)[l] {
      forall k: Mode ensures Accumulated(m, x, k, b, l, 0) == Accumulated(m, y, k, b, l, 0) {
        assert Events(m, x, k)[b][l][0] == Events(m, y, k)[b][l][0];
      }
      assert Nonstationary(m, x, b, l, 0) == Nonstationary(m, y, b, l, 0);
    }
  }
}
