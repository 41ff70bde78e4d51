/** The configuration records the model reads (from neuralprophet.configure and
    neuralprophet.configure_components), reduced to the fields the model consults. */
module Configs {
  import opened Tensors

  datatype TrendConfig = TrendConfig(
    nChangepoints: nat,
    trendReg: Option<real>,
    trendGlobalLocal: string,    // "global", "local" or "glocal"
    trendLocalReg: Option<real>)

  datatype SeasonalityConfig = SeasonalityConfig(
    mode: string,                // "additive" or "multiplicative" once validated
    periods: seq<string>,        // names of the configured periodic terms
    regLambda: Option<real>,
    globalLocal: string,
    seasonalityLocalReg: Option<real>)

  /** One entry of `events_dims`: an event or holiday, its mode and the feature
      columns (one per window offset) it owns in its mode's parameter block. */
  datatype EventDims = EventDims(
    name: string,
    mode: string,
    eventIndices: seq<nat>,
    eventDelims: seq<string>)

  datatype LaggedRegressor = LaggedRegressor(name: string, nLags: nat)

  datatype LaggedRegressorsConfig = LaggedRegressorsConfig(
    regressors: Option<seq<LaggedRegressor>>,
    layers: seq<nat>)

  /** One entry of the future regressors' `regressors_dims`. */
  datatype RegressorDims = RegressorDims(name: string, mode: string, regressorIndex: nat)

  /** Python truthiness of an optional number: neither None nor zero. */
  predicate Truthy(x: Option<real>) { x.Some? && x.value != 0.0 }

  /** `x is not None and x > 0` */
  predicate PositiveSome(x: Option<real>) { x.Some? && x.value > 0.0 }
}
