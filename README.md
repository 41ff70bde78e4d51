# TimeNet core of NeuralProphet, modelled in Dafny

This project models the hand-written logic of `neuralprophet/time_net.py`. That is the
code of the `TimeNet` Lightning module that sits between its PyTorch sub-networks:

- how the quantile forecasts are reconciled from the network's quantile differences;
- how `forward` composes the trend, seasonality, event, regressor, AR and covariate
  parts into one prediction;
- how events act on the forecast as scalar features;
- how `compute_components` breaks the forecast down into named components, including
  how the covariate-net output is shared out by attribution;
- what the constructor checks and which dimensions it fixes (event parameter counts,
  AR-net and covariate-net layer chains);
- `get_event_weights` and the covariate split of `get_covar_weights`;
- the data loss and the gating of the batch regularisation terms;
- the component-inclusion flag and the per-mode stacker table;
- one training step (progress, its forward pass, loss, the optimiser and scheduler
  sequence, the metrics' denormalisation);
- `denormalize`.

Tensors are sequences of `real`. A `(batch, step, quantile)` tensor is a
`seq<seq<seq<real>>>`, or an `array3<real>` where the source writes in place.
Reals are exact, so float rounding is not modelled.

The sub-networks are inputs:
- the outputs of the trend, seasonality and future-regressor modules are tensors in the
  batch;
- the AR-net is a function from a row of stationarised lags to a row of outputs;
- the covariate net's output is a tensor in the batch;
- `compute_fourier`, the future-regressor effect of a regressor and the
  `interprete_model` attributions are function parameters or values.

The set of feature keys that `components_stacker[mode].feature_indices` holds is a
`set<string>` in the batch.

Python exceptions become `Err` values of one `Error` datatype: `ValueError`, `KeyError`,
`AttributeError`, `AssertionError`, `TypeError` and `ZeroDivisionError`. Each carries
the key, the missing attribute's name or the message the source produces; a bare
`raise` or `assert` carries an empty message. A non-finite value (NaN or infinity, which torch
produces without raising) becomes `NonFinite`.

Modules, one per concern of the source:

- `Tensors` (tensors.dfy): shapes, zero tensors, element-wise sums, step slices, and
  sums of sequences.
- `Configs` (configs.dfy): the configuration records the core reads.
- `QuantileForecasts` (quantiles.dfy): `_compute_quantile_forecasts_from_diffs`, as an
  in-place method on `array3<real>`. It is proved against the specification functions
  `Clamped` and `Reconciled`.
- `ScalarEffects` (scalar_effects.dfy): `scalar_features_effects`, and the decomposition
  of an effect over a partition of the features.
- `Construction` (construction.dfy): the constructor's seasonality and event checks, the
  layer chains, `DeepNet`, `get_event_weights` and `get_covar_weights`.
- `Composition` (composition.dfy): `forward`'s accumulators, its raw component
  dictionary and the final prediction.
- `Components` (components.dfy): `compute_components`.
- `Loss` (loss.dfy): `loss_func` and `_add_batch_regularizations`.
- `Network` (timenet.dfy): the `TimeNet` object's mutable state, as class `TimeNet`.
  This covers `set_compute_components`, `reset_compute_components`,
  `set_components_stacker`, `forward` through the stacker table, and `training_step`.
  The module also holds `denormalize`.

Python dictionaries become Dafny maps. Where the order of a dictionary matters to the
result, the model uses a sequence in the source's order instead: `events_dims`, the
lagged regressors and the future regressors.

## Model

| member | source | states |
|---|---|---|
| QuantileForecasts.Divider | neuralprophet/time_net.py:414-417 | the divider is the first index whose quantile exceeds 0.5, or the number of quantiles when none does |
| QuantileForecasts.Clamped | neuralprophet/time_net.py:425-448 | the offsets after the crossing correction keep the number of quantiles |
| QuantileForecasts.Reconciled | neuralprophet/time_net.py:411-454 | the reconciled row has one value per quantile |
| QuantileForecasts.UpperClampIsLeastBound | neuralprophet/time_net.py:427-434 | each corrected upper offset is the least value that is at least 0 and at least every raw upper offset up to it |
| QuantileForecasts.LowerClampIsLeastBound | neuralprophet/time_net.py:441-448 | each corrected lower offset is the least value that is at least 0 and at least every raw lower offset from it to the divider |
| QuantileForecasts.UpperClampMonotone | neuralprophet/time_net.py:431-434 | corrected upper offsets never decrease away from the median |
| QuantileForecasts.LowerClampAntitone | neuralprophet/time_net.py:445-448 | corrected lower offsets never decrease towards the outermost lower quantile |
| QuantileForecasts.SingleQuantileIdentity | neuralprophet/time_net.py:411-412 | with at most one quantile the output is the input and nothing is corrected |
| QuantileForecasts.MedianUnchanged | neuralprophet/time_net.py:422-423 | channel 0 of the output and of the corrected offsets is the input median, in every mode |
| QuantileForecasts.TrainModeUnclamped | neuralprophet/time_net.py:425-452 | in train mode nothing is corrected; each upper quantile is the median plus its offset and each lower quantile the median minus its offset |
| QuantileForecasts.PredictModeNoCrossing | neuralprophet/time_net.py:425-452 | in predict mode the lower quantiles rise towards the median, the median lies between the lower and the upper quantiles, and the upper quantiles rise away from it |
| QuantileForecasts.PredictModeWidens | neuralprophet/time_net.py:427-452 | the correction only moves quantiles away from the median |
| QuantileForecasts.UpperDone | neuralprophet/time_net.py:427-434 | the upper offsets after the running-max loop has reached a position keep the row's length |
| QuantileForecasts.LowerDone | neuralprophet/time_net.py:441-448 | the lower offsets after the backward running-max loop has reached a position keep the row's length |
| QuantileForecasts.UpperDoneStart | neuralprophet/time_net.py:428-430 | the first upper offset is floored at 0 |
| QuantileForecasts.UpperDoneStep | neuralprophet/time_net.py:431-434 | one loop step raises the next upper offset to the current one |
| QuantileForecasts.LowerDoneStart | neuralprophet/time_net.py:442-444 | the last lower offset is floored at 0 |
| QuantileForecasts.LowerDoneStep | neuralprophet/time_net.py:445-448 | one backward loop step raises the previous lower offset to the current one |
| QuantileForecasts.LowerClampFrame | neuralprophet/time_net.py:445-448 | the lower correction reads only the lower offsets |
| QuantileForecasts.StagesGiveClamped | neuralprophet/time_net.py:425-448 | the upper loop followed by the lower loop gives the corrected offsets |
| QuantileForecasts.Row | neuralprophet/time_net.py:396-454 | the quantile row of an `array3` at a batch and step holds that row's entries |
| QuantileForecasts.FloorChannel | neuralprophet/time_net.py:428-430 | `diffs[:, :, c] = max(0, diffs[:, :, c])`: only channel c changes, in every row |
| QuantileForecasts.MaxIntoChannel | neuralprophet/time_net.py:432-434 | `diffs[:, :, dst] = max(diffs[:, :, dst], diffs[:, :, src])`: only channel dst changes, in every row |
| QuantileForecasts.ClampUpperOffsets | neuralprophet/time_net.py:427-434 | the upper clamping loop leaves every row of `diffs` holding `UpperDone` of its old value |
| QuantileForecasts.ClampLowerOffsets | neuralprophet/time_net.py:441-448 | the lower clamping loop leaves every row of `diffs` holding `LowerDone` of its old value |
| QuantileForecasts.SetUpperQuantiles | neuralprophet/time_net.py:435-437 | every upper channel of `out` becomes offset plus median; every other channel is unchanged |
| QuantileForecasts.SetLowerQuantiles | neuralprophet/time_net.py:449-452 | every lower channel of `out` becomes median minus offset; every other channel is unchanged |
| QuantileForecasts.UpperPhase | neuralprophet/time_net.py:425-437 | the upper block clamps `diffs` through its view only in predict mode, then writes the upper channels of `out` |
| QuantileForecasts.LowerPhase | neuralprophet/time_net.py:439-452 | the lower block clamps `diffs` through its view only in predict mode, then writes the lower channels of `out` |
| QuantileForecasts.AssembleRow | neuralprophet/time_net.py:419-452 | the two blocks together give `Clamped` in `diffs` and `Reconciled` in `out` |
| QuantileForecasts.ComputeQuantileForecasts | neuralprophet/time_net.py:396-454 | with at most one quantile the input array itself is returned; otherwise a fresh array whose every row is `Reconciled` of the old row; the caller's `diffs` rows end up `Clamped` |
| ScalarEffects.Effect | neuralprophet/time_net.py:456-479 | the effect at one position has one value per quantile |
| ScalarEffects.EffectsTensor | neuralprophet/time_net.py:456-479 | `scalar_features_effects` keeps batch and step and puts quantiles last, with the effect of each position |
| ScalarEffects.GatheredRangeIsDot | neuralprophet/time_net.py:473-478 | gathering a contiguous index range is the dot product over that range |
| ScalarEffects.GatheredConcat | neuralprophet/time_net.py:473-478 | gathering two index lists one after the other adds their effects |
| ScalarEffects.GatheredPermutation | neuralprophet/time_net.py:473-478 | the order of the index list does not change the effect |
| ScalarEffects.SumOfGatheredIsFlatten | neuralprophet/time_net.py:473-478 | the effects of several index lists add up to the effect of their concatenation |
| ScalarEffects.PartitionedDot | neuralprophet/time_net.py:473-478 | for index lists partitioning the features, the full dot product is the sum of the per-list ones |
| ScalarEffects.PartitionedEffect | neuralprophet/time_net.py:473-479 | for disjoint index lists covering all features, the unrestricted effect of each quantile is the sum of the restricted ones |
| ScalarEffects.AllIndicesIsNone | neuralprophet/time_net.py:473-479 | restricting to all indices in order is the same as no restriction |
| Construction.CheckSeasonality | neuralprophet/time_net.py:211-215 | the constructor accepts seasonality exactly when it is absent, or additive, or multiplicative with a trend; multiplicative without trend is reported first |
| Construction.CoercedMode | neuralprophet/time_net.py:235-237 | an event mode is kept when it is additive or multiplicative, and otherwise becomes additive |
| Construction.ColumnsAppend | neuralprophet/time_net.py:238-244 | counting one more event adds its index count to its mode's total only |
| Construction.ColumnsSplit | neuralprophet/time_net.py:238-244 | once modes are coerced, the additive and multiplicative columns together are all event columns |
| Construction.CountEventParams | neuralprophet/time_net.py:231-252 | fails with ValueError exactly when a multiplicative event meets a missing trend; otherwise every mode is coerced and each block has as many columns as its mode's `event_indices` hold |
| Construction.CountedColumnsCoverAll | neuralprophet/time_net.py:231-252 | the two parameter blocks together cover every event index |
| Construction.TotalColumnsSameIndices | neuralprophet/time_net.py:235-237 | coercing modes does not change the total column count |
| Construction.LayerChainShape | neuralprophet/time_net.py:262-269 | one affine layer and one ReLU per hidden width, each reading the previous width, then the output layer |
| Construction.BuildLayers | neuralprophet/time_net.py:262-270 | the layer-building loop gives that chain |
| Construction.ArNetLayers | neuralprophet/time_net.py:261-270 | an AR-net exists exactly when n_lags > 0; it reads n_lags inputs, has no bias on the output layer, and outputs n_forecasts times the number of quantiles; its first layer, whose weight `ar_weights` (307-313) returns, is affine over the n_lags inputs |
| Construction.CovarNetLayers | neuralprophet/time_net.py:276-290 | a covariate net exists exactly when lagged regressors are configured; it reads the summed lags of all covariates |
| Construction.DeepNetLayersAsWritten | neuralprophet/time_net.py:1068-1077 | as written, DeepNet is a single affine layer from d_inputs to d_outputs, whatever layers are passed |
| Construction.DeepNetIgnoresLayers | neuralprophet/time_net.py:1071-1077 | with hidden widths [4], the written network has one layer where the intended one has three |
| Construction.DeepNetLayersShape | neuralprophet/time_net.py:1068-1077 | the corrected DeepNet has a ReLU-separated affine layer per hidden width, then the output layer |
| Construction.ColumnSlice | neuralprophet/time_net.py:393 | `params[:, i:i+1]` is column i of every row, or empty where the column does not exist |
| Construction.FindEvent | neuralprophet/time_net.py:382 | the lookup returns an event of that name, and fails only when there is none |
| Construction.OffsetColumnsKeys | neuralprophet/time_net.py:391-394 | the weights dictionary has one key per delimiter paired with an index, the zip stopping at the shorter list |
| Construction.OffsetColumnsValue | neuralprophet/time_net.py:392-393 | each delimiter maps to the column of its paired index |
| Construction.GetEventWeights | neuralprophet/time_net.py:369-394 | with no events configured, subscripting `None` raises TypeError; an unknown event name raises KeyError with the name; only a mode that is neither additive nor multiplicative fails the bare assertion |
| Construction.EventWeightsColumns | neuralprophet/time_net.py:382-394 | each offset of an event maps to its column in the block of the event's mode |
| Construction.PrefixSums | neuralprophet/time_net.py:335-337 | the accumulated sums have one entry per count |
| Construction.PrefixSumsAt | neuralprophet/time_net.py:335-337 | each accumulated sum is the total of the counts up to and including it |
| Construction.LagCounts | neuralprophet/time_net.py:336 | one lag count per lagged regressor, in configuration order |
| Construction.CovarSplits | neuralprophet/time_net.py:335-337 | there is one split point fewer than there are covariates |
| Construction.TensorSplit | neuralprophet/time_net.py:347-351 | `tensor_split` along the columns gives one chunk more than there are split points |
| Construction.TotalOfLagCounts | neuralprophet/time_net.py:279 | the lag counts add up to the covariate net's input width |
| Construction.LagCountsSum | neuralprophet/time_net.py:279 | the same total, computed front to back |
| Construction.CovarSplitsShape | neuralprophet/time_net.py:335-351 | the split points rise and stay within the input width, and chunk k is exactly covariate k's lag count wide |
| Construction.GetCovarWeights | neuralprophet/time_net.py:329-356 | attributions exist exactly when lagged regressors are configured |
| Construction.CovarWeightsBlocks | neuralprophet/time_net.py:333-353 | each covariate is paired with its name and with exactly its own lag columns of the first-layer weight (no hidden layers) or of the interpreted attributions |
| Composition.Events | neuralprophet/time_net.py:583-599 | an event block's effect has the window shape |
| Composition.StationarizedLags | neuralprophet/time_net.py:623-628 | the AR-net reads one stationarised value per lag |
| Composition.StationarizedLagsUseMedianWindow | neuralprophet/time_net.py:623-627 | two batches with the same feature keys that agree on a row's lags, on channel 0 of its trend, seasonality and regressor inputs and on its event features at the first n_lags positions give that row the same AR input |
| Composition.ViewRow | neuralprophet/time_net.py:494 | a horizon row of the reshaped AR output has one value per quantile |
| Composition.View | neuralprophet/time_net.py:492-495 | `view(batch, n_forecasts, quantiles)` gives an n_forecasts by quantiles matrix |
| Composition.ViewAt | neuralprophet/time_net.py:494 | entry (h, q) of the view is entry h·Q + q of the flat output |
| Composition.ArComponent | neuralprophet/time_net.py:481-495 | the AR component has the prediction's shape |
| Composition.Composed | neuralprophet/time_net.py:644-650 | each prediction entry is the horizon slice of trend plus additive plus trend-times-multiplicative parts, plus the AR and covariate parts |
| Composition.RawComponents | neuralprophet/time_net.py:564-641 | `forward`'s `components` dictionary: its keys are stated by RawComponentsNonstationaryKeys and RawComponentsOtherKeys, its values by RawComponentsTrend, RawComponentsEvents and RawComponentsHorizonValues |
| Composition.RawComponentsNonstationaryKeys | neuralprophet/time_net.py:564-599 | the raw dictionary's seasonality and event keys are present exactly under the conditions `forward` tests, events needing both `events_dims` and the feature key |
| Composition.RawComponentsOtherKeys | neuralprophet/time_net.py:602-641 | regressor keys need only the feature key, "lags" only the feature key, "covariates" only the configuration |
| Composition.RawComponentsTrend | neuralprophet/time_net.py:564-565 | "trend" is always present and holds the trend |
| Composition.RawComponentsEvents | neuralprophet/time_net.py:588-599 | the event entries hold the scalar effects of the event features |
| Composition.RawComponentsHorizonValues | neuralprophet/time_net.py:629-641 | "lags" holds the AR component and "covariates" the covariate-net output |
| Composition.Combine | neuralprophet/time_net.py:644-649 | the nonstationary part at each horizon position is trend plus additive plus trend times multiplicative |
| Composition.SeasonalityBlock | neuralprophet/time_net.py:568-578 | seasonality is added to the additive or the multiplicative accumulator according to its mode, and recorded |
| Composition.EventsBlock | neuralprophet/time_net.py:581-599 | each present event block is added to its accumulator and recorded |
| Composition.RegressorsBlock | neuralprophet/time_net.py:602-617 | each present regressor block is added to its accumulator and recorded |
| Composition.LagsBlock | neuralprophet/time_net.py:620-631 | with lags present, the AR component of the stationarised lags is added to the horizon accumulator and recorded |
| Composition.CovariatesBlock | neuralprophet/time_net.py:634-641 | with lagged regressors configured, the covariate-net output is added and recorded |
| Composition.NonstationaryAccumulators | neuralprophet/time_net.py:549-617 | the two window accumulators start at zero and end as the sums of the enabled blocks |
| Composition.Reconcile | neuralprophet/time_net.py:653-655 | the prediction is reconciled row by row in the mode's predict setting |
| Composition.PredictionIsComposed | neuralprophet/time_net.py:644-650 | the accumulators give `Composed` |
| Composition.Forward | neuralprophet/time_net.py:540-674 | every prediction row is `Reconciled` of the composed row, clamped unless the mode is "train"; the raw components are the dictionary `forward` builds |
| Composition.OnlyTrendPrediction | neuralprophet/time_net.py:550-650 | with no seasonality, events, regressors, lags or covariates, the prediction before reconciliation is the trend over the horizon slice |
| Composition.AdditiveOnlyIsSum | neuralprophet/time_net.py:644-650 | without multiplicative parts, the prediction is trend plus the additive parts |
| Components.Horizon | neuralprophet/time_net.py:691 | `[:, n_lags:window, :]` is the horizon slice |
| Components.EventComponent | neuralprophet/time_net.py:728-739 | a per-event component has the prediction's shape |
| Components.EventEntries | neuralprophet/time_net.py:728-739 | the per-event loop of `compute_components`: its failure by EventEntriesOk, its keys by EventEntriesKeys, its values by EventEntriesValue and EventComponentAt |
| Components.EventEntriesOk | neuralprophet/time_net.py:728-739 | the per-event loop fails exactly when the input of some event's mode is missing |
| Components.EventEntriesKeys | neuralprophet/time_net.py:737 | every per-event key begins with "event_" |
| Components.EventEntriesValue | neuralprophet/time_net.py:737-739 | "event_" plus each event's name holds that event's scalar effect over the horizon |
| Components.SumModeEffectsIsSumOfGathered | neuralprophet/time_net.py:728-739 | the per-event effects of one mode add up to the gathered effect of their index lists |
| Components.EventComponentAt | neuralprophet/time_net.py:728-739 | each event's entry at (b, h, q) is the dot product, over the event's own columns, of the horizon features of its mode's block with that block's parameter row q: the additive block for an additive event, the multiplicative block for any other |
| Components.AdditiveEventsDecompose | neuralprophet/time_net.py:728-739 | when the additive events' indices partition the features, their per-event components add up to the additive events component |
| Components.SumSharesPrefix | neuralprophet/time_net.py:705-717 | the shares of the first k covariates are their attribution total over the grand total |
| Components.SharesSumToOne | neuralprophet/time_net.py:705-717 | with a nonzero total, the shares of all covariates sum to 1 |
| Components.ScaledRow | neuralprophet/time_net.py:712-718 | a scaled horizon row keeps one value per quantile |
| Components.CovariateComponent | neuralprophet/time_net.py:712-718 | a covariate's component has the prediction's shape |
| Components.CovariateComponentAt | neuralprophet/time_net.py:712-718 | each entry of a covariate's component is the covariate-net output times that covariate's share of the (h, q) attribution |
| Components.SumCovariateComponentsScaled | neuralprophet/time_net.py:705-718 | the first k covariate components add up to the output times the first k shares |
| Components.CovariateComponentsSum | neuralprophet/time_net.py:699-718 | the per-covariate components sum to the covariate-net output |
| Components.CovariateEntriesKeys | neuralprophet/time_net.py:708-712 | every covariate key begins with "lagged_regressor_" |
| Components.CovariateEntriesValue | neuralprophet/time_net.py:708-718 | "lagged_regressor_" plus each covariate's name holds that covariate's component |
| Components.CovariateEntries | neuralprophet/time_net.py:699-718 | an empty attribution dictionary fails the reduce with TypeError; a zero total gives non-finite shares; otherwise every key is a covariate key |
| Components.RegressorEntriesContent | neuralprophet/time_net.py:751-762 | a regressor's key is present exactly when its mode's input is present, and then holds its effect |
| Components.RegressorEntriesAbsent | neuralprophet/time_net.py:751-762 | no key is made for a name that is not a regressor |
| Components.RegressorEntriesKeys | neuralprophet/time_net.py:751-762 | every per-regressor key begins with "future_regressor" |
| Components.RegressorSlicesKeys | neuralprophet/time_net.py:740-749 | the regressor block keys begin with "future_regressor" |
| Components.RegressorSlicesLongKeys | neuralprophet/time_net.py:740-749 | the regressor block keys begin with "future_regressors_" and so never equal a per-regressor key |
| Components.RegressorEntriesAllKeys | neuralprophet/time_net.py:740-762 | every regressor key begins with "future_regressor" |
| Components.RegressorEntriesAt | neuralprophet/time_net.py:740-762 | the block keys do not hide a per-regressor entry |
| Components.SeasonEntriesKeys | neuralprophet/time_net.py:692-696 | every seasonal key begins with "season_" |
| Components.EventSlicesKeys | neuralprophet/time_net.py:719-727 | the event block keys begin with "events_" |
| Components.EventPartFails | neuralprophet/time_net.py:719-739 | the event part fails exactly when an event's input is missing |
| Components.EventPartKeys | neuralprophet/time_net.py:719-739 | every event key begins with "event" |
| Components.EventPartOk | neuralprophet/time_net.py:719-739 | the event part fails exactly when an event's input is missing, and otherwise holds only event keys |
| Components.EventPartAdditive | neuralprophet/time_net.py:720-723 | "events_additive" is present exactly when the additive events are on, and holds their horizon slice |
| Components.ComputeComponents | neuralprophet/time_net.py:676-763 | `compute_components`: its failures and their order are stated by ComponentsFail, its dictionary by ComponentsGroups, ComponentsTrend, ComponentsAr, ComponentsEventsAdditive, ComponentsEvent, ComponentsCovariate, ComponentsRegressor and ComponentsKeys |
| Components.ComponentsFail | neuralprophet/time_net.py:676-763 | `compute_components` fails exactly when the covariate reduce fails, an event input is missing, or shares are non-finite, with TypeError taking precedence |
| Components.ComponentsGroups | neuralprophet/time_net.py:689-763 | the dictionary is trend, seasons, AR, covariates, events and regressors, each group under its own key prefix |
| Components.ComponentsTrend | neuralprophet/time_net.py:691 | "trend" holds the trend over the horizon |
| Components.ComponentsAr | neuralprophet/time_net.py:697-698 | "ar" is present exactly when n_lags > 0 and lags are input, and holds the AR component |
| Components.ComponentsEventsAdditive | neuralprophet/time_net.py:719-723 | "events_additive" is present exactly when the additive events are on, and holds their horizon slice |
| Components.ComponentsEvent | neuralprophet/time_net.py:728-739 | every event has its own entry holding its scalar effect |
| Components.ComponentsCovariate | neuralprophet/time_net.py:699-718 | every covariate has its own entry holding its share of the covariate-net output |
| Components.ComponentsRegressor | neuralprophet/time_net.py:751-762 | a regressor's entry is present exactly when its mode's input is, and holds its effect |
| Components.ComponentsKeys | neuralprophet/time_net.py:689-763 | every key is "trend", "ar" or begins with one of the group prefixes |
| Loss.Weighted | neuralprophet/time_net.py:776-778 | weighting keeps the loss shape |
| Loss.DataLoss | neuralprophet/time_net.py:772-779 | the data loss exists exactly when the batch has positions to average over |
| Loss.DataLossIgnoresWeights | neuralprophet/time_net.py:776-778 | without `newer_samples_weight > 1` the sample weights play no part |
| Loss.UnitWeightsAreNeutral | neuralprophet/time_net.py:776-779 | unit weights give the unweighted loss |
| Loss.DataLossNonnegative | neuralprophet/time_net.py:779 | a nonnegative element-wise loss with nonnegative weights gives a nonnegative data loss |
| Loss.RegLoss | neuralprophet/time_net.py:943-1011 | a positive delay weight without a trend configuration raises AttributeError("trend_reg"); with delay weight <= 0 only the global-local terms count |
| Loss.TrendGlocalOnlyLocal | neuralprophet/time_net.py:994-999 | the trend's global-local term counts only for a local trend |
| Loss.SeasonGlocalOnlyLocalOrGlocal | neuralprophet/time_net.py:1001-1009 | the seasonality's global-local term counts only for local or glocal seasonality |
| Loss.ScaledSumIsScale | neuralprophet/time_net.py:978-980 | adding the seasonal terms one by one is the lambda times their sum |
| Loss.RegLossNonnegative | neuralprophet/time_net.py:955-1011 | nonnegative lambdas and penalties give a nonnegative regularisation loss |
| Loss.AddSeasonTerms | neuralprophet/time_net.py:975-980 | the seasonal loop adds each period's term in order |
| Loss.AddDelayedTerms | neuralprophet/time_net.py:958-990 | the delayed terms, in source order; reading a missing trend configuration fails |
| Loss.AddBatchRegularizations | neuralprophet/time_net.py:943-1011 | returns the loss plus `RegLoss` and `RegLoss` itself, or `RegLoss`'s error |
| Loss.LossPair | neuralprophet/time_net.py:772-785 | `loss_func`'s (loss, reg_loss): without regularisation, or while finding the learning rate, `reg_loss` is 0 and the loss is the data loss; otherwise the data loss plus `RegLoss`; regularisation runs even when the mean of an empty batch is not a number, so its exception comes first |
| Loss.LossFunc | neuralprophet/time_net.py:772-785 | the method, accumulating through `AddBatchRegularizations`, returns exactly `LossPair` |
| Loss.LossPairNonnegative | neuralprophet/time_net.py:772-785 | a nonnegative element-wise loss and weights with nonnegative regularisation strengths and penalties give 0 <= reg_loss <= loss |
| Network.ProgressBounds | neuralprophet/time_net.py:790-791 | within an epoch the progress lies between that epoch's start and the next epoch's start, and within [0, 1) during the configured epochs |
| Network.StepTraceOrder | neuralprophet/time_net.py:806-830 | zero_grad, backward, optimiser step and scheduler step come first and in that order; the scheduler gets the epoch exactly when the learning-rate finder is off; the finder and the metrics logs exclude each other |
| Network.Denormalize | neuralprophet/time_net.py:1013-1036 | fails with KeyError("y") exactly when global normalisation is on, `normalize` is not "off" and the target's parameters are missing; keeps the length |
| Network.DenormalizeMatrix | neuralprophet/time_net.py:1024-1036 | denormalising a (batch, step) tensor fails with KeyError("y") under the same condition whatever its values, otherwise each row is `Denormalize` of that row |
| Network.DenormalizeNormalize | neuralprophet/time_net.py:1024-1035 | denormalising a normalised series gives the series back |
| Network.DenormalizeIdentity | neuralprophet/time_net.py:1024-1036 | without global normalisation, or with normalisation off, the series is unchanged |
| Network.Forwarded | neuralprophet/time_net.py:519-674 | regressor keys without configured future regressors raise AttributeError for `future_regressors` (604-616, built only at 294-305); then lags with n_lags = 0 raise AttributeError for `ar_net`; then, when components are included, `compute_components`'s error; otherwise every prediction row is `Reconciled` of the composed row (in predict mode unless the mode is "train") and the components are present exactly when included |
| Network.TimeNet.constructor | neuralprophet/time_net.py:140-161 | every mode's stacker is unset, components are not included, the learning-rate finder is off |
| Network.TimeNet.SetComputeComponents | neuralprophet/time_net.py:765-767 | saves the current flag, then sets the new one; nothing else changes |
| Network.TimeNet.ResetComputeComponents | neuralprophet/time_net.py:769-770 | restores the saved flag; before any save the attribute is missing (AttributeError) |
| Network.TimeNet.WithComponents | neuralprophet/time_net.py:765-770 | a set followed by a reset restores the flag |
| Network.TimeNet.NestedToggle | neuralprophet/time_net.py:765-770 | only one level is saved: two sets and two resets leave the first set's value, not the original one |
| Network.TimeNet.SetComponentsStacker | neuralprophet/time_net.py:315-327 | only the four modes are accepted, with the assertion's message otherwise; the mode's stacker is stored, the other modes' are kept |
| Network.TimeNet.Forward | neuralprophet/time_net.py:519-674 | a mode without a slot raises KeyError, an unset stacker AttributeError("unstack"); otherwise the result is `Forwarded` for the stacker's feature keys, its prediction held in a fresh array |
| Network.TimeNet.Optimize | neuralprophet/time_net.py:806-816 | appends zero_grad, backward of the loss, the optimiser step and the scheduler step (with the fractional epoch unless the learning-rate finder runs) to the trace, nothing else changing |
| Network.TimeNet.LogStep | neuralprophet/time_net.py:818-830 | appends the finder's loss log, or the metrics and the loss, reg_loss and LR logs when metrics are on, to the trace |
| Network.TimeNet.Learn | neuralprophet/time_net.py:802-831 | stores the prediction; a `loss_func` error leaves the trace unchanged; with metrics on and the learning-rate finder off, a missing target normalisation gives KeyError("y") after the optimiser and scheduler calls; otherwise the loss with exactly `StepTrace` appended |
| Network.TimeNet.TrainingStep | neuralprophet/time_net.py:787-831 | zero steps per epoch or zero epochs raise ZeroDivisionError; otherwise the progress is recorded; a missing train stacker raises KeyError("train") and an unset one AttributeError("unstack"); then the errors of train-mode `Forwarded` come first; then `LossPair` on the prediction (regularised at the progress's delay weight) or its error; with metrics on, a missing target normalisation raises KeyError("y") after the optimiser and scheduler steps; a successful step appends exactly `StepTrace` and stores the prediction |

## Left out

- The PyTorch sub-networks are not modelled: the trend, seasonality and future-regressor
  modules, `ComponentStacker`, the `reg_func_*` regularisers, `interprete_model`,
  `config_train.get_reg_delay_weight` and the evaluation of `nn.Linear`/`ReLU`. Their
  outputs are inputs of the model, because their code is not part of this model.
- Kaiming initialisation, `save_hyperparameters`, device placement, `.detach()` and
  `manual_backward` are left out. They do not change values.
- Floating point is left out. Reals are exact, and NaN or infinity is the error value
  `NonFinite`.
- Global-local handling is not modelled: `meta`, `id_dict` and the dummy `meta` of
  `forward` reach only the sub-networks.
- `_get_time_based_sample_weight` (cosine ramp) is not modelled. Its weights are an
  input, and only the `newer_samples_weight > 1.0` gate is modelled.
- `validation_step`, `test_step`, `predict_step` and `configure_optimizers` are left
  out. They are Lightning plumbing.
- The metric values and the logged values are left out, and so is `FlatNet`.
- Network.TimeNet.TrainingStep: `config_train.loss_func`, the unstacked targets and the
  time-based sample weights are inputs; the element-wise loss function is foreign. Only
  the median's denormalisation is computed: the targets' reads the same parameters, so
  it cannot raise once that one succeeded, and its values reach only the metrics.
- `set_covar_weights` is left out. It is a plain field store; `compute_components`
  takes the attributions as an argument instead.
- Composition.Forward: its batch is `Shaped`. That includes that "lags" is a feature key
  only when n_lags > 0, and a regressor key only when future regressors are configured.
  The `AttributeError`s of a missing `ar_net` or `future_regressors` are modelled one
  level up, in Network.Forwarded and Network.TimeNet.Forward.
- Network.TimeNet.Forward: the stacker is reduced to its feature keys. The unstacking of
  the input tensor is not modelled.
- The quantile code requires as a precondition that quantile 0 is the median 0.5
  (`MedianFirst`), so the divider is at least 1.
- Components.CovariateEntries: covariate names and their attributions are taken in
  configuration order. A name missing from `covar_weights` (a KeyError in the source) is
  not modelled.
- Dictionary insertion order is not modelled: dictionaries are maps.
  - The dictionaries whose iteration order matters are sequences in source order.
  - `events_dims` is `None` exactly when no events and no holidays are configured. It is
    modelled as an optional sequence.
- Construction.CountEventParams: the logged error messages are not modelled. The bare
  `ValueError` carries an empty message.
- Construction.DeepNetLayers: the corrected chain holds ReLU layers. `DeepNet` then
  initialises every layer's weight, and a ReLU has none. The model does not cover
  initialisation, so that second defect is not shown.

## Findings

| source | as written | input that shows it | evidently intended | confidence | as-written member | corrected member |
|---|---|---|---|---|---|---|
| neuralprophet/time_net.py:1068-1077 | `layers = []` rebinds the constructor argument before the loop, so the loop over hidden widths never runs and DeepNet is a single affine layer from d_inputs to d_outputs | `DeepNet(d_inputs, d_outputs, layers=[4])` builds 1 layer instead of Linear(d_inputs, 4), ReLU, Linear(4, d_outputs) | a separate list for the built layers, with one ReLU-separated affine layer per given hidden width | not executed | Construction.DeepNetLayersAsWritten, Construction.DeepNetIgnoresLayers | Construction.DeepNetLayers, Construction.DeepNetLayersShape |
