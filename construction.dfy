/** What TimeNet.__init__ checks and sizes, and the accessors that read the
    structures it builds: configuration errors, event parameter counting, the
    layer chains of the AR-net and the covariate net, DeepNet, get_event_weights
    and the covariate attribution split of get_covar_weights. */
module Construction {
  import opened Tensors
  import opened Configs

  // ---------------------------------------------------------------------------
  // Seasonality configuration errors

  /** The two seasonality checks, in the order the constructor makes them. */
  function CheckSeasonality(seasonality: Option<SeasonalityConfig>, trend: Option<TrendConfig>): (r: Result<()>)
    ensures r.Ok? <==> (seasonality.None? ||
                        (seasonality.value.mode in ["additive", "multiplicative"] &&
                         (seasonality.value.mode == "multiplicative" ==> trend.Some?)))
    ensures r.Err? && seasonality.value.mode == "multiplicative" ==>
      r.error == ValueError("Multiplicative seasonality requires trend.")
    ensures r.Err? && seasonality.value.mode != "multiplicative" ==> r.error.ValueError?
  {
    match seasonality
    case None => Ok(())
    case Some(s) =>
      if s.mode == "multiplicative" && trend.None? then
        Err(ValueError("Multiplicative seasonality requires trend."))
      else if s.mode !in ["additive", "multiplicative"] then
        Err(ValueError("Seasonality Mode " + s.mode + " not implemented."))
      else Ok(())
  }

  // ---------------------------------------------------------------------------
  // Event parameter counting

  /** Unknown event modes are logged and replaced by "additive". */
  function CoercedMode(mode: string): (m: string)
    ensures m == "additive" || m == "multiplicative"
    ensures mode in ["additive", "multiplicative"] ==> m == mode
  {
    if mode in ["additive", "multiplicative"] then mode else "additive"
  }

  /** Number of parameter columns the events of one mode own: the summed lengths
      of their `event_indices`. */
  function Columns(events: seq<EventDims>, mode: string): nat {
    if events == [] then 0
    else Columns(events[..|events| - 1], mode) +
         (if events[|events| - 1].mode == mode then |events[|events| - 1].eventIndices| else 0)
  }

  lemma ColumnsAppend(events: seq<EventDims>, e: EventDims, mode: string)
    ensures Columns(events + [e], mode) == Columns(events, mode) + (if e.mode == mode then |e.eventIndices| else 0)
  {
    assert (events + [e])[..|events|] == events;
  }

  /** Columns split exactly between the two modes once every mode is coerced. */
  lemma {:induction false} ColumnsSplit(events: seq<EventDims>)
    requires forall i :: 0 <= i < |events| ==> events[i].mode in ["additive", "multiplicative"]
    ensures Columns(events, "additive") + Columns(events, "multiplicative") == TotalColumns(events)
  {
    if events != [] {
      ColumnsSplit(events[..|events| - 1]);
    }
  }

  function TotalColumns(events: seq<EventDims>): nat {
    if events == [] then 0 else TotalColumns(events[..|events| - 1]) + |events[|events| - 1].eventIndices|
  }

  /** The event dimensions after construction, with the sizes of the additive and
      the multiplicative parameter blocks (each of shape [quantiles, columns]). */
  datatype EventParams = EventParams(events: seq<EventDims>, nAdditive: nat, nMultiplicative: nat)

  predicate MultiplicativeWithoutTrend(events: seq<EventDims>, hasTrend: bool) {
    !hasTrend && exists i :: 0 <= i < |events| && events[i].mode == "multiplicative"
  }

  /** The constructor's loop over `events_dims`: coerces unknown modes to
      additive, counts each mode's columns, and raises ValueError at a
      multiplicative event when the model has no trend. */
  method CountEventParams(events: seq<EventDims>, hasTrend: bool) returns (r: Result<EventParams>)
    ensures r.Err? <==> MultiplicativeWithoutTrend(events, hasTrend)
    ensures r.Err? ==> r.error == ValueError("")
    ensures r.Ok? ==> |r.value.events| == |events|
    ensures r.Ok? ==> forall i :: 0 <= i < |events| ==>
      r.value.events[i] == events[i].(mode := CoercedMode(events[i].mode))
    ensures r.Ok? ==> r.value.nAdditive == Columns(r.value.events, "additive")
    ensures r.Ok? ==> r.value.nMultiplicative == Columns(r.value.events, "multiplicative")
  {
    var dims: seq<EventDims> := [];
    var nAdditive, nMultiplicative := 0, 0;
    var i := 0;
    while i < |events|
      invariant 0 <= i <= |events| && |dims| == i
      invariant forall j :: 0 <= j < i ==> dims[j] == events[j].(mode := CoercedMode(events[j].mode))
      invariant forall j :: 0 <= j < i ==> !(events[j].mode == "multiplicative" && !hasTrend)
      invariant nAdditive == Columns(dims, "additive")
      invariant nMultiplicative == Columns(dims, "multiplicative")
    {
      var e := events[i].(mode := CoercedMode(events[i].mode));
      ColumnsAppend(dims, e, "additive");
      ColumnsAppend(dims, e, "multiplicative");
      if e.mode == "additive" {
        nAdditive := nAdditive + |e.eventIndices|;
      } else {
        if !hasTrend {
          return Err(ValueError(""));
        }
        nMultiplicative := nMultiplicative + |e.eventIndices|;
      }
      dims := dims + [e];
      i := i + 1;
    }
    return Ok(EventParams(dims, nAdditive, nMultiplicative));
  }

  /** After construction every event has a known mode, so the two parameter
      blocks together hold one column per event index. */
  lemma CountedColumnsCoverAll(events: seq<EventDims>, hasTrend: bool, p: EventParams)
    requires |p.events| == |events|
    requires forall i :: 0 <= i < |events| ==> p.events[i] == events[i].(mode := CoercedMode(events[i].mode))
    requires p.nAdditive == Columns(p.events, "additive")
    requires p.nMultiplicative == Columns(p.events, "multiplicative")
    ensures p.nAdditive + p.nMultiplicative == TotalColumns(events)
  {
    ColumnsSplit(p.events);
    TotalColumnsSameIndices(p.events, events);
  }

  lemma {:induction false} TotalColumnsSameIndices(xs: seq<EventDims>, ys: seq<EventDims>)
    requires |xs| == |ys|
    requires forall i :: 0 <= i < |xs| ==> xs[i].eventIndices == ys[i].eventIndices
    ensures TotalColumns(xs) == TotalColumns(ys)
    decreases |xs|
  {
    if xs != [] {
      TotalColumnsSameIndices(xs[..|xs| - 1], ys[..|ys| - 1]);
    }
  }

  // ---------------------------------------------------------------------------
  // Layer chains

  datatype Layer = Linear(inputs: nat, outputs: nat, bias: bool) | ReLU

  /** Hidden affine layers with bias, each followed by a ReLU, then a final affine
      layer onto `dOut` outputs. */
  function LayerChain(dIn: nat, hidden: seq<nat>, dOut: nat, finalBias: bool): seq<Layer>
    decreases |hidden|
  {
    if hidden == [] then [Linear(dIn, dOut, finalBias)]
    else [Linear(dIn, hidden[0], true), ReLU] + LayerChain(hidden[0], hidden[1..], dOut, finalBias)
  }

  /** The width entering hidden layer k. */
  function WidthBefore(dIn: nat, hidden: seq<nat>, k: nat): nat
    requires k <= |hidden|
  {
    if k == 0 then dIn else hidden[k - 1]
  }

  /** The chain has 2|hidden| + 1 layers, alternating affine and ReLU, and the
      width of every affine layer's input is the previous one's output. */
  lemma {:induction false} LayerChainShape(dIn: nat, hidden: seq<nat>, dOut: nat, finalBias: bool)
    ensures var c := LayerChain(dIn, hidden, dOut, finalBias);
      && |c| == 2 * |hidden| + 1
      && (forall k :: 0 <= k < |hidden| ==>
            c[2 * k] == Linear(WidthBefore(dIn, hidden, k), hidden[k], true) && c[2 * k + 1] == ReLU)
      && c[2 * |hidden|] == Linear(WidthBefore(dIn, hidden, |hidden|), dOut, finalBias)
    decreases |hidden|
  {
    if hidden != [] {
      var rest := LayerChain(hidden[0], hidden[1..], dOut, finalBias);
      LayerChainShape(hidden[0], hidden[1..], dOut, finalBias);
      var c := LayerChain(dIn, hidden, dOut, finalBias);
      assert c == [Linear(dIn, hidden[0], true), ReLU] + rest;
      forall k | 1 <= k < |hidden|
        ensures c[2 * k] == Linear(WidthBefore(dIn, hidden, k), hidden[k], true) && c[2 * k + 1] == ReLU
      {
        assert c[2 * k] == rest[2 * (k - 1)];
        assert c[2 * k + 1] == rest[2 * (k - 1) + 1];
        assert WidthBefore(hidden[0], hidden[1..], k - 1) == WidthBefore(dIn, hidden, k);
      }
      assert WidthBefore(hidden[0], hidden[1..], |hidden| - 1) == WidthBefore(dIn, hidden, |hidden|);
    }
  }

  /** The constructor's loop that appends Linear/ReLU pairs and then the final layer. */
  method BuildLayers(dIn: nat, hidden: seq<nat>, dOut: nat, finalBias: bool) returns (layers: seq<Layer>)
    ensures layers == LayerChain(dIn, hidden, dOut, finalBias)
  {
    layers := [];
    var dInputs := dIn;
    var i := 0;
    while i < |hidden|
      invariant 0 <= i <= |hidden|
      invariant dInputs == WidthBefore(dIn, hidden, i)
      invariant layers + LayerChain(dInputs, hidden[i..], dOut, finalBias) == LayerChain(dIn, hidden, dOut, finalBias)
    {
      assert hidden[i..][1..] == hidden[i + 1..];
      layers := layers + [Linear(dInputs, hidden[i], true), ReLU];
      dInputs := hidden[i];
      i := i + 1;
    }
    layers := layers + [Linear(dInputs, dOut, finalBias)];
  }

  /** The AR-net: present only when n_lags > 0; n_lags inputs, the configured
      hidden widths, and n_forecasts * quantiles outputs without bias. Its first
      layer, whose weight `ar_weights` returns for regularisation, is affine
      and reads the n_lags inputs. */
  method ArNetLayers(nLags: nat, arLayers: seq<nat>, nForecasts: nat, nQuantiles: nat)
    returns (net: Option<seq<Layer>>)
    ensures net.Some? <==> nLags > 0
    ensures net.Some? ==> net.value == LayerChain(nLags, arLayers, nForecasts * nQuantiles, false)
    ensures net.Some? ==> net.value[0].Linear? && net.value[0].inputs == nLags
  {
    if nLags > 0 {
      var layers := BuildLayers(nLags, arLayers, nForecasts * nQuantiles, false);
      LayerChainShape(nLags, arLayers, nForecasts * nQuantiles, false);
      return Some(layers);
    }
    return None;
  }

  function SumLags(regs: seq<LaggedRegressor>): nat {
    if regs == [] then 0 else regs[0].nLags + SumLags(regs[1..])
  }

  /** The covariate net: present only when lagged regressors are configured; as
      many inputs as their lags together. */
  method CovarNetLayers(config: Option<LaggedRegressorsConfig>, nForecasts: nat, nQuantiles: nat)
    returns (net: Option<seq<Layer>>)
    ensures net.Some? <==> config.Some? && config.value.regressors.Some?
    ensures net.Some? ==>
      net.value == LayerChain(SumLags(config.value.regressors.value), config.value.layers, nForecasts * nQuantiles, false)
  {
    if config.Some? && config.value.regressors.Some? {
      var layers := BuildLayers(SumLags(config.value.regressors.value), config.value.layers,
                                nForecasts * nQuantiles, false);
      return Some(layers);
    }
    return None;
  }

  /** DeepNet as written: the constructor rebinds `layers` to an empty list before
      its loop, so the hidden widths it is given are never used. */
  function DeepNetLayersAsWritten(dIn: nat, dOut: nat, layers: seq<nat>): (net: seq<Layer>)
    ensures net == [Linear(dIn, dOut, true)]
  {
    var shadowed: seq<nat> := [];
    LayerChain(dIn, shadowed, dOut, true)
  }

  /** Whatever hidden widths are passed, the written DeepNet is one affine layer. */
  lemma DeepNetIgnoresLayers(dIn: nat, dOut: nat)
    ensures |DeepNetLayersAsWritten(dIn, dOut, [4])| == 1
    ensures |DeepNetLayers(dIn, dOut, [4])| == 3
    ensures DeepNetLayersAsWritten(dIn, dOut, [4]) != DeepNetLayers(dIn, dOut, [4])
  {
    LayerChainShape(dIn, [4], dOut, true);
  }

  /** DeepNet as evidently intended: the given hidden widths, then the output layer. */
  function DeepNetLayers(dIn: nat, dOut: nat, layers: seq<nat>): seq<Layer> {
    LayerChain(dIn, layers, dOut, true)
  }

  /** The intended DeepNet reads dIn inputs, has one affine layer per hidden width
      plus the output layer, and produces dOut outputs. */
  lemma DeepNetLayersShape(dIn: nat, dOut: nat, layers: seq<nat>)
    ensures var net := DeepNetLayers(dIn, dOut, layers);
      && |net| == 2 * |layers| + 1
      && net[0].Linear? && net[0].inputs == dIn
      && net[|net| - 1] == Linear(WidthBefore(dIn, layers, |layers|), dOut, true)
      && (forall k :: 0 <= k < |layers| ==>
            net[2 * k] == Linear(WidthBefore(dIn, layers, k), layers[k], true) && net[2 * k + 1] == ReLU)
  {
    LayerChainShape(dIn, layers, dOut, true);
    if layers != [] {
      assert DeepNetLayers(dIn, dOut, layers)[2 * 0] == Linear(dIn, layers[0], true);
    }
  }

  // ---------------------------------------------------------------------------
  // get_event_weights

  /** `params[:, i:i+1]` with Python's slice clamping: one column, or none when
      the column does not exist. */
  function ColumnSlice(params: Matrix, i: nat): (c: Matrix)
    ensures |c| == |params|
    ensures forall q :: 0 <= q < |params| && i < |params[q]| ==> c[q] == [params[q][i]]
    ensures forall q :: 0 <= q < |params| && i >= |params[q]| ==> c[q] == []
  {
    seq(|params|, q requires 0 <= q < |params| =>
      if i < |params[q]| then params[q][i..i + 1] else [])
  }

  /** The first event of the given name, as a dictionary lookup. */
  function FindEvent(events: seq<EventDims>, name: string): (r: Option<EventDims>)
    ensures r.Some? ==> r.value in events && r.value.name == name
    ensures r.None? ==> forall i :: 0 <= i < |events| ==> events[i].name != name
  {
    if events == [] then None
    else if events[0].name == name then Some(events[0])
    else FindEvent(events[1..], name)
  }

  function Min(a: nat, b: nat): nat { if a <= b then a else b }

  /** The OrderedDict built over `zip(event_delim, event_indices)`: iteration
      stops at the shorter list and a repeated key keeps the last value. */
  function OffsetColumns(delims: seq<string>, indices: seq<nat>, params: Matrix): map<string, Matrix>
    decreases |delims|
  {
    var n := Min(|delims|, |indices|);
    if n == 0 then map[]
    else OffsetColumns(delims[..n - 1], indices[..n - 1], params)[delims[n - 1] := ColumnSlice(params, indices[n - 1])]
  }

  /** The keys of the dictionary are the paired delimiters. */
  lemma {:induction false} OffsetColumnsKeys(delims: seq<string>, indices: seq<nat>, params: Matrix)
    ensures OffsetColumns(delims, indices, params).Keys ==
      set k | 0 <= k < Min(|delims|, |indices|) :: delims[k]
    decreases |delims|
  {
    var n := Min(|delims|, |indices|);
    if n > 0 {
      var init := delims[..n - 1];
      OffsetColumnsKeys(init, indices[..n - 1], params);
      assert (set k | 0 <= k < n - 1 :: init[k]) == (set k | 0 <= k < n - 1 :: delims[k]);
      assert (set k | 0 <= k < n :: delims[k]) == (set k | 0 <= k < n - 1 :: delims[k]) + {delims[n - 1]};
    }
  }

  /** A delimiter that is not paired again later maps to the column at its index. */
  lemma {:induction false} OffsetColumnsValue(delims: seq<string>, indices: seq<nat>, params: Matrix, k: nat)
    requires k < Min(|delims|, |indices|)
    requires delims[k] !in delims[k + 1..Min(|delims|, |indices|)]
    ensures delims[k] in OffsetColumns(delims, indices, params)
    ensures OffsetColumns(delims, indices, params)[delims[k]] == ColumnSlice(params, indices[k])
    decreases |delims|
  {
    var n := Min(|delims|, |indices|);
    if k < n - 1 {
      assert delims[n - 1] in delims[k + 1..n];
      assert delims[..n - 1][k + 1..n - 1] == delims[k + 1..n - 1];
      OffsetColumnsValue(delims[..n - 1], indices[..n - 1], params, k);
    }
  }

  /** `get_event_weights(name)`: the per-offset weight columns of one event, taken
      from its mode's parameter block. `events_dims` is None when neither events
      nor holidays are configured, and subscripting it then fails. */
  function GetEventWeights(eventsDims: Option<seq<EventDims>>, name: string, additive: Matrix, multiplicative: Matrix)
    : (r: Result<map<string, Matrix>>)
    ensures eventsDims.None? ==> r == Err(TypeError("'NoneType' object is not subscriptable"))
    ensures eventsDims.Some? && FindEvent(eventsDims.value, name).None? ==> r == Err(KeyError(name))
    ensures r.Err? && eventsDims.Some? && FindEvent(eventsDims.value, name).Some? ==>
      FindEvent(eventsDims.value, name).value.mode !in ["additive", "multiplicative"] && r == Err(AssertionError(""))
  {
    match eventsDims
    case None => Err(TypeError("'NoneType' object is not subscriptable"))
    case Some(events) =>
      match FindEvent(events, name)
      case None => Err(KeyError(name))
      case Some(e) =>
        if e.mode == "multiplicative" then Ok(OffsetColumns(e.eventDelims, e.eventIndices, multiplicative))
        else if e.mode == "additive" then Ok(OffsetColumns(e.eventDelims, e.eventIndices, additive))
        else Err(AssertionError(""))
  }

  /** For a known event each delimiter maps to the column of its mode's block at
      the paired index. */
  lemma EventWeightsColumns(events: seq<EventDims>, name: string, additive: Matrix, multiplicative: Matrix, k: nat)
    requires FindEvent(events, name).Some?
    requires var e := FindEvent(events, name).value;
      e.mode in ["additive", "multiplicative"] &&
      k < |e.eventDelims| && k < |e.eventIndices| &&
      e.eventDelims[k] !in e.eventDelims[k + 1..Min(|e.eventDelims|, |e.eventIndices|)]
    ensures var e := FindEvent(events, name).value;
      var block := if e.mode == "multiplicative" then multiplicative else additive;
      GetEventWeights(Some(events), name, additive, multiplicative).Ok? &&
      e.eventDelims[k] in GetEventWeights(Some(events), name, additive, multiplicative).value &&
      GetEventWeights(Some(events), name, additive, multiplicative).value[e.eventDelims[k]] ==
        ColumnSlice(block, e.eventIndices[k])
  {
    var e := FindEvent(events, name).value;
    var block := if e.mode == "multiplicative" then multiplicative else additive;
    OffsetColumnsValue(e.eventDelims, e.eventIndices, block, k);
  }

  // ---------------------------------------------------------------------------
  // get_covar_weights

  /** `np.add.accumulate(xs)` */
  function PrefixSums(xs: seq<nat>): (r: seq<nat>)
    ensures |r| == |xs|
    decreases |xs|
  {
    if xs == [] then [] else PrefixSums(xs[..|xs| - 1]) + [Total(xs)]
  }

  function Total(xs: seq<nat>): nat
    decreases |xs|
  {
    if xs == [] then 0 else Total(xs[..|xs| - 1]) + xs[|xs| - 1]
  }

  lemma {:induction false} PrefixSumsAt(xs: seq<nat>, k: nat)
    requires k < |xs|
    ensures PrefixSums(xs)[k] == Total(xs[..k + 1])
    decreases |xs|
  {
    if k < |xs| - 1 {
      PrefixSumsAt(xs[..|xs| - 1], k);
      assert xs[..|xs| - 1][..k + 1] == xs[..k + 1];
    } else {
      assert xs[..k + 1] == xs;
    }
  }

  function LagCounts(regs: seq<LaggedRegressor>): (r: seq<nat>)
    ensures |r| == |regs|
    ensures forall i :: 0 <= i < |regs| ==> r[i] == regs[i].nLags
  {
    seq(|regs|, i requires 0 <= i < |regs| => regs[i].nLags)
  }

  /** The split points: cumulative lag counts of all but the last covariate. */
  function CovarSplits(regs: seq<LaggedRegressor>): (s: seq<nat>)
    ensures |regs| > 0 ==> |s| == |regs| - 1
  {
    var counts := LagCounts(regs);
    if counts == [] then [] else PrefixSums(counts[..|counts| - 1])
  }

  /** Column bounds of the chunks: 0, the split points, then the width. */
  function ChunkBounds(splits: seq<nat>, width: nat): seq<nat> {
    [0] + splits + [width]
  }

  /** `torch.tensor_split(m, splits, axis=1)` for split points that are in order
      and within the width. */
  function TensorSplit(m: Matrix, splits: seq<nat>, width: nat): (chunks: seq<Matrix>)
    requires IsMatrix(m, |m|, width)
    requires forall i, j :: 0 <= i <= j < |splits| ==> splits[i] <= splits[j]
    requires forall i :: 0 <= i < |splits| ==> splits[i] <= width
    ensures |chunks| == |splits| + 1
  {
    var bounds := ChunkBounds(splits, width);
    seq(|splits| + 1, k requires 0 <= k <= |splits| =>
      seq(|m|, r requires 0 <= r < |m| => m[r][bounds[k]..bounds[k + 1]]))
  }

  lemma {:induction false} TotalMonotone(xs: seq<nat>, i: nat, j: nat)
    requires i <= j <= |xs|
    ensures Total(xs[..i]) <= Total(xs[..j])
    decreases j - i
  {
    if i < j {
      TotalMonotone(xs, i, j - 1);
      assert xs[..j][..j - 1] == xs[..j - 1];
    }
  }

  lemma TotalOfLagCounts(regs: seq<LaggedRegressor>)
    ensures Total(LagCounts(regs)) == SumLags(regs)
  {
    TotalEqualsForward(LagCounts(regs));
    LagCountsSum(regs);
  }

  /** `Total` sums from the back, `Forward` from the front: the same number. */
  function Forward(xs: seq<nat>): nat {
    if xs == [] then 0 else xs[0] + Forward(xs[1..])
  }

  lemma {:induction false} ForwardAppend(xs: seq<nat>, x: nat)
    ensures Forward(xs + [x]) == Forward(xs) + x
  {
    if xs != [] {
      assert (xs + [x])[1..] == xs[1..] + [x];
      ForwardAppend(xs[1..], x);
    }
  }

  lemma {:induction false} TotalEqualsForward(xs: seq<nat>)
    ensures Total(xs) == Forward(xs)
    decreases |xs|
  {
    if xs != [] {
      TotalEqualsForward(xs[..|xs| - 1]);
      ForwardAppend(xs[..|xs| - 1], xs[|xs| - 1]);
      assert xs[..|xs| - 1] + [xs[|xs| - 1]] == xs;
    }
  }

  lemma {:induction false} LagCountsSum(regs: seq<LaggedRegressor>)
    ensures Forward(LagCounts(regs)) == SumLags(regs)
  {
    if regs != [] {
      LagCountsSum(regs[1..]);
      assert LagCounts(regs)[1..] == LagCounts(regs[1..]);
    }
  }

  /** The split points are in order and, when the attributions have one column
      per lag, within the width; chunk k then has as many columns as covariate k
      has lags. */
  lemma CovarSplitsShape(regs: seq<LaggedRegressor>)
    requires |regs| > 0
    ensures var s := CovarSplits(regs);
      && (forall i, j :: 0 <= i <= j < |s| ==> s[i] <= s[j])
      && (forall i :: 0 <= i < |s| ==> s[i] <= SumLags(regs))
      && (forall k :: 0 <= k < |regs| ==>
            ChunkBounds(s, SumLags(regs))[k + 1] - ChunkBounds(s, SumLags(regs))[k] == regs[k].nLags)
  {
    var counts := LagCounts(regs);
    var init := counts[..|counts| - 1];
    var s := CovarSplits(regs);
    TotalOfLagCounts(regs);
    forall i | 0 <= i < |s| ensures s[i] == Total(counts[..i + 1]) {
      PrefixSumsAt(init, i);
      assert init[..i + 1] == counts[..i + 1];
    }
    forall i, j | 0 <= i <= j < |s| ensures s[i] <= s[j] {
      TotalMonotone(counts, i + 1, j + 1);
    }
    forall i | 0 <= i < |s| ensures s[i] <= SumLags(regs) {
      TotalMonotone(counts, i + 1, |counts|);
      assert counts[..|counts|] == counts;
    }
    var bounds := ChunkBounds(s, SumLags(regs));
    forall k | 0 <= k < |regs| ensures bounds[k + 1] - bounds[k] == regs[k].nLags {
      assert bounds[k] == Total(counts[..k]) by {
        if k > 0 { assert bounds[k] == s[k - 1]; }
      }
      assert bounds[k + 1] == Total(counts[..k + 1]) by {
        if k + 1 < |regs| {
          assert bounds[k + 1] == s[k];
        } else {
          assert counts[..k + 1] == counts;
        }
      }
      assert counts[..k + 1][..k] == counts[..k];
    }
  }

  /** `get_covar_weights`: the attribution matrix of the covariate net (its first
      layer's weight without hidden layers, the externally interpreted
      attributions otherwise) split into one block per covariate, keyed by name
      in configuration order; None when no lagged regressors are configured. */
  function GetCovarWeights(config: Option<LaggedRegressorsConfig>, firstLayerWeight: Matrix,
                           interpreted: Matrix): (r: Option<seq<(string, Matrix)>>)
    requires config.Some? && config.value.regressors.Some? && |config.value.regressors.value| > 0 ==>
      var w := SumLags(config.value.regressors.value);
      IsMatrix(firstLayerWeight, |firstLayerWeight|, w) && IsMatrix(interpreted, |interpreted|, w)
    ensures r.Some? <==> config.Some? && config.value.regressors.Some?
  {
    if config.Some? && config.value.regressors.Some? then
      var regs := config.value.regressors.value;
      if regs == [] then Some([])
      else
        var attributions := if config.value.layers == [] then firstLayerWeight else interpreted;
        CovarSplitsShape(regs);
        var chunks := TensorSplit(attributions, CovarSplits(regs), SumLags(regs));
        Some(seq(|regs|, i requires 0 <= i < |regs| => (regs[i].name, chunks[i])))
    else None
  }

  /** Each covariate's block holds exactly its own lag columns of the attributions. */
  lemma CovarWeightsBlocks(config: Option<LaggedRegressorsConfig>, firstLayerWeight: Matrix,
                           interpreted: Matrix, i: nat, row: nat)
    requires config.Some? && config.value.regressors.Some?
    requires i < |config.value.regressors.value|
    requires var w := SumLags(config.value.regressors.value);
      IsMatrix(firstLayerWeight, |firstLayerWeight|, w) && IsMatrix(interpreted, |interpreted|, w)
    requires var attributions := if config.value.layers == [] then firstLayerWeight else interpreted;
      row < |attributions|
    ensures var regs := config.value.regressors.value;
      var attributions := if config.value.layers == [] then firstLayerWeight else interpreted;
      var bounds := ChunkBounds(CovarSplits(regs), SumLags(regs));
      var r := GetCovarWeights(config, firstLayerWeight, interpreted);
      && r.Some? && |r.value| == |regs|
      && r.value[i].0 == regs[i].name
      && |r.value[i].1| == |attributions|
      && 0 <= bounds[i] <= bounds[i + 1] <= |attributions[row]|
      && r.value[i].1[row] == attributions[row][bounds[i]..bounds[i + 1]]
      && |r.value[i].1[row]| == regs[i].nLags
  {
    CovarSplitsShape(config.value.regressors.value);
  }
}
