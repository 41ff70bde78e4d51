/** Quantile reconciliation: turning the network's per-quantile offsets from the
    median into absolute quantile forecasts, with the crossing correction that is
    applied outside training (TimeNet._compute_quantile_forecasts_from_diffs). */
module QuantileForecasts {

  function Max(a: real, b: real): real { if a >= b then a else b }

  /** The quantile list as the model configuration builds it: the median level
      0.5 comes first, the other levels follow. */
  predicate MedianFirst(qs: seq<real>) { |qs| >= 1 && qs[0] == 0.5 }

  /** Index of the first quantile level above 0.5, or |qs| if there is none. */
  function Divider(qs: seq<real>): (d: nat)
    ensures d <= |qs|
    ensures forall i :: 0 <= i < d ==> qs[i] <= 0.5
    ensures d < |qs| ==> qs[d] > 0.5
  {
    if |qs| == 0 then 0
    else if qs[0] > 0.5 then 0
    else 1 + Divider(qs[1..])
  }

  /** Running maximum over the upper offsets, from the divider up to k, floored at 0. */
  function UpperClamp(d: seq<real>, div: nat, k: nat): real
    requires div <= k < |d|
    decreases k - div
  {
    if k == div then Max(0.0, d[div]) else Max(d[k], UpperClamp(d, div, k - 1))
  }

  /** Running maximum over the lower offsets, from the divider down to k, floored at 0. */
  function LowerClamp(d: seq<real>, div: nat, k: nat): real
    requires 1 <= k < div <= |d|
    decreases div - k
  {
    if k == div - 1 then Max(0.0, d[k]) else Max(d[k], LowerClamp(d, div, k + 1))
  }

  /** The channel vector of one (batch, step) position as it stands after the
      clamping that predict mode writes back through the slice views. */
  function Clamped(qs: seq<real>, d: seq<real>, predict: bool): (c: seq<real>)
    requires MedianFirst(qs) && |d| == |qs|
    ensures |c| == |d|
  {
    if |qs| <= 1 || !predict then d
    else
      var div := Divider(qs);
      seq(|d|, k requires 0 <= k < |d| =>
        if k == 0 then d[0]
        else if k < div then LowerClamp(d, div, k)
        else UpperClamp(d, div, k))
  }

  /** The reconciled forecast of one (batch, step) position. */
  function Reconciled(qs: seq<real>, d: seq<real>, predict: bool): (r: seq<real>)
    requires MedianFirst(qs) && |d| == |qs|
    ensures |r| == |d|
  {
    if |qs| <= 1 then d
    else
      var c := Clamped(qs, d, predict);
      var div := Divider(qs);
      seq(|d|, k requires 0 <= k < |d| =>
        if k == 0 then d[0]
        else if k < div then d[0] - c[k]
        else d[0] + c[k])
  }

  // ---------------------------------------------------------------------------
  // Properties of the running maxima

  /** The upper clamp at k is the least non-negative bound of the offsets div..k. */
  lemma {:induction false} UpperClampIsLeastBound(d: seq<real>, div: nat, k: nat)
    requires div <= k < |d|
    ensures UpperClamp(d, div, k) >= 0.0
    ensures forall j :: div <= j <= k ==> d[j] <= UpperClamp(d, div, k)
    ensures UpperClamp(d, div, k) == 0.0 ||
            exists j :: div <= j <= k && UpperClamp(d, div, k) == d[j]
    decreases k - div
  {
    if k > div {
      UpperClampIsLeastBound(d, div, k - 1);
    }
  }

  /** The lower clamp at k is the least non-negative bound of the offsets k..div-1. */
  lemma {:induction false} LowerClampIsLeastBound(d: seq<real>, div: nat, k: nat)
    requires 1 <= k < div <= |d|
    ensures LowerClamp(d, div, k) >= 0.0
    ensures forall j :: k <= j < div ==> d[j] <= LowerClamp(d, div, k)
    ensures LowerClamp(d, div, k) == 0.0 ||
            exists j :: k <= j < div && LowerClamp(d, div, k) == d[j]
    decreases div - k
  {
    if k < div - 1 {
      LowerClampIsLeastBound(d, div, k + 1);
    }
  }

  lemma {:induction false} UpperClampMonotone(d: seq<real>, div: nat, i: nat, j: nat)
    requires div <= i <= j < |d|
    ensures UpperClamp(d, div, i) <= UpperClamp(d, div, j)
    decreases j - i
  {
    if i < j {
      UpperClampMonotone(d, div, i, j - 1);
    }
  }

  lemma {:induction false} LowerClampAntitone(d: seq<real>, div: nat, i: nat, j: nat)
    requires 1 <= i <= j < div <= |d|
    ensures LowerClamp(d, div, j) <= LowerClamp(d, div, i)
    decreases j - i
  {
    if i < j {
      LowerClampAntitone(d, div, i + 1, j);
    }
  }

  // ---------------------------------------------------------------------------
  // Properties of reconciliation

  /** With a single quantile the forecast is returned unchanged. */
  lemma SingleQuantileIdentity(qs: seq<real>, d: seq<real>, predict: bool)
    requires MedianFirst(qs) && |d| == |qs| && |qs| <= 1
    ensures Reconciled(qs, d, predict) == d
    ensures Clamped(qs, d, predict) == d
  {
  }

  /** The median channel is passed through in every mode. */
  lemma MedianUnchanged(qs: seq<real>, d: seq<real>, predict: bool)
    requires MedianFirst(qs) && |d| == |qs|
    ensures Reconciled(qs, d, predict)[0] == d[0]
    ensures Clamped(qs, d, predict)[0] == d[0]
  {
  }

  /** In training mode offsets are not clamped: upper quantiles are median plus
      offset, lower quantiles median minus offset, and nothing is written back. */
  lemma TrainModeUnclamped(qs: seq<real>, d: seq<real>)
    requires MedianFirst(qs) && |d| == |qs| && |qs| > 1
    ensures Clamped(qs, d, false) == d
    ensures forall k :: Divider(qs) <= k < |d| ==> Reconciled(qs, d, false)[k] == d[0] + d[k]
    ensures forall k :: 1 <= k < Divider(qs) ==> Reconciled(qs, d, false)[k] == d[0] - d[k]
  {
  }

  /** In predict mode the reconciled quantiles do not cross:
      out[1] <= ... <= out[div-1] <= out[0] <= out[div] <= ... <= out[Q-1]. */
  lemma {:induction false} PredictModeNoCrossing(qs: seq<real>, d: seq<real>)
    requires MedianFirst(qs) && |d| == |qs|
    ensures var r := Reconciled(qs, d, true); var div := Divider(qs);
      && (forall i, j :: 1 <= i <= j < div ==> r[i] <= r[j])
      && (forall k :: 1 <= k < div ==> r[k] <= r[0])
      && (forall k :: div <= k < |r| ==> r[0] <= r[k])
      && (forall i, j :: div <= i <= j < |r| ==> r[i] <= r[j])
  {
    var r := Reconciled(qs, d, true);
    var div := Divider(qs);
    if |qs| > 1 {
      forall i, j | 1 <= i <= j < div ensures r[i] <= r[j] {
        LowerClampAntitone(d, div, i, j);
      }
      forall k | 1 <= k < div ensures r[k] <= r[0] {
        LowerClampIsLeastBound(d, div, k);
      }
      forall k | div <= k < |r| ensures r[0] <= r[k] {
        UpperClampIsLeastBound(d, div, k);
      }
      forall i, j | div <= i <= j < |r| ensures r[i] <= r[j] {
        UpperClampMonotone(d, div, i, j);
      }
    }
  }

  /** In predict mode each clamped upper offset dominates the raw one, so the
      correction only ever widens the upper band (and symmetrically the lower band). */
  lemma PredictModeWidens(qs: seq<real>, d: seq<real>)
    requires MedianFirst(qs) && |d| == |qs|
    ensures var r := Reconciled(qs, d, true); var div := Divider(qs);
      && (forall k :: div <= k < |r| ==> r[k] >= d[0] + d[k])
      && (forall k :: 1 <= k < div ==> r[k] <= d[0] - d[k])
  {
    var div := Divider(qs);
    if |qs| > 1 {
      forall k | div <= k < |d| ensures d[k] <= UpperClamp(d, div, k) {
        UpperClampIsLeastBound(d, div, k);
      }
      forall k | 1 <= k < div ensures d[k] <= LowerClamp(d, div, k) {
        LowerClampIsLeastBound(d, div, k);
      }
    }
  }

  // ---------------------------------------------------------------------------
  // The in-place correction, stage by stage

  /** A channel vector once the forward running maximum has reached channel m. */
  function UpperDone(d: seq<real>, div: nat, m: nat): (r: seq<real>)
    requires div <= m < |d|
    ensures |r| == |d|
  {
    seq(|d|, k requires 0 <= k < |d| => if div <= k <= m then UpperClamp(d, div, k) else d[k])
  }

  /** A channel vector once the backward running maximum has reached channel m. */
  function LowerDone(d: seq<real>, div: nat, m: nat): (r: seq<real>)
    requires 1 <= m < div <= |d|
    ensures |r| == |d|
  {
    seq(|d|, k requires 0 <= k < |d| => if m <= k < div then LowerClamp(d, div, k) else d[k])
  }

  lemma UpperDoneStart(d: seq<real>, div: nat)
    requires div < |d|
    ensures UpperDone(d, div, div) == d[div := Max(0.0, d[div])]
  {
  }

  lemma UpperDoneStep(d: seq<real>, div: nat, m: nat)
    requires div <= m < |d| - 1
    ensures var s := UpperDone(d, div, m); UpperDone(d, div, m + 1) == s[m + 1 := Max(s[m + 1], s[m])]
  {
  }

  lemma LowerDoneStart(d: seq<real>, div: nat)
    requires 2 <= div <= |d|
    ensures LowerDone(d, div, div - 1) == d[div - 1 := Max(0.0, d[div - 1])]
  {
  }

  lemma LowerDoneStep(d: seq<real>, div: nat, m: nat)
    requires 2 <= m < div <= |d|
    ensures var s := LowerDone(d, div, m); LowerDone(d, div, m - 1) == s[m - 1 := Max(s[m - 1], s[m])]
  {
  }

  /** The lower running maximum reads only the lower offsets. */
  lemma {:induction false} LowerClampFrame(d: seq<real>, e: seq<real>, div: nat, k: nat)
    requires 1 <= k < div <= |d| == |e|
    requires forall j :: k <= j < div ==> d[j] == e[j]
    ensures LowerClamp(d, div, k) == LowerClamp(e, div, k)
    decreases div - k
  {
    if k < div - 1 {
      LowerClampFrame(d, e, div, k + 1);
    }
  }

  /** Running the upper stage and then the lower stage (each only where it has
      channels to work on) yields the predict-mode clamped vector. */
  lemma StagesGiveClamped(qs: seq<real>, d: seq<real>)
    requires MedianFirst(qs) && |d| == |qs| && |qs| > 1
    ensures var div := Divider(qs);
      var s1 := if div < |d| then UpperDone(d, div, |d| - 1) else d;
      var s2 := if div >= 2 then LowerDone(s1, div, 1) else s1;
      s2 == Clamped(qs, d, true)
  {
    var div := Divider(qs);
    var s1 := if div < |d| then UpperDone(d, div, |d| - 1) else d;
    if div >= 2 {
      forall k | 1 <= k < div ensures LowerClamp(s1, div, k) == LowerClamp(d, div, k) {
        LowerClampFrame(s1, d, div, k);
      }
    }
  }

  // ---------------------------------------------------------------------------
  // The tensor operation, in place on a (batch, n_forecasts, quantiles) array

  /** The channel vector at one (batch, step) position of a tensor. */
  ghost function Row(a: array3<real>, b: nat, h: nat): (r: seq<real>)
    reads a
    requires b < a.Length0 && h < a.Length1
    ensures |r| == a.Length2
    ensures forall k :: 0 <= k < a.Length2 ==> r[k] == a[b, h, k]
  {
    seq(a.Length2, k requires 0 <= k < a.Length2 reads a => a[b, h, k])
  }

  /** `a[:, :, c] = max(0, a[:, :, c])`: floors one channel at zero at every position. */
  method FloorChannel(a: array3<real>, c: nat)
    requires c < a.Length2
    modifies a
    ensures forall b, h | 0 <= b < a.Length0 && 0 <= h < a.Length1 ::
      Row(a, b, h) == old(Row(a, b, h))[c := Max(0.0, old(a[b, h, c]))]
  {
    forall b, h | 0 <= b < a.Length0 && 0 <= h < a.Length1 {
      a[b, h, c] := Max(0.0, a[b, h, c]);
    }
    forall b, h | 0 <= b < a.Length0 && 0 <= h < a.Length1
      ensures Row(a, b, h) == old(Row(a, b, h))[c := Max(0.0, old(a[b, h, c]))]
    {
    }
  }

  /** `a[:, :, dst] = max(a[:, :, dst], a[:, :, src])` at every position. */
  method MaxIntoChannel(a: array3<real>, dst: nat, src: nat)
    requires dst < a.Length2 && src < a.Length2 && dst != src
    modifies a
    ensures forall b, h | 0 <= b < a.Length0 && 0 <= h < a.Length1 ::
      var r := old(Row(a, b, h)); Row(a, b, h) == r[dst := Max(r[dst], r[src])]
  {
    forall b, h | 0 <= b < a.Length0 && 0 <= h < a.Length1 {
      a[b, h, dst] := Max(a[b, h, dst], a[b, h, src]);
    }
    forall b, h | 0 <= b < a.Length0 && 0 <= h < a.Length1
      ensures var r := old(Row(a, b, h)); Row(a, b, h) == r[dst := Max(r[dst], r[src])]
    {
    }
  }

  /** The predict-mode correction of the upper offsets (channels div..Q-1),
      done in place: a forward running maximum floored at zero. */
  method ClampUpperOffsets(diffs: array3<real>, div: nat)
    requires 1 <= div < diffs.Length2
    modifies diffs
    ensures forall b, h | 0 <= b < diffs.Length0 && 0 <= h < diffs.Length1 ::
      Row(diffs, b, h) == UpperDone(old(Row(diffs, b, h)), div, diffs.Length2 - 1)
  {
    var nUpper := diffs.Length2 - div;
    FloorChannel(diffs, div);
    forall b, h | 0 <= b < diffs.Length0 && 0 <= h < diffs.Length1
      ensures Row(diffs, b, h) == UpperDone(old(Row(diffs, b, h)), div, div)
    {
      UpperDoneStart(old(Row(diffs, b, h)), div);
    }
    var i := 0;
    while i < nUpper - 1
      modifies diffs
      invariant 0 <= i <= nUpper - 1
      invariant forall b, h | 0 <= b < diffs.Length0 && 0 <= h < diffs.Length1 ::
        Row(diffs, b, h) == UpperDone(old(Row(diffs, b, h)), div, div + i)
    {
      label step:
      MaxIntoChannel(diffs, div + i + 1, div + i);
      forall b, h | 0 <= b < diffs.Length0 && 0 <= h < diffs.Length1
        ensures Row(diffs, b, h) == UpperDone(old(Row(diffs, b, h)), div, div + i + 1)
      {
        UpperDoneStep(old(Row(diffs, b, h)), div, div + i);
      }
      i := i + 1;
    }
  }

  /** The predict-mode correction of the lower offsets (channels 1..div-1),
      done in place: a backward running maximum floored at zero. */
  method ClampLowerOffsets(diffs: array3<real>, div: nat)
    requires 2 <= div <= diffs.Length2
    modifies diffs
    ensures forall b, h | 0 <= b < diffs.Length0 && 0 <= h < diffs.Length1 ::
      Row(diffs, b, h) == LowerDone(old(Row(diffs, b, h)), div, 1)
  {
    var nLower := div - 1;
    FloorChannel(diffs, div - 1);
    forall b, h | 0 <= b < diffs.Length0 && 0 <= h < diffs.Length1
      ensures Row(diffs, b, h) == LowerDone(old(Row(diffs, b, h)), div, div - 1)
    {
      LowerDoneStart(old(Row(diffs, b, h)), div);
    }
    var i := nLower - 1;
    while i > 0
      modifies diffs
      invariant 0 <= i <= nLower - 1
      invariant forall b, h | 0 <= b < diffs.Length0 && 0 <= h < diffs.Length1 ::
        Row(diffs, b, h) == LowerDone(old(Row(diffs, b, h)), div, i + 1)
    {
      label step:
      MaxIntoChannel(diffs, i, i + 1);
      forall b, h | 0 <= b < diffs.Length0 && 0 <= h < diffs.Length1
        ensures Row(diffs, b, h) == LowerDone(old(Row(diffs, b, h)), div, i)
      {
        LowerDoneStep(old(Row(diffs, b, h)), div, i + 1);
      }
      i := i - 1;
    }
  }

  /** `out[:, :, div:] = diffs[:, :, div:] + median`: sets the upper quantiles. */
  method SetUpperQuantiles(out: array3<real>, diffs: array3<real>, div: nat)
    requires out != diffs && 1 <= div
    requires out.Length0 == diffs.Length0 && out.Length1 == diffs.Length1 && out.Length2 == diffs.Length2
    modifies out
    ensures forall b, h, k | 0 <= b < out.Length0 && 0 <= h < out.Length1 && 0 <= k < out.Length2 ::
      out[b, h, k] == if div <= k then diffs[b, h, k] + diffs[b, h, 0] else old(out[b, h, k])
  {
    forall b, h, k | 0 <= b < diffs.Length0 && 0 <= h < diffs.Length1 && div <= k < diffs.Length2 {
      out[b, h, k] := diffs[b, h, k] + diffs[b, h, 0];
    }
  }

  /** `out[:, :, 1:div] = -diffs[:, :, 1:div] + median`: sets the lower quantiles. */
  method SetLowerQuantiles(out: array3<real>, diffs: array3<real>, div: nat)
    requires out != diffs && div <= diffs.Length2
    requires out.Length0 == diffs.Length0 && out.Length1 == diffs.Length1 && out.Length2 == diffs.Length2
    modifies out
    ensures forall b, h, k | 0 <= b < out.Length0 && 0 <= h < out.Length1 && 0 <= k < out.Length2 ::
      out[b, h, k] == if 1 <= k < div then -diffs[b, h, k] + diffs[b, h, 0] else old(out[b, h, k])
  {
    forall b, h, k | 0 <= b < diffs.Length0 && 0 <= h < diffs.Length1 && 1 <= k < div {
      out[b, h, k] := -diffs[b, h, k] + diffs[b, h, 0];
    }
  }

  /** An output row once the upper quantiles are written from the offsets `s`. */
  function WithUpper(o: seq<real>, s: seq<real>, div: nat): (r: seq<real>)
    requires |o| == |s| && 1 <= div
    ensures |r| == |o|
  {
    seq(|o|, k requires 0 <= k < |o| => if div <= k then s[k] + s[0] else o[k])
  }

  /** An output row once the lower quantiles are written from the offsets `s`. */
  function WithLower(o: seq<real>, s: seq<real>, div: nat): (r: seq<real>)
    requires |o| == |s|
    ensures |r| == |o|
  {
    seq(|o|, k requires 0 <= k < |o| => if 1 <= k < div then -s[k] + s[0] else o[k])
  }

  /** The upper half of the reconciliation: the optional clamp, then
      `out[:, :, div:] = diffs[:, :, div:] + median`. */
  method UpperPhase(out: array3<real>, diffs: array3<real>, div: nat, predictMode: bool)
    requires out != diffs && 1 <= div < diffs.Length2
    requires out.Length0 == diffs.Length0 && out.Length1 == diffs.Length1 && out.Length2 == diffs.Length2
    modifies out, diffs
    ensures forall b, h | 0 <= b < diffs.Length0 && 0 <= h < diffs.Length1 ::
      Row(diffs, b, h) == if predictMode then UpperDone(old(Row(diffs, b, h)), div, diffs.Length2 - 1) else old(Row(diffs, b, h))
    ensures forall b, h | 0 <= b < diffs.Length0 && 0 <= h < diffs.Length1 ::
      Row(out, b, h) == WithUpper(old(Row(out, b, h)), Row(diffs, b, h), div)
  {
    if predictMode {
      ClampUpperOffsets(diffs, div);
    }
    label written:
    SetUpperQuantiles(out, diffs, div);
    forall b, h | 0 <= b < diffs.Length0 && 0 <= h < diffs.Length1
      ensures Row(out, b, h) == WithUpper(old(Row(out, b, h)), Row(diffs, b, h), div)
    {
      assert old(Row(out, b, h)) == old@written(Row(out, b, h));
    }
  }

  /** The lower half of the reconciliation: the optional clamp, then
      `out[:, :, 1:div] = -diffs[:, :, 1:div] + median`. */
  method LowerPhase(out: array3<real>, diffs: array3<real>, div: nat, predictMode: bool)
    requires out != diffs && 2 <= div <= diffs.Length2
    requires out.Length0 == diffs.Length0 && out.Length1 == diffs.Length1 && out.Length2 == diffs.Length2
    modifies out, diffs
    ensures forall b, h | 0 <= b < diffs.Length0 && 0 <= h < diffs.Length1 ::
      Row(diffs, b, h) == if predictMode then LowerDone(old(Row(diffs, b, h)), div, 1) else old(Row(diffs, b, h))
    ensures forall b, h | 0 <= b < diffs.Length0 && 0 <= h < diffs.Length1 ::
      Row(out, b, h) == WithLower(old(Row(out, b, h)), Row(diffs, b, h), div)
  {
    if predictMode {
      ClampLowerOffsets(diffs, div);
    }
    label written:
    SetLowerQuantiles(out, diffs, div);
    forall b, h | 0 <= b < diffs.Length0 && 0 <= h < diffs.Length1
      ensures Row(out, b, h) == WithLower(old(Row(out, b, h)), Row(diffs, b, h), div)
    {
      assert old(Row(out, b, h)) == old@written(Row(out, b, h));
    }
  }

  /** The rows left by the two phases are the clamped offsets and the reconciled forecast. */
  lemma AssembleRow(qs: seq<real>, d: seq<real>, s1: seq<real>, s2: seq<real>,
                    o0: seq<real>, o1: seq<real>, o2: seq<real>, predict: bool)
    requires MedianFirst(qs) && |qs| > 1 && |d| == |s1| == |s2| == |o0| == |qs| && o0[0] == d[0]
    requires var div := Divider(qs);
      && s1 == (if predict && div < |d| then UpperDone(d, div, |d| - 1) else d)
      && s2 == (if predict && div >= 2 then LowerDone(s1, div, 1) else s1)
      && o1 == (if div < |d| then WithUpper(o0, s1, div) else o0)
      && o2 == (if div >= 2 then WithLower(o1, s2, div) else o1)
    ensures s2 == Clamped(qs, d, predict)
    ensures o2 == Reconciled(qs, d, predict)
  {
    var div := Divider(qs);
    var c := Clamped(qs, d, predict);
    if predict {
      StagesGiveClamped(qs, d);
    }
    assert s2 == c;
    assert s1[0] == d[0] && s2[0] == d[0];
    assert forall k | div <= k < |d| :: s2[k] == s1[k];
    var r := Reconciled(qs, d, predict);
    forall k | 0 <= k < |d| ensures o2[k] == r[k] {
    }
  }

  /** Computes the quantile forecasts from the diffs. With a single quantile the
      very same tensor is returned. Otherwise a fresh tensor is returned and, in
      predict mode, the clamped offsets are also left in `diffs`, because the
      source clamps through slice views of it. */
  method ComputeQuantileForecasts(qs: seq<real>, diffs: array3<real>, predictMode: bool)
    returns (out: array3<real>)
    requires MedianFirst(qs) && diffs.Length2 == |qs|
    modifies diffs
    ensures |qs| <= 1 ==> out == diffs
    ensures |qs| > 1 ==> fresh(out)
    ensures out.Length0 == diffs.Length0 && out.Length1 == diffs.Length1 && out.Length2 == diffs.Length2
    ensures forall b, h | 0 <= b < diffs.Length0 && 0 <= h < diffs.Length1 ::
      Row(out, b, h) == Reconciled(qs, old(Row(diffs, b, h)), predictMode)
    ensures forall b, h | 0 <= b < diffs.Length0 && 0 <= h < diffs.Length1 ::
      Row(diffs, b, h) == Clamped(qs, old(Row(diffs, b, h)), predictMode)
  {
    if |qs| <= 1 {
      return diffs;
    }
    var div := Divider(qs);
    var nUpper := diffs.Length2 - div;
    var nLower := div - 1;

    out := new real[diffs.Length0, diffs.Length1, diffs.Length2]((b, h, k) => 0.0);
    forall b, h | 0 <= b < diffs.Length0 && 0 <= h < diffs.Length1 {
      out[b, h, 0] := diffs[b, h, 0];
    }
    label start:
    if nUpper > 0 {
      UpperPhase(out, diffs, div, predictMode);
    }
    label afterUpper:
    if nLower > 0 {
      LowerPhase(out, diffs, div, predictMode);
    }

    forall b, h | 0 <= b < diffs.Length0 && 0 <= h < diffs.Length1
      ensures Row(diffs, b, h) == Clamped(qs, old(Row(diffs, b, h)), predictMode)
      ensures Row(out, b, h) == Reconciled(qs, old(Row(diffs, b, h)), predictMode)
    {
      AssembleRow(qs, old(Row(diffs, b, h)), old@afterUpper(Row(diffs, b, h)), Row(diffs, b, h),
                  old@start(Row(out, b, h)), old@afterUpper(Row(out, b, h)), Row(out, b, h), predictMode);
    }
  }
}
