/** Linear effects of scalar features (events, holidays) per quantile:
    TimeNet.scalar_features_effects. */
module ScalarEffects {
  import opened Tensors

  /** The feature positions lo..hi-1, in order. */
  function Range(lo: nat, hi: nat): (r: seq<nat>)
    requires lo <= hi
    ensures |r| == hi - lo
    ensures forall j :: 0 <= j < |r| ==> r[j] == lo + j
    decreases hi - lo
  {
    if lo == hi then [] else [lo] + Range(lo + 1, hi)
  }

  predicate IndicesIn(idx: seq<nat>, n: nat) {
    forall j :: 0 <= j < |idx| ==> idx[j] < n
  }

  /** The contribution of feature i. */
  function Term(f: seq<real>, w: seq<real>, i: nat): real
    requires i < |f| && i < |w|
  {
    f[i] * w[i]
  }

  /** `torch.sum(f * w)` over all features. */
  function Dot(f: seq<real>, w: seq<real>): real
    requires |f| == |w|
  {
    if f == [] then 0.0 else Term(f, w, 0) + Dot(f[1..], w[1..])
  }

  /** `torch.sum(f[idx] * w[idx])`: the features picked by an index list, in list order. */
  function GatheredDot(f: seq<real>, w: seq<real>, idx: seq<nat>): real
    requires |f| == |w| && IndicesIn(idx, |f|)
  {
    if idx == [] then 0.0 else Term(f, w, idx[0]) + GatheredDot(f, w, idx[1..])
  }

  /** The effect at one (batch, step) position: one value per quantile row of
      `params`, over all features or over the features an index list picks. */
  function Effect(f: seq<real>, params: Matrix, indices: Option<seq<nat>>): (r: seq<real>)
    requires forall q :: 0 <= q < |params| ==> |params[q]| == |f|
    requires indices.Some? ==> IndicesIn(indices.value, |f|)
    ensures |r| == |params|
  {
    seq(|params|, q requires 0 <= q < |params| =>
      match indices
      case None => Dot(f, params[q])
      case Some(idx) => GatheredDot(f, params[q], idx))
  }

  /** `scalar_features_effects(features, params, indices)` on a (batch, steps, features)
      tensor and a (quantiles, features) parameter block. */
  function EffectsTensor(features: Tensor3, params: Matrix, indices: Option<seq<nat>>,
                         nBatch: nat, nSteps: nat, nFeatures: nat): (r: Tensor3)
    requires IsTensor3(features, nBatch, nSteps, nFeatures)
    requires IsMatrix(params, |params|, nFeatures)
    requires indices.Some? ==> IndicesIn(indices.value, nFeatures)
    ensures IsTensor3(r, nBatch, nSteps, |params|)
    ensures forall b, t :: 0 <= b < nBatch && 0 <= t < nSteps ==>
      r[b][t] == Effect(features[b][t], params, indices)
  {
    seq(nBatch, b requires 0 <= b < nBatch =>
      seq(nSteps, t requires 0 <= t < nSteps => Effect(features[b][t], params, indices)))
  }

  // ---------------------------------------------------------------------------
  // Gathering by index lists

  /** Gathering over all positions in order is the plain sum over all features. */
  lemma {:induction false} GatheredRangeIsDot(f: seq<real>, w: seq<real>, lo: nat)
    requires |f| == |w| && lo <= |f|
    ensures GatheredDot(f, w, Range(lo, |f|)) == Dot(f[lo..], w[lo..])
    decreases |f| - lo
  {
    if lo < |f| {
      GatheredRangeIsDot(f, w, lo + 1);
      assert Range(lo, |f|)[1..] == Range(lo + 1, |f|);
      assert f[lo..][1..] == f[lo + 1..];
      assert w[lo..][1..] == w[lo + 1..];
    }
  }

  lemma {:induction false} GatheredConcat(f: seq<real>, w: seq<real>, a: seq<nat>, b: seq<nat>)
    requires |f| == |w| && IndicesIn(a, |f|) && IndicesIn(b, |f|)
    ensures IndicesIn(a + b, |f|)
    ensures GatheredDot(f, w, a + b) == GatheredDot(f, w, a) + GatheredDot(f, w, b)
  {
    if a != [] {
      assert (a + b)[1..] == a[1..] + b;
      GatheredConcat(f, w, a[1..], b);
    } else {
      assert a + b == b;
    }
  }

  /** Taking one position out of an index list takes its term out of the sum. */
  lemma {:induction false} GatheredRemoveAt(f: seq<real>, w: seq<real>, b: seq<nat>, j: nat)
    requires |f| == |w| && IndicesIn(b, |f|) && j < |b|
    ensures IndicesIn(b[..j] + b[j + 1..], |f|)
    ensures GatheredDot(f, w, b) == Term(f, w, b[j]) + GatheredDot(f, w, b[..j] + b[j + 1..])
    decreases j
  {
    var rest := b[..j] + b[j + 1..];
    assert forall k | 0 <= k < |rest| :: rest[k] == b[if k < j then k else k + 1];
    if j == 0 {
      assert rest == b[1..];
    } else {
      var tail := b[1..];
      GatheredRemoveAt(f, w, tail, j - 1);
      assert rest[0] == b[0];
      assert rest[1..] == tail[..j - 1] + tail[j..];
    }
  }

  lemma MultisetRemoveAt(a: seq<nat>, b: seq<nat>, j: nat)
    requires a != [] && j < |b| && b[j] == a[0] && multiset(a) == multiset(b)
    ensures multiset(a[1..]) == multiset(b[..j] + b[j + 1..])
  {
    assert a == [a[0]] + a[1..];
    assert b == b[..j] + [b[j]] + b[j + 1..];
    assert multiset(a[1..]) == multiset(a) - multiset{a[0]};
    assert multiset(b[..j] + b[j + 1..]) == multiset(b) - multiset{b[j]};
  }

  /** The order of an index list does not matter, only which positions it picks
      and how often. */
  lemma {:induction false} GatheredPermutation(f: seq<real>, w: seq<real>, a: seq<nat>, b: seq<nat>)
    requires |f| == |w| && IndicesIn(a, |f|) && IndicesIn(b, |f|)
    requires multiset(a) == multiset(b)
    ensures GatheredDot(f, w, a) == GatheredDot(f, w, b)
    decreases |a|
  {
    if a != [] {
      assert a[0] in multiset(b);
      var j :| 0 <= j < |b| && b[j] == a[0];
      MultisetRemoveAt(a, b, j);
      GatheredRemoveAt(f, w, b, j);
      GatheredPermutation(f, w, a[1..], b[..j] + b[j + 1..]);
    } else {
      assert |b| == |multiset(b)| == 0;
    }
  }

  /** The index lists one after another. */
  function Flatten(lists: seq<seq<nat>>): seq<nat> {
    if lists == [] then [] else lists[0] + Flatten(lists[1..])
  }

  lemma {:induction false} FlattenIndicesIn(lists: seq<seq<nat>>, n: nat)
    requires forall i :: 0 <= i < |lists| ==> IndicesIn(lists[i], n)
    ensures IndicesIn(Flatten(lists), n)
  {
    if lists != [] {
      FlattenIndicesIn(lists[1..], n);
    }
  }

  /** Disjoint index lists that together pick every feature exactly once. */
  predicate Partitions(lists: seq<seq<nat>>, n: nat) {
    (forall i :: 0 <= i < |lists| ==> IndicesIn(lists[i], n)) &&
    multiset(Flatten(lists)) == multiset(Range(0, n))
  }

  /** The per-list dot products summed over the lists. */
  function SumOfGathered(f: seq<real>, w: seq<real>, lists: seq<seq<nat>>): real
    requires |f| == |w| && forall i :: 0 <= i < |lists| ==> IndicesIn(lists[i], |f|)
  {
    if lists == [] then 0.0 else GatheredDot(f, w, lists[0]) + SumOfGathered(f, w, lists[1..])
  }

  lemma {:induction false} SumOfGatheredIsFlatten(f: seq<real>, w: seq<real>, lists: seq<seq<nat>>)
    requires |f| == |w| && forall i :: 0 <= i < |lists| ==> IndicesIn(lists[i], |f|)
    ensures IndicesIn(Flatten(lists), |f|)
    ensures SumOfGathered(f, w, lists) == GatheredDot(f, w, Flatten(lists))
  {
    FlattenIndicesIn(lists, |f|);
    if lists != [] {
      SumOfGatheredIsFlatten(f, w, lists[1..]);
      FlattenIndicesIn(lists[1..], |f|);
      GatheredConcat(f, w, lists[0], Flatten(lists[1..]));
    }
  }

  /** For disjoint index lists covering all features, the effect over all
      features is the sum of the per-list effects. */
  lemma PartitionedDot(f: seq<real>, w: seq<real>, lists: seq<seq<nat>>)
    requires |f| == |w| && Partitions(lists, |f|)
    ensures Dot(f, w) == SumOfGathered(f, w, lists)
  {
    SumOfGatheredIsFlatten(f, w, lists);
    GatheredPermutation(f, w, Flatten(lists), Range(0, |f|));
    GatheredRangeIsDot(f, w, 0);
    assert f[0..] == f && w[0..] == w;
  }

  /** The same statement for every quantile of one position's effect. */
  lemma PartitionedEffect(f: seq<real>, params: Matrix, lists: seq<seq<nat>>)
    requires forall q :: 0 <= q < |params| ==> |params[q]| == |f|
    requires Partitions(lists, |f|)
    ensures forall q :: 0 <= q < |params| ==>
      Effect(f, params, None)[q] == SumOfGathered(f, params[q], lists)
  {
    forall q | 0 <= q < |params| ensures Effect(f, params, None)[q] == SumOfGathered(f, params[q], lists) {
      PartitionedDot(f, params[q], lists);
    }
  }

  /** An index list that picks every feature once, in order, is the same as no index list. */
  lemma AllIndicesIsNone(f: seq<real>, params: Matrix)
    requires forall q :: 0 <= q < |params| ==> |params[q]| == |f|
    ensures Effect(f, params, Some(Range(0, |f|))) == Effect(f, params, None)
  {
    forall q | 0 <= q < |params| ensures GatheredDot(f, params[q], Range(0, |f|)) == Dot(f, params[q]) {
      GatheredRangeIsDot(f, params[q], 0);
      assert f[0..] == f && params[q][0..] == params[q];
    }
  }
}
