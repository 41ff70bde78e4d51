/** Shared vocabulary: tensors as nested sequences of reals, shapes, elementwise
    arithmetic, and the error values that stand for the exceptions the model raises. */
module Tensors {

  datatype Option<T> = None | Some(value: T)

  /** The exceptions of the source, by Python exception class. */
  datatype Error =
    | ValueError(message: string)
    | KeyError(key: string)
    | AttributeError(attribute: string)
    | AssertionError(message: string)
    | TypeError(message: string)
    | ZeroDivisionError(message: string)
    | NonFinite  // a floating-point division by zero: NaN or Inf in the source

  datatype Result<T> = Ok(value: T) | Err(error: Error)

  type Matrix = seq<seq<real>>
  /** A (batch, time, channel) tensor. */
  type Tensor3 = seq<seq<seq<real>>>

  predicate IsMatrix(m: Matrix, rows: nat, cols: nat) {
    |m| == rows && forall i :: 0 <= i < |m| ==> |m[i]| == cols
  }

  predicate IsTensor3(t: Tensor3, d0: nat, d1: nat, d2: nat) {
    |t| == d0 && forall b :: 0 <= b < |t| ==> IsMatrix(t[b], d1, d2)
  }

  /** `torch.zeros(d0, d1, d2)` */
  function Zeros3(d0: nat, d1: nat, d2: nat): (t: Tensor3)
    ensures IsTensor3(t, d0, d1, d2)
    ensures forall b, i, j :: 0 <= b < d0 && 0 <= i < d1 && 0 <= j < d2 ==> t[b][i][j] == 0.0
  {
    seq(d0, b => seq(d1, i => seq(d2, j => 0.0)))
  }

  /** Elementwise sum of two tensors of one shape (`a + b`, `a += b`). */
  function Add3(x: Tensor3, y: Tensor3, d0: nat, d1: nat, d2: nat): (t: Tensor3)
    requires IsTensor3(x, d0, d1, d2) && IsTensor3(y, d0, d1, d2)
    ensures IsTensor3(t, d0, d1, d2)
    ensures forall b, i, j :: 0 <= b < d0 && 0 <= i < d1 && 0 <= j < d2 ==>
      t[b][i][j] == x[b][i][j] + y[b][i][j]
  {
    seq(d0, b requires 0 <= b < d0 =>
      seq(d1, i requires 0 <= i < d1 =>
        seq(d2, j requires 0 <= j < d2 => x[b][i][j] + y[b][i][j])))
  }

  /** `t[:, lo:hi, :]`: the time steps lo..hi-1 of every batch row. */
  function SliceSteps(t: Tensor3, lo: nat, hi: nat, d0: nat, d1: nat, d2: nat): (s: Tensor3)
    requires IsTensor3(t, d0, d1, d2) && lo <= hi <= d1
    ensures IsTensor3(s, d0, hi - lo, d2)
    ensures forall b, i :: 0 <= b < d0 && 0 <= i < hi - lo ==> s[b][i] == t[b][lo + i]
  {
    seq(d0, b requires 0 <= b < d0 => t[b][lo..hi])
  }

  /** Sum of a sequence of reals. */
  function Sum(s: seq<real>): real {
    if s == [] then 0.0 else s[0] + Sum(s[1..])
  }

  lemma {:induction false} SumConcat(s: seq<real>, t: seq<real>)
    ensures Sum(s + t) == Sum(s) + Sum(t)
  {
    if s == [] {
      assert s + t == t;
    } else {
      assert (s + t)[1..] == s[1..] + t;
      SumConcat(s[1..], t);
    }
  }

  /** The sum of a pointwise sum is the sum of the sums. */
  lemma {:induction false} SumPointwise(s: seq<real>, t: seq<real>, u: seq<real>)
    requires |s| == |t| == |u|
    requires forall i :: 0 <= i < |u| ==> u[i] == s[i] + t[i]
    ensures Sum(u) == Sum(s) + Sum(t)
  {
    if u != [] {
      SumPointwise(s[1..], t[1..], u[1..]);
    }
  }

  /** Scaling every term scales the sum. */
  lemma {:induction false} SumScale(s: seq<real>, c: real, u: seq<real>)
    requires |s| == |u|
    requires forall i :: 0 <= i < |u| ==> u[i] == c * s[i]
    ensures Sum(u) == c * Sum(s)
  {
    if u != [] {
      SumScale(s[1..], c, u[1..]);
    }
  }
}
