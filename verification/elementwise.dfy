/** Element-wise tensor arithmetic on one coordinate column of a row.

A column holds one value per group. Binary operations follow torch
broadcasting along the last dimension: two columns combine when they are
equally long or when one of them has a single entry, which then stands for
every position; the result is as long as the other operand.
 */
module Elementwise {
  import opened Clamping

  /** `a` can be broadcast to `n` entries. */
  predicate Fits(a: seq<real>, n: nat) {
    |a| == 1 || |a| == n
  }

  /** The two columns can be combined by broadcasting. */
  predicate Broadcastable(a: seq<real>, b: seq<real>) {
    |a| == |b| || |a| == 1 || |b| == 1
  }

  /** The length of the broadcast result. */
  function BroadcastLen(a: seq<real>, b: seq<real>): (n: nat)
    requires Broadcastable(a, b)
    ensures Fits(a, n) && Fits(b, n)
    ensures |b| != 1 ==> n == |b|
    ensures |a| != 1 ==> n == |a|
  {
    if |a| == 1 then |b| else |a|
  }

  /** Entry `k` of `a` once broadcast: beyond the end of a one-entry column,
      its single entry. */
  function At(a: seq<real>, k: nat): real
    requires |a| == 1 || k < |a|
  {
    if k < |a| then a[k] else a[0]
  }

  /** `x.unsqueeze(-1).expand(n)`: one value repeated `n` times. */
  function Repeat(x: real, n: nat): (r: seq<real>)
    ensures |r| == n && forall k :: 0 <= k < n ==> r[k] == x
  {
    seq(n, _ => x)
  }

  /** `a.expand_as(target)`: a one-entry column repeated to the target's
      length; a column already that long is returned as it is. */
  function ExpandAs(a: seq<real>, target: seq<real>): (r: seq<real>)
    requires Fits(a, |target|)
    ensures |r| == |target| && forall k :: 0 <= k < |r| ==> r[k] == At(a, k)
  {
    if |a| == |target| then a else Repeat(a[0], |target|)
  }

  /** The product of two entries. Kept as a function of its own so that
      products of equal factors are recognised as equal without arithmetic. */
  function Times(x: real, y: real): real {
    x * y
  }

  /** `a * b`. */
  function Mul(a: seq<real>, b: seq<real>): (r: seq<real>)
    requires Broadcastable(a, b)
    ensures |r| == BroadcastLen(a, b)
    ensures forall k :: 0 <= k < |r| ==> r[k] == Times(At(a, k), At(b, k))
  {
    seq(BroadcastLen(a, b), k requires 0 <= k < BroadcastLen(a, b) => Times(At(a, k), At(b, k)))
  }

  /** `a + b`. */
  function Add(a: seq<real>, b: seq<real>): (r: seq<real>)
    requires Broadcastable(a, b)
    ensures |r| == BroadcastLen(a, b)
    ensures forall k :: 0 <= k < |r| ==> r[k] == At(a, k) + At(b, k)
  {
    seq(BroadcastLen(a, b), k requires 0 <= k < BroadcastLen(a, b) => At(a, k) + At(b, k))
  }

  /** `a - b`. */
  function Sub(a: seq<real>, b: seq<real>): (r: seq<real>)
    requires Broadcastable(a, b)
    ensures |r| == BroadcastLen(a, b)
    ensures forall k :: 0 <= k < |r| ==> r[k] == At(a, k) - At(b, k)
  {
    seq(BroadcastLen(a, b), k requires 0 <= k < BroadcastLen(a, b) => At(a, k) - At(b, k))
  }

  /** `a * c` for a scalar `c`. */
  function Scale(a: seq<real>, c: real): (r: seq<real>)
    ensures |r| == |a| && forall k :: 0 <= k < |r| ==> r[k] == a[k] * c
  {
    seq(|a|, k requires 0 <= k < |a| => a[k] * c)
  }

  /** `torch.clamp(a, min=lo, max=hi)`. */
  function ClampEach(a: seq<real>, lo: real, hi: real): (r: seq<real>)
    ensures |r| == |a| && forall k :: 0 <= k < |r| ==> r[k] == Clamp(a[k], lo, hi)
  {
    seq(|a|, k requires 0 <= k < |a| => Clamp(a[k], lo, hi))
  }

  /** `torch.clamp(a, max=hi)`. */
  function ClampMaxEach(a: seq<real>, hi: real): (r: seq<real>)
    ensures |r| == |a| && forall k :: 0 <= k < |r| ==> r[k] == ClampMax(a[k], hi)
  {
    seq(|a|, k requires 0 <= k < |a| => ClampMax(a[k], hi))
  }

  /** `a.exp()`. */
  function ExpEach(a: seq<real>, exp: real -> real): (r: seq<real>)
    ensures |r| == |a| && forall k :: 0 <= k < |r| ==> r[k] == exp(a[k])
  {
    seq(|a|, k requires 0 <= k < |a| => exp(a[k]))
  }
}
