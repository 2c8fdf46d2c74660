/** Elementwise arithmetic on tensors given as their element sequences. */
module Elementwise {

  function Zeros(n: nat): (z: seq<real>)
    ensures |z| == n && forall i :: 0 <= i < n ==> z[i] == 0.0
  {
    seq(n, _ => 0.0)
  }

  function Add(a: seq<real>, b: seq<real>): (r: seq<real>)
    requires |a| == |b|
    ensures |r| == |a|
  {
    seq(|a|, i requires 0 <= i < |a| => a[i] + b[i])
  }

  function Sub(a: seq<real>, b: seq<real>): (r: seq<real>)
    requires |a| == |b|
    ensures |r| == |a|
  {
    seq(|a|, i requires 0 <= i < |a| => a[i] - b[i])
  }

  /** ele.mult: the elementwise product. */
  function Mul(a: seq<real>, b: seq<real>): (r: seq<real>)
    requires |a| == |b|
    ensures |r| == |a|
  {
    seq(|a|, i requires 0 <= i < |a| => a[i] * b[i])
  }

  /** A tensor times a scalar. */
  function Scale(a: seq<real>, c: real): (r: seq<real>)
    ensures |r| == |a|
  {
    seq(|a|, i requires 0 <= i < |a| => a[i] * c)
  }

  /** The sum of all elementwise products. */
  function Dot(a: seq<real>, b: seq<real>): real
    requires |a| == |b|
  {
    if |a| == 0 then 0.0 else Dot(a[..|a| - 1], b[..|b| - 1]) + a[|a| - 1] * b[|b| - 1]
  }

  /** The products a[i] * b[i] and c[i] * d[i] agree at every index. */
  ghost predicate Termwise(a: seq<real>, b: seq<real>, c: seq<real>, d: seq<real>)
  {
    |a| == |b| == |c| == |d| && forall i :: 0 <= i < |a| ==> a[i] * b[i] == c[i] * d[i]
  }

  /** Sums of products that agree term by term are equal. */
  lemma {:induction false} DotPointwise(a: seq<real>, b: seq<real>, c: seq<real>, d: seq<real>)
    requires Termwise(a, b, c, d)
    ensures Dot(a, b) == Dot(c, d)
  {
    if |a| > 0 {
      var n := |a| - 1;
      DotPointwise(a[..n], b[..n], c[..n], d[..n]);
    }
  }
}
