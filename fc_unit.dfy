/**
 * The shape bookkeeping of the fully connected unit of net.py (class
 * FullyConnection): inputs of rank above 2 are flattened to a matrix that
 * keeps the last axis, and the input gradient is reshaped back to the
 * shape forward saw. Tensors are represented by their shapes; the matrix
 * product and its operands' values are the native library's.
 */
module FcUnits {
  import opened Wrappers

  const TWO_POW_31: int := 0x8000_0000
  const TWO_POW_32: int := 0x1_0000_0000

  function Prod(s: seq<nat>): nat
  {
    if |s| == 0 then 1 else Prod(s[..|s| - 1]) * s[|s| - 1]
  }

  /** The value numpy's product with dtype int32 holds: x wrapped into the signed 32-bit range. */
  function Wrap32(x: int): (r: int)
    ensures -TWO_POW_31 <= r < TWO_POW_31
    ensures (x - r) % TWO_POW_32 == 0
    ensures -TWO_POW_31 <= x < TWO_POW_31 ==> r == x
  {
    var m := x % TWO_POW_32;
    if m < TWO_POW_31 then m else m - TWO_POW_32
  }

  /** NArray.reshape: the target must have non-negative extents and the same element count. */
  function Reshape(shape: seq<nat>, target: seq<int>): (r: Result<seq<nat>>)
    ensures r.Ok? ==> |r.value| == |target| && (forall k :: 0 <= k < |target| ==> r.value[k] == target[k])
                      && Prod(r.value) == Prod(shape)
    ensures r.Err? ==> r.error == ShapeMismatch
  {
    if forall k :: 0 <= k < |target| ==> target[k] >= 0 then
      var t := Naturals(target);
      if Prod(t) == Prod(shape) then Ok(t) else Err(ShapeMismatch)
    else Err(ShapeMismatch)
  }

  function Naturals(target: seq<int>): (t: seq<nat>)
    requires forall k :: 0 <= k < |target| ==> target[k] >= 0
    ensures |t| == |target| && forall k :: 0 <= k < |target| ==> t[k] == target[k]
  {
    seq(|target|, k requires 0 <= k < |target| => target[k] as nat)
  }

  /** The matrix a forward or backward pass works on: ranks above 2 flattened, smaller ranks kept. */
  function Flatten(shape: seq<nat>): Result<seq<nat>>
  {
    if |shape| > 2 then
      Reshape(shape, [Wrap32(Prod(shape[..|shape| - 1])), shape[|shape| - 1]])
    else
      Ok(shape)
  }

  lemma ProdPair(x: nat, y: nat)
    ensures Prod([x, y]) == x * y
  {
    var t, one := [x, y], [x];
    assert t[..1] == one;
    assert one[..0] == [];
    assert Prod(one) == Prod([]) * x;
    assert Prod(t) == Prod(one) * y;
  }

  lemma MulStrict(a: int, b: int, c: int)
    requires c > 0 && a < b
    ensures a * c < b * c
  {
  }

  /**
   * The flattened matrix keeps the last axis and the element count. With a
   * nonzero last extent it exists exactly when the product of the other
   * extents fits in a signed 32-bit integer.
   */
  lemma FlattenKeepsCount(shape: seq<nat>)
    requires |shape| > 2
    ensures Flatten(shape).Ok? ==>
              && |Flatten(shape).value| == 2
              && Flatten(shape).value[1] == shape[|shape| - 1]
              && Prod(Flatten(shape).value) == Prod(shape)
    ensures shape[|shape| - 1] > 0 ==> (Flatten(shape).Ok? <==> Prod(shape[..|shape| - 1]) < TWO_POW_31)
  {
    var p, last := Prod(shape[..|shape| - 1]), shape[|shape| - 1];
    var w := Wrap32(p);
    assert Prod(shape) == p * last;
    ReshapePair(shape, w, last);
    if w >= 0 && last > 0 && p >= TWO_POW_31 {
      MulStrict(w, p, last);
    }
  }

  lemma ReshapePair(shape: seq<nat>, x: int, y: nat)
    ensures Reshape(shape, [x, y]).Ok? <==> x >= 0 && x * y == Prod(shape)
    ensures Reshape(shape, [x, y]).Ok? ==> Reshape(shape, [x, y]).value == [x as nat, y]
  {
    if x >= 0 {
      assert forall k :: 0 <= k < |[x, y]| ==> [x, y][k] >= 0;
      assert Naturals([x, y]) == [x as nat, y];
      ProdPair(x as nat, y);
    } else {
      assert [x, y][0] < 0;
    }
  }

  function Trans(m: seq<nat>): seq<nat>
  {
    if |m| == 2 then [m[1], m[0]] else m
  }

  /** The shape of a matrix product; ShapeMismatch unless both are matrices with matching inner extents. */
  function MatMul(a: seq<nat>, b: seq<nat>): (r: Result<seq<nat>>)
    ensures r.Ok? <==> |a| == 2 && |b| == 2 && a[1] == b[0]
    ensures r.Ok? ==> r.value == [a[0], b[1]]
  {
    if |a| == 2 && |b| == 2 && a[1] == b[0] then Ok([a[0], b[1]]) else Err(ShapeMismatch)
  }

  /** The shape of NArray.sum(k): axis k reduced to extent 1. */
  function SumAxis(m: seq<nat>, k: nat): (r: Result<seq<nat>>)
  {
    if k < |m| then Ok(m[k := 1]) else Err(IndexError)
  }

  /** The shape of the product FullyConnection.ff computes for weight shape w, which the bias addition keeps. */
  function FcForward(w: seq<nat>, act: seq<nat>): Result<seq<nat>>
  {
    match Flatten(act)
    case Err(e) => Err(e)
    case Ok(a) => MatMul(w, a)
  }

  datatype Grads = Grads(input: seq<nat>, weight: seq<nat>, bias: seq<nat>)

  /**
   * The shapes FullyConnection.bp produces from the cached input shape:
   * the weight gradient sen * a^T, the bias gradient sen.sum(1), and the
   * input gradient w^T * sen, reshaped to the cached shape when that has
   * rank above 2.
   */
  function FcBackward(w: seq<nat>, act: seq<nat>, sen: seq<nat>): Result<Grads>
  {
    match Flatten(act)
    case Err(e) => Err(e)
    case Ok(a) =>
      match MatMul(sen, Trans(a))
      case Err(e) => Err(e)
      case Ok(wg) =>
        match SumAxis(sen, 1)
        case Err(e) => Err(e)
        case Ok(bg) =>
          match MatMul(Trans(w), sen)
          case Err(e) => Err(e)
          case Ok(s) =>
            if |act| > 2 then
              match Reshape(s, act)
              case Err(e) => Err(e)
              case Ok(back) => Ok(Grads(back, wg, bg))
            else Ok(Grads(s, wg, bg))
  }

  /**
   * Forward then backward with a gradient of the output's shape: the input
   * gradient has exactly the shape forward received, the weight gradient
   * the weight's shape, and the bias gradient one column per output.
   */
  lemma FcRoundTrip(w: seq<nat>, act: seq<nat>)
    requires FcForward(w, act).Ok?
    ensures FcBackward(w, act, FcForward(w, act).value) == Ok(Grads(act, w, [w[0], 1]))
  {
    var a := Flatten(act).value;
    var sen := FcForward(w, act).value;
    assert sen == [w[0], a[1]];
    assert MatMul(sen, Trans(a)) == Ok(w) by {
      assert [w[0], a[0]] == w;
    }
    assert MatMul(Trans(w), sen) == Ok(a) by {
      assert [w[1], a[1]] == a;
    }
    assert SumAxis(sen, 1) == Ok([w[0], 1]) by {
      assert |sen| == 2;
      assert sen[1 := 1] == [w[0], 1];
    }
    if |act| > 2 {
      FlattenKeepsCount(act);
      var s := [a[0], a[1]];
      assert Reshape(s, act) == Ok(act) by {
        var t := seq(|act|, k requires 0 <= k < |act| => act[k] as int as nat);
        assert t == act;
      }
    }
  }

  /** The parameters, cache and gradients of one fully connected unit, by shape. */
  class FullyConnection {
    var weight: Option<seq<nat>>
    var bias: Option<seq<nat>>
    var ffAct: Option<seq<nat>>
    var weightGrad: Option<seq<nat>>
    var biasGrad: Option<seq<nat>>

    constructor ()
      ensures weight == None && bias == None && ffAct == None && weightGrad == None && biasGrad == None
    {
      weight, bias, ffAct, weightGrad, biasGrad := None, None, None, None, None;
    }

    /**
     * FullyConnection.ff: flattens the input, caches its shape, multiplies
     * by the weight and adds the bias. A reshape failure happens before the
     * cache is written; an unset weight fails at the product and an unset
     * bias at the addition, both with TypeError. The sum has the product's
     * shape.
     */
    method Ff(act: seq<nat>) returns (r: Result<seq<nat>>)
      modifies this
      ensures Flatten(act).Err? ==> r == Flatten(act) && ffAct == old(ffAct)
      ensures Flatten(act).Ok? ==> ffAct == Some(act)
      ensures Flatten(act).Ok? && weight.None? ==> r == Err(TypeError)
      ensures weight.Some? && FcForward(weight.value, act).Err? ==> r == FcForward(weight.value, act)
      ensures weight.Some? && FcForward(weight.value, act).Ok? && bias.None? ==> r == Err(TypeError)
      ensures weight.Some? && FcForward(weight.value, act).Ok? && bias.Some? ==> r == FcForward(weight.value, act)
      ensures weight == old(weight) && bias == old(bias) && weightGrad == old(weightGrad) && biasGrad == old(biasGrad)
    {
      var a := Flatten(act);
      if a.Err? {
        return a;
      }
      ffAct := Some(act);
      if weight.None? {
        return Err(TypeError);
      }
      r := MatMul(weight.value, a.value);
      if r.Ok? && bias.None? {
        r := Err(TypeError);
      }
    }

    /**
     * FullyConnection.bp: recomputes the flattened input from the cache,
     * records the weight gradient and then the bias gradient, and returns
     * the input gradient. Without a cached input it is an AttributeError,
     * and so is an unset weight, which fails only after both gradients are
     * recorded.
     */
    method Bp(sen: seq<nat>) returns (r: Result<seq<nat>>)
      modifies this
      ensures ffAct.None? ==> r == Err(AttributeError) && weightGrad == old(weightGrad) && biasGrad == old(biasGrad)
      ensures ffAct.Some? && Flatten(ffAct.value).Err? ==>
                r == Flatten(ffAct.value) && weightGrad == old(weightGrad) && biasGrad == old(biasGrad)
      ensures ffAct.Some? && Flatten(ffAct.value).Ok? && MatMul(sen, Trans(Flatten(ffAct.value).value)).Err? ==>
                r == Err(ShapeMismatch) && weightGrad == old(weightGrad) && biasGrad == old(biasGrad)
      ensures ffAct.Some? && Flatten(ffAct.value).Ok? && MatMul(sen, Trans(Flatten(ffAct.value).value)).Ok? ==>
                && weightGrad == Some(MatMul(sen, Trans(Flatten(ffAct.value).value)).value)
                && SumAxis(sen, 1).Ok? && biasGrad == Some(SumAxis(sen, 1).value)
      ensures ffAct.Some? && Flatten(ffAct.value).Ok? && MatMul(sen, Trans(Flatten(ffAct.value).value)).Ok? && weight.None? ==>
                r == Err(AttributeError)
      ensures ffAct.Some? && weight.Some? && FcBackward(weight.value, ffAct.value, sen).Ok? ==>
                var g := FcBackward(weight.value, ffAct.value, sen).value;
                r == Ok(g.input) && weightGrad == Some(g.weight) && biasGrad == Some(g.bias)
      ensures r.Ok? <==> weight.Some? && ffAct.Some? && FcBackward(weight.value, ffAct.value, sen).Ok?
      ensures weight == old(weight) && bias == old(bias) && ffAct == old(ffAct)
    {
      if ffAct.None? {
        return Err(AttributeError);
      }
      var act := ffAct.value;
      var a := Flatten(act);
      if a.Err? {
        return Err(a.error);
      }
      var wg := MatMul(sen, Trans(a.value));
      if wg.Err? {
        return Err(wg.error);
      }
      weightGrad := Some(wg.value);
      var bg := SumAxis(sen, 1);
      biasGrad := Some(bg.value);
      if weight.None? {
        return Err(AttributeError);
      }
      var s := MatMul(Trans(weight.value), sen);
      if s.Err? {
        return Err(s.error);
      }
      if |act| > 2 {
        var back := Reshape(s.value, act);
        if back.Err? {
          return Err(back.error);
        }
        return Ok(back.value);
      }
      r := Ok(s.value);
    }
  }
}
