/**
 * The shape logic and parameter records of conv.py: softmax runs its
 * native kernel on a 4-axis view of its input (the instance axis last) and
 * reshapes the result back; Pooler and Convolver only record parameters.
 */
module Conv {
  import opened Wrappers
  import opened Caffe
  import opened FcUnits

  /** n ones; none when n is not positive, as `[1 for i in range(n)]`. */
  function Ones(n: int): (r: seq<nat>)
    ensures |r| == (if n > 0 then n else 0)
    ensures forall k :: 0 <= k < |r| ==> r[k] == 1
    decreases n
  {
    if n <= 0 then [] else Ones(n - 1) + [1]
  }

  /**
   * The shape softmax gives the kernel when the input is not 4-D: every
   * axis but the last, ones up to rank 4, then the last (instance) axis.
   * An empty shape has no last axis: IndexError.
   */
  function SoftShape(shape: seq<nat>): (r: Result<seq<nat>>)
    ensures r.Ok? <==> |shape| > 0
    ensures r.Err? ==> r.error == IndexError
  {
    if |shape| == 0 then Err(IndexError)
    else Ok(shape[..|shape| - 1] + Ones(4 - |shape|) + [shape[|shape| - 1]])
  }

  /** The shape of the tensor the native softmax kernel is applied to. */
  function KernelShape(shape: seq<nat>): (r: Result<seq<nat>>)
    ensures |shape| == 4 ==> r == Ok(shape)
  {
    if |shape| == 4 then Ok(shape)
    else
      match SoftShape(shape)
      case Err(e) => Err(e)
      case Ok(s) => Reshape(shape, s)
  }

  /**
   * The shape of softmax's result. The kernel keeps the shape it is given;
   * the result of a reshaped call is reshaped back to the input's shape.
   */
  function SoftmaxShape(shape: seq<nat>): Result<seq<nat>>
  {
    if |shape| == 4 then Ok(shape)
    else
      match KernelShape(shape)
      case Err(e) => Err(e)
      case Ok(k) => Reshape(k, shape)
  }

  lemma {:induction false} ProdOnes(a: seq<nat>, n: int)
    ensures Prod(a + Ones(n)) == Prod(a)
    decreases n
  {
    if n > 0 {
      var p := a + Ones(n - 1);
      ProdOnes(a, n - 1);
      assert Ones(n) == Ones(n - 1) + [1];
      assert a + Ones(n) == p + [1];
      ProdSnoc(p, 1);
    } else {
      assert a + Ones(n) == a;
    }
  }

  lemma ProdSnoc(p: seq<nat>, x: nat)
    ensures Prod(p + [x]) == Prod(p) * x
  {
    assert (p + [x])[..|p|] == p;
  }

  /**
   * The augmented shape keeps every axis but the last in place, ends with
   * the last axis, holds only ones in between, has rank 4 when the input
   * has a lower rank, equals the input when its rank is above 4, and has
   * the same element count.
   */
  lemma AugmentedShape(shape: seq<nat>)
    requires |shape| > 0
    ensures var s := SoftShape(shape).value;
            && (|shape| < 4 ==> |s| == 4)
            && (|shape| >= 4 ==> s == shape)
            && |s| >= |shape|
            && s[..|shape| - 1] == shape[..|shape| - 1]
            && s[|s| - 1] == shape[|shape| - 1]
            && (forall k :: |shape| - 1 <= k < |s| - 1 ==> s[k] == 1)
            && Prod(s) == Prod(shape)
  {
    var n := |shape|;
    var init := shape[..n - 1];
    var s := SoftShape(shape).value;
    assert s == init + Ones(4 - n) + [shape[n - 1]];
    assert s[..n - 1] == init;
    ProdSnoc(init + Ones(4 - n), shape[n - 1]);
    ProdOnes(init, 4 - n);
    ProdSnoc(init, shape[n - 1]);
    assert init + [shape[n - 1]] == shape;
    if n >= 4 {
      assert Ones(4 - n) == [];
      assert init + [] == init;
    }
    forall k | n - 1 <= k < |s| - 1
      ensures s[k] == 1
    {
      assert s[k] == Ones(4 - n)[k - (n - 1)];
    }
  }

  /**
   * softmax keeps the shape of its input: a 4-D input goes to the kernel
   * as it is, any other non-empty input through a rank-4 view with the same
   * element count, and an empty shape fails on its missing last axis.
   */
  lemma SoftmaxKeepsShape(shape: seq<nat>)
    ensures SoftmaxShape(shape) == (if |shape| == 0 then Err(IndexError) else Ok(shape))
    ensures 0 < |shape| <= 4 ==> KernelShape(shape).Ok? && |KernelShape(shape).value| == 4
    ensures |shape| > 4 ==> KernelShape(shape) == Ok(shape)
  {
    if 0 < |shape| && |shape| != 4 {
      AugmentedShape(shape);
      var s := SoftShape(shape).value;
      var k := Reshape(shape, s);
      assert s == Naturals(s);
      assert k == Ok(s);
      assert shape == Naturals(shape);
    }
  }

  /** The pooling kernels the native library offers (conv.pool_op). */
  datatype PoolOp = PoolMax | PoolAvg

  /** The native pooling parameter record. */
  datatype PoolingInfo = PoolingInfo(height: int, width: int, strideVertical: int, strideHorizontal: int,
                                     padHeight: int, padWidth: int, algorithm: PoolOp)

  /** The native convolution parameter record. */
  datatype ConvInfo = ConvInfo(padHeight: int, padWidth: int, strideVertical: int, strideHorizontal: int)

  /** Pooler's constructor: every argument recorded as given; pads default to 0 and the kernel to max. */
  function Pooler(h: int, w: int, strideV: int, strideH: int, padH: int := 0, padW: int := 0, op: PoolOp := PoolMax): (p: PoolingInfo)
    ensures p.height == h && p.width == w && p.strideVertical == strideV && p.strideHorizontal == strideH
    ensures p.padHeight == padH && p.padWidth == padW && p.algorithm == op
  {
    PoolingInfo(h, w, strideV, strideH, padH, padW, op)
  }

  /** Convolver's constructor: pads and strides recorded as given. */
  function Convolver(padH: int, padW: int, strideV: int, strideH: int): (c: ConvInfo)
    ensures c.padHeight == padH && c.padWidth == padW && c.strideVertical == strideV && c.strideHorizontal == strideH
  {
    ConvInfo(padH, padW, strideV, strideH)
  }

  /**
   * The pooler a pooling unit builds from its layer parameters: a square
   * window, equal strides and pads, MAX or AVE; a stochastic pooling layer
   * leaves the kernel variable unassigned, which fails as UnboundLocal.
   */
  function PoolingUnitPooler(pool: PoolMethod, kernelSize: int, stride: int, pad: int): (r: Result<PoolingInfo>)
    ensures r.Err? <==> pool == STOCHASTIC
    ensures r.Err? ==> r.error == UnboundLocal
    ensures r.Ok? ==> r.value == PoolingInfo(kernelSize, kernelSize, stride, stride, pad, pad,
                                             if pool == MAX then PoolMax else PoolAvg)
  {
    match pool
    case MAX => Ok(Pooler(kernelSize, kernelSize, stride, stride, pad, pad, PoolMax))
    case AVE => Ok(Pooler(kernelSize, kernelSize, stride, stride, pad, pad, PoolAvg))
    case STOCHASTIC => Err(UnboundLocal)
  }
}
