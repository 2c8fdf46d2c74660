/**
 * The learnable units' state and update rule (net.py, class
 * WeightedComputeUnit): momentum SGD with weight decay, applied to the
 * weight and then to the bias. Tensors are their element sequences; the
 * arithmetic is elementwise over reals.
 */
module WeightedUnits {
  import opened Wrappers
  import opened Elementwise

  /** The hyper-parameters one update call receives. */
  datatype Hyper = Hyper(baseLr: real, baseWeightDecay: real, momentum: real, batchSize: real)

  /** One learnable blob: its value, momentum accumulator and gradient, each possibly unset. */
  datatype Blob = Blob(param: Option<seq<real>>, delta: Option<seq<real>>, grad: Option<seq<real>>)

  /** The new momentum accumulator: momentum*delta - lrRate*grad - decayRate*param, elementwise. */
  function Descend(delta: seq<real>, grad: seq<real>, param: seq<real>, momentum: real, lrRate: real, decayRate: real): (r: seq<real>)
    requires |grad| == |delta| && |param| == |delta|
    ensures |r| == |delta|
  {
    seq(|delta|, i requires 0 <= i < |delta| => momentum * delta[i] - lrRate * grad[i] - decayRate * param[i])
  }

  /**
   * The arithmetic of one blob's update with multipliers index k, failing
   * where Python evaluation would: a missing multiplier, a zero batch
   * size, an unset gradient or value, or operands of different sizes.
   * It yields the new accumulator and the new value.
   */
  function Step(param: Option<seq<real>>, delta: seq<real>, grad: Option<seq<real>>,
                blobsLr: seq<real>, weightDecay: seq<real>, k: nat, h: Hyper): Result<(seq<real>, seq<real>)>
  {
    if k >= |blobsLr| then Err(IndexError)
    else if h.batchSize == 0.0 then Err(ZeroDivision)
    else if grad.None? then Err(TypeError)
    else if |grad.value| != |delta| then Err(ShapeMismatch)
    else if k >= |weightDecay| then Err(IndexError)
    else if param.None? then Err(TypeError)
    else if |param.value| != |delta| then Err(ShapeMismatch)
    else
      var d := Descend(delta, grad.value, param.value, h.momentum,
                       h.baseLr * blobsLr[k] / h.batchSize,
                       h.baseLr * blobsLr[k] * h.baseWeightDecay * weightDecay[k]);
      Ok((d, Add(param.value, d)))
  }

  /**
   * One blob's whole update: an unset accumulator first becomes zeros of
   * the gradient's size (AttributeError without a gradient), then the step
   * is applied and the gradient cleared. On a failure of the step the
   * accumulator keeps its zero initialisation and nothing else changes.
   */
  function UpdateBlob(b: Blob, blobsLr: seq<real>, weightDecay: seq<real>, k: nat, h: Hyper): (Blob, Result<()>)
  {
    if b.delta.None? && b.grad.None? then (b, Err(AttributeError))
    else
      var delta := if b.delta.Some? then b.delta.value else Zeros(|b.grad.value|);
      match Step(b.param, delta, b.grad, blobsLr, weightDecay, k, h)
      case Err(e) => (b.(delta := Some(delta)), Err(e))
      case Ok(r) => (Blob(Some(r.1), Some(r.0), None), Ok(()))
  }

  /**
   * A successful update sets value and accumulator, clears the gradient,
   * and obeys the rule elementwise: delta' = momentum*delta -
   * (lr*blobsLr[k]/batch)*grad - (lr*blobsLr[k]*wd*weightDecay[k])*param and
   * param' = param + delta', with delta taken as 0 when it was unset.
   */
  lemma UpdateRule(b: Blob, blobsLr: seq<real>, weightDecay: seq<real>, k: nat, h: Hyper)
    requires UpdateBlob(b, blobsLr, weightDecay, k, h).1.Ok?
    ensures var b' := UpdateBlob(b, blobsLr, weightDecay, k, h).0;
      && b.param.Some? && b.grad.Some? && k < |blobsLr| && k < |weightDecay| && h.batchSize != 0.0
      && b'.param.Some? && b'.delta.Some? && b'.grad == None
      && |b'.param.value| == |b.param.value| == |b.grad.value| == |b'.delta.value|
      && (b.delta.Some? ==> |b.delta.value| == |b.param.value|)
      && forall i :: 0 <= i < |b.param.value| ==>
           var delta := if b.delta.Some? then b.delta.value[i] else 0.0;
           && b'.delta.value[i] == h.momentum * delta
                                  - (h.baseLr * blobsLr[k] / h.batchSize) * b.grad.value[i]
                                  - (h.baseLr * blobsLr[k] * h.baseWeightDecay * weightDecay[k]) * b.param.value[i]
           && b'.param.value[i] == b.param.value[i] + b'.delta.value[i]
  {
  }

  /**
   * Gradients live only between backward and update: right after a
   * successful update a second one, without a new gradient, fails with a
   * TypeError and leaves the blob as it was.
   */
  lemma UpdateConsumesGradient(b: Blob, blobsLr: seq<real>, weightDecay: seq<real>, k: nat, h: Hyper)
    requires UpdateBlob(b, blobsLr, weightDecay, k, h).1.Ok?
    ensures var b' := UpdateBlob(b, blobsLr, weightDecay, k, h).0;
      UpdateBlob(b', blobsLr, weightDecay, k, h) == (b', Err(TypeError))
  {
  }

  /**
   * A worked momentum example: weight 1.0, gradient 0.5,
   * learning rate 0.1, multipliers 1, batch 1, no decay, momentum 0.9. The
   * first update moves the weight to 0.95 (delta -0.05), a second one with
   * the same gradient to 0.855 (delta -0.095).
   */
  lemma MomentumExample()
    ensures var h := Hyper(0.1, 0.0, 0.9, 1.0);
      && UpdateBlob(Blob(Some([1.0]), None, Some([0.5])), [1.0, 1.0], [1.0, 0.0], 0, h) == (Blob(Some([0.95]), Some([-0.05]), None), Ok(()))
      && UpdateBlob(Blob(Some([0.95]), Some([-0.05]), Some([0.5])), [1.0, 1.0], [1.0, 0.0], 0, h) == (Blob(Some([0.855]), Some([-0.095]), None), Ok(()))
  {
    var h := Hyper(0.1, 0.0, 0.9, 1.0);
    assert Zeros(1) == [0.0];
    assert Descend([0.0], [0.5], [1.0], 0.9, 0.1, 0.0) == [-0.05];
    assert Add([1.0], [-0.05]) == [0.95];
    assert Descend([-0.05], [0.5], [0.95], 0.9, 0.1, 0.0) == [-0.095];
    assert Add([0.95], [-0.095]) == [0.855];
  }

  /** The learning-rate multipliers a unit uses: [1, 1] when none are configured. */
  function DefaultBlobsLr(configured: seq<real>): (r: seq<real>)
    ensures |configured| == 0 ==> r == [1.0, 1.0]
    ensures |configured| > 0 ==> r == configured
  {
    if |configured| == 0 then [1.0, 1.0] else configured
  }

  /** The weight-decay multipliers a unit uses: [1, 0] when none are configured. */
  function DefaultWeightDecay(configured: seq<real>): (r: seq<real>)
    ensures |configured| == 0 ==> r == [1.0, 0.0]
    ensures |configured| > 0 ==> r == configured
  {
    if |configured| == 0 then [1.0, 0.0] else configured
  }

  class WeightedUnit {
    var weight: Option<seq<real>>
    var weightDelta: Option<seq<real>>
    var weightGrad: Option<seq<real>>
    var bias: Option<seq<real>>
    var biasDelta: Option<seq<real>>
    var biasGrad: Option<seq<real>>
    var blobsLr: seq<real>
    var weightDecay: seq<real>

    /** WeightedComputeUnit.__init__: nothing set yet, multipliers defaulted. */
    constructor (configuredLr: seq<real>, configuredDecay: seq<real>)
      ensures weight == None && weightDelta == None && weightGrad == None
      ensures bias == None && biasDelta == None && biasGrad == None
      ensures blobsLr == DefaultBlobsLr(configuredLr) && weightDecay == DefaultWeightDecay(configuredDecay)
    {
      weight, weightDelta, weightGrad := None, None, None;
      bias, biasDelta, biasGrad := None, None, None;
      blobsLr := DefaultBlobsLr(configuredLr);
      weightDecay := DefaultWeightDecay(configuredDecay);
    }

    function WeightBlob(): Blob
      reads this
    {
      Blob(weight, weightDelta, weightGrad)
    }

    function BiasBlob(): Blob
      reads this
    {
      Blob(bias, biasDelta, biasGrad)
    }

    /**
     * WeightedComputeUnit.weight_update: the weight blob with multipliers
     * index 0, then the bias blob with index 1. A failure on the weight
     * leaves the bias untouched.
     */
    method WeightUpdate(h: Hyper) returns (r: Result<()>)
      modifies this
      ensures WeightBlob() == UpdateBlob(old(WeightBlob()), blobsLr, weightDecay, 0, h).0
      ensures UpdateBlob(old(WeightBlob()), blobsLr, weightDecay, 0, h).1.Err? ==>
                r == UpdateBlob(old(WeightBlob()), blobsLr, weightDecay, 0, h).1 && BiasBlob() == old(BiasBlob())
      ensures UpdateBlob(old(WeightBlob()), blobsLr, weightDecay, 0, h).1.Ok? ==>
                (BiasBlob(), r) == UpdateBlob(old(BiasBlob()), blobsLr, weightDecay, 1, h)
      ensures blobsLr == old(blobsLr) && weightDecay == old(weightDecay)
    {
      var (w, r0) := UpdateBlob(WeightBlob(), blobsLr, weightDecay, 0, h);
      weight, weightDelta, weightGrad := w.param, w.delta, w.grad;
      if r0.Err? {
        return r0;
      }
      var (b, r1) := UpdateBlob(BiasBlob(), blobsLr, weightDecay, 1, h);
      bias, biasDelta, biasGrad := b.param, b.delta, b.grad;
      r := r1;
    }
  }
}
