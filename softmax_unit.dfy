/**
 * The softmax loss unit of net.py (class SoftmaxUnit): forward stores the
 * softmax of its first input and the labels of its second; backward
 * returns their difference, scaled by the loss weight only when exactly
 * one loss weight is configured.
 */
module SoftmaxUnits {
  import opened Wrappers
  import opened Dataflow
  import opened Elementwise

  /** The factor backward applies: the loss weight when there is exactly one, else 1. */
  function LossScale(lossWeight: seq<real>): (c: real)
    ensures |lossWeight| == 1 ==> c == lossWeight[0]
    ensures |lossWeight| != 1 ==> c == 1.0
  {
    if |lossWeight| == 1 then lossWeight[0] else 1.0
  }

  /** The gradient backward sends to the first input: (ffY - y), times the single loss weight if any. */
  function SoftmaxGrad(ffY: seq<real>, y: seq<real>, lossWeight: seq<real>): (r: seq<real>)
    requires |ffY| == |y|
    ensures |r| == |ffY|
    ensures |lossWeight| == 1 ==> forall i :: 0 <= i < |r| ==> r[i] == (ffY[i] - y[i]) * lossWeight[0]
    ensures |lossWeight| != 1 ==> r == Sub(ffY, y)
  {
    if |lossWeight| == 1 then Scale(Sub(ffY, y), lossWeight[0]) else Sub(ffY, y)
  }

  /**
   * Only a single loss weight has effect: a weight of 1 is the same as
   * none, and two or more weights are ignored altogether.
   */
  lemma LossWeightRule(ffY: seq<real>, y: seq<real>, lossWeight: seq<real>)
    requires |ffY| == |y|
    ensures SoftmaxGrad(ffY, y, [1.0]) == SoftmaxGrad(ffY, y, [])
    ensures |lossWeight| >= 2 ==> SoftmaxGrad(ffY, y, lossWeight) == SoftmaxGrad(ffY, y, [])
    ensures forall i :: 0 <= i < |ffY| ==> SoftmaxGrad(ffY, y, lossWeight)[i] == (ffY[i] - y[i]) * LossScale(lossWeight)
  {
    assert Scale(Sub(ffY, y), 1.0) == Sub(ffY, y);
  }

  class SoftmaxUnit {
    const btmNames: seq<Port>
    const topNames: seq<Port>
    const lossWeight: seq<real>
    /** The output of the last forward call. */
    var ffY: Option<seq<real>>
    /** The labels of the last forward call. */
    var y: Option<seq<real>>

    constructor (btmNames: seq<Port>, topNames: seq<Port>, lossWeight: seq<real>)
      ensures this.btmNames == btmNames && this.topNames == topNames && this.lossWeight == lossWeight
      ensures ffY == None && y == None
    {
      this.btmNames, this.topNames, this.lossWeight := btmNames, topNames, lossWeight;
      ffY, y := None, None;
    }

    /**
     * SoftmaxUnit.forward, with `softmax` standing for the native kernel:
     * the output port gets the softmax of the first input, which is also
     * kept; then the second input is kept as the labels.
     */
    method Forward(fromBtm: map<Port, seq<real>>, softmax: seq<real> -> seq<real>) returns (r: Result<map<Port, seq<real>>>)
      modifies this
      ensures |btmNames| == 0 ==> r == Err(IndexError) && ffY == old(ffY) && y == old(y)
      ensures |btmNames| > 0 && btmNames[0] !in fromBtm ==> r == Err(KeyError) && ffY == old(ffY) && y == old(y)
      ensures |btmNames| > 0 && btmNames[0] in fromBtm && |topNames| == 0 ==> r == Err(IndexError) && ffY == old(ffY) && y == old(y)
      ensures |btmNames| > 0 && btmNames[0] in fromBtm && |topNames| > 0 ==>
                var out := softmax(fromBtm[btmNames[0]]);
                && ffY == Some(out)
                && (|btmNames| < 2 ==> r == Err(IndexError) && y == old(y))
                && (|btmNames| >= 2 && btmNames[1] !in fromBtm ==> r == Err(KeyError) && y == old(y))
                && (|btmNames| >= 2 && btmNames[1] in fromBtm ==> r == Ok(map[topNames[0] := out]) && y == Some(fromBtm[btmNames[1]]))
    {
      if |btmNames| == 0 {
        return Err(IndexError);
      }
      if btmNames[0] !in fromBtm {
        return Err(KeyError);
      }
      var out := softmax(fromBtm[btmNames[0]]);
      if |topNames| == 0 {
        return Err(IndexError);
      }
      var toTop := map[topNames[0] := out];
      ffY := Some(toTop[topNames[0]]);
      if |btmNames| < 2 {
        return Err(IndexError);
      }
      if btmNames[1] !in fromBtm {
        return Err(KeyError);
      }
      y := Some(fromBtm[btmNames[1]]);
      r := Ok(toTop);
    }

    /**
     * SoftmaxUnit.backward: the incoming gradient map is ignored; the
     * first input port gets SoftmaxGrad of the kept output and labels.
     */
    method Backward(fromTop: map<Port, seq<real>>) returns (r: Result<map<Port, seq<real>>>)
      ensures ffY.None? || y.None? ==> r == Err(AttributeError)
      ensures ffY.Some? && y.Some? && |ffY.value| != |y.value| ==> r == Err(ShapeMismatch)
      ensures ffY.Some? && y.Some? && |ffY.value| == |y.value| ==>
                r == (if |btmNames| == 0 then Err(IndexError)
                      else Ok(map[btmNames[0] := SoftmaxGrad(ffY.value, y.value, lossWeight)]))
    {
      if ffY.None? || y.None? {
        return Err(AttributeError);
      }
      if |ffY.value| != |y.value| {
        return Err(ShapeMismatch);
      }
      var g: seq<real>;
      if |lossWeight| == 1 {
        g := Scale(Sub(ffY.value, y.value), lossWeight[0]);
      } else {
        g := Sub(ffY.value, y.value);
      }
      if |btmNames| == 0 {
        return Err(IndexError);
      }
      r := Ok(map[btmNames[0] := g]);
    }
  }
}
