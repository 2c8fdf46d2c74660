/**
 * The dropout unit of net.py (class DropoutUnit). The random keep mask
 * that owl.randb draws on each forward call is taken as an argument.
 */
module DropoutUnits {
  import opened Wrappers
  import opened Caffe
  import opened Elementwise

  /** The mask and the scale applied elementwise. */
  function Masked(x: seq<real>, mask: seq<real>, scale: real): (r: seq<real>)
    requires |mask| == |x|
    ensures |r| == |x|
  {
    Scale(Mul(x, mask), scale)
  }

  /** Each element is kept or dropped by its mask entry and rescaled. */
  lemma MaskedAt(x: seq<real>, mask: seq<real>, scale: real, i: nat)
    requires |mask| == |x| && i < |x|
    ensures Masked(x, mask, scale)[i] == x[i] * mask[i] * scale
  {
    assert Mul(x, mask)[i] == x[i] * mask[i];
  }

  /** What forward returns: masked and rescaled while training, unchanged otherwise. */
  function DropoutFf(x: seq<real>, mask: seq<real>, scale: real, phase: Phase): (r: seq<real>)
    requires |mask| == |x|
    ensures phase == TRAIN ==> r == Masked(x, mask, scale)
    ensures phase != TRAIN ==> r == x
  {
    if phase == TRAIN then Masked(x, mask, scale) else x
  }

  /** What backward returns: the gradient masked and rescaled, whatever the phase. */
  function DropoutBp(y: seq<real>, mask: seq<real>, scale: real): (r: seq<real>)
    requires |mask| == |y|
    ensures r == Masked(y, mask, scale)
  {
    Masked(y, mask, scale)
  }

  /**
   * In the training phase backward is the adjoint of forward for the same
   * mask: <ff(x), y> == <x, bp(y)> for all x and y.
   */
  lemma DropoutAdjoint(x: seq<real>, y: seq<real>, mask: seq<real>, scale: real)
    requires |x| == |y| == |mask|
    ensures Dot(DropoutFf(x, mask, scale, TRAIN), y) == Dot(x, DropoutBp(y, mask, scale))
  {
    TermsAgree(x, y, mask, scale);
    DotPointwise(Masked(x, mask, scale), y, x, Masked(y, mask, scale));
  }

  lemma TermsAgree(x: seq<real>, y: seq<real>, mask: seq<real>, scale: real)
    requires |x| == |y| == |mask|
    ensures Termwise(Masked(x, mask, scale), y, x, Masked(y, mask, scale))
  {
    var f, b := Masked(x, mask, scale), Masked(y, mask, scale);
    forall i | 0 <= i < |x| ensures f[i] * y[i] == x[i] * b[i] {
      MaskedAt(x, mask, scale, i);
      MaskedAt(y, mask, scale, i);
      Rearrange(x[i], y[i], mask[i], scale, f[i], b[i]);
    }
  }

  /** The one-element step of the adjoint argument. */
  lemma Rearrange(x: real, y: real, m: real, s: real, f: real, b: real)
    requires f == x * m * s && b == y * m * s
    ensures f * y == x * b
  {
    calc {
      f * y;
      x * m * s * y;
      x * (y * m * s);
      x * b;
    }
  }

  class DropoutUnit {
    const scale: real
    const keepRatio: real
    /** The mask of the last forward call. */
    var dropmask: Option<seq<real>>

    /** DropoutUnit.__init__; a ratio of 1 would divide by zero. */
    constructor (dropoutRatio: real)
      requires dropoutRatio != 1.0
      ensures scale == 1.0 / (1.0 - dropoutRatio) && keepRatio == 1.0 - dropoutRatio
      ensures dropmask == None
    {
      scale := 1.0 / (1.0 - dropoutRatio);
      keepRatio := 1.0 - dropoutRatio;
      dropmask := None;
    }

    /**
     * DropoutUnit.ff: a fresh mask of x's shape is stored on every call,
     * in either phase; only the training phase applies it.
     */
    method Ff(x: seq<real>, phase: Phase, mask: seq<real>) returns (r: seq<real>)
      requires |mask| == |x|
      modifies this
      ensures dropmask == Some(mask)
      ensures r == DropoutFf(x, mask, scale, phase)
    {
      dropmask := Some(mask);
      if phase == TRAIN {
        r := Scale(Mul(x, mask), scale);
        assert r == Masked(x, mask, scale);
      } else {
        r := x;
      }
    }

    /**
     * DropoutUnit.bp: the last stored mask and the scale, applied in every
     * phase; AttributeError before any forward.
     */
    method Bp(y: seq<real>) returns (r: Result<seq<real>>)
      ensures dropmask.None? ==> r == Err(AttributeError)
      ensures dropmask.Some? && |dropmask.value| != |y| ==> r == Err(ShapeMismatch)
      ensures dropmask.Some? && |dropmask.value| == |y| ==> r == Ok(DropoutBp(y, dropmask.value, scale))
    {
      if dropmask.None? {
        return Err(AttributeError);
      }
      if |dropmask.value| != |y| {
        return Err(ShapeMismatch);
      }
      r := Ok(Scale(Mul(y, dropmask.value), scale));
    }
  }
}
