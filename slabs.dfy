/**
 * Tensors seen along the one axis a unit slices and concatenates them on:
 * a shape, and the sequence of slabs (the sub-tensors at each index of that
 * axis). The native concat and slice kernels become sequence concatenation
 * and sub-sequences.
 */
module Slabs {
  import opened Wrappers

  datatype Slabbed<S> = Slabbed(shape: seq<nat>, slabs: seq<S>)

  /** The slabs of t run along axis d: the axis exists and its extent is the slab count. */
  predicate Along<S>(t: Slabbed<S>, d: nat)
  {
    d < |t.shape| && |t.slabs| == t.shape[d]
  }

  /** a and b agree on every axis but d. */
  predicate SameExcept(a: seq<nat>, b: seq<nat>, d: nat)
  {
    |a| == |b| && forall k :: 0 <= k < |a| && k != d ==> a[k] == b[k]
  }

  function Sum(counts: seq<nat>): nat
  {
    if |counts| == 0 then 0 else Sum(counts[..|counts| - 1]) + counts[|counts| - 1]
  }

  /** Where piece i starts when pieces of the given lengths are laid end to end. */
  function Offset(counts: seq<nat>, i: nat): nat
    requires i <= |counts|
  {
    Sum(counts[..i])
  }

  lemma OffsetStep(counts: seq<nat>, i: nat)
    requires i < |counts|
    ensures Offset(counts, i + 1) == Offset(counts, i) + counts[i]
  {
    assert counts[..i + 1][..i] == counts[..i];
  }

  lemma {:induction false} OffsetMonotone(counts: seq<nat>, i: nat, j: nat)
    requires i <= j <= |counts|
    ensures Offset(counts, i) <= Offset(counts, j)
    decreases j - i
  {
    if i < j {
      OffsetStep(counts, j - 1);
      OffsetMonotone(counts, i, j - 1);
    }
  }

  /**
   * Pieces laid end to end are contiguous and do not overlap: piece i ends
   * where piece i + 1 starts, and ends no later than any later piece starts.
   */
  lemma PiecesContiguous(counts: seq<nat>, i: nat, j: nat)
    requires i < j <= |counts|
    ensures Offset(counts, i + 1) == Offset(counts, i) + counts[i]
    ensures Offset(counts, i) + counts[i] <= Offset(counts, j)
  {
    OffsetStep(counts, i);
    OffsetMonotone(counts, i + 1, j);
  }

  /** The extents of the tensors along axis d. */
  function Extents<S>(ts: seq<Slabbed<S>>): (r: seq<nat>)
    ensures |r| == |ts| && forall i :: 0 <= i < |ts| ==> r[i] == |ts[i].slabs|
  {
    seq(|ts|, i requires 0 <= i < |ts| => |ts[i].slabs|)
  }

  /** The slabs of all tensors, in order. */
  function Flatten<S>(ts: seq<Slabbed<S>>): (r: seq<S>)
  {
    if |ts| == 0 then [] else Flatten(ts[..|ts| - 1]) + ts[|ts| - 1].slabs
  }

  lemma {:induction false} FlattenLength<S>(ts: seq<Slabbed<S>>)
    ensures |Flatten(ts)| == Sum(Extents(ts))
  {
    if |ts| > 0 {
      FlattenLength(ts[..|ts| - 1]);
      assert Extents(ts)[..|ts| - 1] == Extents(ts[..|ts| - 1]);
    }
  }

  /** Tensor i's slabs sit in the flattened sequence at its offset. */
  lemma {:induction false} FlattenPiece<S>(ts: seq<Slabbed<S>>, i: nat)
    requires i < |ts|
    ensures Offset(Extents(ts), i) + |ts[i].slabs| <= |Flatten(ts)|
    ensures Flatten(ts)[Offset(Extents(ts), i)..Offset(Extents(ts), i) + |ts[i].slabs|] == ts[i].slabs
  {
    var init := ts[..|ts| - 1];
    assert Extents(ts)[..|ts| - 1] == Extents(init);
    FlattenLength(init);
    if i == |ts| - 1 {
      assert Extents(ts)[..i] == Extents(init);
    } else {
      FlattenPiece(init, i);
      assert Extents(ts)[..i] == Extents(init)[..i];
      assert init[i] == ts[i];
    }
  }

  /**
   * owl.concat on axis d: every part runs along d and agrees with the first
   * on every other axis; the result's extent on d is the sum of theirs.
   */
  function Concat<S>(ts: seq<Slabbed<S>>, d: nat): (r: Result<Slabbed<S>>)
    requires |ts| > 0
    ensures r.Ok? <==> forall i :: 0 <= i < |ts| ==> Along(ts[i], d) && SameExcept(ts[i].shape, ts[0].shape, d)
    ensures r.Err? ==> r.error == ShapeMismatch
    ensures r.Ok? ==> Along(r.value, d) && SameExcept(r.value.shape, ts[0].shape, d)
  {
    if forall i :: 0 <= i < |ts| ==> Along(ts[i], d) && SameExcept(ts[i].shape, ts[0].shape, d) then
      FlattenLength(ts);
      Ok(Slabbed(ts[0].shape[d := Sum(Extents(ts))], Flatten(ts)))
    else
      Err(ShapeMismatch)
  }

  /**
   * owl.slice on axis d: `count` slabs from `offset`; IndexError when the
   * axis is missing or the range passes its extent. A value whose slabs do
   * not run along d is refused the same way.
   */
  function Slice<S>(t: Slabbed<S>, d: nat, offset: nat, count: nat): (r: Result<Slabbed<S>>)
    ensures r.Ok? <==> Along(t, d) && offset + count <= t.shape[d]
    ensures r.Err? ==> r.error == IndexError
    ensures r.Ok? ==> Along(r.value, d) && SameExcept(r.value.shape, t.shape, d) && r.value.shape[d] == count
  {
    if Along(t, d) && offset + count <= t.shape[d] then
      Ok(Slabbed(t.shape[d := count], t.slabs[offset..offset + count]))
    else
      Err(IndexError)
  }

  /**
   * Slicing the concatenation at part i's offset and extent gives part i
   * back, shape and slabs.
   */
  lemma SliceOfConcat<S>(ts: seq<Slabbed<S>>, d: nat, i: nat)
    requires i < |ts| && Concat(ts, d).Ok?
    ensures Slice(Concat(ts, d).value, d, Offset(Extents(ts), i), |ts[i].slabs|) == Ok(ts[i])
  {
    FlattenPiece(ts, i);
    assert Along(ts[i], d) && SameExcept(ts[i].shape, ts[0].shape, d);
    var top := Concat(ts, d).value;
    assert top.shape[d := |ts[i].slabs|] == ts[i].shape;
  }
}
