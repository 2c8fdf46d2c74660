/**
 * The concat unit of net.py (class ConcatUnit): forward concatenates its
 * inputs on one axis and records each input's extent; backward slices the
 * incoming gradient back into pieces of the recorded extents.
 */
module ConcatUnits {
  import opened Wrappers
  import opened Dataflow
  import opened Slabs

  /** Every name is a port of `ports`, and each of those values has an axis d. */
  predicate Gatherable<S>(ports: map<Port, Slabbed<S>>, names: seq<Port>, d: int)
  {
    forall i :: 0 <= i < |names| ==> names[i] in ports && 0 <= d < |ports[names[i]].shape|
  }

  /** The values of the named ports, in order. */
  function Inputs<S>(ports: map<Port, Slabbed<S>>, names: seq<Port>): (r: seq<Slabbed<S>>)
    requires forall i :: 0 <= i < |names| ==> names[i] in ports
    ensures |r| == |names| && forall i :: 0 <= i < |names| ==> r[i] == ports[names[i]]
  {
    seq(|names|, i requires 0 <= i < |names| => ports[names[i]])
  }

  /** The extent of each tensor on axis d, read from its shape. */
  function AxisExtents<S>(ts: seq<Slabbed<S>>, d: nat): (r: seq<nat>)
    requires forall i :: 0 <= i < |ts| ==> d < |ts[i].shape|
    ensures |r| == |ts| && forall i :: 0 <= i < |ts| ==> r[i] == ts[i].shape[d]
  {
    seq(|ts|, i requires 0 <= i < |ts| => ts[i].shape[d])
  }

  /**
   * The gradient pieces backward hands out: for the i-th input name, the
   * slice of `top` on axis d at offset counts[0] + ... + counts[i-1] of
   * extent counts[i], assigned to that name in turn; IndexError when
   * `counts` has no entry i or the slice runs past the end.
   */
  function SliceBack<S>(top: Slabbed<S>, d: nat, counts: seq<nat>, names: seq<Port>): Result<map<Port, Slabbed<S>>>
  {
    if |names| == 0 then Ok(map[])
    else
      var i := |names| - 1;
      match SliceBack(top, d, counts, names[..i])
      case Err(e) => Err(e)
      case Ok(m) =>
        if i >= |counts| then Err(IndexError)
        else match Slice(top, d, Offset(counts, i), counts[i])
          case Err(e) => Err(e)
          case Ok(piece) => Ok(m[names[i] := piece])
  }

  /**
   * Backward undoes forward: when the recorded extents begin with the
   * extents of the concatenated inputs and the input names are distinct,
   * every name gets back exactly the tensor it supplied.
   */
  lemma {:induction false} SliceBackOfConcat<S>(ts: seq<Slabbed<S>>, d: nat, top: Slabbed<S>, counts: seq<nat>, names: seq<Port>)
    returns (m: map<Port, Slabbed<S>>)
    requires |ts| > 0 && Concat(ts, d) == Ok(top) && |names| <= |ts| && |names| <= |counts|
    requires forall i :: 0 <= i < |names| ==> counts[i] == |ts[i].slabs|
    requires forall i, j :: 0 <= i < j < |names| ==> names[i] != names[j]
    ensures SliceBack(top, d, counts, names) == Ok(m)
    ensures AssignsInOrder(m, names, ts)
  {
    if |names| == 0 {
      m := map[];
    } else {
      var i := |names| - 1;
      var init := names[..i];
      var m0 := SliceBackOfConcat(ts, d, top, counts, init);
      PieceAtOffset(ts, d, top, counts, i);
      SliceBackSnoc(top, d, counts, names, m0, ts[i]);
      m := m0[names[i] := ts[i]];
      AssignedSnoc(m0, names, ts);
    }
  }

  /** Each name is assigned the tensor at its position. */
  ghost predicate AssignsInOrder<S>(m: map<Port, Slabbed<S>>, names: seq<Port>, ts: seq<Slabbed<S>>)
    requires |names| <= |ts|
  {
    forall i :: 0 <= i < |names| ==> names[i] in m && m[names[i]] == ts[i]
  }

  lemma AssignedSnoc<S>(m0: map<Port, Slabbed<S>>, names: seq<Port>, ts: seq<Slabbed<S>>)
    requires 0 < |names| <= |ts|
    requires forall i, j :: 0 <= i < j < |names| ==> names[i] != names[j]
    requires AssignsInOrder(m0, names[..|names| - 1], ts)
    ensures AssignsInOrder(m0[names[|names| - 1] := ts[|names| - 1]], names, ts)
  {
    var i := |names| - 1;
    var m := m0[names[i] := ts[i]];
    forall j | 0 <= j < |names| ensures names[j] in m && m[names[j]] == ts[j] {
      if j < i {
        assert names[..i][j] == names[j] && names[j] != names[i];
      }
    }
  }

  /** The i-th input lies in `top` at the offset the recorded extents give it. */
  lemma PieceAtOffset<S>(ts: seq<Slabbed<S>>, d: nat, top: Slabbed<S>, counts: seq<nat>, i: nat)
    requires i < |ts| && Concat(ts, d) == Ok(top) && i < |counts|
    requires forall j :: 0 <= j <= i ==> counts[j] == |ts[j].slabs|
    ensures Slice(top, d, Offset(counts, i), counts[i]) == Ok(ts[i])
  {
    assert counts[..i] == Extents(ts)[..i];
    SliceOfConcat(ts, d, i);
  }

  /** One more name whose slice succeeds extends the result by that name. */
  lemma SliceBackSnoc<S>(top: Slabbed<S>, d: nat, counts: seq<nat>, names: seq<Port>, m0: map<Port, Slabbed<S>>, piece: Slabbed<S>)
    requires |names| > 0 && |names| - 1 < |counts|
    requires SliceBack(top, d, counts, names[..|names| - 1]) == Ok(m0)
    requires Slice(top, d, Offset(counts, |names| - 1), counts[|names| - 1]) == Ok(piece)
    ensures SliceBack(top, d, counts, names) == Ok(m0[names[|names| - 1] := piece])
  {
  }

  /** Backward assigns only the input names. */
  lemma {:induction false} SliceBackKeys<S>(top: Slabbed<S>, d: nat, counts: seq<nat>, names: seq<Port>)
    requires SliceBack(top, d, counts, names).Ok?
    ensures forall k :: k in SliceBack(top, d, counts, names).value ==> k in names
  {
    if |names| > 0 {
      var i := |names| - 1;
      SliceBackKeys(top, d, counts, names[..i]);
      assert forall k :: k in names[..i] ==> k in names;
    }
  }

  /** Once a prefix of the names fails, the whole of backward fails the same way. */
  lemma {:induction false} SliceBackStuck<S>(top: Slabbed<S>, d: nat, counts: seq<nat>, names: seq<Port>, i: nat)
    requires i <= |names| && SliceBack(top, d, counts, names[..i]).Err?
    ensures SliceBack(top, d, counts, names) == SliceBack(top, d, counts, names[..i])
    decreases |names| - i
  {
    if i < |names| {
      assert names[..i + 1][..i] == names[..i];
      SliceBackStuck(top, d, counts, names, i + 1);
    } else {
      assert names[..i] == names;
    }
  }

  class ConcatUnit<S> {
    const btmNames: seq<Port>
    const topNames: seq<Port>
    /** The concat dimension as the Caffe parameters number axes. */
    const concatDimCaffe: int
    /** The extent of every input of every forward call, in call order. */
    var sliceCount: seq<nat>
    /** The owl axis of the last forward call; None before the first. */
    var concatDim: Option<int>

    constructor (btmNames: seq<Port>, topNames: seq<Port>, concatDimCaffe: int)
      ensures this.btmNames == btmNames && this.topNames == topNames && this.concatDimCaffe == concatDimCaffe
      ensures sliceCount == [] && concatDim == None
    {
      this.btmNames, this.topNames, this.concatDimCaffe := btmNames, topNames, concatDimCaffe;
      sliceCount, concatDim := [], None;
    }

    /** The owl axis for an input of this shape: owl numbers axes in the reverse order. */
    function AxisFor(t: Slabbed<S>): int
    {
      |t.shape| - 1 - concatDimCaffe
    }

    /**
     * ConcatUnit.forward. The axis comes from the first input's rank; each
     * input's extent on it is appended to sliceCount (never cleared); the
     * output port gets the concatenation. A missing input port is a
     * KeyError and an input without that axis an IndexError.
     */
    method Forward(fromBtm: map<Port, Slabbed<S>>) returns (r: Result<map<Port, Slabbed<S>>>)
      modifies this
      ensures |btmNames| == 0 ==> r == Err(IndexError) && sliceCount == old(sliceCount) && concatDim == old(concatDim)
      ensures |btmNames| > 0 && btmNames[0] !in fromBtm ==>
                r == Err(KeyError) && sliceCount == old(sliceCount) && concatDim == old(concatDim)
      ensures |btmNames| > 0 && btmNames[0] in fromBtm ==> concatDim == Some(AxisFor(fromBtm[btmNames[0]]))
      ensures old(sliceCount) <= sliceCount
      ensures |btmNames| > 0 && btmNames[0] in fromBtm && !Gatherable(fromBtm, btmNames, AxisFor(fromBtm[btmNames[0]])) ==>
                r.Err? && r.error in {KeyError, IndexError}
      ensures |btmNames| > 0 && btmNames[0] in fromBtm && Gatherable(fromBtm, btmNames, AxisFor(fromBtm[btmNames[0]])) ==>
                var d := AxisFor(fromBtm[btmNames[0]]) as nat;
                var ins := Inputs(fromBtm, btmNames);
                && sliceCount == old(sliceCount) + AxisExtents(ins, d)
                && r == (if Concat(ins, d).Err? then Err(Concat(ins, d).error)
                         else if |topNames| == 0 then Err(IndexError)
                         else Ok(map[topNames[0] := Concat(ins, d).value]))
    {
      if |btmNames| == 0 {
        return Err(IndexError);
      }
      if btmNames[0] !in fromBtm {
        return Err(KeyError);
      }
      var d := |fromBtm[btmNames[0]].shape| - 1 - concatDimCaffe;
      concatDim := Some(d);
      var narrays: seq<Slabbed<S>> := [];
      var i := 0;
      while i < |btmNames|
        invariant 0 <= i <= |btmNames|
        invariant Gatherable(fromBtm, btmNames[..i], d)
        invariant narrays == Inputs(fromBtm, btmNames[..i])
        invariant i > 0 ==> 0 <= d
        invariant sliceCount == old(sliceCount) + (if i == 0 then [] else AxisExtents(narrays, d as nat))
        invariant concatDim == Some(d)
      {
        var name := btmNames[i];
        if name !in fromBtm {
          return Err(KeyError);
        }
        var t := fromBtm[name];
        if d < 0 || d >= |t.shape| {
          return Err(IndexError);
        }
        assert btmNames[..i + 1] == btmNames[..i] + [name];
        narrays := narrays + [t];
        sliceCount := sliceCount + [t.shape[d]];
        i := i + 1;
      }
      assert btmNames[..i] == btmNames;
      var top := Concat(narrays, d as nat);
      if top.Err? {
        return Err(top.error);
      }
      if |topNames| == 0 {
        return Err(IndexError);
      }
      r := Ok(map[topNames[0] := top.value]);
    }

    /**
     * ConcatUnit.backward. Input i receives the slice of the output
     * gradient at the running offset, of extent sliceCount[i]. Reading the
     * axis before any forward raised AttributeError.
     */
    method Backward(fromTop: map<Port, Slabbed<S>>) returns (r: Result<map<Port, Slabbed<S>>>)
      ensures |btmNames| == 0 ==> r == Ok(map[])
      ensures |btmNames| > 0 && |topNames| == 0 ==> r == Err(IndexError)
      ensures |btmNames| > 0 && |topNames| > 0 && topNames[0] !in fromTop ==> r == Err(KeyError)
      ensures |btmNames| > 0 && |topNames| > 0 && topNames[0] in fromTop && concatDim == None ==> r == Err(AttributeError)
      ensures |btmNames| > 0 && |topNames| > 0 && topNames[0] in fromTop && concatDim.Some? ==>
                r == (if concatDim.value < 0 then Err(IndexError)
                      else SliceBack(fromTop[topNames[0]], concatDim.value as nat, sliceCount, btmNames))
    {
      if |btmNames| == 0 {
        return Ok(map[]);
      }
      if |topNames| == 0 {
        return Err(IndexError);
      }
      if topNames[0] !in fromTop {
        return Err(KeyError);
      }
      if concatDim.None? {
        return Err(AttributeError);
      }
      var d := concatDim.value;
      if d < 0 {
        return Err(IndexError);
      }
      var top := fromTop[topNames[0]];
      var toBtm: map<Port, Slabbed<S>> := map[];
      var stOff := 0;
      var i := 0;
      while i < |btmNames|
        invariant 0 <= i <= |btmNames|
        invariant SliceBack(top, d, sliceCount, btmNames[..i]) == Ok(toBtm)
        invariant i <= |sliceCount| && stOff == Offset(sliceCount, i)
      {
        assert btmNames[..i + 1][..i] == btmNames[..i];
        if i >= |sliceCount| {
          SliceBackStuck(top, d, sliceCount, btmNames, i + 1);
          return Err(IndexError);
        }
        var piece := Slice(top, d, stOff, sliceCount[i]);
        if piece.Err? {
          SliceBackStuck(top, d, sliceCount, btmNames, i + 1);
          return Err(piece.error);
        }
        toBtm := toBtm[btmNames[i] := piece.value];
        OffsetStep(sliceCount, i);
        stOff := stOff + sliceCount[i];
        i := i + 1;
      }
      assert btmNames[..i] == btmNames;
      r := Ok(toBtm);
    }
  }
}
