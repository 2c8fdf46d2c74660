/**
 * The convolution unit of net.py (class ConvConnection). With one group it
 * hands input, filters and bias to the native convolver. With several it
 * cuts the input along axis 2, the filters along axis 3 and the bias along
 * axis 0 into `group` equal pieces, convolves piece by piece, and
 * concatenates the results in group order; the pieces forward cut are
 * kept for backward, which releases them.
 */
module ConvUnits {
  import opened Wrappers
  import opened Slabs
  import Conv

  const DATA_AXIS: nat := 2
  const FILTER_AXIS: nat := 3
  const BIAS_AXIS: nat := 0

  /** The native convolver's four kernels, for one set of convolution parameters. */
  datatype Kernels<!S> = Kernels(
    ff: (Slabbed<S>, Slabbed<S>, Slabbed<S>) -> Slabbed<S>,          // input, filters, bias
    bp: (Slabbed<S>, Slabbed<S>, Slabbed<S>) -> Slabbed<S>,          // gradient, input, filters
    weightGrad: (Slabbed<S>, Slabbed<S>, Slabbed<S>) -> Slabbed<S>,  // gradient, input, filters
    biasGrad: Slabbed<S> -> Slabbed<S>)                              // gradient

  /** ps are the first |ps| consecutive pieces of `count` slabs of t along d. */
  ghost predicate IsPieces<S>(ps: seq<Slabbed<S>>, t: Slabbed<S>, d: nat, count: nat)
  {
    forall i :: 0 <= i < |ps| ==> Slice(t, d, count * i, count) == Ok(ps[i])
  }

  lemma MulStep(count: nat, n: nat)
    requires n > 0
    ensures count * (n - 1) + count == count * n
  {
  }

  lemma MulMono(count: nat, i: nat, n: nat)
    requires i < n
    ensures count * i + count <= count * n
  {
    assert count * i + count == count * (i + 1);
    assert count * (i + 1) <= count * n;
  }

  lemma DivExact(x: nat, g: nat)
    requires g > 0 && x % g == 0
    ensures (x / g) * g == x
  {
  }

  /**
   * The first n pieces of `count` slabs of t along d; IndexError when the
   * axis is missing or a piece runs past the end.
   */
  function Pieces<S>(t: Slabbed<S>, d: nat, count: nat, n: nat): (r: Result<seq<Slabbed<S>>>)
    ensures r.Ok? ==> |r.value| == n
    ensures r.Err? ==> r.error == IndexError
  {
    if n == 0 then Ok([])
    else
      match Pieces(t, d, count, n - 1)
      case Err(e) => Err(e)
      case Ok(ps) =>
        match Slice(t, d, count * (n - 1), count)
        case Err(e) => Err(e)
        case Ok(p) => Ok(ps + [p])
  }

  /** Piece i of what Pieces returns is the slice at count * i. */
  lemma {:induction false} PiecesArePieces<S>(t: Slabbed<S>, d: nat, count: nat, n: nat)
    requires Pieces(t, d, count, n).Ok?
    ensures IsPieces(Pieces(t, d, count, n).value, t, d, count)
  {
    if n > 0 {
      PiecesArePieces(t, d, count, n - 1);
      var ps := Pieces(t, d, count, n - 1).value;
      var all := Pieces(t, d, count, n).value;
      assert all == ps + [Slice(t, d, count * (n - 1), count).value];
      forall i | 0 <= i < |all|
        ensures Slice(t, d, count * i, count) == Ok(all[i])
      {
        if i < n - 1 {
          assert all[i] == ps[i];
        }
      }
    }
  }

  /** Cutting succeeds exactly when the slabs run along the axis and n pieces fit in its extent. */
  lemma {:induction false} PiecesFit<S>(t: Slabbed<S>, d: nat, count: nat, n: nat)
    requires n > 0
    ensures Pieces(t, d, count, n).Ok? <==> Along(t, d) && count * n <= t.shape[d]
  {
    MulStep(count, n);
    if n > 1 {
      PiecesFit(t, d, count, n - 1);
      MulMono(count, n - 2, n - 1);
    }
  }

  lemma {:induction false} PiecesStuck<S>(t: Slabbed<S>, d: nat, count: nat, m: nat, n: nat)
    requires m <= n && Pieces(t, d, count, m).Err?
    ensures Pieces(t, d, count, n) == Pieces(t, d, count, m)
    decreases n - m
  {
    if m < n {
      PiecesStuck(t, d, count, m, n - 1);
    }
  }

  /**
   * Concatenating consecutive pieces in order gives back the slabs they
   * cover, with the extent on d being the pieces' total.
   */
  lemma ConcatOfPieces<S>(ps: seq<Slabbed<S>>, t: Slabbed<S>, d: nat, count: nat)
    requires |ps| > 0 && IsPieces(ps, t, d, count)
    ensures d < |t.shape| && count * |ps| <= |t.slabs|
    ensures Concat(ps, d) == Ok(Slabbed(t.shape[d := count * |ps|], t.slabs[..count * |ps|]))
  {
    FlattenOfPieces(ps, t, d, count);
    assert Slice(t, d, 0, count) == Ok(ps[0]);
    PiecesAlong(ps, t, d, count);
    FlattenLength(ps);
    var top := Concat(ps, d).value;
    assert top.shape == ps[0].shape[d := count * |ps|];
    assert top.shape == t.shape[d := count * |ps|];
  }

  /** Every piece runs along d and agrees with the first off d, as Concat demands. */
  lemma PiecesAlong<S>(ps: seq<Slabbed<S>>, t: Slabbed<S>, d: nat, count: nat)
    requires |ps| > 0 && IsPieces(ps, t, d, count)
    ensures forall i :: 0 <= i < |ps| ==> Along(ps[i], d) && SameExcept(ps[i].shape, ps[0].shape, d)
  {
    assert Slice(t, d, 0, count) == Ok(ps[0]);
    forall i | 0 <= i < |ps|
      ensures Along(ps[i], d) && SameExcept(ps[i].shape, ps[0].shape, d)
    {
      assert Slice(t, d, count * i, count) == Ok(ps[i]);
    }
  }

  lemma {:induction false} FlattenOfPieces<S>(ps: seq<Slabbed<S>>, t: Slabbed<S>, d: nat, count: nat)
    requires |ps| > 0 && IsPieces(ps, t, d, count)
    ensures count * |ps| <= |t.slabs|
    ensures Flatten(ps) == t.slabs[..count * |ps|]
  {
    var n := |ps|;
    MulStep(count, n);
    var last := count * (n - 1);
    assert Slice(t, d, last, count) == Ok(ps[n - 1]);
    assert ps[n - 1].slabs == t.slabs[last..last + count];
    if n == 1 {
      assert Flatten(ps) == Flatten(ps[..0]) + ps[0].slabs;
    } else {
      var init := ps[..n - 1];
      assert IsPieces(init, t, d, count) by {
        forall i | 0 <= i < |init|
          ensures Slice(t, d, count * i, count) == Ok(init[i])
        {
          assert init[i] == ps[i];
        }
      }
      FlattenOfPieces(init, t, d, count);
      assert Flatten(ps) == t.slabs[..last] + t.slabs[last..last + count];
    }
  }

  /**
   * When `group` pieces cover the whole axis (the extent divides by the
   * group count), concatenating the group pieces gives the tensor back.
   */
  lemma GroupsReassemble<S>(t: Slabbed<S>, d: nat, group: nat)
    requires group > 0 && Along(t, d) && t.shape[d] % group == 0
    ensures Pieces(t, d, t.shape[d] / group, group).Ok?
    ensures Concat(Pieces(t, d, t.shape[d] / group, group).value, d) == Ok(t)
  {
    var count := t.shape[d] / group;
    DivExact(t.shape[d], group);
    PiecesFit(t, d, count, group);
    PiecesArePieces(t, d, count, group);
    var ps := Pieces(t, d, count, group).value;
    ConcatOfPieces(ps, t, d, count);
    WholeAxis(t, d, count * |ps|);
  }

  lemma WholeAxis<S>(t: Slabbed<S>, d: nat, m: nat)
    requires Along(t, d) && m == t.shape[d]
    ensures Slabbed(t.shape[d := m], t.slabs[..m]) == t
  {
    assert t.slabs[..m] == t.slabs;
    assert t.shape[d := m] == t.shape;
  }

  /** The pieces forward cuts and keeps, one of each per group. */
  datatype GroupCache<S> = GroupCache(data: seq<Slabbed<S>>, filter: seq<Slabbed<S>>, bias: seq<Slabbed<S>>)

  /**
   * The pieces of the first n groups, cut in the order forward cuts them
   * (input, filters, bias, group after group); the first failure wins, and
   * a missing bias fails when it is first sliced.
   */
  function Split<S>(act: Slabbed<S>, w: Slabbed<S>, b: Option<Slabbed<S>>, dataCount: nat, filterCount: nat, n: nat): (r: Result<GroupCache<S>>)
    ensures r.Ok? ==> |r.value.data| == |r.value.filter| == |r.value.bias| == n && (n > 0 ==> b.Some?)
    ensures r.Err? ==> r.error == IndexError || r.error == TypeError
  {
    if n == 0 then
      Ok(GroupCache([], [], []))
    else
      match Split(act, w, b, dataCount, filterCount, n - 1)
      case Err(e) => Err(e)
      case Ok(c) =>
        match Slice(act, DATA_AXIS, dataCount * (n - 1), dataCount)
        case Err(e) => Err(e)
        case Ok(x) =>
          match Slice(w, FILTER_AXIS, filterCount * (n - 1), filterCount)
          case Err(e) => Err(e)
          case Ok(f) =>
            if b.None? then Err(TypeError) else
            match Slice(b.value, BIAS_AXIS, filterCount * (n - 1), filterCount)
            case Err(e) => Err(e)
            case Ok(y) => Ok(GroupCache(c.data + [x], c.filter + [f], c.bias + [y]))
  }

  /** The group pieces are consecutive pieces of input, filters and bias. */
  lemma {:induction false} SplitArePieces<S>(act: Slabbed<S>, w: Slabbed<S>, b: Option<Slabbed<S>>, dataCount: nat, filterCount: nat, n: nat)
    requires Split(act, w, b, dataCount, filterCount, n).Ok? && b.Some?
    ensures var c := Split(act, w, b, dataCount, filterCount, n).value;
            && IsPieces(c.data, act, DATA_AXIS, dataCount)
            && IsPieces(c.filter, w, FILTER_AXIS, filterCount)
            && IsPieces(c.bias, b.value, BIAS_AXIS, filterCount)
  {
    if n > 0 {
      SplitArePieces(act, w, b, dataCount, filterCount, n - 1);
      var c := Split(act, w, b, dataCount, filterCount, n - 1).value;
      var all := Split(act, w, b, dataCount, filterCount, n).value;
      var x := Slice(act, DATA_AXIS, dataCount * (n - 1), dataCount);
      var f := Slice(w, FILTER_AXIS, filterCount * (n - 1), filterCount);
      var y := Slice(b.value, BIAS_AXIS, filterCount * (n - 1), filterCount);
      assert all == GroupCache(c.data + [x.value], c.filter + [f.value], c.bias + [y.value]);
      IsPiecesSnoc(c.data, act, DATA_AXIS, dataCount, x.value);
      IsPiecesSnoc(c.filter, w, FILTER_AXIS, filterCount, f.value);
      IsPiecesSnoc(c.bias, b.value, BIAS_AXIS, filterCount, y.value);
    }
  }

  lemma IsPiecesSnoc<S>(ps: seq<Slabbed<S>>, t: Slabbed<S>, d: nat, count: nat, p: Slabbed<S>)
    requires IsPieces(ps, t, d, count) && Slice(t, d, count * |ps|, count) == Ok(p)
    ensures IsPieces(ps + [p], t, d, count)
  {
    forall i | 0 <= i < |ps| + 1
      ensures Slice(t, d, count * i, count) == Ok((ps + [p])[i])
    {
      if i < |ps| {
        assert (ps + [p])[i] == ps[i];
      }
    }
  }

  /** Cutting fails exactly when a tensor's slabs do not run along its axis, the bias is missing, or the last group runs past an end. */
  lemma {:induction false} SplitFits<S>(act: Slabbed<S>, w: Slabbed<S>, b: Option<Slabbed<S>>, dataCount: nat, filterCount: nat, n: nat)
    requires n > 0
    ensures Split(act, w, b, dataCount, filterCount, n).Ok? <==>
              && Along(act, DATA_AXIS) && dataCount * n <= act.shape[DATA_AXIS]
              && Along(w, FILTER_AXIS) && filterCount * n <= w.shape[FILTER_AXIS]
              && b.Some? && Along(b.value, BIAS_AXIS) && filterCount * n <= b.value.shape[BIAS_AXIS]
  {
    MulStep(dataCount, n);
    MulStep(filterCount, n);
    if n > 1 {
      SplitFits(act, w, b, dataCount, filterCount, n - 1);
      MulMono(dataCount, n - 2, n - 1);
      MulMono(filterCount, n - 2, n - 1);
    }
  }

  /** Once cutting has failed, cutting more groups fails the same way. */
  lemma {:induction false} SplitStuck<S>(act: Slabbed<S>, w: Slabbed<S>, b: Option<Slabbed<S>>, dataCount: nat, filterCount: nat, m: nat, n: nat)
    requires m <= n && Split(act, w, b, dataCount, filterCount, m).Err?
    ensures Split(act, w, b, dataCount, filterCount, n) == Split(act, w, b, dataCount, filterCount, m)
    decreases n - m
  {
    if m < n {
      SplitStuck(act, w, b, dataCount, filterCount, m, n - 1);
    }
  }

  /** One kernel call per group, on the group's pieces. */
  function PerGroup<S>(f: (Slabbed<S>, Slabbed<S>, Slabbed<S>) -> Slabbed<S>, xs: seq<Slabbed<S>>, ys: seq<Slabbed<S>>, zs: seq<Slabbed<S>>): (r: seq<Slabbed<S>>)
    requires |ys| >= |xs| && |zs| >= |xs|
    ensures |r| == |xs| && forall i :: 0 <= i < |xs| ==> r[i] == f(xs[i], ys[i], zs[i])
  {
    seq(|xs|, i requires 0 <= i < |xs| => f(xs[i], ys[i], zs[i]))
  }

  function PerGroupBias<S>(f: Slabbed<S> -> Slabbed<S>, xs: seq<Slabbed<S>>): (r: seq<Slabbed<S>>)
    ensures |r| == |xs| && forall i :: 0 <= i < |xs| ==> r[i] == f(xs[i])
  {
    seq(|xs|, i requires 0 <= i < |xs| => f(xs[i]))
  }

  lemma PerGroupSnoc<S>(f: (Slabbed<S>, Slabbed<S>, Slabbed<S>) -> Slabbed<S>, xs: seq<Slabbed<S>>, x: Slabbed<S>, ys: seq<Slabbed<S>>, zs: seq<Slabbed<S>>)
    requires |ys| > |xs| && |zs| > |xs|
    ensures PerGroup(f, xs + [x], ys, zs) == PerGroup(f, xs, ys, zs) + [f(x, ys[|xs|], zs[|xs|])]
  {
    var l, r := PerGroup(f, xs + [x], ys, zs), PerGroup(f, xs, ys, zs) + [f(x, ys[|xs|], zs[|xs|])];
    forall i | 0 <= i < |l|
      ensures l[i] == r[i]
    {
      if i < |xs| {
        assert (xs + [x])[i] == xs[i];
      }
    }
  }

  lemma PerGroupSnoc3<S>(f: (Slabbed<S>, Slabbed<S>, Slabbed<S>) -> Slabbed<S>, xs: seq<Slabbed<S>>, ys: seq<Slabbed<S>>, zs: seq<Slabbed<S>>,
                         x: Slabbed<S>, y: Slabbed<S>, z: Slabbed<S>)
    requires |ys| == |xs| && |zs| == |xs|
    ensures PerGroup(f, xs + [x], ys + [y], zs + [z]) == PerGroup(f, xs, ys, zs) + [f(x, y, z)]
  {
    var l, r := PerGroup(f, xs + [x], ys + [y], zs + [z]), PerGroup(f, xs, ys, zs) + [f(x, y, z)];
    forall i | 0 <= i < |l|
      ensures l[i] == r[i]
    {
      if i < |xs| {
        assert (xs + [x])[i] == xs[i] && (ys + [y])[i] == ys[i] && (zs + [z])[i] == zs[i];
      }
    }
  }

  lemma PerGroupBiasSnoc<S>(f: Slabbed<S> -> Slabbed<S>, xs: seq<Slabbed<S>>, x: Slabbed<S>)
    ensures PerGroupBias(f, xs + [x]) == PerGroupBias(f, xs) + [f(x)]
  {
    var l, r := PerGroupBias(f, xs + [x]), PerGroupBias(f, xs) + [f(x)];
    forall i | 0 <= i < |l|
      ensures l[i] == r[i]
    {
      if i < |xs| {
        assert (xs + [x])[i] == xs[i];
      }
    }
  }

  lemma PassThrough<S>(k: Kernels<S>, c: GroupCache<S>)
    requires |c.filter| >= |c.data| && |c.bias| >= |c.data|
    requires forall x, f, y :: k.ff(x, f, y) == x
    ensures PerGroup(k.ff, c.data, c.filter, c.bias) == c.data
  {
    var r := PerGroup(k.ff, c.data, c.filter, c.bias);
    forall i | 0 <= i < |c.data|
      ensures r[i] == c.data[i]
    {
      assert r[i] == k.ff(c.data[i], c.filter[i], c.bias[i]);
    }
  }

  /**
   * The results are concatenated in group order: with a kernel that
   * returns its input piece, grouped forward reproduces an input whose
   * extent on the data axis divides by the group count.
   */
  lemma GroupOrder<S>(act: Slabbed<S>, w: Slabbed<S>, b: Option<Slabbed<S>>, group: nat, filterCount: nat, k: Kernels<S>)
    requires group > 0 && Along(act, DATA_AXIS) && act.shape[DATA_AXIS] % group == 0
    requires Split(act, w, b, act.shape[DATA_AXIS] / group, filterCount, group).Ok?
    requires forall x, f, y :: k.ff(x, f, y) == x
    ensures var c := Split(act, w, b, act.shape[DATA_AXIS] / group, filterCount, group).value;
            Concat(PerGroup(k.ff, c.data, c.filter, c.bias), DATA_AXIS) == Ok(act)
  {
    var count := act.shape[DATA_AXIS] / group;
    DivExact(act.shape[DATA_AXIS], group);
    var c := Split(act, w, b, count, filterCount, group).value;
    SplitArePieces(act, w, b, count, filterCount, group);
    PassThrough(k, c);
    ConcatOfPieces(c.data, act, DATA_AXIS, count);
    WholeAxis(act, DATA_AXIS, count * |c.data|);
  }

  /**
   * The loop of grouped forward: cut the pieces of n groups, in order, and
   * convolve each group. On a failure the pieces cut so far are returned
   * with the error.
   */
  method CutGroups<S>(act: Slabbed<S>, w: Slabbed<S>, b: Option<Slabbed<S>>, dataCount: nat, filterCount: nat, n: nat,
                      ff: (Slabbed<S>, Slabbed<S>, Slabbed<S>) -> Slabbed<S>)
    returns (r: Result<seq<Slabbed<S>>>, data: seq<Slabbed<S>>, filter: seq<Slabbed<S>>, bias: seq<Slabbed<S>>)
    ensures var split := Split(act, w, b, dataCount, filterCount, n);
            && (split.Err? ==> r == Err(split.error))
            && (split.Ok? ==> data == split.value.data && filter == split.value.filter && bias == split.value.bias
                              && r == Ok(PerGroup(ff, data, filter, bias)))
  {
    data, filter, bias := [], [], [];
    var results: seq<Slabbed<S>> := [];
    var i := 0;
    while i < n
      invariant 0 <= i <= n
      invariant Split(act, w, b, dataCount, filterCount, i) == Ok(GroupCache(data, filter, bias))
      invariant results == PerGroup(ff, data, filter, bias)
    {
      var x := Slice(act, DATA_AXIS, dataCount * i, dataCount);
      if x.Err? {
        SplitStuck(act, w, b, dataCount, filterCount, i + 1, n);
        return Err(x.error), data, filter, bias;
      }
      var f := Slice(w, FILTER_AXIS, filterCount * i, filterCount);
      if f.Err? {
        SplitStuck(act, w, b, dataCount, filterCount, i + 1, n);
        return Err(f.error), data + [x.value], filter, bias;
      }
      if b.None? {
        SplitStuck(act, w, b, dataCount, filterCount, i + 1, n);
        return Err(TypeError), data + [x.value], filter + [f.value], bias;
      }
      var y := Slice(b.value, BIAS_AXIS, filterCount * i, filterCount);
      if y.Err? {
        SplitStuck(act, w, b, dataCount, filterCount, i + 1, n);
        return Err(y.error), data + [x.value], filter + [f.value], bias;
      }
      PerGroupSnoc3(ff, data, filter, bias, x.value, f.value, y.value);
      data, filter, bias := data + [x.value], filter + [f.value], bias + [y.value];
      results := results + [ff(x.value, f.value, y.value)];
      i := i + 1;
    }
    r := Ok(results);
  }

  /** The per-group results of grouped backward: filter, bias and input gradients. */
  datatype GroupGrads<S> = GroupGrads(weight: seq<Slabbed<S>>, bias: seq<Slabbed<S>>, input: seq<Slabbed<S>>)

  /**
   * What grouped backward computes: the gradient cut into n pieces along
   * the data axis, and the three gradient kernels run on each with the
   * input and filter pieces forward kept. Every failure is an IndexError:
   * a piece past the end of the gradient, or a group forward did not cut.
   */
  function GroupedGrads<S>(sen: Slabbed<S>, dataCount: nat, n: nat, data: seq<Slabbed<S>>, filter: seq<Slabbed<S>>, k: Kernels<S>): (r: Result<GroupGrads<S>>)
    ensures r.Err? <==> Pieces(sen, DATA_AXIS, dataCount, n).Err? || |data| < n || |filter| < n
    ensures r.Err? ==> r.error == IndexError
    ensures r.Ok? ==> |r.value.weight| == |r.value.bias| == |r.value.input| == n
  {
    match Pieces(sen, DATA_AXIS, dataCount, n)
    case Err(_) => Err(IndexError)
    case Ok(ss) =>
      if |data| < n || |filter| < n then Err(IndexError)
      else Ok(GroupGrads(PerGroup(k.weightGrad, ss, data, filter), PerGroupBias(k.biasGrad, ss), PerGroup(k.bp, ss, data, filter)))
  }

  /**
   * The loop of grouped backward, slicing and running the kernels group
   * by group.
   */
  method GroupBackward<S>(sen: Slabbed<S>, dataCount: nat, n: nat, data: seq<Slabbed<S>>, filter: seq<Slabbed<S>>, k: Kernels<S>)
    returns (r: Result<GroupGrads<S>>)
    ensures r == GroupedGrads(sen, dataCount, n, data, filter, k)
  {
    var sens: seq<Slabbed<S>> := [];
    var wgrads: seq<Slabbed<S>> := [];
    var bgrads: seq<Slabbed<S>> := [];
    var results: seq<Slabbed<S>> := [];
    var i := 0;
    while i < n
      invariant 0 <= i <= n && i <= |data| && i <= |filter|
      invariant Pieces(sen, DATA_AXIS, dataCount, i) == Ok(sens)
      invariant wgrads == PerGroup(k.weightGrad, sens, data, filter)
      invariant bgrads == PerGroupBias(k.biasGrad, sens)
      invariant results == PerGroup(k.bp, sens, data, filter)
    {
      var x := Slice(sen, DATA_AXIS, dataCount * i, dataCount);
      if x.Err? {
        PiecesStuck(sen, DATA_AXIS, dataCount, i + 1, n);
        return Err(IndexError);
      }
      if i >= |data| || i >= |filter| {
        return Err(IndexError);
      }
      PerGroupSnoc(k.weightGrad, sens, x.value, data, filter);
      PerGroupSnoc(k.bp, sens, x.value, data, filter);
      PerGroupBiasSnoc(k.biasGrad, sens, x.value);
      sens := sens + [x.value];
      wgrads := wgrads + [k.weightGrad(x.value, data[i], filter[i])];
      bgrads := bgrads + [k.biasGrad(x.value)];
      results := results + [k.bp(x.value, data[i], filter[i])];
      i := i + 1;
    }
    r := Ok(GroupGrads(wgrads, bgrads, results));
  }

  class ConvConnection<S> {
    const group: nat
    /** The parameters of the native convolver the unit builds. */
    const convolver: Conv.ConvInfo
    var weight: Option<Slabbed<S>>
    var bias: Option<Slabbed<S>>
    var weightGrad: Option<Slabbed<S>>
    var biasGrad: Option<Slabbed<S>>
    /** The input of the last single-group forward pass. */
    var ffAct: Option<Slabbed<S>>
    /** The pieces the last grouped forward pass cut. */
    var groupData: seq<Slabbed<S>>
    var groupFilter: seq<Slabbed<S>>
    var groupBias: seq<Slabbed<S>>

    /** The pieces kept between forward and backward. */
    function Caches(): GroupCache<S>
      reads this
    {
      GroupCache(groupData, groupFilter, groupBias)
    }

    /** The filter and bias gradients. */
    function Grads(): (Option<Slabbed<S>>, Option<Slabbed<S>>)
      reads this
    {
      (weightGrad, biasGrad)
    }

    /** The unit's layer parameters give the convolver equal pads and equal strides. */
    constructor (pad: int, stride: int, group: nat)
      ensures this.group == group && convolver == Conv.Convolver(pad, pad, stride, stride)
      ensures weight == None && bias == None && weightGrad == None && biasGrad == None && ffAct == None
      ensures groupData == [] && groupFilter == [] && groupBias == []
    {
      this.group := group;
      convolver := Conv.Convolver(pad, pad, stride, stride);
      weight, bias, weightGrad, biasGrad, ffAct := None, None, None, None, None;
      groupData, groupFilter, groupBias := [], [], [];
    }

    /** ConvConnection.ff, with k the convolver's kernels. */
    method Ff(act: Slabbed<S>, k: Kernels<S>) returns (r: Result<Slabbed<S>>)
      modifies this
      ensures weight == old(weight) && bias == old(bias) && Grads() == old(Grads())
      ensures group == 1 ==>
                && ffAct == Some(act)
                && Caches() == old(Caches())
                && r == (if weight.None? || bias.None? then Err(TypeError) else Ok(k.ff(act, weight.value, bias.value)))
      ensures group != 1 ==> ffAct == old(ffAct)
      ensures group != 1 && |act.shape| <= DATA_AXIS ==> r == Err(IndexError) && groupData == groupFilter == groupBias == []
      ensures group == 0 && |act.shape| > DATA_AXIS ==> r == Err(ZeroDivision) && groupData == groupFilter == groupBias == []
      ensures group > 1 && |act.shape| > DATA_AXIS && weight.None? ==> r == Err(AttributeError) && groupData == groupFilter == groupBias == []
      ensures group > 1 && |act.shape| > DATA_AXIS && weight.Some? && |weight.value.shape| <= FILTER_AXIS ==>
                r == Err(IndexError) && groupData == groupFilter == groupBias == []
      ensures group > 1 && |act.shape| > DATA_AXIS && weight.Some? && |weight.value.shape| > FILTER_AXIS ==>
                var split := Split(act, weight.value, bias, act.shape[DATA_AXIS] / group, weight.value.shape[FILTER_AXIS] / group, group);
                && (split.Err? ==> r == Err(split.error))
                && (split.Ok? ==> && groupData == split.value.data && groupFilter == split.value.filter && groupBias == split.value.bias
                                  && r == Concat(PerGroup(k.ff, groupData, groupFilter, groupBias), DATA_AXIS))
    {
      if group == 1 {
        ffAct := Some(act);
        if weight.None? || bias.None? {
          return Err(TypeError);
        }
        return Ok(k.ff(act, weight.value, bias.value));
      }
      groupData, groupFilter, groupBias := [], [], [];
      if |act.shape| <= DATA_AXIS {
        return Err(IndexError);
      }
      if group == 0 {
        return Err(ZeroDivision);
      }
      if weight.None? {
        return Err(AttributeError);
      }
      var w := weight.value;
      if |w.shape| <= FILTER_AXIS {
        return Err(IndexError);
      }
      var dataCount := act.shape[DATA_AXIS] / group;
      var filterCount := w.shape[FILTER_AXIS] / group;
      var results;
      results, groupData, groupFilter, groupBias := CutGroups(act, w, bias, dataCount, filterCount, group, k.ff);
      if results.Err? {
        return Err(results.error);
      }
      r := Concat(results.value, DATA_AXIS);
    }

    /** ConvConnection.bp, with k the convolver's kernels. */
    method Bp(sen: Slabbed<S>, k: Kernels<S>) returns (r: Result<Slabbed<S>>)
      modifies this
      ensures weight == old(weight) && bias == old(bias) && ffAct == old(ffAct)
      ensures group == 1 ==>
                && Caches() == old(Caches())
                && (ffAct.None? ==> r == Err(AttributeError) && Grads() == old(Grads()))
                && (ffAct.Some? && weight.None? ==> r == Err(TypeError) && Grads() == old(Grads()))
                && (ffAct.Some? && weight.Some? ==>
                      && weightGrad == Some(k.weightGrad(sen, ffAct.value, weight.value))
                      && biasGrad == Some(k.biasGrad(sen))
                      && r == Ok(k.bp(sen, ffAct.value, weight.value)))
      ensures group != 1 && (|sen.shape| <= DATA_AXIS || group == 0 || weight.None? || |weight.value.shape| <= FILTER_AXIS) ==>
                && r == Err(if |sen.shape| <= DATA_AXIS then IndexError else if group == 0 then ZeroDivision
                            else if weight.None? then AttributeError else IndexError)
                && Grads() == old(Grads())
                && Caches() == old(Caches())
      ensures group > 1 && |sen.shape| > DATA_AXIS && weight.Some? && |weight.value.shape| > FILTER_AXIS ==>
                var g := GroupedGrads(sen, sen.shape[DATA_AXIS] / group, group, old(groupData), old(groupFilter), k);
                && (g.Err? ==> r == Err(IndexError) && Grads() == old(Grads()) && Caches() == old(Caches()))
                && (g.Ok? ==>
                      var wg := Concat(g.value.weight, FILTER_AXIS);
                      var bg := Concat(g.value.bias, BIAS_AXIS);
                      && (wg.Err? ==> r == Err(ShapeMismatch) && Grads() == old(Grads()) && Caches() == old(Caches()))
                      && (wg.Ok? ==> weightGrad == Some(wg.value))
                      && (wg.Ok? && bg.Err? ==> r == Err(ShapeMismatch) && biasGrad == old(biasGrad) && Caches() == old(Caches()))
                      && (wg.Ok? && bg.Ok? ==>
                            && biasGrad == Some(bg.value)
                            && groupData == [] && groupFilter == [] && groupBias == []
                            && r == Concat(g.value.input, DATA_AXIS)))
    {
      if group == 1 {
        if ffAct.None? || weight.None? {
          return Err(if ffAct.None? then AttributeError else TypeError);
        }
        weightGrad := Some(k.weightGrad(sen, ffAct.value, weight.value));
        biasGrad := Some(k.biasGrad(sen));
        return Ok(k.bp(sen, ffAct.value, weight.value));
      }
      if |sen.shape| <= DATA_AXIS {
        return Err(IndexError);
      }
      if group == 0 {
        return Err(ZeroDivision);
      }
      if weight.None? {
        return Err(AttributeError);
      }
      if |weight.value.shape| <= FILTER_AXIS {
        return Err(IndexError);
      }
      r := BpGroups(sen, k);
    }

    /** The grouped branch of bp, once the axes and the weight have been found. */
    method BpGroups(sen: Slabbed<S>, k: Kernels<S>) returns (r: Result<Slabbed<S>>)
      requires group > 1 && |sen.shape| > DATA_AXIS && weight.Some? && |weight.value.shape| > FILTER_AXIS
      modifies this
      ensures weight == old(weight) && bias == old(bias) && ffAct == old(ffAct)
      ensures var g := GroupedGrads(sen, sen.shape[DATA_AXIS] / group, group, old(groupData), old(groupFilter), k);
              && (g.Err? ==> r == Err(IndexError) && weightGrad == old(weightGrad) && biasGrad == old(biasGrad) && groupData == old(groupData) && groupFilter == old(groupFilter) && groupBias == old(groupBias))
              && (g.Ok? ==>
                    var wg := Concat(g.value.weight, FILTER_AXIS);
                    var bg := Concat(g.value.bias, BIAS_AXIS);
                    && (wg.Err? ==> r == Err(ShapeMismatch) && weightGrad == old(weightGrad) && biasGrad == old(biasGrad) && groupData == old(groupData) && groupFilter == old(groupFilter) && groupBias == old(groupBias))
                    && (wg.Ok? ==> weightGrad == Some(wg.value))
                    && (wg.Ok? && bg.Err? ==> r == Err(ShapeMismatch) && biasGrad == old(biasGrad) && groupData == old(groupData) && groupFilter == old(groupFilter) && groupBias == old(groupBias))
                    && (wg.Ok? && bg.Ok? ==>
                          && biasGrad == Some(bg.value)
                          && groupData == [] && groupFilter == [] && groupBias == []
                          && r == Concat(g.value.input, DATA_AXIS)))
    {
      var dataCount := sen.shape[DATA_AXIS] / group;
      var g := GroupBackward(sen, dataCount, group, groupData, groupFilter, k);
      if g.Err? {
        return Err(g.error);
      }
      r := StoreGrads(g.value);
    }

    /** The end of grouped backward: concatenate the per-group gradients, store them, and release the pieces. */
    method StoreGrads(g: GroupGrads<S>) returns (r: Result<Slabbed<S>>)
      requires |g.weight| > 0 && |g.bias| > 0 && |g.input| > 0
      modifies this
      ensures weight == old(weight) && bias == old(bias) && ffAct == old(ffAct)
      ensures var wg := Concat(g.weight, FILTER_AXIS);
              var bg := Concat(g.bias, BIAS_AXIS);
              && (wg.Err? ==> r == Err(ShapeMismatch) && weightGrad == old(weightGrad) && biasGrad == old(biasGrad)
                              && groupData == old(groupData) && groupFilter == old(groupFilter) && groupBias == old(groupBias))
              && (wg.Ok? ==> weightGrad == Some(wg.value))
              && (wg.Ok? && bg.Err? ==> r == Err(ShapeMismatch) && biasGrad == old(biasGrad)
                                        && groupData == old(groupData) && groupFilter == old(groupFilter) && groupBias == old(groupBias))
              && (wg.Ok? && bg.Ok? ==>
                    && biasGrad == Some(bg.value)
                    && groupData == [] && groupFilter == [] && groupBias == []
                    && r == Concat(g.input, DATA_AXIS))
    {
      var wg := Concat(g.weight, FILTER_AXIS);
      if wg.Err? {
        return Err(wg.error);
      }
      weightGrad := Some(wg.value);
      var bg := Concat(g.bias, BIAS_AXIS);
      if bg.Err? {
        return Err(bg.error);
      }
      biasGrad := Some(bg.value);
      groupData, groupFilter, groupBias := [], [], [];
      r := Concat(g.input, DATA_AXIS);
    }
  }
}
