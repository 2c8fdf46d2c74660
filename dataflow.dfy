/**
 * How the network assembles a unit's inputs from its neighbours' port maps
 * (net.py, Net.forward and Net.backward). Port maps are keyed by port name.
 */
module Dataflow {

  type Port = string

  /** The ids in `ps` index `maps`. */
  ghost predicate InRange<T>(maps: seq<map<Port, T>>, ps: seq<nat>)
  {
    forall j :: 0 <= j < |ps| ==> ps[j] < |maps|
  }

  /**
   * The forward input map: starting from an empty map, the output map of
   * each predecessor in `ps` is merged in with dict.update, left to right.
   */
  function Merge<T>(tops: seq<map<Port, T>>, ps: seq<nat>): map<Port, T>
    requires InRange(tops, ps)
  {
    if |ps| == 0 then map[] else Merge(tops, ps[..|ps| - 1]) + tops[ps[|ps| - 1]]
  }

  /** The inner loop of Net.forward: update a map with each predecessor's outputs, in order. */
  method MergeInputs<T>(tops: seq<map<Port, T>>, ps: seq<nat>) returns (r: map<Port, T>)
    requires InRange(tops, ps)
    ensures r == Merge(tops, ps)
  {
    r := map[];
    var j := 0;
    while j < |ps|
      invariant 0 <= j <= |ps|
      invariant r == Merge(tops, ps[..j])
    {
      assert ps[..j + 1][..j] == ps[..j];
      r := r + tops[ps[j]];
      j := j + 1;
    }
    assert ps[..j] == ps;
  }

  /** A port is in the merged map exactly when some predecessor supplies it. */
  lemma {:induction false} MergeKeys<T>(tops: seq<map<Port, T>>, ps: seq<nat>, k: Port)
    requires InRange(tops, ps)
    ensures k in Merge(tops, ps) <==> exists j :: 0 <= j < |ps| && k in tops[ps[j]]
  {
    if |ps| > 0 {
      var init := ps[..|ps| - 1];
      MergeKeys(tops, init, k);
      assert forall j :: 0 <= j < |init| ==> init[j] == ps[j];
      if k in tops[ps[|ps| - 1]] {
        assert k in Merge(tops, ps);
      }
    }
  }

  /**
   * On a port supplied by several predecessors, the value is that of the
   * last predecessor in `ps` that supplies it.
   */
  lemma {:induction false} MergeLastWins<T>(tops: seq<map<Port, T>>, ps: seq<nat>, k: Port, j: nat)
    requires InRange(tops, ps)
    requires j < |ps| && k in tops[ps[j]]
    requires forall j' :: j < j' < |ps| ==> k !in tops[ps[j']]
    ensures k in Merge(tops, ps) && Merge(tops, ps)[k] == tops[ps[j]][k]
  {
    var init := ps[..|ps| - 1];
    if j < |ps| - 1 {
      MergeLastWins(tops, init, k, j);
    }
  }

  /** The merge reads only the maps of the units it lists. */
  lemma {:induction false} MergeFrame<T>(tops: seq<map<Port, T>>, ps: seq<nat>, u: nat, x: map<Port, T>)
    requires InRange(tops, ps) && u < |tops| && u !in ps
    ensures Merge(tops[u := x], ps) == Merge(tops, ps)
  {
    if |ps| > 0 {
      var init := ps[..|ps| - 1];
      assert u !in init by {
        assert forall j :: 0 <= j < |init| ==> init[j] == ps[j];
      }
      MergeFrame(tops, init, u, x);
    }
  }

  /**
   * One successor's gradient map added into the running sum: a port present
   * in both is summed, a port present in one keeps its value.
   */
  function AddInto(acc: map<Port, real>, m: map<Port, real>): (r: map<Port, real>)
    ensures r.Keys == acc.Keys + m.Keys
  {
    map k | k in acc.Keys + m.Keys :: if k in m then (if k in acc then acc[k] + m[k] else m[k]) else acc[k]
  }

  /**
   * The inner loop of Net.backward: each port of `m` is visited once; a port
   * already in the running sum has m's gradient added to it, a new port is
   * inserted with m's gradient.
   */
  method AddPorts(acc: map<Port, real>, m: map<Port, real>) returns (r: map<Port, real>)
    ensures r == AddInto(acc, m)
  {
    r := acc;
    var rest := m.Keys;
    ghost var done: set<Port> := {};
    while rest != {}
      invariant rest + done == m.Keys && rest * done == {}
      invariant r.Keys == acc.Keys + done
      invariant forall k :: k in r ==> r[k] == (if k in done then (if k in acc then acc[k] + m[k] else m[k]) else acc[k])
      decreases rest
    {
      var k :| k in rest;
      if k in r {
        r := r[k := r[k] + m[k]];
      } else {
        r := r[k := m[k]];
      }
      rest := rest - {k};
      done := done + {k};
    }
    assert done == m.Keys;
  }

  /** The backward gradient map: the gradient maps of the successors in `ps`, added in turn. */
  function Accumulate(btms: seq<map<Port, real>>, ps: seq<nat>): map<Port, real>
    requires InRange(btms, ps)
  {
    if |ps| == 0 then map[] else AddInto(Accumulate(btms, ps[..|ps| - 1]), btms[ps[|ps| - 1]])
  }

  /** The inner loop of Net.backward: add up the gradient maps of the successors in `ps`, in order. */
  method SumGradients(btms: seq<map<Port, real>>, ps: seq<nat>) returns (r: map<Port, real>)
    requires InRange(btms, ps)
    ensures r == Accumulate(btms, ps)
  {
    r := map[];
    var j := 0;
    while j < |ps|
      invariant 0 <= j <= |ps|
      invariant r == Accumulate(btms, ps[..j])
    {
      assert ps[..j + 1][..j] == ps[..j];
      r := AddPorts(r, btms[ps[j]]);
      j := j + 1;
    }
    assert ps[..j] == ps;
  }

  /** The sum, over the successors in `ps` with multiplicity, of what each supplies on port k. */
  function SumOnPort(btms: seq<map<Port, real>>, ps: seq<nat>, k: Port): real
    requires InRange(btms, ps)
  {
    if |ps| == 0 then 0.0
    else SumOnPort(btms, ps[..|ps| - 1], k) + (if k in btms[ps[|ps| - 1]] then btms[ps[|ps| - 1]][k] else 0.0)
  }

  /**
   * Fan-in accumulation: a port is in the accumulated map exactly when some
   * successor supplies it, and its value is the sum over all successors
   * that supply it, duplicate edges counted as often as they occur.
   */
  lemma {:induction false} AccumulateSums(btms: seq<map<Port, real>>, ps: seq<nat>, k: Port)
    requires InRange(btms, ps)
    ensures k in Accumulate(btms, ps) <==> exists j :: 0 <= j < |ps| && k in btms[ps[j]]
    ensures k in Accumulate(btms, ps) ==> Accumulate(btms, ps)[k] == SumOnPort(btms, ps, k)
  {
    if |ps| > 0 {
      var init := ps[..|ps| - 1];
      AccumulateSums(btms, init, k);
      assert forall j :: 0 <= j < |init| ==> init[j] == ps[j];
      if k !in Accumulate(btms, init) {
        SumOnPortAbsent(btms, init, k);
      }
      if k in btms[ps[|ps| - 1]] {
        assert k in Accumulate(btms, ps);
      }
    }
  }

  /** Successors that do not supply port k contribute nothing to its sum. */
  lemma {:induction false} SumOnPortAbsent(btms: seq<map<Port, real>>, ps: seq<nat>, k: Port)
    requires InRange(btms, ps)
    requires forall j :: 0 <= j < |ps| ==> k !in btms[ps[j]]
    ensures SumOnPort(btms, ps, k) == 0.0
  {
    if |ps| > 0 {
      var init := ps[..|ps| - 1];
      assert forall j :: 0 <= j < |init| ==> init[j] == ps[j];
      SumOnPortAbsent(btms, init, k);
    }
  }

  /** Two consumers returning g1 and g2 on the same port yield g1 + g2 there. */
  lemma FanInOfTwo(btms: seq<map<Port, real>>, a: nat, b: nat, k: Port)
    requires a < |btms| && b < |btms| && k in btms[a] && k in btms[b]
    ensures k in Accumulate(btms, [a, b]) && Accumulate(btms, [a, b])[k] == btms[a][k] + btms[b][k]
  {
    AccumulateSums(btms, [a, b], k);
    assert [a, b][..1] == [a];
    assert [a][..0] == [];
    assert SumOnPort(btms, [a], k) == btms[a][k];
  }

  /** The accumulation reads only the maps of the units it lists. */
  lemma {:induction false} AccumulateFrame(btms: seq<map<Port, real>>, ps: seq<nat>, u: nat, x: map<Port, real>)
    requires InRange(btms, ps) && u < |btms| && u !in ps
    ensures Accumulate(btms[u := x], ps) == Accumulate(btms, ps)
  {
    if |ps| > 0 {
      var init := ps[..|ps| - 1];
      assert u !in init by {
        assert forall j :: 0 <= j < |init| ==> init[j] == ps[j];
      }
      AccumulateFrame(btms, init, u, x);
    }
  }
}
