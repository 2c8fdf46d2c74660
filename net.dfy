/**
 * The network container of net.py (class Net): an append-only arena of
 * units whose id is the insertion index, a forward and a mirrored reverse
 * adjacency list, a name index, the two traversals and the forward and
 * backward passes over them.
 */
module NetGraph {
  import opened Wrappers
  import opened Caffe
  import opened Counting
  import opened Schedule
  import opened Dataflow
  import opened Dot

  /** The unit classes of net.py. */
  datatype Kind =
    | Data | Linear | Sigmoid | Relu | Tanh | Pooling | Dropout
    | Softmax | Accuracy | Lrn | Concat | FullyConnected | Convolution

  /** A unit as the network sees it: its name, its class and the phases of its include rules. */
  datatype Unit = Unit(name: string, kind: Kind, includes: seq<Phase>)

  /** The classes derived from WeightedComputeUnit. */
  predicate IsWeighted(k: Kind)
  {
    k == FullyConnected || k == Convolution
  }

  /**
   * Net._is_excluded: a unit sits out a pass exactly when a phase is given,
   * the unit has an include rule, and the first rule names another phase.
   */
  function IsExcluded(unit: Unit, phase: Option<Phase>): (b: bool)
    ensures phase == None ==> !b
    ensures |unit.includes| == 0 ==> !b
    ensures phase.Some? && |unit.includes| > 0 ==> (b <==> unit.includes[0] != phase.value)
  {
    phase.Some? && |unit.includes| != 0 && unit.includes[0] != phase.value
  }

  /** The exclusion of every unit, by id. */
  function ExclusionMask(units: seq<Unit>, phase: Option<Phase>): (mask: seq<bool>)
    ensures |mask| == |units|
    ensures forall u :: 0 <= u < |units| ==> mask[u] == IsExcluded(units[u], phase)
  {
    seq(|units|, u requires 0 <= u < |units| => IsExcluded(units[u], phase))
  }

  /** The unit names, by id. */
  function Names(units: seq<Unit>): (names: seq<string>)
    ensures |names| == |units| && forall u :: 0 <= u < |units| ==> names[u] == units[u].name
  {
    seq(|units|, u requires 0 <= u < |units| => units[u].name)
  }

  /** The ids in `ids` are unit ids in strictly increasing order. */
  ghost predicate IncreasingIds(ids: seq<nat>, n: nat)
  {
    && (forall i :: 0 <= i < |ids| ==> ids[i] < n)
    && (forall i, j :: 0 <= i < j < |ids| ==> ids[i] < ids[j])
  }

  /**
   * `index` lists, for each name, the ids of the units of that name in
   * increasing order, and every unit is listed under its name.
   */
  ghost predicate NameIndexed(units: seq<Unit>, index: map<string, seq<nat>>)
  {
    && (forall name :: name in index ==>
          && |index[name]| > 0
          && IncreasingIds(index[name], |units|)
          && forall i :: 0 <= i < |index[name]| ==> units[index[name][i]].name == name)
    && (forall u :: 0 <= u < |units| ==> units[u].name in index && u in index[units[u].name])
  }

  /** The ids of the units among the first n whose name is `name`, in increasing order. */
  ghost function IdsNamed(units: seq<Unit>, name: string, n: nat): (ids: seq<nat>)
    requires n <= |units|
    ensures forall i :: 0 <= i < |ids| ==> ids[i] < n
  {
    if n == 0 then [] else IdsNamed(units, name, n - 1) + (if units[n - 1].name == name then [n - 1] else [])
  }

  /** IdsNamed lists every unit of the name once, in increasing id order, and nothing else. */
  lemma {:induction false} IdsNamedExact(units: seq<Unit>, name: string, n: nat)
    requires n <= |units|
    ensures IncreasingIds(IdsNamed(units, name, n), n)
    ensures forall u :: 0 <= u < n ==> (u in IdsNamed(units, name, n) <==> units[u].name == name)
  {
    if n > 0 {
      IdsNamedExact(units, name, n - 1);
    }
  }

  /** Units a to b-1 carry other names, so IdsNamed gains nothing from them. */
  lemma {:induction false} IdsNamedSkip(units: seq<Unit>, name: string, a: nat, b: nat)
    requires a <= b <= |units|
    requires forall u :: a <= u < b ==> units[u].name != name
    ensures IdsNamed(units, name, b) == IdsNamed(units, name, a)
    decreases b - a
  {
    if a < b {
      IdsNamedSkip(units, name, a, b - 1);
    }
  }

  /**
   * A strictly increasing list of ids below n that holds exactly the ids of
   * the units of a name is IdsNamed: order and multiplicity are forced.
   */
  lemma {:induction false} IndexIsFilter(units: seq<Unit>, name: string, ids: seq<nat>, n: nat)
    requires n <= |units| && IncreasingIds(ids, n)
    requires forall u :: 0 <= u < n ==> (u in ids <==> units[u].name == name)
    ensures ids == IdsNamed(units, name, n)
    decreases |ids|
  {
    if |ids| == 0 {
      IdsNamedSkip(units, name, 0, n);
    } else {
      var last := ids[|ids| - 1];
      var front := ids[..|ids| - 1];
      DropLast(units, name, ids, n);
      IdsNamedSkip(units, name, last + 1, n);
      IndexIsFilter(units, name, front, last);
    }
  }

  /**
   * The last id of such a list is the highest id of the name; the rest of
   * the list is such a list for the ids below it.
   */
  lemma DropLast(units: seq<Unit>, name: string, ids: seq<nat>, n: nat)
    requires n <= |units| && IncreasingIds(ids, n) && |ids| > 0
    requires forall u :: 0 <= u < n ==> (u in ids <==> units[u].name == name)
    ensures var last := ids[|ids| - 1];
            var front := ids[..|ids| - 1];
            && ids == front + [last] && last < n && units[last].name == name
            && IncreasingIds(front, last)
            && (forall u :: 0 <= u < last ==> (u in front <==> units[u].name == name))
            && (forall u :: last < u < n ==> units[u].name != name)
  {
    var last := ids[|ids| - 1];
    var front := ids[..|ids| - 1];
    assert ids == front + [last];
    assert forall i :: 0 <= i < |front| ==> front[i] < last;
    assert forall u :: last < u < n ==> u !in ids;
    assert forall u :: 0 <= u < last ==> (u in front <==> u in ids);
  }

  /** The units at the given ids, in the order of the ids. */
  function UnitsAt(units: seq<Unit>, ids: seq<nat>): (r: seq<Unit>)
    requires forall i :: 0 <= i < |ids| ==> ids[i] < |units|
    ensures |r| == |ids| && forall i :: 0 <= i < |ids| ==> r[i] == units[ids[i]]
  {
    seq(|ids|, i requires 0 <= i < |ids| => units[ids[i]])
  }

  /** Looking a present name up in the index yields exactly the units of that name, in id order. */
  lemma NamedUnitsListed(units: seq<Unit>, index: map<string, seq<nat>>, name: string)
    requires NameIndexed(units, index) && name in index
    ensures index[name] == IdsNamed(units, name, |units|)
    ensures var r := UnitsAt(units, index[name]);
            && |r| > 0 && (forall i :: 0 <= i < |r| ==> r[i].name == name)
            && forall u :: 0 <= u < |units| && units[u].name == name ==> units[u] in r
  {
    var ids := index[name];
    IndexIsFilter(units, name, ids, |units|);
    var r := UnitsAt(units, ids);
    forall u | 0 <= u < |units| && units[u].name == name ensures units[u] in r {
      var k :| 0 <= k < |ids| && ids[k] == u;
      assert r[k] == units[u];
    }
  }

  /** Appending the next id under a unit's name keeps the index. */
  lemma IndexGrows(units: seq<Unit>, index: map<string, seq<nat>>, unit: Unit)
    requires NameIndexed(units, index)
    ensures NameIndexed(units + [unit], index[unit.name :=
      (if unit.name in index then index[unit.name] else []) + [|units|]])
  {
    var us := units + [unit];
    var ids := (if unit.name in index then index[unit.name] else []) + [|units|];
    var idx := index[unit.name := ids];
    forall name | name in idx
      ensures |idx[name]| > 0 && IncreasingIds(idx[name], |us|)
      ensures forall i :: 0 <= i < |idx[name]| ==> us[idx[name][i]].name == name
    {
      if name != unit.name {
        assert idx[name] == index[name];
      }
    }
    forall u | 0 <= u < |us| ensures us[u].name in idx && u in idx[us[u].name] {
      if u < |units| && units[u].name == unit.name {
        assert u in index[unit.name];
      }
    }
  }

  /** Giving both lists an empty entry for a new unit keeps them mirrored. */
  lemma MirroredGrows(out: seq<seq<nat>>, into: seq<seq<nat>>)
    requires Mirrored(out, into)
    ensures Mirrored(out + [[]], into + [[]])
  {
    var n := |out|;
    var out', into' := out + [[]], into + [[]];
    forall u, v | 0 <= u < n + 1 && 0 <= v < n + 1 ensures Count(out'[u], v) == Count(into'[v], u) {
      if u < n && v < n {
        assert Count(out[u], v) == Count(into[v], u);
      } else {
        CountPositive(out'[u], v);
        CountPositive(into'[v], u);
      }
    }
  }

  /** Adding the edge u -> v to both lists keeps them mirrored. */
  lemma MirroredConnect(out: seq<seq<nat>>, into: seq<seq<nat>>, u: nat, v: nat)
    requires Mirrored(out, into) && u < |out| && v < |out|
    ensures Mirrored(out[u := out[u] + [v]], into[v := into[v] + [u]])
  {
    var out', into' := out[u := out[u] + [v]], into[v := into[v] + [u]];
    forall a, b | 0 <= a < |out| && 0 <= b < |out| ensures Count(out'[a], b) == Count(into'[b], a) {
      assert Count(out[a], b) == Count(into[b], a);
      CountAppend(out[u], v, b);
      CountAppend(into[v], u, a);
    }
  }

  class Net {
    var units: seq<Unit>
    var adjacent: seq<seq<nat>>
    var reverseAdjacent: seq<seq<nat>>
    var nameToUid: map<string, seq<nat>>
    var baseLr: real
    var baseWeightDecay: real
    var momentum: real
    var lossUids: seq<nat>
    var accuracyUids: seq<nat>

    /**
     * The container's invariant: one adjacency list of each kind per unit,
     * mirrored with multiplicity, and a name index that lists, for each
     * name, the ids of the units of that name in increasing order.
     */
    ghost predicate Valid()
      reads this
    {
      && |adjacent| == |units|
      && Mirrored(adjacent, reverseAdjacent)
      && NameIndexed(units, nameToUid)
    }

    constructor ()
      ensures Valid()
      ensures units == [] && adjacent == [] && reverseAdjacent == [] && nameToUid == map[]
      ensures baseLr == 0.0 && baseWeightDecay == 0.0 && momentum == 0.0
      ensures lossUids == [] && accuracyUids == []
    {
      units, adjacent, reverseAdjacent, nameToUid := [], [], [], map[];
      baseLr, baseWeightDecay, momentum := 0.0, 0.0, 0.0;
      lossUids, accuracyUids := [], [];
    }

    /**
     * Net.add_unit: the new unit gets the next id, no edges, and its id is
     * appended to the index entry of its name.
     */
    method AddUnit(unit: Unit) returns (uid: nat)
      requires Valid()
      modifies this
      ensures Valid()
      ensures uid == |old(units)|
      ensures units == old(units) + [unit]
      ensures adjacent == old(adjacent) + [[]]
      ensures reverseAdjacent == old(reverseAdjacent) + [[]]
      ensures nameToUid == old(nameToUid)[unit.name :=
        (if unit.name in old(nameToUid) then old(nameToUid)[unit.name] else []) + [uid]]
      ensures baseLr == old(baseLr) && baseWeightDecay == old(baseWeightDecay) && momentum == old(momentum)
      ensures lossUids == old(lossUids) && accuracyUids == old(accuracyUids)
    {
      uid := |units|;
      MirroredGrows(adjacent, reverseAdjacent);
      IndexGrows(units, nameToUid, unit);
      units := units + [unit];
      adjacent := adjacent + [[]];
      reverseAdjacent := reverseAdjacent + [[]];
      var ids := if unit.name in nameToUid then nameToUid[unit.name] else [];
      nameToUid := nameToUid[unit.name := ids + [uid]];
    }

    /**
     * Net.connect: v is appended to u's successors, then u to v's
     * predecessors. An id beyond the arena raises IndexError; when only v is
     * out of range the first append has already happened.
     */
    method Connect(u: nat, v: nat) returns (r: Result<()>)
      requires Valid()
      modifies this
      ensures units == old(units) && nameToUid == old(nameToUid)
      ensures u >= |units| ==> r == Err(IndexError) && adjacent == old(adjacent)
      ensures u < |old(adjacent)| ==> adjacent == old(adjacent)[u := old(adjacent)[u] + [v]]
      ensures u < |units| && v >= |units| ==> r == Err(IndexError)
      ensures r.Ok? <==> u < |units| && v < |units|
      ensures r.Ok? ==> v < |old(reverseAdjacent)| && reverseAdjacent == old(reverseAdjacent)[v := old(reverseAdjacent)[v] + [u]]
      ensures r.Err? ==> reverseAdjacent == old(reverseAdjacent)
      ensures r.Ok? ==> Valid()
      ensures baseLr == old(baseLr) && baseWeightDecay == old(baseWeightDecay) && momentum == old(momentum)
      ensures lossUids == old(lossUids) && accuracyUids == old(accuracyUids)
    {
      if u >= |adjacent| {
        return Err(IndexError);
      }
      if v >= |reverseAdjacent| {
        adjacent := adjacent[u := adjacent[u] + [v]];
        return Err(IndexError);
      }
      MirroredConnect(adjacent, reverseAdjacent, u, v);
      adjacent := adjacent[u := adjacent[u] + [v]];
      reverseAdjacent := reverseAdjacent[v := reverseAdjacent[v] + [u]];
      r := Ok(());
    }

    /** The exclusion mask of the current units. */
    function Mask(phase: Option<Phase>): (mask: seq<bool>)
      reads this
      ensures |mask| == |units|
    {
      ExclusionMask(units, phase)
    }

    /**
     * Net._toporder: Kahn's algorithm on the forward edges. The order is a
     * valid schedule of the units the phase does not exclude, and holds
     * all of them when the live graph is acyclic.
     */
    method TopOrder(phase: Option<Phase>) returns (order: seq<nat>)
      requires Valid()
      ensures Scheduled(order, reverseAdjacent, Mask(phase))
      ensures Acyclic(reverseAdjacent, Mask(phase)) ==>
                forall u :: 0 <= u < |units| && !Mask(phase)[u] ==> u in order
    {
      order := KahnOrder(adjacent, reverseAdjacent, ExclusionMask(units, phase));
    }

    /** Net._reverse_toporder: the same algorithm with the two adjacency lists swapped. */
    method ReverseTopOrder(phase: Option<Phase>) returns (order: seq<nat>)
      requires Valid()
      ensures Scheduled(order, adjacent, Mask(phase))
      ensures Acyclic(adjacent, Mask(phase)) ==>
                forall u :: 0 <= u < |units| && !Mask(phase)[u] ==> u in order
    {
      MirroredSwap(adjacent, reverseAdjacent);
      order := KahnOrder(reverseAdjacent, adjacent, ExclusionMask(units, phase));
    }

    /**
     * Net.forward. Units run in the order of TopOrder; each gets the
     * dict.update merge of its predecessors' output maps, in the order of
     * reverseAdjacent, and `step` stands for the unit's own forward. The
     * first unit whose step fails aborts the pass with that failure; `ran`
     * counts the units that completed. Every unit that completed has as
     * output its step applied to the merge of its predecessors' final
     * outputs, and every other unit has an empty output map.
     */
    method Forward<T>(phase: Phase, step: (nat, map<Port, T>, Phase) -> Result<map<Port, T>>)
      returns (r: Result<()>, tops: seq<map<Port, T>>, order: seq<nat>, ran: nat)
      requires Valid()
      ensures Scheduled(order, reverseAdjacent, Mask(Some(phase)))
      ensures Acyclic(reverseAdjacent, Mask(Some(phase))) ==>
                forall u :: 0 <= u < |units| && !Mask(Some(phase))[u] ==> u in order
      ensures |tops| == |units| && ran <= |order|
      ensures forall k :: 0 <= k < ran ==>
                step(order[k], Merge(tops, reverseAdjacent[order[k]]), phase) == Ok(tops[order[k]])
      ensures r.Ok? <==> ran == |order|
      ensures r.Err? ==> ran < |order| && step(order[ran], Merge(tops, reverseAdjacent[order[ran]]), phase) == Err(r.error)
      ensures forall u :: 0 <= u < |units| && u !in order[..ran] ==> tops[u] == map[]
    {
      order := TopOrder(Some(phase));
      r, tops, ran := RunForward(order, reverseAdjacent, Mask(Some(phase)), phase, step);
    }

    /**
     * Net.backward. Units run in the order of ReverseTopOrder; each gets
     * the per-port sum of its successors' gradient maps, in the order of
     * adjacent, and `step` stands for the unit's own backward. The first
     * failing step aborts the pass with its failure. Every unit that
     * completed has as gradient map its step applied to that sum over its
     * successors' final gradient maps; every other unit has none.
     */
    method Backward(phase: Phase, step: (nat, map<Port, real>, Phase) -> Result<map<Port, real>>)
      returns (r: Result<()>, btms: seq<map<Port, real>>, order: seq<nat>, ran: nat)
      requires Valid()
      ensures Scheduled(order, adjacent, Mask(Some(phase)))
      ensures Acyclic(adjacent, Mask(Some(phase))) ==>
                forall u :: 0 <= u < |units| && !Mask(Some(phase))[u] ==> u in order
      ensures |btms| == |units| && ran <= |order|
      ensures forall k :: 0 <= k < ran ==>
                step(order[k], Accumulate(btms, adjacent[order[k]]), phase) == Ok(btms[order[k]])
      ensures r.Ok? <==> ran == |order|
      ensures r.Err? ==> ran < |order| && step(order[ran], Accumulate(btms, adjacent[order[ran]]), phase) == Err(r.error)
      ensures forall u :: 0 <= u < |units| && u !in order[..ran] ==> btms[u] == map[]
    {
      order := ReverseTopOrder(Some(phase));
      r, btms, ran := RunBackward(order, adjacent, Mask(Some(phase)), phase, step);
    }

    /**
     * Net.get_data_unit: the first unit named "data" that the phase does
     * not exclude; KeyError when no unit is named "data", and nothing when
     * every such unit is excluded.
     */
    method GetDataUnit(phase: Option<Phase>) returns (r: Result<Option<Unit>>)
      requires Valid()
      ensures r.Err? <==> forall u :: 0 <= u < |units| ==> units[u].name != "data"
      ensures r.Err? ==> r.error == KeyError
      ensures r == Ok(None) <==>
                (exists u :: 0 <= u < |units| && units[u].name == "data")
                && forall u :: 0 <= u < |units| && units[u].name == "data" ==> IsExcluded(units[u], phase)
      ensures r.Ok? && r.value.Some? ==>
                exists u :: 0 <= u < |units| && units[u] == r.value.value && units[u].name == "data"
                            && !IsExcluded(units[u], phase)
                            && forall w :: 0 <= w < u && units[w].name == "data" ==> IsExcluded(units[w], phase)
    {
      if "data" !in nameToUid {
        return Err(KeyError);
      }
      var dataUnits := nameToUid["data"];
      var i := 0;
      while i < |dataUnits|
        invariant 0 <= i <= |dataUnits|
        invariant forall k :: 0 <= k < i ==> IsExcluded(units[dataUnits[k]], phase)
      {
        var du := dataUnits[i];
        if !IsExcluded(units[du], phase) {
          forall w | 0 <= w < du && units[w].name == "data" ensures IsExcluded(units[w], phase) {
            var k :| 0 <= k < |dataUnits| && dataUnits[k] == w;
            assert forall m :: i <= m < |dataUnits| ==> dataUnits[i] <= dataUnits[m];
          }
          return Ok(Some(units[du]));
        }
        i := i + 1;
      }
      assert units[dataUnits[0]].name == "data";
      forall w | 0 <= w < |units| && units[w].name == "data" ensures IsExcluded(units[w], phase) {
        var k :| 0 <= k < |dataUnits| && dataUnits[k] == w;
      }
      r := Ok(None);
    }

    /** Net.get_weighted_unit_ids: the ids of the weighted units, in increasing order. */
    method GetWeightedUnitIds() returns (ids: seq<nat>)
      ensures IncreasingIds(ids, |units|)
      ensures forall u :: 0 <= u < |units| ==> (u in ids <==> IsWeighted(units[u].kind))
    {
      ids := [];
      var i := 0;
      while i < |units|
        invariant 0 <= i <= |units|
        invariant forall k :: 0 <= k < |ids| ==> ids[k] < i
        invariant IncreasingIds(ids, |units|)
        invariant forall u :: 0 <= u < |units| ==> (u in ids <==> u < i && IsWeighted(units[u].kind))
      {
        if IsWeighted(units[i].kind) {
          ids := ids + [i];
        }
        i := i + 1;
      }
    }

    /**
     * Net.get_units_by_name: the units of a name, each once and in id
     * order; KeyError when no unit has that name.
     */
    function GetUnitsByName(name: string): (r: Result<seq<Unit>>)
      reads this
      requires Valid()
      ensures r.Err? <==> forall u :: 0 <= u < |units| ==> units[u].name != name
      ensures r.Err? ==> r.error == KeyError
      ensures r.Ok? ==> |r.value| > 0 && forall i :: 0 <= i < |r.value| ==> r.value[i].name == name
      ensures r.Ok? ==> forall u :: 0 <= u < |units| && units[u].name == name ==> units[u] in r.value
      ensures r.Ok? ==> var ids := IdsNamed(units, name, |units|);
                        |r.value| == |ids| && forall i :: 0 <= i < |ids| ==> r.value[i] == units[ids[i]]
    {
      if name !in nameToUid then Err(KeyError)
      else
        NamedUnitsListed(units, nameToUid, name);
        assert units[nameToUid[name][0]].name == name;
        Ok(UnitsAt(units, nameToUid[name]))
    }

    /**
     * Net.__str__: the Graphviz text of the network, built line by line;
     * it equals DotText of the unit names and the forward edges.
     */
    method ToDot() returns (ret: string)
      requires Valid()
      ensures ret == DotText(Names(units), adjacent)
    {
      ret := "digraph G {\n";
      var nodes := WriteNodeLines(Names(units));
      ret := ret + nodes;
      var edges := WriteEdgeLines(adjacent);
      ret := ret + edges;
      ret := ret + "}\n";
    }
  }

  /** Edges of `into` stay within its ids. */
  ghost predicate Closed(into: seq<seq<nat>>)
  {
    forall v, j :: 0 <= v < |into| && 0 <= j < |into[v]| ==> into[v][j] < |into|
  }

  /**
   * The loop of Net.forward over a schedule: each unit in turn receives
   * the merge of its predecessors' output maps and records its step's
   * output; the first failing step ends the loop with its failure.
   */
  method RunForward<T>(order: seq<nat>, into: seq<seq<nat>>, mask: seq<bool>, phase: Phase,
                       step: (nat, map<Port, T>, Phase) -> Result<map<Port, T>>)
    returns (r: Result<()>, tops: seq<map<Port, T>>, ran: nat)
    requires Scheduled(order, into, mask) && |mask| == |into| && Closed(into)
    ensures |tops| == |into| && ran <= |order|
    ensures forall k :: 0 <= k < ran ==>
              step(order[k], Merge(tops, into[order[k]]), phase) == Ok(tops[order[k]])
    ensures r.Ok? <==> ran == |order|
    ensures r.Err? ==> ran < |order| && step(order[ran], Merge(tops, into[order[ran]]), phase) == Err(r.error)
    ensures forall u :: 0 <= u < |into| && u !in order[..ran] ==> tops[u] == map[]
  {
    tops := seq(|into|, _ => map[]);
    ran := 0;
    while ran < |order|
      invariant 0 <= ran <= |order| && |tops| == |into|
      invariant forall k :: 0 <= k < ran ==> step(order[k], Merge(tops, into[order[k]]), phase) == Ok(tops[order[k]])
      invariant forall w :: 0 <= w < |into| && w !in order[..ran] ==> tops[w] == map[]
    {
      var u := order[ran];
      var fromBtm := MergeInputs(tops, into[u]);
      var out := step(u, fromBtm, phase);
      if out.Err? {
        return Err(out.error), tops, ran;
      }
      InputsUntouched(order, into, mask, ran, tops, out.value);
      NotOwnPredecessor(order, into, mask, ran);
      tops := tops[u := out.value];
      assert order[..ran + 1] == order[..ran] + [u];
      ran := ran + 1;
    }
    r := Ok(());
  }

  /**
   * The loop of Net.backward over a reverse schedule: each unit in turn
   * receives the per-port sum of its successors' gradient maps and records
   * its step's output; the first failing step ends the loop with its
   * failure.
   */
  method RunBackward(order: seq<nat>, out: seq<seq<nat>>, mask: seq<bool>, phase: Phase,
                     step: (nat, map<Port, real>, Phase) -> Result<map<Port, real>>)
    returns (r: Result<()>, btms: seq<map<Port, real>>, ran: nat)
    requires Scheduled(order, out, mask) && |mask| == |out| && Closed(out)
    ensures |btms| == |out| && ran <= |order|
    ensures forall k :: 0 <= k < ran ==>
              step(order[k], Accumulate(btms, out[order[k]]), phase) == Ok(btms[order[k]])
    ensures r.Ok? <==> ran == |order|
    ensures r.Err? ==> ran < |order| && step(order[ran], Accumulate(btms, out[order[ran]]), phase) == Err(r.error)
    ensures forall u :: 0 <= u < |out| && u !in order[..ran] ==> btms[u] == map[]
  {
    btms := seq(|out|, _ => map[]);
    ran := 0;
    while ran < |order|
      invariant 0 <= ran <= |order| && |btms| == |out|
      invariant forall k :: 0 <= k < ran ==> step(order[k], Accumulate(btms, out[order[k]]), phase) == Ok(btms[order[k]])
      invariant forall w :: 0 <= w < |out| && w !in order[..ran] ==> btms[w] == map[]
    {
      var u := order[ran];
      var fromTop := SumGradients(btms, out[u]);
      var g := step(u, fromTop, phase);
      if g.Err? {
        return Err(g.error), btms, ran;
      }
      GradientsUntouched(order, out, mask, ran, btms, g.value);
      NotOwnPredecessor(order, out, mask, ran);
      btms := btms[u := g.value];
      assert order[..ran + 1] == order[..ran] + [u];
      ran := ran + 1;
    }
    r := Ok(());
  }

  /**
   * Recording the output of the unit scheduled at position i changes no
   * input of the units scheduled up to i: none of them lists it as a
   * predecessor.
   */
  lemma InputsUntouched<T>(order: seq<nat>, into: seq<seq<nat>>, mask: seq<bool>, i: nat, tops: seq<map<Port, T>>, x: map<Port, T>)
    requires Scheduled(order, into, mask) && |mask| == |into| && Closed(into) && i < |order| && |tops| == |into|
    ensures forall k :: 0 <= k <= i ==> Merge(tops[order[i] := x], into[order[k]]) == Merge(tops, into[order[k]])
  {
    forall k | 0 <= k <= i
      ensures Merge(tops[order[i] := x], into[order[k]]) == Merge(tops, into[order[k]])
    {
      if k == i {
        NotOwnPredecessor(order, into, mask, i);
      } else {
        NotLaterPredecessor(order, into, mask, k, i);
      }
      MergeFrame(tops, into[order[k]], order[i], x);
    }
  }

  /** The same for the gradients of a reverse schedule. */
  lemma GradientsUntouched(order: seq<nat>, out: seq<seq<nat>>, mask: seq<bool>, i: nat, btms: seq<map<Port, real>>, x: map<Port, real>)
    requires Scheduled(order, out, mask) && |mask| == |out| && Closed(out) && i < |order| && |btms| == |out|
    ensures forall k :: 0 <= k <= i ==> Accumulate(btms[order[i] := x], out[order[k]]) == Accumulate(btms, out[order[k]])
  {
    forall k | 0 <= k <= i
      ensures Accumulate(btms[order[i] := x], out[order[k]]) == Accumulate(btms, out[order[k]])
    {
      if k == i {
        NotOwnPredecessor(order, out, mask, i);
      } else {
        NotLaterPredecessor(order, out, mask, k, i);
      }
      AccumulateFrame(btms, out[order[k]], order[i], x);
    }
  }

  /** A scheduled unit is not its own predecessor. */
  lemma NotOwnPredecessor(order: seq<nat>, into: seq<seq<nat>>, excluded: seq<bool>, i: nat)
    requires Scheduled(order, into, excluded) && i < |order| && order[i] < |into|
    ensures order[i] !in into[order[i]]
    ensures order[i] !in order[..i]
  {
    assert forall m :: 0 <= m < i ==> order[..i][m] == order[m];
  }

  /** A unit scheduled at position i is not a predecessor of one scheduled earlier. */
  lemma NotLaterPredecessor(order: seq<nat>, into: seq<seq<nat>>, excluded: seq<bool>, k: nat, i: nat)
    requires Scheduled(order, into, excluded) && k < i < |order| && order[k] < |into|
    ensures order[i] !in into[order[k]]
  {
    assert forall m :: 0 <= m < k ==> order[..k][m] == order[m];
  }
}
