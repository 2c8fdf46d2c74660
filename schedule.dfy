/**
 * Kahn's algorithm over a FIFO queue, with phase exclusion, as the network's
 * forward and reverse traversals run it (net.py, Net._toporder and
 * Net._reverse_toporder). A graph is given by two adjacency lists over the
 * unit ids 0..n-1: `out` (the edges a unit sends) and `into` (the edges a unit
 * receives). The reverse traversal is the same algorithm with the two lists
 * swapped.
 */
module Schedule {
  import opened Counting

  /** The ids 0..n-1. */
  ghost function Units(n: nat): (r: set<nat>)
    ensures forall u: int :: u in r <==> 0 <= u < n
  {
    if n == 0 then {} else Units(n - 1) + {n - 1}
  }

  /** The units that take part in a pass: those the exclusion mask does not mark. */
  ghost function Live(excluded: seq<bool>): set<nat>
  {
    set u: nat | u < |excluded| && !excluded[u]
  }

  /**
   * Both lists range over the same ids, and they mirror each other with
   * multiplicity: out[u] lists v exactly as often as into[v] lists u.
   */
  ghost predicate Mirrored(out: seq<seq<nat>>, into: seq<seq<nat>>)
  {
    && |out| == |into|
    && (forall u, j :: 0 <= u < |out| && 0 <= j < |out[u]| ==> out[u][j] < |out|)
    && (forall v, j :: 0 <= v < |into| && 0 <= j < |into[v]| ==> into[v][j] < |into|)
    && (forall u, v :: 0 <= u < |out| && 0 <= v < |out| ==> Count(out[u], v) == Count(into[v], u))
  }

  lemma MirroredSwap(out: seq<seq<nat>>, into: seq<seq<nat>>)
    requires Mirrored(out, into)
    ensures Mirrored(into, out)
  {
    forall u, v | 0 <= u < |into| && 0 <= v < |into| ensures Count(into[u], v) == Count(out[v], u) {
      assert Count(out[v], u) == Count(into[u], v);
    }
  }

  /**
   * `order` is a valid schedule: every entry is a live unit, no unit occurs
   * twice, and every live predecessor of a scheduled unit occurs strictly
   * before it.
   */
  ghost predicate Scheduled(order: seq<nat>, into: seq<seq<nat>>, excluded: seq<bool>)
  {
    && (forall i :: 0 <= i < |order| ==> order[i] < |excluded| && !excluded[order[i]])
    && (forall i, j :: 0 <= i < j < |order| ==> order[i] != order[j])
    && (forall i, p :: 0 <= i < |order| && order[i] < |into| && p in into[order[i]] && p < |excluded| && !excluded[p]
                       ==> p in order[..i])
  }

  /** Some member of S receives no edge from a member of S. */
  ghost predicate HasSource(into: seq<seq<nat>>, S: set<nat>)
  {
    exists v :: v in S && v < |into| && forall j :: 0 <= j < |into[v]| ==> into[v][j] !in S
  }

  /**
   * The graph restricted to live units has no cycle: every nonempty set of
   * live units holds a unit none of whose predecessors lies in the set.
   */
  ghost predicate Acyclic(into: seq<seq<nat>>, excluded: seq<bool>)
  {
    forall S :: S <= Live(excluded) && S != {} ==> HasSource(into, S)
  }

  /** `rank` numbers the live units so that every live edge goes up in rank. */
  ghost predicate Ranked(into: seq<seq<nat>>, excluded: seq<bool>, rank: seq<nat>)
  {
    && |rank| == |into| == |excluded|
    && forall v, j :: 0 <= v < |into| && !excluded[v] && 0 <= j < |into[v]|
                      && into[v][j] < |into| && !excluded[into[v][j]]
                      ==> rank[into[v][j]] < rank[v]
  }

  /**
   * The dependency counts Kahn's algorithm starts from: the number of edges a
   * unit receives, minus one for every edge that leaves an excluded unit.
   * That is the number of edges it receives from live units.
   */
  method InDegrees(out: seq<seq<nat>>, into: seq<seq<nat>>, excluded: seq<bool>) returns (depcount: seq<int>)
    requires Mirrored(out, into) && |excluded| == |out|
    ensures |depcount| == |into|
    ensures forall v :: 0 <= v < |into| ==> depcount[v] == CountIn(into[v], Live(excluded))
  {
    var n := |out|;
    depcount := seq(n, v requires 0 <= v < n => |into[v]|);
    ghost var pending := Units(n);
    forall v | 0 <= v < n ensures depcount[v] == CountIn(into[v], pending) {
      CountInAll(into[v], pending);
    }
    var unit := 0;
    while unit < n
      invariant 0 <= unit <= n
      invariant |depcount| == n
      invariant pending == set x: nat | x < n && (x >= unit || !excluded[x])
      invariant forall v :: 0 <= v < n ==> depcount[v] == CountIn(into[v], pending)
    {
      if excluded[unit] {
        ghost var before := depcount;
        assert unit in pending;
        depcount := Discount(out[unit], depcount);
        forall v | 0 <= v < n ensures depcount[v] == CountIn(into[v], pending - {unit}) {
          assert Count(out[unit], v) == Count(into[v], unit);
          CountInRemove(into[v], pending, unit);
        }
        pending := pending - {unit};
      }
      unit := unit + 1;
    }
    assert pending == Live(excluded);
  }

  /** Decrements the count of every entry of `succs`, once per occurrence. */
  method Discount(succs: seq<nat>, depcount: seq<int>) returns (dc: seq<int>)
    requires forall j :: 0 <= j < |succs| ==> succs[j] < |depcount|
    ensures |dc| == |depcount|
    ensures forall v :: 0 <= v < |dc| ==> dc[v] == depcount[v] - Count(succs, v)
  {
    dc := depcount;
    var k := 0;
    while k < |succs|
      invariant 0 <= k <= |succs|
      invariant |dc| == |depcount|
      invariant forall v :: 0 <= v < |dc| ==> dc[v] == depcount[v] - Count(succs[..k], v)
    {
      var l := succs[k];
      forall v | 0 <= v < |dc| ensures Count(succs[..k + 1], v) == Count(succs[..k], v) + (if l == v then 1 else 0) {
        CountSnoc(succs, k, v);
      }
      dc := dc[l := dc[l] - 1];
      k := k + 1;
    }
    assert succs[..k] == succs;
  }

  /** The initial queue: the units whose count is 0, in increasing id order. */
  method StartUnits(depcount: seq<int>) returns (queue: seq<nat>)
    ensures forall i :: 0 <= i < |queue| ==> queue[i] < |depcount|
    ensures forall i, j :: 0 <= i < j < |queue| ==> queue[i] < queue[j]
    ensures forall v :: 0 <= v < |depcount| ==> (v in queue <==> depcount[v] == 0)
  {
    queue := [];
    var unit := 0;
    while unit < |depcount|
      invariant 0 <= unit <= |depcount|
      invariant forall i :: 0 <= i < |queue| ==> queue[i] < unit
      invariant forall i, j :: 0 <= i < j < |queue| ==> queue[i] < queue[j]
      invariant forall v :: 0 <= v < |depcount| ==> (v in queue <==> v < unit && depcount[v] == 0)
    {
      if depcount[unit] == 0 {
        queue := queue + [unit];
      }
      unit := unit + 1;
    }
  }

  /** The queue holds distinct units of range that were not dequeued yet. */
  ghost predicate QueueOk(queue: seq<nat>, n: nat, dequeued: set<nat>)
  {
    && (forall i :: 0 <= i < |queue| ==> queue[i] < n && queue[i] !in dequeued)
    && (forall i, j :: 0 <= i < j < |queue| ==> queue[i] != queue[j])
  }

  /**
   * The release step after a unit is yielded: each entry of `succs` has its
   * count decremented once per occurrence, and is enqueued when the count
   * reaches 0. A unit is dequeued or queued exactly when its count is 0,
   * before and after.
   */
  method Release(succs: seq<nat>, depcount: seq<int>, queue: seq<nat>, ghost dequeued: set<nat>)
    returns (dc: seq<int>, q: seq<nat>)
    requires forall j :: 0 <= j < |succs| ==> succs[j] < |depcount|
    requires forall v :: 0 <= v < |depcount| ==> depcount[v] - Count(succs, v) >= 0
    requires QueueOk(queue, |depcount|, dequeued)
    requires forall v :: 0 <= v < |depcount| ==> ((v in dequeued || v in queue) <==> depcount[v] == 0)
    ensures |dc| == |depcount|
    ensures forall v :: 0 <= v < |dc| ==> dc[v] == depcount[v] - Count(succs, v)
    ensures QueueOk(q, |depcount|, dequeued)
    ensures forall v :: 0 <= v < |dc| ==> ((v in dequeued || v in q) <==> dc[v] == 0)
    ensures queue <= q
  {
    dc, q := depcount, queue;
    var k := 0;
    while k < |succs|
      invariant 0 <= k <= |succs|
      invariant |dc| == |depcount|
      invariant forall v :: 0 <= v < |dc| ==> dc[v] == depcount[v] - Count(succs[..k], v)
      invariant QueueOk(q, |depcount|, dequeued)
      invariant forall v :: 0 <= v < |dc| ==> ((v in dequeued || v in q) <==> dc[v] == 0)
      invariant queue <= q
    {
      var l := succs[k];
      forall v | 0 <= v < |dc| ensures Count(succs[..k + 1], v) == Count(succs[..k], v) + (if l == v then 1 else 0) {
        CountSnoc(succs, k, v);
      }
      CountPrefixBound(succs, k + 1, l);
      assert dc[l] != 0;
      assert l !in dequeued && l !in q;
      ghost var q0 := q;
      dc := dc[l := dc[l] - 1];
      if dc[l] == 0 {
        q := q + [l];
      }
      assert forall v :: v in q <==> v in q0 || (v == l && dc[l] == 0);
      k := k + 1;
    }
    assert succs[..k] == succs;
  }

  /**
   * Kahn's algorithm. Units enqueued with count 0 are dequeued in FIFO
   * order; an excluded unit is skipped, a live one is yielded and releases
   * its successors.
   */
  method KahnOrder(out: seq<seq<nat>>, into: seq<seq<nat>>, excluded: seq<bool>) returns (order: seq<nat>)
    requires Mirrored(out, into) && |excluded| == |out|
    ensures Scheduled(order, into, excluded)
    ensures Acyclic(into, excluded) ==> forall u :: 0 <= u < |out| && !excluded[u] ==> u in order
  {
    var n := |out|;
    ghost var all := Units(n);
    ghost var live := Live(excluded);
    var depcount := InDegrees(out, into, excluded);
    var queue := StartUnits(depcount);

    order := [];
    ghost var dequeued: set<nat> := {};
    ghost var yielded: set<nat> := {};
    assert live - yielded == live;
    while |queue| > 0
      invariant |depcount| == n
      invariant dequeued <= all
      invariant QueueOk(queue, n, dequeued)
      invariant forall v :: 0 <= v < n ==> depcount[v] == CountIn(into[v], live - yielded)
      invariant forall v :: 0 <= v < n ==> ((v in dequeued || v in queue) <==> depcount[v] == 0)
      invariant yielded == dequeued * live
      invariant forall x :: x in yielded <==> x in order
      invariant Scheduled(order, into, excluded)
      decreases all - dequeued
    {
      var u := queue[0];
      assert forall v :: v in queue <==> v == u || v in queue[1..];
      assert u !in yielded;
      queue := queue[1..];
      dequeued := dequeued + {u};
      if excluded[u] {
        continue;
      }
      ghost var waiting := live - yielded;
      assert u in waiting;
      YieldKeepsSchedule(order, into, excluded, u, waiting);
      order := order + [u];
      yielded := yielded + {u};
      assert live - yielded == waiting - {u};

      forall v | 0 <= v < n ensures depcount[v] - Count(out[u], v) == CountIn(into[v], live - yielded) {
        assert Count(out[u], v) == Count(into[v], u);
        CountInRemove(into[v], waiting, u);
      }
      depcount, queue := Release(out[u], depcount, queue, dequeued);
    }
    assert forall v :: 0 <= v < n ==> (v in dequeued <==> depcount[v] == 0);

    if Acyclic(into, excluded) {
      DrainedWhenAcyclic(into, excluded, depcount, dequeued, yielded);
    }
  }

  /**
   * When the queue has run dry on an acyclic graph, every live unit has
   * been yielded: otherwise the live units still waiting would hold a
   * source, whose dependency count is zero, so it would have been queued.
   */
  lemma DrainedWhenAcyclic(into: seq<seq<nat>>, excluded: seq<bool>, depcount: seq<nat>, dequeued: set<nat>, yielded: set<nat>)
    requires |depcount| == |into| == |excluded|
    requires forall v :: 0 <= v < |into| ==> depcount[v] == CountIn(into[v], Live(excluded) - yielded)
    requires forall v :: 0 <= v < |into| ==> (v in dequeued <==> depcount[v] == 0)
    requires yielded == dequeued * Live(excluded)
    requires Acyclic(into, excluded)
    ensures forall u :: 0 <= u < |into| && !excluded[u] ==> u in yielded
  {
    var S := Live(excluded) - yielded;
    if S != {} {
      assert HasSource(into, S);
      var w :| w in S && w < |into| && forall j :: 0 <= j < |into[w]| ==> into[w][j] !in S;
      CountInZero(into[w], S);
      assert false;
    }
    forall u | 0 <= u < |into| && !excluded[u]
      ensures u in yielded
    {
      assert u in Live(excluded);
      assert u !in S;
    }
  }

  /**
   * Appending a unit none of whose entries in `into` lies in `waiting` (the
   * live units not yet scheduled) keeps a schedule valid.
   */
  lemma YieldKeepsSchedule(order: seq<nat>, into: seq<seq<nat>>, excluded: seq<bool>, u: nat, waiting: set<nat>)
    requires Scheduled(order, into, excluded)
    requires u < |excluded| && !excluded[u] && u !in order
    requires waiting == Live(excluded) - (set x | x in order)
    requires u < |into| && CountIn(into[u], waiting) == 0
    ensures Scheduled(order + [u], into, excluded)
  {
    CountInZero(into[u], waiting);
    var o := order + [u];
    assert o[..|order|] == order;
    assert forall i :: 0 <= i < |order| ==> o[..i] == order[..i];
    forall p | p in into[u] && p < |excluded| && !excluded[p] ensures p in order {
      var j :| 0 <= j < |into[u]| && into[u][j] == p;
      assert p !in waiting;
    }
  }

  /** A nonempty set of ranked units holds one of least rank. */
  lemma {:induction false} LeastRanked(S: set<nat>, rank: seq<nat>) returns (v: nat)
    requires S != {} && forall w :: w in S ==> w < |rank|
    ensures v in S && forall w :: w in S ==> rank[v] <= rank[w]
    decreases S
  {
    var x :| x in S;
    if S == {x} {
      v := x;
    } else {
      var y := LeastRanked(S - {x}, rank);
      v := if rank[x] <= rank[y] then x else y;
    }
  }

  /** A ranking of the live units that every live edge climbs proves the live graph acyclic. */
  lemma RankedIsAcyclic(into: seq<seq<nat>>, excluded: seq<bool>, rank: seq<nat>)
    requires Ranked(into, excluded, rank)
    ensures Acyclic(into, excluded)
  {
    forall S | S <= Live(excluded) && S != {} ensures HasSource(into, S) {
      var v := LeastRanked(S, rank);
      assert v in Live(excluded);
      assert v in S && v < |into| && forall j :: 0 <= j < |into[v]| ==> into[v][j] !in S;
    }
  }

  /**
   * In a valid schedule no unit of a cycle of live units occurs: the
   * traversal ends without them. Here cycle[i] sends an edge to
   * cycle[(i + 1) % |cycle|].
   */
  lemma CycleIsOmitted(order: seq<nat>, into: seq<seq<nat>>, excluded: seq<bool>, cycle: seq<nat>)
    requires Scheduled(order, into, excluded)
    requires |cycle| > 0
    requires forall k :: 0 <= k < |cycle| ==> cycle[k] < |into| && cycle[k] < |excluded| && !excluded[cycle[k]]
    requires forall i, j :: 0 <= i < |cycle| && 0 <= j < |cycle| && j == (i + 1) % |cycle| ==> cycle[i] in into[cycle[j]]
    ensures forall k :: 0 <= k < |cycle| ==> cycle[k] !in order
  {
    CycleAbsentFromPrefix(order, into, excluded, cycle, |order|);
    assert order[..|order|] == order;
  }

  lemma {:induction false} CycleAbsentFromPrefix(order: seq<nat>, into: seq<seq<nat>>, excluded: seq<bool>, cycle: seq<nat>, m: nat)
    requires Scheduled(order, into, excluded)
    requires |cycle| > 0 && m <= |order|
    requires forall k :: 0 <= k < |cycle| ==> cycle[k] < |into| && cycle[k] < |excluded| && !excluded[cycle[k]]
    requires forall i, j :: 0 <= i < |cycle| && 0 <= j < |cycle| && j == (i + 1) % |cycle| ==> cycle[i] in into[cycle[j]]
    ensures forall k :: 0 <= k < |cycle| ==> cycle[k] !in order[..m]
  {
    if m > 0 {
      CycleAbsentFromPrefix(order, into, excluded, cycle, m - 1);
      assert order[..m] == order[..m - 1] + [order[m - 1]];
      forall k | 0 <= k < |cycle| ensures cycle[k] !in order[..m] {
        var k' := if k == 0 then |cycle| - 1 else k - 1;
        assert (k' + 1) % |cycle| == k;
        assert cycle[k'] in into[cycle[k]];
        assert cycle[k'] !in order[..m - 1];
      }
    }
  }
}
