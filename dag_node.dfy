/**
 * A node of Minerva's dataflow DAG (minerva/dag/dag_node.cpp): an id fixed
 * at construction and the sets of its successor and predecessor nodes,
 * which AddParent extends on both ends of one edge.
 */
module DagNodes {
  import opened Wrappers

  newtype uint64 = x: int | 0 <= x < 0x1_0000_0000_0000_0000

  class DagNode {
    const nodeId: uint64
    var successors: set<DagNode>
    var predecessors: set<DagNode>

    constructor (id: uint64)
      ensures nodeId == id && successors == {} && predecessors == {}
    {
      nodeId := id;
      successors, predecessors := {}, {};
    }

    /**
     * Records p as a parent: this joins p's successors and p joins this
     * node's predecessors. The result is 1 when the edge is new and 0 when
     * it was there; when only one of the two sets already held it, the
     * CHECK_EQ of the two insert results aborts.
     */
    method AddParent(p: DagNode) returns (r: Result<int>)
      modifies this, p
      ensures p.successors == old(p.successors) + {this}
      ensures predecessors == old(predecessors) + {p}
      ensures p != this ==> successors == old(successors) && p.predecessors == old(p.predecessors)
      ensures r == (if (this in old(p.successors)) != (p in old(predecessors)) then Err(CheckFailed)
                    else if this in old(p.successors) then Ok(0) else Ok(1))
      ensures Linked(this, p)
      ensures old(Mirrored(this, p)) ==> r.Ok? && Mirrored(this, p)
    {
      var predInsert := this !in p.successors;
      p.successors := p.successors + {this};
      var thisInsert := p !in predecessors;
      predecessors := predecessors + {p};
      if predInsert != thisInsert {
        return Err(CheckFailed);
      }
      r := Ok(if predInsert then 1 else 0);
    }
  }

  /** The edge from parent to child is recorded at both ends. */
  predicate Linked(child: DagNode, parent: DagNode)
    reads child, parent
  {
    parent in child.predecessors && child in parent.successors
  }

  /** The two ends agree on whether the edge from parent to child exists. */
  predicate Mirrored(child: DagNode, parent: DagNode)
    reads child, parent
  {
    (parent in child.predecessors) <==> (child in parent.successors)
  }

  /**
   * AddParent is idempotent: repeating it with the same parent returns 0
   * and leaves both nodes' sets as the first call left them.
   */
  method AddParentTwice(child: DagNode, parent: DagNode) returns (first: Result<int>, second: Result<int>)
    modifies child, parent
    ensures second == Ok(0)
    ensures old(Mirrored(child, parent)) ==> first == Ok(if old(parent in child.predecessors) then 0 else 1)
    ensures child.predecessors == old(child.predecessors) + {parent}
    ensures parent.successors == old(parent.successors) + {child}
  {
    first := child.AddParent(parent);
    ghost var preds, succs := child.predecessors, parent.successors;
    second := child.AddParent(parent);
    assert child.predecessors == preds && parent.successors == succs;
  }
}
