/** Dependency graphs: cycles, and orders in which every node comes after its dependencies. */
module Graph {
  import opened Contracts
  import opened Results

  function Dependencies(nodes: seq<Node>, id: Id): seq<Id> {
    match FindNode(nodes, id)
    case None => []
    case Some(n) => if n.dependencies.Some? then n.dependencies.value else []
  }

  /** Every dependency names a node. */
  ghost predicate Closed(nodes: seq<Node>) {
    forall id, dep :: dep in Dependencies(nodes, id) ==> dep in Ids(nodes)
  }

  /** Each id of p depends on the next one. */
  ghost predicate IsWalk(nodes: seq<Node>, p: seq<Id>) {
    forall i :: 0 <= i < |p| - 1 ==> p[i + 1] in Dependencies(nodes, p[i])
  }

  ghost predicate IsCycle(nodes: seq<Node>, p: seq<Id>) {
    2 <= |p| && p[0] == p[|p| - 1] && IsWalk(nodes, p)
  }

  ghost predicate Acyclic(nodes: seq<Node>) {
    forall p :: !IsCycle(nodes, p)
  }

  /** In `order` every id stands after all its dependencies. */
  ghost predicate Topological(nodes: seq<Node>, order: seq<Id>) {
    forall i :: 0 <= i < |order| ==> forall dep :: dep in Dependencies(nodes, order[i]) ==> dep in order[..i]
  }

  /** Position of the first occurrence. */
  ghost function Position(order: seq<Id>, id: Id): (i: nat)
    requires id in order
    ensures i < |order| && order[i] == id && id !in order[..i]
  {
    if order[0] == id then 0
    else
      assert order == [order[0]] + order[1..];
      var rest := Position(order[1..], id);
      assert order[..rest + 1] == [order[0]] + order[1..][..rest];
      1 + rest
  }

  lemma EdgeGoesBack(nodes: seq<Node>, order: seq<Id>, id: Id, dep: Id)
    requires Topological(nodes, order) && id in order && dep in Dependencies(nodes, id)
    ensures dep in order && Position(order, dep) < Position(order, id)
  {
    var i := Position(order, id);
    assert dep in order[..i];
    var j :| 0 <= j < i && order[..i][j] == dep;
    if i <= Position(order, dep) {
      assert false;
    }
  }

  lemma {:induction false} WalkGoesBack(nodes: seq<Node>, order: seq<Id>, p: seq<Id>)
    requires Topological(nodes, order) && IsWalk(nodes, p) && 2 <= |p| && p[0] in order
    ensures p[|p| - 1] in order && Position(order, p[|p| - 1]) < Position(order, p[0])
  {
    assert p[0 + 1] in Dependencies(nodes, p[0]);
    EdgeGoesBack(nodes, order, p[0], p[1]);
    if |p| > 2 {
      var rest := p[1..];
      forall i | 0 <= i < |rest| - 1
        ensures rest[i + 1] in Dependencies(nodes, rest[i])
      {
        assert p[(i + 1) + 1] in Dependencies(nodes, p[i + 1]);
      }
      WalkGoesBack(nodes, order, rest);
    }
  }

  /** A graph whose nodes can all be put in such an order has no cycle. */
  lemma TopologicalOrderMeansAcyclic(nodes: seq<Node>, order: seq<Id>)
    requires Topological(nodes, order) && forall id :: id in Ids(nodes) ==> id in order
    ensures Acyclic(nodes)
  {
    forall p | IsCycle(nodes, p)
      ensures false
    {
      assert p[0 + 1] in Dependencies(nodes, p[0]);
      assert p[0] in Ids(nodes);
      WalkGoesBack(nodes, order, p);
    }
  }

  /** A walk that comes back to one of its own nodes contains a cycle. */
  lemma ReturnClosesCycle(nodes: seq<Node>, stack: seq<Id>, id: Id) returns (cycle: seq<Id>)
    requires IsWalk(nodes, stack) && stack != [] && id in Dependencies(nodes, stack[|stack| - 1]) && id in stack
    ensures IsCycle(nodes, cycle)
  {
    var i := Position(stack, id);
    cycle := stack[i..] + [id];
    forall k | 0 <= k < |cycle| - 1
      ensures cycle[k + 1] in Dependencies(nodes, cycle[k])
    {
      if i + k < |stack| - 1 {
        assert stack[(i + k) + 1] in Dependencies(nodes, stack[i + k]);
      }
    }
  }

  lemma ExtendWalk(nodes: seq<Node>, stack: seq<Id>, id: Id)
    requires IsWalk(nodes, stack)
    requires stack != [] ==> id in Dependencies(nodes, stack[|stack| - 1])
    ensures IsWalk(nodes, stack + [id])
  {
    var longer := stack + [id];
    forall k | 0 <= k < |longer| - 1
      ensures longer[k + 1] in Dependencies(nodes, longer[k])
    {
      if k < |stack| - 1 {
        assert stack[k + 1] in Dependencies(nodes, stack[k]);
      }
    }
  }
}
