/** Validation of a project: fields, calendar, weights, and the depth-first search for dependency cycles. */
module ProjectValidation {
  import opened Contracts
  import opened Graph
  import opened Results
  import opened WorkCalendar

  datatype ProjectInput = ProjectInput(
    id: Id,
    product: string,
    customer: string,
    due: Day,
    calendar: Option<Calendar>,
    nodes: seq<Node>)

  const MAX_NODES: nat := 50
  const WEIGHT_TOLERANCE: real := 0.000001

  predicate IsSpace(c: char) {
    c == ' ' || '\t' <= c <= '\r' || c == '\U{A0}' || c == '\U{FEFF}' || c == '\U{1680}' || c == '\U{3000}'
    || '\U{2000}' <= c <= '\U{200A}' || c == '\U{2028}' || c == '\U{2029}' || c == '\U{202F}' || c == '\U{205F}'
  }

  predicate IsWordCharacter(c: char) {
    'a' <= c <= 'z' || 'A' <= c <= 'Z' || '0' <= c <= '9' || c == '_' || c == '-'
  }

  /** Not blank and not longer than max. */
  predicate Text(s: string, max: nat) {
    |s| <= max && exists i :: 0 <= i < |s| && !IsSpace(s[i])
  }

  predicate Identifier(s: string) {
    Text(s, 60) && forall i :: 0 <= i < |s| ==> IsWordCharacter(s[i])
  }

  predicate Distinct(s: seq<Id>) {
    forall i, j :: 0 <= i < j < |s| ==> s[i] != s[j]
  }

  predicate HeaderValid(p: ProjectInput) {
    && Identifier(p.id) && Text(p.product, 120) && Text(p.customer, 120)
    && p.calendar.Some? && ValidCalendar(p.calendar.value)
    && 1 <= |p.nodes| <= MAX_NODES && UniqueIds(p.nodes)
  }

  predicate NodeValid(n: Node, nodes: seq<Node>) {
    && Identifier(n.id) && Text(n.name, 100) && Identifier(n.owner)
    && 0.0 < n.weight <= 1.0
    && n.durationDays.Some? && 1 <= n.durationDays.value <= 365
    && n.acceptanceCriteria.Some? && Text(n.acceptanceCriteria.value, 500)
    && n.dependencies.Some? && Distinct(n.dependencies.value)
    && (forall dep :: dep in n.dependencies.value ==> dep != n.id && IndexOf(nodes, dep).Some?)
    && (n.plannedStart.Some? ==> n.plannedStart.value <= n.due)
  }

  function WeightSum(nodes: seq<Node>): real {
    if nodes == [] then 0.0 else WeightSum(nodes[..|nodes| - 1]) + nodes[|nodes| - 1].weight
  }

  predicate WeightsValid(nodes: seq<Node>) {
    -WEIGHT_TOLERANCE <= WeightSum(nodes) - 1.0 <= WEIGHT_TOLERANCE
  }

  predicate FieldsValid(p: ProjectInput) {
    && HeaderValid(p)
    && (forall i :: 0 <= i < |p.nodes| ==> NodeValid(p.nodes[i], p.nodes))
    && WeightsValid(p.nodes)
  }

  /** What a project must satisfy to be accepted. */
  ghost predicate ValidProject(p: ProjectInput) {
    FieldsValid(p) && Acyclic(p.nodes)
  }

  lemma ValidFieldsAreClosed(p: ProjectInput)
    requires FieldsValid(p)
    ensures Closed(p.nodes)
  {
    forall id, dep | dep in Dependencies(p.nodes, id)
      ensures dep in Ids(p.nodes)
    {
      var n := FindNode(p.nodes, id).value;
      assert NodeValid(n, p.nodes);
      assert IndexOf(p.nodes, dep).Some?;
    }
  }

  /** The stack is a walk of exactly the visited nodes; what is done is in topological order. */
  ghost predicate Consistent(nodes: seq<Node>, visiting: set<Id>, done: set<Id>, stack: seq<Id>, finished: seq<Id>) {
    && (forall id :: id in visiting <==> id in stack)
    && (forall id :: id in done <==> id in finished)
    && visiting !! done && visiting <= Ids(nodes)
    && IsWalk(nodes, stack) && Topological(nodes, finished)
  }

  lemma Enter(nodes: seq<Node>, visiting: set<Id>, done: set<Id>, stack: seq<Id>, finished: seq<Id>, id: Id)
    requires Consistent(nodes, visiting, done, stack, finished)
    requires id in Ids(nodes) && id !in visiting && id !in done
    requires stack != [] ==> id in Dependencies(nodes, stack[|stack| - 1])
    ensures Consistent(nodes, visiting + {id}, done, stack + [id], finished)
  {
    ExtendWalk(nodes, stack, id);
  }

  lemma Leave(nodes: seq<Node>, visiting: set<Id>, done: set<Id>, stack: seq<Id>, finished: seq<Id>, id: Id)
    requires Consistent(nodes, visiting + {id}, done, stack + [id], finished)
    requires id !in visiting && (forall x :: x in stack ==> x in visiting)
    requires forall dep :: dep in Dependencies(nodes, id) ==> dep in done
    ensures Consistent(nodes, visiting, done + {id}, stack, finished + [id])
  {
    FinishLast(nodes, finished, id);
    var longer := stack + [id];
    forall x
      ensures x in visiting <==> x in stack
    {
      assert x in longer <==> x in stack || x == id;
    }
    forall i | 0 <= i < |stack| - 1
      ensures stack[i + 1] in Dependencies(nodes, stack[i])
    {
      assert longer[i + 1] in Dependencies(nodes, longer[i]);
    }
  }

  lemma FinishLast(nodes: seq<Node>, finished: seq<Id>, id: Id)
    requires Topological(nodes, finished)
    requires forall dep :: dep in Dependencies(nodes, id) ==> dep in finished
    ensures Topological(nodes, finished + [id])
  {
    var longer := finished + [id];
    forall i, dep | 0 <= i < |longer| && dep in Dependencies(nodes, longer[i])
      ensures dep in longer[..i]
    {
      assert longer[..i] == finished[..i];
      if i < |finished| {
        assert dep in finished[..i];
      } else {
        assert finished[..i] == finished;
      }
    }
  }

  /** The search for cycles: nodes on the current path, and nodes known to reach no cycle. */
  class CycleSearch {
    const nodes: seq<Node>
    var visiting: set<Id>
    var done: set<Id>
    ghost var stack: seq<Id>
    ghost var finished: seq<Id>

    constructor (nodes: seq<Node>)
      ensures this.nodes == nodes && Valid() && stack == []
    {
      this.nodes := nodes;
      visiting, done := {}, {};
      stack, finished := [], [];
    }

    ghost predicate Valid()
      reads this
    {
      Consistent(nodes, visiting, done, stack, finished)
    }

    /** False when the search meets a node of the current path again; `cycle` is then a cycle. */
    method Visit(id: Id) returns (ok: bool, ghost cycle: seq<Id>)
      requires Valid() && Closed(nodes) && id in Ids(nodes)
      requires stack != [] ==> id in Dependencies(nodes, stack[|stack| - 1])
      modifies this
      ensures ok ==> Valid() && stack == old(stack) && visiting == old(visiting) && id in done && old(done) <= done
      ensures !ok ==> IsCycle(nodes, cycle)
      decreases Ids(nodes) - visiting, 0
    {
      cycle := [];
      if id in visiting {
        cycle := ReturnClosesCycle(nodes, stack, id);
        return false, cycle;
      }
      if id in done {
        return true, [];
      }
      ghost var path := stack;
      ghost var before := visiting;
      Enter(nodes, visiting, done, stack, finished, id);
      visiting, stack := visiting + {id}, stack + [id];
      ok, cycle := VisitAll(Dependencies(nodes, id));
      if !ok {
        return false, cycle;
      }
      Leave(nodes, before, done, path, finished, id);
      visiting, done := visiting - {id}, done + {id};
      stack, finished := path, finished + [id];
      assert visiting == before;
    }

    /** The loop over the dependencies of the node on top of the stack. */
    method VisitAll(deps: seq<Id>) returns (ok: bool, ghost cycle: seq<Id>)
      requires Valid() && Closed(nodes) && stack != [] && deps == Dependencies(nodes, stack[|stack| - 1])
      modifies this
      ensures ok ==> Valid() && stack == old(stack) && visiting == old(visiting) && old(done) <= done
      ensures ok ==> forall dep :: dep in deps ==> dep in done
      ensures !ok ==> IsCycle(nodes, cycle)
      decreases Ids(nodes) - visiting, 1
    {
      ok, cycle := true, [];
      for i := 0 to |deps|
        invariant Valid() && stack == old(stack) && visiting == old(visiting) && old(done) <= done
        invariant forall k :: 0 <= k < i ==> deps[k] in done
      {
        ok, cycle := Visit(deps[i]);
        if !ok {
          return false, cycle;
        }
      }
      ok := true;
    }

    method Run() returns (ok: bool)
      requires Valid() && stack == [] && Closed(nodes)
      modifies this
      ensures ok <==> Acyclic(nodes)
    {
      for i := 0 to |nodes|
        invariant Valid() && stack == []
        invariant forall k :: 0 <= k < i ==> nodes[k].id in done
      {
        ghost var cycle;
        ok, cycle := Visit(nodes[i].id);
        if !ok {
          assert !Acyclic(nodes);
          return false;
        }
      }
      TopologicalOrderMeansAcyclic(nodes, finished);
      ok := true;
    }
  }

  /** Accepts exactly the projects with valid fields and no dependency cycle. */
  method ValidateProject(p: ProjectInput) returns (ok: bool)
    ensures ok <==> ValidProject(p)
  {
    if !HeaderValid(p) {
      return false;
    }
    for i := 0 to |p.nodes|
      invariant forall k :: 0 <= k < i ==> NodeValid(p.nodes[k], p.nodes)
    {
      if !NodeValid(p.nodes[i], p.nodes) {
        return false;
      }
    }
    if !WeightsValid(p.nodes) {
      return false;
    }
    ValidFieldsAreClosed(p);
    var search := new CycleSearch(p.nodes);
    ok := search.Run();
  }
}
