/** What every operation keeps of an order. */
module DomainProperties {
  import opened Contracts
  import opened Domain
  import opened Graph
  import opened ProjectValidation
  import opened Results
  import opened ScheduleProperties

  /** Finished states are complete, rework starts again from nothing. */
  predicate NodeSound(n: Node) {
    && 0 <= n.percent <= 100
    && (n.status == ReportedComplete || n.status == Accepted ==> n.percent == 100)
    && (n.status == Rework ==> n.percent == 0)
  }

  ghost predicate OrderSound(o: Order) {
    forall i :: 0 <= i < |o.nodes| ==> NodeSound(o.nodes[i])
  }

  /** The nodes stay the same ones, and an accepted one keeps its status, percent and acceptance. */
  ghost predicate NodesKept(o: Order, o': Order) {
    && |o'.nodes| == |o.nodes|
    && (forall i :: 0 <= i < |o.nodes| ==> o'.nodes[i].id == o.nodes[i].id)
    && (forall i :: 0 <= i < |o.nodes| && o.nodes[i].status == Accepted ==>
          && o'.nodes[i].status == Accepted
          && o'.nodes[i].percent == o.nodes[i].percent && o'.nodes[i].acceptance == o.nodes[i].acceptance)
  }

  /** o' is the next version of o. */
  ghost predicate Advances(o: Order, o': Order) {
    && o'.id == o.id && o'.tenant == o.tenant && o'.version == o.version + 1
    && NodesKept(o, o')
    && (OrderSound(o) ==> OrderSound(o'))
    && (Schedulable(o) ==> Schedulable(o'))
  }

  /** Nothing but the node, the version, the feedback and the stored forecast and risk may differ. */
  ghost predicate OthersKept(o: Order, o': Order, nodeId: Id) {
    && |o'.nodes| == |o.nodes|
    && (forall j :: 0 <= j < |o.nodes| && o.nodes[j].id != nodeId ==> o'.nodes[j] == o.nodes[j])
    && o' == o.(nodes := o'.nodes, version := o'.version, feedback := o'.feedback, forecast := o'.forecast,
                risk := o'.risk)
  }

  /** Every node keeps its state: what was reported, accepted and returned. */
  ghost predicate StatesKept(o: Order, o': Order) {
    && |o'.nodes| == |o.nodes|
    && forall i :: 0 <= i < |o.nodes| ==>
         var n, n' := o.nodes[i], o'.nodes[i];
         && n'.id == n.id && n'.status == n.status && n'.percent == n.percent
         && n'.expectedFinish == n.expectedFinish && n'.materialEta == n.materialEta
         && n'.acceptance == n.acceptance && n'.reworks == n.reworks
  }

  // ---------- The dependency graph under the operations ----------

  lemma {:induction false} SameIds(nodes: seq<Node>, nodes': seq<Node>, id: Id)
    requires |nodes| == |nodes'| && forall i :: 0 <= i < |nodes| ==> nodes'[i].id == nodes[i].id
    ensures IndexOf(nodes', id) == IndexOf(nodes, id)
  {
    if nodes != [] && nodes[0].id != id {
      SameIds(nodes[1..], nodes'[1..], id);
    }
  }

  /** Closedness and acyclicity depend only on which ids there are and what each depends on. */
  lemma GraphCarriesOver(nodes: seq<Node>, nodes': seq<Node>)
    requires Closed(nodes) && Acyclic(nodes)
    requires forall id :: Dependencies(nodes', id) == Dependencies(nodes, id)
    requires Ids(nodes') == Ids(nodes)
    ensures Closed(nodes') && Acyclic(nodes')
  {
    forall p | IsCycle(nodes', p)
      ensures false
    {
      forall i | 0 <= i < |p| - 1
        ensures p[i + 1] in Dependencies(nodes, p[i])
      {
        assert p[i + 1] in Dependencies(nodes', p[i]);
      }
      assert IsCycle(nodes, p);
    }
  }

  lemma IdsByIndex(nodes: seq<Node>, nodes': seq<Node>)
    requires |nodes| == |nodes'| && forall i :: 0 <= i < |nodes| ==> nodes'[i].id == nodes[i].id
    ensures Ids(nodes') == Ids(nodes)
  {
    forall id
      ensures id in Ids(nodes') <==> id in Ids(nodes)
    {
      SameIds(nodes, nodes', id);
      assert id in Ids(nodes) <==> IndexOf(nodes, id).Some?;
      assert id in Ids(nodes') <==> IndexOf(nodes', id).Some?;
    }
  }

  lemma UnchangedGraph(nodes: seq<Node>, nodes': seq<Node>)
    requires Closed(nodes) && Acyclic(nodes) && |nodes| == |nodes'|
    requires forall i :: 0 <= i < |nodes| ==>
      nodes'[i].id == nodes[i].id && nodes'[i].dependencies == nodes[i].dependencies
    ensures Closed(nodes') && Acyclic(nodes')
  {
    IdsByIndex(nodes, nodes');
    forall id
      ensures Dependencies(nodes', id) == Dependencies(nodes, id)
    {
      SameIds(nodes, nodes', id);
    }
    GraphCarriesOver(nodes, nodes');
  }

  /** Replacing one node that is not accepted, keeping its id and dependencies, advances the order. */
  lemma OneNodeChanged(o: Order, o': Order, i: nat)
    requires i < |o.nodes| && |o'.nodes| == |o.nodes| && o'.nodes == o.nodes[i := o'.nodes[i]]
    requires o'.id == o.id && o'.tenant == o.tenant && o'.version == o.version + 1 && o'.calendar == o.calendar
    requires o'.nodes[i].id == o.nodes[i].id && o'.nodes[i].dependencies == o.nodes[i].dependencies
    requires o.nodes[i].status == Accepted ==>
      o'.nodes[i].status == Accepted
      && o'.nodes[i].percent == o.nodes[i].percent && o'.nodes[i].acceptance == o.nodes[i].acceptance
    requires NodeSound(o.nodes[i]) ==> NodeSound(o'.nodes[i])
    ensures Advances(o, o')
  {
    if Schedulable(o) {
      UnchangedGraph(o.nodes, o'.nodes);
    }
  }

  lemma FeedbackAdvances(o: Order, input: FeedbackInput, actor: Id, dir: Directory, id: Id, at: Timestamp)
    requires ApplyFeedback(o, input, actor, dir, id, at).Ok?
    ensures var o' := ApplyFeedback(o, input, actor, dir, id, at).value;
      && Advances(o, o') && OthersKept(o, o', input.nodeId) && o'.approvedChanges == o.approvedChanges
      && |o'.feedback| == |o.feedback| + 1 && o'.feedback[0].id == id && o'.feedback[1..] == o.feedback
  {
    var o' := ApplyFeedback(o, input, actor, dir, id, at).value;
    var i := Checked(o, input.nodeId, input.expectedVersion).value;
    OneNodeChanged(o, o', i);
  }

  lemma AssignAdvances(o: Order, nodeId: Id, owner: Id, expected: int, actor: Id, dir: Directory)
    requires AssignOwner(o, nodeId, owner, expected, actor, dir).Ok?
    ensures var o' := AssignOwner(o, nodeId, owner, expected, actor, dir).value;
      Advances(o, o') && OthersKept(o, o', nodeId) && o'.approvedChanges == o.approvedChanges
      && o'.feedback == o.feedback
  {
    var o' := AssignOwner(o, nodeId, owner, expected, actor, dir).value;
    OneNodeChanged(o, o', Checked(o, nodeId, expected).value);
  }

  lemma AcceptAdvances(o: Order, nodeId: Id, note: Option<string>, expected: int, actor: Id, dir: Directory,
                       at: Timestamp)
    requires AcceptNode(o, nodeId, note, expected, actor, dir, at).Ok?
    ensures var o' := AcceptNode(o, nodeId, note, expected, actor, dir, at).value;
      Advances(o, o') && OthersKept(o, o', nodeId) && o'.approvedChanges == o.approvedChanges
      && o'.feedback == o.feedback
  {
    var o' := AcceptNode(o, nodeId, note, expected, actor, dir, at).value;
    OneNodeChanged(o, o', Checked(o, nodeId, expected).value);
  }

  lemma ReturnAdvances(o: Order, nodeId: Id, note: Option<string>, expected: int, actor: Id, dir: Directory,
                       at: Timestamp)
    requires ReturnNode(o, nodeId, note, expected, actor, dir, at).Ok?
    ensures var o' := ReturnNode(o, nodeId, note, expected, actor, dir, at).value;
      Advances(o, o') && OthersKept(o, o', nodeId) && o'.approvedChanges == o.approvedChanges
      && o'.feedback == o.feedback
  {
    var o' := ReturnNode(o, nodeId, note, expected, actor, dir, at).value;
    OneNodeChanged(o, o', Checked(o, nodeId, expected).value);
  }

  /** A new project starts sound, and its schedule can be evaluated. */
  lemma NewProjectIsSound(p: ProjectInput, tenant: Id, actor: Id, dir: Directory)
    requires NewProject(p, tenant, actor, dir).Ok?
    ensures var o := NewProject(p, tenant, actor, dir).value;
      && o.id == p.id && o.version == 1 && o.approvedChanges == [] && o.feedback == []
      && OrderSound(o) && Schedulable(o)
  {
    var o := NewProject(p, tenant, actor, dir).value;
    ValidFieldsAreClosed(p);
    UnchangedGraph(p.nodes, o.nodes);
  }

  lemma ConfiguredDependencies(nodes: seq<Node>, conf: seq<Node>, id: Id)
    requires forall n :: n in nodes ==> FindNode(conf, n.id).Some?
    requires forall c :: c in conf ==> c.dependencies.Some? && FindNode(nodes, c.id).Some?
    ensures Dependencies(ConfiguredNodes(nodes, conf), id) == Dependencies(conf, id)
    ensures id in Ids(ConfiguredNodes(nodes, conf)) <==> id in Ids(conf)
  {
    ConfiguredIds(nodes, conf, id);
    SameIds(nodes, ConfiguredNodes(nodes, conf), id);
    if FindNode(nodes, id).Some? {
      var i := IndexOf(nodes, id).value;
      assert nodes[i] in nodes;
      var c := FindNode(conf, id).value;
      assert c in conf && ConfiguredNodes(nodes, conf)[i] == ConfiguredNode(nodes[i], c);
    }
  }

  /** Nodes and configurations name the same ids. */
  lemma ConfiguredIds(nodes: seq<Node>, conf: seq<Node>, id: Id)
    requires forall n :: n in nodes ==> FindNode(conf, n.id).Some?
    requires forall c :: c in conf ==> FindNode(nodes, c.id).Some?
    ensures FindNode(nodes, id).Some? <==> FindNode(conf, id).Some?
    ensures id in Ids(ConfiguredNodes(nodes, conf)) <==> id in Ids(conf)
  {
    IdsByIndex(nodes, ConfiguredNodes(nodes, conf));
    assert id in Ids(nodes) <==> FindNode(nodes, id).Some?;
    assert id in Ids(conf) <==> FindNode(conf, id).Some?;
  }

  lemma ConfigurationsHaveDependencies(p: ProjectInput)
    requires FieldsValid(p)
    ensures forall c :: c in p.nodes ==> c.dependencies.Some?
  {
    forall c | c in p.nodes
      ensures c.dependencies.Some?
    {
      var i :| 0 <= i < |p.nodes| && p.nodes[i] == c;
      assert NodeValid(p.nodes[i], p.nodes);
    }
  }

  lemma ConfiguredGraph(nodes: seq<Node>, conf: seq<Node>)
    requires forall n :: n in nodes ==> FindNode(conf, n.id).Some?
    requires forall c :: c in conf ==> c.dependencies.Some? && FindNode(nodes, c.id).Some?
    requires Closed(conf) && Acyclic(conf)
    ensures Closed(ConfiguredNodes(nodes, conf)) && Acyclic(ConfiguredNodes(nodes, conf))
  {
    forall id
      ensures Dependencies(ConfiguredNodes(nodes, conf), id) == Dependencies(conf, id)
      ensures id in Ids(ConfiguredNodes(nodes, conf)) <==> id in Ids(conf)
    {
      ConfiguredDependencies(nodes, conf, id);
    }
    GraphCarriesOver(conf, ConfiguredNodes(nodes, conf));
  }

  /** A new configuration changes no node's state. */
  lemma ConfigurationKeepsStates(o: Order, o': Order, conf: seq<Node>)
    requires forall n :: n in o.nodes ==> FindNode(conf, n.id).Some?
    requires o'.nodes == ConfiguredNodes(o.nodes, conf)
    ensures StatesKept(o, o')
  {
    forall i | 0 <= i < |o.nodes|
      ensures o'.nodes[i] == ConfiguredNode(o.nodes[i], FindNode(conf, o.nodes[i].id).value)
    {
    }
  }

  lemma KeptStatesStaySound(o: Order, o': Order)
    requires StatesKept(o, o')
    ensures NodesKept(o, o') && (OrderSound(o) ==> OrderSound(o'))
  {
    if OrderSound(o) {
      forall i | 0 <= i < |o'.nodes|
        ensures NodeSound(o'.nodes[i])
      {
        assert NodeSound(o.nodes[i]);
      }
    }
  }

  lemma ReconfiguredIsSchedulable(o: Order, input: ConfigurationInput, actor: Id, at: Timestamp)
    requires SameNodes(o, UnstartedNodes(input.nodes)) && ValidProject(Proposed(o, input))
    ensures Schedulable(Reconfigured(o, input, actor, at))
  {
    var p := Proposed(o, input);
    ValidFieldsAreClosed(p);
    ConfigurationsHaveDependencies(p);
    ConfiguredGraph(o.nodes, p.nodes);
  }

  lemma ConfigureAdvances(o: Order, input: ConfigurationInput, actor: Id, dir: Directory, at: Timestamp)
    requires ConfigureProject(o, input, actor, dir, at).Ok?
    ensures var o' := ConfigureProject(o, input, actor, dir, at).value;
      && Advances(o, o') && StatesKept(o, o') && Schedulable(o')
      && o'.approvedChanges == o.approvedChanges && o'.feedback == o.feedback
  {
    ReconfiguredIsSchedulable(o, input, actor, at);
    ConfigurationKeepsStates(o, Reconfigured(o, input, actor, at), UnstartedNodes(input.nodes));
    KeptStatesStaySound(o, Reconfigured(o, input, actor, at));
  }
}
