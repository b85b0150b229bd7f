/**
 * The operations on an order. Each takes the stored order and returns the updated one or the error
 * that the service throws; the stored value itself is never changed.
 */
module Domain {
  import opened Contracts
  import opened ProjectValidation
  import opened Results

  datatype BusinessError =
    | ValidationError
    | Forbidden
    | NotFound
    | VersionConflict
    | IdempotencyConflict
    | NodeClosed
    | NodeNotReady
    | OrderExists
    | AttachmentLimit
    | ChangeNotApproved
    | ChangeAlreadyApplied
    | ChangeAlreadyDecided

  /** The members of the requesting tenant: who is enabled, and who of them is a manager. */
  datatype Directory = Directory(tenant: Id, enabled: set<Id>, managers: set<Id>) {
    predicate Active(actor: Id) {
      actor in enabled
    }

    predicate Manager(actor: Id) {
      actor in enabled && actor in managers
    }

    predicate Identity(tenant: Id, actor: Id) {
      tenant == this.tenant && Active(actor)
    }
  }

  const MAX_SAFE_INTEGER := 9_007_199_254_740_991

  predicate SafeInteger(x: int) {
    -MAX_SAFE_INTEGER <= x <= MAX_SAFE_INTEGER
  }

  function TrimStart(s: string): string {
    if s != [] && IsSpace(s[0]) then TrimStart(s[1..]) else s
  }

  function TrimEnd(s: string): string {
    if s != [] && IsSpace(s[|s| - 1]) then TrimEnd(s[..|s| - 1]) else s
  }

  function Trim(s: string): string {
    TrimEnd(TrimStart(s))
  }

  function OrEmpty(s: Option<string>): string {
    if s.Some? then s.value else ""
  }

  // ---------- Feedback ----------

  datatype FeedbackInput = FeedbackInput(
    nodeId: Id,
    expectedVersion: int,
    mode: Option<FeedbackMode>,
    percent: Option<int>,
    completed: Option<int>,
    total: Option<int>,
    blocker: Option<string>,
    expectedFinish: Option<Day>,
    materialEta: Option<Day>)

  /** The node that an operation addresses, if the caller saw the current version. */
  function Checked(o: Order, nodeId: Id, expected: int): (r: Result<nat, BusinessError>)
    ensures r.Ok? ==> o.version == expected && r.value < |o.nodes| && o.nodes[r.value].id == nodeId
                      && IndexOf(o.nodes, nodeId) == Some(r.value)
  {
    if o.version != expected then Err(VersionConflict)
    else
      match IndexOf(o.nodes, nodeId)
      case None => Err(NotFound)
      case Some(i) => Ok(i)
  }

  /** Completed and total, as the chosen mode reads them; None when the input is malformed. */
  function Quantities(input: FeedbackInput): Option<(int, int)> {
    var percentMode := input.mode == Some(Percent);
    var completed := if percentMode then input.percent else input.completed;
    var total := if percentMode then Some(100) else input.total;
    if percentMode && (input.completed.Some? || input.total.Some?) then None
    else if !percentMode && input.percent.Some? then None
    else if completed.None? || total.None? || !SafeInteger(completed.value) || !SafeInteger(total.value) then None
    else if total.value <= 0 || completed.value < 0 || total.value < completed.value then None
    else Some((completed.value, total.value))
  }

  /** completed / total * 100, halves rounded up. */
  function RoundedPercent(completed: int, total: int): (p: int)
    requires 0 <= completed <= total && 0 < total
    ensures 0 <= p <= 100
    ensures completed == total ==> p == 100
    ensures p * (2 * total) - total <= 200 * completed < p * (2 * total) + total
  {
    RoundedPercentBounds(completed, total);
    (200 * completed + total) / (2 * total)
  }

  lemma RoundedPercentBounds(completed: int, total: int)
    requires 0 <= completed <= total && 0 < total
    ensures 0 <= (200 * completed + total) / (2 * total) <= 100
    ensures completed == total ==> (200 * completed + total) / (2 * total) == 100
    ensures var p := (200 * completed + total) / (2 * total);
      p * (2 * total) - total <= 200 * completed < p * (2 * total) + total
  {
    var a, b := 200 * completed + total, 2 * total;
    assert a < 101 * b && (completed == total ==> 100 * b <= a);
    QuotientBelow(a, b, 101);
    if completed == total {
      QuotientAtLeast(a, b, 100);
    }
    QuotientAtLeast(a, b, 0);
  }

  lemma ProductMonotone(x: int, y: int, b: int)
    requires 0 < b && x <= y
    ensures x * b <= y * b
  {
  }

  lemma QuotientBelow(a: int, b: int, k: int)
    requires 0 < b && a < k * b
    ensures a / b < k
  {
    if k <= a / b {
      ProductMonotone(k, a / b, b);
    }
  }

  lemma QuotientAtLeast(a: int, b: int, k: int)
    requires 0 < b && k * b <= a
    ensures k <= a / b
  {
    var q := a / b;
    if q < k {
      ProductMonotone(q + 1, k, b);
    }
  }

  function FeedbackNode(n: Node, input: FeedbackInput, q: (int, int)): Node
    requires 0 <= q.0 <= q.1 && 0 < q.1
  {
    var blocked := Trim(OrEmpty(input.blocker)) != "";
    var kept := if blocked then n.(expectedFinish := None, materialEta := None) else n;
    kept.(
      percent := RoundedPercent(q.0, q.1),
      expectedFinish := if input.expectedFinish.Some? then input.expectedFinish else kept.expectedFinish,
      materialEta := if input.materialEta.Some? then input.materialEta else kept.materialEta,
      status := if blocked then Blocked else if q.0 == q.1 then ReportedComplete else InProgress)
  }

  function ApplyFeedback(o: Order, input: FeedbackInput, actor: Id, dir: Directory, id: Id, at: Timestamp)
    : Result<Order, BusinessError>
  {
    match Checked(o, input.nodeId, input.expectedVersion)
    case Err(e) => Err(e)
    case Ok(i) =>
      var n := o.nodes[i];
      if !dir.Identity(o.tenant, actor) || n.owner != actor then Err(Forbidden)
      else if n.status == Accepted then Err(NodeClosed)
      else if |OrEmpty(input.blocker)| > 500 then Err(ValidationError)
      else
        match Quantities(input)
        case None => Err(ValidationError)
        case Some(q) =>
          var node := FeedbackNode(n, input, q);
          var entry := Feedback(id, n.id, actor, q.0, q.1, Trim(OrEmpty(input.blocker)), at, |n.reworks|,
                                if input.mode.Some? then input.mode.value else Quantity,
                                input.expectedFinish, input.materialEta);
          Ok(o.(nodes := o.nodes[i := node],
                version := o.version + 1,
                risk := if node.status == Blocked then Attention else o.risk,
                forecast := if node.status == Blocked then None else o.forecast,
                feedback := [entry] + o.feedback))
  }

  // ---------- Assignment, acceptance, return ----------

  function AssignOwner(o: Order, nodeId: Id, owner: Id, expected: int, actor: Id, dir: Directory)
    : Result<Order, BusinessError>
  {
    if !dir.Identity(o.tenant, actor) || !dir.Manager(actor) then Err(Forbidden)
    else if !dir.Active(owner) then Err(ValidationError)
    else
      match Checked(o, nodeId, expected)
      case Err(e) => Err(e)
      case Ok(i) => Ok(o.(nodes := o.nodes[i := o.nodes[i].(owner := owner)], version := o.version + 1))
  }

  function AcceptNode(o: Order, nodeId: Id, note: Option<string>, expected: int, actor: Id, dir: Directory,
                      at: Timestamp)
    : Result<Order, BusinessError>
  {
    if !dir.Identity(o.tenant, actor) || !dir.Manager(actor) then Err(Forbidden)
    else if |OrEmpty(note)| > 500 then Err(ValidationError)
    else
      match Checked(o, nodeId, expected)
      case Err(e) => Err(e)
      case Ok(i) =>
        var n := o.nodes[i];
        if n.status == Accepted then Err(NodeClosed)
        else if n.status != ReportedComplete || n.percent != 100 then Err(NodeNotReady)
        else
          var review := Review(actor, at, Trim(OrEmpty(note)), o.version);
          Ok(o.(nodes := o.nodes[i := n.(status := Accepted, acceptance := Some(review))], version := o.version + 1))
  }

  function ReturnNode(o: Order, nodeId: Id, note: Option<string>, expected: int, actor: Id, dir: Directory,
                      at: Timestamp)
    : Result<Order, BusinessError>
  {
    if !dir.Identity(o.tenant, actor) || !dir.Manager(actor) then Err(Forbidden)
    else if Trim(OrEmpty(note)) == "" || |OrEmpty(note)| > 500 then Err(ValidationError)
    else
      match Checked(o, nodeId, expected)
      case Err(e) => Err(e)
      case Ok(i) =>
        var n := o.nodes[i];
        if n.status == Accepted then Err(NodeClosed)
        else if n.status != ReportedComplete then Err(NodeNotReady)
        else
          var rework := ReworkRecord(Review(actor, at, Trim(OrEmpty(note)), o.version), n.percent);
          var node := n.(reworks := n.reworks + [rework], status := Rework, percent := 0,
                         expectedFinish := None, materialEta := None);
          Ok(o.(nodes := o.nodes[i := node],
                risk := if o.risk == AtRisk then AtRisk else Attention,
                forecast := None,
                version := o.version + 1))
  }

  // ---------- Creation and configuration ----------

  function OwnersActive(nodes: seq<Node>, dir: Directory): bool {
    forall n :: n in nodes ==> dir.Active(n.owner)
  }

  /** Only configuration is taken from an imported node; its state starts afresh. */
  function NewNode(n: Node): Node {
    Node(n.id, Trim(n.name), n.owner, n.due, n.weight, 0, NotStarted, n.dependencies, n.durationDays, n.plannedStart,
         None, None, if n.acceptanceCriteria.Some? then Some(Trim(n.acceptanceCriteria.value)) else None, None, [])
  }

  function NewNodes(nodes: seq<Node>): (r: seq<Node>)
    ensures |r| == |nodes| && forall i :: 0 <= i < |nodes| ==> r[i] == NewNode(nodes[i])
  {
    if nodes == [] then [] else [NewNode(nodes[0])] + NewNodes(nodes[1..])
  }

  /** The order that a valid project becomes. */
  function CreatedOrder(p: ProjectInput, tenant: Id): Order {
    Order(p.id, tenant, Trim(p.product), Trim(p.customer), 1, p.due, Normal, None, NewNodes(p.nodes), [],
          p.calendar, [], [])
  }

  ghost function NewProject(p: ProjectInput, tenant: Id, actor: Id, dir: Directory): Result<Order, BusinessError> {
    if !dir.Identity(tenant, actor) || !dir.Manager(actor) then Err(Forbidden)
    else if !ValidProject(p) || !OwnersActive(p.nodes, dir) then Err(ValidationError)
    else Ok(CreatedOrder(p, tenant))
  }

  datatype ConfigurationInput = ConfigurationInput(
    expectedVersion: int,
    calendar: Option<Calendar>,
    nodes: seq<NodeConfiguration>)

  /** A configuration read as a node, as validation sees it. */
  function Unstarted(c: NodeConfiguration): Node {
    Node(c.id, c.name, c.owner, c.due, c.weight, 0, NotStarted, c.dependencies, c.durationDays, c.plannedStart,
         None, None, c.acceptanceCriteria, None, [])
  }

  function UnstartedNodes(cs: seq<NodeConfiguration>): (r: seq<Node>)
    ensures |r| == |cs| && forall i :: 0 <= i < |cs| ==> r[i] == Unstarted(cs[i])
  {
    if cs == [] then [] else [Unstarted(cs[0])] + UnstartedNodes(cs[1..])
  }

  function ConfigurationOf(n: Node): NodeConfiguration {
    NodeConfiguration(n.id, n.name, n.owner, n.due, n.weight, n.dependencies, n.durationDays, n.plannedStart,
                      n.acceptanceCriteria)
  }

  function Configurations(nodes: seq<Node>): (r: seq<NodeConfiguration>)
    ensures |r| == |nodes| && forall i :: 0 <= i < |nodes| ==> r[i] == ConfigurationOf(nodes[i])
  {
    if nodes == [] then [] else [ConfigurationOf(nodes[0])] + Configurations(nodes[1..])
  }

  function SnapshotOf(o: Order): ConfigurationSnapshot {
    ConfigurationSnapshot(o.calendar, Configurations(o.nodes))
  }

  /** The project that a configuration proposes, as validation sees it. */
  function Proposed(o: Order, input: ConfigurationInput): ProjectInput {
    ProjectInput(o.id, o.product, o.customer, o.due, input.calendar, UnstartedNodes(input.nodes))
  }

  /**
   * The node with a new configuration and its old state; an absent optional field other than plannedStart keeps its
   * value.
   */
  function ConfiguredNode(n: Node, c: Node): Node {
    n.(name := Trim(c.name), owner := c.owner, due := c.due, weight := c.weight,
       dependencies := if c.dependencies.Some? then c.dependencies else n.dependencies,
       durationDays := if c.durationDays.Some? then c.durationDays else n.durationDays,
       plannedStart := c.plannedStart,
       acceptanceCriteria := if c.acceptanceCriteria.Some? then Some(Trim(c.acceptanceCriteria.value))
                             else n.acceptanceCriteria)
  }

  function ConfiguredNodes(nodes: seq<Node>, configurations: seq<Node>): (r: seq<Node>)
    requires forall n :: n in nodes ==> FindNode(configurations, n.id).Some?
    ensures |r| == |nodes|
    ensures forall i :: 0 <= i < |nodes| ==>
      r[i] == ConfiguredNode(nodes[i], FindNode(configurations, nodes[i].id).value)
  {
    if nodes == [] then []
    else
      assert nodes == [nodes[0]] + nodes[1..];
      [ConfiguredNode(nodes[0], FindNode(configurations, nodes[0].id).value)]
      + ConfiguredNodes(nodes[1..], configurations)
  }

  /** The configuration names exactly the nodes that the order has. */
  predicate SameNodes(o: Order, nodes: seq<Node>) {
    && (forall n :: n in nodes ==> FindNode(o.nodes, n.id).Some?)
    && (forall n :: n in o.nodes ==> FindNode(nodes, n.id).Some?)
  }

  function Reconfigured(o: Order, input: ConfigurationInput, actor: Id, at: Timestamp): Order
    requires SameNodes(o, UnstartedNodes(input.nodes))
  {
    var updated := o.(calendar := input.calendar, nodes := ConfiguredNodes(o.nodes, UnstartedNodes(input.nodes)));
    var record := ConfigurationRecord(actor, at, o.version, SnapshotOf(o), SnapshotOf(updated));
    updated.(configurationHistory := o.configurationHistory + [record], version := o.version + 1, forecast := None)
  }

  ghost function ConfigureProject(o: Order, input: ConfigurationInput, actor: Id, dir: Directory, at: Timestamp)
    : Result<Order, BusinessError>
  {
    var nodes := UnstartedNodes(input.nodes);
    if !dir.Identity(o.tenant, actor) || !dir.Manager(actor) then Err(Forbidden)
    else if input.expectedVersion != o.version then Err(VersionConflict)
    else if !ValidProject(Proposed(o, input)) || !OwnersActive(nodes, dir) || !SameNodes(o, nodes)
    then Err(ValidationError)
    else Ok(Reconfigured(o, input, actor, at))
  }
}
