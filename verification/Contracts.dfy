/**
 * Sampling orders and their nodes.
 *
 * A date is the number of days since 1970-01-01 and a timestamp the number of milliseconds since then,
 * so that the service's order of date strings is the order of integers.
 */
module Contracts {
  import opened Results

  type Id = string
  type Day = int
  type Timestamp = int

  datatype Status = NotStarted | InProgress | Blocked | ReportedComplete | Accepted | Rework
  datatype Risk = Normal | Attention | AtRisk

  datatype Review = Review(actor: Id, at: Timestamp, note: string, sourceVersion: int)
  datatype ReworkRecord = ReworkRecord(review: Review, previousPercent: int)

  datatype Node = Node(
    id: Id,
    name: string,
    owner: Id,
    due: Day,
    weight: real,
    percent: int,
    status: Status,
    dependencies: Option<seq<Id>>,
    durationDays: Option<int>,
    plannedStart: Option<Day>,
    expectedFinish: Option<Day>,
    materialEta: Option<Day>,
    acceptanceCriteria: Option<string>,
    acceptance: Option<Review>,
    reworks: seq<ReworkRecord>)

  datatype Calendar = Calendar(weekdays: seq<int>, holidays: seq<Day>)

  datatype FeedbackMode = Quantity | Percent

  datatype Feedback = Feedback(
    id: Id,
    nodeId: Id,
    actor: Id,
    completed: int,
    total: int,
    blocker: string,
    at: Timestamp,
    round: nat,
    mode: FeedbackMode,
    expectedFinish: Option<Day>,
    materialEta: Option<Day>)

  datatype NodeConfiguration = NodeConfiguration(
    id: Id,
    name: string,
    owner: Id,
    due: Day,
    weight: real,
    dependencies: Option<seq<Id>>,
    durationDays: Option<int>,
    plannedStart: Option<Day>,
    acceptanceCriteria: Option<string>)

  datatype ConfigurationSnapshot = ConfigurationSnapshot(calendar: Option<Calendar>, nodes: seq<NodeConfiguration>)

  datatype ConfigurationRecord = ConfigurationRecord(
    actor: Id,
    at: Timestamp,
    sourceVersion: int,
    before: ConfigurationSnapshot,
    after: ConfigurationSnapshot)

  datatype ApprovedChange = ApprovedChange(
    changeId: Id,
    extraCostCents: int,
    reason: string,
    approvedBy: Option<Id>,
    sourceVersion: int)

  datatype Order = Order(
    id: Id,
    tenant: Id,
    product: string,
    customer: string,
    version: int,
    due: Day,
    risk: Risk,
    forecast: Option<Day>,
    nodes: seq<Node>,
    feedback: seq<Feedback>,
    calendar: Option<Calendar>,
    configurationHistory: seq<ConfigurationRecord>,
    approvedChanges: seq<ApprovedChange>)

  /** Index of the first node with the given id. */
  function IndexOf(nodes: seq<Node>, id: Id): (r: Option<nat>)
    ensures r.Some? ==>
      r.value < |nodes| && nodes[r.value].id == id && forall i :: 0 <= i < r.value ==> nodes[i].id != id
    ensures r.None? <==> forall n :: n in nodes ==> n.id != id
  {
    if nodes == [] then None
    else if nodes[0].id == id then Some(0)
    else
      match IndexOf(nodes[1..], id)
      case None => None
      case Some(i) => Some(i + 1)
  }

  function FindNode(nodes: seq<Node>, id: Id): (r: Option<Node>)
    ensures r.Some? ==> r.value in nodes && r.value.id == id
    ensures r.None? <==> forall n :: n in nodes ==> n.id != id
  {
    match IndexOf(nodes, id)
    case None => None
    case Some(i) => Some(nodes[i])
  }

  ghost function Ids(nodes: seq<Node>): set<Id> {
    set n | n in nodes :: n.id
  }

  predicate UniqueIds(nodes: seq<Node>) {
    forall i, j :: 0 <= i < j < |nodes| ==> nodes[i].id != nodes[j].id
  }
}
