/**
 * The patrol of one tenant. A run looks at the selected objects, one after the other, and keeps for each issue
 * whether it is present, since when, and in which episode; it fills the inbox, once per issue and business date,
 * and escalates what has lasted too long, once per episode. A run commits as a whole or not at all.
 *
 * Times are milliseconds since 1970; one run has one time throughout.
 */
module Patrol {
  import Domain
  import opened Exceptions
  import opened Results

  datatype Policy = Policy(
    enabled: bool,
    intervalMinutes: int,
    weekdays: seq<int>,
    startHour: int,
    endHour: int,
    orderIds: Option<seq<string>>,
    escalationAfterHours: Option<int>)

  datatype PolicyRow = PolicyRow(version: int, policy: Policy, nextRunAt: int)

  datatype IssueState = IssueState(firstSeenAt: int, active: bool, episode: nat)

  datatype InboxRow = InboxRow(sourceVersion: int, owner: string, summary: string)

  datatype Escalation = Escalation(owner: string, summary: string, createdAt: int)

  /** What a notification is about; at most one is queued for each. */
  datatype Topic = InInbox(id: IssueId, date: int) | Escalated(id: IssueId, episode: nat)

  datatype Notice = Notice(orderId: string, issue: string, summary: string, owner: string)

  datatype PatrolBoard = PatrolBoard(
    states: map<IssueId, IssueState>,
    inbox: map<(IssueId, int), InboxRow>,
    escalations: map<(IssueId, nat), Escalation>,
    notices: map<Topic, Notice>)

  /** One object as one run sees it: the exceptions of the tenant, the waiting time, and a manager to turn to. */
  datatype Look = Look(
    at: int,
    facts: Observation,
    records: map<IssueId, Record>,
    hours: int,
    manager: Option<string>)

  datatype PatrolRun = PatrolRun(policyVersion: int, objectCount: nat, issueCount: int)

  datatype PatrolError = InvalidPolicy | ReconciliationFailed | NoManager

  const HOUR := 3_600_000
  const DAY := 24 * HOUR
  const DEFAULT_HOURS := 24

  // ---------- Policy ----------

  predicate DistinctNumbers(s: seq<int>) {
    forall i, j :: 0 <= i < j < |s| ==> s[i] != s[j]
  }

  predicate DistinctIds(s: seq<string>) {
    forall i, j :: 0 <= i < j < |s| ==> s[i] != s[j]
  }

  predicate ValidOrderId(x: string) {
    Domain.Trim(x) != "" && x == Domain.Trim(x) && |x| <= 120
  }

  predicate ValidPolicy(p: Policy) {
    && 1 <= p.intervalMinutes <= 1440
    && 1 <= |p.weekdays| <= 7 && DistinctNumbers(p.weekdays)
    && (forall i :: 0 <= i < |p.weekdays| ==> 0 <= p.weekdays[i] <= 6)
    && 0 <= p.startHour < p.endHour <= 24
    && (p.orderIds.Some? ==>
          && |p.orderIds.value| <= 200 && DistinctIds(p.orderIds.value)
          && forall i :: 0 <= i < |p.orderIds.value| ==> ValidOrderId(p.orderIds.value[i]))
    && (p.escalationAfterHours.Some? ==> 1 <= p.escalationAfterHours.value <= 720)
  }

  /** The day in Shanghai, eight hours ahead. */
  function BusinessDate(at: int): int {
    (at + 8 * HOUR) / DAY
  }

  predicate InWindow(p: Policy, now: int) {
    var weekday := (BusinessDate(now) + 4) % 7;
    var hour := (now + 8 * HOUR) % DAY / HOUR;
    p.enabled && weekday in p.weekdays && p.startHour <= hour < p.endHour
  }

  /** The objects in the policy's scope; an empty list of ids means all. */
  function Selected(p: Policy, all: seq<Observation>): seq<Observation> {
    if p.orderIds.None? || p.orderIds.value == [] then all else InScope(p.orderIds.value, all)
  }

  function InScope(scope: seq<string>, all: seq<Observation>): seq<Observation> {
    if all == [] then []
    else (if all[0].id in scope then [all[0]] else []) + InScope(scope, all[1..])
  }

  function WaitingHours(p: Policy): int {
    if p.escalationAfterHours.Some? then p.escalationAfterHours.value else DEFAULT_HOURS
  }

  function LooksAt(row: PolicyRow, now: int, objects: seq<Observation>, records: map<IssueId, Record>,
                   manager: Option<string>)
    : (looks: seq<Look>)
    ensures |looks| == |objects|
    ensures forall i :: 0 <= i < |looks| ==>
      looks[i] == Look(now, objects[i], records, WaitingHours(row.policy), manager)
  {
    if objects == [] then []
    else
      [Look(now, objects[0], records, WaitingHours(row.policy), manager)]
      + LooksAt(row, now, objects[1..], records, manager)
  }

  // ---------- One look ----------

  predicate Outstanding(e: Record) {
    e.status == Open || e.status == InProgress
  }

  /** The issues reported on the object. */
  function ObservedIds(look: Look): set<IssueId> {
    IssueIds(look.facts)
  }

  function OutstandingIds(look: Look): set<IssueId> {
    set id | id in look.records && id.objectId == look.facts.id && Outstanding(look.records[id])
  }

  /** An issue is present if it is reported or people are still working on it. */
  function PresentIds(look: Look): (r: set<IssueId>)
    ensures forall id :: id in r ==> id.objectId == look.facts.id
  {
    ObservedIds(look) + OutstandingIds(look)
  }

  /** Summary and responsible person of a present issue: the owner of its exception if there is one. */
  function Subject(look: Look, id: IssueId): Issue
    requires id in PresentIds(look)
  {
    match IssueOf(look.facts.issues, id.issueKey)
    case Some(issue) => issue.(owner := if id in look.records then look.records[id].owner else issue.owner)
    case None => Issue(id.issueKey, look.records[id].owner, look.records[id].summary)
  }

  /** An inactive or unknown issue starts an episode; an active one stays in the one it is in. */
  function Raised(states: map<IssueId, IssueState>, id: IssueId, at: int): IssueState {
    if id !in states then IssueState(at, true, 1)
    else if states[id].active then states[id]
    else IssueState(at, true, states[id].episode + 1)
  }

  function StateAfter(states: map<IssueId, IssueState>, look: Look, id: IssueId): IssueState
    requires id in states.Keys + PresentIds(look)
  {
    if id in PresentIds(look) then Raised(states, id, look.at)
    else if id.objectId == look.facts.id then states[id].(active := false)
    else states[id]
  }

  /** The episode has lasted long enough, and nobody has declared the exception dealt with. */
  predicate Due(look: Look, id: IssueId, state: IssueState) {
    && look.at - state.firstSeenAt >= look.hours * HOUR
    && !(id in look.records && (look.records[id].status == Resolved || look.records[id].status == Closed))
  }

  function DueIds(states: map<IssueId, IssueState>, look: Look): set<IssueId> {
    set id | id in PresentIds(look) && Due(look, id, Raised(states, id, look.at))
  }

  function EscalationKey(states: map<IssueId, IssueState>, look: Look, id: IssueId): (IssueId, nat) {
    (id, Raised(states, id, look.at).episode)
  }

  function NewInbox(b: PatrolBoard, look: Look): set<(IssueId, int)> {
    set id | id in ObservedIds(look) && (id, BusinessDate(look.at)) !in b.inbox :: (id, BusinessDate(look.at))
  }

  function NewEscalations(b: PatrolBoard, look: Look): set<(IssueId, nat)> {
    set id | id in DueIds(b.states, look) && EscalationKey(b.states, look, id) !in b.escalations
           :: EscalationKey(b.states, look, id)
  }

  function NewTopics(b: PatrolBoard, look: Look): set<Topic> {
    (set key | key in NewInbox(b, look) :: InInbox(key.0, key.1))
    + (set key | key in NewEscalations(b, look) :: Escalated(key.0, key.1))
  }

  function Inboxed(look: Look, id: IssueId): InboxRow
    requires id in PresentIds(look)
  {
    InboxRow(look.facts.version, Subject(look, id).owner, Subject(look, id).summary)
  }

  function EscalationOf(look: Look, id: IssueId): Escalation
    requires id in PresentIds(look) && look.manager.Some?
  {
    Escalation(look.manager.value, Subject(look, id).summary, look.at)
  }

  function NoticeOf(look: Look, topic: Topic): Notice
    requires topic.id in PresentIds(look) && (topic.Escalated? ==> look.manager.Some?)
  {
    Notice(look.facts.id, topic.id.issueKey, Subject(look, topic.id).summary,
           if topic.InInbox? then Subject(look, topic.id).owner else look.manager.value)
  }

  /** A look at which something is due while the tenant has no manager fails, and with it the whole run. */
  predicate Fails(b: PatrolBoard, look: Look) {
    look.manager.None? && DueIds(b.states, look) != {}
  }

  function StatesAfter(states: map<IssueId, IssueState>, look: Look): map<IssueId, IssueState> {
    map id | id in states.Keys + PresentIds(look) :: StateAfter(states, look, id)
  }

  function InboxAfter(b: PatrolBoard, look: Look): map<(IssueId, int), InboxRow> {
    map key | key in b.inbox.Keys + NewInbox(b, look) :: if key in b.inbox then b.inbox[key] else Inboxed(look, key.0)
  }

  function EscalationsAfter(b: PatrolBoard, look: Look): map<(IssueId, nat), Escalation>
    requires !Fails(b, look)
  {
    map key | key in b.escalations.Keys + NewEscalations(b, look) ::
      if key in b.escalations then b.escalations[key] else EscalationOf(look, key.0)
  }

  function NoticesAfter(b: PatrolBoard, look: Look): map<Topic, Notice>
    requires !Fails(b, look)
  {
    map topic | topic in b.notices.Keys + NewTopics(b, look) ::
      if topic in b.notices then b.notices[topic] else NoticeOf(look, topic)
  }

  function Inspect(b: PatrolBoard, look: Look): PatrolBoard
    requires !Fails(b, look)
  {
    PatrolBoard(StatesAfter(b.states, look), InboxAfter(b, look), EscalationsAfter(b, look), NoticesAfter(b, look))
  }

  function InspectAll(b: PatrolBoard, looks: seq<Look>): Result<PatrolBoard, PatrolError>
    decreases |looks|
  {
    if looks == [] then Ok(b)
    else if Fails(b, looks[0]) then Err(NoManager)
    else InspectAll(Inspect(b, looks[0]), looks[1..])
  }

  // ---------- What is new, row by row ----------

  lemma NewInboxMeans(b: PatrolBoard, look: Look, key: (IssueId, int))
    ensures key in NewInbox(b, look) <==>
      key.0 in ObservedIds(look) && key.1 == BusinessDate(look.at) && key !in b.inbox
  {
    if key.0 in ObservedIds(look) && key.1 == BusinessDate(look.at) {
      assert key == (key.0, BusinessDate(look.at));
    }
  }

  lemma NewEscalationMeans(b: PatrolBoard, look: Look, key: (IssueId, nat))
    ensures key in NewEscalations(b, look) <==>
            && key.0 in PresentIds(look) && Due(look, key.0, Raised(b.states, key.0, look.at))
            && Raised(b.states, key.0, look.at).episode == key.1 && key !in b.escalations
  {
    var id := key.0;
    if id in DueIds(b.states, look) && Raised(b.states, id, look.at).episode == key.1 {
      assert EscalationKey(b.states, look, id) == key;
    }
  }

  lemma NewTopicMeans(b: PatrolBoard, look: Look, topic: Topic)
    ensures topic in NewTopics(b, look) <==>
            match topic
            case InInbox(id, date) => (id, date) in NewInbox(b, look)
            case Escalated(id, episode) => (id, episode) in NewEscalations(b, look)
  {
    match topic
    case InInbox(id, date) =>
      if (id, date) in NewInbox(b, look) {
        assert topic == InInbox((id, date).0, (id, date).1);
      }
    case Escalated(id, episode) =>
      if (id, episode) in NewEscalations(b, look) {
        assert topic == Escalated((id, episode).0, (id, episode).1);
      }
  }
}
