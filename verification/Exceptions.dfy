/**
 * Exceptions of one tenant: a record for every issue that a patrol has ever observed on an object, kept in step
 * with the observations and moved on by members. Every transaction holds the tenant's lock.
 *
 * A record is known by its object and issue; its random id is left out, and so is the wall clock of its log.
 */
module Exceptions {
  import Domain
  import Fields = ProjectValidation
  import opened Results

  type Key = string

  datatype ExceptionStatus = Open | InProgress | Resolved | Closed

  datatype IssueId = IssueId(objectId: string, issueKey: string)

  datatype Issue = Issue(key: string, owner: string, summary: string)

  datatype Observation = Observation(id: string, version: int, observedAt: Option<int>, issues: seq<Issue>)

  datatype AuditEvent =
    | Created
    | Reopened
    | SourceReappeared
    | EvidenceUpdated
    | SourceCleared
    | Transitioned
    | Assigned

  datatype AuditEntry = AuditEntry(
    event: AuditEvent,
    actor: string,
    note: string,
    version: int,
    change: Option<(ExceptionStatus, ExceptionStatus)>,
    owner: string)

  datatype Record = Record(
    id: IssueId,
    sourceVersion: int,
    owner: string,
    summary: string,
    status: ExceptionStatus,
    sourceClear: bool,
    version: int,
    audit: seq<AuditEntry>)

  /** The observation of an object that was last accepted. */
  datatype Source = Source(version: int, observedAt: int)

  datatype TransitionInput = TransitionInput(
    expectedVersion: int,
    status: Option<ExceptionStatus>,
    owner: Option<string>,
    note: string)

  datatype Mutation = Mutation(actor: string, id: IssueId, input: TransitionInput, response: Record)

  datatype ExceptionError =
    | ValidationError
    | Forbidden
    | NotFound
    | VersionConflict
    | IdempotencyConflict
    | InvalidTransition
    | SourceNotClear

  /** The members of the tenant: all of them, the enabled ones, and those with the manager role. */
  datatype Members = Members(known: set<string>, enabled: set<string>, managers: set<string>)

  datatype Board = Board(records: map<IssueId, Record>, sources: map<string, Source>, mutations: map<Key, Mutation>)

  const PATROL := "patrol"
  const MAX_OBJECTS := 10000

  // ---------- Observations ----------

  /** An observation without a time counts as made in 1970. */
  function Moment(o: Observation): int {
    if o.observedAt.Some? then o.observedAt.value else 0
  }

  function IssueOf(issues: seq<Issue>, key: string): (r: Option<Issue>)
    ensures r.Some? ==> r.value in issues && r.value.key == key
    ensures r.None? <==> forall issue :: issue in issues ==> issue.key != key
  {
    if issues == [] then None else if issues[0].key == key then Some(issues[0]) else IssueOf(issues[1..], key)
  }

  predicate ValidIssue(issue: Issue, known: set<string>) {
    && Fields.Text(issue.key, 200) && Fields.Identifier(issue.owner) && issue.owner in known
    && Fields.Text(issue.summary, 2000)
  }

  predicate DistinctKeys(issues: seq<Issue>) {
    forall i, j :: 0 <= i < j < |issues| ==> issues[i].key != issues[j].key
  }

  predicate ValidObservation(o: Observation, known: set<string>) {
    && Fields.Text(o.id, 120) && 1 <= o.version <= Domain.MAX_SAFE_INTEGER
    && (forall i :: 0 <= i < |o.issues| ==> ValidIssue(o.issues[i], known)) && DistinctKeys(o.issues)
  }

  predicate DistinctObjects(objects: seq<Observation>) {
    forall i, j :: 0 <= i < j < |objects| ==> objects[i].id != objects[j].id
  }

  predicate ValidBatch(objects: seq<Observation>, known: set<string>) {
    && |objects| <= MAX_OBJECTS && DistinctObjects(objects)
    && forall i :: 0 <= i < |objects| ==> ValidObservation(objects[i], known)
  }

  // ---------- Reconciliation ----------

  function Logged(e: Record, event: AuditEvent, actor: string, note: string, from: Option<ExceptionStatus>): Record {
    var change := if from.Some? then Some((from.value, e.status)) else None;
    e.(audit := e.audit + [AuditEntry(event, actor, note, e.version, change, e.owner)])
  }

  function Opened(o: Observation, issue: Issue): Record {
    var e := Record(IssueId(o.id, issue.key), o.version, issue.owner, issue.summary, Open, false, 1, []);
    Logged(e, Created, PATROL, "巡检发现异常", None)
  }

  /** The issue is observed and has a record: a closed one is opened again, any other keeps its status. */
  function SeenAgain(e: Record, o: Observation, issue: Issue): Record {
    var event := if e.status.Closed? then Reopened else if e.sourceClear then SourceReappeared else EvidenceUpdated;
    var seen := e.(sourceVersion := o.version, summary := issue.summary, sourceClear := false, version := e.version + 1,
                   status := if e.status.Closed? then Open else e.status);
    Logged(seen, event, PATROL, "巡检更新业务依据", Some(e.status))
  }

  function Cleared(e: Record, o: Observation): Record {
    Logged(e.(sourceClear := true, sourceVersion := o.version, version := e.version + 1),
           SourceCleared, PATROL, "业务异常已消失，等待人工完成处理", None)
  }

  /** Neither an older version nor an earlier moment, nor the very observation accepted last. */
  predicate Accepts(sources: map<string, Source>, o: Observation) {
    o.id in sources ==>
      var source := sources[o.id];
      !(source.version > o.version || Moment(o) < source.observedAt
        || (source.version == o.version && Moment(o) == source.observedAt))
  }

  function IssueIds(o: Observation): set<IssueId> {
    set issue | issue in o.issues :: IssueId(o.id, issue.key)
  }

  /** The ids of the first n issues observed. */
  ghost function IdsUpTo(o: Observation, n: nat): set<IssueId>
    requires n <= |o.issues|
  {
    if n == 0 then {} else IdsUpTo(o, n - 1) + {IssueId(o.id, o.issues[n - 1].key)}
  }

  lemma {:induction false} FirstIds(o: Observation, n: nat)
    requires n <= |o.issues|
    ensures IdsUpTo(o, n) <= IssueIds(o)
    ensures n == |o.issues| ==> IdsUpTo(o, n) == IssueIds(o)
  {
    IdsByPosition(o, n);
    forall k | 0 <= k < n
      ensures IssueId(o.id, o.issues[k].key) in IssueIds(o)
    {
      assert o.issues[k] in o.issues;
    }
  }

  lemma {:induction false} IdsByPosition(o: Observation, n: nat)
    requires n <= |o.issues|
    ensures forall id :: id in IdsUpTo(o, n) <==> exists k :: 0 <= k < n && IssueId(o.id, o.issues[k].key) == id
  {
    if n > 0 {
      IdsByPosition(o, n - 1);
    }
  }

  /** The record of an issue after the object was observed. */
  function RecordAfter(records: map<IssueId, Record>, o: Observation, id: IssueId): Record
    requires id in records.Keys + IssueIds(o)
  {
    if id.objectId != o.id then records[id]
    else
      match IssueOf(o.issues, id.issueKey)
      case Some(issue) => if id in records then SeenAgain(records[id], o, issue) else Opened(o, issue)
      case None => if records[id].sourceClear then records[id] else Cleared(records[id], o)
  }

  function Observe(b: Board, o: Observation): Board {
    if !Accepts(b.sources, o) then b
    else
      b.(records := map id | id in b.records.Keys + IssueIds(o) :: RecordAfter(b.records, o, id),
         sources := b.sources[o.id := Source(o.version, Moment(o))])
  }

  function ObserveAll(b: Board, objects: seq<Observation>): Board
    decreases |objects|
  {
    if objects == [] then b else ObserveAll(Observe(b, objects[0]), objects[1..])
  }

  function Reconciled(b: Board, members: Members, objects: seq<Observation>): Board {
    if ValidBatch(objects, members.known) then ObserveAll(b, objects) else b
  }

  // ---------- Transitions by members ----------

  predicate Manager(members: Members, actor: string) {
    actor in members.enabled && actor in members.managers
  }

  predicate Allowed(from: ExceptionStatus, to: ExceptionStatus) {
    match from
    case Open => to == InProgress || to == Resolved
    case InProgress => to == Resolved
    case Resolved => to == InProgress || to == Closed
    case Closed => false
  }

  predicate ValidTransition(input: TransitionInput, key: Key) {
    && Fields.Text(key, 160) && 1 <= input.expectedVersion <= Domain.MAX_SAFE_INTEGER && Fields.Text(input.note, 1000)
    && (input.status.Some? || input.owner.Some?)
    && (input.owner.Some? ==> Fields.Identifier(input.owner.value))
  }

  function Moved(e: Record, actor: string, input: TransitionInput): Record {
    var moved := e.(owner := if input.owner.Some? then input.owner.value else e.owner,
                    status := if input.status.Some? then input.status.value else e.status,
                    version := e.version + 1);
    Logged(moved, if input.status.Some? then Transitioned else Assigned, actor, input.note, Some(e.status))
  }

  /** What keeps a member from moving a record; None if nothing does. */
  function Obstacle(e: Record, manager: bool, actor: string, input: TransitionInput): Option<ExceptionError> {
    if !manager && (input.owner.Some? || actor != e.owner || input.status == Some(Closed)) then Some(Forbidden)
    else if e.version != input.expectedVersion then Some(VersionConflict)
    else if e.status == Closed then Some(InvalidTransition)
    else if input.status.Some? && !Allowed(e.status, input.status.value) then Some(InvalidTransition)
    else if input.status == Some(Closed) && !e.sourceClear then Some(SourceNotClear)
    else None
  }

  datatype Outcome = Outcome(board: Board, result: Result<Record, ExceptionError>)

  function Transition(b: Board, members: Members, actor: string, id: IssueId, input: TransitionInput, key: Key)
    : Outcome
  {
    if actor !in members.enabled || (input.owner.Some? && input.owner.value !in members.enabled)
    then Outcome(b, Err(Forbidden))
    else if !ValidTransition(input, key) then Outcome(b, Err(ValidationError))
    else if key in b.mutations then
      var m := b.mutations[key];
      Outcome(b,
              if m.actor == actor && m.id == id && m.input == input then Ok(m.response) else Err(IdempotencyConflict))
    else if id !in b.records then Outcome(b, Err(NotFound))
    else
      match Obstacle(b.records[id], Manager(members, actor), actor, input)
      case Some(e) => Outcome(b, Err(e))
      case None =>
        var e := Moved(b.records[id], actor, input);
        Outcome(b.(records := b.records[id := e], mutations := b.mutations[key := Mutation(actor, id, input, e)]),
                Ok(e))
  }

  // ---------- The tables ----------

  /** One pass over the batch, with the sets of names met so far. */
  method ValidateBatch(objects: seq<Observation>, known: set<string>) returns (ok: bool)
    ensures ok <==> ValidBatch(objects, known)
  {
    if |objects| > MAX_OBJECTS {
      return false;
    }
    var ids: set<string> := {};
    for i := 0 to |objects|
      invariant ids == set k | 0 <= k < i :: objects[k].id
      invariant forall j, k :: 0 <= j < k < i ==> objects[j].id != objects[k].id
      invariant forall k :: 0 <= k < i ==> ValidObservation(objects[k], known)
    {
      var o := objects[i];
      if !Fields.Text(o.id, 120) || !(1 <= o.version <= Domain.MAX_SAFE_INTEGER) {
        assert !ValidObservation(o, known);
        return false;
      }
      if o.id in ids {
        return false;
      }
      ids := ids + {o.id};
      var valid := ValidateIssues(o.issues, known);
      if !valid {
        assert !ValidObservation(o, known);
        return false;
      }
    }
    ok := true;
  }

  method ValidateIssues(issues: seq<Issue>, known: set<string>) returns (ok: bool)
    ensures ok <==> (forall i :: 0 <= i < |issues| ==> ValidIssue(issues[i], known)) && DistinctKeys(issues)
  {
    var keys: set<string> := {};
    for i := 0 to |issues|
      invariant keys == set k | 0 <= k < i :: issues[k].key
      invariant forall j, k :: 0 <= j < k < i ==> issues[j].key != issues[k].key
      invariant forall k :: 0 <= k < i ==> ValidIssue(issues[k], known)
    {
      if !ValidIssue(issues[i], known) || issues[i].key in keys {
        return false;
      }
      keys := keys + {issues[i].key};
    }
    ok := true;
  }

  class ExceptionTables {
    var records: map<IssueId, Record>
    var sources: map<string, Source>
    var mutations: map<Key, Mutation>

    constructor ()
      ensures View() == Board(map[], map[], map[])
    {
      records, sources, mutations := map[], map[], map[];
    }

    function View(): Board
      reads this
    {
      Board(records, sources, mutations)
    }

    /** Insert or update the record of every issue observed. */
    method RecordIssues(o: Observation)
      requires DistinctKeys(o.issues)
      modifies this`records
      ensures RecordedUpTo(old(records), Wanted(old(records), o), IssueIds(o), records)
    {
      var existing := records;
      ghost var wanted := Wanted(existing, o);
      for i := 0 to |o.issues|
        invariant RecordedUpTo(existing, wanted, IdsUpTo(o, i), records)
      {
        var issue := o.issues[i];
        var id := IssueId(o.id, issue.key);
        var e := if id in existing then SeenAgain(existing[id], o, issue) else Opened(o, issue);
        RecordOfIssue(existing, o, i);
        OneMoreRecorded(existing, wanted, IdsUpTo(o, i), records, id);
        records := records[id := e];
      }
      FirstIds(o, |o.issues|);
    }

    /** Mark the records of the object whose issue is gone. */
    method ClearAbsent(o: Observation, existing: map<IssueId, Record>)
      requires records.Keys == existing.Keys + IssueIds(o)
      requires forall id :: id in existing.Keys && id !in IssueIds(o) ==> records[id] == existing[id]
      modifies this`records
      ensures records.Keys == old(records).Keys
      ensures forall id :: id in records.Keys ==>
        records[id] == if id in IssueIds(o) then old(records)[id] else RecordAfter(existing, o, id)
    {
      ghost var before := records;
      var gone := set id | id in existing && id.objectId == o.id && IssueOf(o.issues, id.issueKey).None?
                           && !existing[id].sourceClear;
      forall id | id in before.Keys && id !in IssueIds(o)
        ensures RecordAfter(existing, o, id) == if id in gone then Cleared(existing[id], o) else existing[id]
      {
        RecordOfAbsent(existing, o, id);
      }
      Clear(o, gone);
    }

    method Clear(o: Observation, gone: set<IssueId>)
      requires gone <= records.Keys
      modifies this`records
      ensures records.Keys == old(records).Keys
      ensures forall id :: id in records.Keys ==>
        records[id] == if id in gone then Cleared(old(records)[id], o) else old(records)[id]
    {
      ghost var before := records;
      var pending := gone;
      while pending != {}
        invariant records.Keys == before.Keys && pending <= gone
        invariant forall id :: id in before.Keys && id in pending ==> records[id] == before[id]
        invariant forall id :: id in before.Keys && id !in pending ==>
          records[id] == if id in gone then Cleared(before[id], o) else before[id]
      {
        var id :| id in pending;
        records := records[id := Cleared(records[id], o)];
        pending := pending - {id};
      }
    }

    method ReconcileObject(o: Observation)
      requires DistinctKeys(o.issues)
      modifies this`records, this`sources
      ensures View() == Observe(old(View()), o)
    {
      if !Accepts(sources, o) {
        return;
      }
      var existing := records;
      RecordIssues(o);
      ClearAbsent(o, existing);
      sources := sources[o.id := Source(o.version, Moment(o))];
      RecordsObserved(existing, o, records);
    }

    method ReconcileExceptions(members: Members, objects: seq<Observation>)
      returns (r: Result<map<IssueId, Record>, ExceptionError>)
      modifies this
      ensures View() == Reconciled(old(View()), members, objects)
      ensures r == if ValidBatch(objects, members.known) then Ok(records) else Err(ValidationError)
    {
      var valid := ValidateBatch(objects, members.known);
      if !valid {
        return Err(ValidationError);
      }
      for i := 0 to |objects|
        invariant ObserveAll(View(), objects[i..]) == ObserveAll(old(View()), objects)
      {
        assert ValidObservation(objects[i], members.known);
        assert objects[i..][1..] == objects[i + 1..];
        ReconcileObject(objects[i]);
      }
      r := Ok(records);
    }

    method TransitionException(members: Members, actor: string, id: IssueId, input: TransitionInput, key: Key)
      returns (r: Result<Record, ExceptionError>)
      modifies this
      ensures Outcome(View(), r) == Transition(old(View()), members, actor, id, input, key)
    {
      if actor !in members.enabled {
        return Err(Forbidden);
      }
      if input.owner.Some? && input.owner.value !in members.enabled {
        return Err(Forbidden);
      }
      if !ValidTransition(input, key) {
        return Err(ValidationError);
      }
      if key in mutations {
        if mutations[key] != Mutation(actor, id, input, mutations[key].response) {
          return Err(IdempotencyConflict);
        }
        return Ok(mutations[key].response);
      }
      if id !in records {
        return Err(NotFound);
      }
      var e := records[id];
      var manager := Manager(members, actor);
      if (input.owner.Some? && !manager) || (!manager && actor != e.owner)
         || (input.status == Some(Closed) && !manager) {
        return Err(Forbidden);
      }
      if e.version != input.expectedVersion {
        return Err(VersionConflict);
      }
      if e.status == Closed || (input.status.Some? && !Allowed(e.status, input.status.value)) {
        return Err(InvalidTransition);
      }
      if input.status == Some(Closed) && !e.sourceClear {
        return Err(SourceNotClear);
      }
      var from := e.status;
      if input.owner.Some? {
        e := e.(owner := input.owner.value);
      }
      if input.status.Some? {
        e := e.(status := input.status.value);
      }
      e := e.(version := e.version + 1);
      e := Logged(e, if input.status.Some? then Transitioned else Assigned, actor, input.note, Some(from));
      records := records[id := e];
      mutations := mutations[key := Mutation(actor, id, input, e)];
      r := Ok(e);
    }
  }

  lemma RecordOfIssue(records: map<IssueId, Record>, o: Observation, i: nat)
    requires i < |o.issues| && DistinctKeys(o.issues)
    ensures var id := IssueId(o.id, o.issues[i].key);
      && id in IssueIds(o)
      && RecordAfter(records, o, id)
         == if id in records then SeenAgain(records[id], o, o.issues[i]) else Opened(o, o.issues[i])
  {
    OnlyIssue(o.issues, i);
    assert o.issues[i] in o.issues;
  }

  ghost function Wanted(existing: map<IssueId, Record>, o: Observation): map<IssueId, Record> {
    map id | id in IssueIds(o) :: RecordAfter(existing, o, id)
  }

  /** The records of these ids are as wanted, the others as they were. */
  ghost predicate RecordedUpTo(existing: map<IssueId, Record>, wanted: map<IssueId, Record>, done: set<IssueId>,
                               records: map<IssueId, Record>)
  {
    && done <= wanted.Keys && records.Keys == existing.Keys + done
    && (forall id :: id in done ==> records[id] == wanted[id])
    && forall id :: id in existing.Keys && id !in done ==> records[id] == existing[id]
  }

  lemma OneMoreRecorded(existing: map<IssueId, Record>, wanted: map<IssueId, Record>, done: set<IssueId>,
                        records: map<IssueId, Record>, id: IssueId)
    requires RecordedUpTo(existing, wanted, done, records) && id in wanted.Keys
    ensures RecordedUpTo(existing, wanted, done + {id}, records[id := wanted[id]])
  {
    assert records[id := wanted[id]].Keys == existing.Keys + (done + {id});
  }

  lemma RecordOfAbsent(records: map<IssueId, Record>, o: Observation, id: IssueId)
    requires id in records.Keys && id !in IssueIds(o)
    ensures id.objectId == o.id ==> IssueOf(o.issues, id.issueKey).None?
    ensures RecordAfter(records, o, id) ==
            if id.objectId == o.id && !records[id].sourceClear then Cleared(records[id], o) else records[id]
  {
    FoundIsObserved(o, id.issueKey);
  }

  lemma FoundIsObserved(o: Observation, key: string)
    ensures IssueOf(o.issues, key).Some? ==> IssueId(o.id, key) in IssueIds(o)
  {
    if IssueOf(o.issues, key).Some? {
      assert IssueId(o.id, IssueOf(o.issues, key).value.key) == IssueId(o.id, key);
    }
  }

  lemma RecordsObserved(records: map<IssueId, Record>, o: Observation, records': map<IssueId, Record>)
    requires records'.Keys == records.Keys + IssueIds(o)
    requires forall id :: id in records'.Keys ==> records'[id] == RecordAfter(records, o, id)
    ensures records' == map id | id in records.Keys + IssueIds(o) :: RecordAfter(records, o, id)
  {
  }

  lemma {:induction false} OnlyIssue(issues: seq<Issue>, i: nat)
    requires i < |issues| && DistinctKeys(issues)
    ensures IssueOf(issues, issues[i].key) == Some(issues[i])
  {
    if i > 0 {
      OnlyIssue(issues[1..], i - 1);
    }
  }
}
