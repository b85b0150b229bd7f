/** Runs of a tenant's exception board: any observations and transitions, in any order. */
module ExceptionHistory {
  import opened Exceptions
  import opened Results

  datatype Step =
    | Report(members: Members, objects: seq<Observation>)
    | Move(members: Members, actor: string, id: IssueId, input: TransitionInput, key: Key)

  function After(b: Board, s: Step): Board {
    match s
    case Report(members, objects) => Reconciled(b, members, objects)
    case Move(members, actor, id, input, key) => Transition(b, members, actor, id, input, key).board
  }

  ghost predicate IsRun(run: seq<Board>, steps: seq<Step>) {
    && |run| == |steps| + 1 && run[0] == Board(map[], map[], map[])
    && forall i :: 0 <= i < |steps| ==> run[i + 1] == After(run[i], steps[i])
  }

  // ---------- The simple definition: a fold over everything that was ever reported ----------

  function Reported(s: Step): seq<Observation> {
    if s.Report? && ValidBatch(s.objects, s.members.known) then s.objects else []
  }

  /** Every observation of a valid batch among the first n steps, in order. */
  function Observations(steps: seq<Step>, n: nat): seq<Observation>
    requires n <= |steps|
  {
    if n == 0 then [] else Observations(steps, n - 1) + Reported(steps[n - 1])
  }

  /** At least as new as the other by version and by time, and newer by one of them. */
  predicate Supersedes(o: Observation, other: Option<Observation>) {
    other.Some? ==>
      && other.value.version <= o.version && Moment(other.value) <= Moment(o)
      && (other.value.version < o.version || Moment(other.value) < Moment(o))
  }

  /** What is last known of an object: reports that do not supersede it are ignored. */
  function LastAccepted(history: seq<Observation>, objectId: string): Option<Observation> {
    if history == [] then None
    else
      var o := history[|history| - 1];
      var before := LastAccepted(history[..|history| - 1], objectId);
      if o.id == objectId && Supersedes(o, before) then Some(o) else before
  }

  /** The issue, if it is present in what is last known of its object. */
  function PresentIssue(history: seq<Observation>, id: IssueId): Option<Issue> {
    match LastAccepted(history, id.objectId)
    case None => None
    case Some(o) => IssueOf(o.issues, id.issueKey)
  }

  // ---------- The log of one record ----------

  function StatusAfter(audit: seq<AuditEntry>): ExceptionStatus {
    if audit == [] then Open
    else
      var last := audit[|audit| - 1];
      if last.change.Some? then last.change.value.1 else StatusAfter(audit[..|audit| - 1])
  }

  function ClearAfter(audit: seq<AuditEntry>): bool {
    if audit == [] then false
    else
      match audit[|audit| - 1].event
      case SourceCleared => true
      case Created => false
      case Reopened => false
      case SourceReappeared => false
      case EvidenceUpdated => false
      case _ => ClearAfter(audit[..|audit| - 1])
  }

  function OwnerAfter(audit: seq<AuditEntry>): string {
    if audit == [] then "" else audit[|audit| - 1].owner
  }

  /** The entry can follow the entries before it. */
  ghost predicate CanFollow(before: seq<AuditEntry>, entry: AuditEntry) {
    && entry.version == |before| + 1
    && (entry.change.Some? ==> entry.change.value.0 == StatusAfter(before))
    && match entry.event
       case Created => before == [] && entry.change.None?
       case SourceCleared =>
         before != [] && entry.change.None? && !ClearAfter(before) && entry.owner == OwnerAfter(before)
       case Reopened => before != [] && entry.change == Some((Closed, Open)) && entry.owner == OwnerAfter(before)
       case SourceReappeared =>
         before != [] && entry.change == Some((StatusAfter(before), StatusAfter(before)))
         && StatusAfter(before) != Closed
         && ClearAfter(before) && entry.owner == OwnerAfter(before)
       case EvidenceUpdated =>
         before != [] && entry.change == Some((StatusAfter(before), StatusAfter(before)))
         && StatusAfter(before) != Closed
         && !ClearAfter(before) && entry.owner == OwnerAfter(before)
       case Transitioned =>
         before != [] && entry.change.Some? && Allowed(entry.change.value.0, entry.change.value.1)
         && (entry.change.value.1 == Closed ==> ClearAfter(before))
       case Assigned => before != [] && entry.change == Some((StatusAfter(before), StatusAfter(before)))
  }

  ghost predicate Chained(audit: seq<AuditEntry>) {
    audit != [] ==> Chained(audit[..|audit| - 1]) && CanFollow(audit[..|audit| - 1], audit[|audit| - 1])
  }

  /** The log tells the whole story of the record. */
  ghost predicate LogFaithful(e: Record) {
    && |e.audit| == e.version && e.audit != [] && Chained(e.audit)
    && e.status == StatusAfter(e.audit) && e.sourceClear == ClearAfter(e.audit) && e.owner == OwnerAfter(e.audit)
    && (e.status == Closed ==> e.sourceClear)
  }

  lemma ExtendLog(e: Record, e': Record, entry: AuditEntry)
    requires LogFaithful(e) && e'.audit == e.audit + [entry] && CanFollow(e.audit, entry)
    requires e'.version == e.version + 1 && e'.owner == entry.owner
    requires e'.status == if entry.change.Some? then entry.change.value.1 else e.status
    requires e'.sourceClear == match entry.event
                               case SourceCleared => true
                               case Transitioned => e.sourceClear
                               case Assigned => e.sourceClear
                               case _ => false
    requires e'.status == Closed ==> e'.sourceClear
    ensures LogFaithful(e')
  {
    assert e'.audit[..|e'.audit| - 1] == e.audit;
  }

  lemma OpenedIsFaithful(o: Observation, issue: Issue)
    ensures LogFaithful(Opened(o, issue))
  {
    var audit := Opened(o, issue).audit;
    assert audit[..0] == [];
  }

  lemma SeenAgainIsFaithful(e: Record, o: Observation, issue: Issue)
    requires LogFaithful(e)
    ensures LogFaithful(SeenAgain(e, o, issue))
  {
    var e' := SeenAgain(e, o, issue);
    ExtendLog(e, e', e'.audit[|e.audit|]);
  }

  lemma ClearedIsFaithful(e: Record, o: Observation)
    requires LogFaithful(e) && !e.sourceClear
    ensures LogFaithful(Cleared(e, o))
  {
    var e' := Cleared(e, o);
    ExtendLog(e, e', e'.audit[|e.audit|]);
  }

  lemma MovedIsFaithful(e: Record, manager: bool, actor: string, input: TransitionInput)
    requires LogFaithful(e) && (input.status.Some? || input.owner.Some?) && Obstacle(e, manager, actor, input).None?
    ensures LogFaithful(Moved(e, actor, input))
  {
    var e' := Moved(e, actor, input);
    ExtendLog(e, e', e'.audit[|e.audit|]);
  }

  // ---------- Agreement of the tables with the history ----------

  ghost predicate SourceAgrees(sources: map<string, Source>, history: seq<Observation>, objectId: string) {
    match LastAccepted(history, objectId)
    case None => objectId !in sources.Keys
    case Some(o) => o.id == objectId && objectId in sources.Keys && sources[objectId] == Source(o.version, Moment(o))
  }

  ghost predicate RecordAgrees(records: map<IssueId, Record>, history: seq<Observation>, id: IssueId) {
    && (id in records.Keys ==>
          && records[id].id == id && LogFaithful(records[id]) && LastAccepted(history, id.objectId).Some?
          && (records[id].sourceClear <==> PresentIssue(history, id).None?))
    && (PresentIssue(history, id).Some? ==>
          && id in records.Keys && records[id].status != Closed
          && records[id].summary == PresentIssue(history, id).value.summary
          && records[id].sourceVersion == LastAccepted(history, id.objectId).value.version)
  }

  ghost predicate Agrees(b: Board, history: seq<Observation>) {
    && (forall objectId :: SourceAgrees(b.sources, history, objectId))
    && (forall id :: RecordAgrees(b.records, history, id))
  }

  lemma LastOfLonger(history: seq<Observation>, o: Observation, objectId: string)
    ensures LastAccepted(history + [o], objectId)
         == if o.id == objectId && Supersedes(o, LastAccepted(history, objectId)) then Some(o)
            else LastAccepted(history, objectId)
  {
    assert (history + [o])[..|history|] == history;
  }

  /** The stored version and time decide as the whole history would. */
  lemma AcceptsWhatSupersedes(b: Board, history: seq<Observation>, o: Observation)
    requires Agrees(b, history)
    ensures Accepts(b.sources, o) <==> Supersedes(o, LastAccepted(history, o.id))
  {
    assert SourceAgrees(b.sources, history, o.id);
  }

  lemma RecordAgreesAfter(b: Board, history: seq<Observation>, o: Observation, id: IssueId)
    requires Agrees(b, history) && Accepts(b.sources, o)
    ensures RecordAgrees(Observe(b, o).records, history + [o], id)
  {
    AcceptsWhatSupersedes(b, history, o);
    LastOfLonger(history, o, id.objectId);
    assert RecordAgrees(b.records, history, id);
    assert id in IssueIds(o) <==> id.objectId == o.id && IssueOf(o.issues, id.issueKey).Some? by {
      if id.objectId == o.id && IssueOf(o.issues, id.issueKey).Some? {
        assert IssueOf(o.issues, id.issueKey).value in o.issues;
      }
    }
    if id.objectId == o.id {
      match IssueOf(o.issues, id.issueKey)
      case Some(issue) =>
        if id in b.records {
          SeenAgainIsFaithful(b.records[id], o, issue);
        } else {
          OpenedIsFaithful(o, issue);
        }
      case None =>
        if id in b.records && !b.records[id].sourceClear {
          ClearedIsFaithful(b.records[id], o);
        }
    }
  }

  lemma ObserveAgrees(b: Board, history: seq<Observation>, o: Observation)
    requires Agrees(b, history)
    ensures Agrees(Observe(b, o), history + [o])
  {
    AcceptsWhatSupersedes(b, history, o);
    forall objectId
      ensures SourceAgrees(Observe(b, o).sources, history + [o], objectId)
    {
      LastOfLonger(history, o, objectId);
      assert SourceAgrees(b.sources, history, objectId);
    }
    forall id
      ensures RecordAgrees(Observe(b, o).records, history + [o], id)
    {
      if Accepts(b.sources, o) {
        RecordAgreesAfter(b, history, o, id);
      } else {
        LastOfLonger(history, o, id.objectId);
        assert RecordAgrees(b.records, history, id);
      }
    }
  }

  lemma {:induction false} ObserveAllAgrees(b: Board, history: seq<Observation>, objects: seq<Observation>)
    requires Agrees(b, history)
    ensures Agrees(ObserveAll(b, objects), history + objects)
    decreases |objects|
  {
    if objects == [] {
      assert history + objects == history;
    } else {
      ObserveAgrees(b, history, objects[0]);
      ObserveAllAgrees(Observe(b, objects[0]), history + [objects[0]], objects[1..]);
      assert history + [objects[0]] + objects[1..] == history + objects;
    }
  }

  lemma MovedRecordAgrees(records: map<IssueId, Record>, history: seq<Observation>, moved: IssueId, manager: bool,
                          actor: string, input: TransitionInput, id: IssueId)
    requires RecordAgrees(records, history, moved) && RecordAgrees(records, history, id) && moved in records.Keys
    requires (input.status.Some? || input.owner.Some?) && Obstacle(records[moved], manager, actor, input).None?
    ensures RecordAgrees(records[moved := Moved(records[moved], actor, input)], history, id)
  {
    MovedIsFaithful(records[moved], manager, actor, input);
  }

  /** A transition that changes the board moves one record, which nothing stands in the way of. */
  lemma MoveMeans(b: Board, s: Step)
    requires s.Move? && After(b, s) != b
    ensures s.id in b.records.Keys && (s.input.status.Some? || s.input.owner.Some?)
    ensures Obstacle(b.records[s.id], Manager(s.members, s.actor), s.actor, s.input).None?
    ensures After(b, s).records == b.records[s.id := Moved(b.records[s.id], s.actor, s.input)]
    ensures After(b, s).sources == b.sources
  {
  }

  lemma MoveAgrees(b: Board, history: seq<Observation>, s: Step)
    requires Agrees(b, history) && s.Move?
    ensures Agrees(After(b, s), history)
  {
    var b' := After(b, s);
    if b' != b {
      MoveMeans(b, s);
      forall id
        ensures RecordAgrees(b'.records, history, id)
      {
        assert RecordAgrees(b.records, history, id) && RecordAgrees(b.records, history, s.id);
        MovedRecordAgrees(b.records, history, s.id, Manager(s.members, s.actor), s.actor, s.input, id);
      }
    }
  }

  lemma StepAgrees(b: Board, history: seq<Observation>, s: Step)
    requires Agrees(b, history)
    ensures Agrees(After(b, s), history + Reported(s))
  {
    assert history + [] == history;
    if s.Move? {
      MoveAgrees(b, history, s);
    } else if ValidBatch(s.objects, s.members.known) {
      ObserveAllAgrees(b, history, s.objects);
    }
  }

  /** The tables always say what a fold over the whole history would say. */
  lemma {:induction false} TablesAgreeWithHistory(run: seq<Board>, steps: seq<Step>, i: nat)
    requires IsRun(run, steps) && i < |run|
    ensures Agrees(run[i], Observations(steps, i))
  {
    if i > 0 {
      TablesAgreeWithHistory(run, steps, i - 1);
      StepAgrees(run[i - 1], Observations(steps, i - 1), steps[i - 1]);
    }
  }

  // ---------- Consequences ----------

  /** A record's source is clear exactly when its issue is absent from the last accepted observation of its object. */
  lemma ClearExactlyWhenAbsent(run: seq<Board>, steps: seq<Step>, i: nat, id: IssueId)
    requires IsRun(run, steps) && i < |run| && id in run[i].records.Keys
    ensures run[i].records[id].sourceClear <==> PresentIssue(Observations(steps, i), id).None?
    ensures run[i].records[id].status == Closed ==> run[i].records[id].sourceClear
  {
    TablesAgreeWithHistory(run, steps, i);
    assert RecordAgrees(run[i].records, Observations(steps, i), id);
  }

  /** Every issue of the last accepted observation has a record, which is not closed and says what was observed. */
  lemma PresentIssueHasOpenRecord(run: seq<Board>, steps: seq<Step>, i: nat, id: IssueId)
    requires IsRun(run, steps) && i < |run| && PresentIssue(Observations(steps, i), id).Some?
    ensures id in run[i].records.Keys && run[i].records[id].id == id && run[i].records[id].status != Closed
    ensures run[i].records[id].summary == PresentIssue(Observations(steps, i), id).value.summary
  {
    TablesAgreeWithHistory(run, steps, i);
    assert RecordAgrees(run[i].records, Observations(steps, i), id);
  }

  /** The log of every record is complete, chained, made of permitted moves, and ends in the record's present state. */
  lemma LogIsFaithful(run: seq<Board>, steps: seq<Step>, i: nat, id: IssueId)
    requires IsRun(run, steps) && i < |run| && id in run[i].records.Keys
    ensures LogFaithful(run[i].records[id])
  {
    TablesAgreeWithHistory(run, steps, i);
    assert RecordAgrees(run[i].records, Observations(steps, i), id);
  }

  lemma {:induction false} LogVersions(audit: seq<AuditEntry>, k: nat)
    requires Chained(audit) && k < |audit|
    ensures audit[k].version == k + 1
    ensures audit[k].event == Created <==> k == 0
    ensures audit[k].change.Some? ==> audit[k].change.value.0 == StatusAfter(audit[..k])
  {
    var before := audit[..|audit| - 1];
    if k < |audit| - 1 {
      LogVersions(before, k);
      assert before[..k] == audit[..k];
    }
    if k == 0 && |audit| == 1 {
      assert CanFollow(before, audit[0]);
    }
  }

  // ---------- Order of observations ----------

  predicate NotNewer(o: Observation, other: Option<Observation>) {
    other.Some? && o.version <= other.value.version && Moment(o) <= Moment(other.value)
  }

  /** What is known of an object is only ever replaced by something newer. */
  lemma {:induction false} LastNeverGoesBack(history: seq<Observation>, more: seq<Observation>, objectId: string)
    requires LastAccepted(history, objectId).Some?
    ensures NotNewer(LastAccepted(history, objectId).value, LastAccepted(history + more, objectId))
    decreases |more|
  {
    if more == [] {
      assert history + more == history;
    } else {
      var init := more[..|more| - 1];
      LastNeverGoesBack(history, init, objectId);
      assert history + more == (history + init) + [more[|more| - 1]];
      LastOfLonger(history + init, more[|more| - 1], objectId);
    }
  }

  /** An observation that has been reported once is never accepted again, whatever was reported since. */
  lemma {:induction false} ReportedOnceIsSettled(history: seq<Observation>, k: nat)
    requires k < |history|
    ensures !Supersedes(history[k], LastAccepted(history, history[k].id))
  {
    var o := history[k];
    var upto := history[..k + 1];
    assert upto == history[..k] + [o];
    LastOfLonger(history[..k], o, o.id);
    if LastAccepted(upto, o.id).Some? {
      LastNeverGoesBack(upto, history[k + 1..], o.id);
    }
    assert upto + history[k + 1..] == history;
  }

  lemma Associates(a: seq<Observation>, b: seq<Observation>, c: seq<Observation>)
    ensures (a + b) + c == a + (b + c)
  {
  }

  lemma {:induction false} ObservationsGrow(steps: seq<Step>, i: nat, j: nat) returns (more: seq<Observation>)
    requires i <= j <= |steps|
    ensures Observations(steps, j) == Observations(steps, i) + more
  {
    if i == j {
      more := [];
    } else {
      var fewer := ObservationsGrow(steps, i, j - 1);
      var batch := Reported(steps[j - 1]);
      more := fewer + batch;
      Associates(Observations(steps, i), fewer, batch);
    }
  }

  /** Along a run, the accepted observation of an object never goes back in version or in time. */
  lemma AcceptedNeverGoesBack(run: seq<Board>, steps: seq<Step>, i: nat, j: nat, objectId: string)
    requires IsRun(run, steps) && i <= j < |run| && objectId in run[i].sources.Keys
    ensures objectId in run[j].sources.Keys
    ensures run[i].sources[objectId].version <= run[j].sources[objectId].version
    ensures run[i].sources[objectId].observedAt <= run[j].sources[objectId].observedAt
  {
    TablesAgreeWithHistory(run, steps, i);
    TablesAgreeWithHistory(run, steps, j);
    var before, after := Observations(steps, i), Observations(steps, j);
    assert SourceAgrees(run[i].sources, before, objectId) && SourceAgrees(run[j].sources, after, objectId);
    var more := ObservationsGrow(steps, i, j);
    LastNeverGoesBack(before, more, objectId);
  }

  lemma {:induction false} SettledBatchChangesNothing(b: Board, objects: seq<Observation>)
    requires forall k :: 0 <= k < |objects| ==> !Accepts(b.sources, objects[k])
    ensures ObserveAll(b, objects) == b
    decreases |objects|
  {
    if objects != [] {
      assert Observe(b, objects[0]) == b;
      SettledBatchChangesNothing(b, objects[1..]);
    }
  }

  /** A board that agrees with a history which includes these observations is not changed by them. */
  lemma ReportedObjectsChangeNothing(b: Board, before: seq<Observation>, objects: seq<Observation>,
                                     more: seq<Observation>)
    requires Agrees(b, before + objects + more)
    ensures ObserveAll(b, objects) == b
  {
    var history := before + objects + more;
    forall k | 0 <= k < |objects|
      ensures !Accepts(b.sources, objects[k])
    {
      assert history[|before| + k] == objects[k];
      ReportedOnceIsSettled(history, |before| + k);
      AcceptsWhatSupersedes(b, history, objects[k]);
    }
    SettledBatchChangesNothing(b, objects);
  }

  lemma ReportIsObserved(steps: seq<Step>, i: nat, j: nat) returns (more: seq<Observation>)
    requires i < j <= |steps|
    ensures Observations(steps, j) == Observations(steps, i) + Reported(steps[i]) + more
  {
    var next := i + 1;
    assert Observations(steps, next) == Observations(steps, i) + Reported(steps[i]);
    more := ObservationsGrow(steps, next, j);
  }

  /** Replaying a batch, at once or at any later time, changes nothing. */
  lemma ReplayChangesNothing(run: seq<Board>, steps: seq<Step>, i: nat, j: nat, members: Members)
    requires IsRun(run, steps) && i < j < |run| && steps[i].Report?
    requires ValidBatch(steps[i].objects, steps[i].members.known)
    ensures Reconciled(run[j], members, steps[i].objects) == run[j]
  {
    TablesAgreeWithHistory(run, steps, j);
    var more := ReportIsObserved(steps, i, j);
    ReportedObjectsChangeNothing(run[j], Observations(steps, i), steps[i].objects, more);
  }

  // ---------- Repeated transitions ----------

  lemma {:induction false} ObserveAllKeepsMutations(b: Board, objects: seq<Observation>)
    ensures ObserveAll(b, objects).mutations == b.mutations
    decreases |objects|
  {
    if objects != [] {
      ObserveAllKeepsMutations(Observe(b, objects[0]), objects[1..]);
    }
  }

  lemma StepKeepsMutation(b: Board, s: Step, key: Key)
    requires key in b.mutations.Keys
    ensures key in After(b, s).mutations.Keys && After(b, s).mutations[key] == b.mutations[key]
  {
    if s.Report? {
      ObserveAllKeepsMutations(b, s.objects);
    }
  }

  lemma {:induction false} MutationStays(run: seq<Board>, steps: seq<Step>, i: nat, j: nat, key: Key)
    requires IsRun(run, steps) && i <= j < |run| && key in run[i].mutations.Keys
    ensures key in run[j].mutations.Keys && run[j].mutations[key] == run[i].mutations[key]
    decreases j - i
  {
    if i < j {
      MutationStays(run, steps, i, j - 1, key);
      StepKeepsMutation(run[j - 1], steps[j - 1], key);
    }
  }

  /** A transition that was answered is remembered with its answer. */
  lemma AnsweredIsRemembered(b: Board, members: Members, actor: string, id: IssueId, input: TransitionInput, key: Key)
    requires Transition(b, members, actor, id, input, key).result.Ok?
    ensures var r := Transition(b, members, actor, id, input, key);
      key in r.board.mutations.Keys && r.board.mutations[key] == Mutation(actor, id, input, r.result.value)
  {
  }

  lemma RememberedIsAnswered(b: Board, members: Members, actor: string, id: IssueId, input: TransitionInput, key: Key,
                             e: Record)
    requires key in b.mutations.Keys && b.mutations[key] == Mutation(actor, id, input, e) && ValidTransition(input, key)
    requires actor in members.enabled && (input.owner.Some? ==> input.owner.value in members.enabled)
    ensures Transition(b, members, actor, id, input, key) == Outcome(b, Ok(e))
  {
  }

  /** Repeating a transition under its key, at once or later, changes nothing and gives the first answer. */
  lemma RepeatedTransitionReturnsSameRecord(run: seq<Board>, steps: seq<Step>, i: nat, j: nat, members: Members)
    requires IsRun(run, steps) && i < j < |run| && steps[i].Move?
    requires var s := steps[i];
      && Transition(run[i], s.members, s.actor, s.id, s.input, s.key).result.Ok?
      && s.actor in members.enabled && (s.input.owner.Some? ==> s.input.owner.value in members.enabled)
    ensures var s := steps[i];
      Transition(run[j], members, s.actor, s.id, s.input, s.key)
      == Outcome(run[j], Transition(run[i], s.members, s.actor, s.id, s.input, s.key).result)
  {
    var s := steps[i];
    var r := Transition(run[i], s.members, s.actor, s.id, s.input, s.key);
    AnsweredIsRemembered(run[i], s.members, s.actor, s.id, s.input, s.key);
    assert run[i + 1] == After(run[i], s) == r.board;
    MutationStays(run, steps, i + 1, j, s.key);
    RememberedIsAnswered(run[j], members, s.actor, s.id, s.input, s.key, r.result.value);
  }
}
