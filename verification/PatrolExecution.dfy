/** The patrol as it is carried out: row by row on the tables of one tenant, inside one transaction. */
module PatrolExecution {
  import opened Exceptions
  import opened Patrol
  import opened Results

  datatype Tables = Tables(policy: Option<PolicyRow>, board: PatrolBoard, runs: seq<PatrolRun>)

  /** What a run is given from outside: the clock, the objects, the exceptions after reconciliation, a manager. */
  datatype Occasion = Occasion(
    now: int,
    free: bool,
    reconciled: bool,
    objects: seq<Observation>,
    records: map<IssueId, Record>,
    manager: Option<string>)

  predicate IsTime(t: Tables, c: Occasion) {
    t.policy.Some? && c.free && t.policy.value.nextRunAt <= c.now && InWindow(t.policy.value.policy, c.now)
  }

  /** The looks of a run on this occasion. */
  function LooksOf(row: PolicyRow, c: Occasion): seq<Look> {
    LooksAt(row, c.now, Selected(row.policy, c.objects), c.records, c.manager)
  }

  /** The tables after a run that left this board behind: the policy's next time, and the row of the run. */
  function Committed(t: Tables, c: Occasion, b: PatrolBoard): Tables
    requires t.policy.Some?
  {
    var row := t.policy.value;
    Tables(Some(row.(nextRunAt := c.now + row.policy.intervalMinutes * 60_000)), b,
           t.runs + [PatrolRun(row.version, |Selected(row.policy, c.objects)|, |b.inbox| - |t.board.inbox|)])
  }

  /** A whole run: not its time, failed without a trace, or committed. */
  function Run(t: Tables, c: Occasion): (Tables, Result<bool, PatrolError>) {
    if !IsTime(t, c) then (t, Ok(false))
    else if !ValidPolicy(t.policy.value.policy) then (t, Err(InvalidPolicy))
    else if !c.reconciled then (t, Err(ReconciliationFailed))
    else
      match InspectAll(t.board, LooksOf(t.policy.value, c))
      case Err(e) => (t, Err(e))
      case Ok(b) => (Committed(t, c, b), Ok(true))
  }

  predicate Inspects(t: Tables, c: Occasion) {
    IsTime(t, c) && ValidPolicy(t.policy.value.policy) && c.reconciled
  }

  lemma RunFails(t: Tables, c: Occasion)
    requires Inspects(t, c) && InspectAll(t.board, LooksOf(t.policy.value, c)) == Err(NoManager)
    ensures Run(t, c) == (t, Err(NoManager))
  {
  }

  lemma RunCommits(t: Tables, c: Occasion, b: PatrolBoard)
    requires Inspects(t, c) && InspectAll(t.board, LooksOf(t.policy.value, c)) == Ok(b)
    ensures Run(t, c) == (Committed(t, c, b), Ok(true))
  {
  }

  lemma CommittedParts(t: Tables, c: Occasion, b: PatrolBoard, run: PatrolRun, next: PolicyRow)
    requires t.policy.Some?
    requires next == t.policy.value.(nextRunAt := c.now + t.policy.value.policy.intervalMinutes * 60_000)
    requires run == PatrolRun(t.policy.value.version, |Selected(t.policy.value.policy, c.objects)|,
                              |b.inbox| - |t.board.inbox|)
    ensures Committed(t, c, b) == Tables(Some(next), b, t.runs + [run])
  {
  }

  // ---------- A look that has dealt with some of the present issues ----------

  ghost predicate StatesUpTo(b: PatrolBoard, look: Look, done: set<IssueId>, states: map<IssueId, IssueState>) {
    && states.Keys == b.states.Keys + done
    && forall id :: id in states.Keys ==>
         states[id] == if id in done then Raised(b.states, id, look.at)
                       else if id.objectId == look.facts.id && id !in PresentIds(look)
                       then b.states[id].(active := false)
                       else b.states[id]
  }

  ghost predicate InboxUpTo(b: PatrolBoard, look: Look, done: set<IssueId>, inbox: map<(IssueId, int), InboxRow>)
    requires done <= PresentIds(look)
  {
    && (forall key :: key in inbox.Keys <==>
          key in b.inbox.Keys || (key.0 in done && key.0 in ObservedIds(look) && key.1 == BusinessDate(look.at)))
    && forall key :: key in inbox.Keys ==>
         inbox[key] == if key in b.inbox.Keys then b.inbox[key] else Inboxed(look, key.0)
  }

  /** Nothing that was dealt with is due while there is no manager. */
  ghost predicate Manageable(b: PatrolBoard, look: Look, done: set<IssueId>) {
    look.manager.None? ==> forall id :: id in done ==> id !in DueIds(b.states, look)
  }

  ghost predicate EscalationsUpTo(b: PatrolBoard, look: Look, done: set<IssueId>,
                                  escalations: map<(IssueId, nat), Escalation>)
    requires done <= PresentIds(look) && Manageable(b, look, done)
  {
    && (forall key :: key in escalations.Keys <==>
          key in b.escalations.Keys
          || (key.0 in done && key.0 in DueIds(b.states, look) && key == EscalationKey(b.states, look, key.0)))
    && forall key :: key in escalations.Keys ==>
         escalations[key] == if key in b.escalations.Keys then b.escalations[key] else EscalationOf(look, key.0)
  }

  /** Inbox topics of the first set and escalation topics of the second have been queued. */
  ghost predicate NoticesUpTo(b: PatrolBoard, look: Look, inboxed: set<IssueId>, escalated: set<IssueId>,
                              notices: map<Topic, Notice>)
  {
    && (forall topic :: topic in notices.Keys <==>
          topic in b.notices.Keys
          || (topic in NewTopics(b, look) && topic.id in if topic.InInbox? then inboxed else escalated))
    && forall topic :: topic in notices.Keys ==>
         if topic in b.notices.Keys then notices[topic] == b.notices[topic] else IsNoticeOf(look, topic, notices[topic])
  }

  ghost predicate IsNoticeOf(look: Look, topic: Topic, notice: Notice) {
    topic.id in PresentIds(look) && (topic.Escalated? ==> look.manager.Some?) && notice == NoticeOf(look, topic)
  }

  ghost predicate UpTo(b: PatrolBoard, look: Look, done: set<IssueId>, b': PatrolBoard) {
    && done <= PresentIds(look) && Manageable(b, look, done)
    && StatesUpTo(b, look, done, b'.states) && InboxUpTo(b, look, done, b'.inbox)
    && EscalationsUpTo(b, look, done, b'.escalations) && NoticesUpTo(b, look, done, done, b'.notices)
  }

  lemma AllStates(b: PatrolBoard, look: Look, states: map<IssueId, IssueState>)
    requires StatesUpTo(b, look, PresentIds(look), states)
    ensures states == StatesAfter(b.states, look)
  {
  }

  lemma AllInbox(b: PatrolBoard, look: Look, inbox: map<(IssueId, int), InboxRow>)
    requires InboxUpTo(b, look, PresentIds(look), inbox)
    ensures inbox == InboxAfter(b, look)
  {
    forall key
      ensures key in inbox.Keys <==> key in b.inbox.Keys + NewInbox(b, look)
    {
      NewInboxMeans(b, look, key);
    }
    assert inbox.Keys == b.inbox.Keys + NewInbox(b, look);
  }

  lemma AllManageable(b: PatrolBoard, look: Look)
    ensures Manageable(b, look, PresentIds(look)) <==> !Fails(b, look)
  {
    if look.manager.None? && Manageable(b, look, PresentIds(look)) {
      assert forall id :: id in DueIds(b.states, look) ==> id in PresentIds(look);
      assert DueIds(b.states, look) == {};
    }
  }

  lemma AllEscalations(b: PatrolBoard, look: Look, escalations: map<(IssueId, nat), Escalation>)
    requires Manageable(b, look, PresentIds(look)) && EscalationsUpTo(b, look, PresentIds(look), escalations)
    requires !Fails(b, look)
    ensures escalations == EscalationsAfter(b, look)
  {
    forall key
      ensures key in escalations.Keys <==> key in b.escalations.Keys + NewEscalations(b, look)
    {
      NewEscalationMeans(b, look, key);
    }
    assert escalations.Keys == b.escalations.Keys + NewEscalations(b, look);
  }

  lemma AllNotices(b: PatrolBoard, look: Look, notices: map<Topic, Notice>)
    requires NoticesUpTo(b, look, PresentIds(look), PresentIds(look), notices) && !Fails(b, look)
    ensures notices == NoticesAfter(b, look)
  {
    forall topic
      ensures topic in notices.Keys <==> topic in b.notices.Keys + NewTopics(b, look)
    {
      if topic in NewTopics(b, look) {
        NewTopicIsPresent(b, look, topic);
      }
    }
    assert notices.Keys == b.notices.Keys + NewTopics(b, look);
  }

  lemma NewTopicIsPresent(b: PatrolBoard, look: Look, topic: Topic)
    requires topic in NewTopics(b, look)
    ensures topic.id in PresentIds(look)
  {
  }

  lemma AllDone(b: PatrolBoard, look: Look, b': PatrolBoard)
    requires UpTo(b, look, PresentIds(look), b')
    ensures !Fails(b, look) && b' == Inspect(b, look)
  {
    AllManageable(b, look);
    AllStates(b, look, b'.states);
    AllInbox(b, look, b'.inbox);
    AllEscalations(b, look, b'.escalations);
    AllNotices(b, look, b'.notices);
  }

  // ---------- The tables ----------

  class PatrolTables {
    var policy: Option<PolicyRow>
    var states: map<IssueId, IssueState>
    var inbox: map<(IssueId, int), InboxRow>
    var escalations: map<(IssueId, nat), Escalation>
    var notices: map<Topic, Notice>
    var runs: seq<PatrolRun>

    constructor (row: Option<PolicyRow>)
      ensures View() == Tables(row, PatrolBoard(map[], map[], map[], map[]), [])
    {
      policy, states, inbox, escalations, notices, runs := row, map[], map[], map[], map[], [];
    }

    function Board(): PatrolBoard
      reads this
    {
      PatrolBoard(states, inbox, escalations, notices)
    }

    function View(): Tables
      reads this
    {
      Tables(policy, Board(), runs)
    }

    /** Issues of the object that are no longer present become inactive. */
    method Deactivate(look: Look)
      modifies this`states
      ensures StatesUpTo(old(Board()), look, {}, states)
    {
      var present := PresentIds(look);
      states := map id | id in states ::
        if id.objectId == look.facts.id && id !in present then states[id].(active := false) else states[id];
    }

    /** Insert the issue's state, or wake it up. */
    method RaiseState(ghost b: PatrolBoard, look: Look, ghost done: set<IssueId>, id: IssueId)
      requires id in PresentIds(look) && StatesUpTo(b, look, done, states)
      modifies this`states
      ensures StatesUpTo(b, look, done + {id}, states) && id in states && states[id] == Raised(b.states, id, look.at)
    {
      if id in states {
        var state := states[id];
        states := states[id := IssueState(if state.active then state.firstSeenAt else look.at, true,
                                          state.episode + if state.active then 0 else 1)];
      } else {
        states := states[id := IssueState(look.at, true, 1)];
      }
    }

    /** Queue a notification, unless there is one about the topic. */
    method Enqueue(topic: Topic, notice: Notice)
      modifies this`notices
      ensures notices == if topic in old(notices) then old(notices) else old(notices)[topic := notice]
    {
      if topic !in notices {
        notices := notices[topic := notice];
      }
    }

    /** A reported issue enters the inbox once a day, with a notification. */
    method FillInbox(ghost b: PatrolBoard, look: Look, ghost done: set<IssueId>, id: IssueId)
      requires done <= PresentIds(look) && id in ObservedIds(look)
      requires InboxUpTo(b, look, done, inbox) && NoticesUpTo(b, look, done, done, notices)
      modifies this`inbox, this`notices
      ensures InboxUpTo(b, look, done + {id}, inbox) && NoticesUpTo(b, look, done + {id}, done, notices)
    {
      ghost var inbox0, notices0 := inbox, notices;
      var key := (id, BusinessDate(look.at));
      if key !in inbox {
        var issue := Subject(look, id);
        inbox := inbox[key := InboxRow(look.facts.version, issue.owner, issue.summary)];
        Enqueue(InInbox(id, key.1), Notice(look.facts.id, id.issueKey, issue.summary, issue.owner));
      }
      InboxFilled(b, look, done, id, inbox0, inbox);
      InboxNoticed(b, look, done, id, inbox0, notices0, notices);
    }

    /** What has lasted too long goes to a manager, once per episode; without a manager the run fails. */
    method Escalate(ghost b: PatrolBoard, look: Look, ghost done: set<IssueId>, ghost inboxed: set<IssueId>,
                    id: IssueId)
      returns (ok: bool)
      requires done <= PresentIds(look) && id in PresentIds(look) && Manageable(b, look, done)
      requires id in states && states[id] == Raised(b.states, id, look.at)
      requires EscalationsUpTo(b, look, done, escalations) && NoticesUpTo(b, look, inboxed, done, notices)
      modifies this`escalations, this`notices
      ensures !ok ==> Fails(b, look)
      ensures ok ==>
        && Manageable(b, look, done + {id})
        && EscalationsUpTo(b, look, done + {id}, escalations) && NoticesUpTo(b, look, inboxed, done + {id}, notices)
    {
      ghost var escalations0, notices0 := escalations, notices;
      ok := true;
      if Due(look, id, states[id]) {
        assert id in DueIds(b.states, look);
        if look.manager.None? {
          return false;
        }
        var key := (id, states[id].episode);
        if key !in escalations {
          var issue := Subject(look, id);
          escalations := escalations[key := Escalation(look.manager.value, issue.summary, look.at)];
          Enqueue(Escalated(id, key.1), Notice(look.facts.id, id.issueKey, issue.summary, look.manager.value));
        }
      }
      EscalationMade(b, look, done, id, escalations0, escalations);
      EscalationNoticed(b, look, done, inboxed, id, escalations0, notices0, notices);
    }

    method Attend(ghost b: PatrolBoard, look: Look, ghost done: set<IssueId>, id: IssueId) returns (ok: bool)
      requires id in PresentIds(look) && UpTo(b, look, done, Board())
      modifies this`states, this`inbox, this`escalations, this`notices
      ensures !ok ==> Fails(b, look)
      ensures ok ==> UpTo(b, look, done + {id}, Board())
    {
      RaiseState(b, look, done, id);
      if id in ObservedIds(look) {
        FillInbox(b, look, done, id);
      } else {
        NoInboxTopics(b, look, done, id, inbox, notices);
      }
      ok := Escalate(b, look, done, done + {id}, id);
    }

    /** The issues reported on the object. */
    method AttendReported(ghost b: PatrolBoard, look: Look) returns (ok: bool)
      requires UpTo(b, look, {}, Board())
      modifies this`states, this`inbox, this`escalations, this`notices
      ensures !ok ==> Fails(b, look)
      ensures ok ==> UpTo(b, look, ObservedIds(look), Board())
    {
      FirstIds(look.facts, 0);
      for i := 0 to |look.facts.issues|
        invariant UpTo(b, look, IdsUpTo(look.facts, i), Board())
      {
        FirstIds(look.facts, i + 1);
        ok := Attend(b, look, IdsUpTo(look.facts, i), IssueId(look.facts.id, look.facts.issues[i].key));
        if !ok {
          return;
        }
      }
      FirstIds(look.facts, |look.facts.issues|);
      ok := true;
    }

    /** The issues that are not reported but that people still work on. */
    method AttendOutstanding(ghost b: PatrolBoard, look: Look) returns (ok: bool)
      requires UpTo(b, look, ObservedIds(look), Board())
      modifies this`states, this`inbox, this`escalations, this`notices
      ensures !ok ==> Fails(b, look)
      ensures ok ==> UpTo(b, look, PresentIds(look), Board())
    {
      var present := PresentIds(look);
      var outstanding := present - ObservedIds(look);
      ObservedIsDone(look);
      while outstanding != {}
        invariant outstanding <= present && UpTo(b, look, present - outstanding, Board())
        decreases outstanding
      {
        var id :| id in outstanding;
        ok := Attend(b, look, present - outstanding, id);
        if !ok {
          return;
        }
        OneMoreDone(present, outstanding, id);
        outstanding := outstanding - {id};
      }
      NoneOutstanding(present, outstanding);
      ok := true;
    }

    /** One object: first the issues reported on it, then the others that are present. */
    method InspectObject(look: Look) returns (ok: bool)
      modifies this`states, this`inbox, this`escalations, this`notices
      ensures ok <==> !Fails(old(Board()), look)
      ensures ok ==> Board() == Inspect(old(Board()), look)
    {
      ghost var b := Board();
      Deactivate(look);
      NothingDone(b, look, states);
      ok := AttendReported(b, look);
      if ok {
        ok := AttendOutstanding(b, look);
        if ok {
          AllDone(b, look, Board());
        }
      }
    }

    /** Every object in turn, up to the first failure. */
    method InspectObjects(looks: seq<Look>) returns (ok: bool)
      modifies this`states, this`inbox, this`escalations, this`notices
      ensures InspectAll(old(Board()), looks) == if ok then Ok(Board()) else Err(NoManager)
    {
      for i := 0 to |looks|
        invariant InspectAll(Board(), looks[i..]) == InspectAll(old(Board()), looks)
      {
        assert looks[i..][1..] == looks[i + 1..];
        ok := InspectObject(looks[i]);
        if !ok {
          return;
        }
      }
      ok := true;
    }

    /** A failure at any object rolls back to the board as it was. */
    method InspectOrRollBack(looks: seq<Look>) returns (ok: bool)
      modifies this`states, this`inbox, this`escalations, this`notices
      ensures InspectAll(old(Board()), looks) == if ok then Ok(Board()) else Err(NoManager)
      ensures !ok ==> Board() == old(Board())
    {
      var saved := Board();
      ok := InspectObjects(looks);
      if !ok {
        states, inbox, escalations, notices := saved.states, saved.inbox, saved.escalations, saved.notices;
      }
    }

    /** The policy's next time, and the row of the run. */
    method Commit(ghost t: Tables, c: Occasion, row: PolicyRow, objects: nat, issues: int)
      requires policy == t.policy == Some(row) && runs == t.runs
      requires objects == |Selected(row.policy, c.objects)| && issues == |inbox| - |t.board.inbox|
      modifies this`policy, this`runs
      ensures View() == Committed(t, c, old(Board()))
    {
      var run := PatrolRun(row.version, objects, issues);
      var next := row.(nextRunAt := c.now + row.policy.intervalMinutes * 60_000);
      CommittedParts(t, c, Board(), run, next);
      policy, runs := Some(next), runs + [run];
    }

    /** One run of the patrol. */
    method RunPatrol(c: Occasion) returns (r: Result<bool, PatrolError>)
      modifies this
      ensures (View(), r) == Run(old(View()), c)
    {
      if policy.None? || !c.free || policy.value.nextRunAt > c.now || !InWindow(policy.value.policy, c.now) {
        return Ok(false);
      }
      var row := policy.value;
      if !ValidPolicy(row.policy) {
        return Err(InvalidPolicy);
      }
      if !c.reconciled {
        return Err(ReconciliationFailed);
      }
      ghost var was := View();
      var before := |inbox|;
      var ok := InspectOrRollBack(LooksOf(row, c));
      if !ok {
        RunFails(was, c);
        return Err(NoManager);
      }
      RunCommits(was, c, Board());
      Commit(was, c, row, |Selected(row.policy, c.objects)|, |inbox| - before);
      r := Ok(true);
    }
  }

  lemma OneMoreDone(present: set<IssueId>, outstanding: set<IssueId>, id: IssueId)
    requires outstanding <= present && id in outstanding
    ensures present - outstanding + {id} == present - (outstanding - {id})
  {
  }

  lemma NoneOutstanding(present: set<IssueId>, outstanding: set<IssueId>)
    requires outstanding == {}
    ensures present - outstanding == present
  {
  }

  lemma ObservedIsDone(look: Look)
    ensures PresentIds(look) - (PresentIds(look) - ObservedIds(look)) == ObservedIds(look)
  {
  }

  lemma NothingDone(b: PatrolBoard, look: Look, states: map<IssueId, IssueState>)
    requires StatesUpTo(b, look, {}, states)
    ensures UpTo(b, look, {}, b.(states := states))
  {
  }

  lemma InboxFilled(b: PatrolBoard, look: Look, done: set<IssueId>, id: IssueId,
                    inbox: map<(IssueId, int), InboxRow>, inbox': map<(IssueId, int), InboxRow>)
    requires done <= PresentIds(look) && id in ObservedIds(look) && InboxUpTo(b, look, done, inbox)
    requires var key := (id, BusinessDate(look.at));
      inbox' == if key in inbox then inbox else inbox[key := Inboxed(look, id)]
    ensures InboxUpTo(b, look, done + {id}, inbox')
  {
  }

  lemma InboxNoticed(b: PatrolBoard, look: Look, done: set<IssueId>, id: IssueId,
                     inbox: map<(IssueId, int), InboxRow>, notices: map<Topic, Notice>, notices': map<Topic, Notice>)
    requires done <= PresentIds(look) && id in ObservedIds(look) && InboxUpTo(b, look, done, inbox)
    requires NoticesUpTo(b, look, done, done, notices)
    requires var key := (id, BusinessDate(look.at)); var topic := InInbox(id, key.1);
      notices' == if key in inbox || topic in notices then notices else notices[topic := NoticeOf(look, topic)]
    ensures NoticesUpTo(b, look, done + {id}, done, notices')
  {
    var key := (id, BusinessDate(look.at));
    NewInboxMeans(b, look, key);
    var mine := InInbox(id, key.1);
    NewTopicMeans(b, look, mine);
    OtherInboxTopics(b, look, id);
    forall topic
      ensures topic in notices'.Keys <==>
              topic in b.notices.Keys
              || (topic in NewTopics(b, look) && topic.id in if topic.InInbox? then done + {id} else done)
    {
      if topic != mine {
        assert topic in notices'.Keys <==> topic in notices.Keys;
      }
    }
  }

  lemma EscalationMade(b: PatrolBoard, look: Look, done: set<IssueId>, id: IssueId,
                       escalations: map<(IssueId, nat), Escalation>, escalations': map<(IssueId, nat), Escalation>)
    requires done <= PresentIds(look) && id in PresentIds(look) && Manageable(b, look, done)
    requires look.manager.None? ==> id !in DueIds(b.states, look)
    requires EscalationsUpTo(b, look, done, escalations)
    requires var key := EscalationKey(b.states, look, id);
      escalations' == if id !in DueIds(b.states, look) || key in escalations then escalations
                      else escalations[key := EscalationOf(look, id)]
    ensures Manageable(b, look, done + {id}) && EscalationsUpTo(b, look, done + {id}, escalations')
  {
    var due := EscalationKey(b.states, look, id);
    forall key
      ensures key in escalations'.Keys <==>
              key in b.escalations.Keys
              || (key.0 in done + {id} && key.0 in DueIds(b.states, look)
                  && key == EscalationKey(b.states, look, key.0))
    {
      if key != due {
        assert key in escalations'.Keys <==> key in escalations.Keys;
        assert key.0 == id ==> key != EscalationKey(b.states, look, key.0);
      }
    }
  }

  lemma EscalationNoticed(b: PatrolBoard, look: Look, done: set<IssueId>, inboxed: set<IssueId>, id: IssueId,
                          escalations: map<(IssueId, nat), Escalation>,
                          notices: map<Topic, Notice>, notices': map<Topic, Notice>)
    requires done <= PresentIds(look) && id in PresentIds(look) && Manageable(b, look, done)
    requires look.manager.None? ==> id !in DueIds(b.states, look)
    requires EscalationsUpTo(b, look, done, escalations) && NoticesUpTo(b, look, inboxed, done, notices)
    requires var key := EscalationKey(b.states, look, id); var topic := Escalated(id, key.1);
      notices' == if id !in DueIds(b.states, look) || key in escalations || topic in notices then notices
                  else notices[topic := NoticeOf(look, topic)]
    ensures NoticesUpTo(b, look, inboxed, done + {id}, notices')
  {
    var key := EscalationKey(b.states, look, id);
    NewEscalationMeans(b, look, key);
    var mine := Escalated(id, key.1);
    NewTopicMeans(b, look, mine);
    OtherEscalationTopics(b, look, id);
    forall topic
      ensures topic in notices'.Keys <==>
              topic in b.notices.Keys
              || (topic in NewTopics(b, look) && topic.id in if topic.InInbox? then inboxed else done + {id})
    {
      if topic != mine {
        assert topic in notices'.Keys <==> topic in notices.Keys;
      }
    }
  }

  /** An issue has one inbox topic at a look: today's. */
  lemma OtherInboxTopics(b: PatrolBoard, look: Look, id: IssueId)
    ensures forall topic :: topic in NewTopics(b, look) && topic.InInbox? && topic.id == id ==>
      topic == InInbox(id, BusinessDate(look.at))
  {
    forall topic | topic in NewTopics(b, look) && topic.InInbox?
      ensures topic.date == BusinessDate(look.at)
    {
      NewTopicMeans(b, look, topic);
      NewInboxMeans(b, look, (topic.id, topic.date));
    }
  }

  lemma OtherEscalationTopics(b: PatrolBoard, look: Look, id: IssueId)
    ensures forall topic :: topic in NewTopics(b, look) && topic.Escalated? && topic.id == id ==>
      topic == Escalated(id, Raised(b.states, id, look.at).episode) && id in DueIds(b.states, look)
  {
    forall topic | topic in NewTopics(b, look) && topic.Escalated? && topic.id == id
      ensures topic == Escalated(id, Raised(b.states, id, look.at).episode) && id in DueIds(b.states, look)
    {
      NewTopicMeans(b, look, topic);
      NewEscalationMeans(b, look, (topic.id, topic.episode));
    }
  }

  /** What is not reported has nothing to do with the inbox. */
  lemma NoInboxTopics(b: PatrolBoard, look: Look, done: set<IssueId>, id: IssueId,
                      inbox: map<(IssueId, int), InboxRow>, notices: map<Topic, Notice>)
    requires id !in ObservedIds(look) && id in PresentIds(look) && done <= PresentIds(look)
    requires InboxUpTo(b, look, done, inbox) && NoticesUpTo(b, look, done, done, notices)
    ensures InboxUpTo(b, look, done + {id}, inbox) && NoticesUpTo(b, look, done + {id}, done, notices)
  {
    forall topic | topic in NewTopics(b, look) && topic.InInbox?
      ensures topic.id != id
    {
      NewTopicMeans(b, look, topic);
      NewInboxMeans(b, look, (topic.id, topic.date));
    }
  }
}
