/**
 * Publication of business events and their polling: concurrent transactions of many tenants that draw on one
 * non-transactional sequence, and workers that copy committed events into the activity table behind a cursor.
 */
module EventPolling {
  import opened Contracts
  import opened Results

  type TxId = nat
  type WorkerId = nat

  datatype Event = Event(tenant: Id, sequence: nat, objectId: Id, version: int)

  /** An open transaction: the events it has inserted but not committed. */
  datatype Transaction = Transaction(tenant: Id, pending: seq<Event>)

  /** A worker's answer from the event provider, not yet stored. */
  datatype Batch = Batch(tenant: Id, events: seq<Event>)

  datatype State = State(
    sequence: nat,
    open: map<TxId, Transaction>,
    committed: set<Event>,
    cursors: map<Id, nat>,
    activity: seq<Event>,
    workers: map<WorkerId, Batch>)

  const PAGE: nat := 100

  function CursorOf(cursors: map<Id, nat>, tenant: Id): nat {
    if tenant in cursors then cursors[tenant] else 0
  }

  ghost predicate Ascending(events: seq<Event>) {
    forall i, j :: 0 <= i < j < |events| ==> events[i].sequence < events[j].sequence
  }

  /** The provider's answer: the tenant's first committed events after a sequence number, at most a page, in order. */
  ghost predicate IsPage(committed: set<Event>, tenant: Id, after: nat, events: seq<Event>) {
    && Ascending(events) && |events| <= PAGE
    && (forall e :: e in events ==> e in committed && e.tenant == tenant && after < e.sequence)
    && (forall e :: e in committed && e.tenant == tenant && after < e.sequence && e !in events ==>
          |events| == PAGE && events[PAGE - 1].sequence < e.sequence)
  }

  // ---------- Storing one event ----------

  datatype Stored = Stored(cursors: map<Id, nat>, activity: seq<Event>)

  function Max(a: nat, b: nat): nat {
    if a < b then b else a
  }

  /** One worker transaction: insert the event unless it is there, and move the cursor forward, never back. */
  function StoreEvent(s: Stored, e: Event): Stored {
    Stored(s.cursors[e.tenant := Max(CursorOf(s.cursors, e.tenant), e.sequence)],
           if e in s.activity then s.activity else s.activity + [e])
  }

  function StoreEvents(s: Stored, events: seq<Event>): Stored {
    if events == [] then s else StoreEvent(StoreEvents(s, events[..|events| - 1]), events[|events| - 1])
  }

  datatype PollError = TenantMismatch | StoreFailed

  class Worker {
    var cursors: map<Id, nat>
    var activity: seq<Event>

    ghost function View(): Stored
      reads this
    {
      Stored(cursors, activity)
    }

    /**
     * Store the events of an answer one transaction each. The transaction of event number `failing`, if there
     * is one, fails: the earlier ones stay committed and the rest is not reached.
     */
    method PollTenantEvents(tenant: Id, events: seq<Event>, failing: nat) returns (r: Result<nat, PollError>)
      modifies this
      ensures (exists e :: e in events && e.tenant != tenant) ==> r == Err(TenantMismatch) && View() == old(View())
      ensures (forall e :: e in events ==> e.tenant == tenant) ==>
        if failing < |events| then r == Err(StoreFailed) && View() == StoreEvents(old(View()), events[..failing])
        else r == Ok(|events|) && View() == StoreEvents(old(View()), events)
    {
      if exists e :: e in events && e.tenant != tenant {
        return Err(TenantMismatch);
      }
      var i := 0;
      while i < |events|
        invariant i <= |events| && i <= failing
        invariant View() == StoreEvents(old(View()), events[..i])
      {
        if i == failing {
          return Err(StoreFailed);
        }
        var e := events[i];
        assert events[..i + 1][..i] == events[..i];
        if e !in activity {
          activity := activity + [e];
        }
        cursors := cursors[tenant := Max(CursorOf(cursors, tenant), e.sequence)];
        i := i + 1;
      }
      assert events[..i] == events;
      r := Ok(|events|);
    }
  }

  // ---------- The machine ----------

  datatype Step =
    | Begin(tx: TxId, tenant: Id)
    | Insert(tx: TxId, objectId: Id, version: int)
    | Commit(tx: TxId)
    | Abort(tx: TxId)
    | Fetch(worker: WorkerId, tenant: Id, after: nat, events: seq<Event>)
    | Store(worker: WorkerId)
    | Crash(worker: WorkerId)

  /** With `locked`, a transaction begins by taking its tenant's lock and holds it until it ends. */
  ghost predicate Next(locked: bool, s: State, step: Step, s': State) {
    match step
    case Begin(tx, tenant) =>
      && tx !in s.open.Keys
      && (locked ==> forall other :: other in s.open.Keys ==> s.open[other].tenant != tenant)
      && s' == s.(open := s.open[tx := Transaction(tenant, [])])
    case Insert(tx, objectId, version) =>
      && tx in s.open.Keys
      && var t := s.open[tx];
         s' == s.(sequence := s.sequence + 1,
                  open := s.open[tx := t.(pending := t.pending + [Event(t.tenant, s.sequence + 1, objectId, version)])])
    case Commit(tx) =>
      && tx in s.open.Keys
      && s' == s.(open := s.open - {tx}, committed := s.committed + (set e | e in s.open[tx].pending))
    case Abort(tx) => tx in s.open.Keys && s' == s.(open := s.open - {tx})
    case Fetch(worker, tenant, after, events) =>
      && worker !in s.workers.Keys && after <= CursorOf(s.cursors, tenant)
      && IsPage(s.committed, tenant, after, events)
      && s' == s.(workers := s.workers[worker := Batch(tenant, events)])
    case Store(worker) =>
      && worker in s.workers.Keys && s.workers[worker].events != []
      && var batch := s.workers[worker];
         var stored := StoreEvent(Stored(s.cursors, s.activity), batch.events[0]);
         s' == s.(cursors := stored.cursors, activity := stored.activity,
                  workers := s.workers[worker := batch.(events := batch.events[1..])])
    case Crash(worker) => worker in s.workers.Keys && s' == s.(workers := s.workers - {worker})
  }

  ghost predicate Initial(s: State) {
    s == State(s.sequence, map[], {}, map[], [], map[])
  }

  ghost predicate IsRun(locked: bool, run: seq<State>, steps: seq<Step>) {
    && |run| == |steps| + 1 && Initial(run[0])
    && forall i :: 0 <= i < |steps| ==> Next(locked, run[i], steps[i], run[i + 1])
  }

  // ---------- Invariant ----------

  /** Under the lock, what a transaction will commit comes after all that its tenant has committed. */
  ghost predicate PendingLast(s: State) {
    && (forall e :: e in s.committed ==> e.sequence <= s.sequence)
    && (forall tx :: tx in s.open.Keys ==> TransactionOk(s.sequence, s.committed, s.open[tx]))
    && (forall tx, other :: tx in s.open.Keys && other in s.open.Keys ==>
          s.open[tx].tenant == s.open[other].tenant ==> tx == other)
  }

  ghost predicate TransactionOk(sequence: nat, committed: set<Event>, t: Transaction) {
    && (forall e :: e in t.pending ==> e.tenant == t.tenant && 0 < e.sequence <= sequence)
    && (forall e, c :: e in t.pending && c in committed && c.tenant == t.tenant ==> c.sequence < e.sequence)
  }

  /** Every committed event up to the k-th one of a batch is stored already or is in the batch before it. */
  ghost predicate BatchOk(committed: set<Event>, activity: seq<Event>, batch: Batch) {
    && Ascending(batch.events)
    && (forall e :: e in batch.events ==> e in committed && e.tenant == batch.tenant)
    && (forall k, e :: 0 <= k < |batch.events| && e in committed ==>
          e.tenant == batch.tenant && e.sequence <= batch.events[k].sequence ==>
            e in activity || e in batch.events[..k + 1])
  }

  ghost predicate NoRepeats(activity: seq<Event>) {
    forall i, j :: 0 <= i < j < |activity| ==> activity[i] != activity[j]
  }

  /** Nothing committed at or below a tenant's cursor is missing from activity. */
  ghost predicate NothingSkipped(committed: set<Event>, cursors: map<Id, nat>, activity: seq<Event>) {
    forall e :: e in committed && e.sequence <= CursorOf(cursors, e.tenant) ==> e in activity
  }

  /** A cursor stands at zero or at a committed event. */
  ghost predicate CursorReached(committed: set<Event>, cursors: map<Id, nat>, tenant: Id) {
    CursorOf(cursors, tenant) == 0
    || exists e :: e in committed && e.tenant == tenant && e.sequence == CursorOf(cursors, tenant)
  }

  ghost predicate Invariant(s: State) {
    && PendingLast(s)
    && NoRepeats(s.activity) && (forall e :: e in s.activity ==> e in s.committed)
    && (forall tenant :: CursorReached(s.committed, s.cursors, tenant))
    && NothingSkipped(s.committed, s.cursors, s.activity)
    && forall w :: w in s.workers.Keys ==> BatchOk(s.committed, s.activity, s.workers[w])
  }

  lemma InitialInvariant(s: State)
    requires Initial(s)
    ensures Invariant(s)
  {
  }

  lemma BeginKeeps(s: State, step: Step, s': State)
    requires Invariant(s) && step.Begin? && Next(true, s, step, s')
    ensures Invariant(s')
  {
  }

  lemma InsertKeeps(s: State, step: Step, s': State)
    requires Invariant(s) && step.Insert? && Next(true, s, step, s')
    ensures Invariant(s')
  {
    forall tx | tx in s'.open.Keys
      ensures TransactionOk(s'.sequence, s'.committed, s'.open[tx])
    {
      assert TransactionOk(s.sequence, s.committed, s.open[tx]);
    }
  }

  lemma AbortKeeps(s: State, step: Step, s': State)
    requires Invariant(s) && step.Abort? && Next(true, s, step, s')
    ensures Invariant(s')
  {
    assert forall tx :: tx in s'.open.Keys ==> s'.open[tx] == s.open[tx];
  }

  /** What commits comes after everything its tenant had committed, so no batch and no cursor is overtaken. */
  lemma CommitKeeps(s: State, step: Step, s': State)
    requires Invariant(s) && step.Commit? && Next(true, s, step, s')
    ensures Invariant(s')
  {
    var t := s.open[step.tx];
    assert TransactionOk(s.sequence, s.committed, t);
    forall tx | tx in s'.open.Keys
      ensures TransactionOk(s'.sequence, s'.committed, s'.open[tx])
    {
      assert tx in s.open.Keys && TransactionOk(s.sequence, s.committed, s.open[tx]);
      assert s.open[tx].tenant != t.tenant;
    }
    forall tenant
      ensures CursorReached(s'.committed, s'.cursors, tenant)
    {
      assert CursorReached(s.committed, s.cursors, tenant);
    }
    assert CursorReached(s.committed, s.cursors, t.tenant);
    assert forall e :: e in t.pending ==> CursorOf(s.cursors, t.tenant) < e.sequence;
    forall w | w in s'.workers.Keys
      ensures BatchOk(s'.committed, s'.activity, s'.workers[w])
    {
      CommitKeepsBatch(s.committed, s.activity, s.workers[w], t, s.sequence);
    }
  }

  lemma CommitKeepsBatch(committed: set<Event>, activity: seq<Event>, batch: Batch, t: Transaction, sequence: nat)
    requires BatchOk(committed, activity, batch) && TransactionOk(sequence, committed, t)
    ensures BatchOk(committed + (set e | e in t.pending), activity, batch)
  {
    forall k, e | 0 <= k < |batch.events| && e in t.pending && e.tenant == batch.tenant
      ensures batch.events[k].sequence < e.sequence
    {
      assert batch.events[k] in batch.events;
    }
  }

  lemma FetchKeeps(s: State, step: Step, s': State)
    requires Invariant(s) && step.Fetch? && Next(true, s, step, s')
    ensures Invariant(s')
  {
    PageIsOk(s.committed, s.cursors, s.activity, step.tenant, step.after, step.events);
  }

  lemma PageIsOk(committed: set<Event>, cursors: map<Id, nat>, activity: seq<Event>, tenant: Id, after: nat,
                 events: seq<Event>)
    requires NothingSkipped(committed, cursors, activity) && after <= CursorOf(cursors, tenant)
    requires IsPage(committed, tenant, after, events)
    ensures BatchOk(committed, activity, Batch(tenant, events))
  {
    assert forall k :: 0 <= k < |events| ==> events[k].sequence <= events[|events| - 1].sequence;
    forall k, e | 0 <= k < |events| && e in committed && e.tenant == tenant && e.sequence <= events[k].sequence
      ensures e in activity || e in events[..k + 1]
    {
      if after < e.sequence {
        var i :| 0 <= i < |events| && events[i] == e;
        assert events[..k + 1][i] == e;
      }
    }
  }

  lemma StoreKeeps(s: State, step: Step, s': State)
    requires Invariant(s) && step.Store? && Next(true, s, step, s')
    ensures Invariant(s')
  {
    var batch := s.workers[step.worker];
    var e := batch.events[0];
    assert BatchOk(s.committed, s.activity, batch) && e in batch.events;
    assert forall x :: x in s.activity ==> x in s'.activity;
    assert e in s'.activity;
    forall tenant
      ensures CursorReached(s'.committed, s'.cursors, tenant)
    {
      assert CursorReached(s.committed, s.cursors, tenant);
    }
    forall x | x in s'.committed && x.sequence <= CursorOf(s'.cursors, x.tenant)
      ensures x in s'.activity
    {
      if CursorOf(s.cursors, x.tenant) < x.sequence {
        assert x in s.activity || x in batch.events[..0 + 1];
      }
    }
    forall w | w in s'.workers.Keys
      ensures BatchOk(s'.committed, s'.activity, s'.workers[w])
    {
      if w == step.worker {
        RestOfBatchOk(s.committed, s.activity, s'.activity, batch);
      } else {
        MoreActivityKeepsBatch(s.committed, s.activity, s'.activity, s.workers[w]);
      }
    }
  }

  lemma MoreActivityKeepsBatch(committed: set<Event>, activity: seq<Event>, activity': seq<Event>, batch: Batch)
    requires BatchOk(committed, activity, batch) && forall x :: x in activity ==> x in activity'
    ensures BatchOk(committed, activity', batch)
  {
  }

  lemma RestOfBatchOk(committed: set<Event>, activity: seq<Event>, activity': seq<Event>, batch: Batch)
    requires BatchOk(committed, activity, batch) && batch.events != []
    requires batch.events[0] in activity' && forall x :: x in activity ==> x in activity'
    ensures BatchOk(committed, activity', batch.(events := batch.events[1..]))
  {
    var rest := batch.events[1..];
    forall k, e | 0 <= k < |rest| && e in committed && e.tenant == batch.tenant && e.sequence <= rest[k].sequence
      ensures e in activity' || e in rest[..k + 1]
    {
      assert rest[k] == batch.events[k + 1];
      assert e in activity || e in batch.events[..(k + 1) + 1];
      HeadOrRest(batch.events, k + 1, e);
    }
  }

  lemma HeadOrRest(events: seq<Event>, n: nat, e: Event)
    requires n < |events|
    ensures e in events[..n + 1] ==> e == events[0] || e in events[1..][..n]
  {
    assert events[..n + 1] == [events[0]] + events[1..][..n];
  }

  lemma CrashKeeps(s: State, step: Step, s': State)
    requires Invariant(s) && step.Crash? && Next(true, s, step, s')
    ensures Invariant(s')
  {
    assert forall w :: w in s'.workers.Keys ==> s'.workers[w] == s.workers[w];
  }

  lemma StepKeepsInvariant(s: State, step: Step, s': State)
    requires Invariant(s) && Next(true, s, step, s')
    ensures Invariant(s')
  {
    match step
    case Begin(_, _) => BeginKeeps(s, step, s');
    case Insert(_, _, _) => InsertKeeps(s, step, s');
    case Commit(_) => CommitKeeps(s, step, s');
    case Abort(_) => AbortKeeps(s, step, s');
    case Fetch(_, _, _, _) => FetchKeeps(s, step, s');
    case Store(_) => StoreKeeps(s, step, s');
    case Crash(_) => CrashKeeps(s, step, s');
  }

  lemma {:induction false} RunKeepsInvariant(run: seq<State>, steps: seq<Step>, i: nat)
    requires IsRun(true, run, steps) && i < |run|
    ensures Invariant(run[i])
  {
    if i == 0 {
      InitialInvariant(run[0]);
    } else {
      RunKeepsInvariant(run, steps, i - 1);
      StepKeepsInvariant(run[i - 1], steps[i - 1], run[i]);
    }
  }

  /**
   * For every interleaving of tenants, rollbacks and worker crashes: a committed event at or below its
   * tenant's cursor is in the activity table exactly once.
   */
  lemma CommittedEventsArriveExactlyOnce(run: seq<State>, steps: seq<Step>, i: nat, e: Event)
    requires IsRun(true, run, steps) && i < |run|
    requires e in run[i].committed && e.sequence <= CursorOf(run[i].cursors, e.tenant)
    ensures exists k :: 0 <= k < |run[i].activity| && run[i].activity[k] == e
              && forall other :: 0 <= other < |run[i].activity| && run[i].activity[other] == e ==> other == k
  {
    RunKeepsInvariant(run, steps, i);
    ArrivedOnce(run[i].activity, e);
  }

  lemma ArrivedOnce(activity: seq<Event>, e: Event)
    requires NoRepeats(activity) && e in activity
    ensures exists k :: 0 <= k < |activity| && activity[k] == e
              && forall other :: 0 <= other < |activity| && activity[other] == e ==> other == k
  {
    var k :| 0 <= k < |activity| && activity[k] == e;
    forall other | 0 <= other < |activity| && activity[other] == e
      ensures other == k
    {
      assert !(other < k) && !(k < other);
    }
  }

  /** Cursors never move back and activity is only added to. */
  lemma {:induction false} ProgressIsKept(locked: bool, run: seq<State>, steps: seq<Step>, i: nat, j: nat, tenant: Id)
    requires IsRun(locked, run, steps) && i <= j < |run|
    ensures CursorOf(run[i].cursors, tenant) <= CursorOf(run[j].cursors, tenant)
    ensures run[i].activity <= run[j].activity
    decreases j - i
  {
    if i < j {
      ProgressIsKept(locked, run, steps, i, j - 1, tenant);
      assert Next(locked, run[j - 1], steps[j - 1], run[j]);
    }
  }

  // ---------- Without the lock ----------

  ghost function RaceStep(tenant: Id, i: nat): Step
    requires i < 8
  {
    if i == 0 then Begin(1, tenant)
    else if i == 1 then Begin(2, tenant)
    else if i == 2 then Insert(1, "a", 1)
    else if i == 3 then Insert(2, "b", 1)
    else if i == 4 then Commit(2)
    else if i == 5 then Fetch(0, tenant, 0, [Event(tenant, 2, "b", 1)])
    else if i == 6 then Store(0)
    else Commit(1)
  }

  ghost function RaceState(tenant: Id, i: nat): State
    requires i < 9
  {
    var first, second := Event(tenant, 1, "a", 1), Event(tenant, 2, "b", 1);
    var none, one, two := Transaction(tenant, []), Transaction(tenant, [first]), Transaction(tenant, [second]);
    if i == 0 then State(0, map[], {}, map[], [], map[])
    else if i == 1 then State(0, map[1 := none], {}, map[], [], map[])
    else if i == 2 then State(0, map[1 := none, 2 := none], {}, map[], [], map[])
    else if i == 3 then State(1, map[1 := one, 2 := none], {}, map[], [], map[])
    else if i == 4 then State(2, map[1 := one, 2 := two], {}, map[], [], map[])
    else if i == 5 then State(2, map[1 := one], {second}, map[], [], map[])
    else if i == 6 then State(2, map[1 := one], {second}, map[], [], map[0 := Batch(tenant, [second])])
    else if i == 7 then State(2, map[1 := one], {second}, map[tenant := 2], [second], map[0 := Batch(tenant, [])])
    else State(2, map[], {second, first}, map[tenant := 2], [second], map[0 := Batch(tenant, [])])
  }

  lemma RaceIsPossible(tenant: Id, i: nat)
    requires i < 8
    ensures Next(false, RaceState(tenant, i), RaceStep(tenant, i), RaceState(tenant, i + 1))
  {
    var s, s' := RaceState(tenant, i), RaceState(tenant, i + 1);
    if i == 2 {
      var one := s.open[1].(pending := s.open[1].pending + [Event(tenant, 1, "a", 1)]);
      assert one == s'.open[1];
      assert s.open[1 := one] == s'.open;
    } else if i == 3 {
      var two := s.open[2].(pending := s.open[2].pending + [Event(tenant, 2, "b", 1)]);
      assert two == s'.open[2];
      assert s.open[2 := two] == s'.open;
    } else if i == 4 {
      assert s.open - {2} == s'.open;
    } else if i == 6 {
      assert s.workers[0].events[1..] == [];
    } else if i == 7 {
      assert s.open - {1} == s'.open;
    }
  }

  /**
   * The lock is what this rests on. Without it two transactions of one tenant can commit against the order of
   * their numbers, and a worker that polls in between moves the cursor past an event it has never seen.
   */
  lemma WithoutLockAnEventIsSkipped(tenant: Id) returns (run: seq<State>, steps: seq<Step>, e: Event)
    ensures IsRun(false, run, steps) && |run| == 9
    ensures e in run[8].committed && e.sequence <= CursorOf(run[8].cursors, e.tenant) && e !in run[8].activity
  {
    run := seq(9, i requires 0 <= i < 9 => RaceState(tenant, i));
    steps := seq(8, i requires 0 <= i < 8 => RaceStep(tenant, i));
    e := Event(tenant, 1, "a", 1);
    forall i | 0 <= i < 8
      ensures Next(false, run[i], steps[i], run[i + 1])
    {
      RaceIsPossible(tenant, i);
    }
  }
}
