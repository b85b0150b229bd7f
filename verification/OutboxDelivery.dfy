/**
 * The two sides of the outbox together: the business transactions of many tenants, which announce the versions of
 * their orders, and the workers that copy the announcements into activity.
 *
 * Sequence numbers are those of the polling machine. A ledger's own numbers stand for the order of its rows only,
 * because other tenants may draw numbers between the rows of one batch.
 */
module OutboxDelivery {
  import opened Contracts
  import opened LedgerInvariant
  import opened Ledgers
  import Polling = EventPolling
  import Runs = LedgerRuns

  type Event = Polling.Event

  /** `log` remembers each tenant's committed events in the order of their commits. */
  datatype System = System(poll: Polling.State, ledgers: map<Id, Ledger>, log: map<Id, seq<Event>>)

  datatype Step =
    | Poll(move: Polling.Step)
    | Business(tx: Polling.TxId, step: Runs.Step)

  /** The events are the rows that the transaction adds to the outbox. */
  ghost predicate Announces(events: seq<Event>, outbox: seq<OutboxRow>, outbox': seq<OutboxRow>) {
    && |outbox'| == |outbox| + |events| && outbox <= outbox'
    && forall k :: 0 <= k < |events| ==>
         events[k].objectId == outbox'[|outbox| + k].objectId && events[k].version == outbox'[|outbox| + k].version
  }

  /** A transaction commits its rows and the rest of its effect on its tenant's tables together. */
  ghost predicate Next(s: System, e: Step, s': System) {
    match e
    case Poll(step) =>
      !step.Commit? && Polling.Next(true, s.poll, step, s'.poll) && s' == s.(poll := s'.poll)
    case Business(tx, step) =>
      && tx in s.poll.open.Keys && s.poll.open[tx].tenant in s.ledgers.Keys && s.poll.open[tx].tenant in s.log.Keys
      && Polling.Next(true, s.poll, Polling.Commit(tx), s'.poll)
      && var t := s.poll.open[tx];
         && t.tenant in s'.ledgers.Keys && Runs.Next(s.ledgers[t.tenant], step, s'.ledgers[t.tenant])
         && Announces(t.pending, s.ledgers[t.tenant].outbox, s'.ledgers[t.tenant].outbox)
         && s' == s.(poll := s'.poll,
                     ledgers := s.ledgers[t.tenant := s'.ledgers[t.tenant]],
                     log := s.log[t.tenant := s.log[t.tenant] + t.pending])
  }

  ghost predicate Begins(s: System) {
    && Polling.Initial(s.poll) && s.log.Keys == s.ledgers.Keys
    && (forall t :: t in s.ledgers.Keys ==> Runs.Initial(s.ledgers[t]))
    && (forall t :: t in s.log.Keys ==> s.log[t] == [])
  }

  ghost predicate IsRun(run: seq<System>, steps: seq<Step>) {
    && |run| == |steps| + 1 && Begins(run[0])
    && forall i :: 0 <= i < |steps| ==> Next(run[i], steps[i], run[i + 1])
  }

  // ---------- The log of one tenant ----------

  ghost predicate Matches(log: seq<Event>, outbox: seq<OutboxRow>) {
    && |log| == |outbox|
    && forall k :: 0 <= k < |log| ==> log[k].objectId == outbox[k].objectId && log[k].version == outbox[k].version
  }

  /** The log lists the tenant's committed events, in the order of their numbers. */
  ghost predicate LogOk(committed: set<Event>, tenant: Id, log: seq<Event>) {
    && Polling.Ascending(log)
    && forall e :: e in log <==> e in committed && e.tenant == tenant
  }

  /** The tenant's part of activity. */
  ghost function ActivityOf(activity: seq<Event>, tenant: Id): seq<Event> {
    if activity == [] then []
    else
      var last := activity[|activity| - 1];
      ActivityOf(activity[..|activity| - 1], tenant) + if last.tenant == tenant then [last] else []
  }

  lemma {:induction false} ActivityMembers(activity: seq<Event>, tenant: Id, e: Event)
    ensures e in ActivityOf(activity, tenant) <==> e in activity && e.tenant == tenant
  {
    if activity != [] {
      var init, last := activity[..|activity| - 1], activity[|activity| - 1];
      assert activity == init + [last];
      ActivityMembers(init, tenant, e);
    }
  }

  lemma ActivityOfLonger(activity: seq<Event>, e: Event, tenant: Id)
    ensures ActivityOf(activity + [e], tenant) == ActivityOf(activity, tenant) + if e.tenant == tenant then [e] else []
  {
    assert (activity + [e])[..|activity|] == activity;
  }

  ghost predicate PendingInOrder(open: map<Polling.TxId, Polling.Transaction>) {
    forall tx :: tx in open.Keys ==> Polling.Ascending(open[tx].pending)
  }

  /** A tenant's part of activity is the beginning of what it has committed. */
  ghost predicate TenantOk(poll: Polling.State, tenant: Id, log: seq<Event>) {
    LogOk(poll.committed, tenant, log) && ActivityOf(poll.activity, tenant) <= log
  }

  ghost predicate PollOk(poll: Polling.State, log: map<Id, seq<Event>>) {
    && Polling.Invariant(poll) && PendingInOrder(poll.open)
    && forall t :: t in log.Keys ==> TenantOk(poll, t, log[t])
  }

  /** What stands beyond a prefix of an ascending log is not in the prefix. */
  lemma BeyondPrefix(log: seq<Event>, stored: seq<Event>, m: nat)
    requires Polling.Ascending(log) && stored <= log && |stored| <= m < |log|
    ensures log[m] !in stored
  {
    forall i | 0 <= i < |stored|
      ensures stored[i] != log[m]
    {
      assert log[i].sequence < log[m].sequence;
    }
  }

  lemma NextOfPrefix(log: seq<Event>, stored: seq<Event>, e: Event)
    requires Polling.Ascending(log) && stored <= log && e in log && e !in stored
    requires forall c :: c in log && c.sequence < e.sequence ==> c in stored
    ensures |stored| < |log| && log[|stored|] == e && stored + [e] <= log
  {
    var m := |stored|;
    var j :| 0 <= j < |log| && log[j] == e;
    assert forall i :: 0 <= i < m ==> stored[i] == log[i] && stored[i] != e;
    BeyondPrefix(log, stored, m);
    assert log[m] in log;
  }

  lemma InsertKeepsOrder(s: Polling.State, step: Polling.Step, s': Polling.State)
    requires Polling.Invariant(s) && PendingInOrder(s.open) && Polling.Next(true, s, step, s')
    ensures PendingInOrder(s'.open)
  {
    if step.Insert? {
      var t := s.open[step.tx];
      assert Polling.TransactionOk(s.sequence, s.committed, t);
      forall i | 0 <= i < |t.pending|
        ensures t.pending[i].sequence <= s.sequence
      {
        assert t.pending[i] in t.pending;
      }
    }
  }

  /** A worker stores what comes next in the tenant's log, or what is stored already. */
  lemma StoreKeepsTenant(s: Polling.State, step: Polling.Step, s': Polling.State, tenant: Id, log: seq<Event>)
    requires Polling.Invariant(s) && step.Store? && Polling.Next(true, s, step, s') && TenantOk(s, tenant, log)
    ensures TenantOk(s', tenant, log)
  {
    var batch := s.workers[step.worker];
    var e := batch.events[0];
    assert Polling.BatchOk(s.committed, s.activity, batch) && e in batch.events;
    if e !in s.activity {
      ActivityOfLonger(s.activity, e, tenant);
      if e.tenant == tenant {
        HeadComesNext(s.committed, s.activity, batch, tenant, log);
      }
    }
  }

  /** When a batch reaches its head, everything the tenant committed before is stored. */
  lemma HeadCovers(committed: set<Event>, activity: seq<Event>, batch: Polling.Batch, c: Event)
    requires Polling.BatchOk(committed, activity, batch) && batch.events != []
    requires c in committed && c.tenant == batch.tenant && c.sequence <= batch.events[0].sequence
    ensures c in activity || c == batch.events[0]
  {
    assert batch.events[..0 + 1] == [batch.events[0]];
  }

  lemma HeadComesNext(committed: set<Event>, activity: seq<Event>, batch: Polling.Batch, tenant: Id, log: seq<Event>)
    requires Polling.BatchOk(committed, activity, batch) && batch.events != [] && batch.tenant == tenant
    requires LogOk(committed, tenant, log) && ActivityOf(activity, tenant) <= log && batch.events[0] !in activity
    ensures ActivityOf(activity, tenant) + [batch.events[0]] <= log
  {
    var e, stored := batch.events[0], ActivityOf(activity, tenant);
    assert e in batch.events;
    ActivityMembers(activity, tenant, e);
    forall c | c in log && c.sequence < e.sequence
      ensures c in stored
    {
      HeadCovers(committed, activity, batch, c);
      ActivityMembers(activity, tenant, c);
    }
    NextOfPrefix(log, stored, e);
  }

  lemma PollKeepsTenant(s: Polling.State, step: Polling.Step, s': Polling.State, tenant: Id, log: seq<Event>)
    requires Polling.Invariant(s) && !step.Commit? && Polling.Next(true, s, step, s') && TenantOk(s, tenant, log)
    ensures TenantOk(s', tenant, log)
  {
    if step.Store? {
      StoreKeepsTenant(s, step, s', tenant, log);
    } else {
      assert s'.committed == s.committed && s'.activity == s.activity;
    }
  }

  lemma CommitKeepsTenant(s: Polling.State, tx: Polling.TxId, s': Polling.State, tenant: Id, log: seq<Event>)
    requires Polling.Invariant(s) && PendingInOrder(s.open) && Polling.Next(true, s, Polling.Commit(tx), s')
    requires TenantOk(s, tenant, log)
    ensures TenantOk(s', tenant, if s.open[tx].tenant == tenant then log + s.open[tx].pending else log)
  {
    var t := s.open[tx];
    assert Polling.TransactionOk(s.sequence, s.committed, t);
    if t.tenant == tenant {
      LogExtended(s.committed, tenant, log, t, s.sequence);
    } else {
      forall e
        ensures e in log <==> e in s'.committed && e.tenant == tenant
      {
        assert e in t.pending ==> e.tenant == t.tenant;
      }
    }
  }

  lemma LogExtended(committed: set<Event>, tenant: Id, log: seq<Event>, t: Polling.Transaction, sequence: nat)
    requires LogOk(committed, tenant, log) && Polling.TransactionOk(sequence, committed, t) && t.tenant == tenant
    requires Polling.Ascending(t.pending)
    ensures LogOk(committed + (set e | e in t.pending), tenant, log + t.pending)
  {
    forall i, j | 0 <= i < |log| && 0 <= j < |t.pending|
      ensures log[i].sequence < t.pending[j].sequence
    {
      assert log[i] in log && t.pending[j] in t.pending;
    }
  }

  lemma PollKeeps(s: System, e: Step, s': System)
    requires PollOk(s.poll, s.log) && e.Poll? && Next(s, e, s')
    ensures PollOk(s'.poll, s'.log)
  {
    Polling.StepKeepsInvariant(s.poll, e.move, s'.poll);
    InsertKeepsOrder(s.poll, e.move, s'.poll);
    forall t | t in s.log.Keys
      ensures TenantOk(s'.poll, t, s.log[t])
    {
      PollKeepsTenant(s.poll, e.move, s'.poll, t, s.log[t]);
    }
  }

  lemma CommitKeeps(poll: Polling.State, tx: Polling.TxId, poll': Polling.State, log: map<Id, seq<Event>>)
    requires PollOk(poll, log) && Polling.Next(true, poll, Polling.Commit(tx), poll')
    requires poll.open[tx].tenant in log.Keys
    ensures PollOk(poll', log[poll.open[tx].tenant := log[poll.open[tx].tenant] + poll.open[tx].pending])
  {
    Polling.StepKeepsInvariant(poll, Polling.Commit(tx), poll');
    InsertKeepsOrder(poll, Polling.Commit(tx), poll');
    var log' := log[poll.open[tx].tenant := log[poll.open[tx].tenant] + poll.open[tx].pending];
    forall t | t in log'.Keys
      ensures TenantOk(poll', t, log'[t])
    {
      CommitKeepsTenant(poll, tx, poll', t, log[t]);
    }
  }

  // ---------- The ledgers ----------

  ghost predicate LedgerOk(seeded: set<Id>, l: Ledger, log: seq<Event>) {
    Invariant(l, seeded) && Matches(log, l.outbox)
  }

  ghost predicate LedgerOkAt(start: map<Id, Ledger>, ledgers: map<Id, Ledger>, log: map<Id, seq<Event>>, t: Id)
    requires t in start.Keys && t in ledgers.Keys && t in log.Keys
  {
    LedgerOk(start[t].orders.Keys, ledgers[t], log[t])
  }

  ghost predicate LedgersOk(start: map<Id, Ledger>, ledgers: map<Id, Ledger>, log: map<Id, seq<Event>>) {
    && ledgers.Keys == start.Keys && log.Keys == start.Keys
    && forall t :: t in start.Keys ==> LedgerOkAt(start, ledgers, log, t)
  }

  lemma AnnouncedMatches(log: seq<Event>, events: seq<Event>, outbox: seq<OutboxRow>, outbox': seq<OutboxRow>)
    requires Matches(log, outbox) && Announces(events, outbox, outbox')
    ensures Matches(log + events, outbox')
  {
    forall k | 0 <= k < |log + events|
      ensures (log + events)[k].objectId == outbox'[k].objectId && (log + events)[k].version == outbox'[k].version
    {
      if |log| <= k {
        assert (log + events)[k] == events[k - |log|];
      }
    }
  }

  lemma BusinessKeepsLedgers(start: map<Id, Ledger>, ledgers: map<Id, Ledger>, log: map<Id, seq<Event>>,
                             tenant: Id, step: Runs.Step, l': Ledger, events: seq<Event>)
    requires LedgersOk(start, ledgers, log) && tenant in ledgers.Keys
    requires Runs.Next(ledgers[tenant], step, l') && Announces(events, ledgers[tenant].outbox, l'.outbox)
    ensures LedgersOk(start, ledgers[tenant := l'], log[tenant := log[tenant] + events])
  {
    assert LedgerOkAt(start, ledgers, log, tenant);
    Runs.StepKeepsInvariant(ledgers[tenant], start[tenant].orders.Keys, step, l');
    AnnouncedMatches(log[tenant], events, ledgers[tenant].outbox, l'.outbox);
    LedgerReplaced(start, ledgers, log, tenant, l', log[tenant] + events);
  }

  lemma LedgerStaysOk(seeded: set<Id>, l: Ledger, log: seq<Event>, l': Ledger, log': seq<Event>)
    requires LedgerOk(seeded, l, log) && l' == l && log' == log
    ensures LedgerOk(seeded, l', log')
  {
  }

  lemma LedgerReplaced(start: map<Id, Ledger>, ledgers: map<Id, Ledger>, log: map<Id, seq<Event>>,
                       tenant: Id, l': Ledger, events: seq<Event>)
    requires LedgersOk(start, ledgers, log) && tenant in start.Keys
    requires LedgerOk(start[tenant].orders.Keys, l', events)
    ensures LedgersOk(start, ledgers[tenant := l'], log[tenant := events])
  {
    var ledgers', log' := ledgers[tenant := l'], log[tenant := events];
    assert ledgers'.Keys == ledgers.Keys && log'.Keys == log.Keys;
    forall t | t in start.Keys
      ensures LedgerOkAt(start, ledgers', log', t)
    {
      if t == tenant {
        LedgerStaysOk(start[t].orders.Keys, l', events, ledgers'[t], log'[t]);
      } else {
        assert LedgerOkAt(start, ledgers, log, t);
        LedgerStaysOk(start[t].orders.Keys, ledgers[t], log[t], ledgers'[t], log'[t]);
      }
    }
  }

  ghost predicate SystemOk(start: map<Id, Ledger>, s: System) {
    PollOk(s.poll, s.log) && LedgersOk(start, s.ledgers, s.log)
  }

  lemma NextKeeps(start: map<Id, Ledger>, s: System, e: Step, s': System)
    requires SystemOk(start, s) && Next(s, e, s')
    ensures SystemOk(start, s')
  {
    match e
    case Poll(_) => PollKeeps(s, e, s');
    case Business(tx, step) =>
      var t := s.poll.open[tx];
      CommitKeeps(s.poll, tx, s'.poll, s.log);
      BusinessKeepsLedgers(start, s.ledgers, s.log, t.tenant, step, s'.ledgers[t.tenant], t.pending);
  }

  lemma BeginsOk(s: System)
    requires Begins(s)
    ensures SystemOk(s.ledgers, s)
  {
    Polling.InitialInvariant(s.poll);
    forall t | t in s.ledgers.Keys
      ensures LedgerOkAt(s.ledgers, s.ledgers, s.log, t)
    {
      Runs.InitialInvariant(s.ledgers[t]);
    }
  }

  lemma {:induction false} RunOk(run: seq<System>, steps: seq<Step>, i: nat)
    requires IsRun(run, steps) && i < |run|
    ensures SystemOk(run[0].ledgers, run[i])
  {
    if i == 0 {
      BeginsOk(run[0]);
    } else {
      RunOk(run, steps, i - 1);
      NextKeeps(run[0].ledgers, run[i - 1], steps[i - 1], run[i]);
    }
  }

  // ---------- What activity shows of an order ----------

  /** The versions of one order in a list of events, in order. */
  ghost function VersionsIn(events: seq<Event>, id: Id): seq<int> {
    if events == [] then []
    else
      var last := events[|events| - 1];
      VersionsIn(events[..|events| - 1], id) + if last.objectId == id then [last.version] else []
  }

  lemma {:induction false} LogShowsVersions(log: seq<Event>, outbox: seq<OutboxRow>, id: Id)
    requires Matches(log, outbox)
    ensures VersionsIn(log, id) == Versions(outbox, id)
  {
    if log != [] {
      LogShowsVersions(log[..|log| - 1], outbox[..|outbox| - 1], id);
    }
  }

  lemma {:induction false} VersionsOfPrefix(log: seq<Event>, n: nat, id: Id)
    requires n <= |log|
    ensures VersionsIn(log[..n], id) <= VersionsIn(log, id)
    ensures (forall k :: n <= k < |log| ==> log[k].objectId != id) ==> VersionsIn(log[..n], id) == VersionsIn(log, id)
    decreases |log|
  {
    if n < |log| {
      var init := log[..|log| - 1];
      VersionsOfPrefix(init, n, id);
      assert init[..n] == log[..n];
      assert forall k :: n <= k < |init| ==> init[k] == log[k];
    } else {
      assert log[..n] == log;
    }
  }

  /** The cursor of the tenant has reached everything that was announced of the order. */
  ghost predicate Reached(s: System, tenant: Id, id: Id) {
    forall e :: e in s.poll.committed && e.tenant == tenant && e.objectId == id ==>
      e.sequence <= Polling.CursorOf(s.poll.cursors, tenant)
  }

  lemma StoredCoversReached(log: seq<Event>, stored: seq<Event>, id: Id)
    requires Polling.Ascending(log) && stored <= log
    requires forall e :: e in log && e.objectId == id ==> e in stored
    ensures forall k :: |stored| <= k < |log| ==> log[k].objectId != id
  {
    forall k | |stored| <= k < |log|
      ensures log[k].objectId != id
    {
      BeyondPrefix(log, stored, k);
      assert log[k] in log;
    }
  }

  lemma ActivityShowsVersions(s: System, tenant: Id, log: seq<Event>, outbox: seq<OutboxRow>, id: Id)
    requires Polling.Invariant(s.poll) && TenantOk(s.poll, tenant, log) && Matches(log, outbox)
    ensures VersionsIn(ActivityOf(s.poll.activity, tenant), id) <= Versions(outbox, id)
    ensures Reached(s, tenant, id) ==> VersionsIn(ActivityOf(s.poll.activity, tenant), id) == Versions(outbox, id)
  {
    var stored := ActivityOf(s.poll.activity, tenant);
    assert stored == log[..|stored|];
    LogShowsVersions(log, outbox, id);
    VersionsOfPrefix(log, |stored|, id);
    if Reached(s, tenant, id) {
      forall e | e in log && e.objectId == id
        ensures e in stored
      {
        ActivityMembers(s.poll.activity, tenant, e);
      }
      StoredCoversReached(log, stored, id);
    }
  }

  /**
   * For every order created in the run, activity shows a beginning of its versions 1, 2, ..., without gap, repetition
   * or change of order, whatever transactions interleave, roll back, and whatever workers crash or overlap; and once
   * the tenant's cursor has reached the order's last announcement, activity shows all versions up to the current one.
   */
  lemma VersionsArriveInOrder(run: seq<System>, steps: seq<Step>, i: nat, tenant: Id, id: Id)
    requires IsRun(run, steps) && i < |run| && tenant in run[i].ledgers.Keys && tenant in run[0].ledgers.Keys
    requires id in run[i].ledgers[tenant].orders.Keys && id !in run[0].ledgers[tenant].orders.Keys
    ensures var shown := VersionsIn(ActivityOf(run[i].poll.activity, tenant), id);
      var version := run[i].ledgers[tenant].orders[id].version;
      shown <= Run(1, version) && (Reached(run[i], tenant, id) ==> shown == Run(1, version))
  {
    RunOk(run, steps, i);
    var s, l := run[i], run[i].ledgers[tenant];
    assert LedgerOkAt(run[0].ledgers, s.ledgers, s.log, tenant);
    assert OrderOk(run[0].ledgers[tenant].orders.Keys, l.outbox, id, l.orders[id]);
    ActivityShowsVersions(s, tenant, s.log[tenant], l.outbox, id);
  }

  /** A tenant's part of activity is at all times a beginning of its outbox, in the order of the commits. */
  lemma ActivityIsPrefixOfOutbox(run: seq<System>, steps: seq<Step>, i: nat, tenant: Id)
    requires IsRun(run, steps) && i < |run| && tenant in run[0].ledgers.Keys
    ensures tenant in run[i].log.Keys && tenant in run[i].ledgers.Keys
    ensures ActivityOf(run[i].poll.activity, tenant) <= run[i].log[tenant]
    ensures Matches(run[i].log[tenant], run[i].ledgers[tenant].outbox)
  {
    RunOk(run, steps, i);
    assert TenantOk(run[i].poll, tenant, run[i].log[tenant]);
    assert LedgerOkAt(run[0].ledgers, run[i].ledgers, run[i].log, tenant);
  }
}
