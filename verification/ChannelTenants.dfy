/**
 * When an event is taken once, over all tenants together. Its business key does not name a tenant, so this depends on
 * who the channel's senders are: it holds in every history if and only if they all belong to one tenant.
 */
module ChannelTenants {
  import opened ChannelFeedback
  import opened Contracts
  import opened Domain
  import opened FeedbackCount
  import opened LedgerRuns
  import opened Ledgers
  import opened Results
  import Graph
  import ScheduleProperties

  /** The executions for the event have added at most one entry, to one order of one tenant. */
  ghost predicate AddedAtMostOne(run: seq<System>, events: seq<Event>, event: EventId, n: nat)
    requires |run| == |events| + 1 && n <= |events|
  {
    && (forall tenant, orderId :: 0 <= EntriesFrom(run, events, event, tenant, orderId, n) <= 1)
    && (forall tenant, orderId, tenant', orderId' ::
          EntriesFrom(run, events, event, tenant, orderId, n) != 0
          && EntriesFrom(run, events, event, tenant', orderId', n) != 0 ==>
            tenant == tenant' && orderId == orderId')
  }

  /** The requests that were made for the event all went to one tenant. */
  ghost predicate SentToOneTenant(s: System, event: EventId) {
    forall d, other :: d in s.requests.Keys && other in s.requests.Keys ==>
      s.requests[d].body.event == event && s.requests[other].body.event == event ==>
        s.requests[d].who.tenant == s.requests[other].who.tenant
  }

  /** The senders of the channel all belong to one tenant. */
  ghost predicate OneTenant(setting: Setting, channel: string) {
    forall a, b :: a in setting.identities.Keys && b in setting.identities.Keys ==>
      a.channel == channel && b.channel == channel && Named(a.senderId) && Named(b.senderId) ==>
        setting.identities[a].tenant == setting.identities[b].tenant
  }

  // ---------- One tenant is enough ----------

  /** A request made for the event and the tenant. */
  ghost predicate RequestedFor(s: System, event: EventId, tenant: Id, d: DeliveryId) {
    d in s.requests.Keys && s.requests[d].body.event == event && s.requests[d].who.tenant == tenant
  }

  /** Requests made for the event and the tenant stay. */
  ghost predicate RequestsKept(s: System, s': System, event: EventId, tenant: Id) {
    forall d :: RequestedFor(s, event, tenant, d) ==> RequestedFor(s', event, tenant, d)
  }

  lemma StepKeepsRequests(setting: Setting, s: System, e: Event, s': System, event: EventId, tenant: Id)
    requires Happens(setting, s, e, s')
    ensures RequestsKept(s, s', event, tenant)
  {
  }

  ghost predicate RequestsStay(run: seq<System>, events: seq<Event>, event: EventId, tenant: Id) {
    && |run| == |events| + 1
    && forall i {:trigger events[i]} :: 0 <= i < |events| ==> RequestsKept(run[i], run[i + 1], event, tenant)
  }

  lemma HistoryKeepsRequests(setting: Setting, run: seq<System>, events: seq<Event>, event: EventId, tenant: Id)
    requires IsHistory(setting, run, events)
    ensures RequestsStay(run, events, event, tenant)
  {
    forall i | 0 <= i < |events|
      ensures RequestsKept(run[i], run[i + 1], event, tenant)
    {
      StepKeepsRequests(setting, run[i], events[i], run[i + 1], event, tenant);
    }
  }

  /** Entries come from requests. */
  lemma {:induction false} EntryHasRequest(run: seq<System>, events: seq<Event>,
                                          event: EventId, tenant: Id, orderId: Id, n: nat) returns (d: DeliveryId)
    requires RequestsStay(run, events, event, tenant) && n < |run|
    requires EntriesFrom(run, events, event, tenant, orderId, n) != 0
    ensures RequestedFor(run[n], event, tenant, d)
  {
    if Delivers(run[n - 1], events[n - 1], event, tenant) {
      d := events[n - 1].d;
      assert RequestedFor(run[n - 1], event, tenant, d);
    } else {
      d := EntryHasRequest(run, events, event, tenant, orderId, n - 1);
    }
    assert RequestsKept(run[n - 1], run[n - 1 + 1], event, tenant);
  }

  /** If the requests for an event went to one tenant, they have added at most one entry, over all tenants. */
  lemma OneTenantOneEntry(setting: Setting, run: seq<System>, events: seq<Event>, event: EventId, n: nat)
    requires IsHistory(setting, run, events) && n < |run| && SentToOneTenant(run[n], event)
    ensures AddedAtMostOne(run, events, event, n)
  {
    forall tenant, orderId
      ensures 0 <= EntriesFrom(run, events, event, tenant, orderId, n) <= 1
    {
      AtMostOneEntry(setting, run, events, event, tenant, orderId, n);
    }
    forall tenant, orderId, tenant', orderId'
        | EntriesFrom(run, events, event, tenant, orderId, n) != 0
          && EntriesFrom(run, events, event, tenant', orderId', n) != 0
      ensures tenant == tenant' && orderId == orderId'
    {
      HistoryKeepsRequests(setting, run, events, event, tenant);
      HistoryKeepsRequests(setting, run, events, event, tenant');
      var d := EntryHasRequest(run, events, event, tenant, orderId, n);
      var other := EntryHasRequest(run, events, event, tenant', orderId', n);
      AtMostOneEntry(setting, run, events, event, tenant, orderId, n);
    }
  }

  /** Copies of an event that all name one sender add at most one entry, over all tenants. */
  lemma OneSenderOneEntry(setting: Setting, run: seq<System>, events: seq<Event>, event: EventId, senderId: string,
                          n: nat)
    requires IsHistory(setting, run, events) && n < |run|
    requires forall d :: d in run[n].requests.Keys && run[n].requests[d].body.event == event ==>
      run[n].requests[d].body.senderId == senderId
    ensures AddedAtMostOne(run, events, event, n)
  {
    forall d, other | d in run[n].requests.Keys && other in run[n].requests.Keys
      ensures run[n].requests[d].body.event == event && run[n].requests[other].body.event == event ==>
        run[n].requests[d].who.tenant == run[n].requests[other].who.tenant
    {
      if run[n].requests[d].body.event == event && run[n].requests[other].body.event == event {
        OneTenantPerSender(setting, run, events, n, d, other);
      }
    }
    OneTenantOneEntry(setting, run, events, event, n);
  }

  lemma OneTenantSends(setting: Setting, run: seq<System>, events: seq<Event>, event: EventId, n: nat)
    requires IsHistory(setting, run, events) && n < |run| && OneTenant(setting, event.channel)
    ensures SentToOneTenant(run[n], event)
  {
    HistoryKeepsInvariant(setting, run, events, n);
    forall d, other | d in run[n].requests.Keys && other in run[n].requests.Keys
      ensures run[n].requests[d].body.event == event && run[n].requests[other].body.event == event ==>
        run[n].requests[d].who.tenant == run[n].requests[other].who.tenant
    {
      assert IdentityOf(setting, run[n].requests[d].body) == Some(run[n].requests[d].who);
      assert IdentityOf(setting, run[n].requests[other].body) == Some(run[n].requests[other].who);
    }
  }

  // ---------- Two tenants can both take it ----------

  function SomeNode(actor: Id): Node {
    Node("n", "n", actor, 0, 1.0, 0, NotStarted, None, None, None, None, None, None, None, [])
  }

  function SomeOrder(who: Identity): Order {
    Order("o", who.tenant, "p", "c", 1, 0, Normal, None, [SomeNode(who.actor)], [], None, [], [])
  }

  function FreshLedger(who: Identity): Ledger {
    Ledger(who.tenant, map["o" := SomeOrder(who)], map[], map[], map[], [], [], 0)
  }

  function SomeInput(): FeedbackInput {
    FeedbackInput("n", 1, None, None, Some(1), Some(2), None, None, None)
  }

  function SomeBody(event: EventId, senderId: string): Body {
    Body(event, senderId, "o", SomeInput())
  }

  function SomeEnv(who: Identity): Env {
    Env(Directory(who.tenant, {who.actor}, {}), "f", 0)
  }

  lemma FreshLedgerIsInitial(who: Identity)
    ensures Initial(FreshLedger(who))
  {
    var o := SomeOrder(who);
    assert forall id :: Graph.Dependencies(o.nodes, id) == [];
    forall p
      ensures !Graph.IsCycle(o.nodes, p)
    {
      assert 2 <= |p| ==> p[0 + 1] !in Graph.Dependencies(o.nodes, p[0]);
    }
    assert ScheduleProperties.Schedulable(o);
  }

  ghost function Taken(who: Identity, key: Key): Outcome {
    Execute(FreshLedger(who), SomeEnv(who), who.actor, key, GiveFeedback("o", SomeInput()))
  }

  lemma FeedbackIsTaken(who: Identity, key: Key)
    requires KeyGiven(key)
    ensures EntriesBefore(FreshLedger(who), "o") == 0 && EntriesBefore(Taken(who, key).ledger, "o") == 1
  {
    var o := SomeOrder(who);
    assert IndexOf(o.nodes, "n") == Some(0);
    assert Quantities(SomeInput()) == Some((1, 2));
    assert ApplyFeedback(o, SomeInput(), who.actor, SomeEnv(who).dir, "f", 0).Ok?;
  }

  /** Two senders of the channel, and who they are. */
  datatype Pair = Pair(event: EventId, a: string, b: string, whoA: Identity, whoB: Identity)

  ghost predicate IsPair(setting: Setting, p: Pair) {
    && Named(p.event.channel) && Named(p.event.id) && Named(p.a) && Named(p.b) && KeyGiven(setting.digest(p.event))
    && Sender(p.event.channel, p.a) in setting.identities.Keys
    && Sender(p.event.channel, p.b) in setting.identities.Keys
    && p.whoA == setting.identities[Sender(p.event.channel, p.a)]
    && p.whoB == setting.identities[Sender(p.event.channel, p.b)]
    && p.whoA.tenant != p.whoB.tenant
  }

  function RaceEvent(p: Pair, i: nat): Event
    requires i < 5
  {
    if i == 0 then Begin(0, SomeBody(p.event, p.a))
    else if i == 1 then Deliver(0, SomeEnv(p.whoA))
    else if i == 2 then Drop(0)
    else if i == 3 then Begin(1, SomeBody(p.event, p.b))
    else Deliver(1, SomeEnv(p.whoB))
  }

  /** One copy is executed and its reply lost; then a copy of the other sender is executed. */
  ghost function RaceState(setting: Setting, p: Pair, i: nat): System
    requires i < 6
  {
    var key := setting.digest(p.event);
    var first, second := Delivery(SomeBody(p.event, p.a), p.whoA), Delivery(SomeBody(p.event, p.b), p.whoB);
    var takenA, takenB := Taken(p.whoA, key), Taken(p.whoB, key);
    var untouched := map[p.whoA.tenant := FreshLedger(p.whoA), p.whoB.tenant := FreshLedger(p.whoB)];
    var half := untouched[p.whoA.tenant := takenA.ledger];
    if i == 0 then System(untouched, map[], map[], map[], map[], [])
    else if i == 1 then System(untouched, map[], map[0 := first], map[0 := first], map[], [])
    else if i == 2 then System(half, map[], map[0 := first], map[0 := first], map[0 := takenA.result], [])
    else if i == 3 then System(half, map[], map[], map[0 := first], map[0 := takenA.result], [])
    else if i == 4 then
      System(half, map[], map[1 := second], map[0 := first, 1 := second], map[0 := takenA.result], [])
    else
      System(half[p.whoB.tenant := takenB.ledger], map[], map[1 := second], map[0 := first, 1 := second],
             map[0 := takenA.result, 1 := takenB.result], [])
  }

  lemma FirstIsSent(setting: Setting, p: Pair)
    requires IsPair(setting, p)
    ensures Happens(setting, RaceState(setting, p, 0), RaceEvent(p, 0), RaceState(setting, p, 1))
  {
  }

  lemma SecondIsSent(setting: Setting, p: Pair)
    requires IsPair(setting, p)
    ensures Happens(setting, RaceState(setting, p, 3), RaceEvent(p, 3), RaceState(setting, p, 4))
  {
  }

  lemma FirstIsExecuted(setting: Setting, p: Pair)
    requires IsPair(setting, p)
    ensures Happens(setting, RaceState(setting, p, 1), RaceEvent(p, 1), RaceState(setting, p, 2))
  {
  }

  lemma FirstIsDropped(setting: Setting, p: Pair)
    requires IsPair(setting, p)
    ensures Happens(setting, RaceState(setting, p, 2), RaceEvent(p, 2), RaceState(setting, p, 3))
  {
    assert RaceState(setting, p, 2).open - {0} == RaceState(setting, p, 3).open;
  }

  lemma SecondIsExecuted(setting: Setting, p: Pair)
    requires IsPair(setting, p)
    ensures Happens(setting, RaceState(setting, p, 4), RaceEvent(p, 4), RaceState(setting, p, 5))
  {
  }

  lemma RaceHappens(setting: Setting, p: Pair, i: nat)
    requires IsPair(setting, p) && i < 5
    ensures Happens(setting, RaceState(setting, p, i), RaceEvent(p, i), RaceState(setting, p, i + 1))
  {
    if i == 0 {
      FirstIsSent(setting, p);
    } else if i == 1 {
      FirstIsExecuted(setting, p);
    } else if i == 2 {
      FirstIsDropped(setting, p);
    } else if i == 4 {
      SecondIsExecuted(setting, p);
    } else {
      SecondIsSent(setting, p);
    }
  }

  ghost predicate IsRace(setting: Setting, p: Pair, run: seq<System>, events: seq<Event>) {
    && |run| == 6 && |events| == 5
    && (forall i :: 0 <= i < 6 ==> run[i] == RaceState(setting, p, i))
    && (forall i :: 0 <= i < 5 ==> events[i] == RaceEvent(p, i))
  }

  lemma RaceBegins(setting: Setting, p: Pair)
    requires IsPair(setting, p)
    ensures Begins(RaceState(setting, p, 0))
  {
    FreshLedgerIsInitial(p.whoA);
    FreshLedgerIsInitial(p.whoB);
  }

  lemma EntryOfA(setting: Setting, p: Pair, run: seq<System>, events: seq<Event>)
    requires IsPair(setting, p) && IsRace(setting, p, run, events)
    ensures EntriesFrom(run, events, p.event, p.whoA.tenant, "o", 5) == 1
  {
    FeedbackIsTaken(p.whoA, setting.digest(p.event));
    assert EntriesFrom(run, events, p.event, p.whoA.tenant, "o", 1) == 0;
    assert EntriesFrom(run, events, p.event, p.whoA.tenant, "o", 2) == 1;
    assert EntriesFrom(run, events, p.event, p.whoA.tenant, "o", 3) == 1;
    assert EntriesFrom(run, events, p.event, p.whoA.tenant, "o", 4) == 1;
  }

  lemma EntryOfB(setting: Setting, p: Pair, run: seq<System>, events: seq<Event>)
    requires IsPair(setting, p) && IsRace(setting, p, run, events)
    ensures EntriesFrom(run, events, p.event, p.whoB.tenant, "o", 5) == 1
  {
    FeedbackIsTaken(p.whoB, setting.digest(p.event));
    assert EntriesFrom(run, events, p.event, p.whoB.tenant, "o", 1) == 0;
    assert EntriesFrom(run, events, p.event, p.whoB.tenant, "o", 2) == 0;
    assert EntriesFrom(run, events, p.event, p.whoB.tenant, "o", 3) == 0;
    assert EntriesFrom(run, events, p.event, p.whoB.tenant, "o", 4) == 0;
  }

  /** With senders of two tenants there is a history in which each of them takes the event. */
  lemma TwoTenantsBothTake(setting: Setting, p: Pair) returns (run: seq<System>, events: seq<Event>)
    requires IsPair(setting, p)
    ensures IsHistory(setting, run, events) && |events| == 5
    ensures EntriesFrom(run, events, p.event, p.whoA.tenant, "o", 5) == 1
    ensures EntriesFrom(run, events, p.event, p.whoB.tenant, "o", 5) == 1
  {
    run := seq(6, i requires 0 <= i < 6 => RaceState(setting, p, i));
    events := seq(5, i requires 0 <= i < 5 => RaceEvent(p, i));
    RaceBegins(setting, p);
    forall i | 0 <= i < 5
      ensures Happens(setting, run[i], events[i], run[i + 1])
    {
      RaceHappens(setting, p, i);
    }
    EntryOfA(setting, p, run, events);
    EntryOfB(setting, p, run, events);
  }

  /** An event adds at most one entry in every history if and only if the channel's senders belong to one tenant. */
  lemma OneEntryIffOneTenant(setting: Setting, event: EventId)
    requires Named(event.channel) && Named(event.id) && KeyGiven(setting.digest(event))
    ensures (forall run, events, n: nat :: IsHistory(setting, run, events) && n < |run| ==>
               AddedAtMostOne(run, events, event, n))
            <==> OneTenant(setting, event.channel)
  {
    if OneTenant(setting, event.channel) {
      forall run, events, n: nat | IsHistory(setting, run, events) && n < |run|
        ensures AddedAtMostOne(run, events, event, n)
      {
        OneTenantSends(setting, run, events, event, n);
        OneTenantOneEntry(setting, run, events, event, n);
      }
    } else {
      var a, b :| a in setting.identities.Keys && b in setting.identities.Keys && a.channel == event.channel
                  && b.channel == event.channel && Named(a.senderId) && Named(b.senderId)
                  && setting.identities[a].tenant != setting.identities[b].tenant;
      var p := Pair(event, a.senderId, b.senderId, setting.identities[a], setting.identities[b]);
      assert a == Sender(event.channel, a.senderId) && b == Sender(event.channel, b.senderId);
      var run, events := TwoTenantsBothTake(setting, p);
      assert !AddedAtMostOne(run, events, event, 5);
    }
  }
}
