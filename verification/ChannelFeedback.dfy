/**
 * Feedback that arrives over an external channel, which delivers an event as often as it likes. The platform
 * locks the event, forwards it to the business service under a key derived from the event alone, and records
 * the result. Replies can be lost, requests can arrive late, and the recording transaction can fail.
 */
module ChannelFeedback {
  import opened Contracts
  import opened Domain
  import opened FeedbackCount
  import opened LedgerInvariant
  import opened LedgerRuns
  import opened Ledgers
  import opened Results

  type DeliveryId = nat

  datatype EventId = EventId(channel: string, id: string)

  datatype Body = Body(event: EventId, senderId: string, orderId: Id, input: FeedbackInput)

  datatype Sender = Sender(channel: string, senderId: string)

  datatype Identity = Identity(tenant: Id, actor: Id)

  /** Who a channel's senders are, and the digest that turns an event into a business key. */
  datatype Setting = Setting(identities: map<Sender, Identity>, digest: EventId -> Key)

  predicate Named(s: string) {
    0 < |s| <= 100
  }

  predicate ValidBody(b: Body) {
    Named(b.event.channel) && Named(b.event.id) && Named(b.senderId) && Named(b.orderId) && Named(b.input.nodeId)
  }

  function IdentityOf(setting: Setting, b: Body): Option<Identity> {
    var sender := Sender(b.event.channel, b.senderId);
    if sender in setting.identities then Some(setting.identities[sender]) else None
  }

  function RequestOf(b: Body): Request {
    GiveFeedback(b.orderId, b.input)
  }

  /** A recorded event: what was delivered, for whom, and what the business service answered. */
  datatype Record = Record(body: Body, who: Identity, result: Response)

  datatype ChannelError = Refused(error: BusinessError) | DeliveryUnknown

  /** Errors passed on to the channel; every other one leaves the outcome unknown. */
  predicate PassedOn(e: BusinessError) {
    e == Forbidden || e == ValidationError || e == IdempotencyConflict || e == VersionConflict || e == NodeClosed
    || e == NotFound
  }

  function Reported(e: BusinessError): ChannelError {
    if PassedOn(e) then Refused(e) else DeliveryUnknown
  }

  /** A recorded event answers only the very same delivery of the very same member. */
  function Recall(r: Record, b: Body, who: Identity): Result<Response, ChannelError> {
    if r.body == b && r.who == who then Ok(r.result) else Err(Refused(IdempotencyConflict))
  }

  class EventTable {
    var records: map<EventId, Record>

    /**
     * One delivery, start to finish. `member` says whether the sender is an enabled member, `reply` is what comes
     * back from the business service (None if nothing does), and `committed` whether the transaction commits.
     */
    method ReceiveFeedback(setting: Setting, b: Body, member: bool, reply: Option<Result<Response, BusinessError>>,
                           committed: bool)
      returns (r: Result<Response, ChannelError>)
      modifies this
      ensures b.event in old(records).Keys ==> records == old(records)
      ensures b.event !in old(records).Keys ==>
        if ValidBody(b) && IdentityOf(setting, b).Some? && member && reply.Some? && reply.value.Ok? && committed
        then records == old(records)[b.event := Record(b, IdentityOf(setting, b).value, reply.value.value)]
        else records == old(records)
      ensures r.Ok? ==>
        && b.event in records.Keys && records[b.event].body == b && records[b.event].result == r.value
        && IdentityOf(setting, b) == Some(records[b.event].who)
      ensures !ValidBody(b) ==> r == Err(Refused(ValidationError))
      ensures ValidBody(b) && (IdentityOf(setting, b).None? || !member) ==> r == Err(Refused(Forbidden))
      ensures ValidBody(b) && IdentityOf(setting, b).Some? && member ==>
        if b.event in old(records).Keys then
          if !(old(records)[b.event].body == b && old(records)[b.event].who == IdentityOf(setting, b).value)
          then r == Err(Refused(IdempotencyConflict))
          else r == if committed then Ok(old(records)[b.event].result) else Err(DeliveryUnknown)
        else if reply.Some? && reply.value.Err? && PassedOn(reply.value.error) then r == Err(Refused(reply.value.error))
        else if reply.Some? && reply.value.Ok? && committed then r == Ok(reply.value.value)
        else r == Err(DeliveryUnknown)
    {
      if !ValidBody(b) {
        return Err(Refused(ValidationError));
      }
      var who := IdentityOf(setting, b);
      if who.None? || !member {
        return Err(Refused(Forbidden));
      }
      if b.event in records {
        r := Recall(records[b.event], b, who.value);
        if r.Ok? && !committed {
          r := Err(DeliveryUnknown);
        }
        return;
      }
      if reply.None? {
        return Err(DeliveryUnknown);
      }
      if reply.value.Err? {
        return Err(Reported(reply.value.error));
      }
      if !committed {
        return Err(DeliveryUnknown);
      }
      records := records[b.event := Record(b, who.value, reply.value.value)];
      r := Ok(reply.value.value);
    }
  }

  // ---------- The system ----------

  datatype Delivery = Delivery(body: Body, who: Identity)

  /** A delivery that was answered with success. */
  datatype Answer = Answer(event: EventId, result: Response)

  datatype System = System(
    ledgers: map<Id, Ledger>,
    records: map<EventId, Record>,
    open: map<DeliveryId, Delivery>,
    requests: map<DeliveryId, Delivery>,
    replies: map<DeliveryId, Result<Response, BusinessError>>,
    answers: seq<Answer>)

  datatype Event =
    | Business(tenant: Id, step: Step)
    | Begin(d: DeliveryId, body: Body)
    | Repeat(body: Body)
    | Deliver(d: DeliveryId, env: Env)
    | Settle(d: DeliveryId, told: bool)
    | Drop(d: DeliveryId)

  /** The advisory lock on an event is free. */
  ghost predicate Unlocked(open: map<DeliveryId, Delivery>, event: EventId) {
    forall d :: d in open.Keys ==> open[d].body.event != event
  }

  ghost predicate Happens(setting: Setting, s: System, e: Event, s': System) {
    match e
    // anything else that happens in a tenant's business tables
    case Business(tenant, step) =>
      && tenant in s.ledgers.Keys && tenant in s'.ledgers.Keys && Next(s.ledgers[tenant], step, s'.ledgers[tenant])
      && s' == s.(ledgers := s.ledgers[tenant := s'.ledgers[tenant]])
    // the event is locked, not recorded, and sent to the business service
    case Begin(d, body) =>
      && d !in s.requests.Keys && d !in s.open.Keys && ValidBody(body) && IdentityOf(setting, body).Some?
      && IdentityOf(setting, body).value.tenant in s.ledgers.Keys
      && Unlocked(s.open, body.event) && body.event !in s.records.Keys
      && var delivery := Delivery(body, IdentityOf(setting, body).value);
         s' == s.(open := s.open[d := delivery], requests := s.requests[d := delivery])
    // the event is recorded already
    case Repeat(body) =>
      && ValidBody(body) && IdentityOf(setting, body).Some? && Unlocked(s.open, body.event)
      && body.event in s.records.Keys
      && var r := Recall(s.records[body.event], body, IdentityOf(setting, body).value);
         s' == s.(answers := if r.Ok? then s.answers + [Answer(body.event, r.value)] else s.answers)
    // the business service executes a request: at once, late, after its delivery has ended, or again
    case Deliver(d, env) =>
      && d in s.requests.Keys && s.requests[d].who.tenant in s.ledgers.Keys
      && var q := s.requests[d];
         var l := s.ledgers[q.who.tenant];
         var outcome := Execute(l, env, q.who.actor, setting.digest(q.body.event), RequestOf(q.body));
         && env.id !in l.plans.Keys
         && s' == s.(ledgers := s.ledgers[q.who.tenant := outcome.ledger], replies := s.replies[d := outcome.result])
    // the result comes back and is recorded; the channel may still not hear of it
    case Settle(d, told) =>
      && d in s.open.Keys && d in s.replies.Keys && s.replies[d].Ok?
      && var q := s.open[d];
         s' == s.(records := s.records[q.body.event := Record(q.body, q.who, s.replies[d].value)],
                  open := s.open - {d},
                  answers := if told then s.answers + [Answer(q.body.event, s.replies[d].value)] else s.answers)
    // an error, a lost reply, a crash, a failed commit
    case Drop(d) => d in s.open.Keys && s' == s.(open := s.open - {d})
  }

  ghost predicate Begins(s: System) {
    && s == System(s.ledgers, map[], map[], map[], map[], [])
    && forall t :: t in s.ledgers.Keys ==> s.ledgers[t].tenant == t && Initial(s.ledgers[t])
  }

  ghost predicate IsHistory(setting: Setting, run: seq<System>, events: seq<Event>) {
    && |run| == |events| + 1 && Begins(run[0])
    && forall i :: 0 <= i < |events| ==> Happens(setting, run[i], events[i], run[i + 1])
  }

  // ---------- Invariant ----------

  /** The business service remembers the request of this body under the event's key, with this response. */
  ghost predicate Remembered(setting: Setting, ledgers: map<Id, Ledger>, body: Body, who: Identity,
                             response: Response) {
    && who.tenant in ledgers.Keys
    && var mutations := ledgers[who.tenant].mutations;
       var key := setting.digest(body.event);
       key in mutations.Keys && mutations[key] == Mutation(who.actor, RequestOf(body), response)
  }

  ghost predicate RecordsOk(setting: Setting, s: System) {
    forall event :: event in s.records.Keys ==>
      && s.records[event].body.event == event
      && Remembered(setting, s.ledgers, s.records[event].body, s.records[event].who, s.records[event].result)
  }

  ghost predicate RepliesOk(setting: Setting, s: System) {
    && s.replies.Keys <= s.requests.Keys
    && forall d :: d in s.replies.Keys && s.replies[d].Ok? ==>
         Remembered(setting, s.ledgers, s.requests[d].body, s.requests[d].who, s.replies[d].value)
  }

  ghost predicate RequestsOk(setting: Setting, s: System) {
    forall d :: d in s.requests.Keys ==>
      ValidBody(s.requests[d].body) && IdentityOf(setting, s.requests[d].body) == Some(s.requests[d].who)
  }

  /** An event that is being delivered is not recorded, and nobody else is delivering it. */
  ghost predicate OpenOk(s: System) {
    && (forall d :: d in s.open.Keys ==>
          d in s.requests.Keys && s.requests[d] == s.open[d] && s.open[d].body.event !in s.records.Keys)
    && (forall d, other :: d in s.open.Keys && other in s.open.Keys ==>
          s.open[d].body.event == s.open[other].body.event ==> d == other)
  }

  ghost predicate AnswersOk(s: System) {
    forall k :: 0 <= k < |s.answers| ==>
      s.answers[k].event in s.records.Keys && s.records[s.answers[k].event].result == s.answers[k].result
  }

  ghost predicate SystemInvariant(setting: Setting, s: System) {
    RecordsOk(setting, s) && RepliesOk(setting, s) && RequestsOk(setting, s) && OpenOk(s) && AnswersOk(s)
  }

  /** Mutations are never removed or altered by a transaction. */
  lemma ExecuteKeepsMutations(l: Ledger, env: Env, actor: Id, key: Key, request: Request)
    requires request.GiveFeedback?
    ensures RowsFollow(l.mutations, Execute(l, env, actor, key, request).ledger.mutations)
    ensures var o := Execute(l, env, actor, key, request);
      o.result.Ok? ==> key in o.ledger.mutations.Keys
                       && o.ledger.mutations[key] == Mutation(actor, request, o.result.value)
    ensures key in l.mutations.Keys ==> Execute(l, env, actor, key, request).ledger == l
    ensures Execute(l, env, actor, key, request).ledger != l ==>
      key !in l.mutations.Keys && key in Execute(l, env, actor, key, request).ledger.mutations.Keys
  {
  }

  lemma RememberedStays(setting: Setting, s: System, tenant: Id, l': Ledger, body: Body, who: Identity,
                        response: Response)
    requires tenant in s.ledgers.Keys && RowsFollow(s.ledgers[tenant].mutations, l'.mutations)
    requires Remembered(setting, s.ledgers, body, who, response)
    ensures Remembered(setting, s.ledgers[tenant := l'], body, who, response)
  {
  }

  lemma LedgerMoves(setting: Setting, s: System, tenant: Id, l': Ledger)
    requires SystemInvariant(setting, s) && tenant in s.ledgers.Keys
    requires RowsFollow(s.ledgers[tenant].mutations, l'.mutations)
    ensures SystemInvariant(setting, s.(ledgers := s.ledgers[tenant := l']))
  {
    forall event | event in s.records.Keys
      ensures Remembered(setting, s.ledgers[tenant := l'], s.records[event].body, s.records[event].who,
                         s.records[event].result)
    {
      RememberedStays(setting, s, tenant, l', s.records[event].body, s.records[event].who, s.records[event].result);
    }
    forall d | d in s.replies.Keys && s.replies[d].Ok?
      ensures Remembered(setting, s.ledgers[tenant := l'], s.requests[d].body, s.requests[d].who, s.replies[d].value)
    {
      RememberedStays(setting, s, tenant, l', s.requests[d].body, s.requests[d].who, s.replies[d].value);
    }
  }

  /** Any step of a ledger keeps its mutations. */
  lemma NextKeepsMutations(l: Ledger, step: Step, l': Ledger)
    requires Next(l, step, l')
    ensures RowsFollow(l.mutations, l'.mutations)
  {
  }

  lemma ReplyArrives(setting: Setting, s: System, d: DeliveryId, reply: Result<Response, BusinessError>)
    requires SystemInvariant(setting, s) && d in s.requests.Keys
    requires reply.Ok? ==> Remembered(setting, s.ledgers, s.requests[d].body, s.requests[d].who, reply.value)
    ensures SystemInvariant(setting, s.(replies := s.replies[d := reply]))
  {
    var s' := s.(replies := s.replies[d := reply]);
    assert RepliesOk(setting, s');
  }

  lemma DeliverKeeps(setting: Setting, s: System, e: Event, s': System)
    requires SystemInvariant(setting, s) && e.Deliver? && Happens(setting, s, e, s')
    ensures SystemInvariant(setting, s')
  {
    var q := s.requests[e.d];
    var l := s.ledgers[q.who.tenant];
    var key := setting.digest(q.body.event);
    var outcome := Execute(l, e.env, q.who.actor, key, RequestOf(q.body));
    ExecuteKeepsMutations(l, e.env, q.who.actor, key, RequestOf(q.body));
    LedgerMoves(setting, s, q.who.tenant, outcome.ledger);
    ReplyArrives(setting, s.(ledgers := s.ledgers[q.who.tenant := outcome.ledger]), e.d, outcome.result);
  }

  lemma RecordIsOk(setting: Setting, s: System, d: DeliveryId, open: map<DeliveryId, Delivery>, answers: seq<Answer>)
    requires RecordsOk(setting, s) && RepliesOk(setting, s) && OpenOk(s)
    requires d in s.open.Keys && d in s.replies.Keys && s.replies[d].Ok?
    ensures var q := s.open[d];
      RecordsOk(setting, s.(records := s.records[q.body.event := Record(q.body, q.who, s.replies[d].value)],
                            open := open, answers := answers))
  {
    assert Remembered(setting, s.ledgers, s.open[d].body, s.open[d].who, s.replies[d].value);
  }

  lemma RecordClosesDelivery(s: System, d: DeliveryId, record: Record, answers: seq<Answer>)
    requires OpenOk(s) && d in s.open.Keys
    ensures OpenOk(s.(records := s.records[s.open[d].body.event := record], open := s.open - {d}, answers := answers))
  {
  }

  lemma RecordKeepsAnswers(s: System, event: EventId, record: Record, open: map<DeliveryId, Delivery>,
                           answers: seq<Answer>)
    requires AnswersOk(s) && event !in s.records.Keys
    requires answers == s.answers || answers == s.answers + [Answer(event, record.result)]
    ensures AnswersOk(s.(records := s.records[event := record], open := open, answers := answers))
  {
  }

  /** A delivery that is under way and has a successful reply is recorded. */
  lemma RecordAdded(setting: Setting, s: System, d: DeliveryId, answers: seq<Answer>)
    requires SystemInvariant(setting, s) && d in s.open.Keys && d in s.replies.Keys && s.replies[d].Ok?
    requires var event, result := s.open[d].body.event, s.replies[d].value;
      answers == s.answers || answers == s.answers + [Answer(event, result)]
    ensures var q := s.open[d];
      SystemInvariant(setting, s.(records := s.records[q.body.event := Record(q.body, q.who, s.replies[d].value)],
                                  open := s.open - {d}, answers := answers))
  {
    var q := s.open[d];
    var record := Record(q.body, q.who, s.replies[d].value);
    RecordIsOk(setting, s, d, s.open - {d}, answers);
    RecordClosesDelivery(s, d, record, answers);
    RecordKeepsAnswers(s, q.body.event, record, s.open - {d}, answers);
  }

  lemma SettleKeeps(setting: Setting, s: System, e: Event, s': System)
    requires SystemInvariant(setting, s) && e.Settle? && Happens(setting, s, e, s')
    ensures SystemInvariant(setting, s')
  {
    RecordAdded(setting, s, e.d, s'.answers);
  }

  /** A new delivery of an event that is neither recorded nor under way. */
  lemma DeliveryAdded(setting: Setting, s: System, d: DeliveryId, delivery: Delivery)
    requires SystemInvariant(setting, s) && d !in s.requests.Keys && d !in s.open.Keys
    requires Unlocked(s.open, delivery.body.event) && delivery.body.event !in s.records.Keys
    requires ValidBody(delivery.body) && IdentityOf(setting, delivery.body) == Some(delivery.who)
    ensures SystemInvariant(setting, s.(open := s.open[d := delivery], requests := s.requests[d := delivery]))
  {
    OpenAdded(s, d, delivery);
    RequestAdded(setting, s, d, delivery);
  }

  lemma OpenAdded(s: System, d: DeliveryId, delivery: Delivery)
    requires OpenOk(s) && d !in s.requests.Keys && d !in s.open.Keys
    requires Unlocked(s.open, delivery.body.event) && delivery.body.event !in s.records.Keys
    ensures OpenOk(s.(open := s.open[d := delivery], requests := s.requests[d := delivery]))
  {
  }

  lemma RequestAdded(setting: Setting, s: System, d: DeliveryId, delivery: Delivery)
    requires RequestsOk(setting, s) && RepliesOk(setting, s) && d !in s.requests.Keys
    requires ValidBody(delivery.body) && IdentityOf(setting, delivery.body) == Some(delivery.who)
    ensures var s' := s.(open := s.open[d := delivery], requests := s.requests[d := delivery]);
      RequestsOk(setting, s') && RepliesOk(setting, s')
  {
  }

  lemma BeginKeeps(setting: Setting, s: System, e: Event, s': System)
    requires SystemInvariant(setting, s) && e.Begin? && Happens(setting, s, e, s')
    ensures SystemInvariant(setting, s')
  {
    DeliveryAdded(setting, s, e.d, Delivery(e.body, IdentityOf(setting, e.body).value));
  }

  lemma BusinessKeeps(setting: Setting, s: System, e: Event, s': System)
    requires SystemInvariant(setting, s) && e.Business? && Happens(setting, s, e, s')
    ensures SystemInvariant(setting, s')
  {
    NextKeepsMutations(s.ledgers[e.tenant], e.step, s'.ledgers[e.tenant]);
    LedgerMoves(setting, s, e.tenant, s'.ledgers[e.tenant]);
  }

  lemma AnswerAdded(setting: Setting, s: System, event: EventId)
    requires SystemInvariant(setting, s) && event in s.records.Keys
    ensures SystemInvariant(setting, s.(answers := s.answers + [Answer(event, s.records[event].result)]))
  {
    assert AnswersOk(s.(answers := s.answers + [Answer(event, s.records[event].result)]));
  }

  lemma RepeatKeeps(setting: Setting, s: System, e: Event, s': System)
    requires SystemInvariant(setting, s) && e.Repeat? && Happens(setting, s, e, s')
    ensures SystemInvariant(setting, s')
  {
    if s' != s {
      AnswerAdded(setting, s, e.body.event);
    }
  }

  lemma DeliveryDropped(setting: Setting, s: System, d: DeliveryId)
    requires SystemInvariant(setting, s)
    ensures SystemInvariant(setting, s.(open := s.open - {d}))
  {
    assert OpenOk(s.(open := s.open - {d}));
  }

  lemma DropKeeps(setting: Setting, s: System, e: Event, s': System)
    requires SystemInvariant(setting, s) && e.Drop? && Happens(setting, s, e, s')
    ensures SystemInvariant(setting, s')
  {
    DeliveryDropped(setting, s, e.d);
  }

  lemma EventKeepsInvariant(setting: Setting, s: System, e: Event, s': System)
    requires SystemInvariant(setting, s) && Happens(setting, s, e, s')
    ensures SystemInvariant(setting, s')
  {
    if e.Business? {
      BusinessKeeps(setting, s, e, s');
    } else if e.Begin? {
      BeginKeeps(setting, s, e, s');
    } else if e.Repeat? {
      RepeatKeeps(setting, s, e, s');
    } else if e.Deliver? {
      DeliverKeeps(setting, s, e, s');
    } else if e.Settle? {
      SettleKeeps(setting, s, e, s');
    } else {
      DropKeeps(setting, s, e, s');
    }
  }

  lemma {:induction false} HistoryKeepsInvariant(setting: Setting, run: seq<System>, events: seq<Event>, i: nat)
    requires IsHistory(setting, run, events) && i < |run|
    ensures SystemInvariant(setting, run[i])
  {
    if i > 0 {
      HistoryKeepsInvariant(setting, run, events, i - 1);
      EventKeepsInvariant(setting, run[i - 1], events[i - 1], run[i]);
    }
  }

  // ---------- Consequences over whole histories ----------

  /** All successful deliveries of an event return the same result. */
  lemma SuccessfulDeliveriesAgree(setting: Setting, run: seq<System>, events: seq<Event>, i: nat, j: nat, k: nat)
    requires IsHistory(setting, run, events) && i < |run| && j < |run[i].answers| && k < |run[i].answers|
    requires run[i].answers[j].event == run[i].answers[k].event
    ensures run[i].answers[j].result == run[i].answers[k].result
  {
    HistoryKeepsInvariant(setting, run, events, i);
  }

  /** Success is only ever reported for feedback that the business service holds, under the event's own key. */
  lemma SuccessMeansAccepted(setting: Setting, run: seq<System>, events: seq<Event>, i: nat, k: nat)
    returns (body: Body, who: Identity)
    requires IsHistory(setting, run, events) && i < |run| && k < |run[i].answers|
    ensures body.event == run[i].answers[k].event
    ensures Remembered(setting, run[i].ledgers, body, who, run[i].answers[k].result)
  {
    HistoryKeepsInvariant(setting, run, events, i);
    var r := run[i].records[run[i].answers[k].event];
    body, who := r.body, r.who;
  }

  /** The business service executes a request made for this event and tenant. */
  ghost predicate Delivers(s: System, e: Event, event: EventId, tenant: Id) {
    e.Deliver? && e.d in s.requests.Keys && s.requests[e.d].body.event == event && s.requests[e.d].who.tenant == tenant
  }

  ghost function Entries(s: System, tenant: Id, orderId: Id): nat {
    if tenant in s.ledgers.Keys then EntriesBefore(s.ledgers[tenant], orderId) else 0
  }

  /** How many feedback entries the executions for one event have added to one order in the first n steps. */
  ghost function EntriesFrom(run: seq<System>, events: seq<Event>, event: EventId, tenant: Id, orderId: Id, n: nat): int
    requires |run| == |events| + 1 && n <= |events|
  {
    if n == 0 then 0
    else
      EntriesFrom(run, events, event, tenant, orderId, n - 1)
      + if Delivers(run[n - 1], events[n - 1], event, tenant)
        then Entries(run[n], tenant, orderId) - Entries(run[n - 1], tenant, orderId)
        else 0
  }

  /** The ledger has taken feedback on the order under the key. */
  ghost predicate TakenUnder(l: Ledger, key: Key, orderId: Id) {
    key in l.mutations.Keys && l.mutations[key].request.GiveFeedback? && l.mutations[key].request.orderId == orderId
  }

  /** One execution adds one entry, where the request says, if and only if its key is new to the ledger. */
  lemma ExecutionAddsEntry(l: Ledger, env: Env, actor: Id, key: Key, request: Request, orderId: Id)
    requires request.GiveFeedback?
    ensures var l' := Execute(l, env, actor, key, request).ledger;
      && EntriesBefore(l, orderId) <= EntriesBefore(l', orderId) <= EntriesBefore(l, orderId) + 1
      && (EntriesBefore(l', orderId) > EntriesBefore(l, orderId) ==>
            key !in l.mutations.Keys && TakenUnder(l', key, orderId))
  {
    if Execute(l, env, actor, key, request).ledger != l {
      UpdateAddsEntries(l, env, actor, request);
    }
  }

  lemma TakenStays(setting: Setting, s: System, e: Event, s': System, tenant: Id, key: Key, orderId: Id)
    requires Happens(setting, s, e, s') && tenant in s.ledgers.Keys && TakenUnder(s.ledgers[tenant], key, orderId)
    ensures tenant in s'.ledgers.Keys && TakenUnder(s'.ledgers[tenant], key, orderId)
  {
    match e
    case Business(t, step) => NextKeepsMutations(s.ledgers[t], step, s'.ledgers[t]);
    case Deliver(d, env) =>
      var q := s.requests[d];
      ExecuteKeepsMutations(s.ledgers[q.who.tenant], env, q.who.actor, setting.digest(q.body.event), RequestOf(q.body));
    case _ =>
  }

  /**
   * However often an event is delivered, whatever replies are lost and however late requests arrive, the
   * executions for it add at most one entry to one order of the tenant, and none to any other.
   */
  lemma {:induction false} AtMostOneEntry(setting: Setting, run: seq<System>, events: seq<Event>,
                                         event: EventId, tenant: Id, orderId: Id, n: nat)
    requires IsHistory(setting, run, events) && n < |run|
    ensures 0 <= EntriesFrom(run, events, event, tenant, orderId, n) <= 1
    ensures EntriesFrom(run, events, event, tenant, orderId, n) == 1 ==>
      TakenIn(run[n], tenant, setting.digest(event), orderId)
    ensures forall other :: other != orderId ==>
      EntriesFrom(run, events, event, tenant, orderId, n) == 0 || EntriesFrom(run, events, event, tenant, other, n) == 0
  {
    OneEntryInOrder(setting, run, events, event, tenant, orderId, n);
    forall other | other != orderId
      ensures EntriesFrom(run, events, event, tenant, orderId, n) == 0
              || EntriesFrom(run, events, event, tenant, other, n) == 0
    {
      OneEntryInOrder(setting, run, events, event, tenant, other, n);
    }
  }

  /** An execution for the event adds an entry only where nothing was taken under the event's key before. */
  lemma DeliveryAddsEntry(setting: Setting, s: System, e: Event, s': System, event: EventId, tenant: Id, orderId: Id)
    requires Happens(setting, s, e, s') && Delivers(s, e, event, tenant)
    ensures tenant in s.ledgers.Keys && tenant in s'.ledgers.Keys
    ensures Entries(s, tenant, orderId) <= Entries(s', tenant, orderId) <= Entries(s, tenant, orderId) + 1
    ensures Entries(s, tenant, orderId) < Entries(s', tenant, orderId) ==>
      && !TakenUnder(s.ledgers[tenant], setting.digest(event), orderId)
      && TakenUnder(s'.ledgers[tenant], setting.digest(event), orderId)
  {
    var q := s.requests[e.d];
    ExecutionAddsEntry(s.ledgers[tenant], e.env, q.who.actor, setting.digest(event), RequestOf(q.body), orderId);
  }

  /** What one step means for the entries of one event in one order. */
  ghost predicate StepEffect(s: System, e: Event, s': System, key: Key, event: EventId, tenant: Id, orderId: Id) {
    && (TakenIn(s, tenant, key, orderId) ==> TakenIn(s', tenant, key, orderId))
    && (Delivers(s, e, event, tenant) ==>
          && Entries(s, tenant, orderId) <= Entries(s', tenant, orderId) <= Entries(s, tenant, orderId) + 1
          && (Entries(s, tenant, orderId) < Entries(s', tenant, orderId) ==>
                !TakenIn(s, tenant, key, orderId) && TakenIn(s', tenant, key, orderId)))
  }

  ghost predicate TakenIn(s: System, tenant: Id, key: Key, orderId: Id) {
    tenant in s.ledgers.Keys && TakenUnder(s.ledgers[tenant], key, orderId)
  }

  lemma StepHasEffect(setting: Setting, s: System, e: Event, s': System, event: EventId, tenant: Id, orderId: Id)
    requires Happens(setting, s, e, s')
    ensures StepEffect(s, e, s', setting.digest(event), event, tenant, orderId)
  {
    if TakenIn(s, tenant, setting.digest(event), orderId) {
      TakenStays(setting, s, e, s', tenant, setting.digest(event), orderId);
    }
    if Delivers(s, e, event, tenant) {
      DeliveryAddsEntry(setting, s, e, s', event, tenant, orderId);
    }
  }

  /** The steps of a list of states have these effects. */
  ghost predicate Effects(run: seq<System>, events: seq<Event>, key: Key, event: EventId, tenant: Id, orderId: Id) {
    && |run| == |events| + 1
    && (tenant in run[0].ledgers.Keys ==> !TakenUnder(run[0].ledgers[tenant], key, orderId))
    && forall i {:trigger events[i]} :: 0 <= i < |events| ==>
         StepEffect(run[i], events[i], run[i + 1], key, event, tenant, orderId)
  }

  lemma {:induction false} EffectsAddUp(run: seq<System>, events: seq<Event>, key: Key,
                                       event: EventId, tenant: Id, orderId: Id, n: nat)
    requires Effects(run, events, key, event, tenant, orderId) && n < |run|
    ensures 0 <= EntriesFrom(run, events, event, tenant, orderId, n) <= 1
    ensures EntriesFrom(run, events, event, tenant, orderId, n) == 1 ==> TakenIn(run[n], tenant, key, orderId)
  {
    if n > 0 {
      EffectsAddUp(run, events, key, event, tenant, orderId, n - 1);
      assert StepEffect(run[n - 1], events[n - 1], run[n - 1 + 1], key, event, tenant, orderId);
    }
  }

  lemma OneEntryInOrder(setting: Setting, run: seq<System>, events: seq<Event>,
                        event: EventId, tenant: Id, orderId: Id, n: nat)
    requires IsHistory(setting, run, events) && n < |run|
    ensures 0 <= EntriesFrom(run, events, event, tenant, orderId, n) <= 1
    ensures EntriesFrom(run, events, event, tenant, orderId, n) == 1 ==>
      TakenIn(run[n], tenant, setting.digest(event), orderId)
  {
    forall i | 0 <= i < |events|
      ensures StepEffect(run[i], events[i], run[i + 1], setting.digest(event), event, tenant, orderId)
    {
      StepHasEffect(setting, run[i], events[i], run[i + 1], event, tenant, orderId);
    }
    EffectsAddUp(run, events, setting.digest(event), event, tenant, orderId, n);
  }

  /** All requests of one sender go to the tenant that the sender belongs to. */
  lemma OneTenantPerSender(setting: Setting, run: seq<System>, events: seq<Event>, i: nat, d: DeliveryId,
                           other: DeliveryId)
    requires IsHistory(setting, run, events) && i < |run| && d in run[i].requests.Keys && other in run[i].requests.Keys
    requires run[i].requests[d].body.event.channel == run[i].requests[other].body.event.channel
    requires run[i].requests[d].body.senderId == run[i].requests[other].body.senderId
    ensures run[i].requests[d].who == run[i].requests[other].who
  {
    HistoryKeepsInvariant(setting, run, events, i);
  }
}
