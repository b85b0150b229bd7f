/** Each feedback entry of an order is owed to one idempotency key, and each key to at most one entry. */
module FeedbackCount {
  import opened Contracts
  import opened Domain
  import opened DomainProperties
  import opened LedgerInvariant
  import opened LedgerRuns
  import opened Ledgers
  import opened ProjectValidation
  import opened Results

  /** The keys under which feedback on an order was accepted. */
  ghost function FeedbackKeys(mutations: map<Key, Mutation>, id: Id): set<Key> {
    set key | key in mutations.Keys && mutations[key].request.GiveFeedback? && mutations[key].request.orderId == id
  }

  ghost predicate Counted(l: Ledger) {
    && (forall id :: id in l.orders.Keys ==> |FeedbackKeys(l.mutations, id)| == |l.orders[id].feedback|)
    && (forall key :: key in l.mutations.Keys && l.mutations[key].request.GiveFeedback? ==>
          l.mutations[key].request.orderId in l.orders.Keys)
  }

  ghost function EntriesBefore(l: Ledger, id: Id): nat {
    if id in l.orders.Keys then |l.orders[id].feedback| else 0
  }

  /** The orders change as the request demands: one more entry on the order given feedback, nowhere else. */
  ghost predicate AddsEntries(l: Ledger, l': Ledger, request: Request) {
    && l.orders.Keys <= l'.orders.Keys
    && (request.GiveFeedback? ==> request.orderId in l.orders.Keys)
    && forall id :: id in l'.orders.Keys ==>
         |l'.orders[id].feedback|
         == EntriesBefore(l, id) + if request.GiveFeedback? && request.orderId == id then 1 else 0
  }

  lemma {:induction false} InsertAllAddsNone(l: Ledger, orders: seq<Order>)
    requires InsertAll(l, orders).Ok? && forall o :: o in orders ==> o.feedback == []
    ensures var l' := InsertAll(l, orders).value;
      && l.orders.Keys <= l'.orders.Keys
      && forall id :: id in l'.orders.Keys ==> |l'.orders[id].feedback| == EntriesBefore(l, id)
    decreases |orders|
  {
    if orders != [] {
      assert orders[0] in orders;
      InsertAllAddsNone(Publish(l, orders[0].id, orders[0]), orders[1..]);
    }
  }

  /** Storing an order again adds as many entries as the order has gained. */
  lemma PublishAddsEntries(l: Ledger, id: Id, o: Order, request: Request)
    requires id in l.orders.Keys && (request.GiveFeedback? ==> request.orderId == id)
    requires |o.feedback| == |l.orders[id].feedback| + if request.GiveFeedback? then 1 else 0
    ensures AddsEntries(l, Publish(l, id, o), request)
  {
  }

  lemma UpdateAddsEntries(l: Ledger, env: Env, actor: Id, request: Request)
    requires request.GiveFeedback? || request.Assign? || request.Accept? || request.Return? || request.Configure?
    requires request.orderId in l.orders && PerformOn(l, env, actor, request.orderId, request).Ok?
    ensures AddsEntries(l, Publish(l, request.orderId, PerformOn(l, env, actor, request.orderId, request).value),
                        request)
  {
    var o := l.orders[request.orderId];
    var o' := PerformOn(l, env, actor, request.orderId, request).value;
    assert |o'.feedback| == |o.feedback| + if request.GiveFeedback? then 1 else 0 by {
      EntriesGained(l, env, actor, request);
    }
    PublishAddsEntries(l, request.orderId, o', request);
  }

  lemma EntriesGained(l: Ledger, env: Env, actor: Id, request: Request)
    requires request.GiveFeedback? || request.Assign? || request.Accept? || request.Return? || request.Configure?
    requires request.orderId in l.orders && PerformOn(l, env, actor, request.orderId, request).Ok?
    ensures |PerformOn(l, env, actor, request.orderId, request).value.feedback|
         == |l.orders[request.orderId].feedback| + if request.GiveFeedback? then 1 else 0
  {
    var o := l.orders[request.orderId];
    match request
    case GiveFeedback(_, input) => FeedbackAdvances(o, input, actor, env.dir, env.id, env.at);
    case Assign(_, nodeId, expected, owner) => AssignAdvances(o, nodeId, owner, expected, actor, env.dir);
    case Accept(_, nodeId, expected, note) => AcceptAdvances(o, nodeId, note, expected, actor, env.dir, env.at);
    case Return(_, nodeId, expected, note) => ReturnAdvances(o, nodeId, note, expected, actor, env.dir, env.at);
    case Configure(_, input) => ConfigureAdvances(o, input, actor, env.dir, env.at);
    case _ => assert false;
  }

  lemma ApplyAddsNone(l: Ledger, seeded: set<Id>, env: Env, actor: Id, key: Key, changeId: Id, l': Ledger,
                      response: Response)
    requires Invariant(l, seeded) && PerformApply(l, env, key, changeId) == Ok((l', response))
    ensures AddsEntries(l, l', ApplyPlan(changeId))
  {
    var plan := l.plans[changeId];
    var o := l.orders[plan.input.orderId];
    assert OrderOk(seeded, l.outbox, plan.input.orderId, o);
    assert l'.orders == l.orders[o.id := Changed(o, plan)];
  }

  lemma UploadAddsNone(l: Ledger, env: Env, actor: Id, request: Request, l': Ledger, response: Response)
    requires request.Upload?
    requires PerformUpload(l, env, actor, request.orderId, request.nodeId, request.expectedVersion, request.file)
      == Ok((l', response))
    ensures AddsEntries(l, l', request)
  {
    UploadMeans(l, env, actor, request.orderId, request.nodeId, request.expectedVersion, request.file);
    var o := l.orders[request.orderId];
    PublishAddsEntries(l, request.orderId, o.(version := o.version + 1), request);
  }

  lemma CreateAddsNone(l: Ledger, env: Env, actor: Id, key: Key, request: Request, l': Ledger, response: Response)
    requires request.Create? && Perform(l, env, actor, key, request) == Ok((l', response))
    ensures AddsEntries(l, l', request)
  {
    NewProjectIsSound(request.project, l.tenant, actor, env.dir);
  }

  lemma BatchAddsNone(l: Ledger, env: Env, projects: seq<ProjectInput>, l': Ledger, response: Response,
                      request: Request)
    requires request == CreateBatch(projects) && PerformBatch(l, env, projects) == Ok((l', response))
    ensures AddsEntries(l, l', request)
  {
    var created := CreatedOrders(projects, l.tenant);
    BatchMeans(l, env, projects, l', response);
    NewOrdersAreEmpty(projects, l.tenant);
    InsertAllAddsNone(l, created);
  }

  lemma BatchMeans(l: Ledger, env: Env, projects: seq<ProjectInput>, l': Ledger, response: Response)
    requires PerformBatch(l, env, projects) == Ok((l', response))
    ensures InsertAll(l, CreatedOrders(projects, l.tenant)) == Ok(l')
  {
  }

  lemma NewOrdersAreEmpty(projects: seq<ProjectInput>, tenant: Id)
    ensures forall o :: o in CreatedOrders(projects, tenant) ==> o.feedback == []
  {
  }

  lemma ProposeAddsNone(l: Ledger, env: Env, actor: Id, change: ChangeInput, l': Ledger, response: Response,
                        request: Request)
    requires request == Propose(change) && PerformPropose(l, env, actor, change) == Ok((l', response))
    ensures AddsEntries(l, l', request)
  {
    assert l'.orders == l.orders;
  }

  lemma PerformAddsEntries(l: Ledger, seeded: set<Id>, env: Env, actor: Id, key: Key, request: Request,
                           l': Ledger, response: Response)
    requires Invariant(l, seeded) && Perform(l, env, actor, key, request) == Ok((l', response))
    ensures AddsEntries(l, l', request)
  {
    if request.CreateBatch? {
      BatchAddsNone(l, env, request.projects, l', response, request);
    } else if request.Create? {
      CreateAddsNone(l, env, actor, key, request, l', response);
    } else if request.ApplyPlan? {
      ApplyAddsNone(l, seeded, env, actor, key, request.changeId, l', response);
    } else if request.Propose? {
      ProposeAddsNone(l, env, actor, request.change, l', response, request);
    } else if request.Upload? {
      UploadAddsNone(l, env, actor, request, l', response);
    } else {
      UpdateAddsEntries(l, env, actor, request);
    }
  }

  lemma KeysAfter(mutations: map<Key, Mutation>, key: Key, m: Mutation, id: Id)
    requires key !in mutations.Keys
    ensures |FeedbackKeys(mutations[key := m], id)|
         == |FeedbackKeys(mutations, id)| + if m.request.GiveFeedback? && m.request.orderId == id then 1 else 0
  {
    var before, after := FeedbackKeys(mutations, id), FeedbackKeys(mutations[key := m], id);
    if m.request.GiveFeedback? && m.request.orderId == id {
      assert after == before + {key};
    } else {
      assert after == before;
    }
  }

  lemma CountAfter(l: Ledger, l': Ledger, key: Key, m: Mutation)
    requires Counted(l) && key !in l.mutations.Keys && l'.mutations == l.mutations[key := m]
    requires AddsEntries(l, l', m.request)
    ensures Counted(l')
  {
    forall id | id in l'.orders.Keys
      ensures |FeedbackKeys(l'.mutations, id)| == |l'.orders[id].feedback|
    {
      KeysAfter(l.mutations, key, m, id);
      if id !in l.orders.Keys {
        assert FeedbackKeys(l.mutations, id) == {};
      }
    }
  }

  lemma CallKeepsCount(l: Ledger, seeded: set<Id>, env: Env, actor: Id, key: Key, request: Request)
    requires Invariant(l, seeded) && Counted(l)
    ensures Counted(Execute(l, env, actor, key, request).ledger)
  {
    var l' := Execute(l, env, actor, key, request).ledger;
    if l' != l {
      var (body, response) := Perform(l, env, actor, key, request).value;
      PerformAddsEntries(l, seeded, env, actor, key, request, body, response);
      CountAfter(l, l', key, Mutation(actor, request, response));
    }
  }

  lemma DecisionKeepsCount(l: Ledger, env: Env, actor: Id, changeId: Id, approve: bool, expected: int)
    requires Counted(l)
    ensures Counted(Decide(l, env, actor, changeId, approve, expected).ledger)
  {
    var l' := Decide(l, env, actor, changeId, approve, expected).ledger;
    assert l'.orders == l.orders && l'.mutations == l.mutations;
  }

  lemma StepKeepsCount(l: Ledger, seeded: set<Id>, s: Step, l': Ledger)
    requires Invariant(l, seeded) && Counted(l) && Next(l, s, l')
    ensures Counted(l')
  {
    match s
    case Call(env, actor, key, request) => CallKeepsCount(l, seeded, env, actor, key, request);
    case Decision(env, actor, changeId, approve, expected) =>
      DecisionKeepsCount(l, env, actor, changeId, approve, expected);
    case Skip(_) =>
  }

  lemma NextKeepsCount(run: seq<Ledger>, steps: seq<Step>, i: nat)
    requires IsRun(run, steps) && i < |steps| && Counted(run[i])
    ensures Counted(run[i + 1])
  {
    RunKeepsInvariant(run, steps, i, i);
    StepKeepsCount(run[i], run[0].orders.Keys, steps[i], run[i + 1]);
  }

  lemma InitialCount(l: Ledger)
    requires Initial(l)
    ensures Counted(l)
  {
    forall id | id in l.orders.Keys
      ensures |FeedbackKeys(l.mutations, id)| == |l.orders[id].feedback|
    {
      assert FeedbackKeys(l.mutations, id) == {};
    }
  }

  /** In every state an order has as many feedback entries as there are keys under which feedback on it was accepted. */
  lemma {:induction false} OneEntryPerKey(run: seq<Ledger>, steps: seq<Step>, i: nat)
    requires IsRun(run, steps) && i < |run|
    ensures Counted(run[i])
  {
    if i == 0 {
      InitialCount(run[0]);
    } else {
      OneEntryPerKey(run, steps, i - 1);
      NextKeepsCount(run, steps, i - 1);
    }
  }
}
