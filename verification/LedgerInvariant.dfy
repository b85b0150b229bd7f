/** What every transaction keeps true of a tenant's tables, and what it never takes back. */
module LedgerInvariant {
  import opened Contracts
  import opened Domain
  import opened DomainProperties
  import opened Ledgers
  import opened ProjectValidation
  import opened Results
  import opened ScheduleProperties

  // ---------- The invariant ----------

  /** Versions announced for one order, in outbox order. */
  ghost function Versions(outbox: seq<OutboxRow>, id: Id): seq<int> {
    if outbox == [] then []
    else
      var last := outbox[|outbox| - 1];
      Versions(outbox[..|outbox| - 1], id) + if last.objectId == id then [last.version] else []
  }

  /** The integers from a to b. */
  ghost function Run(a: int, b: int): seq<int>
    decreases b - a
  {
    if b < a then [] else Run(a, b - 1) + [b]
  }

  ghost predicate OutboxInOrder(outbox: seq<OutboxRow>, sequence: nat) {
    && (forall i, j :: 0 <= i < j < |outbox| ==> outbox[i].sequence < outbox[j].sequence)
    && (forall i :: 0 <= i < |outbox| ==> outbox[i].sequence <= sequence)
  }

  /** The version at which announcing starts: demonstration orders are there from the start, unannounced. */
  ghost function FirstVersion(seeded: set<Id>, id: Id): int {
    if id in seeded then 2 else 1
  }

  ghost predicate OrderOk(seeded: set<Id>, outbox: seq<OutboxRow>, id: Id, o: Order) {
    && o.id == id && FirstVersion(seeded, id) - 1 <= o.version
    && Versions(outbox, id) == Run(FirstVersion(seeded, id), o.version)
    && OrderSound(o) && Schedulable(o)
  }

  ghost predicate OrdersOk(seeded: set<Id>, orders: map<Id, Order>, outbox: seq<OutboxRow>) {
    && (forall id :: id in orders.Keys ==> OrderOk(seeded, outbox, id, orders[id]))
    && (forall id :: id !in orders.Keys ==> Versions(outbox, id) == [] && id !in seeded)
  }

  /** The order's approved changes are applied plans, written for ever later versions of it. */
  ghost predicate ChangesOk(plans: map<Id, Plan>, id: Id, o: Order) {
    && (forall k :: 0 <= k < |o.approvedChanges| ==>
          var change := o.approvedChanges[k];
          && change.changeId in plans.Keys && plans[change.changeId].status == Applied
          && plans[change.changeId].input.orderId == id
          && plans[change.changeId].input.sourceVersion == change.sourceVersion
          && change.sourceVersion < o.version)
    && (forall j, k :: 0 <= j < k < |o.approvedChanges| ==>
          o.approvedChanges[j].sourceVersion < o.approvedChanges[k].sourceVersion)
  }

  ghost predicate ListedAsApproved(o: Order, changeId: Id) {
    exists k :: 0 <= k < |o.approvedChanges| && o.approvedChanges[k].changeId == changeId
  }

  /** A plan belongs to an order, was written for a version it had, and if applied is listed there. */
  ghost predicate PlanOk(orders: map<Id, Order>, id: Id, plan: Plan) {
    && plan.id == id && plan.input.orderId in orders.Keys
    && plan.input.sourceVersion <= orders[plan.input.orderId].version
    && (plan.status == Applied ==> ListedAsApproved(orders[plan.input.orderId], id))
  }

  ghost predicate PlansOk(orders: map<Id, Order>, plans: map<Id, Plan>) {
    && (forall id :: id in orders.Keys ==> ChangesOk(plans, id, orders[id]))
    && (forall id :: id in plans.Keys ==> PlanOk(orders, id, plans[id]))
  }

  /** Receipts and the remembered applications of plans are the same thing, one per applied plan. */
  ghost predicate ReceiptsOk(plans: map<Id, Plan>, mutations: map<Key, Mutation>, invocations: map<Key, Invocation>) {
    && (forall key :: key in invocations.Keys ==>
          && key in mutations.Keys && mutations[key].request == ApplyPlan(invocations[key].changeId)
          && mutations[key].response == Receipt(invocations[key])
          && invocations[key].changeId in plans.Keys && plans[invocations[key].changeId].status == Applied)
    && (forall key :: key in mutations.Keys && mutations[key].request.ApplyPlan? ==> key in invocations.Keys)
    && (forall key, other :: key in invocations.Keys && other in invocations.Keys ==>
          invocations[key].changeId == invocations[other].changeId ==> key == other)
  }

  ghost predicate Invariant(l: Ledger, seeded: set<Id>) {
    && OutboxInOrder(l.outbox, l.sequence)
    && OrdersOk(seeded, l.orders, l.outbox)
    && PlansOk(l.orders, l.plans)
    && ReceiptsOk(l.plans, l.mutations, l.invocations)
  }

  // ---------- What is never taken back ----------

  /** A plan's content never changes; a rejection or an application is final, and only an approved plan is applied. */
  ghost predicate PlanFollows(p: Plan, p': Plan) {
    && p'.id == p.id && p'.input == p.input && p'.planVersion == p.planVersion
    && (p.status == Rejected ==> p' == p)
    && (p.status == Applied ==> p' == p)
    && (p.status == Approved ==> p'.status == Approved || p'.status == Applied)
  }

  ghost predicate OrderFollows(o: Order, o': Order) {
    && o'.id == o.id && o.version <= o'.version && NodesKept(o, o')
    && o.approvedChanges <= o'.approvedChanges
  }

  ghost predicate OrdersFollow(orders: map<Id, Order>, orders': map<Id, Order>) {
    forall id :: id in orders.Keys ==> id in orders'.Keys && OrderFollows(orders[id], orders'[id])
  }

  ghost predicate PlansFollow(plans: map<Id, Plan>, plans': map<Id, Plan>) {
    forall id :: id in plans.Keys ==> id in plans'.Keys && PlanFollows(plans[id], plans'[id])
  }

  ghost predicate RowsFollow<T>(rows: map<Key, T>, rows': map<Key, T>) {
    forall key :: key in rows.Keys ==> key in rows'.Keys && rows'[key] == rows[key]
  }

  ghost predicate Follows(l: Ledger, l': Ledger) {
    && l'.tenant == l.tenant && l.sequence <= l'.sequence && l.outbox <= l'.outbox
    && OrdersFollow(l.orders, l'.orders) && PlansFollow(l.plans, l'.plans)
    && RowsFollow(l.mutations, l'.mutations) && RowsFollow(l.invocations, l'.invocations)
  }

  lemma FollowsItself(l: Ledger)
    ensures Follows(l, l)
  {
  }

  lemma FollowsTransitively(l: Ledger, l': Ledger, l'': Ledger)
    requires Follows(l, l') && Follows(l', l'')
    ensures Follows(l, l'')
  {
    forall id | id in l.orders.Keys
      ensures id in l''.orders.Keys && OrderFollows(l.orders[id], l''.orders[id])
    {
      assert OrderFollows(l.orders[id], l'.orders[id]) && OrderFollows(l'.orders[id], l''.orders[id]);
    }
    forall id | id in l.plans.Keys
      ensures id in l''.plans.Keys && PlanFollows(l.plans[id], l''.plans[id])
    {
      assert PlanFollows(l.plans[id], l'.plans[id]) && PlanFollows(l'.plans[id], l''.plans[id]);
    }
    assert RowsFollow(l.mutations, l''.mutations) && RowsFollow(l.invocations, l''.invocations);
  }

  // ---------- Publishing an order ----------

  lemma VersionsAfter(outbox: seq<OutboxRow>, row: OutboxRow, id: Id)
    ensures Versions(outbox + [row], id) == Versions(outbox, id) + if row.objectId == id then [row.version] else []
  {
    assert (outbox + [row])[..|outbox|] == outbox;
  }

  lemma PublishKeepsOrder(l: Ledger, id: Id, order: Order)
    requires OutboxInOrder(l.outbox, l.sequence)
    ensures OutboxInOrder(Publish(l, id, order).outbox, Publish(l, id, order).sequence)
  {
  }

  /** Publishing the next version of an order, or the first version of a new one, announces it. */
  lemma PublishKeepsOrders(l: Ledger, seeded: set<Id>, id: Id, order: Order)
    requires OrdersOk(seeded, l.orders, l.outbox) && order.id == id && OrderSound(order) && Schedulable(order)
    requires if id in l.orders then order.version == l.orders[id].version + 1 else order.version == 1
    ensures OrdersOk(seeded, Publish(l, id, order).orders, Publish(l, id, order).outbox)
  {
    var l' := Publish(l, id, order);
    var row := OutboxRow(l.sequence + 1, id, order.version);
    assert id in l.orders.Keys ==> OrderOk(seeded, l.outbox, id, l.orders[id]);
    forall x
      ensures x in l'.orders.Keys ==> OrderOk(seeded, l'.outbox, x, l'.orders[x])
      ensures x !in l'.orders.Keys ==> Versions(l'.outbox, x) == [] && x !in seeded
    {
      VersionsAfter(l.outbox, row, x);
      if x == id {
        assert Run(1, 0) == [];
      }
    }
  }

  /** An update that approves no change leaves orders and plans in agreement. */
  lemma UpdateKeepsPlans(orders: map<Id, Order>, plans: map<Id, Plan>, id: Id, o': Order)
    requires PlansOk(orders, plans)
    requires id in orders ==> orders[id].version <= o'.version && o'.approvedChanges == orders[id].approvedChanges
    requires id !in orders ==> o'.approvedChanges == []
    ensures PlansOk(orders[id := o'], plans)
  {
    var orders' := orders[id := o'];
    forall x | x in orders'.Keys
      ensures ChangesOk(plans, x, orders'[x])
    {
      assert x in orders.Keys ==> ChangesOk(plans, x, orders[x]);
    }
    forall p | p in plans.Keys
      ensures PlanOk(orders', p, plans[p])
    {
      assert PlanOk(orders, p, plans[p]);
    }
  }

  lemma UpdateFollows(orders: map<Id, Order>, id: Id, o': Order)
    requires id in orders.Keys ==> OrderFollows(orders[id], o')
    ensures OrdersFollow(orders, orders[id := o'])
  {
  }

  // ---------- The transactions ----------

  /** The result of a transaction body keeps all tables but the mutations in order and takes nothing back. */
  ghost predicate BodyOk(l: Ledger, l': Ledger, seeded: set<Id>) {
    && OutboxInOrder(l'.outbox, l'.sequence) && OrdersOk(seeded, l'.orders, l'.outbox) && PlansOk(l'.orders, l'.plans)
    && l'.tenant == l.tenant && l.sequence <= l'.sequence && l.outbox <= l'.outbox
    && OrdersFollow(l.orders, l'.orders) && PlansFollow(l.plans, l'.plans)
    && l'.mutations == l.mutations
  }

  lemma PublishedBody(l: Ledger, seeded: set<Id>, id: Id, o': Order, plans: map<Id, Plan>,
                      invocations: map<Key, Invocation>)
    requires OutboxInOrder(l.outbox, l.sequence)
    requires OrdersOk(seeded, Publish(l, id, o').orders, Publish(l, id, o').outbox)
    requires PlansOk(l.orders[id := o'], plans) && OrdersFollow(l.orders, l.orders[id := o'])
    requires PlansFollow(l.plans, plans)
    ensures BodyOk(l, Publish(l, id, o').(plans := plans, invocations := invocations), seeded)
  {
    PublishKeepsOrder(l, id, o');
  }

  /** The plans and receipts stay as they are. */
  lemma PublishedOrder(l: Ledger, seeded: set<Id>, id: Id, o': Order)
    requires OutboxInOrder(l.outbox, l.sequence)
    requires OrdersOk(seeded, Publish(l, id, o').orders, Publish(l, id, o').outbox)
    requires PlansOk(l.orders[id := o'], l.plans) && OrdersFollow(l.orders, l.orders[id := o'])
    ensures BodyOk(l, Publish(l, id, o'), seeded)
  {
    assert PlansFollow(l.plans, l.plans);
    PublishedBody(l, seeded, id, o', l.plans, l.invocations);
    assert Publish(l, id, o').(plans := l.plans, invocations := l.invocations) == Publish(l, id, o');
  }

  lemma PublishedUpdate(l: Ledger, seeded: set<Id>, id: Id, o': Order)
    requires Invariant(l, seeded) && id in l.orders.Keys
    requires Advances(l.orders[id], o') && o'.approvedChanges == l.orders[id].approvedChanges
    ensures BodyOk(l, Publish(l, id, o'), seeded)
  {
    assert OrderOk(seeded, l.outbox, id, l.orders[id]);
    PublishKeepsOrders(l, seeded, id, o');
    UpdateKeepsPlans(l.orders, l.plans, id, o');
    UpdateFollows(l.orders, id, o');
    PublishedOrder(l, seeded, id, o');
  }

  lemma PublishedCreation(l: Ledger, seeded: set<Id>, order: Order)
    requires OutboxInOrder(l.outbox, l.sequence) && OrdersOk(seeded, l.orders, l.outbox) && PlansOk(l.orders, l.plans)
    requires order.id !in l.orders.Keys && order.version == 1 && order.approvedChanges == []
    requires OrderSound(order) && Schedulable(order)
    ensures BodyOk(l, Publish(l, order.id, order), seeded)
  {
    PublishKeepsOrders(l, seeded, order.id, order);
    UpdateKeepsPlans(l.orders, l.plans, order.id, order);
    UpdateFollows(l.orders, order.id, order);
    PublishedOrder(l, seeded, order.id, order);
  }

  lemma UpdateAdvances(l: Ledger, env: Env, actor: Id, id: Id, request: Request)
    requires id in l.orders.Keys && PerformOn(l, env, actor, id, request).Ok?
    ensures var o, o' := l.orders[id], PerformOn(l, env, actor, id, request).value;
      Advances(o, o') && o'.approvedChanges == o.approvedChanges
  {
    var o := l.orders[id];
    match request
    case GiveFeedback(_, input) => FeedbackAdvances(o, input, actor, env.dir, env.id, env.at);
    case Assign(_, nodeId, expected, owner) => AssignAdvances(o, nodeId, owner, expected, actor, env.dir);
    case Accept(_, nodeId, expected, note) => AcceptAdvances(o, nodeId, note, expected, actor, env.dir, env.at);
    case Return(_, nodeId, expected, note) => ReturnAdvances(o, nodeId, note, expected, actor, env.dir, env.at);
    case Configure(_, input) => ConfigureAdvances(o, input, actor, env.dir, env.at);
    case _ => assert false;
  }

  lemma OrderUpdated(l: Ledger, seeded: set<Id>, env: Env, actor: Id, id: Id, request: Request)
    requires Invariant(l, seeded) && id in l.orders.Keys && PerformOn(l, env, actor, id, request).Ok?
    ensures BodyOk(l, Publish(l, id, PerformOn(l, env, actor, id, request).value), seeded)
  {
    UpdateAdvances(l, env, actor, id, request);
    PublishedUpdate(l, seeded, id, PerformOn(l, env, actor, id, request).value);
  }

  /** A stored file is a new version of its order and one more attachment. */
  lemma UploadMeans(l: Ledger, env: Env, actor: Id, orderId: Id, nodeId: Id, expected: int, file: FileData)
    requires PerformUpload(l, env, actor, orderId, nodeId, expected, file).Ok?
    ensures orderId in l.orders.Keys
    ensures var o := l.orders[orderId]; var l' := PerformUpload(l, env, actor, orderId, nodeId, expected, file).value.0;
      l' == Publish(l, orderId, o.(version := o.version + 1)).(attachments := l'.attachments)
  {
  }

  lemma AttachmentsDoNotMatter(l: Ledger, l': Ledger, seeded: set<Id>, attachments: seq<Attachment>)
    requires BodyOk(l, l', seeded)
    ensures BodyOk(l, l'.(attachments := attachments), seeded)
  {
  }

  /** The next version of an order, with nothing else about it changed. */
  lemma NextVersionKeeps(l: Ledger, seeded: set<Id>, id: Id)
    requires Invariant(l, seeded) && id in l.orders.Keys
    ensures BodyOk(l, Publish(l, id, l.orders[id].(version := l.orders[id].version + 1)), seeded)
  {
    NextVersionAdvances(l.orders[id]);
    PublishedUpdate(l, seeded, id, l.orders[id].(version := l.orders[id].version + 1));
  }

  lemma StoredKeeps(l: Ledger, seeded: set<Id>, stored: Ledger, published: Ledger)
    requires BodyOk(l, published, seeded) && stored == published.(attachments := stored.attachments)
    requires published.plans == l.plans && published.invocations == l.invocations
    ensures BodyOk(l, stored, seeded) && stored.plans == l.plans && stored.invocations == l.invocations
  {
    AttachmentsDoNotMatter(l, published, seeded, stored.attachments);
  }

  lemma UploadKeeps(l: Ledger, seeded: set<Id>, env: Env, actor: Id, orderId: Id, nodeId: Id, expected: int,
                    file: FileData)
    requires Invariant(l, seeded) && PerformUpload(l, env, actor, orderId, nodeId, expected, file).Ok?
    ensures BodyOk(l, PerformUpload(l, env, actor, orderId, nodeId, expected, file).value.0, seeded)
    ensures var l' := PerformUpload(l, env, actor, orderId, nodeId, expected, file).value.0;
      l'.plans == l.plans && l'.invocations == l.invocations
  {
    UploadMeans(l, env, actor, orderId, nodeId, expected, file);
    NextVersionKeeps(l, seeded, orderId);
    StoredKeeps(l, seeded, PerformUpload(l, env, actor, orderId, nodeId, expected, file).value.0,
                Publish(l, orderId, l.orders[orderId].(version := l.orders[orderId].version + 1)));
  }

  lemma NextVersionAdvances(o: Order)
    ensures Advances(o, o.(version := o.version + 1))
  {
  }

  lemma ProposeKeeps(l: Ledger, seeded: set<Id>, env: Env, actor: Id, change: ChangeInput)
    requires Invariant(l, seeded) && env.id !in l.plans.Keys && PerformPropose(l, env, actor, change).Ok?
    ensures BodyOk(l, PerformPropose(l, env, actor, change).value.0, seeded)
  {
    var plans' := PerformPropose(l, env, actor, change).value.0.plans;
    PlanAdded(l.orders, l.plans, plans', env.id);
  }

  lemma PlanAdded(orders: map<Id, Order>, plans: map<Id, Plan>, plans': map<Id, Plan>, id: Id)
    requires PlansOk(orders, plans) && id !in plans.Keys && id in plans'.Keys && plans' == plans[id := plans'[id]]
    requires PlanOk(orders, id, plans'[id])
    ensures PlansOk(orders, plans') && PlansFollow(plans, plans')
  {
    forall x | x in orders.Keys
      ensures ChangesOk(plans', x, orders[x])
    {
      assert ChangesOk(plans, x, orders[x]);
    }
  }

  /** A decision changes a plan that is still awaiting one. */
  lemma PlanDecided(orders: map<Id, Order>, plans: map<Id, Plan>, id: Id, plan: Plan)
    requires PlansOk(orders, plans) && id in plans.Keys && plans[id].status == Awaiting
    requires plan.status == Approved || plan.status == Rejected
    requires plan.id == plans[id].id && plan.input == plans[id].input && plan.planVersion == plans[id].planVersion
    ensures PlansOk(orders, plans[id := plan]) && PlansFollow(plans, plans[id := plan])
  {
    var plans' := plans[id := plan];
    forall x | x in orders.Keys
      ensures ChangesOk(plans', x, orders[x])
    {
      assert ChangesOk(plans, x, orders[x]);
    }
    forall p | p in plans'.Keys
      ensures PlanOk(orders, p, plans'[p])
    {
      assert PlanOk(orders, p, plans[p]);
    }
  }

  lemma {:induction false} InsertAllKeeps(l: Ledger, seeded: set<Id>, orders: seq<Order>)
    requires OutboxInOrder(l.outbox, l.sequence) && OrdersOk(seeded, l.orders, l.outbox) && PlansOk(l.orders, l.plans)
    requires forall o :: o in orders ==>
      o.version == 1 && o.approvedChanges == [] && OrderSound(o) && Schedulable(o)
    requires InsertAll(l, orders).Ok?
    ensures BodyOk(l, InsertAll(l, orders).value, seeded)
    ensures InsertAll(l, orders).value.plans == l.plans && InsertAll(l, orders).value.invocations == l.invocations
    decreases |orders|
  {
    if orders != [] {
      assert orders[0] in orders;
      PublishedCreation(l, seeded, orders[0]);
      var next := Publish(l, orders[0].id, orders[0]);
      InsertAllKeeps(next, seeded, orders[1..]);
      OrdersFollowTransitively(l.orders, next.orders, InsertAll(l, orders).value.orders);
    }
  }

  lemma OrdersFollowTransitively(a: map<Id, Order>, b: map<Id, Order>, c: map<Id, Order>)
    requires OrdersFollow(a, b) && OrdersFollow(b, c)
    ensures OrdersFollow(a, c)
  {
    forall id | id in a.Keys
      ensures id in c.Keys && OrderFollows(a[id], c[id])
    {
      assert OrderFollows(a[id], b[id]) && OrderFollows(b[id], c[id]);
    }
  }

  lemma BatchKeeps(l: Ledger, seeded: set<Id>, env: Env, actor: Id, projects: seq<ProjectInput>)
    requires Invariant(l, seeded) && env.dir.Identity(l.tenant, actor) && env.dir.Manager(actor)
    requires PerformBatch(l, env, projects).Ok?
    ensures BodyOk(l, PerformBatch(l, env, projects).value.0, seeded)
    ensures PerformBatch(l, env, projects).value.0.plans == l.plans
    ensures PerformBatch(l, env, projects).value.0.invocations == l.invocations
  {
    var orders := CreatedOrders(projects, l.tenant);
    forall o | o in orders
      ensures o.version == 1 && o.approvedChanges == [] && OrderSound(o) && Schedulable(o)
    {
      var i :| 0 <= i < |orders| && orders[i] == o;
      assert projects[i] in projects;
      NewProjectIsSound(projects[i], l.tenant, actor, env.dir);
    }
    InsertAllKeeps(l, seeded, orders);
  }

  /** Applying an approved plan lists it on its order ... */
  lemma AppliedChangesOk(plans: map<Id, Plan>, id: Id, o: Order)
    requires id in plans.Keys && plans[id].id == id && plans[id].status == Approved
    requires plans[id].input.orderId == o.id && plans[id].input.sourceVersion == o.version
    requires ChangesOk(plans, o.id, o)
    ensures ChangesOk(plans[id := plans[id].(status := Applied)], o.id, Changed(o, plans[id]))
    ensures ListedAsApproved(Changed(o, plans[id]), id)
    ensures forall p :: ListedAsApproved(o, p) ==> ListedAsApproved(Changed(o, plans[id]), p)
  {
    var o' := Changed(o, plans[id]);
    assert o'.approvedChanges[|o.approvedChanges|].changeId == id;
    forall p | ListedAsApproved(o, p)
      ensures ListedAsApproved(o', p)
    {
      var k :| 0 <= k < |o.approvedChanges| && o.approvedChanges[k].changeId == p;
      assert o'.approvedChanges[k].changeId == p;
    }
  }

  lemma OtherChangesOk(plans: map<Id, Plan>, id: Id, x: Id, o: Order)
    requires id in plans.Keys && plans[id].status == Approved && ChangesOk(plans, x, o)
    ensures ChangesOk(plans[id := plans[id].(status := Applied)], x, o)
  {
  }

  /** ... and marks it applied, together. */
  lemma PlanAppliedToOrder(orders: map<Id, Order>, plans: map<Id, Plan>, id: Id, orderId: Id)
    requires PlansOk(orders, plans) && id in plans.Keys && plans[id].status == Approved
    requires orderId == plans[id].input.orderId && orderId in orders.Keys && orders[orderId].id == orderId
    requires orders[orderId].version == plans[id].input.sourceVersion
    ensures PlansOk(orders[orderId := Changed(orders[orderId], plans[id])], plans[id := plans[id].(status := Applied)])
  {
    var o := orders[orderId];
    var o' := Changed(o, plans[id]);
    var orders', plans' := orders[orderId := o'], plans[id := plans[id].(status := Applied)];
    assert PlanOk(orders, id, plans[id]) && ChangesOk(plans, orderId, o);
    AppliedChangesOk(plans, id, o);
    forall x | x in orders'.Keys
      ensures ChangesOk(plans', x, orders'[x])
    {
      assert ChangesOk(plans, x, orders[x]);
      OtherChangesOk(plans, id, x, orders[x]);
    }
    forall p | p in plans'.Keys
      ensures PlanOk(orders', p, plans'[p])
    {
      assert PlanOk(orders, p, plans[p]);
    }
  }

  lemma AppliedPlanFollows(plans: map<Id, Plan>, id: Id)
    requires id in plans.Keys && plans[id].status == Approved
    ensures PlansFollow(plans, plans[id := plans[id].(status := Applied)])
  {
  }

  lemma ChangedAdvances(o: Order, plan: Plan)
    ensures Advances(o, Changed(o, plan)) && OrderFollows(o, Changed(o, plan))
  {
  }

  lemma ApplyMeans(l: Ledger, env: Env, key: Key, changeId: Id, l': Ledger, response: Response)
    requires PerformApply(l, env, key, changeId) == Ok((l', response))
    ensures changeId in l.plans.Keys && l.plans[changeId].status == Approved
    ensures var plan := l.plans[changeId];
      && plan.input.orderId in l.orders.Keys && l.orders[plan.input.orderId].version == plan.input.sourceVersion
      && response.Receipt? && response.invocation.changeId == changeId
      && var o := l.orders[plan.input.orderId];
         l' == Publish(l, o.id, Changed(o, plan)).(plans := l.plans[changeId := plan.(status := Applied)],
                                                   invocations := l.invocations[key := response.invocation])
  {
  }

  lemma ApplyKeeps(l: Ledger, seeded: set<Id>, env: Env, key: Key, changeId: Id, l': Ledger, response: Response)
    requires Invariant(l, seeded) && PerformApply(l, env, key, changeId) == Ok((l', response))
    ensures BodyOk(l, l', seeded)
    ensures l.plans[changeId].status == Approved && l'.plans[changeId].status == Applied
    ensures response.Receipt? && response.invocation.changeId == changeId
    ensures l'.invocations == l.invocations[key := response.invocation]
  {
    ApplyMeans(l, env, key, changeId, l', response);
    var plan := l.plans[changeId];
    var orderId := plan.input.orderId;
    var o := l.orders[orderId];
    assert OrderOk(seeded, l.outbox, orderId, o);
    ChangedAdvances(o, plan);
    PublishKeepsOrders(l, seeded, orderId, Changed(o, plan));
    PlanAppliedToOrder(l.orders, l.plans, changeId, orderId);
    AppliedPlanFollows(l.plans, changeId);
    UpdateFollows(l.orders, orderId, Changed(o, plan));
    PublishedBody(l, seeded, orderId, Changed(o, plan), l'.plans, l'.invocations);
  }

  lemma UpdateKeeps(l: Ledger, seeded: set<Id>, env: Env, actor: Id, key: Key, request: Request, l': Ledger,
                    response: Response)
    requires Invariant(l, seeded) && Perform(l, env, actor, key, request) == Ok((l', response))
    requires request.GiveFeedback? || request.Assign? || request.Accept? || request.Return? || request.Configure?
    ensures BodyOk(l, l', seeded) && l'.invocations == l.invocations
  {
    OrderUpdated(l, seeded, env, actor, request.orderId, request);
  }

  lemma CreateKeeps(l: Ledger, seeded: set<Id>, env: Env, actor: Id, key: Key, request: Request, l': Ledger,
                    response: Response)
    requires Invariant(l, seeded) && request.Create? && Perform(l, env, actor, key, request) == Ok((l', response))
    ensures BodyOk(l, l', seeded) && l'.invocations == l.invocations
  {
    NewProjectIsSound(request.project, l.tenant, actor, env.dir);
    PublishedCreation(l, seeded, NewProject(request.project, l.tenant, actor, env.dir).value);
  }

  /** What a transaction body must do to the receipts. */
  ghost predicate ReceiptKept(l: Ledger, l': Ledger, key: Key, request: Request, response: Response) {
    if request.ApplyPlan? then
      && request.changeId in l.plans.Keys && l.plans[request.changeId].status == Approved
      && request.changeId in l'.plans.Keys && l'.plans[request.changeId].status == Applied
      && response.Receipt? && response.invocation.changeId == request.changeId
      && l'.invocations == l.invocations[key := response.invocation]
    else l'.invocations == l.invocations
  }

  lemma PerformKeeps(l: Ledger, seeded: set<Id>, env: Env, actor: Id, key: Key, request: Request, l': Ledger,
                     response: Response)
    requires Invariant(l, seeded) && env.id !in l.plans.Keys
    requires Precheck(l.tenant, env, actor, key, request).None?
    requires Perform(l, env, actor, key, request) == Ok((l', response))
    ensures BodyOk(l, l', seeded) && ReceiptKept(l, l', key, request, response)
  {
    if request.ApplyPlan? {
      ApplyKeeps(l, seeded, env, key, request.changeId, l', response);
    } else if request.Create? {
      CreateKeeps(l, seeded, env, actor, key, request, l', response);
    } else if request.CreateBatch? {
      BatchKeeps(l, seeded, env, actor, request.projects);
    } else {
      PerformOnOrderKeeps(l, seeded, env, actor, key, request, l', response);
    }
  }

  lemma UploadCase(l: Ledger, seeded: set<Id>, env: Env, actor: Id, key: Key, request: Request, l': Ledger,
                   response: Response)
    requires Invariant(l, seeded) && request.Upload?
    requires PerformUpload(l, env, actor, request.orderId, request.nodeId, request.expectedVersion, request.file)
      == Ok((l', response))
    ensures BodyOk(l, l', seeded) && l'.invocations == l.invocations
  {
    UploadKeeps(l, seeded, env, actor, request.orderId, request.nodeId, request.expectedVersion, request.file);
  }

  lemma ProposeCase(l: Ledger, seeded: set<Id>, env: Env, actor: Id, request: Request, l': Ledger, response: Response)
    requires Invariant(l, seeded) && env.id !in l.plans.Keys && request.Propose?
    requires PerformPropose(l, env, actor, request.change) == Ok((l', response))
    ensures BodyOk(l, l', seeded) && l'.invocations == l.invocations
  {
    ProposeKeeps(l, seeded, env, actor, request.change);
  }

  lemma PerformOnOrderKeeps(l: Ledger, seeded: set<Id>, env: Env, actor: Id, key: Key, request: Request,
                            l': Ledger, response: Response)
    requires Invariant(l, seeded) && env.id !in l.plans.Keys
    requires Perform(l, env, actor, key, request) == Ok((l', response))
    requires !request.ApplyPlan? && !request.Create? && !request.CreateBatch?
    ensures BodyOk(l, l', seeded) && l'.invocations == l.invocations
  {
    if request.Upload? {
      UploadCase(l, seeded, env, actor, key, request, l', response);
    } else if request.Propose? {
      ProposeCase(l, seeded, env, actor, request, l', response);
    } else {
      UpdateKeeps(l, seeded, env, actor, key, request, l', response);
    }
  }

  lemma ReceiptsStay(plans: map<Id, Plan>, plans': map<Id, Plan>, mutations: map<Key, Mutation>,
                     invocations: map<Key, Invocation>, key: Key, m: Mutation)
    requires ReceiptsOk(plans, mutations, invocations) && PlansFollow(plans, plans')
    requires key !in mutations.Keys && !m.request.ApplyPlan?
    ensures ReceiptsOk(plans', mutations[key := m], invocations)
  {
    forall k | k in invocations.Keys
      ensures invocations[k].changeId in plans'.Keys && plans'[invocations[k].changeId].status == Applied
    {
      assert PlanFollows(plans[invocations[k].changeId], plans'[invocations[k].changeId]);
    }
  }

  /** A receipt under a new key is of a plan that had none. */
  lemma ReceiptsOfOthers(plans: map<Id, Plan>, plans': map<Id, Plan>, mutations: map<Key, Mutation>,
                         invocations: map<Key, Invocation>, changeId: Id, k: Key)
    requires ReceiptsOk(plans, mutations, invocations) && PlansFollow(plans, plans') && k in invocations.Keys
    requires changeId in plans.Keys && plans[changeId].status != Applied
    ensures k in mutations.Keys && invocations[k].changeId != changeId
    ensures invocations[k].changeId in plans'.Keys && plans'[invocations[k].changeId].status == Applied
  {
    assert PlanFollows(plans[invocations[k].changeId], plans'[invocations[k].changeId]);
  }

  lemma ReceiptAdded(plans: map<Id, Plan>, plans': map<Id, Plan>, mutations: map<Key, Mutation>,
                     invocations: map<Key, Invocation>, key: Key, m: Mutation, receipt: Invocation)
    requires ReceiptsOk(plans, mutations, invocations) && PlansFollow(plans, plans')
    requires key !in mutations.Keys && m.request == ApplyPlan(receipt.changeId) && m.response == Receipt(receipt)
    requires receipt.changeId in plans.Keys && plans[receipt.changeId].status != Applied
    requires plans'[receipt.changeId].status == Applied
    ensures ReceiptsOk(plans', mutations[key := m], invocations[key := receipt])
    ensures RowsFollow(invocations, invocations[key := receipt])
  {
    forall k | k in invocations.Keys
      ensures k in mutations.Keys && invocations[k].changeId != receipt.changeId
      ensures invocations[k].changeId in plans'.Keys && plans'[invocations[k].changeId].status == Applied
    {
      ReceiptsOfOthers(plans, plans', mutations, invocations, receipt.changeId, k);
    }
  }

  /** Remembering the result of a transaction body completes it. */
  lemma RememberKeeps(l: Ledger, seeded: set<Id>, body: Ledger, key: Key, m: Mutation)
    requires Invariant(l, seeded) && BodyOk(l, body, seeded) && key !in l.mutations.Keys
    requires ReceiptsOk(body.plans, l.mutations[key := m], body.invocations)
    requires RowsFollow(l.invocations, body.invocations)
    ensures Invariant(body.(mutations := l.mutations[key := m]), seeded)
    ensures Follows(l, body.(mutations := l.mutations[key := m]))
  {
  }

  /** A transaction keeps the invariant and takes nothing back, whatever the request and its outcome. */
  lemma ExecuteKeepsInvariant(l: Ledger, seeded: set<Id>, env: Env, actor: Id, key: Key, request: Request)
    requires Invariant(l, seeded) && env.id !in l.plans.Keys
    ensures Invariant(Execute(l, env, actor, key, request).ledger, seeded)
    ensures Follows(l, Execute(l, env, actor, key, request).ledger)
  {
    FollowsItself(l);
    var l' := Execute(l, env, actor, key, request).ledger;
    if l' != l {
      var (body, response) := Perform(l, env, actor, key, request).value;
      var m := Mutation(actor, request, response);
      PerformKeeps(l, seeded, env, actor, key, request, body, response);
      if request.ApplyPlan? {
        ReceiptAdded(l.plans, body.plans, l.mutations, l.invocations, key, m, response.invocation);
      } else {
        ReceiptsStay(l.plans, body.plans, l.mutations, l.invocations, key, m);
      }
      RememberKeeps(l, seeded, body, key, m);
    }
  }

  /** A decision that is taken changes the status of one plan that was awaiting it. */
  lemma DecisionMeans(l: Ledger, env: Env, actor: Id, changeId: Id, approve: bool, expected: int)
    requires Decide(l, env, actor, changeId, approve, expected).result.Ok?
    ensures var d := Decide(l, env, actor, changeId, approve, expected);
      && changeId in l.plans.Keys && l.plans[changeId].status == Awaiting
      && d.result.value
         == l.plans[changeId].(status := if approve then Approved else Rejected, decidedBy := Some(actor))
      && d.ledger == l.(plans := l.plans[changeId := d.result.value])
  {
  }

  lemma DecisionKeepsReceipts(l: Ledger, changeId: Id, plan: Plan)
    requires ReceiptsOk(l.plans, l.mutations, l.invocations) && changeId in l.plans.Keys
    requires l.plans[changeId].status == Awaiting
    ensures ReceiptsOk(l.plans[changeId := plan], l.mutations, l.invocations)
  {
    forall k | k in l.invocations.Keys
      ensures l.invocations[k].changeId != changeId
    {
      assert l.plans[l.invocations[k].changeId].status == Applied;
    }
  }

  lemma PlansReplaced(l: Ledger, seeded: set<Id>, plans: map<Id, Plan>)
    requires Invariant(l, seeded) && PlansOk(l.orders, plans) && PlansFollow(l.plans, plans)
    requires ReceiptsOk(plans, l.mutations, l.invocations)
    ensures Invariant(l.(plans := plans), seeded) && Follows(l, l.(plans := plans))
  {
    FollowsItself(l);
  }

  lemma DecideKeepsInvariant(l: Ledger, seeded: set<Id>, env: Env, actor: Id, changeId: Id, approve: bool,
                             expected: int)
    requires Invariant(l, seeded)
    ensures Invariant(Decide(l, env, actor, changeId, approve, expected).ledger, seeded)
    ensures Follows(l, Decide(l, env, actor, changeId, approve, expected).ledger)
  {
    var d := Decide(l, env, actor, changeId, approve, expected);
    if d.result.Ok? {
      DecisionMeans(l, env, actor, changeId, approve, expected);
      PlanDecided(l.orders, l.plans, changeId, d.result.value);
      DecisionKeepsReceipts(l, changeId, d.result.value);
      PlansReplaced(l, seeded, l.plans[changeId := d.result.value]);
    } else {
      RefusedDecisionChangesNothing(l, env, actor, changeId, approve, expected);
      FollowsItself(l);
    }
  }

  lemma RefusedDecisionChangesNothing(l: Ledger, env: Env, actor: Id, changeId: Id, approve: bool, expected: int)
    requires Decide(l, env, actor, changeId, approve, expected).result.Err?
    ensures Decide(l, env, actor, changeId, approve, expected).ledger == l
  {
  }

  /**
   * The approved changes of an order are exactly its applied plans: none twice, none missing, one per source version.
   */
  lemma ChangesAreAppliedPlans(l: Ledger, seeded: set<Id>, id: Id, changeId: Id)
    requires Invariant(l, seeded) && id in l.orders.Keys
    ensures ListedAsApproved(l.orders[id], changeId) <==>
      changeId in l.plans.Keys && l.plans[changeId].status == Applied && l.plans[changeId].input.orderId == id
    ensures forall j, k :: 0 <= j < k < |l.orders[id].approvedChanges| ==>
      && l.orders[id].approvedChanges[j].changeId != l.orders[id].approvedChanges[k].changeId
      && l.orders[id].approvedChanges[j].sourceVersion != l.orders[id].approvedChanges[k].sourceVersion
  {
    assert ChangesOk(l.plans, id, l.orders[id]);
    if changeId in l.plans.Keys {
      assert PlanOk(l.orders, changeId, l.plans[changeId]);
    }
  }
}
