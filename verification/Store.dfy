/**
 * The transactions as the service runs them: statement by statement on the tables of one tenant, whose lock
 * the transaction holds. An error rolls back to the tables as they were.
 */
module Store {
  import opened BatchPreview
  import opened Contracts
  import opened Domain
  import opened Ledgers
  import opened ProjectValidation
  import opened Results

  class Tables {
    const tenant: Id
    var orders: map<Id, Order>
    var mutations: map<Key, Mutation>
    var plans: map<Id, Plan>
    var invocations: map<Key, Invocation>
    var attachments: seq<Attachment>
    var outbox: seq<OutboxRow>
    var sequence: nat

    constructor (l: Ledger)
      ensures View() == l
    {
      tenant := l.tenant;
      orders, mutations, plans, invocations := l.orders, l.mutations, l.plans, l.invocations;
      attachments, outbox, sequence := l.attachments, l.outbox, l.sequence;
    }

    /** The tables as one value. */
    ghost function View(): Ledger
      reads this
    {
      Ledger(tenant, orders, mutations, plans, invocations, attachments, outbox, sequence)
    }

    /** nextval of the sequence, and the outbox row that carries it. */
    method Announce(objectId: Id, version: int)
      modifies this`sequence, this`outbox
      ensures sequence == old(sequence) + 1
      ensures outbox == old(outbox) + [OutboxRow(sequence, objectId, version)]
    {
      sequence := sequence + 1;
      outbox := outbox + [OutboxRow(sequence, objectId, version)];
    }

    /** The order, the remembered request and the announcement, written together. */
    method StoreOrder(key: Key, m: Mutation, id: Id, order: Order)
      modifies this`orders, this`mutations, this`outbox, this`sequence
      ensures View() == Publish(old(View()), id, order).(mutations := old(mutations)[key := m])
    {
      orders := orders[id := order];
      mutations := mutations[key := m];
      Announce(id, order.version);
    }

    method CreateProject(env: Env, actor: Id, key: Key, input: ProjectInput)
      returns (r: Result<Response, BusinessError>)
      modifies this
      ensures Outcome(View(), r) == Execute(old(View()), env, actor, key, Create(input))
    {
      if !env.dir.Identity(tenant, actor) || !env.dir.Manager(actor) {
        return Err(Forbidden);
      }
      var valid := ValidateProject(input);
      if !valid || !OwnersActive(input.nodes, env.dir) || !KeyGiven(key) {
        return Err(ValidationError);
      }
      var order := CreatedOrder(input, tenant);
      if key in mutations {
        return Replay(mutations[key], actor, Create(input));
      }
      if order.id in orders {
        return Err(OrderExists);
      }
      StoreOrder(key, Mutation(actor, Create(input), OneOrder(order)), order.id, order);
      r := Ok(OneOrder(order));
    }

    /** Feedback, assignment, acceptance and return of a node. */
    method Mutate(env: Env, actor: Id, key: Key, request: Request) returns (r: Result<Response, BusinessError>)
      requires request.GiveFeedback? || request.Assign? || request.Accept? || request.Return?
      modifies this
      ensures Outcome(View(), r) == Execute(old(View()), env, actor, key, request)
    {
      if !KeyGiven(key) {
        return Err(ValidationError);
      }
      if key in mutations {
        return Replay(mutations[key], actor, request);
      }
      var id := request.orderId;
      if id !in orders {
        return Err(NotFound);
      }
      var updated :=
        match request
        case GiveFeedback(_, input) => ApplyFeedback(orders[id], input, actor, env.dir, env.id, env.at)
        case Return(_, nodeId, expected, note) => ReturnNode(orders[id], nodeId, note, expected, actor, env.dir, env.at)
        case Accept(_, nodeId, expected, note) => AcceptNode(orders[id], nodeId, note, expected, actor, env.dir, env.at)
        case Assign(_, nodeId, expected, owner) => AssignOwner(orders[id], nodeId, owner, expected, actor, env.dir);
      if updated.Err? {
        return Err(updated.error);
      }
      StoreOrder(key, Mutation(actor, request, OneOrder(updated.value)), id, updated.value);
      r := Ok(OneOrder(updated.value));
    }

    method ConfigureStoredProject(env: Env, actor: Id, key: Key, id: Id, input: ConfigurationInput)
      returns (r: Result<Response, BusinessError>)
      modifies this
      ensures Outcome(View(), r) == Execute(old(View()), env, actor, key, Configure(id, input))
    {
      if !env.dir.Identity(tenant, actor) || !env.dir.Manager(actor) {
        return Err(Forbidden);
      }
      if !KeyGiven(key) {
        return Err(ValidationError);
      }
      if key in mutations {
        return Replay(mutations[key], actor, Configure(id, input));
      }
      if id !in orders {
        return Err(NotFound);
      }
      var updated := ConfigureOrder(orders[id], input, actor, env);
      if updated.Err? {
        return Err(updated.error);
      }
      StoreOrder(key, Mutation(actor, Configure(id, input), OneOrder(updated.value)), id, updated.value);
      r := Ok(OneOrder(updated.value));
    }

    method CreateProjectBatch(env: Env, actor: Id, key: Key, inputs: seq<ProjectInput>)
      returns (r: Result<Response, BusinessError>)
      modifies this
      ensures Outcome(View(), r) == Execute(old(View()), env, actor, key, CreateBatch(inputs))
    {
      if !env.dir.Identity(tenant, actor) || !env.dir.Manager(actor) {
        return Err(Forbidden);
      }
      if !KeyGiven(key) {
        return Err(ValidationError);
      }
      if key in mutations {
        return Replay(mutations[key], actor, CreateBatch(inputs));
      }
      ghost var was := View();
      r := WriteBatch(env, inputs);
      assert Perform(was, env, actor, key, CreateBatch(inputs)) == PerformBatch(was, env, inputs);
      if r.Ok? {
        mutations := mutations[key := Mutation(actor, CreateBatch(inputs), r.value)];
      }
    }

    method WriteBatch(env: Env, inputs: seq<ProjectInput>) returns (r: Result<Response, BusinessError>)
      modifies this`orders, this`outbox, this`sequence
      ensures var p := PerformBatch(old(View()), env, inputs);
        if p.Ok? then r == Ok(p.value.1) && View() == p.value.0 else r == Err(p.error) && View() == old(View())
    {
      ghost var was := View();
      var admissible := BatchAdmissible(inputs, env.dir);
      if !admissible {
        BatchIsRefused(was, env, inputs);
        return Err(ValidationError);
      }
      var created := CreatedOrders(inputs, tenant);
      BatchIsInsertion(was, env, inputs);
      var inserted := InsertOrders(created);
      r := if inserted then Ok(ManyOrders(created)) else Err(OrderExists);
    }

    /** One insert and one announcement per order; an id that exists rolls all of them back. */
    method InsertOrders(created: seq<Order>) returns (ok: bool)
      modifies this`orders, this`outbox, this`sequence
      ensures ok <==> InsertAll(old(View()), created).Ok?
      ensures View() == if ok then InsertAll(old(View()), created).value else old(View())
    {
      var ordersBefore, outboxBefore, sequenceBefore := orders, outbox, sequence;
      var i := 0;
      while i < |created|
        invariant i <= |created|
        invariant View() == old(View()).(orders := orders, outbox := outbox, sequence := sequence)
        invariant InsertAll(View(), created[i..]) == InsertAll(old(View()), created)
      {
        var order := created[i];
        if order.id in orders {
          orders, outbox, sequence := ordersBefore, outboxBefore, sequenceBefore;
          return false;
        }
        orders := orders[order.id := order];
        Announce(order.id, order.version);
        i := i + 1;
      }
      ok := true;
    }

    method UploadAttachment(env: Env, actor: Id, key: Key, orderId: Id, nodeId: Id, expectedVersion: int,
                            file: FileData)
      returns (r: Result<Response, BusinessError>)
      modifies this
      ensures Outcome(View(), r)
        == Execute(old(View()), env, actor, key, Upload(orderId, nodeId, expectedVersion, file))
    {
      var request := Upload(orderId, nodeId, expectedVersion, file);
      if !env.dir.Identity(tenant, actor) {
        return Err(Forbidden);
      }
      if !ValidId(key) || !ValidId(orderId) || !ValidId(nodeId) || !(1 <= expectedVersion <= MAX_SAFE_INTEGER)
         || !ValidFile(file) {
        return Err(ValidationError);
      }
      if key in mutations {
        return Replay(mutations[key], actor, request);
      }
      r := WriteUpload(env, actor, orderId, nodeId, expectedVersion, file);
      if r.Ok? {
        mutations := mutations[key := Mutation(actor, request, r.value)];
      }
    }

    method CheckUpload(env: Env, actor: Id, orderId: Id, nodeId: Id, expectedVersion: int, file: FileData)
      returns (refusal: Option<BusinessError>)
      ensures var target := UploadTarget(View(), env, actor, orderId, nodeId, expectedVersion, file);
        refusal == if target.Ok? then None else Some(target.error)
    {
      if orderId !in orders {
        return Some(NotFound);
      }
      var o := orders[orderId];
      if o.version != expectedVersion {
        return Some(VersionConflict);
      }
      var found := IndexOf(o.nodes, nodeId);
      if found.None? {
        return Some(NotFound);
      }
      var n := o.nodes[found.value];
      if !env.dir.Manager(actor) && n.owner != actor {
        return Some(Forbidden);
      }
      if n.status == Status.Accepted {
        return Some(NodeClosed);
      }
      if FilesOf(attachments, orderId) >= MAX_FILES || BytesOf(attachments, orderId) + file.size > MAX_ORDER_BYTES {
        return Some(AttachmentLimit);
      }
      refusal := None;
    }

    method WriteUpload(env: Env, actor: Id, orderId: Id, nodeId: Id, expectedVersion: int, file: FileData)
      returns (r: Result<Response, BusinessError>)
      modifies this`orders, this`attachments, this`outbox, this`sequence
      ensures var p := PerformUpload(old(View()), env, actor, orderId, nodeId, expectedVersion, file);
        if p.Ok? then r == Ok(p.value.1) && View() == p.value.0 else r == Err(p.error) && View() == old(View())
    {
      var refusal := CheckUpload(env, actor, orderId, nodeId, expectedVersion, file);
      if refusal.Some? {
        return Err(refusal.value);
      }
      var o := orders[orderId];
      var attachment := Attachment(env.id, orderId, nodeId, actor, o.version, file);
      attachments := attachments + [attachment];
      var updated := o.(version := o.version + 1);
      orders := orders[orderId := updated];
      Announce(orderId, updated.version);
      r := Ok(Uploaded(attachment));
    }

    method ProposeChange(env: Env, actor: Id, key: Key, change: ChangeInput)
      returns (r: Result<Response, BusinessError>)
      modifies this
      ensures Outcome(View(), r) == Execute(old(View()), env, actor, key, Propose(change))
    {
      if !env.dir.Identity(tenant, actor) || !env.dir.Manager(actor) {
        return Err(Forbidden);
      }
      if !ValidId(key) || !ValidChange(change) {
        return Err(ValidationError);
      }
      if key in mutations {
        return Replay(mutations[key], actor, Propose(change));
      }
      if change.orderId !in orders {
        return Err(NotFound);
      }
      if orders[change.orderId].version != change.sourceVersion {
        return Err(VersionConflict);
      }
      var plan := Plan(env.id, change, actor, 1, Awaiting, None);
      plans := plans[env.id := plan];
      mutations := mutations[key := Mutation(actor, Propose(change), OnePlan(plan))];
      r := Ok(OnePlan(plan));
    }

    method DecideChange(env: Env, actor: Id, changeId: Id, approve: bool, expectedPlanVersion: int)
      returns (r: Result<Plan, BusinessError>)
      modifies this
      ensures Decision(View(), r) == Decide(old(View()), env, actor, changeId, approve, expectedPlanVersion)
    {
      if !env.dir.Identity(tenant, actor) || !env.dir.Manager(actor) {
        return Err(Forbidden);
      }
      if !ValidId(changeId) || !(1 <= expectedPlanVersion <= MAX_SAFE_INTEGER) {
        return Err(ValidationError);
      }
      if changeId !in plans {
        return Err(NotFound);
      }
      var plan := plans[changeId];
      if plan.planVersion != expectedPlanVersion {
        return Err(VersionConflict);
      }
      if plan.input.orderId !in orders {
        return Err(NotFound);
      }
      if orders[plan.input.orderId].version != plan.input.sourceVersion {
        return Err(VersionConflict);
      }
      if plan.status != Awaiting {
        return Err(ChangeAlreadyDecided);
      }
      var decided := plan.(status := if approve then Approved else Rejected, decidedBy := Some(actor));
      plans := plans[changeId := decided];
      r := Ok(decided);
    }

    method ApplyChange(env: Env, actor: Id, key: Key, changeId: Id) returns (r: Result<Response, BusinessError>)
      modifies this
      ensures Outcome(View(), r) == Execute(old(View()), env, actor, key, ApplyPlan(changeId))
    {
      if !env.dir.Identity(tenant, actor) || !env.dir.Manager(actor) {
        return Err(Forbidden);
      }
      if !ValidId(changeId) || !ValidId(key) {
        return Err(ValidationError);
      }
      if key in mutations {
        return Replay(mutations[key], actor, ApplyPlan(changeId));
      }
      r := WriteApplication(env, key, changeId);
      if r.Ok? {
        mutations := mutations[key := Mutation(actor, ApplyPlan(changeId), r.value)];
      }
    }

    method WriteApplication(env: Env, key: Key, changeId: Id) returns (r: Result<Response, BusinessError>)
      modifies this`orders, this`plans, this`invocations, this`outbox, this`sequence
      ensures var p := PerformApply(old(View()), env, key, changeId);
        if p.Ok? then r == Ok(p.value.1) && View() == p.value.0 else r == Err(p.error) && View() == old(View())
    {
      if changeId !in plans {
        return Err(NotFound);
      }
      var plan := plans[changeId];
      if plan.status == Applied {
        return Err(ChangeAlreadyApplied);
      }
      if plan.status != Approved {
        return Err(ChangeNotApproved);
      }
      if plan.input.orderId !in orders {
        return Err(NotFound);
      }
      var o := orders[plan.input.orderId];
      if o.version != plan.input.sourceVersion {
        return Err(VersionConflict);
      }
      var updated := Changed(o, plan);
      var receipt := Invocation(env.id, changeId, updated);
      orders := orders[o.id := updated];
      plans := plans[changeId := plan.(status := Applied)];
      invocations := invocations[key := receipt];
      Announce(o.id, updated.version);
      r := Ok(Receipt(receipt));
    }
  }

  /** A valid batch whose nodes all belong to active members. */
  method BatchAdmissible(inputs: seq<ProjectInput>, dir: Directory) returns (ok: bool)
    ensures ok <==> BatchValid(inputs) && forall p :: p in inputs ==> OwnersActive(p.nodes, dir)
  {
    var valid, errors := PreviewProjectBatch(inputs, []);
    ok := valid && forall p :: p in inputs ==> OwnersActive(p.nodes, dir);
  }

  lemma BatchIsRefused(l: Ledger, env: Env, inputs: seq<ProjectInput>)
    requires !BatchValid(inputs) || exists p :: p in inputs && !OwnersActive(p.nodes, env.dir)
    ensures PerformBatch(l, env, inputs) == Err(ValidationError)
  {
  }

  lemma BatchIsInsertion(l: Ledger, env: Env, inputs: seq<ProjectInput>)
    requires BatchValid(inputs) && forall p :: p in inputs ==> OwnersActive(p.nodes, env.dir)
    ensures var created := CreatedOrders(inputs, l.tenant);
      PerformBatch(l, env, inputs) ==
        if InsertAll(l, created).Ok? then Ok((InsertAll(l, created).value, ManyOrders(created))) else Err(OrderExists)
  {
    OnlyExistingRefuses(l, CreatedOrders(inputs, l.tenant));
  }

  lemma {:induction false} OnlyExistingRefuses(l: Ledger, created: seq<Order>)
    ensures InsertAll(l, created).Err? ==> InsertAll(l, created).error == OrderExists
    decreases |created|
  {
    if created != [] {
      OnlyExistingRefuses(Publish(l, created[0].id, created[0]), created[1..]);
    }
  }

  /** Check a new configuration and compute the reconfigured order. */
  method ConfigureOrder(o: Order, input: ConfigurationInput, actor: Id, env: Env)
    returns (r: Result<Order, BusinessError>)
    ensures r == ConfigureProject(o, input, actor, env.dir, env.at)
  {
    if !env.dir.Identity(o.tenant, actor) || !env.dir.Manager(actor) {
      return Err(Forbidden);
    }
    if input.expectedVersion != o.version {
      return Err(VersionConflict);
    }
    var valid := ValidateProject(Proposed(o, input));
    var nodes := UnstartedNodes(input.nodes);
    if !valid || !OwnersActive(nodes, env.dir) || !SameNodes(o, nodes) {
      return Err(ValidationError);
    }
    r := Ok(Reconfigured(o, input, actor, env.at));
  }
}
