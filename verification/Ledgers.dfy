/**
 * The business tables of one tenant and the transactions on them.
 *
 * Every transaction holds the tenant's lock from its first read to its commit, so its effect is a function of
 * the committed tables: either the whole new ledger or, on any error, the old one. The outbox sequence is
 * shared by all tenants; transactions of others and rolled back ones make it skip numbers.
 *
 * A request fingerprint is the request itself: hashing and serialisation are taken to be injective.
 */
module Ledgers {
  import opened Contracts
  import opened Domain
  import opened ProjectValidation
  import opened Results

  type Key = string

  datatype ChangeInput = ChangeInput(orderId: Id, sourceVersion: int, due: Day, extraCostCents: int, reason: string)

  datatype PlanStatus = Awaiting | Approved | Rejected | Applied

  datatype Plan = Plan(
    id: Id,
    input: ChangeInput,
    proposedBy: Id,
    planVersion: int,
    status: PlanStatus,
    decidedBy: Option<Id>)

  /** A completed application of a plan: its receipt. */
  datatype Invocation = Invocation(id: Id, changeId: Id, result: Order)

  datatype FileData = FileData(filename: string, mime: string, size: nat, sha256: string)

  datatype Attachment = Attachment(id: Id, orderId: Id, nodeId: Id, actor: Id, sourceVersion: int, file: FileData)

  datatype OutboxRow = OutboxRow(sequence: nat, objectId: Id, version: int)

  datatype Request =
    | Create(project: ProjectInput)
    | CreateBatch(projects: seq<ProjectInput>)
    | GiveFeedback(orderId: Id, feedback: FeedbackInput)
    | Assign(orderId: Id, nodeId: Id, expectedVersion: int, owner: Id)
    | Accept(orderId: Id, nodeId: Id, expectedVersion: int, note: Option<string>)
    | Return(orderId: Id, nodeId: Id, expectedVersion: int, note: Option<string>)
    | Configure(orderId: Id, configuration: ConfigurationInput)
    | Upload(orderId: Id, nodeId: Id, expectedVersion: int, file: FileData)
    | Propose(change: ChangeInput)
    | ApplyPlan(changeId: Id)

  datatype Response =
    | OneOrder(order: Order)
    | ManyOrders(orders: seq<Order>)
    | OnePlan(plan: Plan)
    | Receipt(invocation: Invocation)
    | Uploaded(attachment: Attachment)

  /** What is remembered under an idempotency key. */
  datatype Mutation = Mutation(actor: Id, request: Request, response: Response)

  datatype Ledger = Ledger(
    tenant: Id,
    orders: map<Id, Order>,
    mutations: map<Key, Mutation>,
    plans: map<Id, Plan>,
    invocations: map<Key, Invocation>,
    attachments: seq<Attachment>,
    outbox: seq<OutboxRow>,
    sequence: nat)

  /** The member directory of the request, a fresh random id, and the clock. */
  datatype Env = Env(dir: Directory, id: Id, at: Timestamp)

  const MAX_FILE_BYTES := 2 * 1024 * 1024
  const MAX_FILES := 50
  const MAX_ORDER_BYTES := 10 * 1024 * 1024
  const MAX_BATCH := 50

  predicate KeyGiven(key: Key) {
    0 < |key| <= 100
  }

  /** Not blank and at most 100 characters. */
  predicate ValidId(id: string) {
    Text(id, 100)
  }

  predicate ValidChange(c: ChangeInput) {
    && 1 <= c.sourceVersion <= MAX_SAFE_INTEGER
    && 0 <= c.extraCostCents <= MAX_SAFE_INTEGER
    && Text(c.reason, 500) && ValidId(c.orderId)
  }

  predicate ValidFile(f: FileData) {
    Text(f.filename, 120) && 0 < f.size <= MAX_FILE_BYTES
  }

  // ---------- Before the transaction ----------

  ghost function Precheck(tenant: Id, env: Env, actor: Id, key: Key, request: Request): Option<BusinessError> {
    var identified := env.dir.Identity(tenant, actor);
    var manager := identified && env.dir.Manager(actor);
    match request
    case Create(project) =>
      var order := NewProject(project, tenant, actor, env.dir);
      if order.Err? then Some(order.error) else if !KeyGiven(key) then Some(ValidationError) else None
    case CreateBatch(_) =>
      if !manager then Some(Forbidden) else if !KeyGiven(key) then Some(ValidationError) else None
    case Configure(_, _) =>
      if !manager then Some(Forbidden) else if !KeyGiven(key) then Some(ValidationError) else None
    case Upload(orderId, nodeId, expectedVersion, file) =>
      if !identified then Some(Forbidden)
      else if !ValidId(key) || !ValidId(orderId) || !ValidId(nodeId) || !(1 <= expectedVersion <= MAX_SAFE_INTEGER)
              || !ValidFile(file) then Some(ValidationError)
      else None
    case Propose(change) =>
      if !manager then Some(Forbidden)
      else if !ValidId(key) || !ValidChange(change) then Some(ValidationError)
      else None
    case ApplyPlan(changeId) =>
      if !manager then Some(Forbidden) else if !ValidId(changeId) || !ValidId(key) then Some(ValidationError) else None
    case _ => if !KeyGiven(key) then Some(ValidationError) else None
  }

  // ---------- Inside the transaction ----------

  /** Store the order and announce its version. */
  function Publish(l: Ledger, id: Id, order: Order): Ledger {
    l.(orders := l.orders[id := order],
       outbox := l.outbox + [OutboxRow(l.sequence + 1, id, order.version)],
       sequence := l.sequence + 1)
  }

  function PublishUpdate(l: Ledger, id: Id, updated: Result<Order, BusinessError>)
    : Result<(Ledger, Response), BusinessError>
  {
    match updated
    case Err(e) => Err(e)
    case Ok(order) => Ok((Publish(l, id, order), OneOrder(order)))
  }

  /** Insert new orders one after the other; the first id that exists refuses the whole batch. */
  function InsertAll(l: Ledger, orders: seq<Order>): Result<Ledger, BusinessError>
    decreases |orders|
  {
    if orders == [] then Ok(l)
    else if orders[0].id in l.orders then Err(OrderExists)
    else InsertAll(Publish(l, orders[0].id, orders[0]), orders[1..])
  }

  predicate DistinctProjects(projects: seq<ProjectInput>) {
    forall i, j :: 0 <= i < j < |projects| ==> projects[i].id != projects[j].id
  }

  ghost predicate BatchValid(projects: seq<ProjectInput>) {
    && 1 <= |projects| <= MAX_BATCH && DistinctProjects(projects)
    && forall p :: p in projects ==> ValidProject(p)
  }

  function CreatedOrders(projects: seq<ProjectInput>, tenant: Id): (r: seq<Order>)
    ensures |r| == |projects| && forall i :: 0 <= i < |projects| ==> r[i] == CreatedOrder(projects[i], tenant)
  {
    if projects == [] then [] else [CreatedOrder(projects[0], tenant)] + CreatedOrders(projects[1..], tenant)
  }

  ghost function PerformBatch(l: Ledger, env: Env, projects: seq<ProjectInput>)
    : Result<(Ledger, Response), BusinessError>
  {
    if !BatchValid(projects) || exists p :: p in projects && !OwnersActive(p.nodes, env.dir) then Err(ValidationError)
    else
      var orders := CreatedOrders(projects, l.tenant);
      match InsertAll(l, orders)
      case Err(e) => Err(e)
      case Ok(l') => Ok((l', ManyOrders(orders)))
  }

  function FilesOf(attachments: seq<Attachment>, orderId: Id): nat {
    if attachments == [] then 0
    else
      var last := attachments[|attachments| - 1];
      FilesOf(attachments[..|attachments| - 1], orderId) + if last.orderId == orderId then 1 else 0
  }

  function BytesOf(attachments: seq<Attachment>, orderId: Id): nat {
    if attachments == [] then 0
    else
      var last := attachments[|attachments| - 1];
      BytesOf(attachments[..|attachments| - 1], orderId) + if last.orderId == orderId then last.file.size else 0
  }

  /** The position of the node that the file may be stored for. */
  function UploadTarget(l: Ledger, env: Env, actor: Id, orderId: Id, nodeId: Id, expectedVersion: int, file: FileData)
    : (r: Result<nat, BusinessError>)
    ensures r.Ok? ==> orderId in l.orders
  {
    if orderId !in l.orders then Err(NotFound)
    else
      var o := l.orders[orderId];
      match Checked(o, nodeId, expectedVersion)
      case Err(e) => Err(e)
      case Ok(i) =>
        if !env.dir.Manager(actor) && o.nodes[i].owner != actor then Err(Forbidden)
        else if o.nodes[i].status == Accepted then Err(NodeClosed)
        else if FilesOf(l.attachments, orderId) >= MAX_FILES
                || BytesOf(l.attachments, orderId) + file.size > MAX_ORDER_BYTES then Err(AttachmentLimit)
        else Ok(i)
  }

  function PerformUpload(l: Ledger, env: Env, actor: Id, orderId: Id, nodeId: Id, expectedVersion: int, file: FileData)
    : Result<(Ledger, Response), BusinessError>
  {
    match UploadTarget(l, env, actor, orderId, nodeId, expectedVersion, file)
    case Err(e) => Err(e)
    case Ok(_) =>
      var o := l.orders[orderId];
      var attachment := Attachment(env.id, orderId, nodeId, actor, o.version, file);
      var stored := Publish(l, orderId, o.(version := o.version + 1));
      Ok((stored.(attachments := l.attachments + [attachment]), Uploaded(attachment)))
  }

  /** The order that a change was written for, still at the version it was written for. */
  function SourceOf(l: Ledger, change: ChangeInput): Result<Order, BusinessError> {
    if change.orderId !in l.orders then Err(NotFound)
    else if l.orders[change.orderId].version != change.sourceVersion then Err(VersionConflict)
    else Ok(l.orders[change.orderId])
  }

  function PerformPropose(l: Ledger, env: Env, actor: Id, change: ChangeInput)
    : Result<(Ledger, Response), BusinessError>
  {
    match SourceOf(l, change)
    case Err(e) => Err(e)
    case Ok(_) =>
      var plan := Plan(env.id, change, actor, 1, Awaiting, None);
      Ok((l.(plans := l.plans[env.id := plan]), OnePlan(plan)))
  }

  function Changed(o: Order, plan: Plan): Order {
    o.(due := plan.input.due,
       version := o.version + 1,
       approvedChanges := o.approvedChanges
         + [ApprovedChange(plan.id, plan.input.extraCostCents, plan.input.reason, plan.decidedBy,
                           plan.input.sourceVersion)])
  }

  function PerformApply(l: Ledger, env: Env, key: Key, changeId: Id): Result<(Ledger, Response), BusinessError> {
    if changeId !in l.plans then Err(NotFound)
    else
      var plan := l.plans[changeId];
      if plan.status == Applied then Err(ChangeAlreadyApplied)
      else if plan.status != Approved then Err(ChangeNotApproved)
      else
        match SourceOf(l, plan.input)
        case Err(e) => Err(e)
        case Ok(o) =>
          var receipt := Invocation(env.id, changeId, Changed(o, plan));
          var stored := Publish(l, o.id, receipt.result);
          Ok((stored.(plans := l.plans[changeId := plan.(status := Applied)],
                      invocations := l.invocations[key := receipt]),
              Receipt(receipt)))
  }

  ghost function PerformOn(l: Ledger, env: Env, actor: Id, orderId: Id, request: Request): Result<Order, BusinessError>
    requires orderId in l.orders
  {
    var o := l.orders[orderId];
    match request
    case GiveFeedback(_, input) => ApplyFeedback(o, input, actor, env.dir, env.id, env.at)
    case Assign(_, nodeId, expected, owner) => AssignOwner(o, nodeId, owner, expected, actor, env.dir)
    case Accept(_, nodeId, expected, note) => AcceptNode(o, nodeId, note, expected, actor, env.dir, env.at)
    case Return(_, nodeId, expected, note) => ReturnNode(o, nodeId, note, expected, actor, env.dir, env.at)
    case Configure(_, input) => ConfigureProject(o, input, actor, env.dir, env.at)
    case _ => Err(ValidationError)
  }

  /** The effect of a request that was not seen before, except for remembering it. */
  ghost function Perform(l: Ledger, env: Env, actor: Id, key: Key, request: Request)
    : Result<(Ledger, Response), BusinessError>
  {
    match request
    case Create(project) =>
      if project.id in l.orders then Err(OrderExists)
      else PublishUpdate(l, project.id, NewProject(project, l.tenant, actor, env.dir))
    case CreateBatch(projects) => PerformBatch(l, env, projects)
    case Upload(orderId, nodeId, expectedVersion, file) =>
      PerformUpload(l, env, actor, orderId, nodeId, expectedVersion, file)
    case Propose(change) => PerformPropose(l, env, actor, change)
    case ApplyPlan(changeId) => PerformApply(l, env, key, changeId)
    case _ =>
      if request.orderId !in l.orders then Err(NotFound)
      else PublishUpdate(l, request.orderId, PerformOn(l, env, actor, request.orderId, request))
  }

  datatype Outcome = Outcome(ledger: Ledger, result: Result<Response, BusinessError>)

  /** A repeated key returns what it returned before, or is refused when it carries another request. */
  function Replay(m: Mutation, actor: Id, request: Request): Result<Response, BusinessError> {
    if m.actor == actor && m.request == request then Ok(m.response) else Err(IdempotencyConflict)
  }

  /** One whole transaction. */
  ghost function Execute(l: Ledger, env: Env, actor: Id, key: Key, request: Request): Outcome {
    match Precheck(l.tenant, env, actor, key, request)
    case Some(e) => Outcome(l, Err(e))
    case None =>
      if key in l.mutations then Outcome(l, Replay(l.mutations[key], actor, request))
      else
        match Perform(l, env, actor, key, request)
        case Err(e) => Outcome(l, Err(e))
        case Ok((l', response)) =>
          Outcome(l'.(mutations := l.mutations[key := Mutation(actor, request, response)]), Ok(response))
  }

  datatype Decision = Decision(ledger: Ledger, result: Result<Plan, BusinessError>)

  /** Approve or reject a plan; carries no idempotency key. */
  function Decide(l: Ledger, env: Env, actor: Id, changeId: Id, approve: bool, expectedPlanVersion: int): Decision {
    if !env.dir.Identity(l.tenant, actor) || !env.dir.Manager(actor) then Decision(l, Err(Forbidden))
    else if !ValidId(changeId) || !(1 <= expectedPlanVersion <= MAX_SAFE_INTEGER) then Decision(l, Err(ValidationError))
    else if changeId !in l.plans then Decision(l, Err(NotFound))
    else
      var plan := l.plans[changeId];
      if plan.planVersion != expectedPlanVersion then Decision(l, Err(VersionConflict))
      else
        match SourceOf(l, plan.input)
        case Err(e) => Decision(l, Err(e))
        case Ok(_) =>
          if plan.status != Awaiting then Decision(l, Err(ChangeAlreadyDecided))
          else
            var decided := plan.(status := if approve then Approved else Rejected, decidedBy := Some(actor));
            Decision(l.(plans := l.plans[changeId := decided]), Ok(decided))
  }

  /** The receipt stored under a key. */
  function GetInvocation(l: Ledger, key: Key): Result<Invocation, BusinessError> {
    if key in l.invocations then Ok(l.invocations[key]) else Err(NotFound)
  }
}
