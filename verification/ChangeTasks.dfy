/**
 * Background execution of approved change plans: workers claim a task under a token and a lease, look for the
 * durable receipt, and otherwise ask the business service to apply the plan. Requests and replies can be lost
 * or delayed, workers can crash or outlive their lease.
 */
module ChangeTasks {
  import opened Contracts
  import opened Domain
  import opened LedgerInvariant
  import opened LedgerRuns
  import opened Ledgers
  import opened Results

  type Token = nat

  datatype TaskStatus = AwaitingApproval | Running | Unknown | Succeeded | TurnedDown | Failed | NeedsAttention

  datatype Task = Task(
    changeId: Id,
    actor: Id,
    snapshot: Plan,
    status: TaskStatus,
    token: Option<Token>,
    attempts: nat,
    nextRunAt: Timestamp)

  /** What a claimant has learned so far. */
  datatype Phase = LookingUp | Listing | Asked | Concluded(status: TaskStatus)

  datatype Claim = Claim(taskId: Id, task: Task, attempts: nat, phase: Phase)

  const MAX_ATTEMPTS: nat := 3
  const PAUSE := 15_000

  function TaskKey(taskId: Id): Key {
    "approved-task-" + taskId
  }

  predicate Claimable(t: Task) {
    t.status == AwaitingApproval || t.status == Unknown
  }

  /** Claimable, and its time has come. */
  predicate Ready(t: Task, now: Timestamp) {
    Claimable(t) && t.nextRunAt <= now
  }

  /** The receipt that proves the change was executed. */
  predicate CompletedReceipt(receipt: Invocation, changeId: Id) {
    receipt.changeId == changeId && receipt.id != "" && 1 <= receipt.result.version
  }

  /** Errors after which trying again is pointless. */
  predicate Final(e: BusinessError) {
    e == VersionConflict || e == NotFound || e == Forbidden || e == ChangeNotApproved
  }

  function AfterUnknown(attempts: nat): TaskStatus {
    if attempts >= MAX_ATTEMPTS then NeedsAttention else Unknown
  }

  function AfterError(e: BusinessError, attempts: nat): TaskStatus {
    if Final(e) then Failed else AfterUnknown(attempts)
  }

  /** The first question: is there a receipt under the key of the change task? */
  function LookUp(l: Ledger, c: Claim): Phase {
    match GetInvocation(l, TaskKey(c.taskId))
    case Ok(receipt) =>
      if CompletedReceipt(receipt, c.task.changeId) then Concluded(Succeeded) else Concluded(AfterUnknown(c.attempts))
    case Err(_) => Listing
  }

  /** The second: where does the plan stand? An approved plan is asked to be applied, which counts as an attempt. */
  function Inspect(l: Ledger, c: Claim): Claim {
    if c.task.changeId !in l.plans then c.(phase := Concluded(Failed))
    else
      var plan := l.plans[c.task.changeId];
      match plan.status
      case Rejected => c.(phase := Concluded(TurnedDown))
      case Awaiting => c.(phase := Concluded(AwaitingApproval))
      case Applied => c.(phase := Concluded(Succeeded))
      case Approved =>
        if plan.input.sourceVersion != c.task.snapshot.input.sourceVersion
           || plan.planVersion != c.task.snapshot.planVersion
        then c.(phase := Concluded(Failed))
        else c.(attempts := c.attempts + 1, phase := Asked)
  }

  /** The answer to the request to apply. */
  function Answered(reply: Result<Response, BusinessError>, c: Claim): Phase {
    match reply
    case Err(e) => Concluded(AfterError(e, c.attempts))
    case Ok(Receipt(receipt)) =>
      if CompletedReceipt(receipt, c.task.changeId) then Concluded(Succeeded) else Concluded(AfterUnknown(c.attempts))
    case Ok(_) => Concluded(AfterUnknown(c.attempts))
  }

  // ---------- The task table ----------

  function Expired(t: Task): Task {
    if t.status == Running then t.(status := Unknown, token := None) else t
  }

  function Claimed(t: Task, token: Token): Task {
    t.(status := Running, token := Some(token))
  }

  /**
   * The conclusion is written only while the change task is running under this very token; the next try has to wait.
   */
  function Completed(t: Task, token: Token, status: TaskStatus, attempts: nat, now: Timestamp): Task {
    if t.token == Some(token) && t.status == Running
    then t.(status := status, attempts := attempts, token := None, nextRunAt := now + PAUSE)
    else t
  }

  /** The rows that a claim may take: ready ones that no other claim is holding. */
  predicate Eligible(tasks: map<Id, Task>, locked: set<Id>, now: Timestamp, id: Id) {
    id in tasks && id !in locked && Ready(tasks[id], now)
  }

  /** The database's order of ids: total and strict. */
  ghost predicate IsIdOrder(below: (Id, Id) -> bool) {
    && (forall a, b :: below(a, b) ==> !below(b, a))
    && (forall a, b :: below(a, b) || below(b, a) || a == b)
    && (forall a, b, c :: below(a, b) && below(b, c) ==> below(a, c))
  }

  /** By next time, then by id. */
  predicate ComesFirst(tasks: map<Id, Task>, below: (Id, Id) -> bool, a: Id, b: Id)
    requires a in tasks && b in tasks
  {
    tasks[a].nextRunAt < tasks[b].nextRunAt || (tasks[a].nextRunAt == tasks[b].nextRunAt && below(a, b))
  }

  class TaskTable {
    var tasks: map<Id, Task>
    var audit: seq<(Id, TaskStatus)>

    /** Give up on the owners whose lease has run out. */
    method ExpireOwners(overdue: set<Id>)
      modifies this`tasks
      ensures tasks.Keys == old(tasks).Keys
      ensures forall id :: id in old(tasks).Keys ==>
        tasks[id] == if id in overdue then Expired(old(tasks)[id]) else old(tasks)[id]
    {
      tasks := map id | id in tasks :: if id in overdue then Expired(tasks[id]) else tasks[id];
    }

    /** Take the first eligible row: the one that has waited longest, and of several such the least by id. */
    method ClaimTask(token: Token, now: Timestamp, locked: set<Id>, below: (Id, Id) -> bool)
      returns (claimed: Option<Claim>)
      requires IsIdOrder(below)
      modifies this`tasks
      ensures claimed.None? ==> tasks == old(tasks) && forall id :: !Eligible(old(tasks), locked, now, id)
      ensures claimed.Some? ==>
        var id := claimed.value.taskId;
        && Eligible(old(tasks), locked, now, id)
        && (forall other :: Eligible(old(tasks), locked, now, other) && other != id ==>
              ComesFirst(old(tasks), below, id, other))
        && tasks == old(tasks)[id := Claimed(old(tasks)[id], token)]
        && claimed.value == Claim(id, tasks[id], old(tasks)[id].attempts, LookingUp)
    {
      var first: Option<Id> := None;
      var pending := tasks.Keys;
      while pending != {}
        invariant pending <= tasks.Keys && tasks == old(tasks)
        invariant first.Some? ==> first.value !in pending && Eligible(tasks, locked, now, first.value)
        invariant forall id :: id !in pending && Eligible(tasks, locked, now, id) ==>
          first.Some? && (id == first.value || ComesFirst(tasks, below, first.value, id))
        decreases |pending|
      {
        var id :| id in pending;
        pending := pending - {id};
        if Eligible(tasks, locked, now, id) && (first.None? || ComesFirst(tasks, below, id, first.value)) {
          first := Some(id);
        }
      }
      if first.None? {
        return None;
      }
      var t := Claimed(tasks[first.value], token);
      tasks := tasks[first.value := t];
      claimed := Some(Claim(first.value, t, t.attempts, LookingUp));
    }

    /** Guarded update and audit row in one transaction. */
    method Complete(id: Id, token: Token, status: TaskStatus, attempts: nat, now: Timestamp)
      modifies this
      ensures id in old(tasks).Keys ==>
        tasks == old(tasks)[id := Completed(old(tasks)[id], token, status, attempts, now)]
      ensures id !in old(tasks).Keys ==> tasks == old(tasks)
      ensures audit ==
              if id in old(tasks).Keys && old(tasks)[id].token == Some(token) && old(tasks)[id].status == Running
              then old(audit) + [(id, status)] else old(audit)
    {
      if id in tasks && tasks[id].token == Some(token) && tasks[id].status == Running {
        var t := tasks[id].(status := status, attempts := attempts, token := None, nextRunAt := now + PAUSE);
        tasks := tasks[id := t];
        audit := audit + [(id, status)];
      }
    }
  }

  // ---------- The system ----------

  datatype System = System(
    ledger: Ledger,
    tasks: map<Id, Task>,
    claims: map<Token, Claim>,
    requests: map<Token, Claim>,
    replies: map<Token, Result<Response, BusinessError>>,
    used: set<Token>)

  datatype Event =
    | Business(step: Step)
    | Delegate(taskId: Id, actor: Id, changeId: Id, now: Timestamp)
    | Expire(taskId: Id)
    | Take(taskId: Id, token: Token, now: Timestamp)
    | Interrupt(token: Token)
    | Look(token: Token)
    | Ask(token: Token)
    | Deliver(token: Token, env: Env)
    | Receive(token: Token)
    | GiveUp(token: Token)
    | Forbid(token: Token)
    | Finish(token: Token, now: Timestamp)

  ghost predicate HasTask(tasks: map<Id, Task>, changeId: Id) {
    exists id :: id in tasks.Keys && tasks[id].changeId == changeId
  }

  ghost predicate Happens(s: System, e: Event, s': System) {
    match e
    // any other client of the business service
    case Business(step) => Next(s.ledger, step, s'.ledger) && s' == s.(ledger := s'.ledger)
    // a task is created once per plan, for a plan that is not rejected
    case Delegate(taskId, actor, changeId, now) =>
      && taskId !in s.tasks.Keys && !HasTask(s.tasks, changeId)
      && changeId in s.ledger.plans.Keys && s.ledger.plans[changeId].status != Rejected
      && var task := Task(changeId, actor, s.ledger.plans[changeId], AwaitingApproval, None, 0, now);
         s' == s.(tasks := s.tasks[taskId := task])
    case Expire(taskId) =>
      taskId in s.tasks.Keys && s' == s.(tasks := s.tasks[taskId := Expired(s.tasks[taskId])])
    case Take(taskId, token, now) =>
      && taskId in s.tasks.Keys && Ready(s.tasks[taskId], now) && token !in s.used
      && s' == s.(tasks := s.tasks[taskId := Claimed(s.tasks[taskId], token)],
                  claims := s.claims[token := Claim(taskId, s.tasks[taskId], s.tasks[taskId].attempts, LookingUp)],
                  used := s.used + {token})
    // the worker crashes: its claim is gone, its row still says running
    case Interrupt(token) => token in s.claims.Keys && s' == s.(claims := s.claims - {token})
    case Look(token) =>
      && token in s.claims.Keys && s.claims[token].phase == LookingUp
      && s' == s.(claims := s.claims[token := s.claims[token].(phase := LookUp(s.ledger, s.claims[token]))])
    case Ask(token) =>
      && token in s.claims.Keys && s.claims[token].phase == Listing
      && var c := Inspect(s.ledger, s.claims[token]);
         s' == s.(claims := s.claims[token := c],
                  requests := if c.phase == Asked then s.requests[token := c] else s.requests)
    // a request reaches the service: at once, late, after its sender is gone, or again
    case Deliver(token, env) =>
      && token in s.requests.Keys && env.id !in s.ledger.plans.Keys
      && var c := s.requests[token];
         var outcome := Execute(s.ledger, env, c.task.actor, TaskKey(c.taskId), ApplyPlan(c.task.changeId));
         s' == s.(ledger := outcome.ledger, replies := s.replies[token := outcome.result])
    case Receive(token) =>
      && token in s.claims.Keys && s.claims[token].phase == Asked && token in s.replies.Keys
      && s' == s.(claims := s.claims[token := s.claims[token].(phase := Answered(s.replies[token], s.claims[token]))])
    // a lost or malformed reply, a time-out, a failing database
    case GiveUp(token) =>
      && token in s.claims.Keys && !s.claims[token].phase.Concluded?
      && var conclusion := Concluded(AfterUnknown(s.claims[token].attempts));
         s' == s.(claims := s.claims[token := s.claims[token].(phase := conclusion)])
    // the acting member is no longer a manager, or the service refuses the reader
    case Forbid(token) =>
      && token in s.claims.Keys && !s.claims[token].phase.Concluded?
      && s' == s.(claims := s.claims[token := s.claims[token].(phase := Concluded(Failed))])
    case Finish(token, now) =>
      && token in s.claims.Keys && s.claims[token].phase.Concluded?
      && var c := s.claims[token];
         && c.taskId in s.tasks.Keys
         && s' == s.(tasks := s.tasks[c.taskId := Completed(s.tasks[c.taskId], token, c.phase.status, c.attempts, now)],
                     claims := s.claims - {token})
  }

  // ---------- Invariant ----------

  ghost predicate PlanIs(plans: map<Id, Plan>, changeId: Id, status: PlanStatus) {
    changeId in plans.Keys && plans[changeId].status == status
  }

  /** A conclusion about a task that the business tables bear out. */
  ghost predicate BorneOut(plans: map<Id, Plan>, changeId: Id, status: TaskStatus) {
    && (status == Succeeded ==> PlanIs(plans, changeId, Applied))
    && (status == TurnedDown ==> PlanIs(plans, changeId, Rejected))
  }

  ghost predicate TaskOk(plans: map<Id, Plan>, used: set<Token>, t: Task) {
    && BorneOut(plans, t.changeId, t.status)
    && t.attempts <= MAX_ATTEMPTS && (Claimable(t) || t.status == Running ==> t.attempts < MAX_ATTEMPTS)
    && (t.token.Some? <==> t.status == Running)
    && (t.token.Some? ==> t.token.value in used)
  }

  ghost predicate ClaimOk(plans: map<Id, Plan>, tasks: map<Id, Task>, used: set<Token>, token: Token, c: Claim) {
    && token in used && c.taskId in tasks.Keys && tasks[c.taskId].changeId == c.task.changeId
    && c.attempts <= MAX_ATTEMPTS
    && (c.phase == LookingUp || c.phase == Listing ==> c.attempts < MAX_ATTEMPTS)
    && (c.phase.Concluded? ==>
          && BorneOut(plans, c.task.changeId, c.phase.status) && c.phase.status != Running
          && (c.phase.status == Unknown || c.phase.status == AwaitingApproval ==> c.attempts < MAX_ATTEMPTS))
  }

  ghost predicate ReplyOk(plans: map<Id, Plan>, reply: Result<Response, BusinessError>) {
    reply.Ok? && reply.value.Receipt? ==> PlanIs(plans, reply.value.invocation.changeId, Applied)
  }

  ghost predicate SystemInvariant(s: System, seeded: set<Id>) {
    && Invariant(s.ledger, seeded)
    && (forall id :: id in s.tasks.Keys ==> TaskOk(s.ledger.plans, s.used, s.tasks[id]))
    && (forall token :: token in s.claims.Keys ==> ClaimOk(s.ledger.plans, s.tasks, s.used, token, s.claims[token]))
    && (forall token :: token in s.replies.Keys ==> ReplyOk(s.ledger.plans, s.replies[token]))
  }

  lemma PlanStatusStays(plans: map<Id, Plan>, plans': map<Id, Plan>, changeId: Id, status: PlanStatus)
    requires PlansFollow(plans, plans') && PlanIs(plans, changeId, status) && (status == Applied || status == Rejected)
    ensures PlanIs(plans', changeId, status)
  {
    assert PlanFollows(plans[changeId], plans'[changeId]);
  }

  /** Conclusions stay true while the business tables move on. */
  lemma ConclusionsStay(s: System, seeded: set<Id>, l': Ledger)
    requires SystemInvariant(s, seeded) && Invariant(l', seeded) && PlansFollow(s.ledger.plans, l'.plans)
    ensures SystemInvariant(s.(ledger := l'), seeded)
  {
    forall changeId, status | BorneOut(s.ledger.plans, changeId, status)
      ensures BorneOut(l'.plans, changeId, status)
    {
      if status == Succeeded {
        PlanStatusStays(s.ledger.plans, l'.plans, changeId, Applied);
      } else if status == TurnedDown {
        PlanStatusStays(s.ledger.plans, l'.plans, changeId, Rejected);
      }
    }
    forall id | id in s.tasks.Keys
      ensures TaskOk(l'.plans, s.used, s.tasks[id])
    {
      assert TaskOk(s.ledger.plans, s.used, s.tasks[id]);
    }
    forall token | token in s.claims.Keys
      ensures ClaimOk(l'.plans, s.tasks, s.used, token, s.claims[token])
    {
      assert ClaimOk(s.ledger.plans, s.tasks, s.used, token, s.claims[token]);
    }
    forall token | token in s.replies.Keys
      ensures ReplyOk(l'.plans, s.replies[token])
    {
      assert ReplyOk(s.ledger.plans, s.replies[token]);
      if s.replies[token].Ok? && s.replies[token].value.Receipt? {
        PlanStatusStays(s.ledger.plans, l'.plans, s.replies[token].value.invocation.changeId, Applied);
      }
    }
  }

  /** A task is replaced by one that is in order and stands for the same plan. */
  lemma TaskReplaced(s: System, seeded: set<Id>, taskId: Id, t: Task)
    requires SystemInvariant(s, seeded) && TaskOk(s.ledger.plans, s.used, t)
    requires taskId in s.tasks.Keys ==> t.changeId == s.tasks[taskId].changeId
    ensures SystemInvariant(s.(tasks := s.tasks[taskId := t]), seeded)
  {
    var tasks' := s.tasks[taskId := t];
    forall token | token in s.claims.Keys
      ensures ClaimOk(s.ledger.plans, tasks', s.used, token, s.claims[token])
    {
      assert ClaimOk(s.ledger.plans, s.tasks, s.used, token, s.claims[token]);
    }
  }

  lemma ClaimReplaced(s: System, seeded: set<Id>, token: Token, c: Claim)
    requires SystemInvariant(s, seeded) && ClaimOk(s.ledger.plans, s.tasks, s.used, token, c)
    ensures SystemInvariant(s.(claims := s.claims[token := c]), seeded)
  {
  }

  lemma ClaimDropped(s: System, seeded: set<Id>, token: Token)
    requires SystemInvariant(s, seeded)
    ensures SystemInvariant(s.(claims := s.claims - {token}), seeded)
  {
    assert forall x :: x in (s.claims - {token}).Keys ==> x in s.claims.Keys && (s.claims - {token})[x] == s.claims[x];
  }

  lemma TakeKeeps(s: System, seeded: set<Id>, e: Event, s': System)
    requires SystemInvariant(s, seeded) && e.Take? && Happens(s, e, s')
    ensures SystemInvariant(s', seeded)
  {
    var t := s.tasks[e.taskId];
    var wider := s.(used := s.used + {e.token});
    assert TaskOk(s.ledger.plans, s.used, t);
    forall id | id in s.tasks.Keys
      ensures TaskOk(s.ledger.plans, wider.used, s.tasks[id])
    {
      assert TaskOk(s.ledger.plans, s.used, s.tasks[id]);
    }
    forall token | token in s.claims.Keys
      ensures ClaimOk(s.ledger.plans, s.tasks, wider.used, token, s.claims[token])
    {
      assert ClaimOk(s.ledger.plans, s.tasks, s.used, token, s.claims[token]);
    }
    assert SystemInvariant(wider, seeded);
    TaskReplaced(wider, seeded, e.taskId, Claimed(t, e.token));
    var taken := wider.(tasks := s.tasks[e.taskId := Claimed(t, e.token)]);
    ClaimReplaced(taken, seeded, e.token, Claim(e.taskId, t, t.attempts, LookingUp));
  }

  lemma ReceiptProves(l: Ledger, key: Key)
    requires ReceiptsOk(l.plans, l.mutations, l.invocations) && key in l.invocations.Keys
    ensures PlanIs(l.plans, l.invocations[key].changeId, Applied)
  {
  }

  /** A receipt found under the key of a change task proves that the plan was applied. */
  lemma LookUpIsBorneOut(l: Ledger, c: Claim)
    requires ReceiptsOk(l.plans, l.mutations, l.invocations) && c.attempts < MAX_ATTEMPTS
    ensures LookUp(l, c) == Listing || LookUp(l, c) == Concluded(Unknown)
            || (LookUp(l, c) == Concluded(Succeeded) && PlanIs(l.plans, c.task.changeId, Applied))
  {
    if TaskKey(c.taskId) in l.invocations.Keys {
      ReceiptProves(l, TaskKey(c.taskId));
    }
  }

  lemma LookKeeps(s: System, seeded: set<Id>, e: Event, s': System)
    requires SystemInvariant(s, seeded) && e.Look? && Happens(s, e, s')
    ensures SystemInvariant(s', seeded)
  {
    var c := s.claims[e.token];
    assert ClaimOk(s.ledger.plans, s.tasks, s.used, e.token, c);
    LookUpIsBorneOut(s.ledger, c);
    ClaimReplaced(s, seeded, e.token, c.(phase := LookUp(s.ledger, c)));
  }

  /** Asking counts as an attempt; every other finding is borne out by the plan's status. */
  lemma InspectIsOk(l: Ledger, tasks: map<Id, Task>, used: set<Token>, token: Token, c: Claim)
    requires ClaimOk(l.plans, tasks, used, token, c) && c.phase == Listing
    ensures ClaimOk(l.plans, tasks, used, token, Inspect(l, c))
  {
  }

  lemma AskKeeps(s: System, seeded: set<Id>, e: Event, s': System)
    requires SystemInvariant(s, seeded) && e.Ask? && Happens(s, e, s')
    ensures SystemInvariant(s', seeded)
  {
    var c := s.claims[e.token];
    assert ClaimOk(s.ledger.plans, s.tasks, s.used, e.token, c);
    InspectIsOk(s.ledger, s.tasks, s.used, e.token, c);
    ClaimReplaced(s, seeded, e.token, Inspect(s.ledger, c));
  }

  /** A reply that carries a receipt, fresh or replayed, proves that the plan was applied. */
  lemma DeliverKeeps(s: System, seeded: set<Id>, e: Event, s': System)
    requires SystemInvariant(s, seeded) && e.Deliver? && Happens(s, e, s')
    ensures SystemInvariant(s', seeded)
  {
    var c := s.requests[e.token];
    var key, request := TaskKey(c.taskId), ApplyPlan(c.task.changeId);
    var outcome := Execute(s.ledger, e.env, c.task.actor, key, request);
    ExecuteKeepsInvariant(s.ledger, seeded, e.env, c.task.actor, key, request);
    ConclusionsStay(s, seeded, s'.ledger);
    AppliedByReceipt(s.ledger, e.env, c.task.actor, key, c.task.changeId);
  }

  lemma AppliedByReceipt(l: Ledger, env: Env, actor: Id, key: Key, changeId: Id)
    requires ReceiptsOk(l.plans, l.mutations, l.invocations) && env.id !in l.plans.Keys
    ensures ReplyOk(Execute(l, env, actor, key, ApplyPlan(changeId)).ledger.plans,
                    Execute(l, env, actor, key, ApplyPlan(changeId)).result)
  {
    if Precheck(l.tenant, env, actor, key, ApplyPlan(changeId)).None? {
      if key in l.mutations.Keys {
        if l.mutations[key].request == ApplyPlan(changeId) {
          assert key in l.invocations.Keys;
        }
      }
    }
  }

  lemma AnswerIsOk(plans: map<Id, Plan>, tasks: map<Id, Task>, used: set<Token>, token: Token, c: Claim,
                   reply: Result<Response, BusinessError>)
    requires ClaimOk(plans, tasks, used, token, c) && ReplyOk(plans, reply)
    ensures ClaimOk(plans, tasks, used, token, c.(phase := Answered(reply, c)))
  {
  }

  lemma ReceiveKeeps(s: System, seeded: set<Id>, e: Event, s': System)
    requires SystemInvariant(s, seeded) && e.Receive? && Happens(s, e, s')
    ensures SystemInvariant(s', seeded)
  {
    var c := s.claims[e.token];
    assert ClaimOk(s.ledger.plans, s.tasks, s.used, e.token, c) && ReplyOk(s.ledger.plans, s.replies[e.token]);
    AnswerIsOk(s.ledger.plans, s.tasks, s.used, e.token, c, s.replies[e.token]);
    ClaimReplaced(s, seeded, e.token, c.(phase := Answered(s.replies[e.token], c)));
  }

  lemma FinishKeeps(s: System, seeded: set<Id>, e: Event, s': System)
    requires SystemInvariant(s, seeded) && e.Finish? && Happens(s, e, s')
    ensures SystemInvariant(s', seeded)
  {
    var c := s.claims[e.token];
    assert ClaimOk(s.ledger.plans, s.tasks, s.used, e.token, c) && TaskOk(s.ledger.plans, s.used, s.tasks[c.taskId]);
    var t := Completed(s.tasks[c.taskId], e.token, c.phase.status, c.attempts, e.now);
    TaskReplaced(s, seeded, c.taskId, t);
    ClaimDropped(s.(tasks := s.tasks[c.taskId := t]), seeded, e.token);
  }

  lemma BusinessKeeps(s: System, seeded: set<Id>, e: Event, s': System)
    requires SystemInvariant(s, seeded) && e.Business? && Happens(s, e, s')
    ensures SystemInvariant(s', seeded)
  {
    StepKeepsInvariant(s.ledger, seeded, e.step, s'.ledger);
    ConclusionsStay(s, seeded, s'.ledger);
  }

  lemma TaskStepKeeps(s: System, seeded: set<Id>, e: Event, s': System)
    requires SystemInvariant(s, seeded) && (e.Delegate? || e.Expire?) && Happens(s, e, s')
    ensures SystemInvariant(s', seeded)
  {
    if e.Expire? {
      assert TaskOk(s.ledger.plans, s.used, s.tasks[e.taskId]);
    }
    TaskReplaced(s, seeded, e.taskId, s'.tasks[e.taskId]);
  }

  lemma EndOfRequestKeeps(s: System, seeded: set<Id>, e: Event, s': System)
    requires SystemInvariant(s, seeded) && (e.GiveUp? || e.Forbid?) && Happens(s, e, s')
    ensures SystemInvariant(s', seeded)
  {
    assert ClaimOk(s.ledger.plans, s.tasks, s.used, e.token, s.claims[e.token]);
    ClaimReplaced(s, seeded, e.token, s'.claims[e.token]);
  }

  lemma InterruptKeeps(s: System, seeded: set<Id>, e: Event, s': System)
    requires SystemInvariant(s, seeded) && e.Interrupt? && Happens(s, e, s')
    ensures SystemInvariant(s', seeded)
  {
    ClaimDropped(s, seeded, e.token);
  }

  lemma EventKeepsInvariant(s: System, seeded: set<Id>, e: Event, s': System)
    requires SystemInvariant(s, seeded) && Happens(s, e, s')
    ensures SystemInvariant(s', seeded)
  {
    match e
    case Business(_) => BusinessKeeps(s, seeded, e, s');
    case Delegate(_, _, _, _) => TaskStepKeeps(s, seeded, e, s');
    case Expire(_) => TaskStepKeeps(s, seeded, e, s');
    case Take(_, _, _) => TakeKeeps(s, seeded, e, s');
    case Interrupt(_) => InterruptKeeps(s, seeded, e, s');
    case Look(_) => LookKeeps(s, seeded, e, s');
    case Ask(_) => AskKeeps(s, seeded, e, s');
    case Deliver(_, _) => DeliverKeeps(s, seeded, e, s');
    case Receive(_) => ReceiveKeeps(s, seeded, e, s');
    case GiveUp(_) => EndOfRequestKeeps(s, seeded, e, s');
    case Forbid(_) => EndOfRequestKeeps(s, seeded, e, s');
    case Finish(_, _) => FinishKeeps(s, seeded, e, s');
  }

  // ---------- Whole runs ----------

  ghost predicate Begins(s: System) {
    Initial(s.ledger) && s == System(s.ledger, map[], map[], map[], map[], {})
  }

  ghost predicate IsHistory(run: seq<System>, events: seq<Event>) {
    && |run| == |events| + 1 && Begins(run[0])
    && forall i :: 0 <= i < |events| ==> Happens(run[i], events[i], run[i + 1])
  }

  lemma {:induction false} HistoryKeepsInvariant(run: seq<System>, events: seq<Event>, i: nat)
    requires IsHistory(run, events) && i < |run|
    ensures SystemInvariant(run[i], run[0].ledger.orders.Keys)
  {
    if i == 0 {
      InitialInvariant(run[0].ledger);
    } else {
      HistoryKeepsInvariant(run, events, i - 1);
      EventKeepsInvariant(run[i - 1], run[0].ledger.orders.Keys, events[i - 1], run[i]);
    }
  }

  /**
   * In every state of every run: a task marked succeeded has its plan applied, one marked as turned down has it
   * rejected, and recorded attempts never exceed three, or two while it may still be claimed.
   */
  lemma TasksTellTheTruth(run: seq<System>, events: seq<Event>, i: nat, taskId: Id)
    requires IsHistory(run, events) && i < |run| && taskId in run[i].tasks.Keys
    ensures var t, plans := run[i].tasks[taskId], run[i].ledger.plans;
      && (t.status == Succeeded ==> PlanIs(plans, t.changeId, Applied))
      && (t.status == TurnedDown ==> PlanIs(plans, t.changeId, Rejected))
      && t.attempts <= 3 && (Claimable(t) ==> t.attempts <= 2)
  {
    HistoryKeepsInvariant(run, events, i);
    assert TaskOk(run[i].ledger.plans, run[i].used, run[i].tasks[taskId]);
  }

  /** However often its application is requested, delivered or repeated, a plan alters its order at most once. */
  lemma PlanAltersOrderAtMostOnce(run: seq<System>, events: seq<Event>, i: nat, id: Id, changeId: Id)
    requires IsHistory(run, events) && i < |run| && id in run[i].ledger.orders.Keys
    ensures var o := run[i].ledger.orders[id];
      && (ListedAsApproved(o, changeId) <==>
            (PlanIs(run[i].ledger.plans, changeId, Applied) && run[i].ledger.plans[changeId].input.orderId == id))
      && forall j, k :: 0 <= j < k < |o.approvedChanges| ==>
           o.approvedChanges[j].changeId != o.approvedChanges[k].changeId
  {
    HistoryKeepsInvariant(run, events, i);
    ChangesAreAppliedPlans(run[i].ledger, run[0].ledger.orders.Keys, id, changeId);
  }

  /** The business tables move by their own transactions only. */
  lemma LedgerMovesByTransactions(s: System, e: Event, s': System) returns (step: Step)
    requires Happens(s, e, s')
    ensures s'.ledger == s.ledger || Next(s.ledger, step, s'.ledger)
  {
    step := Skip(0);
    match e
    case Business(business) => step := business;
    case Deliver(token, env) =>
      var c := s.requests[token];
      step := Call(env, c.task.actor, TaskKey(c.taskId), ApplyPlan(c.task.changeId));
    case _ =>
  }

  lemma AppliedInOneEvent(s: System, e: Event, s': System, changeId: Id)
    requires Happens(s, e, s') && PlanIs(s'.ledger.plans, changeId, Applied)
    ensures PlanIs(s.ledger.plans, changeId, Applied) || PlanIs(s.ledger.plans, changeId, Approved)
  {
    var step := LedgerMovesByTransactions(s, e, s');
    if s'.ledger != s.ledger {
      AppliedOnlyWhenApproved(s.ledger, step, s'.ledger, changeId);
    }
  }

  lemma AppliedInHistory(run: seq<System>, events: seq<Event>, j: nat, changeId: Id)
    requires IsHistory(run, events) && j < |run| && PlanIs(run[j].ledger.plans, changeId, Applied)
    ensures 0 < j
    ensures PlanIs(run[j - 1].ledger.plans, changeId, Applied) || PlanIs(run[j - 1].ledger.plans, changeId, Approved)
  {
    if j > 0 {
      AppliedInOneEvent(run[j - 1], events[j - 1], run[j], changeId);
    }
  }

  /** Whatever is applied was approved earlier in the run. */
  lemma {:induction false} AppliedAfterApproval(run: seq<System>, events: seq<Event>, j: nat, changeId: Id)
    returns (i: nat)
    requires IsHistory(run, events) && j < |run| && PlanIs(run[j].ledger.plans, changeId, Applied)
    ensures i < j && PlanIs(run[i].ledger.plans, changeId, Approved)
  {
    AppliedInHistory(run, events, j, changeId);
    i := j - 1;
    if !PlanIs(run[i].ledger.plans, changeId, Approved) {
      i := AppliedAfterApproval(run, events, i, changeId);
    }
  }

  // ---------- Fencing ----------

  /** A token that was issued and no longer owns the change task. */
  ghost predicate Stale(s: System, taskId: Id, token: Token) {
    taskId in s.tasks.Keys && token in s.used && s.tasks[taskId].token != Some(token)
  }

  lemma StaleStaysStale(s: System, e: Event, s': System, taskId: Id, token: Token)
    requires Happens(s, e, s') && Stale(s, taskId, token)
    ensures Stale(s', taskId, token)
  {
  }

  /** A worker whose lease was taken from it never again writes to the change task. */
  lemma {:induction false} StaleTokenWritesNothing(run: seq<System>, events: seq<Event>, i: nat, j: nat, taskId: Id,
                                                   token: Token)
    requires IsHistory(run, events) && i <= j < |events| && Stale(run[i], taskId, token)
    requires events[j].Finish? && events[j].token == token
    ensures taskId in run[j].tasks.Keys && run[j + 1].tasks[taskId] == run[j].tasks[taskId]
    decreases j
  {
    StaleUntil(run, events, i, j, taskId, token);
    assert Happens(run[j], events[j], run[j + 1]);
  }

  lemma {:induction false} StaleUntil(run: seq<System>, events: seq<Event>, i: nat, j: nat, taskId: Id, token: Token)
    requires IsHistory(run, events) && i <= j < |run| && Stale(run[i], taskId, token)
    ensures Stale(run[j], taskId, token)
    decreases j - i
  {
    if i < j {
      StaleUntil(run, events, i, j - 1, taskId, token);
      assert Happens(run[j - 1], events[j - 1], run[j]);
      StaleStaysStale(run[j - 1], events[j - 1], run[j], taskId, token);
    }
  }

  /** Expiring the lease of a running task makes its owner stale. */
  lemma ExpiryFences(s: System, seeded: set<Id>, e: Event, s': System, token: Token)
    requires SystemInvariant(s, seeded) && e.Expire? && Happens(s, e, s') && s.tasks[e.taskId].token == Some(token)
    ensures Stale(s', e.taskId, token) && s'.tasks[e.taskId].status == Unknown
  {
    assert TaskOk(s.ledger.plans, s.used, s.tasks[e.taskId]);
  }

  /** Success, refusal, failure and the call for attention. */
  predicate HasConcluded(t: Task) {
    !Claimable(t) && t.status != Running
  }

  lemma EventKeepsConcluded(s: System, e: Event, s': System, taskId: Id)
    requires Happens(s, e, s') && taskId in s.tasks.Keys && HasConcluded(s.tasks[taskId])
    ensures taskId in s'.tasks.Keys && s'.tasks[taskId] == s.tasks[taskId]
  {
    if s'.tasks != s.tasks {
      assert e.Delegate? || e.Expire? || e.Take? || e.Finish?;
    }
  }

  /** A conclusion is final. */
  lemma {:induction false} ConcludedTaskStays(run: seq<System>, events: seq<Event>, i: nat, j: nat, taskId: Id)
    requires IsHistory(run, events) && i <= j < |run| && taskId in run[i].tasks.Keys
    requires HasConcluded(run[i].tasks[taskId])
    ensures taskId in run[j].tasks.Keys && run[j].tasks[taskId] == run[i].tasks[taskId]
    decreases j - i
  {
    if i < j {
      ConcludedTaskStays(run, events, i, j - 1, taskId);
      EventKeepsConcluded(run[j - 1], events[j - 1], run[j], taskId);
    }
  }
}
