/** Whole runs of a tenant's ledger: any requests, decisions, and gaps in the shared sequence, in any order. */
module LedgerRuns {
  import opened Contracts
  import opened Domain
  import opened DomainProperties
  import opened LedgerInvariant
  import opened Ledgers
  import opened ProjectValidation
  import opened Results
  import opened ScheduleProperties

  datatype Step =
    | Call(env: Env, actor: Id, key: Key, request: Request)
    | Decision(env: Env, actor: Id, changeId: Id, approve: bool, expectedPlanVersion: int)
    | Skip(numbers: nat)

  /** Random ids are fresh. */
  ghost predicate Next(l: Ledger, s: Step, l': Ledger) {
    match s
    case Call(env, actor, key, request) => env.id !in l.plans.Keys && l' == Execute(l, env, actor, key, request).ledger
    case Decision(env, actor, changeId, approve, expected) =>
      l' == Decide(l, env, actor, changeId, approve, expected).ledger
    case Skip(numbers) => l' == l.(sequence := l.sequence + numbers)
  }

  /** Demonstration orders are at version 1 before anything happens. */
  ghost predicate Initial(l: Ledger) {
    && l == Ledger(l.tenant, l.orders, map[], map[], map[], [], [], l.sequence)
    && forall id :: id in l.orders.Keys ==>
         var o := l.orders[id];
         o.id == id && o.version == 1 && OrderSound(o) && Schedulable(o) && o.approvedChanges == [] && o.feedback == []
  }

  ghost predicate IsRun(run: seq<Ledger>, steps: seq<Step>) {
    && |run| == |steps| + 1 && Initial(run[0])
    && forall i :: 0 <= i < |steps| ==> Next(run[i], steps[i], run[i + 1])
  }

  lemma InitialInvariant(l: Ledger)
    requires Initial(l)
    ensures Invariant(l, l.orders.Keys)
  {
    forall id
      ensures id in l.orders.Keys ==> OrderOk(l.orders.Keys, l.outbox, id, l.orders[id])
    {
      assert Run(2, 1) == [];
    }
  }

  lemma StepKeepsInvariant(l: Ledger, seeded: set<Id>, s: Step, l': Ledger)
    requires Invariant(l, seeded) && Next(l, s, l')
    ensures Invariant(l', seeded) && Follows(l, l')
  {
    match s
    case Call(env, actor, key, request) => ExecuteKeepsInvariant(l, seeded, env, actor, key, request);
    case Decision(env, actor, changeId, approve, expected) =>
      DecideKeepsInvariant(l, seeded, env, actor, changeId, approve, expected);
    case Skip(_) => FollowsItself(l);
  }

  lemma {:induction false} RunInvariant(run: seq<Ledger>, steps: seq<Step>, i: nat)
    requires IsRun(run, steps) && i < |run|
    ensures Invariant(run[i], run[0].orders.Keys)
  {
    if i == 0 {
      InitialInvariant(run[0]);
    } else {
      RunInvariant(run, steps, i - 1);
      StepKeepsInvariant(run[i - 1], run[0].orders.Keys, steps[i - 1], run[i]);
    }
  }

  lemma NextFollows(run: seq<Ledger>, steps: seq<Step>, i: nat)
    requires IsRun(run, steps) && i < |steps|
    ensures Follows(run[i], run[i + 1])
  {
    RunInvariant(run, steps, i);
    StepKeepsInvariant(run[i], run[0].orders.Keys, steps[i], run[i + 1]);
  }

  /** Every ledger of the list follows the one before it. */
  ghost predicate Chain(run: seq<Ledger>) {
    forall i {:trigger run[i]} :: 0 < i < |run| ==> Follows(run[i - 1], run[i])
  }

  lemma {:induction false} ChainFollows(run: seq<Ledger>, i: nat, j: nat)
    requires Chain(run) && i <= j < |run|
    ensures Follows(run[i], run[j])
    decreases j - i
  {
    if i == j {
      FollowsItself(run[j]);
    } else {
      ChainFollows(run, i, j - 1);
      FollowsTransitively(run[i], run[j - 1], run[j]);
    }
  }

  lemma RunKeepsInvariant(run: seq<Ledger>, steps: seq<Step>, i: nat, j: nat)
    requires IsRun(run, steps) && i <= j < |run|
    ensures Invariant(run[j], run[0].orders.Keys) && Follows(run[i], run[j])
  {
    RunInvariant(run, steps, j);
    forall k | 0 < k < |run|
      ensures Follows(run[k - 1], run[k])
    {
      NextFollows(run, steps, k - 1);
    }
    ChainFollows(run, i, j);
  }

  // ---------- Consequences over whole runs ----------

  /** The announcements of an order that was created in the run are versions 1, 2, ..., its current version. */
  lemma EveryVersionAnnouncedInOrder(run: seq<Ledger>, steps: seq<Step>, i: nat, id: Id)
    requires IsRun(run, steps) && i < |run| && id in run[i].orders.Keys && id !in run[0].orders.Keys
    ensures Versions(run[i].outbox, id) == Run(1, run[i].orders[id].version)
    ensures OutboxInOrder(run[i].outbox, run[i].sequence)
  {
    RunKeepsInvariant(run, steps, i, i);
    assert OrderOk(run[0].orders.Keys, run[i].outbox, id, run[i].orders[id]);
  }

  /** A node once accepted keeps its status, percentage and acceptance for ever, and its order never disappears. */
  lemma AcceptedForEver(run: seq<Ledger>, steps: seq<Step>, i: nat, j: nat, id: Id, k: nat)
    requires IsRun(run, steps) && i <= j < |run| && id in run[i].orders.Keys
    requires k < |run[i].orders[id].nodes| && run[i].orders[id].nodes[k].status == Status.Accepted
    ensures id in run[j].orders.Keys && k < |run[j].orders[id].nodes|
    ensures var n, n' := run[i].orders[id].nodes[k], run[j].orders[id].nodes[k];
      n'.id == n.id && n'.status == n.status && n'.percent == n.percent && n'.acceptance == n.acceptance
  {
    RunKeepsInvariant(run, steps, i, j);
    assert OrderFollows(run[i].orders[id], run[j].orders[id]);
  }

  /** In every state: finished nodes are at 100 percent, returned ones at 0. */
  lemma StatusMatchesPercent(run: seq<Ledger>, steps: seq<Step>, i: nat, id: Id, k: nat)
    requires IsRun(run, steps) && i < |run| && id in run[i].orders.Keys && k < |run[i].orders[id].nodes|
    ensures NodeSound(run[i].orders[id].nodes[k])
  {
    RunKeepsInvariant(run, steps, i, i);
    assert OrderOk(run[0].orders.Keys, run[i].outbox, id, run[i].orders[id]);
  }

  /** The schedule of every order can be evaluated in every state, on every date. */
  lemma ScheduleNeverFails(run: seq<Ledger>, steps: seq<Step>, i: nat, id: Id, asOf: Day)
    requires IsRun(run, steps) && i < |run| && id in run[i].orders.Keys
    ensures Evaluable(run[i].orders[id], asOf)
  {
    RunKeepsInvariant(run, steps, i, i);
    assert OrderOk(run[0].orders.Keys, run[i].outbox, id, run[i].orders[id]);
    ValidatedProjectIsEvaluable(run[i].orders[id], asOf);
  }

  /**
   * The approved changes of an order are exactly its applied plans: none twice, none missing, one per source version.
   */
  lemma ApprovedChangesAreAppliedPlans(run: seq<Ledger>, steps: seq<Step>, i: nat, id: Id, changeId: Id)
    requires IsRun(run, steps) && i < |run| && id in run[i].orders.Keys
    ensures var l := run[i]; var changes := l.orders[id].approvedChanges;
      && (ListedAsApproved(l.orders[id], changeId) <==>
            changeId in l.plans.Keys && l.plans[changeId].status == Applied && l.plans[changeId].input.orderId == id)
      && (forall j, k :: 0 <= j < k < |changes| ==>
            changes[j].changeId != changes[k].changeId && changes[j].sourceVersion != changes[k].sourceVersion)
  {
    RunKeepsInvariant(run, steps, i, i);
    ChangesAreAppliedPlans(run[i], run[0].orders.Keys, id, changeId);
  }

  /** One step applies a plan only if it was approved. */
  lemma AppliedOnlyWhenApproved(l: Ledger, s: Step, l': Ledger, changeId: Id)
    requires Next(l, s, l') && changeId in l'.plans.Keys && l'.plans[changeId].status == Applied
    ensures changeId in l.plans.Keys && (l.plans[changeId].status == Applied || l.plans[changeId].status == Approved)
  {
    match s
    case Call(env, actor, key, request) =>
      if l' != l {
        PlansInStep(l, env, actor, key, request, changeId);
      }
    case Decision(_, _, _, _, _) =>
    case Skip(_) =>
  }

  lemma PlansInStep(l: Ledger, env: Env, actor: Id, key: Key, request: Request, changeId: Id)
    requires Perform(l, env, actor, key, request).Ok? && env.id !in l.plans.Keys
    requires changeId in Perform(l, env, actor, key, request).value.0.plans.Keys
    requires Perform(l, env, actor, key, request).value.0.plans[changeId].status == Applied
    ensures changeId in l.plans.Keys && (l.plans[changeId].status == Applied || l.plans[changeId].status == Approved)
  {
    if request.CreateBatch? {
      InsertAllKeepsPlans(l, CreatedOrders(request.projects, l.tenant));
    }
  }

  lemma {:induction false} InsertAllKeepsPlans(l: Ledger, orders: seq<Order>)
    requires InsertAll(l, orders).Ok?
    ensures InsertAll(l, orders).value.plans == l.plans
    decreases |orders|
  {
    if orders != [] {
      InsertAllKeepsPlans(Publish(l, orders[0].id, orders[0]), orders[1..]);
    }
  }

  lemma AppliedAfterSomeStep(run: seq<Ledger>, steps: seq<Step>, j: nat, changeId: Id)
    requires IsRun(run, steps) && j < |run| && changeId in run[j].plans.Keys && run[j].plans[changeId].status == Applied
    ensures 0 < j && changeId in run[j - 1].plans.Keys
    ensures run[j - 1].plans[changeId].status == Applied || run[j - 1].plans[changeId].status == Approved
  {
    if j > 0 {
      AppliedOnlyWhenApproved(run[j - 1], steps[j - 1], run[j], changeId);
    }
  }

  /** Whatever is applied was approved at an earlier moment of the run. */
  lemma {:induction false} ApprovedBeforeApplied(run: seq<Ledger>, steps: seq<Step>, j: nat, changeId: Id)
    returns (i: nat)
    requires IsRun(run, steps) && j < |run| && changeId in run[j].plans.Keys && run[j].plans[changeId].status == Applied
    ensures i < j && changeId in run[i].plans.Keys && run[i].plans[changeId].status == Approved
  {
    AppliedAfterSomeStep(run, steps, j, changeId);
    i := j - 1;
    if run[i].plans[changeId].status == Applied {
      i := ApprovedBeforeApplied(run, steps, i, changeId);
    }
  }

  /** Repeating a request under its key changes nothing and returns what it returned the first time. */
  lemma RepeatedRequestReturnsSameResponse(run: seq<Ledger>, steps: seq<Step>, i: nat, j: nat, env: Env, env': Env,
                                           actor: Id, key: Key, request: Request)
    requires IsRun(run, steps) && i < j < |run| && steps[i] == Call(env, actor, key, request)
    requires Execute(run[i], env, actor, key, request).result.Ok?
    requires Precheck(run[j].tenant, env', actor, key, request).None?
    ensures Execute(run[j], env', actor, key, request)
         == Outcome(run[j], Execute(run[i], env, actor, key, request).result)
  {
    assert Next(run[i], steps[i], run[i + 1]);
    RunKeepsInvariant(run, steps, i + 1, j);
    assert key in run[i + 1].mutations.Keys;
    assert run[j].mutations[key] == run[i + 1].mutations[key];
  }
}
