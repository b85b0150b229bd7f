/** What the operations on a node mean for the schedule that is computed from the order afterwards. */
module OperationEffects {
  import opened Contracts
  import opened Domain
  import opened DomainProperties
  import opened ForecastProperties
  import opened Results
  import opened Schedule
  import opened ScheduleEvaluation
  import opened ScheduleProperties

  /** The addressed node of the updated order. */
  lemma AddressedNode(o: Order, o': Order, nodeId: Id, expected: int)
    requires Checked(o, nodeId, expected).Ok? && Advances(o, o')
    ensures FindNode(o'.nodes, nodeId) == Some(o'.nodes[Checked(o, nodeId, expected).value])
  {
    DomainProperties.SameIds(o.nodes, o'.nodes, nodeId);
  }

  lemma StuckNodeHasNoFinish(o: Order, asOf: Day, id: Id)
    requires Evaluable(o, asOf) && Stuck(o, id)
    ensures FinishOf(o, asOf, id).None? && ForecastOf(o, asOf).None? && RiskOf(o, asOf) != Normal
  {
    assert LeadsToStuck(o, [id]);
    assert FindNode(o.nodes, id).value in o.nodes;
    StuckUpstreamMeansUnknown(o, asOf, [id]);
    ChainMeansUnknown(o, asOf, [id]);
    NormalIffAllKnownInTime(o, asOf);
  }

  /**
   * A newly reported blocker without a new date leaves no finish, no forecast and no normal risk: old evidence is void.
   */
  lemma BlockerHidesForecast(o: Order, input: FeedbackInput, actor: Id, dir: Directory, id: Id, at: Timestamp,
                             asOf: Day)
    requires Schedulable(o) && ApplyFeedback(o, input, actor, dir, id, at).Ok?
    requires Trim(OrEmpty(input.blocker)) != "" && input.expectedFinish.None?
    ensures var o' := ApplyFeedback(o, input, actor, dir, id, at).value;
      && Evaluable(o', asOf) && FinishOf(o', asOf, input.nodeId).None?
      && ForecastOf(o', asOf).None? && RiskOf(o', asOf) != Normal
  {
    var o' := ApplyFeedback(o, input, actor, dir, id, at).value;
    FeedbackAdvances(o, input, actor, dir, id, at);
    ValidatedProjectIsEvaluable(o', asOf);
    AddressedNode(o, o', input.nodeId, input.expectedVersion);
    StuckNodeHasNoFinish(o', asOf, input.nodeId);
  }

  /** A completed node has no finish until it is accepted ... */
  lemma CompletionAwaitsAcceptance(o: Order, input: FeedbackInput, actor: Id, dir: Directory, id: Id, at: Timestamp,
                                   asOf: Day)
    requires Schedulable(o) && ApplyFeedback(o, input, actor, dir, id, at).Ok?
    requires Trim(OrEmpty(input.blocker)) == "" && Quantities(input).value.0 == Quantities(input).value.1
    ensures var o' := ApplyFeedback(o, input, actor, dir, id, at).value;
      Evaluable(o', asOf) && FinishOf(o', asOf, input.nodeId).None? && ForecastOf(o', asOf).None?
  {
    var o' := ApplyFeedback(o, input, actor, dir, id, at).value;
    FeedbackAdvances(o, input, actor, dir, id, at);
    ValidatedProjectIsEvaluable(o', asOf);
    AddressedNode(o, o', input.nodeId, input.expectedVersion);
    StuckNodeHasNoFinish(o', asOf, input.nodeId);
  }

  /** ... and then finishes on the day of its acceptance, whenever the schedule is evaluated. */
  lemma AcceptanceDatesFinish(o: Order, nodeId: Id, note: Option<string>, expected: int, actor: Id, dir: Directory,
                              at: Timestamp, asOf: Day)
    requires AcceptNode(o, nodeId, note, expected, actor, dir, at).Ok?
    ensures FinishOf(AcceptNode(o, nodeId, note, expected, actor, dir, at).value, asOf, nodeId) == Some(ShanghaiDay(at))
  {
    var o' := AcceptNode(o, nodeId, note, expected, actor, dir, at).value;
    AcceptAdvances(o, nodeId, note, expected, actor, dir, at);
    AddressedNode(o, o', nodeId, expected);
  }

  /** The feedback reports no less progress on the node, and no later dates. */
  predicate MoreProgress(o: Order, input: FeedbackInput)
    requires Checked(o, input.nodeId, input.expectedVersion).Ok? && Quantities(input).Some?
  {
    var n, q := o.nodes[Checked(o, input.nodeId, input.expectedVersion).value], Quantities(input).value;
    && n.percent <= RoundedPercent(q.0, q.1)
    && NoEarlier(input.expectedFinish, n.expectedFinish) && NoEarlier(input.materialEta, n.materialEta)
  }

  lemma ReportedNodeIsNotLater(n: Node, input: FeedbackInput, q: (int, int))
    requires 0 <= q.0 <= q.1 && 0 < q.1 && n.status != Accepted && n.percent <= RoundedPercent(q.0, q.1)
    requires NoEarlier(input.expectedFinish, n.expectedFinish) && NoEarlier(input.materialEta, n.materialEta)
    ensures LaterNode(FeedbackNode(n, input, q), n)
  {
  }

  lemma OneNodeLater(o: Order, o': Order, i: nat, n: Node)
    requires i < |o.nodes| && o'.nodes == o.nodes[i := n] && o'.calendar == o.calendar && LaterNode(n, o.nodes[i])
    ensures LaterOrder(o', o)
  {
  }

  lemma ProgressIsNotLater(o: Order, input: FeedbackInput, actor: Id, dir: Directory, id: Id, at: Timestamp)
    requires ApplyFeedback(o, input, actor, dir, id, at).Ok? && MoreProgress(o, input)
    ensures LaterOrder(ApplyFeedback(o, input, actor, dir, id, at).value, o)
  {
    var i, q := Checked(o, input.nodeId, input.expectedVersion).value, Quantities(input).value;
    ReportedNodeIsNotLater(o.nodes[i], input, q);
    OneNodeLater(o, ApplyFeedback(o, input, actor, dir, id, at).value, i, FeedbackNode(o.nodes[i], input, q));
  }

  /**
   * A report of no less progress and no later dates makes no finish of the project later, whatever the state of
   * the node was and becomes; a finish is compared where it is known before and after.
   */
  lemma ProgressNeverDelays(o: Order, input: FeedbackInput, actor: Id, dir: Directory, id: Id, at: Timestamp,
                            asOf: Day, nodeId: Id)
    requires Schedulable(o) && ApplyFeedback(o, input, actor, dir, id, at).Ok? && MoreProgress(o, input)
    ensures var o' := ApplyFeedback(o, input, actor, dir, id, at).value;
      && Evaluable(o, asOf) && Evaluable(o', asOf)
      && (FinishOf(o, asOf, nodeId).Some? && FinishOf(o', asOf, nodeId).Some? ==>
            FinishOf(o', asOf, nodeId).value <= FinishOf(o, asOf, nodeId).value)
  {
    var o' := ApplyFeedback(o, input, actor, dir, id, at).value;
    FeedbackAdvances(o, input, actor, dir, id, at);
    ValidatedProjectIsEvaluable(o, asOf);
    ValidatedProjectIsEvaluable(o', asOf);
    ProgressIsNotLater(o, input, actor, dir, id, at);
    if FinishOf(o, asOf, nodeId).Some? && FinishOf(o', asOf, nodeId).Some? {
      assert nodeId in Ids(o'.nodes);
      FinishIsNoEarlier(o', o, asOf, asOf, nodeId);
    }
  }

  lemma OneNodePlaced(o: Order, o': Order, i: nat, n: Node)
    requires i < |o.nodes| && o'.nodes == o.nodes[i := n] && o'.calendar == o.calendar
    requires n.id == o.nodes[i].id && n.dependencies == o.nodes[i].dependencies
    requires n.durationDays == o.nodes[i].durationDays && n.status != Accepted && o.nodes[i].status != Accepted
    ensures !Stalled(n) ==> NothingGetsStuck(o, o')
    ensures !Stalled(o.nodes[i]) ==> NothingGetsStuck(o', o)
  {
  }

  /**
   * Whatever a report says: unless it stalls the node, every finish known before it stays known; and unless the
   * node was stalled before, it brings no unknown finish to light.
   */
  lemma OnlyStallsHideAndReveal(o: Order, input: FeedbackInput, actor: Id, dir: Directory, id: Id, at: Timestamp,
                                asOf: Day, nodeId: Id)
    requires Schedulable(o) && ApplyFeedback(o, input, actor, dir, id, at).Ok?
    ensures var o' := ApplyFeedback(o, input, actor, dir, id, at).value;
      var i := Checked(o, input.nodeId, input.expectedVersion).value;
      && (!Stalled(o'.nodes[i]) && FinishOf(o, asOf, nodeId).Some? ==> FinishOf(o', asOf, nodeId).Some?)
      && (!Stalled(o.nodes[i]) && FinishOf(o', asOf, nodeId).Some? ==> FinishOf(o, asOf, nodeId).Some?)
  {
    var o' := ApplyFeedback(o, input, actor, dir, id, at).value;
    var i := Checked(o, input.nodeId, input.expectedVersion).value;
    FeedbackAdvances(o, input, actor, dir, id, at);
    OneNodePlaced(o, o', i, FeedbackNode(o.nodes[i], input, Quantities(input).value));
    ValidatedProjectIsEvaluable(o, asOf);
    ValidatedProjectIsEvaluable(o', asOf);
    if !Stalled(o'.nodes[i]) && FinishOf(o, asOf, nodeId).Some? {
      KnownStaysKnown(o, o', asOf, asOf, nodeId);
    }
    if !Stalled(o.nodes[i]) && FinishOf(o', asOf, nodeId).Some? {
      KnownStaysKnown(o', o, asOf, asOf, nodeId);
    }
  }
}
