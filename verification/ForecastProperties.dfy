/** What the forecast and the risk of an order tell, and how they react to later dates and more work. */
module ForecastProperties {
  import opened Contracts
  import opened Graph
  import opened Results
  import opened Schedule
  import opened ScheduleEvaluation
  import opened ScheduleProperties
  import opened WorkCalendar

  // ---------- Risk ----------

  lemma GapIffUnknown(o: Order, asOf: Day, id: Id)
    requires Plain(o, asOf, {}, id).Ok?
    ensures HasGap(o, asOf, id) <==> FinishOf(o, asOf, id).None?
  {
    if Expands(o, id) {
      var ends := EntryFollowsDependencies(o, asOf, id);
    }
  }

  /** Risk is normal exactly when every node has a known finish that is not after the due date. */
  lemma NormalIffAllKnownInTime(o: Order, asOf: Day)
    requires Evaluable(o, asOf)
    ensures RiskOf(o, asOf) == Normal <==>
      forall id :: id in Ids(o.nodes) ==> FinishOf(o, asOf, id).Some? && FinishOf(o, asOf, id).value <= o.due
  {
    forall id | id in Ids(o.nodes)
      ensures HasGap(o, asOf, id) <==> FinishOf(o, asOf, id).None?
    {
      GapIffUnknown(o, asOf, id);
    }
  }

  /** A normal risk on a project with nodes means a known forecast that meets the due date. */
  lemma NormalMeansForecastInTime(o: Order, asOf: Day)
    requires Evaluable(o, asOf) && o.nodes != [] && RiskOf(o, asOf) == Normal
    ensures ForecastOf(o, asOf).Some? && ForecastOf(o, asOf).value <= o.due
  {
    NormalIffAllKnownInTime(o, asOf);
    forall n | n in o.nodes
      ensures FinishOf(o, asOf, n.id).Some? && FinishOf(o, asOf, n.id).value <= o.due
    {
      assert n.id in Ids(o.nodes);
    }
    assert FinishOf(o, asOf, o.nodes[0].id).Some?;
    KnownFinishesGiveForecast(o, asOf);
  }

  lemma KnownFinishesGiveForecast(o: Order, asOf: Day)
    requires Evaluable(o, asOf) && o.nodes != []
    requires forall n :: n in o.nodes ==> FinishOf(o, asOf, n.id).Some? && FinishOf(o, asOf, n.id).value <= o.due
    ensures ForecastOf(o, asOf).Some? && ForecastOf(o, asOf).value <= o.due
  {
    assert ForecastKnown(o, asOf);
    LatestOfTimely(FinishList(o, asOf), o.due);
  }

  lemma LatestOfTimely(ends: seq<Option<Day>>, due: Day)
    requires ends != [] && forall i :: 0 <= i < |ends| ==> ends[i].Some? && ends[i].value <= due
    ensures LatestKnown(ends).Some? && LatestKnown(ends).value <= due
  {
    assert ends[0] in ends;
  }

  /** Without nodes the risk is normal although there is no forecast. */
  lemma EmptyProjectIsNormalWithoutForecast(o: Order, asOf: Day)
    requires o.nodes == []
    ensures RiskOf(o, asOf) == Normal && ForecastOf(o, asOf) == None
  {
    assert Ids(o.nodes) == {};
    assert FinishList(o, asOf) == [];
  }

  lemma ChainMeansUnknown(o: Order, asOf: Day, p: seq<Id>)
    requires Evaluable(o, asOf) && LeadsToStuck(o, p)
    ensures !ForecastKnown(o, asOf)
  {
    assert Pending(o.nodes, p[0]);
    FirstOfChain(o, p);
    StuckUpstreamMeansUnknown(o, asOf, p);
    assert FindNode(o.nodes, p[0]).value in o.nodes;
  }

  lemma UnknownMeansChain(o: Order, asOf: Day)
    requires Evaluable(o, asOf) && UniqueIds(o.nodes) && !ForecastKnown(o, asOf)
    requires exists n :: n in o.nodes && n.status != Accepted
    ensures exists p :: LeadsToStuck(o, p)
  {
    var n :| n in o.nodes && n.status != Accepted && FinishOf(o, asOf, n.id).None?;
    FoundById(o.nodes, n);
    assert n.id in Ids(o.nodes);
    UnknownIffStuckUpstream(o, asOf, n.id);
  }

  /** An unfinished project has a forecast exactly when no unfinished node leads to a stuck one. */
  lemma ForecastUnknownIffStuck(o: Order, asOf: Day)
    requires Evaluable(o, asOf) && UniqueIds(o.nodes)
    requires exists n :: n in o.nodes && n.status != Accepted
    ensures ForecastOf(o, asOf).None? <==> exists p :: LeadsToStuck(o, p)
  {
    if ForecastKnown(o, asOf) {
      KnownFinishes(o, asOf);
      forall p
        ensures !LeadsToStuck(o, p)
      {
        if LeadsToStuck(o, p) {
          ChainMeansUnknown(o, asOf, p);
        }
      }
    } else {
      UnknownMeansChain(o, asOf);
    }
  }

  lemma KnownFinishes(o: Order, asOf: Day)
    requires Evaluable(o, asOf) && UniqueIds(o.nodes) && ForecastKnown(o, asOf)
    requires exists n :: n in o.nodes && n.status != Accepted
    ensures ForecastOf(o, asOf).Some?
  {
    var n :| n in o.nodes && n.status != Accepted;
    FoundById(o.nodes, n);
    assert n.id in Ids(o.nodes);
    var i :| 0 <= i < |o.nodes| && o.nodes[i] == n;
    var ends := FinishList(o, asOf);
    assert ends[i] in ends && ends[i].Some?;
  }

  lemma FirstOfChain(o: Order, p: seq<Id>)
    requires LeadsToStuck(o, p)
    ensures FindNode(o.nodes, p[0]).Some?
  {
    if |p| > 1 {
      assert p[0 + 1] in Dependencies(o.nodes, p[0]);
    }
  }

  lemma FoundById(nodes: seq<Node>, n: Node)
    requires UniqueIds(nodes) && n in nodes
    ensures FindNode(nodes, n.id) == Some(n)
  {
    var i :| 0 <= i < |nodes| && nodes[i] == n;
    var found := IndexOf(nodes, n.id);
    assert found.Some? && nodes[found.value].id == nodes[i].id;
  }

  // ---------- Monotonicity ----------

  predicate NoEarlier(d: Option<Day>, d': Option<Day>) {
    d.Some? ==> d'.Some? && d.value <= d'.value
  }

  predicate AcceptedNoEarlier(n: Node, n': Node) {
    n.acceptance.Some? ==> n'.acceptance.Some? && n.acceptance.value.at <= n'.acceptance.value.at
  }

  /** Reported complete, or blocked without a date: no finish can be computed. */
  predicate Stalled(n: Node) {
    n.status == ReportedComplete || (n.status == Blocked && n.expectedFinish.None?)
  }

  /** n' has the same place in the project as n, but at least as much work left and dates at least as late. */
  predicate LaterNode(n: Node, n': Node) {
    && n'.id == n.id && n'.dependencies == n.dependencies
    && (n'.status == Accepted <==> n.status == Accepted)
    && (n.status == Accepted ==> AcceptedNoEarlier(n, n'))
    && (n.durationDays.Some? <==> n'.durationDays.Some?)
    && (n.durationDays.Some? ==> n.durationDays.value <= n'.durationDays.value)
    && n'.percent <= n.percent
    && NoEarlier(n.plannedStart, n'.plannedStart)
    && NoEarlier(n.materialEta, n'.materialEta)
    && NoEarlier(n.expectedFinish, n'.expectedFinish)
  }

  /** Fewer working days in the calendar, and no node with less to do. */
  ghost predicate LaterOrder(o: Order, o': Order) {
    && |o'.nodes| == |o.nodes| && (forall i :: 0 <= i < |o.nodes| ==> LaterNode(o.nodes[i], o'.nodes[i]))
    && (o.calendar.Some? ==>
          && o'.calendar.Some?
          && (o.calendar.value.weekdays != [] ==> o'.calendar.value.weekdays != [])
          && forall d :: Working(o'.calendar.value, d) ==> Working(o.calendar.value, d))
  }

  /** No node gets stalled. */
  ghost predicate NoneStalls(o: Order, o': Order)
    requires |o'.nodes| == |o.nodes|
  {
    forall i :: 0 <= i < |o.nodes| ==> Stalled(o'.nodes[i]) ==> Stalled(o.nodes[i])
  }

  lemma {:induction false} SameIndex(nodes: seq<Node>, nodes': seq<Node>, id: Id)
    requires |nodes| == |nodes'| && forall i :: 0 <= i < |nodes| ==> nodes'[i].id == nodes[i].id
    ensures IndexOf(nodes', id) == IndexOf(nodes, id)
  {
    if nodes != [] && nodes[0].id != id {
      SameIndex(nodes[1..], nodes'[1..], id);
    }
  }

  lemma LaterCounterpart(o: Order, o': Order, id: Id)
    requires LaterOrder(o, o')
    ensures FindNode(o.nodes, id).Some? <==> FindNode(o'.nodes, id).Some?
    ensures FindNode(o.nodes, id).Some? ==> LaterNode(FindNode(o.nodes, id).value, FindNode(o'.nodes, id).value)
    ensures Pending(o.nodes, id) <==> Pending(o'.nodes, id)
    ensures Dependencies(o.nodes, id) == Dependencies(o'.nodes, id)
    ensures Expands(o, id) ==> Expands(o', id) && DependenciesOf(o, id) == DependenciesOf(o', id)
  {
    SameIndex(o.nodes, o'.nodes, id);
  }

  lemma ProductGrows(d: int, d': int, q: int, q': int)
    requires 0 < d <= d' && 0 <= q <= q'
    ensures d * q <= d' * q'
  {
    assert d * q <= d' * q;
    assert d' * q <= d' * q';
  }

  lemma ProductNotPositive(d: int, q: int)
    requires 0 < d && q <= 0
    ensures d * q <= 0
  {
  }

  lemma MoreRemains(n: Node, n': Node)
    requires LaterNode(n, n') && n.durationDays.Some? && 0 < n.durationDays.value
    ensures Remaining(n) <= Remaining(n')
  {
    var d, d' := n.durationDays.value, n'.durationDays.value;
    if n.percent <= 100 {
      ProductGrows(d, d', 100 - n.percent, 100 - n'.percent);
    } else {
      ProductNotPositive(d, 100 - n.percent);
    }
  }

  /** n' has the same place as n, and can be given a finish if n can. */
  ghost predicate StaysPlaced(o: Order, o': Order, n: Node, n': Node) {
    && n'.id == n.id && n'.dependencies == n.dependencies
    && (n'.status == Accepted <==> n.status == Accepted)
    && (n.status == Accepted && n.acceptance.Some? ==> n'.acceptance.Some?)
    && (Configured(o, n) ==> Configured(o', n'))
    && (Stalled(n') ==> Stalled(n))
  }

  ghost predicate NothingGetsStuck(o: Order, o': Order) {
    |o'.nodes| == |o.nodes| && forall i :: 0 <= i < |o.nodes| ==> StaysPlaced(o, o', o.nodes[i], o'.nodes[i])
  }

  lemma PlacedCounterpart(o: Order, o': Order, id: Id)
    requires NothingGetsStuck(o, o')
    ensures FindNode(o.nodes, id).Some? <==> FindNode(o'.nodes, id).Some?
    ensures Pending(o.nodes, id) <==> Pending(o'.nodes, id)
    ensures Dependencies(o.nodes, id) == Dependencies(o'.nodes, id)
    ensures Stuck(o', id) ==> Stuck(o, id)
    ensures AcceptedDated(o, id) ==> AcceptedDated(o', id)
  {
    SameIndex(o.nodes, o'.nodes, id);
  }

  predicate AcceptedDated(o: Order, id: Id) {
    var n := FindNode(o.nodes, id);
    n.Some? && n.value.status == Accepted && n.value.acceptance.Some?
  }

  lemma AcceptedIsKnownIffDated(o: Order, asOf: Day, id: Id)
    requires !Pending(o.nodes, id)
    ensures FinishOf(o, asOf, id).Some? <==> AcceptedDated(o, id)
  {
  }

  lemma ChainWasStuckBefore(o: Order, o': Order, p: seq<Id>)
    requires NothingGetsStuck(o, o') && LeadsToStuck(o', p)
    ensures LeadsToStuck(o, p)
  {
    forall i | 0 <= i < |p|
      ensures Pending(o.nodes, p[i]) && Dependencies(o.nodes, p[i]) == Dependencies(o'.nodes, p[i])
    {
      PlacedCounterpart(o, o', p[i]);
    }
    PlacedCounterpart(o, o', p[|p| - 1]);
  }

  lemma UnknownWasUnknown(o: Order, o': Order, asOf: Day, asOf': Day, id: Id)
    requires NothingGetsStuck(o, o') && Plain(o, asOf, {}, id).Ok? && Plain(o', asOf', {}, id).Ok?
    requires Pending(o.nodes, id) && Pending(o'.nodes, id) && FinishOf(o', asOf', id).None?
    ensures FinishOf(o, asOf, id).None?
  {
    UnknownIffStuckUpstream(o', asOf', id);
    var p :| LeadsToStuck(o', p) && p[0] == id;
    ChainWasStuckBefore(o, o', p);
    UnknownIffStuckUpstream(o, asOf, id);
  }

  lemma LaterStaysPlaced(o: Order, o': Order)
    requires LaterOrder(o, o') && NoneStalls(o, o')
    ensures NothingGetsStuck(o, o')
  {
    forall i | 0 <= i < |o.nodes|
      ensures StaysPlaced(o, o', o.nodes[i], o'.nodes[i])
    {
      assert LaterNode(o.nodes[i], o'.nodes[i]);
    }
  }

  /** While nothing gets stuck, what is known stays known, whatever happens to dates and durations. */
  lemma KnownStaysKnown(o: Order, o': Order, asOf: Day, asOf': Day, id: Id)
    requires NothingGetsStuck(o, o') && Plain(o, asOf, {}, id).Ok? && Plain(o', asOf', {}, id).Ok?
    requires FinishOf(o, asOf, id).Some?
    ensures FinishOf(o', asOf', id).Some?
  {
    PlacedCounterpart(o, o', id);
    if !Pending(o.nodes, id) {
      AcceptedIsKnownIffDated(o, asOf, id);
      AcceptedIsKnownIffDated(o', asOf', id);
    } else if FinishOf(o', asOf', id).None? {
      UnknownWasUnknown(o, o', asOf, asOf', id);
    }
  }

  /** A schedule that is feasible for the later order is feasible for the earlier one. */
  lemma LaterScheduleStaysFeasible(o: Order, o': Order, asOf: Day, asOf': Day, s: Id -> Day, t: Id -> Day, id: Id)
    requires LaterOrder(o, o') && asOf <= asOf' && Expands(o, id) && Expands(o', id)
    requires FeasibleAt(o', asOf', s, t, id)
    ensures FeasibleAt(o, asOf, s, t, id)
  {
    LaterCounterpart(o, o', id);
    MoreRemains(FindNode(o.nodes, id).value, FindNode(o'.nodes, id).value);
    WorkdaysOfSparserCalendar(o.calendar.value, o'.calendar.value, s(id), t(id));
    forall dep | dep in DependenciesOf(o, id) && Pending(o.nodes, dep)
      ensures t(dep) < s(id)
    {
      LaterCounterpart(o, o', dep);
    }
  }

  /**
   * A later evaluation date, later dates, longer work, less progress or more holidays never make a finish
   * that is known before and after any earlier.
   */
  lemma FinishIsNoEarlier(o: Order, o': Order, asOf: Day, asOf': Day, id: Id)
    requires LaterOrder(o, o') && asOf <= asOf' && Evaluable(o, asOf) && Evaluable(o', asOf')
    requires id in Ids(o.nodes) && FinishOf(o, asOf, id).Some? && FinishOf(o', asOf', id).Some?
    ensures FinishOf(o, asOf, id).value <= FinishOf(o', asOf', id).value
  {
    LaterCounterpart(o, o', id);
    if Expands(o, id) {
      var s, t := Starts(o', asOf'), Finishes(o', asOf');
      var ids := set x | x in Ids(o.nodes) && Timetabled(o, asOf, x) && Timetabled(o', asOf', x);
      forall x | x in ids
        ensures FeasibleAt(o, asOf, s, t, x)
        ensures forall dep :: dep in DependenciesOf(o, x) && Pending(o.nodes, dep) ==> dep in ids
      {
        ComputedScheduleIsFeasible(o', asOf', x);
        LaterScheduleStaysFeasible(o, o', asOf, asOf', s, t, x);
        DependenciesTimetabled(o, o', asOf, asOf', x);
      }
      ComputedScheduleIsLeast(o, asOf, s, t, ids, {}, id);
    }
  }

  lemma DependenciesTimetabled(o: Order, o': Order, asOf: Day, asOf': Day, id: Id)
    requires LaterOrder(o, o') && Timetabled(o, asOf, id) && Timetabled(o', asOf', id)
    ensures forall dep :: dep in DependenciesOf(o, id) && Pending(o.nodes, dep) ==>
      dep in Ids(o.nodes) && Timetabled(o, asOf, dep) && Timetabled(o', asOf', dep)
  {
    var ends, boundary := TimetabledNodeIsTimed(o, asOf, id);
    var ends', boundary' := TimetabledNodeIsTimed(o', asOf', id);
    LaterCounterpart(o, o', id);
    forall dep | dep in DependenciesOf(o, id) && Pending(o.nodes, dep)
      ensures dep in Ids(o.nodes) && Timetabled(o, asOf, dep) && Timetabled(o', asOf', dep)
    {
      LaterCounterpart(o, o', dep);
    }
  }

  /** If no node gets stalled either, what was known stays known. */
  lemma FinishIsMonotone(o: Order, o': Order, asOf: Day, asOf': Day, id: Id)
    requires LaterOrder(o, o') && NoneStalls(o, o') && asOf <= asOf' && Evaluable(o, asOf) && Evaluable(o', asOf')
    requires id in Ids(o.nodes) && FinishOf(o, asOf, id).Some?
    ensures FinishOf(o', asOf', id).Some? && FinishOf(o, asOf, id).value <= FinishOf(o', asOf', id).value
  {
    SameIds(o, o');
    LaterStaysPlaced(o, o');
    KnownStaysKnown(o, o', asOf, asOf', id);
    FinishIsNoEarlier(o, o', asOf, asOf', id);
  }

  lemma SameIds(o: Order, o': Order)
    requires LaterOrder(o, o')
    ensures Ids(o.nodes) == Ids(o'.nodes)
  {
    forall id
      ensures id in Ids(o.nodes) <==> id in Ids(o'.nodes)
    {
      LaterCounterpart(o, o', id);
      if id in Ids(o.nodes) {
        assert FindNode(o.nodes, id).Some?;
      }
      if id in Ids(o'.nodes) {
        assert FindNode(o'.nodes, id).Some?;
      }
    }
  }

  lemma FinishAtIsMonotone(o: Order, o': Order, asOf: Day, asOf': Day, i: nat)
    requires LaterOrder(o, o') && NoneStalls(o, o') && asOf <= asOf' && Evaluable(o, asOf) && Evaluable(o', asOf')
    requires i < |o.nodes| && FinishList(o, asOf)[i].Some?
    ensures (o'.nodes[i].status == Accepted <==> o.nodes[i].status == Accepted) && FinishList(o', asOf')[i].Some?
    ensures FinishList(o, asOf)[i].value <= FinishList(o', asOf')[i].value
  {
    assert LaterNode(o.nodes[i], o'.nodes[i]) && o.nodes[i].id in Ids(o.nodes);
    FinishIsMonotone(o, o', asOf, asOf', o.nodes[i].id);
  }

  /** The forecast never becomes earlier or unknown when the order only gets later. */
  lemma ForecastIsMonotone(o: Order, o': Order, asOf: Day, asOf': Day)
    requires LaterOrder(o, o') && NoneStalls(o, o') && asOf <= asOf' && Evaluable(o, asOf) && Evaluable(o', asOf')
    requires ForecastOf(o, asOf).Some?
    ensures ForecastOf(o', asOf').Some? && ForecastOf(o, asOf).value <= ForecastOf(o', asOf').value
  {
    ForecastStaysKnown(o, o', asOf, asOf');
    var ends, ends' := FinishList(o, asOf), FinishList(o', asOf');
    assert LatestKnown(ends) in ends;
    var i :| 0 <= i < |ends| && ends[i] == LatestKnown(ends);
    FinishAtIsMonotone(o, o', asOf, asOf', i);
    assert ends'[i] in ends';
  }

  lemma ForecastStaysKnown(o: Order, o': Order, asOf: Day, asOf': Day)
    requires LaterOrder(o, o') && NoneStalls(o, o') && asOf <= asOf' && Evaluable(o, asOf) && Evaluable(o', asOf')
    requires ForecastKnown(o, asOf)
    ensures ForecastKnown(o', asOf')
  {
    var unfinished' := exists n :: n in o'.nodes && n.status != Accepted;
    forall n' | n' in o'.nodes && (unfinished' ==> n'.status != Accepted)
      ensures FinishOf(o', asOf', n'.id).Some?
    {
      var i :| 0 <= i < |o'.nodes| && o'.nodes[i] == n';
      var n := o.nodes[i];
      assert LaterNode(n, n') && n in o.nodes;
      if !unfinished' {
        NothingUnfinished(o, o');
      }
      assert FinishOf(o, asOf, n.id).Some?;
      FinishAtIsMonotone(o, o', asOf, asOf', i);
    }
  }

  lemma NothingUnfinished(o: Order, o': Order)
    requires LaterOrder(o, o') && forall n :: n in o'.nodes ==> n.status == Accepted
    ensures forall n :: n in o.nodes ==> n.status == Accepted
  {
    forall n | n in o.nodes
      ensures n.status == Accepted
    {
      var i :| 0 <= i < |o.nodes| && o.nodes[i] == n;
      assert LaterNode(o.nodes[i], o'.nodes[i]) && o'.nodes[i] in o'.nodes;
    }
  }
}
