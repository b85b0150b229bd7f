/** What the computed schedule means: feasible, least, known exactly when nothing upstream is stuck. */
module ScheduleProperties {
  import opened Contracts
  import opened Graph
  import opened Results
  import opened Schedule
  import opened WorkCalendar

  // ---------- The recursion succeeds on a validated project ----------

  /** The part of validation that the schedule relies on. */
  ghost predicate Schedulable(o: Order) {
    && (o.calendar.Some? ==> ValidCalendar(o.calendar.value))
    && Closed(o.nodes) && Acyclic(o.nodes)
  }

  /** Every way the evaluation could fail is excluded by a valid calendar and an acyclic, closed graph. */
  lemma {:induction false} PlainSucceeds(o: Order, asOf: Day, path: set<Id>, stack: seq<Id>, id: Id)
    requires Schedulable(o) && id in Ids(o.nodes)
    requires forall x :: x in path ==> x in stack
    requires IsWalk(o.nodes, stack) && (stack != [] ==> id in Dependencies(o.nodes, stack[|stack| - 1]))
    ensures Plain(o, asOf, path, id).Ok?
    decreases Ids(o.nodes) - path, 0
  {
    var n := FindNode(o.nodes, id).value;
    if id in path {
      var cycle := ReturnClosesCycle(o.nodes, stack, id);
      assert false;
    }
    if n.status != Accepted && Configured(o, n) {
      ExtendWalk(o.nodes, stack, id);
      PlainEndsSucceed(o, asOf, path + {id}, stack + [id], n.dependencies.value);
      EvaluateSucceeds(o, asOf, n, PlainEnds(o, asOf, path + {id}, n.dependencies.value).value);
    }
  }

  lemma {:induction false} PlainEndsSucceed(o: Order, asOf: Day, path: set<Id>, stack: seq<Id>, deps: seq<Id>)
    requires Schedulable(o) && stack != []
    requires forall x :: x in path ==> x in stack
    requires IsWalk(o.nodes, stack)
    requires forall dep :: dep in deps ==> dep in Dependencies(o.nodes, stack[|stack| - 1])
    ensures PlainEnds(o, asOf, path, deps).Ok?
    decreases Ids(o.nodes) - path, 1, |deps|
  {
    if deps != [] {
      assert deps[0] in deps && forall dep :: dep in deps[1..] ==> dep in deps;
      PlainSucceeds(o, asOf, path, stack, deps[0]);
      PlainEndsSucceed(o, asOf, path, stack, deps[1..]);
    }
  }

  lemma EvaluateSucceeds(o: Order, asOf: Day, n: Node, ends: map<Id, Option<Day>>)
    requires Configured(o, n) && ValidCalendar(o.calendar.value)
    requires forall dep :: dep in n.dependencies.value ==> dep in ends
    ensures Evaluate(o, asOf, n, ends).Ok?
  {
    if !DependencyUnknown(o.nodes, n.dependencies.value, ends) {
      TimedSucceeds(o.calendar.value, n, Latest(Boundaries(o, asOf, n, ends)));
    }
  }

  lemma TimedSucceeds(cal: Calendar, n: Node, boundary: Day)
    requires n.durationDays.Some? && ValidCalendar(cal)
    ensures Timed(cal, n, boundary).Ok?
  {
    SearchSucceeds(cal, boundary);
    WorkedSucceeds(cal, n, NextWorkday(cal, boundary).value);
  }

  lemma WorkedSucceeds(cal: Calendar, n: Node, start: Day)
    requires n.durationDays.Some? && ValidCalendar(cal)
    ensures Worked(cal, n, start).Ok?
  {
    AdvanceSucceeds(cal, start, Remaining(n) - 1);
    FinishedSucceeds(cal, n, start, Advance(cal, start, Remaining(n) - 1).value);
  }

  lemma FinishedSucceeds(cal: Calendar, n: Node, start: Day, end: Day)
    requires ValidCalendar(cal)
    ensures Finished(cal, n, start, end).Ok?
  {
    if n.expectedFinish.Some? {
      SearchSucceeds(cal, Latest([end, n.expectedFinish.value]));
    }
  }

  /** The schedule of every node can be computed. */
  ghost predicate Evaluable(o: Order, asOf: Day) {
    forall id :: id in Ids(o.nodes) ==> Plain(o, asOf, {}, id).Ok?
  }

  /** The evaluation of a validated project never fails, on any date and in any state of its nodes. */
  lemma ValidatedProjectIsEvaluable(o: Order, asOf: Day)
    requires Schedulable(o)
    ensures Evaluable(o, asOf)
  {
    forall id | id in Ids(o.nodes)
      ensures Plain(o, asOf, {}, id).Ok?
    {
      PlainSucceeds(o, asOf, {}, [], id);
    }
  }

  // ---------- Entries satisfy the local rule ----------

  ghost function FinishOf(o: Order, asOf: Day, id: Id): Option<Day> {
    match Plain(o, asOf, {}, id)
    case Ok(entry) => entry.finish
    case Err(_) => None
  }

  ghost function StartOf(o: Order, asOf: Day, id: Id): Option<Day> {
    match Plain(o, asOf, {}, id)
    case Ok(entry) => entry.start
    case Err(_) => None
  }

  /** The entry of a node follows from how its dependencies end, wherever the recursion began. */
  lemma EntryFollowsDependencies(o: Order, asOf: Day, id: Id) returns (ends: map<Id, Option<Day>>)
    requires Plain(o, asOf, {}, id).Ok? && Expands(o, id)
    ensures forall dep :: dep in DependenciesOf(o, id) <==> dep in ends
    ensures forall dep :: dep in ends ==> Plain(o, asOf, {}, dep).Ok? && ends[dep] == FinishOf(o, asOf, dep)
    ensures Plain(o, asOf, {}, id) == Evaluate(o, asOf, FindNode(o.nodes, id).value, ends)
  {
    var deps := DependenciesOf(o, id);
    assert id in Ids(o.nodes);
    assert PlainEnds(o, asOf, {} + {id}, deps).Ok?;
    ends := PlainEnds(o, asOf, {} + {id}, deps).value;
    forall dep | dep in deps
      ensures Plain(o, asOf, {}, dep).Ok? && ends[dep] == FinishOf(o, asOf, dep)
    {
      PlainEndsMembers(o, asOf, {} + {id}, deps, dep);
      ShorterPath(o, asOf, {} + {id}, {}, dep);
    }
  }

  /** A pending node with a computed finish. */
  ghost predicate Timetabled(o: Order, asOf: Day, id: Id) {
    Expands(o, id) && FinishOf(o, asOf, id).Some?
  }

  lemma TimetabledNodeIsTimed(o: Order, asOf: Day, id: Id) returns (ends: map<Id, Option<Day>>, boundary: Day)
    requires Timetabled(o, asOf, id)
    ensures forall dep :: dep in DependenciesOf(o, id) <==> dep in ends
    ensures forall dep :: dep in ends ==> ends[dep] == FinishOf(o, asOf, dep)
    ensures forall dep :: dep in ends && Pending(o.nodes, dep) ==> Timetabled(o, asOf, dep)
    ensures !DependencyUnknown(o.nodes, DependenciesOf(o, id), ends)
    ensures boundary == Latest(Boundaries(o, asOf, FindNode(o.nodes, id).value, ends))
    ensures Plain(o, asOf, {}, id) == Timed(o.calendar.value, FindNode(o.nodes, id).value, boundary)
  {
    ends := EntryFollowsDependencies(o, asOf, id);
    boundary := Latest(Boundaries(o, asOf, FindNode(o.nodes, id).value, ends));
    forall dep | dep in ends && Pending(o.nodes, dep)
      ensures Timetabled(o, asOf, dep)
    {
      assert ends[dep].Some?;
    }
  }

  // ---------- Feasible schedules ----------

  /** The demands of node id on a schedule that starts nodes at s and finishes them at t. */
  ghost predicate FeasibleAt(o: Order, asOf: Day, s: Id -> Day, t: Id -> Day, id: Id)
    requires Expands(o, id)
  {
    var n, cal := FindNode(o.nodes, id).value, o.calendar.value;
    && Working(cal, s(id)) && asOf <= s(id)
    && (n.plannedStart.Some? ==> n.plannedStart.value <= s(id))
    && (n.materialEta.Some? ==> n.materialEta.value <= s(id))
    && (forall dep :: dep in DependenciesOf(o, id) && Pending(o.nodes, dep) ==> t(dep) < s(id))
    && Remaining(n) <= WorkdaysIn(cal, s(id), t(id))
    && (n.expectedFinish.Some? ==> n.expectedFinish.value <= t(id) && Working(cal, t(id)))
  }

  ghost function Starts(o: Order, asOf: Day): Id -> Day {
    id => match StartOf(o, asOf, id) case Some(d) => d case None => 0
  }

  ghost function Finishes(o: Order, asOf: Day): Id -> Day {
    id => match FinishOf(o, asOf, id) case Some(d) => d case None => 0
  }

  lemma BoundaryMembers(o: Order, asOf: Day, n: Node, ends: map<Id, Option<Day>>)
    requires n.dependencies.Some?
    requires forall dep :: dep in n.dependencies.value ==> dep in ends && (Pending(o.nodes, dep) ==> ends[dep].Some?)
    ensures var b := Latest(Boundaries(o, asOf, n, ends));
      && asOf <= b
      && (n.plannedStart.Some? ==> n.plannedStart.value <= b)
      && (n.materialEta.Some? ==> n.materialEta.value <= b)
      && (forall dep :: dep in n.dependencies.value && Pending(o.nodes, dep) ==> ends[dep].value < b)
  {
    var all := Boundaries(o, asOf, n, ends);
    var after := DaysAfter(o.nodes, n.dependencies.value, ends);
    assert all == [asOf] + after + OptionalDay(n.plannedStart) + OptionalDay(n.materialEta);
    assert asOf in all;
    assert forall x :: x in OptionalDay(n.plannedStart) || x in OptionalDay(n.materialEta) ==> x in all;
    assert n.plannedStart.Some? ==> n.plannedStart.value in OptionalDay(n.plannedStart);
    assert n.materialEta.Some? ==> n.materialEta.value in OptionalDay(n.materialEta);
    forall dep | dep in n.dependencies.value && Pending(o.nodes, dep)
      ensures ends[dep].value < Latest(all)
    {
      assert ends[dep].value + 1 in after;
      assert ends[dep].value + 1 in all;
    }
  }

  /** Nothing but the listed demands pushes a start back. */
  lemma BoundaryIsTight(o: Order, asOf: Day, n: Node, ends: map<Id, Option<Day>>, x: Day)
    requires n.dependencies.Some?
    requires forall dep :: dep in n.dependencies.value ==> dep in ends && (Pending(o.nodes, dep) ==> ends[dep].Some?)
    requires asOf <= x
    requires n.plannedStart.Some? ==> n.plannedStart.value <= x
    requires n.materialEta.Some? ==> n.materialEta.value <= x
    requires forall dep :: dep in n.dependencies.value && Pending(o.nodes, dep) ==> ends[dep].value < x
    ensures Latest(Boundaries(o, asOf, n, ends)) <= x
  {
    var b := Latest(Boundaries(o, asOf, n, ends));
    if b in DaysAfter(o.nodes, n.dependencies.value, ends) {
      var dep :| dep in n.dependencies.value && Pending(o.nodes, dep) && b == ends[dep].value + 1;
    } else {
      assert b in [asOf] || b in OptionalDay(n.plannedStart) || b in OptionalDay(n.materialEta);
    }
  }

  /** What a calendar demands of the times of one node. */
  ghost predicate Fits(cal: Calendar, n: Node, boundary: Day, s: Day, t: Day)
    requires n.durationDays.Some?
  {
    && Working(cal, s) && boundary <= s
    && Remaining(n) <= WorkdaysIn(cal, s, t)
    && (n.expectedFinish.Some? ==> n.expectedFinish.value <= t && Working(cal, t))
  }

  lemma FinishedFits(cal: Calendar, n: Node, start: Day, end: Day)
    requires n.durationDays.Some? && Finished(cal, n, start, end).Ok?
    ensures var entry := Finished(cal, n, start, end).value;
      && entry.start == Some(start) && entry.finish.Some? && end <= entry.finish.value
      && (n.expectedFinish.Some? ==> n.expectedFinish.value <= entry.finish.value && Working(cal, entry.finish.value))
  {
    if n.expectedFinish.Some? {
      var both := [end, n.expectedFinish.value];
      assert both[0] in both && both[1] in both;
    }
  }

  lemma FinishedIsLeast(cal: Calendar, n: Node, start: Day, end: Day, t: Day)
    requires Finished(cal, n, start, end).Ok? && end <= t
    requires n.expectedFinish.Some? ==> n.expectedFinish.value <= t && Working(cal, t)
    ensures Finished(cal, n, start, end).value.finish.value <= t
  {
  }

  /** The computed times fit ... */
  lemma TimedFits(cal: Calendar, n: Node, boundary: Day)
    requires n.durationDays.Some? && Timed(cal, n, boundary).Ok?
    ensures var entry := Timed(cal, n, boundary).value;
      entry.start.Some? && entry.finish.Some? && Fits(cal, n, boundary, entry.start.value, entry.finish.value)
  {
    var start := NextWorkday(cal, boundary).value;
    var end := Advance(cal, start, Remaining(n) - 1).value;
    FinishedFits(cal, n, start, end);
    AdvanceCounts(cal, start, Remaining(n) - 1);
    WorkdaysGrow(cal, start, start, Timed(cal, n, boundary).value.finish.value, end);
  }

  /** ... and no times that fit are earlier. */
  lemma TimedIsLeast(cal: Calendar, n: Node, boundary: Day, s: Day, t: Day)
    requires n.durationDays.Some? && Timed(cal, n, boundary).Ok? && Fits(cal, n, boundary, s, t)
    ensures var entry := Timed(cal, n, boundary).value;
      entry.start.Some? && entry.start.value <= s && entry.finish.Some? && entry.finish.value <= t
  {
    var start := NextWorkday(cal, boundary).value;
    var end := Advance(cal, start, Remaining(n) - 1).value;
    WorkdaysGrow(cal, start, s, t, t);
    AdvanceIsLeast(cal, start, Remaining(n) - 1, t);
    FinishedFits(cal, n, start, end);
    FinishedIsLeast(cal, n, start, end, t);
  }

  /** The computed schedule meets every demand. */
  lemma ComputedScheduleIsFeasible(o: Order, asOf: Day, id: Id)
    requires Timetabled(o, asOf, id)
    ensures FeasibleAt(o, asOf, Starts(o, asOf), Finishes(o, asOf), id)
  {
    var ends, boundary := TimetabledNodeIsTimed(o, asOf, id);
    BoundaryMembers(o, asOf, FindNode(o.nodes, id).value, ends);
    TimedFits(o.calendar.value, FindNode(o.nodes, id).value, boundary);
  }

  /** The computed times of one node are least once those of its dependencies are. */
  lemma LeastStep(o: Order, asOf: Day, s: Id -> Day, t: Id -> Day, id: Id)
    requires Timetabled(o, asOf, id) && FeasibleAt(o, asOf, s, t, id)
    requires forall dep :: dep in DependenciesOf(o, id) && Pending(o.nodes, dep) ==>
      FinishOf(o, asOf, dep).Some? && FinishOf(o, asOf, dep).value <= t(dep)
    ensures StartOf(o, asOf, id).Some? && StartOf(o, asOf, id).value <= s(id) && FinishOf(o, asOf, id).value <= t(id)
  {
    var ends, boundary := TimetabledNodeIsTimed(o, asOf, id);
    BoundaryIsTight(o, asOf, FindNode(o.nodes, id).value, ends, s(id));
    TimedIsLeast(o.calendar.value, FindNode(o.nodes, id).value, boundary, s(id), t(id));
  }

  /** ids are timetabled, feasible at (s, t), and contain their pending dependencies. */
  ghost predicate FeasibleOn(o: Order, asOf: Day, s: Id -> Day, t: Id -> Day, ids: set<Id>) {
    forall id :: id in ids ==>
      && Timetabled(o, asOf, id) && FeasibleAt(o, asOf, s, t, id)
      && forall dep :: dep in DependenciesOf(o, id) && Pending(o.nodes, dep) ==> dep in ids
  }

  /** No feasible schedule starts or finishes a node earlier than the computed one. */
  lemma {:induction false} ComputedScheduleIsLeast(o: Order, asOf: Day, s: Id -> Day, t: Id -> Day, ids: set<Id>,
                                                   path: set<Id>, id: Id)
    requires FeasibleOn(o, asOf, s, t, ids) && id in ids && Plain(o, asOf, path, id).Ok?
    ensures StartOf(o, asOf, id).Some? && StartOf(o, asOf, id).value <= s(id)
    ensures FinishOf(o, asOf, id).Some? && FinishOf(o, asOf, id).value <= t(id)
    decreases Ids(o.nodes) - path
  {
    assert Timetabled(o, asOf, id) && id in Ids(o.nodes);
    forall dep | dep in DependenciesOf(o, id) && Pending(o.nodes, dep)
      ensures FinishOf(o, asOf, dep).Some? && FinishOf(o, asOf, dep).value <= t(dep)
    {
      PlainEndsMembers(o, asOf, path + {id}, DependenciesOf(o, id), dep);
      ComputedScheduleIsLeast(o, asOf, s, t, ids, path + {id}, dep);
    }
    LeastStep(o, asOf, s, t, id);
  }

  // ---------- Unknown finishes ----------

  /** A node that by itself has no computable finish. */
  ghost predicate Stuck(o: Order, id: Id) {
    var found := FindNode(o.nodes, id);
    && found.Some? && found.value.status != Accepted
    && var n := found.value;
      !Configured(o, n) || (n.status == Blocked && n.expectedFinish.None?) || n.status == ReportedComplete
  }

  /** A chain of pending nodes, each depending on the next, that ends in a stuck one. */
  ghost predicate LeadsToStuck(o: Order, p: seq<Id>) {
    && p != [] && Stuck(o, p[|p| - 1]) && IsWalk(o.nodes, p)
    && forall i :: 0 <= i < |p| ==> Pending(o.nodes, p[i])
  }

  lemma RestOfChain(o: Order, p: seq<Id>)
    requires LeadsToStuck(o, p) && 1 < |p|
    ensures LeadsToStuck(o, p[1..]) && p[1] in Dependencies(o.nodes, p[0]) && Pending(o.nodes, p[1])
  {
    assert p[0 + 1] in Dependencies(o.nodes, p[0]);
    var rest := p[1..];
    forall i | 0 <= i < |rest| - 1
      ensures rest[i + 1] in Dependencies(o.nodes, rest[i])
    {
      assert p[(i + 1) + 1] in Dependencies(o.nodes, p[i + 1]);
    }
  }

  lemma UnknownDependencySpreads(o: Order, asOf: Day, id: Id, dep: Id)
    requires Expands(o, id) && Plain(o, asOf, {}, id).Ok?
    requires dep in DependenciesOf(o, id) && Pending(o.nodes, dep) && FinishOf(o, asOf, dep).None?
    ensures FinishOf(o, asOf, id).None?
  {
    var ends := EntryFollowsDependencies(o, asOf, id);
    assert ends[dep].None?;
    assert DependencyUnknown(o.nodes, DependenciesOf(o, id), ends);
  }

  lemma StuckIsUnknown(o: Order, asOf: Day, id: Id)
    requires Stuck(o, id) && Plain(o, asOf, {}, id).Ok?
    ensures FinishOf(o, asOf, id).None?
  {
    if Expands(o, id) {
      var ends := EntryFollowsDependencies(o, asOf, id);
    }
  }

  lemma {:induction false} StuckUpstreamMeansUnknown(o: Order, asOf: Day, p: seq<Id>)
    requires LeadsToStuck(o, p) && Plain(o, asOf, {}, p[0]).Ok?
    ensures FinishOf(o, asOf, p[0]).None?
    decreases |p|
  {
    if |p| == 1 || Stuck(o, p[0]) {
      StuckIsUnknown(o, asOf, p[0]);
    } else {
      RestOfChain(o, p);
      var ends := EntryFollowsDependencies(o, asOf, p[0]);
      assert Plain(o, asOf, {}, p[1]).Ok?;
      StuckUpstreamMeansUnknown(o, asOf, p[1..]);
      UnknownDependencySpreads(o, asOf, p[0], p[1]);
    }
  }

  lemma {:induction false} UnknownMeansStuckUpstream(o: Order, asOf: Day, path: set<Id>, id: Id) returns (p: seq<Id>)
    requires Plain(o, asOf, path, id).Ok? && Pending(o.nodes, id) && FinishOf(o, asOf, id).None?
    ensures LeadsToStuck(o, p) && p[0] == id
    decreases Ids(o.nodes) - path
  {
    if Stuck(o, id) {
      p := [id];
    } else {
      ShorterPath(o, asOf, path, {}, id);
      assert Expands(o, id) && id in Ids(o.nodes);
      var ends := EntryFollowsDependencies(o, asOf, id);
      var dep := UnknownDependency(o, asOf, id, ends);
      PlainEndsMembers(o, asOf, path + {id}, DependenciesOf(o, id), dep);
      var rest := UnknownMeansStuckUpstream(o, asOf, path + {id}, dep);
      p := [id] + rest;
      StuckChainExtends(o, id, rest);
    }
  }

  lemma WalkExtends(nodes: seq<Node>, id: Id, rest: seq<Id>)
    requires IsWalk(nodes, rest) && rest != [] && rest[0] in Dependencies(nodes, id)
    ensures IsWalk(nodes, [id] + rest)
  {
    var p := [id] + rest;
    forall i | 0 <= i < |p| - 1
      ensures p[i + 1] in Dependencies(nodes, p[i])
    {
      if i > 0 {
        assert rest[(i - 1) + 1] in Dependencies(nodes, rest[i - 1]);
      }
    }
  }

  lemma StuckChainExtends(o: Order, id: Id, rest: seq<Id>)
    requires LeadsToStuck(o, rest) && Expands(o, id) && rest[0] in DependenciesOf(o, id)
    ensures LeadsToStuck(o, [id] + rest)
  {
    WalkExtends(o.nodes, id, rest);
    var p := [id] + rest;
    assert p[|p| - 1] == rest[|rest| - 1];
    forall i | 0 <= i < |p|
      ensures Pending(o.nodes, p[i])
    {
      if i > 0 {
        assert p[i] == rest[i - 1];
      }
    }
  }

  lemma UnknownDependency(o: Order, asOf: Day, id: Id, ends: map<Id, Option<Day>>) returns (dep: Id)
    requires Expands(o, id) && !Stuck(o, id) && FinishOf(o, asOf, id).None?
    requires forall dep :: dep in DependenciesOf(o, id) <==> dep in ends
    requires forall dep :: dep in ends ==> ends[dep] == FinishOf(o, asOf, dep)
    requires Plain(o, asOf, {}, id).Ok?
    requires Plain(o, asOf, {}, id) == Evaluate(o, asOf, FindNode(o.nodes, id).value, ends)
    ensures dep in DependenciesOf(o, id) && Pending(o.nodes, dep) && FinishOf(o, asOf, dep).None?
  {
    var n := FindNode(o.nodes, id).value;
    assert DependencyUnknown(o.nodes, n.dependencies.value, ends);
    dep :| dep in n.dependencies.value && ends[dep].None? && Pending(o.nodes, dep);
  }

  /**
   * A pending node has no computed finish exactly when it is, or depends through pending nodes on, a node
   * that is not configured, blocked without an owner's date, or awaiting acceptance.
   */
  lemma UnknownIffStuckUpstream(o: Order, asOf: Day, id: Id)
    requires Plain(o, asOf, {}, id).Ok? && Pending(o.nodes, id)
    ensures FinishOf(o, asOf, id).None? <==> exists p :: LeadsToStuck(o, p) && p[0] == id
  {
    if FinishOf(o, asOf, id).None? {
      var p := UnknownMeansStuckUpstream(o, asOf, {}, id);
    }
    if p :| LeadsToStuck(o, p) && p[0] == id {
      StuckUpstreamMeansUnknown(o, asOf, p);
    }
  }
}
