/** The evaluation of a schedule as the service runs it: memoised depth-first search, forecast and risk. */
module ScheduleEvaluation {
  import opened Contracts
  import opened Results
  import opened Schedule
  import opened ScheduleProperties
  import opened WorkCalendar

  datatype NodeSchedule = NodeSchedule(nodeId: Id, start: Option<Day>, finish: Option<Day>, basis: Basis)

  datatype Missing = Missing(nodeId: Id, gap: Gap)

  datatype Evaluated = Evaluated(
    forecast: Option<Day>,
    risk: Risk,
    asOf: Day,
    sourceVersion: int,
    missing: seq<Missing>,
    nodes: seq<NodeSchedule>)

  // ---------- Specification ----------

  function Scheduled(id: Id, entry: Entry): NodeSchedule {
    NodeSchedule(id, entry.start, entry.finish, entry.basis)
  }

  function GapOf(id: Id, entry: Entry): seq<Missing> {
    if entry.gap.Some? then [Missing(id, entry.gap.value)] else []
  }

  /** The gaps of the recorded nodes, in the order of recording. */
  ghost function Gaps(o: Order, asOf: Day, nodes: seq<NodeSchedule>): seq<Missing> {
    if nodes == [] then []
    else
      var last := nodes[|nodes| - 1].nodeId;
      Gaps(o, asOf, nodes[..|nodes| - 1])
      + match Plain(o, asOf, {}, last) case Ok(entry) => GapOf(last, entry) case Err(_) => []
  }

  ghost function RecordedIds(nodes: seq<NodeSchedule>): (ids: set<Id>)
    ensures forall i :: 0 <= i < |nodes| ==> nodes[i].nodeId in ids
  {
    if nodes == [] then {} else RecordedIds(nodes[..|nodes| - 1]) + {nodes[|nodes| - 1].nodeId}
  }

  /** No node is recorded twice, and each is recorded with the entry of the plain recursion. */
  ghost predicate Faithful(o: Order, asOf: Day, nodes: seq<NodeSchedule>) {
    nodes != [] ==>
      var earlier, last := nodes[..|nodes| - 1], nodes[|nodes| - 1];
      && Faithful(o, asOf, earlier) && last.nodeId !in RecordedIds(earlier)
      && Plain(o, asOf, {}, last.nodeId).Ok?
      && last == Scheduled(last.nodeId, Plain(o, asOf, {}, last.nodeId).value)
  }

  /** Exactly the nodes `ids` are recorded. */
  ghost predicate Recorded(o: Order, asOf: Day, ids: set<Id>, nodes: seq<NodeSchedule>, missing: seq<Missing>) {
    Faithful(o, asOf, nodes) && RecordedIds(nodes) == ids && missing == Gaps(o, asOf, nodes)
  }

  function LatestKnown(ends: seq<Option<Day>>): (r: Option<Day>)
    ensures r.None? <==> forall e :: e in ends ==> e.None?
    ensures r.Some? ==> r in ends && forall e :: e in ends && e.Some? ==> e.value <= r.value
  {
    if ends == [] then None
    else
      var rest := LatestKnown(ends[..|ends| - 1]);
      var last := ends[|ends| - 1];
      assert ends == ends[..|ends| - 1] + [last];
      if last.None? then rest
      else if rest.None? || rest.value < last.value then last
      else rest
  }

  ghost function FinishList(o: Order, asOf: Day): (ends: seq<Option<Day>>)
    ensures |ends| == |o.nodes| && forall i :: 0 <= i < |ends| ==> ends[i] == FinishOf(o, asOf, o.nodes[i].id)
  {
    seq(|o.nodes|, i requires 0 <= i < |o.nodes| => FinishOf(o, asOf, o.nodes[i].id))
  }

  ghost predicate ForecastKnown(o: Order, asOf: Day) {
    if exists n :: n in o.nodes && n.status != Accepted then
      forall n :: n in o.nodes && n.status != Accepted ==> FinishOf(o, asOf, n.id).Some?
    else
      forall n :: n in o.nodes ==> FinishOf(o, asOf, n.id).Some?
  }

  ghost function ForecastOf(o: Order, asOf: Day): Option<Day> {
    if ForecastKnown(o, asOf) then LatestKnown(FinishList(o, asOf)) else None
  }

  ghost predicate ConfirmedLate(o: Order, asOf: Day) {
    exists id :: id in Ids(o.nodes) && FinishOf(o, asOf, id).Some? && o.due < FinishOf(o, asOf, id).value
  }

  ghost predicate HasGap(o: Order, asOf: Day, id: Id) {
    Plain(o, asOf, {}, id).Ok? && Plain(o, asOf, {}, id).value.gap.Some?
  }

  ghost function RiskOf(o: Order, asOf: Day): Risk {
    if ConfirmedLate(o, asOf) then AtRisk
    else if exists id :: id in Ids(o.nodes) && HasGap(o, asOf, id) then Attention
    else Normal
  }

  /** r is the evaluation that the plain recursion defines. */
  ghost predicate IsEvaluation(o: Order, asOf: Day, r: Evaluated) {
    && r.asOf == asOf && r.sourceVersion == o.version
    && Recorded(o, asOf, Ids(o.nodes), r.nodes, r.missing)
    && r.forecast == ForecastOf(o, asOf) && r.risk == RiskOf(o, asOf)
  }

  // ---------- Timing of one node ----------

  method TimeNode(cal: Calendar, n: Node, boundary: Day) returns (r: Result<Entry, ScheduleError>)
    requires n.durationDays.Some?
    ensures r == Timed(cal, n, boundary)
  {
    var first := FindWorkday(cal, boundary);
    if first.None? {
      return Err(ValidationError);
    }
    var start := first.value;
    var end := start;
    var remaining := Remaining(n) - 1;
    while remaining > 0
      invariant 0 <= remaining && Advance(cal, start, Remaining(n) - 1) == Advance(cal, end, remaining)
    {
      var next := FindWorkday(cal, end + 1);
      if next.None? {
        return Err(ValidationError);
      }
      end := next.value;
      remaining := remaining - 1;
    }
    if n.expectedFinish.None? {
      return Ok(Entry(Some(start), Some(end), RemainingWork, None));
    }
    var finish := FindWorkday(cal, Latest([end, n.expectedFinish.value]));
    if finish.None? {
      return Err(ValidationError);
    }
    r := Ok(Entry(Some(start), finish, OwnerDate, None));
  }

  // ---------- Memoised recursion ----------

  /** What is stored is what the plain recursion finds. */
  ghost predicate Remembers(o: Order, asOf: Day, done: map<Id, Option<Day>>) {
    forall id {:trigger done[id]} :: id in done ==> Plain(o, asOf, {}, id).Ok? && done[id] == FinishOf(o, asOf, id)
  }

  /** What is remembered is right, closed under the recursion, and apart from what is being visited. */
  ghost predicate Memo(o: Order, asOf: Day, done: map<Id, Option<Day>>, visiting: set<Id>) {
    && done.Keys !! visiting && visiting <= Ids(o.nodes) && done.Keys <= Ids(o.nodes)
    && ClosedUnder(o, done.Keys)
    && Remembers(o, asOf, done)
  }

  lemma {:induction false} EndsKnown(o: Order, asOf: Day, path: set<Id>, deps: seq<Id>)
    requires forall dep :: dep in deps ==> Plain(o, asOf, path, dep).Ok?
    ensures PlainEnds(o, asOf, path, deps).Ok?
    decreases |deps|
  {
    if deps != [] {
      EndsKnown(o, asOf, path, deps[1..]);
    }
  }

  lemma {:induction false} DaysAfterAgree(nodes: seq<Node>, deps: seq<Id>, ends: map<Id, Option<Day>>,
                                          ends': map<Id, Option<Day>>)
    requires forall dep :: dep in deps ==> dep in ends && dep in ends' && ends[dep] == ends'[dep]
    requires forall dep :: dep in deps && Pending(nodes, dep) ==> ends[dep].Some?
    ensures DaysAfter(nodes, deps, ends) == DaysAfter(nodes, deps, ends')
  {
    if deps != [] {
      DaysAfterAgree(nodes, deps[1..], ends, ends');
    }
  }

  /** Only the dependencies of a node matter for its entry. */
  lemma EvaluateAgrees(o: Order, asOf: Day, n: Node, ends: map<Id, Option<Day>>, ends': map<Id, Option<Day>>)
    requires Configured(o, n)
    requires forall dep :: dep in n.dependencies.value ==> dep in ends && dep in ends' && ends[dep] == ends'[dep]
    ensures Evaluate(o, asOf, n, ends) == Evaluate(o, asOf, n, ends')
  {
    if !DependencyUnknown(o.nodes, n.dependencies.value, ends) {
      DaysAfterAgree(o.nodes, n.dependencies.value, ends, ends');
    }
  }

  /** The memoised ends of its dependencies give a node the entry of the plain recursion. */
  lemma EntryFromMemo(o: Order, asOf: Day, done: map<Id, Option<Day>>, visiting: set<Id>, id: Id)
    requires Memo(o, asOf, done, visiting) && Expands(o, id) && id !in done
    requires forall dep :: dep in DependenciesOf(o, id) ==> dep in done
    ensures Plain(o, asOf, {}, id) == Evaluate(o, asOf, FindNode(o.nodes, id).value, done)
  {
    var deps := DependenciesOf(o, id);
    assert id in Ids(o.nodes);
    EndsKnown(o, asOf, {}, deps);
    UnreachedPathEnds(o, asOf, {}, {id}, done.Keys, deps);
    var ends := PlainEnds(o, asOf, {}, deps).value;
    forall dep | dep in deps
      ensures ends[dep] == done[dep]
    {
      PlainEndsMembers(o, asOf, {}, deps, dep);
    }
    EvaluateAgrees(o, asOf, FindNode(o.nodes, id).value, ends, done);
  }

  lemma ClosedAfter(o: Order, ids: set<Id>, id: Id)
    requires ClosedUnder(o, ids)
    requires Expands(o, id) ==> forall dep :: dep in DependenciesOf(o, id) ==> dep in ids
    ensures ClosedUnder(o, ids + {id})
  {
  }

  lemma PlainIsOfNode(o: Order, asOf: Day, id: Id)
    requires Plain(o, asOf, {}, id).Ok?
    ensures id in Ids(o.nodes)
  {
  }

  lemma RemembersMore(o: Order, asOf: Day, done: map<Id, Option<Day>>, id: Id, entry: Entry)
    requires Remembers(o, asOf, done) && Plain(o, asOf, {}, id) == Ok(entry)
    ensures Remembers(o, asOf, done[id := entry.finish])
  {
    assert FinishOf(o, asOf, id) == entry.finish;
  }

  lemma MemoAfter(o: Order, asOf: Day, done: map<Id, Option<Day>>, visiting: set<Id>, id: Id, entry: Entry)
    requires Memo(o, asOf, done, visiting) && id !in visiting && Plain(o, asOf, {}, id) == Ok(entry)
    requires Expands(o, id) ==> forall dep :: dep in DependenciesOf(o, id) ==> dep in done
    ensures Memo(o, asOf, done[id := entry.finish], visiting)
  {
    PlainIsOfNode(o, asOf, id);
    ClosedAfter(o, done.Keys, id);
    RemembersMore(o, asOf, done, id, entry);
    assert done[id := entry.finish].Keys == done.Keys + {id};
  }

  lemma RecordedAfter(o: Order, asOf: Day, done: map<Id, Option<Day>>, nodes: seq<NodeSchedule>, missing: seq<Missing>,
                      id: Id, entry: Entry)
    requires Recorded(o, asOf, done.Keys, nodes, missing) && id !in done.Keys && Plain(o, asOf, {}, id) == Ok(entry)
    ensures Recorded(o, asOf, done[id := entry.finish].Keys, nodes + [Scheduled(id, entry)], missing + GapOf(id, entry))
  {
    var nodes' := nodes + [Scheduled(id, entry)];
    assert nodes'[..|nodes'| - 1] == nodes;
    assert done[id := entry.finish].Keys == done.Keys + {id};
  }

  ghost predicate Among(deps: seq<Id>, ids: set<Id>) {
    forall dep :: dep in deps ==> dep in ids
  }

  lemma OneMoreAmong(deps: seq<Id>, i: nat, ids: set<Id>, more: set<Id>)
    requires i < |deps| && Among(deps[..i], ids) && ids <= more && deps[i] in more
    ensures Among(deps[..i + 1], more)
  {
    assert deps[..i + 1] == deps[..i] + [deps[i]];
  }

  lemma LongerPathFails(o: Order, asOf: Day, path: set<Id>, id: Id)
    requires Plain(o, asOf, {}, id).Err?
    ensures Plain(o, asOf, path, id).Err?
  {
    if Plain(o, asOf, path, id).Ok? {
      ShorterPath(o, asOf, path, {}, id);
    }
  }

  lemma OneEndFails(o: Order, asOf: Day, path: set<Id>, deps: seq<Id>, dep: Id)
    requires dep in deps && Plain(o, asOf, path, dep).Err?
    ensures PlainEnds(o, asOf, path, deps).Err?
  {
    if PlainEnds(o, asOf, path, deps).Ok? {
      PlainEndsMembers(o, asOf, path, deps, dep);
    }
  }

  class Evaluation {
    const order: Order
    const asOf: Day
    var done: map<Id, Option<Day>>
    var visiting: set<Id>
    var nodes: seq<NodeSchedule>
    var missing: seq<Missing>

    constructor (order: Order, asOf: Day)
      ensures this.order == order && this.asOf == asOf && done == map[] && visiting == {} && Valid()
    {
      this.order, this.asOf := order, asOf;
      done, visiting, nodes, missing := map[], {}, [], [];
    }

    ghost predicate Valid()
      reads this
    {
      Memo(order, asOf, done, visiting) && Recorded(order, asOf, done.Keys, nodes, missing)
    }

    /** Store the entry of a node whose dependencies are all stored. */
    method Store(id: Id, entry: Entry)
      requires Valid() && id !in done && id !in visiting && Plain(order, asOf, {}, id) == Ok(entry)
      requires Expands(order, id) ==> forall dep :: dep in DependenciesOf(order, id) ==> dep in done
      modifies this
      ensures Valid() && visiting == old(visiting) && done == old(done)[id := entry.finish]
      ensures nodes == old(nodes) + [Scheduled(id, entry)]
    {
      MemoAfter(order, asOf, done, visiting, id, entry);
      RecordedAfter(order, asOf, done, nodes, missing, id, entry);
      done := done[id := entry.finish];
      nodes := nodes + [Scheduled(id, entry)];
      missing := missing + GapOf(id, entry);
    }

    /** A configured, pending node whose dependencies are all stored. */
    method EvaluateNode(n: Node) returns (r: Result<Entry, ScheduleError>)
      requires Configured(order, n) && forall dep :: dep in n.dependencies.value ==> dep in done
      ensures r == Evaluate(order, asOf, n, done)
    {
      if DependencyUnknown(order.nodes, n.dependencies.value, done) {
        r := Ok(UnknownEntry(AwaitsDependency));
      } else if n.status == Blocked && n.expectedFinish.None? {
        r := Ok(UnknownEntry(AwaitsRecovery));
      } else if n.status == ReportedComplete {
        r := Ok(UnknownEntry(AwaitsAcceptance));
      } else {
        r := TimeNode(order.calendar.value, n, Latest(Boundaries(order, asOf, n, done)));
      }
    }

    /** The finish of a node; succeeds and fails as the plain recursion does. */
    method Finish(id: Id) returns (r: Result<Option<Day>, ScheduleError>)
      requires Valid()
      modifies this
      ensures r.Ok? ==> Valid() && visiting == old(visiting) && id in done && done[id] == r.value
      ensures r.Ok? ==> old(done).Keys <= done.Keys
      ensures r.Err? ==> Plain(order, asOf, old(visiting), id).Err?
      decreases Ids(order.nodes) - visiting, 0
    {
      if id in done {
        return Ok(done[id]);
      }
      var found := FindNode(order.nodes, id);
      if found.None? || id in visiting {
        return Err(ValidationError);
      }
      var n := found.value;
      var entry: Entry;
      if n.status == Accepted {
        entry := AcceptedEntry(n);
      } else if !Configured(order, n) {
        entry := UnknownEntry(NotConfigured);
      } else {
        ghost var before := visiting;
        assert id in Ids(order.nodes);
        visiting := visiting + {id};
        var ok := FinishAll(id, n.dependencies.value);
        if !ok {
          return Err(ValidationError);
        }
        EntryFromMemo(order, asOf, done, visiting, id);
        visiting := visiting - {id};
        assert visiting == before;
        var evaluated := EvaluateNode(n);
        if evaluated.Err? {
          LongerPathFails(order, asOf, before, id);
          return Err(ValidationError);
        }
        entry := evaluated.value;
      }
      Store(id, entry);
      r := Ok(entry.finish);
    }

    /** The dependencies of the node being visited, in order. */
    method FinishAll(id: Id, deps: seq<Id>) returns (ok: bool)
      requires Valid() && Expands(order, id) && deps == DependenciesOf(order, id) && id in visiting
      modifies this
      ensures ok ==> Valid() && visiting == old(visiting) && Among(deps, done.Keys)
      ensures ok ==> old(done).Keys <= done.Keys
      ensures !ok ==> PlainEnds(order, asOf, old(visiting), deps).Err?
      decreases Ids(order.nodes) - visiting, 1
    {
      for i := 0 to |deps|
        invariant Valid() && visiting == old(visiting) && old(done).Keys <= done.Keys
        invariant Among(deps[..i], done.Keys)
      {
        ghost var earlier := done.Keys;
        var end := Finish(deps[i]);
        if end.Err? {
          OneEndFails(order, asOf, old(visiting), deps, deps[i]);
          return false;
        }
        OneMoreAmong(deps, i, earlier, done.Keys);
      }
      assert deps[..|deps|] == deps;
      ok := true;
    }

    /** The finish of every node, in the order of the nodes. */
    method FinishEveryNode() returns (r: Result<seq<Option<Day>>, ScheduleError>)
      requires Valid() && visiting == {}
      modifies this
      ensures r.Ok? ==> Valid() && done.Keys == Ids(order.nodes) && r.value == FinishList(order, asOf)
      ensures r.Err? <==> !Evaluable(order, asOf)
    {
      var ends: seq<Option<Day>> := [];
      for i := 0 to |order.nodes|
        invariant Valid() && visiting == {} && |ends| == i
        invariant FinishedUpTo(order, asOf, i, done.Keys, ends)
      {
        ghost var earlier := done.Keys;
        var end := Finish(order.nodes[i].id);
        if end.Err? {
          assert order.nodes[i].id in Ids(order.nodes);
          return Err(ValidationError);
        }
        assert end.value == done[order.nodes[i].id];
        OneMoreFinished(order, asOf, i, earlier, done.Keys, ends, end.value);
        ends := ends + [end.value];
      }
      AllFinished(order, asOf, done, visiting, ends);
      r := Ok(ends);
    }
  }

  ghost predicate FinishedUpTo(o: Order, asOf: Day, i: nat, ids: set<Id>, ends: seq<Option<Day>>) {
    && i == |ends| <= |o.nodes|
    && forall k :: 0 <= k < i ==> o.nodes[k].id in ids && ends[k] == FinishOf(o, asOf, o.nodes[k].id)
  }

  lemma OneMoreFinished(o: Order, asOf: Day, i: nat, ids: set<Id>, more: set<Id>, ends: seq<Option<Day>>,
                        end: Option<Day>)
    requires i < |o.nodes| && FinishedUpTo(o, asOf, i, ids, ends) && ids <= more
    requires o.nodes[i].id in more && end == FinishOf(o, asOf, o.nodes[i].id)
    ensures FinishedUpTo(o, asOf, i + 1, more, ends + [end])
  {
  }

  lemma AllRecorded(o: Order, asOf: Day, ids: set<Id>, ends: seq<Option<Day>>, id: Id)
    requires FinishedUpTo(o, asOf, |o.nodes|, ids, ends) && id in Ids(o.nodes)
    ensures id in ids
  {
    var n :| n in o.nodes && n.id == id;
    var k :| 0 <= k < |o.nodes| && o.nodes[k] == n;
    assert o.nodes[k].id in ids;
  }

  lemma AllListed(o: Order, asOf: Day, ids: set<Id>, ends: seq<Option<Day>>)
    requires FinishedUpTo(o, asOf, |o.nodes|, ids, ends)
    ensures ends == FinishList(o, asOf)
  {
  }

  lemma AllFinished(o: Order, asOf: Day, done: map<Id, Option<Day>>, visiting: set<Id>, ends: seq<Option<Day>>)
    requires Memo(o, asOf, done, visiting) && FinishedUpTo(o, asOf, |o.nodes|, done.Keys, ends)
    ensures done.Keys == Ids(o.nodes) && ends == FinishList(o, asOf) && Evaluable(o, asOf)
  {
    AllListed(o, asOf, done.Keys, ends);
    forall id | id in Ids(o.nodes)
      ensures id in done.Keys && Plain(o, asOf, {}, id).Ok?
    {
      AllRecorded(o, asOf, done.Keys, ends, id);
      assert done[id] == FinishOf(o, asOf, id);
    }
  }

  // ---------- Forecast and risk ----------

  lemma {:induction false} RecordedSomewhere(nodes: seq<NodeSchedule>, id: Id) returns (i: nat)
    requires id in RecordedIds(nodes)
    ensures i < |nodes| && nodes[i].nodeId == id
  {
    var last := |nodes| - 1;
    if nodes[last].nodeId == id {
      i := last;
    } else {
      i := RecordedSomewhere(nodes[..last], id);
    }
  }

  lemma {:induction false} FaithfulAt(o: Order, asOf: Day, nodes: seq<NodeSchedule>, i: nat)
    requires Faithful(o, asOf, nodes) && i < |nodes|
    ensures Plain(o, asOf, {}, nodes[i].nodeId).Ok?
    ensures nodes[i] == Scheduled(nodes[i].nodeId, Plain(o, asOf, {}, nodes[i].nodeId).value)
    ensures HasGap(o, asOf, nodes[i].nodeId) ==> Gaps(o, asOf, nodes) != []
  {
    if i < |nodes| - 1 {
      FaithfulAt(o, asOf, nodes[..|nodes| - 1], i);
    }
  }

  lemma {:induction false} SomeGap(o: Order, asOf: Day, nodes: seq<NodeSchedule>) returns (i: nat)
    requires Gaps(o, asOf, nodes) != []
    ensures i < |nodes| && HasGap(o, asOf, nodes[i].nodeId)
  {
    var last := |nodes| - 1;
    if HasGap(o, asOf, nodes[last].nodeId) {
      i := last;
    } else {
      i := SomeGap(o, asOf, nodes[..last]);
    }
  }

  predicate LateIn(nodes: seq<NodeSchedule>, due: Day) {
    exists i :: 0 <= i < |nodes| && nodes[i].finish.Some? && due < nodes[i].finish.value
  }

  /** Reading lateness and gaps off the records is reading them off the plain recursion. */
  lemma RiskFromRecords(o: Order, asOf: Day, nodes: seq<NodeSchedule>, missing: seq<Missing>)
    requires Recorded(o, asOf, Ids(o.nodes), nodes, missing)
    ensures ConfirmedLate(o, asOf) <==> LateIn(nodes, o.due)
    ensures missing != [] <==> exists id :: id in Ids(o.nodes) && HasGap(o, asOf, id)
  {
    if ConfirmedLate(o, asOf) {
      var id :| id in Ids(o.nodes) && FinishOf(o, asOf, id).Some? && o.due < FinishOf(o, asOf, id).value;
      var i := RecordedSomewhere(nodes, id);
      FaithfulAt(o, asOf, nodes, i);
    }
    if LateIn(nodes, o.due) {
      var i :| 0 <= i < |nodes| && nodes[i].finish.Some? && o.due < nodes[i].finish.value;
      FaithfulAt(o, asOf, nodes, i);
      assert nodes[i].nodeId in Ids(o.nodes);
    }
    if id :| id in Ids(o.nodes) && HasGap(o, asOf, id) {
      var i := RecordedSomewhere(nodes, id);
      FaithfulAt(o, asOf, nodes, i);
    }
    if missing != [] {
      var i := SomeGap(o, asOf, nodes);
      assert nodes[i].nodeId in Ids(o.nodes);
    }
  }

  lemma FinishListKnown(o: Order, asOf: Day)
    ensures (forall e :: e in FinishList(o, asOf) ==> e.Some?) <==>
      forall n :: n in o.nodes ==> FinishOf(o, asOf, n.id).Some?
  {
    var ends := FinishList(o, asOf);
    if forall e :: e in ends ==> e.Some? {
      forall n | n in o.nodes
        ensures FinishOf(o, asOf, n.id).Some?
      {
        var i :| 0 <= i < |o.nodes| && o.nodes[i] == n;
        assert ends[i] in ends;
      }
    }
  }

  /** The forecast is the latest end, if every unfinished node's (or, with none, every node's) end is known. */
  method Forecast(order: Order, asOf: Day, done: map<Id, Option<Day>>, ends: seq<Option<Day>>) returns (r: Option<Day>)
    requires forall n :: n in order.nodes ==> n.id in done && done[n.id] == FinishOf(order, asOf, n.id)
    requires ends == FinishList(order, asOf)
    ensures r == ForecastOf(order, asOf)
  {
    var someUnfinished := exists n :: n in order.nodes && n.status != Accepted;
    var known :=
      if someUnfinished then forall n :: n in order.nodes && n.status != Accepted ==> done[n.id].Some?
      else forall e :: e in ends ==> e.Some?;
    FinishListKnown(order, asOf);
    r := if known then LatestKnown(ends) else None;
  }

  /** Fails exactly when the plain recursion fails for some node; otherwise returns what it defines. */
  method EvaluateSchedule(order: Order, asOf: Day) returns (r: Result<Evaluated, ScheduleError>)
    ensures r.Err? <==> !Evaluable(order, asOf)
    ensures r.Ok? ==> IsEvaluation(order, asOf, r.value)
  {
    var evaluation := new Evaluation(order, asOf);
    var ends := evaluation.FinishEveryNode();
    if ends.Err? {
      return Err(ValidationError);
    }
    var nodes, missing := evaluation.nodes, evaluation.missing;
    forall n | n in order.nodes
      ensures n.id in evaluation.done && evaluation.done[n.id] == FinishOf(order, asOf, n.id)
    {
      assert n.id in Ids(order.nodes);
      assert n.id in evaluation.done;
    }
    var forecast := Forecast(order, asOf, evaluation.done, ends.value);
    RiskFromRecords(order, asOf, nodes, missing);
    var risk := if LateIn(nodes, order.due) then AtRisk else if missing != [] then Attention else Normal;
    r := Ok(Evaluated(forecast, risk, asOf, order.version, missing, nodes));
  }
}
