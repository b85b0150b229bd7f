/**
 * The schedule of an order as plain recursion over the dependencies of a node: no memory of earlier
 * results, only the path from the node where the recursion began.
 */
module Schedule {
  import opened Contracts
  import opened Results
  import opened WorkCalendar

  datatype ScheduleError = ValidationError

  datatype Basis = Unverified | ActualAcceptance | UndatedAcceptance | RemainingWork | OwnerDate

  datatype Gap = NoAcceptanceTime | NotConfigured | AwaitsDependency | AwaitsRecovery | AwaitsAcceptance

  /** What is recorded for one node; `gap` is the fact reported as missing, if any. */
  datatype Entry = Entry(start: Option<Day>, finish: Option<Day>, basis: Basis, gap: Option<Gap>)

  const MS_PER_DAY := 86_400_000
  const SHANGHAI_OFFSET := 28_800_000

  function ShanghaiDay(at: Timestamp): Day {
    (at + SHANGHAI_OFFSET) / MS_PER_DAY
  }

  predicate Pending(nodes: seq<Node>, id: Id) {
    var n := FindNode(nodes, id);
    n.None? || n.value.status != Accepted
  }

  predicate Configured(o: Order, n: Node) {
    && o.calendar.Some? && o.calendar.value.weekdays != []
    && n.dependencies.Some? && n.durationDays.Some? && 0 < n.durationDays.value
  }

  function CeilDiv(a: int, b: int): (r: int)
    requires 0 < b
    ensures a <= r * b < a + b
  {
    -((-a) / b)
  }

  /** Working days still needed, at least one. */
  function Remaining(n: Node): (r: nat)
    requires n.durationDays.Some?
    ensures 1 <= r
  {
    var days := CeilDiv(n.durationDays.value * (100 - n.percent), 100);
    if days < 1 then 1 else days
  }

  function Latest(s: seq<Day>): (d: Day)
    requires s != []
    ensures d in s && forall x :: x in s ==> x <= d
  {
    if |s| == 1 then s[0]
    else
      var rest := Latest(s[1..]);
      assert s == [s[0]] + s[1..];
      if rest < s[0] then s[0] else rest
  }

  function OptionalDay(d: Option<Day>): seq<Day> {
    if d.Some? then [d.value] else []
  }

  /** The day after each pending dependency ends. */
  function DaysAfter(nodes: seq<Node>, deps: seq<Id>, ends: map<Id, Option<Day>>): (r: seq<Day>)
    requires forall dep :: dep in deps ==> dep in ends && (Pending(nodes, dep) ==> ends[dep].Some?)
    ensures forall x :: x in r <==> exists dep :: dep in deps && Pending(nodes, dep) && x == ends[dep].value + 1
  {
    if deps == [] then []
    else if Pending(nodes, deps[0]) then [ends[deps[0]].value + 1] + DaysAfter(nodes, deps[1..], ends)
    else DaysAfter(nodes, deps[1..], ends)
  }

  /** What a start may not precede. */
  function Boundaries(o: Order, asOf: Day, n: Node, ends: map<Id, Option<Day>>): (r: seq<Day>)
    requires n.dependencies.Some?
    requires forall dep :: dep in n.dependencies.value ==> dep in ends && (Pending(o.nodes, dep) ==> ends[dep].Some?)
    ensures r != []
  {
    [asOf] + DaysAfter(o.nodes, n.dependencies.value, ends) + OptionalDay(n.plannedStart) + OptionalDay(n.materialEta)
  }

  predicate DependencyUnknown(nodes: seq<Node>, deps: seq<Id>, ends: map<Id, Option<Day>>)
    requires forall dep :: dep in deps ==> dep in ends
  {
    exists dep :: dep in deps && ends[dep].None? && Pending(nodes, dep)
  }

  function AcceptedEntry(n: Node): Entry {
    match n.acceptance
    case Some(review) => Entry(None, Some(ShanghaiDay(review.at)), ActualAcceptance, None)
    case None => Entry(None, None, UndatedAcceptance, Some(NoAcceptanceTime))
  }

  function UnknownEntry(gap: Gap): Entry {
    Entry(None, None, Unverified, Some(gap))
  }

  /** The work ends on `end`; an owner's date can only move the finish back. */
  function Finished(cal: Calendar, n: Node, start: Day, end: Day): Result<Entry, ScheduleError> {
    match n.expectedFinish
    case None => Ok(Entry(Some(start), Some(end), RemainingWork, None))
    case Some(promised) =>
      match NextWorkday(cal, Latest([end, promised]))
      case None => Err(ValidationError)
      case Some(finish) => Ok(Entry(Some(start), Some(finish), OwnerDate, None))
  }

  /** The work begins on `start` and takes the remaining working days. */
  function Worked(cal: Calendar, n: Node, start: Day): Result<Entry, ScheduleError>
    requires n.durationDays.Some?
  {
    match Advance(cal, start, Remaining(n) - 1)
    case None => Err(ValidationError)
    case Some(end) => Finished(cal, n, start, end)
  }

  /** Start, then finish, of a node whose start is not before `boundary`. */
  function Timed(cal: Calendar, n: Node, boundary: Day): Result<Entry, ScheduleError>
    requires n.durationDays.Some?
  {
    match NextWorkday(cal, boundary)
    case None => Err(ValidationError)
    case Some(start) => Worked(cal, n, start)
  }

  /** The entry of a pending, configured node, given how its dependencies end. */
  function Evaluate(o: Order, asOf: Day, n: Node, ends: map<Id, Option<Day>>): Result<Entry, ScheduleError>
    requires Configured(o, n)
    requires forall dep :: dep in n.dependencies.value ==> dep in ends
  {
    if DependencyUnknown(o.nodes, n.dependencies.value, ends) then Ok(UnknownEntry(AwaitsDependency))
    else if n.status == Blocked && n.expectedFinish.None? then Ok(UnknownEntry(AwaitsRecovery))
    else if n.status == ReportedComplete then Ok(UnknownEntry(AwaitsAcceptance))
    else Timed(o.calendar.value, n, Latest(Boundaries(o, asOf, n, ends)))
  }

  /** The plain recursion: fails on an unknown id, on a node already on the path, or when no working day is found. */
  ghost function Plain(o: Order, asOf: Day, path: set<Id>, id: Id): Result<Entry, ScheduleError>
    decreases Ids(o.nodes) - path, 0
  {
    match FindNode(o.nodes, id)
    case None => Err(ValidationError)
    case Some(n) =>
      if id in path then Err(ValidationError)
      else if n.status == Accepted then Ok(AcceptedEntry(n))
      else if !Configured(o, n) then Ok(UnknownEntry(NotConfigured))
      else
        assert id in Ids(o.nodes);
        match PlainEnds(o, asOf, path + {id}, n.dependencies.value)
        case Err(e) => Err(e)
        case Ok(ends) => Evaluate(o, asOf, n, ends)
  }

  /** How the dependencies end, taken in order; the first failure is the result. */
  ghost function PlainEnds(o: Order, asOf: Day, path: set<Id>, deps: seq<Id>)
    : (r: Result<map<Id, Option<Day>>, ScheduleError>)
    ensures r.Ok? ==> forall dep :: dep in deps <==> dep in r.value
    decreases Ids(o.nodes) - path, 1, |deps|
  {
    if deps == [] then Ok(map[])
    else
      match Plain(o, asOf, path, deps[0])
      case Err(e) => Err(e)
      case Ok(entry) =>
        match PlainEnds(o, asOf, path, deps[1..])
        case Err(e) => Err(e)
        case Ok(ends) => Ok(ends[deps[0] := entry.finish])
  }

  lemma {:induction false} PlainEndsMembers(o: Order, asOf: Day, path: set<Id>, deps: seq<Id>, dep: Id)
    requires PlainEnds(o, asOf, path, deps).Ok? && dep in deps
    ensures Plain(o, asOf, path, dep).Ok?
    ensures PlainEnds(o, asOf, path, deps).value[dep] == Plain(o, asOf, path, dep).value.finish
    decreases |deps|
  {
    if dep != deps[0] {
      PlainEndsMembers(o, asOf, path, deps[1..], dep);
    }
  }

  /** Recursion from a shorter path succeeds where a longer one does, with the same entry. */
  lemma {:induction false} ShorterPath(o: Order, asOf: Day, path: set<Id>, path': set<Id>, id: Id)
    requires path' <= path && Plain(o, asOf, path, id).Ok?
    ensures Plain(o, asOf, path', id) == Plain(o, asOf, path, id)
    decreases Ids(o.nodes) - path, 0
  {
    var n := FindNode(o.nodes, id).value;
    if n.status != Accepted && Configured(o, n) {
      assert id in Ids(o.nodes);
      ShorterPathEnds(o, asOf, path + {id}, path' + {id}, n.dependencies.value);
    }
  }

  lemma {:induction false} ShorterPathEnds(o: Order, asOf: Day, path: set<Id>, path': set<Id>, deps: seq<Id>)
    requires path' <= path && PlainEnds(o, asOf, path, deps).Ok?
    ensures PlainEnds(o, asOf, path', deps) == PlainEnds(o, asOf, path, deps)
    decreases Ids(o.nodes) - path, 1, |deps|
  {
    if deps != [] {
      ShorterPath(o, asOf, path, path', deps[0]);
      ShorterPathEnds(o, asOf, path, path', deps[1..]);
    }
  }

  /** Whether the recursion goes on into the dependencies of this node. */
  predicate Expands(o: Order, id: Id) {
    var n := FindNode(o.nodes, id);
    n.Some? && n.value.status != Accepted && Configured(o, n.value)
  }

  function DependenciesOf(o: Order, id: Id): seq<Id>
    requires Expands(o, id)
  {
    FindNode(o.nodes, id).value.dependencies.value
  }

  /** A set of ids that the recursion does not leave. */
  ghost predicate ClosedUnder(o: Order, ids: set<Id>) {
    forall id, dep :: id in ids && Expands(o, id) && dep in DependenciesOf(o, id) ==> dep in ids
  }

  /** Nodes on the path that the recursion cannot reach do not matter. */
  lemma {:induction false} UnreachedPath(o: Order, asOf: Day, path: set<Id>, extra: set<Id>, ids: set<Id>, id: Id)
    requires ClosedUnder(o, ids) && id in ids && extra !! ids && Plain(o, asOf, path, id).Ok?
    ensures Plain(o, asOf, path + extra, id) == Plain(o, asOf, path, id)
    decreases Ids(o.nodes) - path, 0
  {
    var n := FindNode(o.nodes, id).value;
    if n.status != Accepted && Configured(o, n) {
      assert id in Ids(o.nodes);
      forall dep | dep in n.dependencies.value
        ensures dep in ids
      {
        assert Expands(o, id) && dep in DependenciesOf(o, id);
      }
      UnreachedPathEnds(o, asOf, path + {id}, extra, ids, n.dependencies.value);
      assert path + extra + {id} == path + {id} + extra;
    }
  }

  lemma {:induction false} UnreachedPathEnds(o: Order, asOf: Day, path: set<Id>, extra: set<Id>, ids: set<Id>,
                                             deps: seq<Id>)
    requires ClosedUnder(o, ids) && (forall dep :: dep in deps ==> dep in ids) && extra !! ids
    requires PlainEnds(o, asOf, path, deps).Ok?
    ensures PlainEnds(o, asOf, path + extra, deps) == PlainEnds(o, asOf, path, deps)
    decreases Ids(o.nodes) - path, 1, |deps|
  {
    if deps != [] {
      UnreachedPath(o, asOf, path, extra, ids, deps[0]);
      UnreachedPathEnds(o, asOf, path, extra, ids, deps[1..]);
    }
  }
}
