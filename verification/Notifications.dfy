/**
 * Delivery of queued notifications: workers claim a row, hand it to a sender that may fail, answer nothing or
 * never return, and record the outcome. Rows left over by a crashed worker are given up, not sent again.
 */
module Notifications {
  import opened Results

  type Token = nat

  datatype Status = Pending | Sending | Sent | Failed | Unknown | Skipped

  datatype Row = Row(
    key: string,
    recipient: Option<string>,
    status: Status,
    attempts: nat,
    nextAttemptAt: int,
    token: Option<Token>)

  datatype SendResult = WasDisabled | WasSent | HasFailed | IsUnknown

  datatype AuditEvent = Queued | SkippedNoIdentity | ClaimedEvent | RecoveredUnknown | Became(status: Status)

  const MAX_ATTEMPTS: nat := 3
  const BACKOFF := 30_000

  function PowerOfTwo(n: nat): nat {
    if n == 0 then 1 else 2 * PowerOfTwo(n - 1)
  }

  // ---------- One row ----------

  predicate Candidate(r: Row, now: int) {
    (r.status == Pending || r.status == Failed) && r.attempts < MAX_ATTEMPTS && r.nextAttemptAt <= now
  }

  function Claimed(r: Row, token: Token): Row {
    r.(status := Sending, token := Some(token), attempts := r.attempts + 1)
  }

  function StatusFor(result: SendResult): Status {
    match result
    case WasDisabled => Pending
    case WasSent => Sent
    case HasFailed => Failed
    case IsUnknown => Unknown
  }

  predicate Owns(r: Row, token: Token) {
    r.token == Some(token) && r.status == Sending
  }

  /** The outcome is recorded only while the row is being sent under this very token. */
  function Completed(r: Row, token: Token, status: Status, now: int): Row {
    if Owns(r, token)
    then r.(status := status, token := None, nextAttemptAt := now + PowerOfTwo(r.attempts) * BACKOFF)
    else r
  }

  /** A claim that may have reached the recipient before a crash. */
  function Recovered(r: Row): Row {
    if r.status == Sending then r.(status := Unknown, token := None) else r
  }

  function Queue(key: string, recipient: Option<string>, now: int): Row {
    Row(key, recipient, if recipient.Some? then Pending else Skipped, 0, now, None)
  }

  predicate HasKey(rows: seq<Row>, key: string) {
    exists i :: 0 <= i < |rows| && rows[i].key == key
  }

  /** The recipient is known only if exactly one identity maps to the owner. */
  function RecipientOf(mappings: seq<string>): Option<string> {
    if |mappings| == 1 then Some(mappings[0]) else None
  }

  /** The first row that can be claimed and that no other claim is holding. */
  ghost predicate FirstCandidate(rows: seq<Row>, locked: set<nat>, now: int, id: nat) {
    && id < |rows| && id !in locked && Candidate(rows[id], now)
    && forall j: nat :: j < id ==> j in locked || !Candidate(rows[j], now)
  }

  ghost predicate ClaimedAndCompleted(rows: seq<Row>, rows': seq<Row>, token: Token, later: int, result: SendResult,
                                      id: nat)
    requires id < |rows|
  {
    rows' == rows[id := Completed(Claimed(rows[id], token), token, StatusFor(result), later)]
  }

  /** The first candidate was claimed, and the sender's answer recorded. */
  ghost predicate Dispatched(rows: seq<Row>, rows': seq<Row>, token: Token, now: int, later: int, locked: set<nat>,
                             result: SendResult)
  {
    exists id: nat ::
      FirstCandidate(rows, locked, now, id) && ClaimedAndCompleted(rows, rows', token, later, result, id)
  }

  // ---------- The table ----------

  class NotificationTable {
    var rows: seq<Row>
    var audit: seq<(nat, AuditEvent)>

    constructor ()
      ensures rows == [] && audit == []
    {
      rows, audit := [], [];
    }

    /** Queue a notification, once per key. */
    method EnqueueNotification(key: string, mappings: seq<string>, now: int)
      modifies this
      ensures rows == if HasKey(old(rows), key) then old(rows) else old(rows) + [Queue(key, RecipientOf(mappings), now)]
      ensures audit == if HasKey(old(rows), key) then old(audit)
                       else old(audit) + [(|old(rows)|, if |mappings| == 1 then Queued else SkippedNoIdentity)]
    {
      for i := 0 to |rows|
        invariant forall j :: 0 <= j < i ==> rows[j].key != key
      {
        if rows[i].key == key {
          return;
        }
      }
      var recipient := if |mappings| == 1 then Some(mappings[0]) else None;
      audit := audit + [(|rows|, if recipient.Some? then Queued else SkippedNoIdentity)];
      rows := rows + [Row(key, recipient, if recipient.Some? then Pending else Skipped, 0, now, None)];
    }

    /** Called by a new worker before it begins. */
    method RecoverNotifications()
      modifies this
      ensures |rows| == |old(rows)| && forall i :: 0 <= i < |rows| ==> rows[i] == Recovered(old(rows)[i])
      ensures |audit| >= |old(audit)| && audit[..|old(audit)|] == old(audit)
      ensures forall i :: (i, RecoveredUnknown) in audit[|old(audit)|..] <==>
        0 <= i < |rows| && old(rows)[i].status == Sending
    {
      ghost var before := rows;
      ghost var log := audit;
      for i := 0 to |rows|
        invariant |rows| == |before| && |audit| >= |log| && audit[..|log|] == log
        invariant forall j :: 0 <= j < i ==> rows[j] == Recovered(before[j])
        invariant forall j :: i <= j < |rows| ==> rows[j] == before[j]
        invariant forall j :: (j, RecoveredUnknown) in audit[|log|..] <==> 0 <= j < i && before[j].status == Sending
      {
        if rows[i].status == Sending {
          rows := rows[i := rows[i].(status := Unknown, token := None)];
          audit := audit + [(i, RecoveredUnknown)];
          assert audit[|log|..] == audit[|log|..|audit| - 1] + [(i, RecoveredUnknown)];
        }
      }
    }

    method Claim(token: Token, now: int, locked: set<nat>) returns (id: Option<nat>)
      modifies this
      ensures id.Some? ==>
        && FirstCandidate(old(rows), locked, now, id.value)
        && rows == old(rows)[id.value := Claimed(old(rows)[id.value], token)]
        && audit == old(audit) + [(id.value, ClaimedEvent)]
      ensures id.None? ==>
        && rows == old(rows) && audit == old(audit)
        && forall j: nat :: j < |rows| ==> j in locked || !Candidate(rows[j], now)
    {
      for i := 0 to |rows|
        invariant rows == old(rows) && audit == old(audit)
        invariant forall j: nat :: j < i ==> j in locked || !Candidate(rows[j], now)
      {
        if i !in locked && Candidate(rows[i], now) {
          rows := rows[i := Claimed(rows[i], token)];
          audit := audit + [(i, ClaimedEvent)];
          return Some(i);
        }
      }
      id := None;
    }

    method Complete(id: nat, token: Token, status: Status, now: int)
      requires id < |rows|
      modifies this
      ensures rows == old(rows)[id := Completed(old(rows)[id], token, status, now)]
      ensures audit == if Owns(old(rows)[id], token) then old(audit) + [(id, Became(status))] else old(audit)
    {
      var r := rows[id];
      if r.token == Some(token) && r.status == Sending {
        var later := now + PowerOfTwo(r.attempts) * BACKOFF;
        rows := rows[id := r.(status := status, token := None, nextAttemptAt := later)];
        audit := audit + [(id, Became(status))];
      }
    }

    /** One dispatch that nobody interferes with; the sender's answer is None if it throws. */
    method DispatchNotification(enabled: bool, token: Token, now: int, later: int, locked: set<nat>,
                                answer: Option<SendResult>)
      returns (claimed: bool)
      modifies this
      ensures claimed ==>
        && enabled
        && Dispatched(old(rows), rows, token, now, later, locked, if answer.Some? then answer.value else IsUnknown)
      ensures !claimed ==>
        rows == old(rows) && (enabled ==> forall j: nat :: j < |rows| ==> j in locked || !Candidate(rows[j], now))
    {
      if !enabled {
        return false;
      }
      var id := Claim(token, now, locked);
      if id.None? {
        return false;
      }
      var result := if answer.Some? then answer.value else IsUnknown;
      var status := if result == WasDisabled then Pending else StatusFor(result);
      Complete(id.value, token, status, later);
      assert ClaimedAndCompleted(old(rows), rows, token, later, result, id.value);
      claimed := true;
    }
  }

  // ---------- Any number of workers, crashes and recoveries ----------

  datatype Phase = Holding | Answered(result: SendResult)

  /** A worker between its claim and the record of the outcome. */
  datatype Flight = Flight(id: nat, phase: Phase)

  /** A message handed to the sender; None if a crash cut it off. */
  datatype Try = Try(id: nat, outcome: Option<SendResult>)

  datatype State = State(rows: seq<Row>, flights: map<Token, Flight>, tries: seq<Try>)

  datatype Step =
    | Enqueue(key: string, mappings: seq<string>, now: int)
    | Take(id: nat, token: Token, now: int)
    | Send(token: Token, result: SendResult)
    | CutOff(token: Token)
    | Record(token: Token, now: int)
    | Crash(token: Token)
    | Recover

  ghost predicate Next(s: State, e: Step, s': State) {
    match e
    case Enqueue(key, mappings, now) =>
      s' == if HasKey(s.rows, key) then s else s.(rows := s.rows + [Queue(key, RecipientOf(mappings), now)])
    // a worker claims a row under a fresh token
    case Take(id, token, now) =>
      && id < |s.rows| && Candidate(s.rows[id], now) && token !in s.flights.Keys
      && s' == s.(rows := s.rows[id := Claimed(s.rows[id], token)], flights := s.flights[token := Flight(id, Holding)])
    // it hands the message to the sender, which answers
    case Send(token, result) =>
      && token in s.flights.Keys && s.flights[token].phase == Holding
      && s' == s.(flights := s.flights[token := s.flights[token].(phase := Answered(result))],
                  tries := s.tries + [Try(s.flights[token].id, Some(result))])
    // it crashes while the message is under way
    case CutOff(token) =>
      && token in s.flights.Keys && s.flights[token].phase == Holding
      && s' == s.(flights := s.flights - {token}, tries := s.tries + [Try(s.flights[token].id, None)])
    // it records the answer, if the row is still its own
    case Record(token, now) =>
      && token in s.flights.Keys && s.flights[token].phase.Answered? && s.flights[token].id < |s.rows|
      && var f := s.flights[token];
         s' == s.(rows := s.rows[f.id := Completed(s.rows[f.id], token, StatusFor(f.phase.result), now)],
                  flights := s.flights - {token})
    // it crashes before or after the message
    case Crash(token) => token in s.flights.Keys && s' == s.(flights := s.flights - {token})
    // a new worker starts; old ones may still be alive
    case Recover =>
      && |s'.rows| == |s.rows| && (forall i :: 0 <= i < |s.rows| ==> s'.rows[i] == Recovered(s.rows[i]))
      && s' == s.(rows := s'.rows)
  }

  ghost predicate IsRun(run: seq<State>, steps: seq<Step>) {
    && |run| == |steps| + 1 && run[0] == State([], map[], [])
    && forall i :: 0 <= i < |steps| ==> Next(run[i], steps[i], run[i + 1])
  }

  /** The outcomes of one row's tries, in order. */
  ghost function TriesOf(tries: seq<Try>, id: nat): seq<Option<SendResult>> {
    if tries == [] then []
    else
      var last := tries[|tries| - 1];
      TriesOf(tries[..|tries| - 1], id) + if last.id == id then [last.outcome] else []
  }

  /** Known not to have reached anybody. */
  predicate Harmless(outcome: Option<SendResult>) {
    outcome == Some(HasFailed) || outcome == Some(WasDisabled)
  }

  ghost predicate AllHarmless(outcomes: seq<Option<SendResult>>) {
    forall k :: 0 <= k < |outcomes| ==> Harmless(outcomes[k])
  }

  ghost predicate RowOk(r: Row, outcomes: seq<Option<SendResult>>) {
    && |outcomes| <= r.attempts <= MAX_ATTEMPTS
    && (forall k :: 0 <= k < |outcomes| - 1 ==> Harmless(outcomes[k]))
    && (r.status == Sending <==> r.token.Some?)
    && (r.status == Pending || r.status == Failed ==> AllHarmless(outcomes))
    && (r.status == Sent ==> outcomes != [] && outcomes[|outcomes| - 1] == Some(WasSent))
    && (r.status == Skipped ==> outcomes == [])
    && (r.recipient.None? ==> r.status == Skipped)
  }

  ghost predicate FlightOk(token: Token, f: Flight, rows: seq<Row>, outcomes: seq<Option<SendResult>>) {
    && f.id < |rows|
    && (rows[f.id].token == Some(token) || rows[f.id].status == Unknown)
    && match f.phase
       case Holding => |outcomes| < rows[f.id].attempts && AllHarmless(outcomes)
       case Answered(result) => outcomes != [] && outcomes[|outcomes| - 1] == Some(result)
  }

  ghost predicate FlightsOk(s: State) {
    && (forall token :: token in s.flights.Keys ==>
          FlightOk(token, s.flights[token], s.rows, TriesOf(s.tries, s.flights[token].id)))
    && (forall token, other :: token in s.flights.Keys && other in s.flights.Keys ==>
          s.flights[token].id == s.flights[other].id ==> token == other)
  }

  ghost predicate Invariant(s: State) {
    && (forall id :: 0 <= id < |s.rows| ==> RowOk(s.rows[id], TriesOf(s.tries, id)))
    && (forall id :: |s.rows| <= id ==> TriesOf(s.tries, id) == [])
    && FlightsOk(s)
  }

  lemma OneMoreTry(tries: seq<Try>, x: Try, id: nat)
    ensures TriesOf(tries + [x], id) == TriesOf(tries, id) + if x.id == id then [x.outcome] else []
  {
    assert (tries + [x])[..|tries|] == tries;
  }

  /** One more try of a row that is held for it, or of another row. */
  lemma SendKeepsRow(r: Row, tries: seq<Try>, x: Try, id: nat)
    requires RowOk(r, TriesOf(tries, id))
    requires x.id == id ==>
      && |TriesOf(tries, id)| < r.attempts && AllHarmless(TriesOf(tries, id))
      && (r.status == Sending || r.status == Unknown)
    ensures RowOk(r, TriesOf(tries + [x], id))
  {
    OneMoreTry(tries, x, id);
  }

  lemma SendKeepsFlight(s: State, token: Token, x: Try, other: Token)
    requires Invariant(s) && token in s.flights.Keys && other in s.flights.Keys && other != token
    requires s.flights[token].id == x.id
    ensures FlightOk(other, s.flights[other], s.rows, TriesOf(s.tries + [x], s.flights[other].id))
  {
    OneMoreTry(s.tries, x, s.flights[other].id);
    assert FlightOk(other, s.flights[other], s.rows, TriesOf(s.tries, s.flights[other].id));
  }

  lemma SendKeeps(s: State, e: Step, s': State)
    requires Invariant(s) && (e.Send? || e.CutOff?) && Next(s, e, s')
    ensures Invariant(s')
  {
    var f := s.flights[e.token];
    var x := Try(f.id, if e.Send? then Some(e.result) else None);
    SendKeepsRows(s, e.token, x);
    SendKeepsFlights(s, e, s', x);
  }

  /** What a worker knows of the row that it holds. */
  lemma HeldRow(s: State, token: Token)
    requires Invariant(s) && token in s.flights.Keys && s.flights[token].phase == Holding
    ensures var id := s.flights[token].id;
      && id < |s.rows| && |TriesOf(s.tries, id)| < s.rows[id].attempts && AllHarmless(TriesOf(s.tries, id))
      && (s.rows[id].status == Sending || s.rows[id].status == Unknown)
  {
    var id := s.flights[token].id;
    assert FlightOk(token, s.flights[token], s.rows, TriesOf(s.tries, id));
    assert RowOk(s.rows[id], TriesOf(s.tries, id));
  }

  lemma SendKeepsRows(s: State, token: Token, x: Try)
    requires Invariant(s) && token in s.flights.Keys && s.flights[token] == Flight(x.id, Holding)
    ensures forall id :: 0 <= id < |s.rows| ==> RowOk(s.rows[id], TriesOf(s.tries + [x], id))
    ensures forall id :: |s.rows| <= id ==> TriesOf(s.tries + [x], id) == []
  {
    HeldRow(s, token);
    forall id: nat | id < |s.rows|
      ensures RowOk(s.rows[id], TriesOf(s.tries + [x], id))
    {
      SendKeepsRow(s.rows[id], s.tries, x, id);
    }
    forall id: nat | |s.rows| <= id
      ensures TriesOf(s.tries + [x], id) == []
    {
      OneMoreTry(s.tries, x, id);
    }
  }

  lemma SendKeepsFlights(s: State, e: Step, s': State, x: Try)
    requires Invariant(s) && (e.Send? || e.CutOff?) && Next(s, e, s')
    requires x == Try(s.flights[e.token].id, if e.Send? then Some(e.result) else None)
    ensures FlightsOk(s')
  {
    var f := s.flights[e.token];
    assert FlightOk(e.token, f, s.rows, TriesOf(s.tries, f.id));
    forall token | token in s'.flights.Keys
      ensures FlightOk(token, s'.flights[token], s'.rows, TriesOf(s'.tries, s'.flights[token].id))
    {
      if token == e.token {
        OneMoreTry(s.tries, x, f.id);
      } else {
        SendKeepsFlight(s, e.token, x, token);
      }
    }
  }

  lemma TakeKeeps(s: State, e: Step, s': State)
    requires Invariant(s) && e.Take? && Next(s, e, s')
    ensures Invariant(s')
  {
    assert RowOk(s.rows[e.id], TriesOf(s.tries, e.id));
    forall token | token in s.flights.Keys
      ensures s.flights[token].id != e.id
      ensures FlightOk(token, s.flights[token], s'.rows, TriesOf(s.tries, s.flights[token].id))
    {
      assert FlightOk(token, s.flights[token], s.rows, TriesOf(s.tries, s.flights[token].id));
    }
    assert FlightsOk(s');
  }

  lemma RecordKeepsRow(r: Row, token: Token, result: SendResult, now: int, outcomes: seq<Option<SendResult>>)
    requires RowOk(r, outcomes) && outcomes != [] && outcomes[|outcomes| - 1] == Some(result)
    ensures RowOk(Completed(r, token, StatusFor(result), now), outcomes)
  {
  }

  lemma RecordKeeps(s: State, e: Step, s': State)
    requires Invariant(s) && e.Record? && Next(s, e, s')
    ensures Invariant(s')
  {
    var f := s.flights[e.token];
    assert FlightOk(e.token, f, s.rows, TriesOf(s.tries, f.id));
    RecordKeepsRow(s.rows[f.id], e.token, f.phase.result, e.now, TriesOf(s.tries, f.id));
    assert forall id :: 0 <= id < |s'.rows| ==> RowOk(s'.rows[id], TriesOf(s.tries, id));
    forall token | token in s'.flights.Keys
      ensures FlightOk(token, s'.flights[token], s'.rows, TriesOf(s.tries, s'.flights[token].id))
    {
      assert FlightOk(token, s.flights[token], s.rows, TriesOf(s.tries, s.flights[token].id));
    }
    assert FlightsOk(s');
  }

  lemma RecoverKeeps(s: State, e: Step, s': State)
    requires Invariant(s) && e.Recover? && Next(s, e, s')
    ensures Invariant(s')
  {
    forall token | token in s.flights.Keys
      ensures FlightOk(token, s.flights[token], s'.rows, TriesOf(s.tries, s.flights[token].id))
    {
      assert FlightOk(token, s.flights[token], s.rows, TriesOf(s.tries, s.flights[token].id));
    }
  }

  lemma EnqueueKeeps(s: State, e: Step, s': State)
    requires Invariant(s) && e.Enqueue? && Next(s, e, s')
    ensures Invariant(s')
  {
    forall token | token in s.flights.Keys
      ensures FlightOk(token, s.flights[token], s'.rows, TriesOf(s.tries, s.flights[token].id))
    {
      assert FlightOk(token, s.flights[token], s.rows, TriesOf(s.tries, s.flights[token].id));
    }
  }

  lemma StepKeepsInvariant(s: State, e: Step, s': State)
    requires Invariant(s) && Next(s, e, s')
    ensures Invariant(s')
  {
    match e
    case Enqueue(_, _, _) => EnqueueKeeps(s, e, s');
    case Take(_, _, _) => TakeKeeps(s, e, s');
    case Send(_, _) => SendKeeps(s, e, s');
    case CutOff(_) => SendKeeps(s, e, s');
    case Record(_, _) => RecordKeeps(s, e, s');
    case Crash(_) =>
    case Recover => RecoverKeeps(s, e, s');
  }

  lemma {:induction false} RunKeepsInvariant(run: seq<State>, steps: seq<Step>, i: nat)
    requires IsRun(run, steps) && i < |run|
    ensures Invariant(run[i])
  {
    if i > 0 {
      RunKeepsInvariant(run, steps, i - 1);
      StepKeepsInvariant(run[i - 1], steps[i - 1], run[i]);
    }
  }

  // ---------- Consequences ----------

  /** A try that is not the row's last comes before the last of its outcomes. */
  lemma {:induction false} PlaceOfTry(tries: seq<Try>, k: nat, l: nat) returns (p: nat)
    requires k < l < |tries| && tries[k].id == tries[l].id
    ensures p < |TriesOf(tries, tries[k].id)| - 1 && TriesOf(tries, tries[k].id)[p] == tries[k].outcome
  {
    var init := tries[..|tries| - 1];
    if l < |tries| - 1 {
      p := PlaceOfTry(init, k, l);
    } else {
      p := OutcomeOfTry(init, k);
    }
  }

  lemma {:induction false} OutcomeOfTry(tries: seq<Try>, k: nat) returns (p: nat)
    requires k < |tries|
    ensures p < |TriesOf(tries, tries[k].id)| && TriesOf(tries, tries[k].id)[p] == tries[k].outcome
  {
    var init := tries[..|tries| - 1];
    if k < |tries| - 1 {
      p := OutcomeOfTry(init, k);
    } else {
      p := |TriesOf(init, tries[k].id)|;
    }
  }

  /** A message is tried again only after tries that are known to have failed or been disabled. */
  lemma RetriedOnlyAfterKnownFailure(run: seq<State>, steps: seq<Step>, i: nat, k: nat, l: nat)
    requires IsRun(run, steps) && i < |run| && k < l < |run[i].tries| && run[i].tries[k].id == run[i].tries[l].id
    ensures Harmless(run[i].tries[k].outcome)
  {
    RunKeepsInvariant(run, steps, i);
    EarlierTryIsHarmless(run[i], k, l);
  }

  lemma EarlierTryIsHarmless(s: State, k: nat, l: nat)
    requires Invariant(s) && k < l < |s.tries| && s.tries[k].id == s.tries[l].id
    ensures Harmless(s.tries[k].outcome)
  {
    var id := s.tries[k].id;
    var p := PlaceOfTry(s.tries, k, l);
    assert id < |s.rows|;
    assert RowOk(s.rows[id], TriesOf(s.tries, id));
  }

  /** However workers and recoveries overlap, a message is tried three times at most. */
  lemma AtMostThreeTries(run: seq<State>, steps: seq<Step>, i: nat, id: nat)
    requires IsRun(run, steps) && i < |run|
    ensures |TriesOf(run[i].tries, id)| <= MAX_ATTEMPTS
    ensures id < |run[i].rows| ==> |TriesOf(run[i].tries, id)| <= run[i].rows[id].attempts <= MAX_ATTEMPTS
  {
    RunKeepsInvariant(run, steps, i);
    if id < |run[i].rows| {
      assert RowOk(run[i].rows[id], TriesOf(run[i].tries, id));
    }
  }

  /**
   * A row says sent only after its last try was answered so; it waits for a try only if all tries are known to have
   * failed.
   */
  lemma StatusTellsTheTruth(run: seq<State>, steps: seq<Step>, i: nat, id: nat)
    requires IsRun(run, steps) && i < |run| && id < |run[i].rows|
    ensures var r := run[i].rows[id]; var outcomes := TriesOf(run[i].tries, id);
      && (r.status == Sent ==> outcomes != [] && outcomes[|outcomes| - 1] == Some(WasSent))
      && (r.status == Pending || r.status == Failed ==> AllHarmless(outcomes))
      && (r.status == Skipped ==> outcomes == [])
  {
    RunKeepsInvariant(run, steps, i);
    assert RowOk(run[i].rows[id], TriesOf(run[i].tries, id));
  }

  predicate Final(r: Row) {
    r.status == Sent || r.status == Unknown || r.status == Skipped
  }

  lemma StepKeepsFinal(s: State, e: Step, s': State, id: nat)
    requires Next(s, e, s') && id < |s.rows| && Final(s.rows[id])
    ensures id < |s'.rows| && s'.rows[id] == s.rows[id]
  {
  }

  /** Sent, unknown and skipped are final: such a row never changes again. */
  lemma {:induction false} FinalStaysFinal(run: seq<State>, steps: seq<Step>, i: nat, j: nat, id: nat)
    requires IsRun(run, steps) && i <= j < |run| && id < |run[i].rows| && Final(run[i].rows[id])
    ensures id < |run[j].rows| && run[j].rows[id] == run[i].rows[id]
    decreases j - i
  {
    if i < j {
      FinalStaysFinal(run, steps, i, j - 1, id);
      StepKeepsFinal(run[j - 1], steps[j - 1], run[j], id);
    }
  }

  lemma StepClaimsNoFinal(s: State, e: Step, s': State, id: nat, token: Token)
    requires Next(s, e, s') && id < |s.rows| && Final(s.rows[id])
    requires token in s'.flights.Keys && s'.flights[token].id == id
    ensures token in s.flights.Keys && s.flights[token].id == id
  {
  }

  lemma HeldBefore(run: seq<State>, steps: seq<Step>, i: nat, id: nat, token: Token)
    requires IsRun(run, steps) && i < |steps| && id < |run[i].rows| && Final(run[i].rows[id])
    requires token in run[i + 1].flights.Keys && run[i + 1].flights[token].id == id
    ensures token in run[i].flights.Keys && run[i].flights[token].id == id
  {
    StepClaimsNoFinal(run[i], steps[i], run[i + 1], id, token);
  }

  /** No worker claims a final row: whoever holds it later held it when it became final. */
  lemma {:induction false} FinalIsNotClaimed(run: seq<State>, steps: seq<Step>, i: nat, j: nat, id: nat, token: Token)
    requires IsRun(run, steps) && i <= j < |run| && id < |run[i].rows| && Final(run[i].rows[id])
    requires token in run[j].flights.Keys && run[j].flights[token].id == id
    ensures token in run[i].flights.Keys && run[i].flights[token].id == id
    decreases j - i
  {
    if i < j {
      FinalStaysFinal(run, steps, i, j - 1, id);
      HeldBefore(run, steps, j - 1, id, token);
      FinalIsNotClaimed(run, steps, i, j - 1, id, token);
    }
  }

  lemma StepTriesHolders(s: State, e: Step, s': State, id: nat)
    requires Next(s, e, s') && forall token :: token in s.flights.Keys ==> s.flights[token].id != id
    ensures TriesOf(s'.tries, id) == TriesOf(s.tries, id)
  {
    if |s'.tries| > |s.tries| {
      OneMoreTry(s.tries, s'.tries[|s.tries|], id);
    }
  }

  /** Once a final row is held by no worker, nothing is handed to the sender for it any more. */
  lemma {:induction false} FinalIsNotTriedAgain(run: seq<State>, steps: seq<Step>, i: nat, j: nat, id: nat)
    requires IsRun(run, steps) && i <= j < |run| && id < |run[i].rows| && Final(run[i].rows[id])
    requires forall token :: token in run[i].flights.Keys ==> run[i].flights[token].id != id
    ensures TriesOf(run[j].tries, id) == TriesOf(run[i].tries, id)
    decreases j - i
  {
    if i < j {
      FinalIsNotTriedAgain(run, steps, i, j - 1, id);
      var s := run[j - 1];
      forall token | token in s.flights.Keys
        ensures s.flights[token].id != id
      {
        if s.flights[token].id == id {
          FinalIsNotClaimed(run, steps, i, j - 1, id, token);
        }
      }
      StepTriesHolders(s, steps[j - 1], run[j], id);
    }
  }
}
