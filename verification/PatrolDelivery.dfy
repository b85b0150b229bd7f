/**
 * The patrol and the delivery of its notifications together: what is put into the inbox or escalated is queued in the
 * same transaction, and any number of workers, which may crash, hand what is queued to the sender.
 */
module PatrolDelivery {
  import opened Exceptions
  import opened Patrol
  import opened PatrolHistory
  import opened Results
  import Delivery = Notifications
  import Runs = PatrolRuns

  /** The key under which a topic is queued: it names the inbox row or the escalation that the topic is about. */
  type Keys = Topic -> string

  /** The identities that an owner is mapped to. */
  type Directory = string -> seq<string>

  datatype System = System(board: PatrolBoard, queue: Delivery.State)

  datatype Step =
    | Commit(looks: seq<Look>, topics: seq<Topic>, dir: Directory, now: int)
    | Deliver(move: Delivery.Step)

  ghost predicate Injective(keys: Keys) {
    forall topic, other :: keys(topic) == keys(other) ==> topic == other
  }

  /** Queue the notifications of these topics one after the other, each only if its key is not there yet. */
  ghost function Queued(keys: Keys, notices: map<Topic, Notice>, dir: Directory, now: int, rows: seq<Delivery.Row>,
                        topics: seq<Topic>): seq<Delivery.Row>
    requires forall topic :: topic in topics ==> topic in notices.Keys
  {
    if topics == [] then rows
    else
      var before := Queued(keys, notices, dir, now, rows, topics[..|topics| - 1]);
      var topic := topics[|topics| - 1];
      if Delivery.HasKey(before, keys(topic)) then before
      else before + [Delivery.Queue(keys(topic), Delivery.RecipientOf(dir(notices[topic].owner)), now)]
  }

  /** A patrol run commits its rows and their notifications; workers do the rest. Other tenants use other keys. */
  ghost predicate Next(keys: Keys, s: System, e: Step, s': System) {
    match e
    case Commit(looks, topics, dir, now) =>
      && InspectAll(s.board, looks) == Ok(s'.board)
      && (forall topic :: topic in topics <==> topic in s'.board.notices.Keys && topic !in s.board.notices.Keys)
      && s'.queue == s.queue.(rows := Queued(keys, s'.board.notices, dir, now, s.queue.rows, topics))
    case Deliver(move) =>
      && s'.board == s.board && Delivery.Next(s.queue, move, s'.queue)
      && (move.Enqueue? ==> forall topic :: keys(topic) != move.key)
  }

  ghost predicate IsRun(keys: Keys, run: seq<System>, steps: seq<Step>) {
    && |run| == |steps| + 1
    && run[0] == System(PatrolBoard(map[], map[], map[], map[]), Delivery.State([], map[], []))
    && forall i :: 0 <= i < |steps| ==> Next(keys, run[i], steps[i], run[i + 1])
  }

  // ---------- The run of the patrol alone ----------

  function Boards(run: seq<System>): (boards: seq<PatrolBoard>)
    ensures |boards| == |run| && forall i :: 0 <= i < |run| ==> boards[i] == run[i].board
  {
    seq(|run|, i requires 0 <= i < |run| => run[i].board)
  }

  function LooksIn(e: Step): seq<Look> {
    if e.Commit? then e.looks else []
  }

  function Batches(steps: seq<Step>): (batches: seq<seq<Look>>)
    ensures |batches| == |steps| && forall i :: 0 <= i < |steps| ==> batches[i] == LooksIn(steps[i])
  {
    seq(|steps|, i requires 0 <= i < |steps| => LooksIn(steps[i]))
  }

  lemma BoardsAreRun(keys: Keys, run: seq<System>, steps: seq<Step>)
    requires IsRun(keys, run, steps)
    ensures Runs.IsRun(Boards(run), Batches(steps))
  {
    forall i | 0 <= i < |steps|
      ensures InspectAll(Boards(run)[i], Batches(steps)[i]) == Ok(Boards(run)[i + 1])
    {
      assert Next(keys, run[i], steps[i], run[i + 1]);
    }
  }

  // ---------- One row for every topic ----------

  ghost predicate DistinctKeys(rows: seq<Delivery.Row>) {
    forall i, j :: 0 <= i < j < |rows| ==> rows[i].key != rows[j].key
  }

  /** Exactly these topics have rows. */
  ghost predicate RowsOfTopics(keys: Keys, topics: set<Topic>, rows: seq<Delivery.Row>) {
    forall topic :: topic in topics <==> Delivery.HasKey(rows, keys(topic))
  }

  ghost predicate QueueOk(keys: Keys, topics: set<Topic>, queue: Delivery.State) {
    Delivery.Invariant(queue) && DistinctKeys(queue.rows) && RowsOfTopics(keys, topics, queue.rows)
  }

  lemma HasKeyOfLonger(rows: seq<Delivery.Row>, row: Delivery.Row, key: string)
    ensures Delivery.HasKey(rows + [row], key) <==> Delivery.HasKey(rows, key) || row.key == key
  {
    if Delivery.HasKey(rows, key) {
      var i :| 0 <= i < |rows| && rows[i].key == key;
      assert (rows + [row])[i].key == key;
    }
    if row.key == key {
      assert (rows + [row])[|rows|].key == key;
    }
  }

  lemma QueueKeeps(queue: Delivery.State, key: string, mappings: seq<string>, now: int)
    requires Delivery.Invariant(queue) && DistinctKeys(queue.rows) && !Delivery.HasKey(queue.rows, key)
    ensures var row := Delivery.Queue(key, Delivery.RecipientOf(mappings), now);
      var queue' := queue.(rows := queue.rows + [row]);
      Delivery.Invariant(queue') && DistinctKeys(queue'.rows)
  {
    var row := Delivery.Queue(key, Delivery.RecipientOf(mappings), now);
    var queue' := queue.(rows := queue.rows + [row]);
    Delivery.EnqueueKeeps(queue, Delivery.Enqueue(key, mappings, now), queue');
  }

  lemma {:induction false} QueuedKeeps(keys: Keys, notices: map<Topic, Notice>, dir: Directory, now: int,
                                       queue: Delivery.State, topics: seq<Topic>)
    requires Delivery.Invariant(queue) && DistinctKeys(queue.rows)
    requires forall topic :: topic in topics ==> topic in notices.Keys
    ensures var rows' := Queued(keys, notices, dir, now, queue.rows, topics);
      && Delivery.Invariant(queue.(rows := rows')) && DistinctKeys(rows') && queue.rows <= rows'
      && forall key :: Delivery.HasKey(rows', key) <==>
           Delivery.HasKey(queue.rows, key) || exists topic :: topic in topics && keys(topic) == key
  {
    if topics == [] {
      assert queue.(rows := queue.rows) == queue;
    } else {
      var init, topic := topics[..|topics| - 1], topics[|topics| - 1];
      QueuedKeeps(keys, notices, dir, now, queue, init);
      var before := queue.(rows := Queued(keys, notices, dir, now, queue.rows, init));
      var rows' := Queued(keys, notices, dir, now, queue.rows, topics);
      if !Delivery.HasKey(before.rows, keys(topic)) {
        QueueKeeps(before, keys(topic), dir(notices[topic].owner), now);
        assert before.(rows := rows') == queue.(rows := rows');
      }
      forall key
        ensures Delivery.HasKey(rows', key) <==> Delivery.HasKey(before.rows, key) || keys(topic) == key
      {
        if !Delivery.HasKey(before.rows, keys(topic)) {
          HasKeyOfLonger(before.rows, rows'[|before.rows|], key);
        }
      }
      assert topics == init + [topic];
    }
  }

  lemma CommitKeeps(keys: Keys, s: System, e: Step, s': System)
    requires Injective(keys) && QueueOk(keys, s.board.notices.Keys, s.queue) && e.Commit? && Next(keys, s, e, s')
    ensures QueueOk(keys, s'.board.notices.Keys, s'.queue)
  {
    QueuedKeeps(keys, s'.board.notices, e.dir, e.now, s.queue, e.topics);
    Runs.InspectAllKeepsRows(s.board, e.looks);
  }

  /** Workers neither rename nor remove rows. */
  lemma WorkersKeepKeys(queue: Delivery.State, move: Delivery.Step, queue': Delivery.State)
    requires Delivery.Next(queue, move, queue') && !move.Enqueue?
    ensures |queue'.rows| == |queue.rows|
    ensures forall i :: 0 <= i < |queue.rows| ==>
      queue'.rows[i].key == queue.rows[i].key && queue'.rows[i].recipient == queue.rows[i].recipient
  {
  }

  lemma SameKeys(rows: seq<Delivery.Row>, rows': seq<Delivery.Row>, key: string)
    requires |rows'| == |rows| && forall i :: 0 <= i < |rows| ==> rows'[i].key == rows[i].key
    ensures Delivery.HasKey(rows', key) <==> Delivery.HasKey(rows, key)
  {
  }

  lemma OtherTenantKeeps(keys: Keys, topics: set<Topic>, queue: Delivery.State, move: Delivery.Step,
                         queue': Delivery.State)
    requires QueueOk(keys, topics, queue) && Delivery.Next(queue, move, queue') && move.Enqueue?
    requires forall topic :: keys(topic) != move.key
    ensures QueueOk(keys, topics, queue')
  {
    if !Delivery.HasKey(queue.rows, move.key) {
      QueueKeeps(queue, move.key, move.mappings, move.now);
      forall topic
        ensures topic in topics <==> Delivery.HasKey(queue'.rows, keys(topic))
      {
        HasKeyOfLonger(queue.rows, queue'.rows[|queue.rows|], keys(topic));
      }
    }
  }

  lemma DeliverKeeps(keys: Keys, topics: set<Topic>, queue: Delivery.State, move: Delivery.Step, queue': Delivery.State)
    requires QueueOk(keys, topics, queue) && Delivery.Next(queue, move, queue') && !move.Enqueue?
    ensures QueueOk(keys, topics, queue')
  {
    Delivery.StepKeepsInvariant(queue, move, queue');
    WorkersKeepKeys(queue, move, queue');
    forall topic
      ensures topic in topics <==> Delivery.HasKey(queue'.rows, keys(topic))
    {
      SameKeys(queue.rows, queue'.rows, keys(topic));
    }
  }

  lemma {:induction false} RunOk(keys: Keys, run: seq<System>, steps: seq<Step>, i: nat)
    requires Injective(keys) && IsRun(keys, run, steps) && i < |run|
    ensures QueueOk(keys, run[i].board.notices.Keys, run[i].queue)
  {
    if i > 0 {
      var s, e, s' := run[i - 1], steps[i - 1], run[i];
      RunOk(keys, run, steps, i - 1);
      assert Next(keys, s, e, run[i - 1 + 1]);
      if e.Commit? {
        CommitKeeps(keys, s, e, s');
      } else if e.move.Enqueue? {
        OtherTenantKeeps(keys, s.board.notices.Keys, s.queue, e.move, s'.queue);
      } else {
        DeliverKeeps(keys, s.board.notices.Keys, s.queue, e.move, s'.queue);
      }
    }
  }

  // ---------- Consequences ----------

  /** Row `id` of the queue is about this topic. */
  ghost predicate IsAbout(keys: Keys, rows: seq<Delivery.Row>, topic: Topic, id: nat) {
    id < |rows| && rows[id].key == keys(topic)
  }

  /** The outcomes of everything that was handed to the sender about a topic, in order. */
  ghost function TriesAbout(keys: Keys, queue: Delivery.State, tries: seq<Delivery.Try>, topic: Topic)
    : seq<Option<Delivery.SendResult>>
  {
    if tries == [] then []
    else
      var last := tries[|tries| - 1];
      TriesAbout(keys, queue, tries[..|tries| - 1], topic)
      + if IsAbout(keys, queue.rows, topic, last.id) then [last.outcome] else []
  }

  lemma {:induction false} TriesOfTheRow(keys: Keys, queue: Delivery.State, tries: seq<Delivery.Try>, topic: Topic,
                                         id: nat)
    requires DistinctKeys(queue.rows) && IsAbout(keys, queue.rows, topic, id)
    ensures TriesAbout(keys, queue, tries, topic) == Delivery.TriesOf(tries, id)
  {
    if tries != [] {
      TriesOfTheRow(keys, queue, tries[..|tries| - 1], topic, id);
      var last := tries[|tries| - 1];
      assert IsAbout(keys, queue.rows, topic, last.id) <==> last.id == id;
    }
  }

  lemma {:induction false} NoRowNoTries(keys: Keys, queue: Delivery.State, tries: seq<Delivery.Try>, topic: Topic)
    requires !Delivery.HasKey(queue.rows, keys(topic))
    ensures TriesAbout(keys, queue, tries, topic) == []
  {
    if tries != [] {
      NoRowNoTries(keys, queue, tries[..|tries| - 1], topic);
    }
  }

  /** Tried at most three times, and again only after tries that are known to have failed. */
  ghost predicate TriedWithCare(outcomes: seq<Option<Delivery.SendResult>>) {
    |outcomes| <= Delivery.MAX_ATTEMPTS && forall k :: 0 <= k < |outcomes| - 1 ==> Delivery.Harmless(outcomes[k])
  }

  lemma TopicTriedWithCare(keys: Keys, topics: set<Topic>, queue: Delivery.State, topic: Topic)
    requires QueueOk(keys, topics, queue)
    ensures TriedWithCare(TriesAbout(keys, queue, queue.tries, topic))
    ensures topic !in topics ==> TriesAbout(keys, queue, queue.tries, topic) == []
  {
    if Delivery.HasKey(queue.rows, keys(topic)) {
      var id :| 0 <= id < |queue.rows| && queue.rows[id].key == keys(topic);
      TriesOfTheRow(keys, queue, queue.tries, topic, id);
      assert Delivery.RowOk(queue.rows[id], Delivery.TriesOf(queue.tries, id));
    } else {
      NoRowNoTries(keys, queue, queue.tries, topic);
    }
  }

  lemma OnlyRow(keys: Keys, topics: set<Topic>, queue: Delivery.State, topic: Topic)
    requires QueueOk(keys, topics, queue)
    ensures topic in topics <==> exists id :: IsAbout(keys, queue.rows, topic, id)
    ensures forall id, other ::
      IsAbout(keys, queue.rows, topic, id) && IsAbout(keys, queue.rows, topic, other) ==> id == other
  {
    if topic in topics {
      var id :| 0 <= id < |queue.rows| && queue.rows[id].key == keys(topic);
      assert IsAbout(keys, queue.rows, topic, id);
    }
  }

  /**
   * An escalation is queued exactly when some committed look found the stretch due, in one row; whatever workers and
   * recoveries overlap, it is tried three times at most, and again only after tries that are known to have failed.
   */
  lemma EscalationIsDeliveredWithCare(keys: Keys, run: seq<System>, steps: seq<Step>, i: nat, id: IssueId, episode: nat)
    requires Injective(keys) && IsRun(keys, run, steps) && i < |run|
    ensures var topic, queue := Escalated(id, episode), run[i].queue;
      && (EverEscalated(Runs.Covered(Batches(steps), i), (id, episode)) <==>
            exists row :: IsAbout(keys, queue.rows, topic, row))
      && (forall row, other ::
            IsAbout(keys, queue.rows, topic, row) && IsAbout(keys, queue.rows, topic, other) ==> row == other)
      && TriedWithCare(TriesAbout(keys, queue, queue.tries, topic))
  {
    var topic := Escalated(id, episode);
    BoardsAreRun(keys, run, steps);
    Runs.EscalatedExactlyWhenDue(Boards(run), Batches(steps), i, id, episode);
    Runs.OneNotificationPerRow(Boards(run), Batches(steps), i, topic);
    RunOk(keys, run, steps, i);
    OnlyRow(keys, run[i].board.notices.Keys, run[i].queue, topic);
    TopicTriedWithCare(keys, run[i].board.notices.Keys, run[i].queue, topic);
  }

  /** The same for an inbox row: queued exactly when the issue was reported on the date. */
  lemma InboxRowIsDeliveredWithCare(keys: Keys, run: seq<System>, steps: seq<Step>, i: nat, id: IssueId, date: int)
    requires Injective(keys) && IsRun(keys, run, steps) && i < |run|
    ensures var topic, queue := InInbox(id, date), run[i].queue;
      && (EverInboxed(Runs.Covered(Batches(steps), i), (id, date)) <==>
            exists row :: IsAbout(keys, queue.rows, topic, row))
      && (forall row, other ::
            IsAbout(keys, queue.rows, topic, row) && IsAbout(keys, queue.rows, topic, other) ==> row == other)
      && TriedWithCare(TriesAbout(keys, queue, queue.tries, topic))
  {
    var topic := InInbox(id, date);
    BoardsAreRun(keys, run, steps);
    Runs.InboxExactlyWhenReported(Boards(run), Batches(steps), i, id, date);
    Runs.OneNotificationPerRow(Boards(run), Batches(steps), i, topic);
    RunOk(keys, run, steps, i);
    OnlyRow(keys, run[i].board.notices.Keys, run[i].queue, topic);
    TopicTriedWithCare(keys, run[i].board.notices.Keys, run[i].queue, topic);
  }

  // ---------- Who is told ----------

  /** A row that was queued with these topics is about one of them, for the identity its owner had. */
  lemma {:induction false} QueuedRow(keys: Keys, notices: map<Topic, Notice>, dir: Directory, now: int,
                                     rows: seq<Delivery.Row>, topics: seq<Topic>, id: nat) returns (topic: Topic)
    requires forall topic :: topic in topics ==> topic in notices.Keys
    requires |rows| <= id < |Queued(keys, notices, dir, now, rows, topics)|
    ensures topic in topics
    ensures Queued(keys, notices, dir, now, rows, topics)[id]
         == Delivery.Queue(keys(topic), Delivery.RecipientOf(dir(notices[topic].owner)), now)
  {
    var init, last := topics[..|topics| - 1], topics[|topics| - 1];
    var before := Queued(keys, notices, dir, now, rows, init);
    if id < |before| {
      topic := QueuedRow(keys, notices, dir, now, rows, init, id);
    } else {
      topic := last;
    }
  }

  lemma {:induction false} QueuedKeepsRows(keys: Keys, notices: map<Topic, Notice>, dir: Directory, now: int,
                                           rows: seq<Delivery.Row>, topics: seq<Topic>)
    requires forall topic :: topic in topics ==> topic in notices.Keys
    ensures rows <= Queued(keys, notices, dir, now, rows, topics)
  {
    if topics != [] {
      QueuedKeepsRows(keys, notices, dir, now, rows, topics[..|topics| - 1]);
    }
  }

  /** Step j queued the topic, for the one identity that the owner had then, or for nobody. */
  ghost predicate QueuedAt(run: seq<System>, steps: seq<Step>, j: nat, topic: Topic, row: Delivery.Row)
    requires |run| == |steps| + 1
  {
    && j < |steps| && steps[j].Commit? && topic in run[j + 1].board.notices.Keys
    && row.recipient == Delivery.RecipientOf(steps[j].dir(run[j + 1].board.notices[topic].owner))
  }

  /** A topic's row was there before the step, with this recipient, or the step is the commit that queued it. */
  lemma RowBeforeOrQueued(keys: Keys, s: System, e: Step, s': System, topic: Topic, id: nat)
    requires Injective(keys) && Next(keys, s, e, s') && IsAbout(keys, s'.queue.rows, topic, id)
    ensures if id < |s.queue.rows|
            then IsAbout(keys, s.queue.rows, topic, id)
                 && s'.queue.rows[id].recipient == s.queue.rows[id].recipient
            else e.Commit? && topic in s'.board.notices.Keys
                 && s'.queue.rows[id].recipient == Delivery.RecipientOf(e.dir(s'.board.notices[topic].owner))
  {
    if e.Commit? {
      if id < |s.queue.rows| {
        QueuedKeepsRows(keys, s'.board.notices, e.dir, e.now, s.queue.rows, e.topics);
      } else {
        var same := QueuedRow(keys, s'.board.notices, e.dir, e.now, s.queue.rows, e.topics, id);
      }
    } else if !e.move.Enqueue? {
      WorkersKeepKeys(s.queue, e.move, s'.queue);
    }
  }

  lemma {:induction false} RowHasOrigin(keys: Keys, run: seq<System>, steps: seq<Step>, i: nat, topic: Topic, id: nat)
    returns (j: nat)
    requires Injective(keys) && IsRun(keys, run, steps) && i < |run| && IsAbout(keys, run[i].queue.rows, topic, id)
    ensures j < i && QueuedAt(run, steps, j, topic, run[i].queue.rows[id])
  {
    var s := run[i - 1];
    assert Next(keys, s, steps[i - 1], run[i - 1 + 1]);
    RowBeforeOrQueued(keys, s, steps[i - 1], run[i], topic, id);
    if id < |s.queue.rows| {
      j := RowHasOrigin(keys, run, steps, i - 1, topic, id);
    } else {
      j := i - 1;
    }
  }

  /** Whatever is handed to the sender about a topic goes to the one identity that its owner had when it was queued. */
  lemma MessagesGoToTheOwner(keys: Keys, run: seq<System>, steps: seq<Step>, i: nat, topic: Topic, k: nat)
    returns (recipient: string, j: nat)
    requires Injective(keys) && IsRun(keys, run, steps) && i < |run| && k < |run[i].queue.tries|
    requires IsAbout(keys, run[i].queue.rows, topic, run[i].queue.tries[k].id)
    ensures run[i].queue.rows[run[i].queue.tries[k].id].recipient == Some(recipient)
    ensures j < i && steps[j].Commit? && topic in run[i].board.notices.Keys
    ensures steps[j].dir(run[i].board.notices[topic].owner) == [recipient]
  {
    var queue := run[i].queue;
    var id := queue.tries[k].id;
    RunOk(keys, run, steps, i);
    TriedRowHasRecipient(queue, k);
    recipient := queue.rows[id].recipient.value;
    j := RowHasOrigin(keys, run, steps, i, topic, id);
    BoardsAreRun(keys, run, steps);
    Runs.RowsAreKept(Boards(run), Batches(steps), j + 1, i);
  }

  lemma TriedRowHasRecipient(queue: Delivery.State, k: nat)
    requires Delivery.Invariant(queue) && k < |queue.tries| && queue.tries[k].id < |queue.rows|
    ensures queue.rows[queue.tries[k].id].recipient.Some?
  {
    var id := queue.tries[k].id;
    var p := Delivery.OutcomeOfTry(queue.tries, k);
    assert Delivery.RowOk(queue.rows[id], Delivery.TriesOf(queue.tries, id));
  }
}
