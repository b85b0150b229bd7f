/**
 * Any sequence of patrol runs of one tenant, committed, failed or refused, under any changes of policy.
 *
 * A run of the tables is followed by the batches of looks that were committed, one batch for every patrol run,
 * empty for a run that did not commit; PatrolRunCommitsItsLooks ties a batch to the run that it stands for.
 */
module PatrolRuns {
  import opened Exceptions
  import opened Patrol
  import opened PatrolExecution
  import opened PatrolHistory
  import opened Results

  /** The looks that a patrol run commits. */
  function LooksCommitted(t: Tables, c: Occasion): seq<Look> {
    if Run(t, c).1 == Ok(true) then LooksOf(t.policy.value, c) else []
  }

  /** A patrol run either commits all its looks or leaves the board alone. */
  lemma PatrolRunCommitsItsLooks(t: Tables, c: Occasion)
    ensures InspectAll(t.board, LooksCommitted(t, c)) == Ok(Run(t, c).0.board)
  {
  }

  ghost predicate IsRun(run: seq<PatrolBoard>, batches: seq<seq<Look>>) {
    && |run| == |batches| + 1
    && run[0] == PatrolBoard(map[], map[], map[], map[])
    && forall i :: 0 <= i < |batches| ==> InspectAll(run[i], batches[i]) == Ok(run[i + 1])
  }

  /** Everything the patrol has looked at in the first n batches. */
  function Covered(batches: seq<seq<Look>>, n: nat): seq<Look>
    requires n <= |batches|
  {
    if n == 0 then [] else Covered(batches, n - 1) + batches[n - 1]
  }

  lemma NothingSeenYet()
    ensures Agrees(PatrolBoard(map[], map[], map[], map[]), [])
  {
    forall key: (IssueId, nat)
      ensures EscalationAgrees(PatrolBoard(map[], map[], map[], map[]), [], key)
    {
    }
  }

  /** The tables always say what the whole history of looks says. */
  lemma {:induction false} TablesAgreeWithHistory(run: seq<PatrolBoard>, batches: seq<seq<Look>>, i: nat)
    requires IsRun(run, batches) && i < |run|
    ensures Agrees(run[i], Covered(batches, i))
  {
    if i == 0 {
      NothingSeenYet();
    } else {
      TablesAgreeWithHistory(run, batches, i - 1);
      assert InspectAll(run[i - 1], batches[i - 1]) == Ok(run[i - 1 + 1]);
      InspectAllAgrees(run[i - 1], Covered(batches, i - 1), batches[i - 1]);
    }
  }

  // ---------- Consequences ----------

  /**
   * An issue's episode is the number of maximal unbroken stretches in which it was present, and it was first seen
   * at the start of the latest of them, which lasts as long as the issue is active.
   */
  lemma EpisodesAreStretches(run: seq<PatrolBoard>, batches: seq<seq<Look>>, i: nat, id: IssueId) returns (k: nat)
    requires IsRun(run, batches) && i < |run| && id in run[i].states.Keys
    ensures var s := Sightings(Covered(batches, i), id); var state := run[i].states[id];
      && state.episode == |Starts(s)| && LatestStart(s, k) && state.firstSeenAt == s[k].at
      && state.active == s[|s| - 1].present
      && (state.active ==> forall j :: k <= j < |s| ==> s[j].present)
  {
    TablesAgreeWithHistory(run, batches, i);
    k := StateMeans(run[i].states, Sightings(Covered(batches, i), id), id);
  }

  lemma StateMeans(states: map<IssueId, IssueState>, s: seq<Sighting>, id: IssueId) returns (k: nat)
    requires StateAgrees(states, s, id) && id in states.Keys
    ensures states[id].episode == |Starts(s)| && LatestStart(s, k) && states[id].firstSeenAt == s[k].at
    ensures s != [] && states[id].active == s[|s| - 1].present
    ensures states[id].active ==> forall j :: k <= j < |s| ==> s[j].present
  {
    k :| LatestStart(s, k) && states[id].firstSeenAt == s[k].at;
    if s[|s| - 1].present {
      forall j: nat | k <= j < |s|
        ensures s[j].present
      {
        LatestStretchIsUnbroken(s, k, j);
      }
    }
  }

  /** An issue is known to the tables exactly when it was present at some time. */
  lemma KnownIffEverPresent(run: seq<PatrolBoard>, batches: seq<seq<Look>>, i: nat, id: IssueId)
    requires IsRun(run, batches) && i < |run|
    ensures id in run[i].states.Keys <==> Starts(Sightings(Covered(batches, i), id)) != {}
  {
    TablesAgreeWithHistory(run, batches, i);
    assert StateAgrees(run[i].states, Sightings(Covered(batches, i), id), id);
  }

  /** A stretch is escalated if and only if a look found it due; the table has one row for it at most. */
  lemma EscalatedExactlyWhenDue(run: seq<PatrolBoard>, batches: seq<seq<Look>>, i: nat, id: IssueId, episode: nat)
    requires IsRun(run, batches) && i < |run|
    ensures (id, episode) in run[i].escalations.Keys <==> EverEscalated(Covered(batches, i), (id, episode))
  {
    TablesAgreeWithHistory(run, batches, i);
    EscalationMeans(run[i], Covered(batches, i), (id, episode));
  }

  lemma EscalationMeans(b: PatrolBoard, history: seq<Look>, key: (IssueId, nat))
    requires EscalationAgrees(b, history, key)
    ensures key in b.escalations.Keys <==> EverEscalated(history, key)
  {
  }

  lemma InboxMeans(b: PatrolBoard, history: seq<Look>, key: (IssueId, int))
    requires InboxAgrees(b, history, key)
    ensures key in b.inbox.Keys <==> EverInboxed(history, key)
  {
  }

  /**
   * An escalation was made at a look that found the stretch lasting for the configured hours, for that look's manager.
   */
  lemma EscalationWasDue(run: seq<PatrolBoard>, batches: seq<seq<Look>>, i: nat, id: IssueId, episode: nat)
    returns (n: nat, k: nat)
    requires IsRun(run, batches) && i < |run| && (id, episode) in run[i].escalations.Keys
    ensures var looks := Covered(batches, i);
      && n < |looks| && id in PresentIds(looks[n]) && EpisodeAt(looks, n, id) == episode
      && LatestStart(Sightings(looks[..n + 1], id), k)
      && looks[n].at - Sightings(looks[..n + 1], id)[k].at >= looks[n].hours * HOUR
      && run[i].escalations[(id, episode)].createdAt == looks[n].at
      && looks[n].manager == Some(run[i].escalations[(id, episode)].owner)
  {
    TablesAgreeWithHistory(run, batches, i);
    var looks := Covered(batches, i);
    var key := (id, episode);
    assert EscalationAgrees(run[i], looks, key);
    n :| EscalatedAt(looks, n, key) && looks[n].manager.Some? && run[i].escalations[key] == EscalationOf(looks[n], id);
    var s := Sightings(looks[..n + 1], id);
    k :| LatestStart(s, k) && looks[n].at - s[k].at >= looks[n].hours * HOUR;
  }

  /** The inbox shows an issue on a date, once, if and only if it was reported on that date. */
  lemma InboxExactlyWhenReported(run: seq<PatrolBoard>, batches: seq<seq<Look>>, i: nat, id: IssueId, date: int)
    requires IsRun(run, batches) && i < |run|
    ensures (id, date) in run[i].inbox.Keys <==> EverInboxed(Covered(batches, i), (id, date))
  {
    TablesAgreeWithHistory(run, batches, i);
    InboxMeans(run[i], Covered(batches, i), (id, date));
  }

  /** There is one notification for every inbox row and every escalation, and none besides. */
  lemma OneNotificationPerRow(run: seq<PatrolBoard>, batches: seq<seq<Look>>, i: nat, topic: Topic)
    requires IsRun(run, batches) && i < |run|
    ensures topic in run[i].notices.Keys <==>
            match topic
            case InInbox(id, date) => (id, date) in run[i].inbox.Keys
            case Escalated(id, episode) => (id, episode) in run[i].escalations.Keys
  {
    TablesAgreeWithHistory(run, batches, i);
    assert NoticeAgrees(run[i], topic);
  }

  ghost predicate Kept<K, V>(m: map<K, V>, m': map<K, V>) {
    m.Keys <= m'.Keys && forall key :: key in m.Keys ==> m'[key] == m[key]
  }

  ghost predicate RowsKept(b: PatrolBoard, b': PatrolBoard) {
    Kept(b.inbox, b'.inbox) && Kept(b.escalations, b'.escalations) && Kept(b.notices, b'.notices)
  }

  lemma {:induction false} InspectAllKeepsRows(b: PatrolBoard, looks: seq<Look>)
    requires InspectAll(b, looks).Ok?
    ensures RowsKept(b, InspectAll(b, looks).value)
    decreases |looks|
  {
    if looks != [] {
      InspectAllKeepsRows(Inspect(b, looks[0]), looks[1..]);
    }
  }

  lemma KeptTransitively(a: PatrolBoard, b: PatrolBoard, c: PatrolBoard)
    requires RowsKept(a, b) && RowsKept(b, c)
    ensures RowsKept(a, c)
  {
  }

  /** What is in the inbox, escalated or queued is never changed or removed, so nothing is escalated twice. */
  lemma {:induction false} RowsAreKept(run: seq<PatrolBoard>, batches: seq<seq<Look>>, i: nat, j: nat)
    requires IsRun(run, batches) && i <= j < |run|
    ensures RowsKept(run[i], run[j])
  {
    if i < j {
      RowsAreKept(run, batches, i, j - 1);
      assert InspectAll(run[j - 1], batches[j - 1]) == Ok(run[j - 1 + 1]);
      InspectAllKeepsRows(run[j - 1], batches[j - 1]);
      KeptTransitively(run[i], run[j - 1], run[j]);
    }
  }
}
