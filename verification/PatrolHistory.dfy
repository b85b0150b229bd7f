/** What the patrol's tables mean, in terms of everything it has ever looked at. */
module PatrolHistory {
  import opened Exceptions
  import opened Patrol
  import opened Results

  // ---------- The simple definitions: stretches of presence ----------

  datatype Sighting = Sighting(at: int, present: bool)

  /** The looks at the issue's object, and whether they found the issue. */
  ghost function Sightings(history: seq<Look>, id: IssueId): seq<Sighting> {
    if history == [] then []
    else
      var last := history[|history| - 1];
      Sightings(history[..|history| - 1], id)
      + if last.facts.id == id.objectId then [Sighting(last.at, id in PresentIds(last))] else []
  }

  ghost predicate StartsStretch(s: seq<Sighting>, k: nat)
    requires k < |s|
  {
    s[k].present && (k == 0 || !s[k - 1].present)
  }

  /** Where the maximal unbroken stretches of presence begin. */
  ghost function Starts(s: seq<Sighting>): set<nat> {
    set k: nat | k < |s| && StartsStretch(s, k)
  }

  /** The present or most recent stretch begins at k. */
  ghost predicate LatestStart(s: seq<Sighting>, k: nat) {
    k in Starts(s) && forall j :: j in Starts(s) ==> j <= k
  }

  lemma StartsOfLonger(s: seq<Sighting>, x: Sighting)
    ensures Starts(s + [x]) == Starts(s) + if x.present && (s == [] || !s[|s| - 1].present) then {|s|} else {}
  {
    forall k: nat | k < |s|
      ensures StartsStretch(s + [x], k) <==> StartsStretch(s, k)
    {
    }
  }

  /** From the latest start on, presence is unbroken as long as the issue is present. */
  lemma {:induction false} LatestStretchIsUnbroken(s: seq<Sighting>, k: nat, j: nat)
    requires LatestStart(s, k) && k <= j < |s| && s[|s| - 1].present
    ensures s[j].present
    decreases |s| - j
  {
    if j < |s| - 1 {
      LatestStretchIsUnbroken(s, k, j + 1);
      assert j + 1 !in Starts(s);
    }
  }

  lemma {:induction false} PresenceHasStart(s: seq<Sighting>)
    requires s != [] && s[|s| - 1].present
    ensures Starts(s) != {}
  {
    var init := s[..|s| - 1];
    assert s == init + [s[|s| - 1]];
    StartsOfLonger(init, s[|s| - 1]);
    if init != [] && init[|init| - 1].present {
      PresenceHasStart(init);
    }
  }

  ghost predicate StateAgrees(states: map<IssueId, IssueState>, s: seq<Sighting>, id: IssueId) {
    && (id in states.Keys <==> Starts(s) != {})
    && (id in states.Keys ==>
          && s != [] && states[id].active == s[|s| - 1].present && states[id].episode == |Starts(s)|
          && exists k: nat :: LatestStart(s, k) && states[id].firstSeenAt == s[k].at)
  }

  /** The look finds the issue in an episode that has lasted long enough, its exception not dealt with. */
  ghost predicate DueAt(history: seq<Look>, n: nat, id: IssueId)
    requires n < |history|
  {
    && id in PresentIds(history[n])
    && !(id in history[n].records
         && (history[n].records[id].status == Resolved || history[n].records[id].status == Closed))
    && var s := Sightings(history[..n + 1], id);
       exists k: nat :: LatestStart(s, k) && history[n].at - s[k].at >= history[n].hours * HOUR
  }

  /** The number of the stretch that look n is in. */
  ghost function EpisodeAt(history: seq<Look>, n: nat, id: IssueId): nat
    requires n < |history|
  {
    |Starts(Sightings(history[..n + 1], id))|
  }

  ghost predicate EscalatedAt(history: seq<Look>, n: nat, key: (IssueId, nat)) {
    n < |history| && DueAt(history, n, key.0) && EpisodeAt(history, n, key.0) == key.1
  }

  ghost predicate InboxedAt(history: seq<Look>, n: nat, key: (IssueId, int)) {
    n < |history| && key.0 in ObservedIds(history[n]) && BusinessDate(history[n].at) == key.1
  }

  ghost predicate EverEscalated(history: seq<Look>, key: (IssueId, nat)) {
    exists n: nat :: EscalatedAt(history, n, key)
  }

  ghost predicate EverInboxed(history: seq<Look>, key: (IssueId, int)) {
    exists n: nat :: InboxedAt(history, n, key)
  }

  /** A row exists if and only if some look called for it, and shows what such a look saw. */
  ghost predicate EscalationAgrees(b: PatrolBoard, history: seq<Look>, key: (IssueId, nat)) {
    && (key in b.escalations.Keys ==>
          exists n: nat :: EscalatedAt(history, n, key) && history[n].manager.Some?
                      && b.escalations[key] == EscalationOf(history[n], key.0))
    && (EverEscalated(history, key) ==> key in b.escalations.Keys)
  }

  ghost predicate InboxAgrees(b: PatrolBoard, history: seq<Look>, key: (IssueId, int)) {
    && (key in b.inbox.Keys ==>
        exists n: nat :: InboxedAt(history, n, key) && b.inbox[key] == Inboxed(history[n], key.0))
    && (EverInboxed(history, key) ==> key in b.inbox.Keys)
  }

  ghost predicate NoticeAgrees(b: PatrolBoard, topic: Topic) {
    topic in b.notices.Keys <==>
      match topic
      case InInbox(id, date) => (id, date) in b.inbox.Keys
      case Escalated(id, episode) => (id, episode) in b.escalations.Keys
  }

  ghost predicate Agrees(b: PatrolBoard, history: seq<Look>) {
    && (forall id :: StateAgrees(b.states, Sightings(history, id), id))
    && (forall key :: EscalationAgrees(b, history, key))
    && (forall key :: InboxAgrees(b, history, key))
    && (forall topic :: NoticeAgrees(b, topic))
  }

  // ---------- One look keeps the agreement ----------

  lemma SightingsOfLonger(history: seq<Look>, look: Look, id: IssueId)
    ensures Sightings(history + [look], id)
         == Sightings(history, id)
            + if look.facts.id == id.objectId then [Sighting(look.at, id in PresentIds(look))] else []
  {
    assert (history + [look])[..|history|] == history;
  }

  lemma StateAgreesAfter(states: map<IssueId, IssueState>, s: seq<Sighting>, look: Look, id: IssueId)
    requires StateAgrees(states, s, id) && look.facts.id == id.objectId && id in states.Keys + PresentIds(look)
    ensures var s' := s + [Sighting(look.at, id in PresentIds(look))];
      StateAgrees(map[id := StateAfter(states, look, id)], s', id)
  {
    var x := Sighting(look.at, id in PresentIds(look));
    var s' := s + [x];
    StartsOfLonger(s, x);
    var begins := x.present && (s == [] || !s[|s| - 1].present);
    if begins {
      assert |s| !in Starts(s);
      assert LatestStart(s', |s|);
      if id in states {
        assert !states[id].active;
      }
    } else {
      if x.present {
        PresenceHasStart(s);
      }
      var k: nat :| LatestStart(s, k) && states[id].firstSeenAt == s[k].at;
      assert LatestStart(s', k) && s'[k] == s[k];
    }
  }

  lemma StatesAgreeAfter(b: PatrolBoard, history: seq<Look>, look: Look, id: IssueId)
    requires !Fails(b, look) && StateAgrees(b.states, Sightings(history, id), id)
    ensures StateAgrees(Inspect(b, look).states, Sightings(history + [look], id), id)
  {
    SightingsOfLonger(history, look, id);
    var s := Sightings(history, id);
    if look.facts.id == id.objectId {
      if id in b.states.Keys + PresentIds(look) {
        StateAgreesAfter(b.states, s, look, id);
      } else {
        StartsOfLonger(s, Sighting(look.at, false));
      }
    } else {
      assert s + [] == s;
    }
  }

  /** The state that an issue has during a look tells its episode and its start. */
  lemma RaisedMeans(b: PatrolBoard, history: seq<Look>, look: Look, id: IssueId)
    requires StateAgrees(b.states, Sightings(history, id), id) && id in PresentIds(look) && !Fails(b, look)
    ensures var longer := history + [look];
      && Raised(b.states, id, look.at).episode == EpisodeAt(longer, |history|, id)
      && (Due(look, id, Raised(b.states, id, look.at)) <==> DueAt(longer, |history|, id))
  {
    var longer := history + [look];
    assert longer[..|history| + 1] == longer;
    StatesAgreeAfter(b, history, look, id);
    var s := Sightings(longer, id);
    assert Inspect(b, look).states[id] == Raised(b.states, id, look.at);
    var k: nat :| LatestStart(s, k) && Inspect(b, look).states[id].firstSeenAt == s[k].at;
    assert forall j: nat :: LatestStart(s, j) ==> j == k;
  }

  lemma EarlierLooks(history: seq<Look>, look: Look, n: nat)
    requires n < |history|
    ensures (history + [look])[..n + 1] == history[..n + 1] && (history + [look])[n] == history[n]
  {
  }

  lemma EscalatedEarlier(history: seq<Look>, look: Look, n: nat, key: (IssueId, nat))
    requires n < |history|
    ensures EscalatedAt(history + [look], n, key) <==> EscalatedAt(history, n, key)
  {
    EarlierLooks(history, look, n);
  }

  lemma EscalatedNowMeans(b: PatrolBoard, history: seq<Look>, look: Look, key: (IssueId, nat))
    requires StateAgrees(b.states, Sightings(history, key.0), key.0) && !Fails(b, look)
    ensures EscalatedAt(history + [look], |history|, key) <==>
            && key.0 in PresentIds(look) && Due(look, key.0, Raised(b.states, key.0, look.at))
            && Raised(b.states, key.0, look.at).episode == key.1
  {
    if key.0 in PresentIds(look) {
      RaisedMeans(b, history, look, key.0);
    }
  }

  lemma EscalationAgreesAfter(b: PatrolBoard, history: seq<Look>, look: Look, key: (IssueId, nat))
    requires Agrees(b, history) && !Fails(b, look)
    ensures EscalationAgrees(Inspect(b, look), history + [look], key)
  {
    assert StateAgrees(b.states, Sightings(history, key.0), key.0);
    NewEscalationMeans(b, look, key);
    EscalatedNowMeans(b, history, look, key);
    EscalationRowAgrees(b, history, look, key);
  }

  lemma EscalationRowAgrees(b: PatrolBoard, history: seq<Look>, look: Look, key: (IssueId, nat))
    requires EscalationAgrees(b, history, key) && !Fails(b, look)
    requires key in NewEscalations(b, look) <==> EscalatedAt(history + [look], |history|, key) && key !in b.escalations
    ensures EscalationAgrees(Inspect(b, look), history + [look], key)
  {
    var longer := history + [look];
    var b' := Inspect(b, look);
    if key in b.escalations {
      var n: nat :| EscalatedAt(history, n, key) && history[n].manager.Some?
                    && b.escalations[key] == EscalationOf(history[n], key.0);
      EscalatedEarlier(history, look, n, key);
      assert EscalatedAt(longer, n, key) && b'.escalations[key] == EscalationOf(longer[n], key.0);
    } else if key in NewEscalations(b, look) {
      assert EscalatedAt(longer, |history|, key) && b'.escalations[key] == EscalationOf(longer[|history|], key.0);
    } else {
      forall n: nat
        ensures !EscalatedAt(longer, n, key)
      {
        if n < |history| {
          EscalatedEarlier(history, look, n, key);
        }
      }
    }
  }

  lemma InboxAgreesAfter(b: PatrolBoard, history: seq<Look>, look: Look, key: (IssueId, int))
    requires Agrees(b, history) && !Fails(b, look)
    ensures InboxAgrees(Inspect(b, look), history + [look], key)
  {
    var longer := history + [look];
    var b' := Inspect(b, look);
    assert InboxAgrees(b, history, key);
    assert longer[|history|] == look;
    NewInboxMeans(b, look, key);
    if key in b.inbox {
      var n: nat :| InboxedAt(history, n, key) && b.inbox[key] == Inboxed(history[n], key.0);
      EarlierLooks(history, look, n);
      assert InboxedAt(longer, n, key) && b'.inbox[key] == Inboxed(longer[n], key.0);
    } else if key in b'.inbox {
      assert InboxedAt(longer, |history|, key) && b'.inbox[key] == Inboxed(longer[|history|], key.0);
    }
    if n: nat :| InboxedAt(longer, n, key) {
      if n < |history| {
        EarlierLooks(history, look, n);
        assert InboxedAt(history, n, key);
      }
    }
  }

  lemma NoticeAgreesAfter(b: PatrolBoard, look: Look, topic: Topic)
    requires NoticeAgrees(b, topic) && !Fails(b, look)
    ensures NoticeAgrees(Inspect(b, look), topic)
  {
    NewTopicMeans(b, look, topic);
  }

  lemma InspectAgrees(b: PatrolBoard, history: seq<Look>, look: Look)
    requires Agrees(b, history) && !Fails(b, look)
    ensures Agrees(Inspect(b, look), history + [look])
  {
    forall id
      ensures StateAgrees(Inspect(b, look).states, Sightings(history + [look], id), id)
    {
      StatesAgreeAfter(b, history, look, id);
    }
    forall key
      ensures EscalationAgrees(Inspect(b, look), history + [look], key)
    {
      EscalationAgreesAfter(b, history, look, key);
    }
    forall key
      ensures InboxAgrees(Inspect(b, look), history + [look], key)
    {
      InboxAgreesAfter(b, history, look, key);
    }
    forall topic
      ensures NoticeAgrees(Inspect(b, look), topic)
    {
      NoticeAgreesAfter(b, look, topic);
    }
  }

  lemma {:induction false} InspectAllAgrees(b: PatrolBoard, history: seq<Look>, looks: seq<Look>)
    requires Agrees(b, history) && InspectAll(b, looks).Ok?
    ensures Agrees(InspectAll(b, looks).value, history + looks)
    decreases |looks|
  {
    if looks == [] {
      assert history + looks == history;
    } else {
      InspectAgrees(b, history, looks[0]);
      InspectAllAgrees(Inspect(b, looks[0]), history + [looks[0]], looks[1..]);
      assert history + [looks[0]] + looks[1..] == history + looks;
    }
  }
}
