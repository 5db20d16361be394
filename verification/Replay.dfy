/** What a repeated message is shown: the stored task, then its changes, without executing again. */
module Replay {
  import opened Results
  import opened Tasks

  /** A task's whole status; two statuses can differ in message or time alone. */
  datatype TaskStatus = TaskStatus(state: TaskState, note: Note, timestamp: nat)

  /** A stored task at one poll; artifact ids in order. */
  datatype Snapshot = Snapshot(artifacts: seq<Name>, status: TaskStatus)

  datatype Event = Shown(task: Snapshot) | Artifact(id: Name) | Status(status: TaskStatus)

  /** `NotFound` when the task was deleted while it was watched. */
  datatype Ending = Settled | NotFound | Watching

  predicate Interrupting(status: TaskStatus) {
    status.state !in {Submitted, Working}
  }

  function IdSet(ids: seq<Name>): set<Name> {
    set id | id in ids
  }

  /** The ids among `ids` that are new, each once, in order. */
  function NewOnes(seen: set<Name>, ids: seq<Name>): seq<Name> {
    if ids == [] then []
    else
      var n := |ids| - 1;
      var before := NewOnes(seen, ids[..n]);
      if ids[n] in seen || ids[n] in ids[..n] then before else before + [ids[n]]
  }

  predicate Found(polls: seq<Option<Snapshot>>, n: nat)
    requires n <= |polls|
  {
    forall i :: 0 <= i < n ==> polls[i].Some?
  }

  /** The artifact ids shown over the first `n` polls. */
  function SeenAfter(first: Snapshot, polls: seq<Option<Snapshot>>, n: nat): set<Name>
    requires n <= |polls| && Found(polls, n)
  {
    if n == 0 then IdSet(first.artifacts) else SeenAfter(first, polls, n - 1) + IdSet(polls[n - 1].value.artifacts)
  }

  function StatusAfter(first: Snapshot, polls: seq<Option<Snapshot>>, n: nat): TaskStatus
    requires n <= |polls| && Found(polls, n)
  {
    if n == 0 then first.status else polls[n - 1].value.status
  }

  function ArtifactEvents(ids: seq<Name>): seq<Event> {
    if ids == [] then [] else ArtifactEvents(ids[..|ids| - 1]) + [Artifact(ids[|ids| - 1])]
  }

  function Emitted(first: Snapshot, polls: seq<Option<Snapshot>>, n: nat): seq<Event>
    requires n <= |polls| && Found(polls, n)
  {
    if n == 0 then [Shown(first)]
    else
      Emitted(first, polls, n - 1)
      + ArtifactEvents(NewOnes(SeenAfter(first, polls, n - 1), polls[n - 1].value.artifacts))
      + (if polls[n - 1].value.status != StatusAfter(first, polls, n - 1) then [Status(polls[n - 1].value.status)] else [])
  }

  /** How many polls are shown: none once the state interrupts or the task is not found. */
  function Polled(first: Snapshot, polls: seq<Option<Snapshot>>): (n: nat)
    ensures n <= |polls| && Found(polls, n)
    decreases |polls|
  {
    if Interrupting(first.status) || polls == [] || polls[0].None? then 0
    else
      var n := Polled(polls[0].value, polls[1..]);
      assert forall i :: 0 < i <= n ==> polls[i] == polls[1..][i - 1];
      1 + n
  }

  lemma {:induction false} PolledIs(first: Snapshot, polls: seq<Option<Snapshot>>, n: nat)
    requires n <= |polls| && Found(polls, n)
    requires forall i :: 0 <= i < n ==> !Interrupting(StatusAfter(first, polls, i))
    requires Interrupting(StatusAfter(first, polls, n)) || n == |polls| || polls[n].None?
    ensures Polled(first, polls) == n
    decreases n
  {
    if n > 0 {
      assert !Interrupting(StatusAfter(first, polls, 0));
      var second, rest := polls[0].value, polls[1..];
      forall i | 0 <= i < n - 1 ensures !Interrupting(StatusAfter(second, rest, i)) {
        assert StatusAfter(second, rest, i) == StatusAfter(first, polls, i + 1);
      }
      PolledIs(second, rest, n - 1);
    }
  }

  /** The loop of the replay: poll, announce what is new, stop at an interrupting state or a deleted task. */
  method Follow(first: Snapshot, polls: seq<Option<Snapshot>>) returns (events: seq<Event>, ending: Ending)
    ensures var n := Polled(first, polls);
            && events == Emitted(first, polls, n)
            && (ending == Settled <==> Interrupting(StatusAfter(first, polls, n)))
            && (ending == NotFound <==> !Interrupting(StatusAfter(first, polls, n)) && n < |polls| && polls[n].None?)
  {
    events := [Shown(first)];
    var seen := IdSet(first.artifacts);
    var task := first;
    var n := 0;
    while n < |polls| && !Interrupting(task.status) && polls[n].Some?
      invariant n <= |polls| && Found(polls, n)
      invariant forall i :: 0 <= i < n ==> !Interrupting(StatusAfter(first, polls, i))
      invariant task.status == StatusAfter(first, polls, n)
      invariant seen == SeenAfter(first, polls, n)
      invariant events == Emitted(first, polls, n)
    {
      var latest := polls[n].value;
      var news;
      seen, news := Announce(seen, latest.artifacts);
      events := events + news;
      if latest.status != task.status {
        events := events + [Status(latest.status)];
      }
      task := latest;
      n := n + 1;
    }
    PolledIs(first, polls, n);
    ending := if Interrupting(task.status) then Settled else if n < |polls| then NotFound else Watching;
  }

  method Announce(seen: set<Name>, artifacts: seq<Name>) returns (after: set<Name>, events: seq<Event>)
    ensures after == seen + IdSet(artifacts)
    ensures events == ArtifactEvents(NewOnes(seen, artifacts))
  {
    after, events := seen, [];
    for i := 0 to |artifacts|
      invariant after == seen + IdSet(artifacts[..i])
      invariant events == ArtifactEvents(NewOnes(seen, artifacts[..i]))
    {
      var id := artifacts[i];
      ghost var before := NewOnes(seen, artifacts[..i]);
      assert artifacts[..i + 1][..i] == artifacts[..i];
      if id !in after {
        after := after + {id};
        events := events + [Artifact(id)];
        assert (before + [id])[..|before|] == before;
      }
    }
    assert artifacts[..|artifacts|] == artifacts;
  }

  // ----- what a watcher sees -----

  function Ids(events: seq<Event>): seq<Name> {
    if events == [] then []
    else
      var last := events[|events| - 1];
      Ids(events[..|events| - 1]) + if last.Artifact? then [last.id] else []
  }

  lemma {:induction false} IdsAppend(a: seq<Event>, b: seq<Event>)
    ensures Ids(a + b) == Ids(a) + Ids(b)
  {
    if b == [] {
      assert a + b == a;
    } else {
      IdsAppend(a, b[..|b| - 1]);
      assert (a + b)[..|a + b| - 1] == a + b[..|b| - 1];
    }
  }

  lemma {:induction false} IdsOfArtifacts(ids: seq<Name>)
    ensures Ids(ArtifactEvents(ids)) == ids
  {
    if ids != [] {
      var n := |ids| - 1;
      IdsOfArtifacts(ids[..n]);
      assert ArtifactEvents(ids)[..|ArtifactEvents(ids)| - 1] == ArtifactEvents(ids[..n]);
    }
  }

  ghost predicate Once(ids: seq<Name>) {
    forall i, j :: 0 <= i < j < |ids| ==> ids[i] != ids[j]
  }

  /** Announced exactly once: what has been seen beyond the first snapshot. */
  ghost predicate Exact(told: seq<Name>, seen: set<Name>, first: set<Name>) {
    Once(told) && forall id :: id in told <==> id in seen && id !in first
  }

  lemma {:induction false} NewOnesAreNew(seen: set<Name>, ids: seq<Name>)
    ensures Once(NewOnes(seen, ids))
    ensures forall id :: id in NewOnes(seen, ids) <==> id in ids && id !in seen
  {
    if ids != [] {
      var n := |ids| - 1;
      NewOnesAreNew(seen, ids[..n]);
      assert ids == ids[..n] + [ids[n]];
    }
  }

  /** The ids announced over the first `n` polls. */
  function Announced(first: Snapshot, polls: seq<Option<Snapshot>>, n: nat): seq<Name>
    requires n <= |polls| && Found(polls, n)
  {
    if n == 0 then []
    else Announced(first, polls, n - 1) + NewOnes(SeenAfter(first, polls, n - 1), polls[n - 1].value.artifacts)
  }

  lemma {:induction false} AnnouncedIds(first: Snapshot, polls: seq<Option<Snapshot>>, n: nat)
    requires n <= |polls| && Found(polls, n)
    ensures Ids(Emitted(first, polls, n)) == Announced(first, polls, n)
  {
    if n == 0 {
      assert Ids([Shown(first)]) == Ids([Shown(first)][..0]);
    } else {
      AnnouncedIds(first, polls, n - 1);
      var latest := polls[n - 1].value;
      var news := NewOnes(SeenAfter(first, polls, n - 1), latest.artifacts);
      var status := if latest.status != StatusAfter(first, polls, n - 1) then [Status(latest.status)] else [];
      PollAppends(Emitted(first, polls, n - 1), news, status);
    }
  }

  lemma PollAppends(before: seq<Event>, news: seq<Name>, status: seq<Event>)
    requires |status| <= 1 && (status != [] ==> status[0].Status?)
    ensures Ids(before + ArtifactEvents(news) + status) == Ids(before) + news
  {
    IdsOfArtifacts(news);
    IdsAppend(before, ArtifactEvents(news));
    IdsAppend(before + ArtifactEvents(news), status);
    assert Ids(status) == [];
  }

  lemma {:induction false} AnnouncedOnce(first: Snapshot, polls: seq<Option<Snapshot>>, n: nat)
    requires n <= |polls| && Found(polls, n)
    ensures Exact(Announced(first, polls, n), SeenAfter(first, polls, n), IdSet(first.artifacts))
  {
    if n > 0 {
      AnnouncedOnce(first, polls, n - 1);
      FirstIsSeen(first, polls, n - 1);
      MoreOnce(Announced(first, polls, n - 1), SeenAfter(first, polls, n - 1), IdSet(first.artifacts),
               polls[n - 1].value.artifacts);
    }
  }

  /**
    Nothing is lost and nothing repeated: after any number of polls every artifact the task ever showed was in
    the first snapshot or announced, exactly once, and never both.
   */
  lemma EveryArtifactOnce(first: Snapshot, polls: seq<Option<Snapshot>>, n: nat)
    requires n <= |polls| && Found(polls, n)
    ensures Exact(Ids(Emitted(first, polls, n)), SeenAfter(first, polls, n), IdSet(first.artifacts))
  {
    AnnouncedIds(first, polls, n);
    AnnouncedOnce(first, polls, n);
  }

  /** Announcing what is new keeps an announcement list exact. */
  lemma MoreOnce(told: seq<Name>, seen: set<Name>, first: set<Name>, ids: seq<Name>)
    requires first <= seen && Exact(told, seen, first)
    ensures Exact(told + NewOnes(seen, ids), seen + IdSet(ids), first)
  {
    NewOnesAreNew(seen, ids);
    var news := NewOnes(seen, ids);
    forall i, j | 0 <= i < j < |told + news| ensures (told + news)[i] != (told + news)[j] {
      if i < |told| <= j {
        assert told[i] in told && news[j - |told|] in news;
      }
    }
  }

  lemma {:induction false} FirstIsSeen(first: Snapshot, polls: seq<Option<Snapshot>>, n: nat)
    requires n <= |polls| && Found(polls, n)
    ensures IdSet(first.artifacts) <= SeenAfter(first, polls, n)
  {
    if n > 0 {
      FirstIsSeen(first, polls, n - 1);
    }
  }

  /** The status the events leave a watcher with. */
  function Told(events: seq<Event>): Option<TaskStatus> {
    if events == [] then None
    else
      match events[|events| - 1]
      case Shown(task) => Some(task.status)
      case Status(status) => Some(status)
      case Artifact(_) => Told(events[..|events| - 1])
  }

  lemma {:induction false} ArtifactsTellNothing(events: seq<Event>, ids: seq<Name>)
    ensures Told(events + ArtifactEvents(ids)) == Told(events)
  {
    if ids == [] {
      assert events + [] == events;
    } else {
      ArtifactsTellNothing(events, ids[..|ids| - 1]);
      var all := events + ArtifactEvents(ids);
      assert all[..|all| - 1] == events + ArtifactEvents(ids[..|ids| - 1]);
    }
  }

  /** A watcher is always left with the status of the last poll. */
  lemma {:induction false} WatcherIsUpToDate(first: Snapshot, polls: seq<Option<Snapshot>>, n: nat)
    requires n <= |polls| && Found(polls, n)
    ensures Told(Emitted(first, polls, n)) == Some(StatusAfter(first, polls, n))
  {
    if n > 0 {
      WatcherIsUpToDate(first, polls, n - 1);
      var news := NewOnes(SeenAfter(first, polls, n - 1), polls[n - 1].value.artifacts);
      ArtifactsTellNothing(Emitted(first, polls, n - 1), news);
      var before := Emitted(first, polls, n - 1) + ArtifactEvents(news);
      if polls[n - 1].value.status != StatusAfter(first, polls, n - 1) {
        assert (before + [Status(polls[n - 1].value.status)])[..|before|] == before;
      } else {
        assert before + [] == before;
      }
    }
  }
}
