/** Orphan recovery: one pass over the daemon's inventory, and what its report says about every container. */
module Recovery {
  const JOB_PREFIX := "aidlc-sandbox-"

  predicate LowerHex(text: string) {
    forall c :: c in text ==> '0' <= c <= '9' || 'a' <= c <= 'f'
  }

  predicate IsJobName(name: string) {
    |name| == |JOB_PREFIX| + 32 && JOB_PREFIX <= name && LowerHex(name[|JOB_PREFIX|..])
  }

  predicate IsContainerId(id: string) {
    |id| == 64 && LowerHex(id)
  }

  function WithoutSlash(name: string): string {
    if name != "" && name[0] == '/' then name[1..] else name
  }

  /** What inspection shows; labels are empty when there are none. */
  datatype Definition = Definition(id: string, name: string, labels: map<string, string>)

  /** A listing of what is left of an id: whether the command succeeded and printed anything. */
  datatype Remains = Remains(ok: bool, blank: bool)

  /**
    How the world answers for one id. `Unreadable` is a failed inspection with the listing that follows it;
    `Shown` a definition, whether its lease is free, and the listing after the removal; `Breaks` stands for
    every error that ends the pass.
   */
  datatype Answer =
    | Unreadable(left: Remains)
    | Shown(definition: Definition, free: bool, left: Remains)
    | Breaks

  datatype Fate = Gone | Failing | Ignoring | Leased | Removing | Breaking

  datatype Status = Done | Faulty | Unavailable

  datatype Report = Report(
    status: Status, removed: seq<string>, active: seq<string>, ignored: seq<string>, failed: seq<string>, aborted: bool)

  const NOTHING := Report(Done, [], [], [], [], false)

  predicate Absent(left: Remains) {
    left.ok && left.blank
  }

  predicate HasLabel(labels: map<string, string>, key: string, value: string) {
    key in labels && labels[key] == value
  }

  /** A container of this owner, under the job name its labels say. */
  predicate OwnJob(owner: string, id: string, d: Definition) {
    var name := WithoutSlash(d.name);
    && d.id == id && IsJobName(name)
    && HasLabel(d.labels, "aidlc.sandbox", "true") && HasLabel(d.labels, "aidlc.owner", owner)
    && HasLabel(d.labels, "aidlc.job", name)
  }

  function FateOf(owner: string, id: string, answer: Answer): Fate {
    match answer
    case Unreadable(left) => if Absent(left) then Gone else Failing
    case Shown(d, free, left) =>
      if !OwnJob(owner, id, d) then Ignoring
      else if !free then Leased
      else if Absent(left) then Removing
      else Failing
    case Breaks => Breaking
  }

  function Fates(owner: string, ids: seq<string>, answers: seq<Answer>): (fates: seq<Fate>)
    requires |ids| == |answers|
    ensures |fates| == |ids| && forall i :: 0 <= i < |ids| ==> fates[i] == FateOf(owner, ids[i], answers[i])
  {
    seq(|ids|, i requires 0 <= i < |ids| => FateOf(owner, ids[i], answers[i]))
  }

  /** The ids among the first `n` with a given fate, in order. */
  function Pick(ids: seq<string>, fates: seq<Fate>, n: nat, fate: Fate): seq<string>
    requires n <= |ids| == |fates|
  {
    if n == 0 then [] else Pick(ids, fates, n - 1, fate) + if fates[n - 1] == fate then [ids[n - 1]] else []
  }

  /** How far the pass comes: to the first answer that breaks it. */
  function Reach(answers: seq<Answer>): (n: nat)
    ensures n <= |answers| && (n < |answers| ==> answers[n].Breaks?)
    ensures forall i :: 0 <= i < n ==> !answers[i].Breaks?
  {
    if answers == [] || answers[0].Breaks? then 0 else 1 + Reach(answers[1..])
  }

  predicate BadInventory(listed: bool, ids: seq<string>) {
    !listed || |ids| > 1000 || exists id :: id in ids && !IsContainerId(id)
  }

  function PassReport(owner: string, docker: bool, listed: bool, ids: seq<string>, answers: seq<Answer>): Report
    requires |ids| == |answers|
  {
    if !docker then NOTHING.(status := Unavailable)
    else if BadInventory(listed, ids) then NOTHING.(status := Faulty, aborted := true)
    else
      var n := Reach(answers);
      var fates := Fates(owner, ids, answers);
      var failed := Pick(ids, fates, n, Failing);
      Report(if n == |ids| && failed == [] then Done else Faulty,
             Pick(ids, fates, n, Removing), Pick(ids, fates, n, Leased),
             Pick(ids, fates, n, Ignoring), failed, n < |ids|)
  }

  method AllContainerIds(ids: seq<string>) returns (ok: bool)
    ensures ok <==> forall id :: id in ids ==> IsContainerId(id)
  {
    for i := 0 to |ids|
      invariant forall j :: 0 <= j < i ==> IsContainerId(ids[j])
    {
      if !IsContainerId(ids[i]) {
        return false;
      }
    }
    return true;
  }

  /** One id: inspected, checked against its labels, leased, removed and looked for again. */
  method Classify(owner: string, id: string, answer: Answer) returns (fate: Fate)
    ensures fate == FateOf(owner, id, answer)
  {
    match answer {
      case Breaks => return Breaking;
      case Unreadable(left) =>
        if !left.ok || !left.blank {
          return Failing;
        }
        return Gone;
      case Shown(d, free, left) =>
        var name := WithoutSlash(d.name);
        if d.id != id || !IsJobName(name) || !HasLabel(d.labels, "aidlc.sandbox", "true")
           || !HasLabel(d.labels, "aidlc.owner", owner) || !HasLabel(d.labels, "aidlc.job", name) {
          return Ignoring;
        }
        if !free {
          return Leased;
        }
        if !left.ok || !left.blank {
          return Failing;
        }
        return Removing;
    }
  }

  /** One pass, if the `docker` client is installed: only owner-bound jobs whose lease is free are removed, and only a confirmed absence counts as removed. */
  method Reconcile(owner: string, docker: bool, listed: bool, ids: seq<string>, answers: seq<Answer>)
    returns (report: Report)
    requires |ids| == |answers|
    ensures report == PassReport(owner, docker, listed, ids, answers)
  {
    report := NOTHING;
    if !docker {
      return report.(status := Unavailable);
    }
    ghost var fates := Fates(owner, ids, answers);
    var valid := AllContainerIds(ids);
    if !listed || |ids| > 1000 || !valid {
      return report.(status := Faulty, aborted := true);
    }
    var i := 0;
    while i < |ids| && !answers[i].Breaks?
      invariant i <= |ids| && forall j :: 0 <= j < i ==> !answers[j].Breaks?
      invariant report.status == Done && !report.aborted
      invariant report.removed == Pick(ids, fates, i, Removing)
      invariant report.active == Pick(ids, fates, i, Leased)
      invariant report.ignored == Pick(ids, fates, i, Ignoring)
      invariant report.failed == Pick(ids, fates, i, Failing)
    {
      var fate := Classify(owner, ids[i], answers[i]);
      match fate {
        case Failing => report := report.(failed := report.failed + [ids[i]]);
        case Ignoring => report := report.(ignored := report.ignored + [ids[i]]);
        case Leased => report := report.(active := report.active + [ids[i]]);
        case Removing => report := report.(removed := report.removed + [ids[i]]);
        case Gone =>
        case Breaking =>
      }
      i := i + 1;
    }
    ReachIs(answers, i);
    if i < |ids| {
      report := report.(status := Faulty, aborted := true);
    } else if report.failed != [] {
      report := report.(status := Faulty);
    }
  }

  lemma {:induction false} ReachIs(answers: seq<Answer>, n: nat)
    requires n <= |answers| && (n < |answers| ==> answers[n].Breaks?)
    requires forall i :: 0 <= i < n ==> !answers[i].Breaks?
    ensures Reach(answers) == n
  {
    if n > 0 {
      ReachIs(answers[1..], n - 1);
    }
  }

  // ----- what a report says -----

  /** How often an id is listed. */
  function Count(ids: seq<string>, id: string): nat {
    if ids == [] then 0 else Count(ids[..|ids| - 1], id) + if ids[|ids| - 1] == id then 1 else 0
  }

  /** How often an id occurs with a fate among the first `n`. */
  function Tally(ids: seq<string>, fates: seq<Fate>, n: nat, fate: Fate, id: string): nat
    requires n <= |ids| == |fates|
  {
    if n == 0 then 0
    else Tally(ids, fates, n - 1, fate, id) + if fates[n - 1] == fate && ids[n - 1] == id then 1 else 0
  }

  lemma CountExtends(ids: seq<string>, last: string, id: string)
    ensures Count(ids + [last], id) == Count(ids, id) + if last == id then 1 else 0
  {
    assert (ids + [last])[..|ids|] == ids;
  }

  lemma {:induction false} PickTally(ids: seq<string>, fates: seq<Fate>, n: nat, fate: Fate, id: string)
    requires n <= |ids| == |fates|
    ensures Count(Pick(ids, fates, n, fate), id) == Tally(ids, fates, n, fate, id)
  {
    if n > 0 {
      PickTally(ids, fates, n - 1, fate, id);
      var before := Pick(ids, fates, n - 1, fate);
      if fates[n - 1] == fate {
        CountExtends(before, ids[n - 1], id);
      } else {
        assert before + [] == before;
      }
    }
  }

  lemma {:induction false} TalliesAddUp(ids: seq<string>, fates: seq<Fate>, n: nat, id: string)
    requires n <= |ids| == |fates| && forall i :: 0 <= i < n ==> fates[i] != Breaking
    ensures Count(ids[..n], id) ==
              Tally(ids, fates, n, Removing, id) + Tally(ids, fates, n, Leased, id) + Tally(ids, fates, n, Ignoring, id)
              + Tally(ids, fates, n, Failing, id) + Tally(ids, fates, n, Gone, id)
  {
    if n > 0 {
      TalliesAddUp(ids, fates, n - 1, id);
      CountPrefix(ids, n, id);
    }
  }

  lemma CountPrefix(ids: seq<string>, n: nat, id: string)
    requires 0 < n <= |ids|
    ensures Count(ids[..n], id) == Count(ids[..n - 1], id) + if ids[n - 1] == id then 1 else 0
  {
    CountExtends(ids[..n - 1], ids[n - 1], id);
    assert ids[..n] == ids[..n - 1] + [ids[n - 1]];
  }

  lemma FatesPartition(ids: seq<string>, fates: seq<Fate>, n: nat, id: string)
    requires n <= |ids| == |fates| && forall i :: 0 <= i < n ==> fates[i] != Breaking
    ensures Count(ids[..n], id) ==
              Count(Pick(ids, fates, n, Removing), id) + Count(Pick(ids, fates, n, Leased), id)
              + Count(Pick(ids, fates, n, Ignoring), id) + Count(Pick(ids, fates, n, Failing), id)
              + Count(Pick(ids, fates, n, Gone), id)
  {
    TalliesAddUp(ids, fates, n, id);
    PickTally(ids, fates, n, Removing, id);
    PickTally(ids, fates, n, Leased, id);
    PickTally(ids, fates, n, Ignoring, id);
    PickTally(ids, fates, n, Failing, id);
    PickTally(ids, fates, n, Gone, id);
  }

  lemma {:induction false} PickIff(ids: seq<string>, fates: seq<Fate>, n: nat, fate: Fate, id: string)
    requires n <= |ids| == |fates|
    ensures id in Pick(ids, fates, n, fate) <==> exists i :: 0 <= i < n && ids[i] == id && fates[i] == fate
  {
    if n > 0 {
      PickIff(ids, fates, n - 1, fate, id);
    }
  }

  /** Ids that inspection no longer shows and a listing confirms gone; the report does not name them. */
  function ConfirmedGone(owner: string, ids: seq<string>, answers: seq<Answer>): seq<string>
    requires |ids| == |answers|
  {
    Pick(ids, Fates(owner, ids, answers), Reach(answers), Gone)
  }

  /** A pass that is not broken off puts every inventoried id into exactly one class, as often as it was listed. */
  lemma EveryIdIsClassifiedOnce(owner: string, ids: seq<string>, answers: seq<Answer>, id: string)
    requires |ids| == |answers| && !PassReport(owner, true, true, ids, answers).aborted
    ensures var r := PassReport(owner, true, true, ids, answers);
            Count(ids, id) == Count(r.removed, id) + Count(r.active, id) + Count(r.ignored, id) + Count(r.failed, id)
                              + Count(ConfirmedGone(owner, ids, answers), id)
  {
    FatesPartition(ids, Fates(owner, ids, answers), Reach(answers), id);
    assert ids[..|ids|] == ids;
  }

  predicate Confirmed(owner: string, id: string, answer: Answer) {
    answer.Shown? && OwnJob(owner, id, answer.definition) && answer.free && Absent(answer.left)
  }

  lemma ConfirmedIff(owner: string, id: string, answer: Answer)
    ensures FateOf(owner, id, answer) == Removing <==> Confirmed(owner, id, answer)
  {
  }

  /** Removed means: this owner's job, its lease held by the recovery, and its absence confirmed afterwards. */
  lemma RemovedIff(owner: string, ids: seq<string>, answers: seq<Answer>, id: string)
    requires |ids| == |answers| && !BadInventory(true, ids)
    ensures id in PassReport(owner, true, true, ids, answers).removed <==>
              exists i :: 0 <= i < Reach(answers) && ids[i] == id && Confirmed(owner, id, answers[i])
  {
    PickIff(ids, Fates(owner, ids, answers), Reach(answers), Removing, id);
    forall i | 0 <= i < |ids| ensures Fates(owner, ids, answers)[i] == Removing <==> Confirmed(owner, ids[i], answers[i]) {
      ConfirmedIff(owner, ids[i], answers[i]);
    }
  }

  /** Jobs start only after a pass that accounted for every id without a failure. */
  lemma DoneIff(owner: string, docker: bool, listed: bool, ids: seq<string>, answers: seq<Answer>)
    requires |ids| == |answers|
    ensures PassReport(owner, docker, listed, ids, answers).status == Done <==>
              && docker && !BadInventory(listed, ids)
              && forall i :: 0 <= i < |ids| ==> FateOf(owner, ids[i], answers[i]) !in {Failing, Breaking}
  {
    if !BadInventory(listed, ids) {
      var n, fates := Reach(answers), Fates(owner, ids, answers);
      forall i | 0 <= i < n && fates[i] == Failing ensures Pick(ids, fates, n, Failing) != [] {
        PickIff(ids, fates, n, Failing, ids[i]);
      }
      var failed := Pick(ids, fates, n, Failing);
      if failed != [] {
        PickIff(ids, fates, n, Failing, failed[0]);
      }
    }
  }
}
