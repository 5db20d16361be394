/** What the publication protocol guarantees over whole runs, and exactly where interruptions break it. */
module PublicationSafety {
  import opened Kinds
  import opened Results
  import opened Publication

  /** Two snapshots indexed together were written and indexed in dependency order. */
  ghost predicate InOrder(s: State, u: Id, d: Id)
    requires Bookkeeping(s) && u in s.rows && d in s.rows
  {
    s.wrote[u].at < s.wrote[d].at && s.rows[u].at < s.rows[d].at
  }

  predicate Feeds(u: Meta, d: Meta) {
    u.Snapshot() && d.Snapshot() && u.run == d.run && Upstream(u.kind, d.kind)
  }

  ghost predicate Fresh(s: State)
    requires Bookkeeping(s)
  {
    forall u, d :: u in s.rows && d in s.rows && Feeds(s.rows[u].meta, s.rows[d].meta) ==> InOrder(s, u, d)
  }

  /** An indexed upstream snapshot was written after `m`. */
  ghost predicate Overtaken(s: State, m: Meta)
    requires Bookkeeping(s) && m.id in s.wrote
  {
    exists u :: u in s.rows && Feeds(s.rows[u].meta, m) && s.wrote[m.id].at < s.wrote[u].at
  }

  // ----- freshness -----

  /** A publication that reads back through its manifest is newer than all that would disturb it. */
  lemma ManifestNotOvertaken(s: State, id: Id)
    requires Inv(s) && id in s.wrote && Readable(s.files, s.wrote[id].meta)
    requires s.files[s.wrote[id].meta.Path()].manifest.Some?
    ensures OnDisk(s.files, s.wrote[id].meta)
    ensures !Overtaken(s, s.wrote[id].meta)
  {
    var m := s.wrote[id].meta;
    assert Owned(s, m.Path(), s.files[m.Path()].manifest.value);
    forall u | u in s.rows && Feeds(s.rows[u].meta, m) ensures s.wrote[u].at < s.wrote[id].at {
      assert Disturbs(s.wrote[u].meta, m);
    }
  }

  /**
    Indexing a snapshot keeps freshness if and only if the read finds a manifest to check, or no indexed upstream
    snapshot was written after it.
   */
  lemma AddKeepsFreshIff(s: State, id: Id)
    requires Inv(s) && Fresh(s) && Enabled(s, Add(id)) && s.wrote[id].meta.Snapshot()
    requires Accepts(s.files, s.wrote[id].meta)
    ensures Inv(Apply(s, Add(id)))
    ensures Fresh(Apply(s, Add(id))) <==>
              s.files[s.wrote[id].meta.Path()].manifest.Some? || !Overtaken(s, s.wrote[id].meta)
  {
    StepPreserves(s, Add(id));
    if s.files[s.wrote[id].meta.Path()].manifest.Some? {
      ManifestNotOvertaken(s, id);
    }
    if Overtaken(s, s.wrote[id].meta) {
      OvertakenBreaks(s, id);
    } else {
      AddKeepsFresh(s, id);
    }
  }

  lemma OvertakenBreaks(s: State, id: Id)
    requires Bookkeeping(s) && Enabled(s, Add(id)) && Accepts(s.files, s.wrote[id].meta)
    requires Bookkeeping(Apply(s, Add(id))) && Overtaken(s, s.wrote[id].meta)
    ensures !Fresh(Apply(s, Add(id)))
  {
    var t := Apply(s, Add(id));
    var u :| u in s.rows && Feeds(s.rows[u].meta, s.wrote[id].meta) && s.wrote[id].at < s.wrote[u].at;
    assert u in t.rows && Feeds(t.rows[u].meta, t.rows[id].meta) && !InOrder(t, u, id);
  }

  lemma AddKeepsFresh(s: State, id: Id)
    requires Bookkeeping(s) && Fresh(s) && Enabled(s, Add(id)) && Accepts(s.files, s.wrote[id].meta)
    requires Bookkeeping(Apply(s, Add(id))) && s.wrote[id].meta.Snapshot() && !Overtaken(s, s.wrote[id].meta)
    ensures Fresh(Apply(s, Add(id)))
  {
    var t := Apply(s, Add(id));
    forall u, d | u in t.rows && d in t.rows && Feeds(t.rows[u].meta, t.rows[d].meta) ensures InOrder(t, u, d) {
      AddedInOrder(s, id, u, d);
    }
  }

  lemma AddedInOrder(s: State, id: Id, u: Id, d: Id)
    requires Bookkeeping(s) && Fresh(s) && Enabled(s, Add(id)) && Accepts(s.files, s.wrote[id].meta)
    requires Bookkeeping(Apply(s, Add(id))) && s.wrote[id].meta.Snapshot() && !Overtaken(s, s.wrote[id].meta)
    requires u in Apply(s, Add(id)).rows && d in Apply(s, Add(id)).rows
    requires Feeds(Apply(s, Add(id)).rows[u].meta, Apply(s, Add(id)).rows[d].meta)
    ensures InOrder(Apply(s, Add(id)), u, d)
  {
    var t := Apply(s, Add(id));
    if u == id {
      assert Hits(s.wrote[id].meta, t.rows[d].meta);
    } else if d == id {
      assert s.wrote[u].at != s.wrote[id].at;
    } else {
      assert InOrder(s, u, d);
    }
  }

  lemma StepKeepsFresh(s: State, step: Step)
    requires Inv(s) && Fresh(s) && !Torn(s.files) && Enabled(s, step)
    requires step.Interrupt? ==> !Torn(step.after)
    ensures Inv(Apply(s, step)) && Fresh(Apply(s, step)) && !Torn(Apply(s, step).files)
  {
    StepPreserves(s, step);
    StepKeepsUntorn(s, step);
    if step.Add? && s.wrote[step.id].meta.Snapshot() && Accepts(s.files, s.wrote[step.id].meta) {
      var p := s.wrote[step.id].meta.Path();
      assert p in s.files && s.files[p].manifest.Some?;
      AddKeepsFreshIff(s, step.id);
    } else {
      OtherStepKeepsFresh(s, step);
    }
  }

  lemma OtherStepKeepsFresh(s: State, step: Step)
    requires Bookkeeping(s) && Fresh(s) && Enabled(s, step) && Bookkeeping(Apply(s, step))
    requires !(step.Add? && s.wrote[step.id].meta.Snapshot() && Accepts(s.files, s.wrote[step.id].meta))
    ensures Fresh(Apply(s, step))
  {
    var t := Apply(s, step);
    forall u, d | u in t.rows && d in t.rows && Feeds(t.rows[u].meta, t.rows[d].meta) ensures InOrder(t, u, d) {
      assert InOrder(s, u, d);
    }
  }

  lemma StepKeepsUntorn(s: State, step: Step)
    requires !Torn(s.files) && Enabled(s, step) && (step.Interrupt? ==> !Torn(step.after))
    ensures !Torn(Apply(s, step).files)
  {
  }

  lemma {:induction false} RunKeepsFresh(s: State, steps: seq<Step>)
    requires Inv(s) && Fresh(s) && !Torn(s.files) && ValidRun(s, steps) && Untorn(steps)
    ensures Inv(Final(s, steps)) && Fresh(Final(s, steps)) && !Torn(Final(s, steps).files)
    decreases |steps|
  {
    if steps != [] {
      StepKeepsFresh(s, steps[0]);
      RunKeepsFresh(Apply(s, steps[0]), steps[1..]);
    }
  }

  /**
    Freshness under concurrency: in every interleaving of publishers, kills included as long as none leaves
    a torn directory, two indexed snapshots of a run were written and indexed in dependency order.
   */
  lemma FreshInEveryRun(steps: seq<Step>, u: Id, d: Id)
    requires ValidRun(INITIAL, steps) && Untorn(steps)
    requires u in Final(INITIAL, steps).rows && d in Final(INITIAL, steps).rows
    requires Feeds(Final(INITIAL, steps).rows[u].meta, Final(INITIAL, steps).rows[d].meta)
    ensures var s := Final(INITIAL, steps);
            u in s.wrote && d in s.wrote && s.wrote[u].at < s.wrote[d].at && s.rows[u].at < s.rows[d].at
  {
    RunKeepsFresh(INITIAL, steps);
    assert InOrder(Final(INITIAL, steps), u, d);
  }

  /** Every indexing of a snapshot found a manifest to check, or no indexed upstream snapshot was written later. */
  ghost predicate Checked(s: State, step: Step)
    requires Bookkeeping(s) && Enabled(s, step)
  {
    step.Add? && s.wrote[step.id].meta.Snapshot() && Accepts(s.files, s.wrote[step.id].meta) ==>
      s.files[s.wrote[step.id].meta.Path()].manifest.Some? || !Overtaken(s, s.wrote[step.id].meta)
  }

  ghost predicate AllChecked(s: State, steps: seq<Step>)
    requires Inv(s) && ValidRun(s, steps)
    decreases |steps|
  {
    steps != [] ==>
      (StepPreserves(s, steps[0]);
       Checked(s, steps[0]) && AllChecked(Apply(s, steps[0]), steps[1..]))
  }

  ghost predicate AlwaysFresh(s: State, steps: seq<Step>)
    requires Inv(s) && ValidRun(s, steps)
    decreases |steps|
  {
    && Fresh(s)
    && (steps != [] ==>
          (StepPreserves(s, steps[0]);
           AlwaysFresh(Apply(s, steps[0]), steps[1..])))
  }

  lemma StepFreshIff(s: State, step: Step)
    requires Inv(s) && Fresh(s) && Enabled(s, step) && Inv(Apply(s, step))
    ensures Fresh(Apply(s, step)) <==> Checked(s, step)
  {
    if step.Add? && s.wrote[step.id].meta.Snapshot() && Accepts(s.files, s.wrote[step.id].meta) {
      AddKeepsFreshIff(s, step.id);
    } else {
      OtherStepKeepsFresh(s, step);
    }
  }

  /** Exactly when a run keeps freshness all along, torn directories or not. */
  lemma {:induction false} AlwaysFreshIff(s: State, steps: seq<Step>)
    requires Inv(s) && Fresh(s) && ValidRun(s, steps)
    ensures AlwaysFresh(s, steps) <==> AllChecked(s, steps)
    decreases |steps|
  {
    if steps != [] {
      StepPreserves(s, steps[0]);
      StepFreshIff(s, steps[0]);
      if Checked(s, steps[0]) {
        AlwaysFreshIff(Apply(s, steps[0]), steps[1..]);
      }
    }
  }

  // ----- reads fail closed -----

  /**
    In every run, torn directories included: a successful read that finds a manifest finds the publication's own,
    and no completed write of its slot or of an upstream kind happened after it.
   */
  lemma IdentifiedReadIsCurrent(steps: seq<Step>, id: Id)
    requires ValidRun(INITIAL, steps) && id in Final(INITIAL, steps).wrote
    requires Readable(Final(INITIAL, steps).files, Final(INITIAL, steps).wrote[id].meta)
    requires Final(INITIAL, steps).files[Final(INITIAL, steps).wrote[id].meta.Path()].manifest.Some?
    ensures var s := Final(INITIAL, steps);
            && s.files[s.wrote[id].meta.Path()] == Dir(Some(s.wrote[id].meta), Some(s.wrote[id].meta.digest))
            && forall u :: u in s.wrote && u != id && Disturbs(s.wrote[u].meta, s.wrote[id].meta) ==>
                 s.wrote[u].at < s.wrote[id].at
  {
    RunPreserves(INITIAL, steps);
    ManifestNotOvertaken(Final(INITIAL, steps), id);
  }

  /**
    In a run without torn directories, a successful read of a published snapshot proves that no completed
    write of its slot or of an upstream kind happened after it.
   */
  lemma ReadProvesCurrent(steps: seq<Step>, id: Id, u: Id)
    requires ValidRun(INITIAL, steps) && Untorn(steps)
    requires id in Final(INITIAL, steps).wrote && u in Final(INITIAL, steps).wrote && u != id
    requires Readable(Final(INITIAL, steps).files, Final(INITIAL, steps).wrote[id].meta)
    requires Disturbs(Final(INITIAL, steps).wrote[u].meta, Final(INITIAL, steps).wrote[id].meta)
    ensures Final(INITIAL, steps).wrote[u].at < Final(INITIAL, steps).wrote[id].at
  {
    var s := Final(INITIAL, steps);
    RunKeepsFresh(INITIAL, steps);
    var p := s.wrote[id].meta.Path();
    assert p in s.files && s.files[p].manifest.Some?;
    IdentifiedReadIsCurrent(steps, id);
  }

  // ----- stale rows heal -----

  /**
    In every run an indexed publication reads back, or a pending publication that reads back was written after it
    and disturbs it, or a publication that was cut short did so.
   */
  lemma StaleRowsAreCovered(steps: seq<Step>, id: Id)
    requires ValidRun(INITIAL, steps) && id in Final(INITIAL, steps).rows
    ensures Covered(Final(INITIAL, steps), Final(INITIAL, steps).rows[id].meta)
  {
    RunPreserves(INITIAL, steps);
  }

  /** The pending publication that covers a stale row is accepted and deletes it. */
  lemma HealerDeletes(s: State, w: Id, id: Id)
    requires Inv(s) && id in s.rows && Healer(s, w, s.rows[id].meta)
    ensures Enabled(s, Add(w)) && w in Apply(s, Add(w)).rows && id !in Apply(s, Add(w)).rows
  {
  }

  /** Nothing is pending, so only a publication cut short after the row's write can have left it unreadable. */
  lemma QuietIndexReadsBack(steps: seq<Step>, id: Id)
    requires ValidRun(INITIAL, steps) && id in Final(INITIAL, steps).rows && Final(INITIAL, steps).pending == {}
    requires !Orphaned(Final(INITIAL, steps), Final(INITIAL, steps).rows[id].meta)
    ensures ReadContent(Final(INITIAL, steps).files, Final(INITIAL, steps).rows[id].meta)
            == Success(Final(INITIAL, steps).rows[id].meta.digest)
  {
    StaleRowsAreCovered(steps, id);
  }

  /** Publishers are killed only between their two halves. */
  ghost predicate WholeWrites(steps: seq<Step>) {
    forall i :: 0 <= i < |steps| ==> !steps[i].Interrupt?
  }

  /** What was cut short had been written in full. */
  ghost predicate LostWereWritten(s: State) {
    forall v :: v in s.lost ==> v.meta.id in s.wrote && s.wrote[v.meta.id] == v
  }

  lemma {:induction false} RunLosesWritten(s: State, steps: seq<Step>)
    requires Inv(s) && LostWereWritten(s) && ValidRun(s, steps) && WholeWrites(steps)
    ensures LostWereWritten(Final(s, steps))
    decreases |steps|
  {
    if steps != [] {
      StepPreserves(s, steps[0]);
      assert !steps[0].Interrupt?;
      StepLosesWritten(s, steps[0]);
      assert WholeWrites(steps[1..]);
      RunLosesWritten(Apply(s, steps[0]), steps[1..]);
    }
  }

  lemma StepLosesWritten(s: State, step: Step)
    requires Bookkeeping(s) && LostWereWritten(s) && Enabled(s, step) && !step.Interrupt?
    ensures LostWereWritten(Apply(s, step))
  {
  }

  /**
    Exactly when a row heals: with nothing pending and publishers killed only between their halves, a row reads
    back if and only if no publication cut short was written after it and disturbs it.
   */
  lemma QuietRowReadsBackIff(steps: seq<Step>, id: Id)
    requires ValidRun(INITIAL, steps) && WholeWrites(steps)
    requires id in Final(INITIAL, steps).rows && Final(INITIAL, steps).pending == {}
    ensures Readable(Final(INITIAL, steps).files, Final(INITIAL, steps).rows[id].meta) <==>
              !Orphaned(Final(INITIAL, steps), Final(INITIAL, steps).rows[id].meta)
  {
    var s := Final(INITIAL, steps);
    RunPreserves(INITIAL, steps);
    RunLosesWritten(INITIAL, steps);
    var e := s.rows[id].meta;
    if Readable(s.files, e) {
      forall v | v in s.lost ensures !Outdates(s, v, e) {
        if v.meta.id != id && Disturbs(v.meta, e) {
          ReadProvesCurrent(steps, id, v.meta.id);
        }
      }
    } else {
      StaleRowsAreCovered(steps, id);
    }
  }

  /** A publication that a later write disturbed never reads back again, as long as no directory is torn. */
  lemma {:induction false} OutdatedNeverReadsBack(s: State, steps: seq<Step>, id: Id, u: Id)
    requires Inv(s) && !Torn(s.files) && ValidRun(s, steps) && Untorn(steps)
    requires id in s.wrote && u in s.wrote && Outdates(s, s.wrote[u], s.wrote[id].meta)
    ensures !Readable(Final(s, steps).files, s.wrote[id].meta)
    decreases |steps|
  {
    if steps == [] {
      StaleNow(s, id, u);
    } else {
      StepPreserves(s, steps[0]);
      StepKeepsUntorn(s, steps[0]);
      StepKeepsWritten(s, steps[0]);
      OutdatedNeverReadsBack(Apply(s, steps[0]), steps[1..], id, u);
    }
  }

  lemma StaleNow(s: State, id: Id, u: Id)
    requires Inv(s) && !Torn(s.files)
    requires id in s.wrote && u in s.wrote && Outdates(s, s.wrote[u], s.wrote[id].meta)
    ensures !Readable(s.files, s.wrote[id].meta)
  {
    var p := s.wrote[id].meta.Path();
    if p in s.files && s.files[p].manifest.Some? {
      var m := s.files[p].manifest.value;
      assert Owned(s, p, m);
    }
  }

  lemma StepKeepsWritten(s: State, step: Step)
    requires Bookkeeping(s) && Enabled(s, step)
    ensures forall id :: id in s.wrote ==> id in Apply(s, step).wrote && Apply(s, step).wrote[id] == s.wrote[id]
  {
  }

  // ----- evidence and lineage -----

  /** Rows are immutable: an id that is not pending can only disappear from the index. */
  lemma {:induction false} RowsOnlyDisappear(s: State, steps: seq<Step>, id: Id)
    requires Inv(s) && ValidRun(s, steps) && id in s.used && id !in s.pending
    ensures id in Final(s, steps).rows ==> id in s.rows && Final(s, steps).rows[id] == s.rows[id]
    decreases |steps|
  {
    if steps != [] {
      StepPreserves(s, steps[0]);
      StepOnlyRemoves(s, steps[0], id);
      RowsOnlyDisappear(Apply(s, steps[0]), steps[1..], id);
    }
  }

  lemma StepOnlyRemoves(s: State, step: Step, id: Id)
    requires Bookkeeping(s) && Enabled(s, step) && id in s.used && id !in s.pending
    ensures id in Apply(s, step).used && id !in Apply(s, step).pending
    ensures id in Apply(s, step).rows ==> id in s.rows && Apply(s, step).rows[id] == s.rows[id]
  {
  }

  /** Trusted reports, human decisions and repair requests are never deleted from the index. */
  lemma {:induction false} EvidenceIsConserved(s: State, steps: seq<Step>, id: Id)
    requires Inv(s) && ValidRun(s, steps) && id in s.rows && !s.rows[id].meta.Snapshot()
    ensures id in Final(s, steps).rows && Final(s, steps).rows[id] == s.rows[id]
    decreases |steps|
  {
    if steps != [] {
      StepPreserves(s, steps[0]);
      StepConserves(s, steps[0], id);
      EvidenceIsConserved(Apply(s, steps[0]), steps[1..], id);
    }
  }

  lemma StepConserves(s: State, step: Step, id: Id)
    requires Bookkeeping(s) && Enabled(s, step) && id in s.rows && !s.rows[id].meta.Snapshot()
    ensures id in Apply(s, step).rows && Apply(s, step).rows[id] == s.rows[id]
  {
    if step.Add? {
      assert !Hits(s.wrote[step.id].meta, s.rows[id].meta) by {
        RecordsAreSpared(s.wrote[step.id].meta, s.rows[id].meta);
      }
    }
  }

  /** Only a snapshot hits anything, and of its own kind and producer only snapshots exist. */
  lemma RecordsAreSpared(m: Meta, record: Meta)
    requires !record.Snapshot()
    ensures !Hits(m, record)
  {
  }

  /**
    Lineage closure: whatever happens after `id` was indexed, while it stays indexed so does every upstream
    parent that was indexed with it.
   */
  lemma LineageStaysIndexed(s: State, id: Id, parent: Id, steps: seq<Step>)
    requires Inv(s) && Enabled(s, Add(id)) && Accepts(s.files, s.wrote[id].meta)
    requires parent in s.rows && parent in s.wrote[id].meta.parents && Feeds(s.rows[parent].meta, s.wrote[id].meta)
    requires ValidRun(Apply(s, Add(id)), steps) && id in Final(Apply(s, Add(id)), steps).rows
    ensures parent in Final(Apply(s, Add(id)), steps).rows
    ensures Final(Apply(s, Add(id)), steps).rows[parent] == s.rows[parent]
  {
    var t := Apply(s, Add(id));
    StepPreserves(s, Add(id));
    ParentIsRecorded(s, id, parent);
    ParentStays(t, id, parent, steps);
  }

  lemma ParentIsRecorded(s: State, id: Id, parent: Id)
    requires Bookkeeping(s) && Enabled(s, Add(id)) && Accepts(s.files, s.wrote[id].meta)
    requires parent in s.rows && parent in s.wrote[id].meta.parents && Feeds(s.rows[parent].meta, s.wrote[id].meta)
    ensures var t := Apply(s, Add(id));
            && id in t.rows && parent in t.rows[id].lineage && parent in t.rows && t.rows[parent] == s.rows[parent]
  {
  }

  /** A row's recorded lineage stays indexed as long as the row does. */
  lemma ParentStays(t: State, id: Id, parent: Id, steps: seq<Step>)
    requires Inv(t) && id in t.rows && parent in t.rows && parent in t.rows[id].lineage
    requires ValidRun(t, steps) && id in Final(t, steps).rows
    ensures parent in Final(t, steps).rows && Final(t, steps).rows[parent] == t.rows[parent]
  {
    RunPreserves(t, steps);
    RowsOnlyDisappear(t, steps, id);
    RowsOnlyDisappear(t, steps, parent);
    assert Ancestor(Final(t, steps).rows, parent, id);
  }

  // ----- where interruptions matter -----

  const SOURCE := Meta(0, 1, Integration, IntegratedSource, "trusted-integration-service", [], 7)
  const CHANGE := Meta(1, 1, Implementation, CodeChange, "backend-agent", [], 8)
  const KILLED := Meta(2, 1, Implementation, CodeChange, "backend-agent", [], 9)

  /** The source is written and pending; a writer of a code change is killed having removed only its manifest. */
  lemma TornSource() returns (steps: seq<Step>)
    ensures ValidRun(INITIAL, steps) && !Untorn(steps)
    ensures Final(INITIAL, steps) ==
            State(map[SOURCE.Path() := Dir(None, Some(7))], map[], map[0 := Written(SOURCE, 0)], {0},
                  {Written(KILLED, 1)}, {0, 2}, 2)
  {
    var s1 := Apply(INITIAL, Write(SOURCE));
    ExtendRun(INITIAL, [], Write(SOURCE));
    assert [] + [Write(SOURCE)] == [Write(SOURCE)];
    assert s1.files == map[SOURCE.Path() := Dir(Some(SOURCE), Some(7))];
    var torn: Files := map[SOURCE.Path() := Dir(None, Some(7))];
    assert Removed(s1.files, KILLED, SOURCE.Path()) && KILLED.Path() !in torn;
    assert Torn(torn) by { assert torn[SOURCE.Path()].content.Some?; }
    ExtendRun(INITIAL, [Write(SOURCE)], Interrupt(KILLED, torn));
    steps := [Write(SOURCE)] + [Interrupt(KILLED, torn)];
    assert steps[1] == Interrupt(KILLED, torn);
  }

  /** The next code change does not see the torn directory, and is indexed. */
  lemma UnseenTornSource() returns (steps: seq<Step>)
    ensures ValidRun(INITIAL, steps) && !Untorn(steps)
    ensures var s := Final(INITIAL, steps);
            && SOURCE.Path() in s.files && s.files[SOURCE.Path()] == Dir(None, Some(7))
            && s.rows == map[1 := Row(CHANGE, 3, {})]
            && s.wrote == map[0 := Written(SOURCE, 0), 1 := Written(CHANGE, 2)] && s.pending == {0}
  {
    var prefix := TornSource();
    var s := Final(INITIAL, prefix);
    assert SOURCE.Path() != CHANGE.Path();
    var t := Apply(s, Write(CHANGE));
    assert !Removed(s.files, CHANGE, SOURCE.Path());
    ExtendRun(INITIAL, prefix, Write(CHANGE));
    StillTorn(prefix, Write(CHANGE));
    assert Accepts(t.files, CHANGE);
    assert UpstreamParents(t.rows, CHANGE) == {};
    ExtendRun(INITIAL, prefix + [Write(CHANGE)], Add(1));
    StillTorn(prefix + [Write(CHANGE)], Add(1));
    steps := prefix + [Write(CHANGE)] + [Add(1)];
    assert Kept(t.rows, CHANGE) == map[];
  }

  /** Indexing through a torn directory while an indexed upstream snapshot is newer always breaks freshness. */
  lemma TornAddBreaksFreshness(s: State, id: Id, u: Id)
    requires Inv(s) && Fresh(s) && id in s.pending && s.wrote[id].meta.Snapshot()
    requires s.wrote[id].meta.Path() in s.files
    requires s.files[s.wrote[id].meta.Path()] == Dir(None, Some(s.wrote[id].meta.digest))
    requires u in s.rows && Feeds(s.rows[u].meta, s.wrote[id].meta) && s.wrote[id].at < s.wrote[u].at
    ensures Enabled(s, Add(id)) && Inv(Apply(s, Add(id))) && !Fresh(Apply(s, Add(id)))
  {
    AddKeepsFreshIff(s, id);
  }

  /** One indexed row is always in order with itself. */
  lemma SingleRowFresh(s: State, u: Id)
    requires Bookkeeping(s) && s.rows.Keys == {u}
    ensures Fresh(s)
  {
  }

  lemma StillTorn(steps: seq<Step>, step: Step)
    requires !Untorn(steps)
    ensures !Untorn(steps + [step])
  {
    var i :| 0 <= i < |steps| && steps[i].Interrupt? && Torn(steps[i].after);
    assert (steps + [step])[i] == steps[i];
  }

  /**
    Without the torn-directory condition freshness fails: the source reads back from its torn directory and is
    indexed although a newer code change is.
   */
  lemma TornDirectoryBreaksFreshness() returns (steps: seq<Step>)
    ensures ValidRun(INITIAL, steps) && !Untorn(steps)
    ensures Bookkeeping(Final(INITIAL, steps)) && !Fresh(Final(INITIAL, steps))
  {
    var prefix := UnseenTornSource();
    var s := Final(INITIAL, prefix);
    assert Inv(s) by { RunPreserves(INITIAL, prefix); }
    assert Fresh(s) by {
      assert s.rows.Keys == {1};
      SingleRowFresh(s, 1);
    }
    TornAddBreaksFreshness(s, 0, 1);
    ExtendRun(INITIAL, prefix, Add(0));
    StillTorn(prefix, Add(0));
    steps := prefix + [Add(0)];
  }

  /** A publisher killed between its halves leaves an unreadable row although nothing is pending. */
  lemma LostPublisherLeavesStaleRow() returns (steps: seq<Step>)
    ensures ValidRun(INITIAL, steps) && WholeWrites(steps)
    ensures var s := Final(INITIAL, steps);
            && s.pending == {} && 0 in s.rows && s.rows[0].meta == SOURCE && !Readable(s.files, SOURCE)
            && Orphaned(s, SOURCE)
  {
    var s1 := Apply(INITIAL, Write(SOURCE));
    ExtendRun(INITIAL, [], Write(SOURCE));
    assert [] + [Write(SOURCE)] == [Write(SOURCE)];
    assert Accepts(s1.files, SOURCE);
    var s2 := Apply(s1, Add(0));
    ExtendRun(INITIAL, [Write(SOURCE)], Add(0));
    var s3 := Apply(s2, Write(CHANGE));
    assert Removed(s2.files, CHANGE, SOURCE.Path());
    ExtendRun(INITIAL, [Write(SOURCE)] + [Add(0)], Write(CHANGE));
    ExtendRun(INITIAL, [Write(SOURCE)] + [Add(0)] + [Write(CHANGE)], Abandon(1));
    steps := [Write(SOURCE)] + [Add(0)] + [Write(CHANGE)] + [Abandon(1)];
    assert Outdates(Final(INITIAL, steps), Written(CHANGE, 2), SOURCE);
  }
}
