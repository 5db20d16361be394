/**
  The snapshot publication protocol. A publisher first writes files under the project lock and
  later indexes them in the database; any number of publishers interleave, and a process can be
  killed inside or between the two steps. Digests stand for contents: SHA-256 is taken to be
  collision free.
 */
module Publication {
  import opened Kinds
  import opened Results

  type Id = nat
  type RunId = nat
  type Digest = nat

  const TRUSTED_SANDBOX := "trusted-sandbox-service"

  /** Where a publication lives on disk: a shared slot for snapshots, an own directory for records. */
  datatype Path =
    | Current(run: RunId, stage: Stage, producer: string, kind: Kind)
    | Record(run: RunId, stage: Stage, id: Id)

  datatype Meta = Meta(id: Id, run: RunId, stage: Stage, kind: Kind, producer: string, parents: seq<Id>, digest: Digest)
  {
    predicate Snapshot() {
      0 <= Rank(kind) && producer != TRUSTED_SANDBOX
    }

    function Path(): Path {
      if Snapshot() then Current(run, stage, producer, kind) else Record(run, stage, id)
    }
  }

  /** A directory on disk; a killed process can leave either file missing. */
  datatype Dir = Dir(manifest: Option<Meta>, content: Option<Digest>)

  type Files = map<Path, Dir>

  datatype ReadError = Missing | Superseded | Corrupt

  /** An indexed row: its metadata, its insertion time and the upstream parents indexed at that time. */
  datatype Row = Row(meta: Meta, at: nat, lineage: set<Id>)

  type Rows = map<Id, Row>

  datatype Written = Written(meta: Meta, at: nat)

  /** `wrote` and `lost` are history: completed writes with their times, and publications cut short. */
  datatype State = State(
    files: Files, rows: Rows, wrote: map<Id, Written>, pending: set<Id>, lost: set<Written>, used: set<Id>, clock: nat)

  const INITIAL := State(map[], map[], map[], {}, {}, {}, 0)

  datatype Step =
    | Write(meta: Meta)
    | Interrupt(meta: Meta, after: Files)
    | Add(id: Id)
    | Abandon(id: Id)

  // ----- the two halves of a publication -----

  /** What indexing `m` deletes: its own slot, and every snapshot strictly downstream of it. */
  predicate Hits(m: Meta, other: Meta) {
    m.Snapshot() && m.run == other.run
    && ((other.kind == m.kind && other.producer == m.producer) || (other.Snapshot() && Upstream(m.kind, other.kind)))
  }

  predicate Removed(files: Files, m: Meta, p: Path) {
    p in files && m.Snapshot() && p.Current? && p.run == m.run
    && files[p].manifest.Some? && Upstream(m.kind, files[p].manifest.value.kind)
  }

  function WriteFiles(files: Files, m: Meta): Files {
    (map p | p in files && !Removed(files, m, p) :: files[p])[m.Path() := Dir(Some(m), Some(m.digest))]
  }

  /** The tree a process killed anywhere inside `write` can leave behind. */
  ghost predicate InterruptOutcome(files: Files, m: Meta, after: Files) {
    && (forall p :: p in after ==> p in files || p == m.Path())
    && (forall p :: p in files && !Removed(files, m, p) ==> p in after)
    && (forall p :: p in after && p in files && p != m.Path() ==>
          if Removed(files, m, p) then PartOf(after[p], files[p]) else after[p] == files[p])
    && (m.Path() in after ==>
          var before := if m.Path() in files then files[m.Path()] else Dir(None, None);
          && after[m.Path()].manifest == before.manifest
          && after[m.Path()].content in {before.content, Some(m.digest)})
  }

  predicate PartOf(part: Dir, whole: Dir) {
    && (part.manifest == whole.manifest || part.manifest.None?)
    && (part.content == whole.content || part.content.None?)
  }

  function ReadContent(files: Files, m: Meta): Result<Digest, ReadError> {
    if m.Path() !in files then Failure(Missing)
    else
      var dir := files[m.Path()];
      if dir.manifest.Some? && dir.manifest.value.id != m.id then Failure(Superseded)
      else if dir.content.None? then Failure(Missing)
      else if dir.content.value != m.digest then Failure(Corrupt)
      else Success(dir.content.value)
  }

  predicate Readable(files: Files, m: Meta) {
    ReadContent(files, m).Success?
  }

  /** `add_artifact` indexes records as they are and snapshots only when they still read back. */
  predicate Accepts(files: Files, m: Meta) {
    m.Snapshot() ==> Readable(files, m)
  }

  function Kept(rows: Rows, m: Meta): Rows {
    map id | id in rows && !Hits(m, rows[id].meta) :: rows[id]
  }

  function InsertRow(rows: Rows, m: Meta, at: nat): Rows {
    Kept(rows, m)[m.id := Row(m, at, UpstreamParents(rows, m))]
  }

  function UpstreamParents(rows: Rows, m: Meta): set<Id> {
    if m.Snapshot() then
      set id | id in rows && id in m.parents && rows[id].meta.Snapshot() && rows[id].meta.run == m.run
               && Upstream(rows[id].meta.kind, m.kind)
    else {}
  }

  // ----- interleavings -----

  ghost predicate Enabled(s: State, step: Step) {
    match step
    case Write(m) => m.id !in s.used
    case Interrupt(m, after) => m.id !in s.used && InterruptOutcome(s.files, m, after)
    case Add(id) => id in s.pending && id in s.wrote
    case Abandon(id) => id in s.pending && id in s.wrote
  }

  ghost function Apply(s: State, step: Step): State
    requires Enabled(s, step)
  {
    match step
    case Write(m) =>
      s.(files := WriteFiles(s.files, m), wrote := s.wrote[m.id := Written(m, s.clock)],
         pending := s.pending + {m.id}, used := s.used + {m.id}, clock := s.clock + 1)
    case Interrupt(m, after) =>
      s.(files := after, lost := s.lost + {Written(m, s.clock)}, used := s.used + {m.id}, clock := s.clock + 1)
    case Add(id) =>
      var m := s.wrote[id].meta;
      if Accepts(s.files, m)
      then s.(rows := InsertRow(s.rows, m, s.clock), pending := s.pending - {id}, clock := s.clock + 1)
      else s.(pending := s.pending - {id})
    case Abandon(id) =>
      s.(pending := s.pending - {id}, lost := s.lost + {s.wrote[id]})
  }

  ghost predicate ValidRun(s: State, steps: seq<Step>)
    decreases |steps|
  {
    steps == [] || (Enabled(s, steps[0]) && ValidRun(Apply(s, steps[0]), steps[1..]))
  }

  ghost function Final(s: State, steps: seq<Step>): State
    requires ValidRun(s, steps)
    decreases |steps|
  {
    if steps == [] then s else Final(Apply(s, steps[0]), steps[1..])
  }

  /** A torn directory has content but no manifest, so a read of it cannot check identity. */
  ghost predicate Torn(files: Files) {
    exists p :: p in files && files[p].manifest.None? && files[p].content.Some?
  }

  /** No killed write of the run left a torn directory. */
  ghost predicate Untorn(steps: seq<Step>) {
    forall i :: 0 <= i < |steps| && steps[i].Interrupt? ==> !Torn(steps[i].after)
  }

  // ----- what every step keeps -----

  /** Completed writes sit under their own id, each at its own past time. */
  ghost predicate WritesBooked(s: State) {
    && (forall id :: id in s.wrote ==> s.wrote[id].meta.id == id && s.wrote[id].at < s.clock && id in s.used)
    && (forall a, b :: a in s.wrote && b in s.wrote && a != b ==> s.wrote[a].at != s.wrote[b].at)
  }

  /** Rows and pending publications are completed writes, and none is both. */
  ghost predicate RowsBooked(s: State) {
    && (forall id :: id in s.rows ==> id in s.wrote && s.rows[id].meta == s.wrote[id].meta && s.rows[id].at < s.clock)
    && (forall id :: id in s.pending ==> id in s.wrote && id !in s.rows)
  }

  ghost predicate Bookkeeping(s: State) {
    WritesBooked(s) && RowsBooked(s)
  }

  ghost predicate OnDisk(files: Files, m: Meta) {
    m.Path() in files && files[m.Path()].manifest == Some(m)
  }

  /** Every manifest on disk is that of a completed write, in its own directory. */
  ghost predicate ManifestsWritten(s: State) {
    forall p :: p in s.files && s.files[p].manifest.Some? ==> Owned(s, p, s.files[p].manifest.value)
  }

  ghost predicate Owned(s: State, p: Path, m: Meta) {
    m.Path() == p && m.id in s.wrote && s.wrote[m.id].meta == m
  }

  /** Records are never touched again, so they always read back. */
  ghost predicate RecordsStay(s: State) {
    forall id :: id in s.wrote && !s.wrote[id].meta.Snapshot() ==> RecordStays(s.files, s.wrote[id].meta)
  }

  ghost predicate RecordStays(files: Files, m: Meta) {
    m.Path() in files && files[m.Path()] == Dir(Some(m), Some(m.digest))
  }

  /** Writing `m` replaces or removes the files of `other`. */
  predicate Disturbs(m: Meta, other: Meta) {
    m.Snapshot() && other.Snapshot() && m.run == other.run
    && (m.Path() == other.Path() || Upstream(m.kind, other.kind))
  }

  /** A manifest on disk is newer than every completed write that would have replaced or removed it. */
  ghost predicate DiskOrder(s: State) {
    forall d, u ::
      (d in s.wrote && u in s.wrote && d != u && OnDisk(s.files, s.wrote[d].meta)
       && Disturbs(s.wrote[u].meta, s.wrote[d].meta))
      ==> s.wrote[u].at < s.wrote[d].at
  }

  /** A row that would delete another row was inserted before it. */
  ghost predicate RowOrder(rows: Rows) {
    forall a, b :: a in rows && b in rows && a != b && Hits(rows[a].meta, rows[b].meta) ==> rows[a].at < rows[b].at
  }

  /** A write after that of `e` which replaces or removes its files, and whose indexing deletes its row. */
  ghost predicate Outdates(s: State, v: Written, e: Meta) {
    e.id in s.wrote && s.wrote[e.id].at < v.at && Disturbs(v.meta, e)
  }

  /** A pending publication that reads back and outdates `e`. */
  ghost predicate Healer(s: State, w: Id, e: Meta) {
    w in s.pending && w in s.wrote && Readable(s.files, s.wrote[w].meta) && Outdates(s, s.wrote[w], e)
  }

  /** A publication that was cut short and outdates `e`. */
  ghost predicate Orphaned(s: State, e: Meta) {
    exists v :: v in s.lost && Outdates(s, v, e)
  }

  /** A row that no longer reads back awaits a pending publication that deletes it, or lost its publisher. */
  ghost predicate Covered(s: State, e: Meta) {
    Readable(s.files, e) || (exists w :: Healer(s, w, e)) || Orphaned(s, e)
  }

  ghost predicate AllCovered(s: State) {
    forall id :: id in s.rows ==> Covered(s, s.rows[id].meta)
  }

  ghost predicate Ancestor(rows: Rows, p: Id, d: Id)
    requires d in rows
  {
    && p in rows && p != d && rows[p].meta.Snapshot() && rows[d].meta.Snapshot()
    && rows[p].meta.run == rows[d].meta.run && Upstream(rows[p].meta.kind, rows[d].meta.kind)
    && rows[p].at < rows[d].at
  }

  ghost predicate LineageClosed(rows: Rows) {
    forall d, p :: d in rows && p in rows[d].lineage ==> Ancestor(rows, p, d)
  }

  ghost predicate Inv(s: State) {
    && Bookkeeping(s) && ManifestsWritten(s) && RecordsStay(s) && DiskOrder(s)
    && RowOrder(s.rows) && AllCovered(s) && LineageClosed(s.rows)
  }

  /** Whatever replaces or removes files also deletes their row. */
  lemma DisturbsHits(m: Meta, other: Meta)
    requires Disturbs(m, other)
    ensures Hits(m, other)
  {
  }

  lemma DisturbsTransitive(v: Meta, w: Meta, e: Meta)
    requires Disturbs(v, w) && Disturbs(w, e)
    ensures Disturbs(v, e)
  {
  }

  lemma HitsTransitive(v: Meta, w: Meta, e: Meta)
    requires Hits(v, w) && Hits(w, e)
    ensures Hits(v, e)
  {
  }

  // ----- one lemma per step -----

  /** A completed write leaves a readable publication readable, or disturbs it. */
  lemma WriteReads(s: State, m: Meta, id: Id)
    requires Bookkeeping(s) && ManifestsWritten(s) && m.id !in s.used && id in s.wrote
    requires Readable(s.files, s.wrote[id].meta)
    ensures Readable(WriteFiles(s.files, m), s.wrote[id].meta) || Disturbs(m, s.wrote[id].meta)
  {
    var e := s.wrote[id].meta;
    if e.Path() == m.Path() {
      assert Disturbs(m, e);
    } else if Removed(s.files, m, e.Path()) {
      assert Owned(s, e.Path(), s.files[e.Path()].manifest.value);
      assert Disturbs(m, e);
    }
  }

  lemma InterruptReads(s: State, m: Meta, after: Files, id: Id)
    requires Bookkeeping(s) && ManifestsWritten(s) && m.id !in s.used && id in s.wrote
    requires InterruptOutcome(s.files, m, after) && Readable(s.files, s.wrote[id].meta)
    ensures Readable(after, s.wrote[id].meta) || Disturbs(m, s.wrote[id].meta)
  {
    var e := s.wrote[id].meta;
    if e.Path() == m.Path() {
      assert Disturbs(m, e);
    } else if Removed(s.files, m, e.Path()) {
      assert Owned(s, e.Path(), s.files[e.Path()].manifest.value);
      assert Disturbs(m, e);
    }
  }

  lemma WriteBookkeeping(s: State, m: Meta)
    requires Bookkeeping(s) && Enabled(s, Write(m))
    ensures Bookkeeping(Apply(s, Write(m)))
  {
    BookedNew(s, Apply(s, Write(m)), m);
  }

  lemma BookedNew(s: State, t: State, m: Meta)
    requires Bookkeeping(s) && m.id !in s.used && t.rows == s.rows && t.wrote == s.wrote[m.id := Written(m, s.clock)]
    requires t.pending == s.pending + {m.id} && t.used == s.used + {m.id} && t.clock == s.clock + 1
    ensures Bookkeeping(t)
  {
    NewWriteBooked(s, t, m);
    NewRowsBooked(s, t, m);
  }

  lemma NewWriteBooked(s: State, t: State, m: Meta)
    requires WritesBooked(s) && m.id !in s.used && t.wrote == s.wrote[m.id := Written(m, s.clock)]
    requires t.used == s.used + {m.id} && t.clock == s.clock + 1
    ensures WritesBooked(t)
  {
  }

  lemma NewRowsBooked(s: State, t: State, m: Meta)
    requires Bookkeeping(s) && m.id !in s.used && t.rows == s.rows && t.wrote == s.wrote[m.id := Written(m, s.clock)]
    requires t.pending == s.pending + {m.id} && t.clock == s.clock + 1
    ensures RowsBooked(t)
  {
  }

  lemma WriteManifests(s: State, m: Meta)
    requires Bookkeeping(s) && ManifestsWritten(s) && Enabled(s, Write(m))
    ensures ManifestsWritten(Apply(s, Write(m)))
  {
    var t := Apply(s, Write(m));
    forall p | p in t.files && t.files[p].manifest.Some? ensures Owned(t, p, t.files[p].manifest.value) {
      if p != m.Path() {
        assert Owned(s, p, s.files[p].manifest.value);
      }
    }
  }

  lemma WriteRecords(s: State, m: Meta)
    requires Bookkeeping(s) && RecordsStay(s) && Enabled(s, Write(m))
    ensures RecordsStay(Apply(s, Write(m)))
  {
    var t := Apply(s, Write(m));
    forall id | id in t.wrote && !t.wrote[id].meta.Snapshot() ensures RecordStays(t.files, t.wrote[id].meta) {
      if id != m.id {
        assert RecordStays(s.files, s.wrote[id].meta);
      }
    }
  }

  lemma WriteFilesPreserved(s: State, m: Meta)
    requires Bookkeeping(s) && ManifestsWritten(s) && RecordsStay(s) && Enabled(s, Write(m))
    ensures var t := Apply(s, Write(m)); Bookkeeping(t) && ManifestsWritten(t) && RecordsStay(t)
  {
    WriteBookkeeping(s, m);
    WriteManifests(s, m);
    WriteRecords(s, m);
  }

  lemma WriteDiskOrder(s: State, m: Meta)
    requires Bookkeeping(s) && ManifestsWritten(s) && DiskOrder(s) && Enabled(s, Write(m))
    ensures DiskOrder(Apply(s, Write(m)))
  {
    var t := Apply(s, Write(m));
    forall d, u | d in t.wrote && u in t.wrote && d != u && OnDisk(t.files, t.wrote[d].meta)
      && Disturbs(t.wrote[u].meta, t.wrote[d].meta)
      ensures t.wrote[u].at < t.wrote[d].at
    {
      if d != m.id {
        var e := s.wrote[d].meta;
        assert e.Path() != m.Path();
        assert OnDisk(s.files, e) && !Removed(s.files, m, e.Path());
        assert u != m.id;
      }
    }
  }

  lemma StillCovered(s: State, t: State, m: Meta, e: Meta)
    requires Covered(s, e) && e.id in s.wrote && e.id in t.wrote
    requires t.wrote[e.id] == s.wrote[e.id] && s.wrote[e.id].at < s.clock
    requires Readable(s.files, e) ==> Readable(t.files, e) || Disturbs(m, e)
    requires forall w :: Healer(s, w, e) ==>
      w in t.pending && w in t.wrote && t.wrote[w] == s.wrote[w]
      && (Readable(t.files, s.wrote[w].meta) || Disturbs(m, s.wrote[w].meta))
    requires s.lost <= t.lost
    requires (exists w :: Healer(t, w, e)) || Written(m, s.clock) in t.lost || !Disturbs(m, e)
    ensures Covered(t, e)
  {
    if Disturbs(m, e) {
      if Written(m, s.clock) in t.lost {
        assert Outdates(t, Written(m, s.clock), e);
      }
    } else if Readable(s.files, e) {
    } else if w :| Healer(s, w, e) {
      if Disturbs(m, s.wrote[w].meta) {
        DisturbsTransitive(m, s.wrote[w].meta, e);
      }
      assert Healer(t, w, e);
    } else {
      var v :| v in s.lost && Outdates(s, v, e);
      assert Outdates(t, v, e);
    }
  }

  lemma WriteCovers(s: State, m: Meta)
    requires Bookkeeping(s) && ManifestsWritten(s) && AllCovered(s) && Enabled(s, Write(m))
    ensures AllCovered(Apply(s, Write(m)))
  {
    var t := Apply(s, Write(m));
    forall id | id in t.rows ensures Covered(t, t.rows[id].meta) {
      WriteCoversRow(s, m, id);
    }
  }

  lemma WriteCoversRow(s: State, m: Meta, id: Id)
    requires Bookkeeping(s) && ManifestsWritten(s) && Enabled(s, Write(m)) && id in s.rows && Covered(s, s.rows[id].meta)
    ensures Covered(Apply(s, Write(m)), s.rows[id].meta)
  {
    var t := Apply(s, Write(m));
    var e := s.rows[id].meta;
    if Readable(s.files, e) {
      WriteReads(s, m, id);
    }
    forall w | Healer(s, w, e) ensures Readable(t.files, s.wrote[w].meta) || Disturbs(m, s.wrote[w].meta) {
      WriteReads(s, m, w);
    }
    if Disturbs(m, e) {
      assert Healer(t, m.id, e);
    }
    StillCovered(s, t, m, e);
  }

  lemma InterruptFiles(s: State, m: Meta, after: Files)
    requires Bookkeeping(s) && ManifestsWritten(s) && RecordsStay(s) && DiskOrder(s)
    requires Enabled(s, Interrupt(m, after))
    ensures var t := Apply(s, Interrupt(m, after));
            Bookkeeping(t) && ManifestsWritten(t) && RecordsStay(t) && DiskOrder(t)
  {
    var t := Apply(s, Interrupt(m, after));
    forall p | p in t.files && t.files[p].manifest.Some? ensures p in s.files && Owned(t, p, t.files[p].manifest.value) {
      assert Owned(s, p, s.files[p].manifest.value);
    }
    forall id | id in t.wrote && !t.wrote[id].meta.Snapshot() ensures RecordStays(t.files, t.wrote[id].meta) {
      assert RecordStays(s.files, s.wrote[id].meta);
    }
    forall d | d in t.wrote && OnDisk(t.files, t.wrote[d].meta) ensures OnDisk(s.files, s.wrote[d].meta) {
    }
  }

  lemma InterruptCovers(s: State, m: Meta, after: Files)
    requires Bookkeeping(s) && ManifestsWritten(s) && AllCovered(s) && Enabled(s, Interrupt(m, after))
    ensures AllCovered(Apply(s, Interrupt(m, after)))
  {
    var t := Apply(s, Interrupt(m, after));
    forall id | id in t.rows ensures Covered(t, t.rows[id].meta) {
      var e := s.rows[id].meta;
      if Readable(s.files, e) {
        InterruptReads(s, m, after, id);
      }
      forall w | Healer(s, w, e) ensures Readable(t.files, s.wrote[w].meta) || Disturbs(m, s.wrote[w].meta) {
        InterruptReads(s, m, after, w);
      }
      StillCovered(s, t, m, e);
    }
  }

  lemma AddCovers(s: State, id: Id)
    requires Bookkeeping(s) && RecordsStay(s) && AllCovered(s) && Enabled(s, Add(id))
    ensures AllCovered(Apply(s, Add(id)))
  {
    var t := Apply(s, Add(id));
    forall r | r in t.rows ensures Covered(t, t.rows[r].meta) {
      if r in s.rows {
        AddCoversOld(s, id, r);
      } else {
        assert s.wrote[id].meta.Snapshot() || RecordStays(s.files, s.wrote[id].meta);
      }
    }
  }

  lemma AddCoversOld(s: State, id: Id, r: Id)
    requires Bookkeeping(s) && Enabled(s, Add(id)) && r in s.rows && r in Apply(s, Add(id)).rows
    requires Covered(s, s.rows[r].meta)
    ensures Covered(Apply(s, Add(id)), Apply(s, Add(id)).rows[r].meta)
  {
    var t, e := Apply(s, Add(id)), s.rows[r].meta;
    if w :| !Readable(s.files, e) && Healer(s, w, e) {
      DisturbsHits(s.wrote[w].meta, e);
      assert w != id;
      assert Healer(t, w, e);
    } else if v :| v in s.lost && Outdates(s, v, e) {
      assert Outdates(t, v, e);
    }
  }

  lemma AddRowOrder(s: State, id: Id)
    requires Bookkeeping(s) && RowOrder(s.rows) && Enabled(s, Add(id))
    ensures Bookkeeping(Apply(s, Add(id))) && RowOrder(Apply(s, Add(id)).rows)
  {
    var t := Apply(s, Add(id));
    var m := s.wrote[id].meta;
    if Accepts(s.files, m) {
      forall a, b | a in t.rows && b in t.rows && a != b && Hits(t.rows[a].meta, t.rows[b].meta)
        ensures t.rows[a].at < t.rows[b].at
      {
        assert a != id;
        assert t.rows[a] == s.rows[a];
        assert b != id ==> t.rows[b] == s.rows[b];
      }
    }
  }

  lemma AddLineage(s: State, id: Id)
    requires Bookkeeping(s) && LineageClosed(s.rows) && Enabled(s, Add(id)) && Accepts(s.files, s.wrote[id].meta)
    ensures LineageClosed(Apply(s, Add(id)).rows)
  {
    var t := Apply(s, Add(id));
    var m := s.wrote[id].meta;
    forall d, p | d in t.rows && p in t.rows[d].lineage ensures Ancestor(t.rows, p, d) {
      if d == id {
        assert p in s.rows && !Hits(m, s.rows[p].meta);
        assert t.rows[p] == s.rows[p];
      } else {
        assert t.rows[d] == s.rows[d];
        assert Ancestor(s.rows, p, d);
        if Hits(m, s.rows[p].meta) {
          HitsTransitive(m, s.rows[p].meta, s.rows[d].meta);
        }
        assert t.rows[p] == s.rows[p];
      }
    }
  }

  lemma AbandonCovers(s: State, id: Id)
    requires Bookkeeping(s) && AllCovered(s) && Enabled(s, Abandon(id))
    ensures AllCovered(Apply(s, Abandon(id)))
  {
    var t := Apply(s, Abandon(id));
    forall r | r in t.rows ensures Covered(t, t.rows[r].meta) {
      var e := s.rows[r].meta;
      assert Covered(s, e);
      if w :| !Readable(s.files, e) && Healer(s, w, e) {
        if w == id {
          assert s.wrote[id] in t.lost && Outdates(t, s.wrote[id], e);
        } else {
          assert Healer(t, w, e);
        }
      } else if v :| v in s.lost && Outdates(s, v, e) {
        assert Outdates(t, v, e);
      }
    }
  }

  /** Each of the four steps keeps the whole invariant. */
  lemma StepPreserves(s: State, step: Step)
    requires Inv(s) && Enabled(s, step)
    ensures Inv(Apply(s, step))
  {
    match step
    case Write(m) =>
      WriteFilesPreserved(s, m);
      WriteDiskOrder(s, m);
      WriteCovers(s, m);
    case Interrupt(m, after) =>
      InterruptFiles(s, m, after);
      InterruptCovers(s, m, after);
    case Add(id) =>
      AddCovers(s, id);
      AddRowOrder(s, id);
      if Accepts(s.files, s.wrote[id].meta) {
        AddLineage(s, id);
      }
    case Abandon(id) =>
      AbandonCovers(s, id);
  }

  /** The invariant holds after every run of publishers, in any interleaving and with any interruptions. */
  lemma {:induction false} RunPreserves(s: State, steps: seq<Step>)
    requires Inv(s) && ValidRun(s, steps)
    ensures Inv(Final(s, steps))
    decreases |steps|
  {
    if steps != [] {
      StepPreserves(s, steps[0]);
      RunPreserves(Apply(s, steps[0]), steps[1..]);
    }
  }

  /** A run can be extended by any step enabled at its end. */
  lemma {:induction false} ExtendRun(s: State, steps: seq<Step>, step: Step)
    requires ValidRun(s, steps) && Enabled(Final(s, steps), step)
    ensures ValidRun(s, steps + [step]) && Final(s, steps + [step]) == Apply(Final(s, steps), step)
    decreases |steps|
  {
    if steps == [] {
      assert [step][1..] == [];
    } else {
      assert (steps + [step])[1..] == steps[1..] + [step];
      ExtendRun(Apply(s, steps[0]), steps[1..], step);
    }
  }
}
