/** The hub's view of one run's index: a listing in insertion order, and publication as one atomic step. */
module HubIndex {
  import opened Kinds
  import opened Results
  import opened Publication
  import opened Artifacts

  function Keep(index: seq<Artifact>, m: Meta): seq<Artifact> {
    if index == [] then []
    else
      var last := index[|index| - 1];
      Keep(index[..|index| - 1], m) + if Hits(m, last.meta) then [] else [last]
  }

  function PublishTo(index: seq<Artifact>, a: Artifact): seq<Artifact> {
    Keep(index, a.meta) + [a]
  }

  lemma {:induction false} KeepMembers(index: seq<Artifact>, m: Meta)
    ensures forall a :: a in Keep(index, m) <==> a in index && !Hits(m, a.meta)
  {
    if index != [] {
      var n := |index| - 1;
      assert index == index[..n] + [index[n]];
      KeepMembers(index[..n], m);
    }
  }

  /** Two kept entries come from two entries in the same order, and what precedes the first is kept of its prefix. */
  lemma {:induction false} KeptFrom(index: seq<Artifact>, m: Meta, k: int, l: int) returns (i: int, j: int)
    requires 0 <= k < l <= |Keep(index, m)|
    ensures 0 <= i < j <= |index| && index[i] == Keep(index, m)[k] && Keep(index, m)[..k] == Keep(index[..i], m)
    ensures l < |Keep(index, m)| ==> j < |index| && index[j] == Keep(index, m)[l]
  {
    var n := |index| - 1;
    var before := Keep(index[..n], m);
    if l <= |before| {
      i, j := KeptFrom(index[..n], m, k, l);
      assert index[..n][..i] == index[..i];
      if l == |before| {
        j := n;
      }
    } else if k == |before| {
      i, j := n, |index|;
    } else {
      i, j := KeptFrom(index[..n], m, k, |before|);
      assert index[..n][..i] == index[..i];
      j := |index|;
    }
  }

  lemma {:induction false} KeepAll(index: seq<Artifact>, m: Meta)
    requires forall a :: a in index ==> !Hits(m, a.meta)
    ensures Keep(index, m) == index
  {
    if index != [] {
      var n := |index| - 1;
      assert index[n] in index && index == index[..n] + [index[n]];
      KeepAll(index[..n], m);
    }
  }

  lemma {:induction false} LatestAt(index: seq<Artifact>, kind: Kind) returns (i: int)
    requires Latest(index, kind).Some?
    ensures 0 <= i < |index| && index[i] == Latest(index, kind).value
  {
    i := |index| - 1;
    if index[i].meta.kind != kind {
      i := LatestAt(index[..i], kind);
    }
  }

  // ----- the listing and the table agree -----

  /** The listing shows exactly the rows of the table. */
  ghost predicate Mirrors(index: seq<Artifact>, rows: Rows) {
    && (forall a :: a in index ==> a.meta.id in rows && rows[a.meta.id].meta == a.meta)
    && (forall id :: id in rows ==> exists a :: a in index && a.meta.id == id)
  }

  /** Writing and indexing without interruption publishes on the listing what it publishes in the table. */
  lemma AtomicPublication(s: State, index: seq<Artifact>, a: Artifact)
    requires Inv(s) && Mirrors(index, s.rows) && a.meta.id !in s.used
    ensures Enabled(s, Write(a.meta)) && Enabled(Apply(s, Write(a.meta)), Add(a.meta.id))
    ensures Mirrors(PublishTo(index, a), Apply(Apply(s, Write(a.meta)), Add(a.meta.id)).rows)
  {
    var t := Apply(s, Write(a.meta));
    assert Readable(t.files, a.meta) && Accepts(t.files, a.meta);
    var rows := Apply(t, Add(a.meta.id)).rows;
    assert rows == InsertRow(s.rows, a.meta, t.clock);
    PublishMirrors(index, s.rows, a, t.clock);
  }

  /** The listing and the table delete the same entries and gain the same one. */
  lemma PublishMirrors(index: seq<Artifact>, rows: Rows, a: Artifact, at: nat)
    requires Mirrors(index, rows) && forall b :: b in index ==> b.meta.id != a.meta.id
    ensures Mirrors(PublishTo(index, a), InsertRow(rows, a.meta, at))
  {
    KeepMembers(index, a.meta);
    var after := InsertRow(rows, a.meta, at);
    forall id | id in after ensures exists b :: b in PublishTo(index, a) && b.meta.id == id {
      if id == a.meta.id {
        assert a in PublishTo(index, a);
      } else {
        var b :| b in index && b.meta.id == id;
        assert b in PublishTo(index, a);
      }
    }
  }
}
