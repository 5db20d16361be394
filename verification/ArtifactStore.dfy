/** The file tree of projects: publication under the exclusive lock, reads under the shared one. */
module ArtifactStore {
  import Kinds
  import opened Results
  import opened Publication

  predicate SafeProducer(producer: string) {
    producer != "" && forall c :: c in producer ==> 'A' <= c <= 'Z' || 'a' <= c <= 'z' || '0' <= c <= '9' || c in "_-"
  }

  /** What remains of `files` once the loop has looked at every manifest outside `todo`. */
  function Swept(files: Files, m: Meta, todo: set<Path>): Files {
    map p | p in files && (p in todo || !Removed(files, m, p)) :: files[p]
  }

  class Store {
    var files: Files

    constructor ()
      ensures files == map[]
    {
      files := map[];
    }

    /** Publishes `m`: removes every downstream snapshot of the project, then fills the slot's directory. */
    method Write(m: Meta) returns (ok: bool)
      modifies this
      ensures ok == SafeProducer(m.producer)
      ensures files == if ok then WriteFiles(old(files), m) else old(files)
    {
      ok := SafeProducer(m.producer);
      if !ok { return; }
      if m.Snapshot() {
        Kinds.InvalidatedIffUpstream(m.kind);
        var invalidated := Kinds.InvalidatedKinds(m.kind);
        var todo := files.Keys;
        assert files == Swept(old(files), m, todo);
        while todo != {}
          invariant todo <= files.Keys
          invariant files == Swept(old(files), m, todo)
          decreases |todo|
        {
          var p :| p in todo;
          todo := todo - {p};
          if p.Current? && p.run == m.run && files[p].manifest.Some?
             && files[p].manifest.value.kind in invalidated {
            files := files - {p};
          }
        }
      }
      var before := if m.Path() in files then files[m.Path()].manifest else None;
      files := files[m.Path() := Dir(before, Some(m.digest))];
      files := files[m.Path() := Dir(Some(m), Some(m.digest))];
    }

    /** Fails unless the slot still holds this very publication. */
    method Read(m: Meta) returns (r: Result<Digest, ReadError>)
      ensures r == ReadContent(files, m)
      ensures r.Success? ==> r.value == m.digest
      ensures m.Path() in files && files[m.Path()].manifest.Some? && files[m.Path()].manifest.value.id != m.id
              ==> r == Failure(Superseded)
    {
      if m.Path() !in files {
        return Failure(Missing);
      }
      var dir := files[m.Path()];
      if dir.manifest.Some? && dir.manifest.value.id != m.id {
        return Failure(Superseded);
      }
      if dir.content.None? {
        return Failure(Missing);
      }
      if dir.content.value != m.digest {
        return Failure(Corrupt);
      }
      return Success(dir.content.value);
    }
  }
}
