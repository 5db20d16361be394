/** Trusted integration: which source is current, who owns which path, and what a release contains. */
module Sources {
  import opened Kinds
  import opened Results
  import opened Publication
  import opened Artifacts
  import EvaluationModel
  import opened HumanDecisions

  // ----- current sources -----

  /** A dictionary keyed by producer: an old key keeps its place, a new one goes last. */
  function Upsert(latest: seq<Artifact>, item: Artifact): seq<Artifact> {
    if latest == [] then [item]
    else if latest[0].meta.producer == item.meta.producer then [item] + latest[1..]
    else [latest[0]] + Upsert(latest[1..], item)
  }

  function LatestChanges(artifacts: seq<Artifact>): seq<Artifact> {
    if artifacts == [] then []
    else
      var before := LatestChanges(artifacts[..|artifacts| - 1]);
      var item := artifacts[|artifacts| - 1];
      if item.meta.kind == CodeChange then Upsert(before, item) else before
  }

  function CurrentSources(artifacts: seq<Artifact>): seq<Artifact> {
    match Latest(artifacts, IntegratedSource)
    case Some(integrated) => [integrated]
    case None => LatestChanges(artifacts)
  }

  method CollectChanges(artifacts: seq<Artifact>) returns (latest: seq<Artifact>)
    ensures latest == LatestChanges(artifacts)
  {
    latest := [];
    for i := 0 to |artifacts|
      invariant latest == LatestChanges(artifacts[..i])
    {
      assert artifacts[..i + 1][..i] == artifacts[..i];
      if artifacts[i].meta.kind == CodeChange {
        latest := Upsert(latest, artifacts[i]);
      }
    }
    assert artifacts[..|artifacts|] == artifacts;
  }

  /** The last code change of its producer. */
  ghost predicate IsLatestChange(artifacts: seq<Artifact>, i: int) {
    && 0 <= i < |artifacts| && artifacts[i].meta.kind == CodeChange
    && forall j :: i < j < |artifacts| && artifacts[j].meta.kind == CodeChange ==>
         artifacts[j].meta.producer != artifacts[i].meta.producer
  }

  ghost predicate OnePerProducer(latest: seq<Artifact>) {
    forall i, j :: 0 <= i < j < |latest| ==> latest[i].meta.producer != latest[j].meta.producer
  }

  lemma {:induction false} UpsertMembers(latest: seq<Artifact>, item: Artifact)
    requires OnePerProducer(latest)
    ensures OnePerProducer(Upsert(latest, item))
    ensures forall a :: a in Upsert(latest, item) <==>
              a == item || (a in latest && a.meta.producer != item.meta.producer)
  {
    if latest != [] {
      assert latest == [latest[0]] + latest[1..];
      if latest[0].meta.producer == item.meta.producer {
        assert forall a :: a in latest[1..] ==> a.meta.producer != item.meta.producer;
      } else {
        UpsertMembers(latest[1..], item);
        forall a | a in Upsert(latest[1..], item) ensures a.meta.producer != latest[0].meta.producer {
        }
      }
    }
  }

  /** The current changes are exactly the last one of each producer. */
  lemma {:induction false} LatestChangesAreLast(artifacts: seq<Artifact>)
    ensures OnePerProducer(LatestChanges(artifacts))
    ensures forall a :: a in LatestChanges(artifacts) <==> exists i :: IsLatestChange(artifacts, i) && artifacts[i] == a
  {
    if artifacts != [] {
      var n := |artifacts| - 1;
      var before := artifacts[..n];
      LatestChangesAreLast(before);
      var item := artifacts[n];
      if item.meta.kind == CodeChange {
        UpsertMembers(LatestChanges(before), item);
        forall a | a in LatestChanges(artifacts) ensures exists i :: IsLatestChange(artifacts, i) && artifacts[i] == a {
          if a == item {
            assert IsLatestChange(artifacts, n);
          } else {
            var i :| IsLatestChange(before, i) && before[i] == a;
            assert IsLatestChange(artifacts, i);
          }
        }
        forall i | IsLatestChange(artifacts, i) ensures artifacts[i] in LatestChanges(artifacts) {
          if i != n {
            assert IsLatestChange(before, i) && before[i] == artifacts[i];
          }
        }
      } else {
        forall i ensures IsLatestChange(artifacts, i) <==> IsLatestChange(before, i) {
        }
      }
    }
  }

  // ----- ownership and integration -----

  const BACKEND := "backend-agent"
  const FRONTEND := "frontend-agent"
  const TESTS := "test-agent"

  function Prefix(agent: string): string {
    if agent == BACKEND then "backend/" else if agent == FRONTEND then "ui/" else "tests/"
  }

  predicate BundleOk(files: seq<SourceFile>) {
    && 1 <= |files| <= 50
    && (forall i, j :: 0 <= i < j < |files| ==> files[i].path != files[j].path)
    && TotalSize(files) <= 262_144
  }

  function TotalSize(files: seq<SourceFile>): nat {
    if files == [] then 0 else files[0].size + TotalSize(files[1..])
  }

  /** `pinned` says which texts parse to the pinned package manifest. */
  predicate OwnsFiles(agent: string, files: seq<SourceFile>, pinned: string -> bool) {
    && (forall f :: f in files ==> HasPrefix(f.path, Prefix(agent)))
    && (agent != FRONTEND ==> forall f :: f in files ==> HasSuffix(f.path, ".py"))
    && (agent == FRONTEND ==>
          && (exists f :: f in files && f.path == "ui/index.html")
          && (exists f :: f in files && f.path == "ui/src/main.tsx")
          && (exists f :: f in files && f.path == "ui/tsconfig.json")
          && (forall f :: f in files ==> !IsViteConfig(f.path))
          && (forall f :: f in files && f.path == "ui/package.json" ==> pinned(f.content))
          && (forall f :: f in files ==> f.path != "ui/package-lock.json"))
  }

  /** The last path component starts with `vite.config`. */
  predicate IsViteConfig(path: string) {
    exists i :: 0 <= i <= |path| && (i == 0 || path[i - 1] == '/') && '/' !in path[i..] && HasPrefix(path[i..], "vite.config")
  }

  function ChangeOf(latest: seq<Artifact>, agent: string): Option<Artifact> {
    if latest == [] then None
    else if latest[0].meta.producer == agent then Some(latest[0])
    else ChangeOf(latest[1..], agent)
  }

  datatype MergeError = MissingImplementation | InvalidSource | NotOwner | InvalidBundle

  function FilesOf(latest: seq<Artifact>, agent: string, pinned: string -> bool): Result<seq<SourceFile>, MergeError> {
    match ChangeOf(latest, agent)
    case None => Failure(MissingImplementation)
    case Some(change) =>
      if change.content.source.None? then Failure(InvalidSource)
      else if !OwnsFiles(agent, change.content.source.value, pinned) then Failure(NotOwner)
      else Success(change.content.source.value)
  }

  /** Source from exactly the three implementation agents, each within its own prefix. */
  function MergeSources(artifacts: seq<Artifact>, pinned: string -> bool): Result<seq<SourceFile>, MergeError> {
    var latest := LatestChanges(artifacts);
    if !(forall a :: a in latest ==> a.meta.producer in {BACKEND, FRONTEND, TESTS})
       || ChangeOf(latest, BACKEND).None? || ChangeOf(latest, FRONTEND).None? || ChangeOf(latest, TESTS).None?
    then Failure(MissingImplementation)
    else
      var backend := FilesOf(latest, BACKEND, pinned);
      if backend.Failure? then backend else
      var frontend := FilesOf(latest, FRONTEND, pinned);
      if frontend.Failure? then frontend else
      var tests := FilesOf(latest, TESTS, pinned);
      if tests.Failure? then tests else
      var files := backend.value + frontend.value + tests.value;
      if BundleOk(files) then Success(files) else Failure(InvalidBundle)
  }

  lemma {:induction false} ChangeOfMember(latest: seq<Artifact>, agent: string)
    ensures ChangeOf(latest, agent).Some? ==>
              ChangeOf(latest, agent).value in latest && ChangeOf(latest, agent).value.meta.producer == agent
    ensures ChangeOf(latest, agent).None? ==> forall a :: a in latest ==> a.meta.producer != agent
  {
    if latest != [] {
      ChangeOfMember(latest[1..], agent);
    }
  }

  ghost predicate HasChange(artifacts: seq<Artifact>, producer: string) {
    exists a :: a in artifacts && a.meta.kind == CodeChange && a.meta.producer == producer
  }

  lemma {:induction false} LastChange(artifacts: seq<Artifact>, producer: string) returns (i: int)
    requires HasChange(artifacts, producer)
    ensures IsLatestChange(artifacts, i) && artifacts[i].meta.producer == producer
  {
    i := |artifacts| - 1;
    if artifacts[i].meta.kind != CodeChange || artifacts[i].meta.producer != producer {
      i := LastChange(artifacts[..i], producer);
    }
  }

  lemma ChangeOfIff(artifacts: seq<Artifact>, producer: string)
    ensures ChangeOf(LatestChanges(artifacts), producer).Some? <==> HasChange(artifacts, producer)
  {
    LatestChangesAreLast(artifacts);
    ChangeOfMember(LatestChanges(artifacts), producer);
    if HasChange(artifacts, producer) {
      var i := LastChange(artifacts, producer);
      assert artifacts[i] in LatestChanges(artifacts);
    }
  }

  lemma ProducersOfChanges(artifacts: seq<Artifact>)
    ensures (forall a :: a in LatestChanges(artifacts) ==> a.meta.producer in {BACKEND, FRONTEND, TESTS}) <==>
            forall a :: a in artifacts && a.meta.kind == CodeChange ==> a.meta.producer in {BACKEND, FRONTEND, TESTS}
  {
    LatestChangesAreLast(artifacts);
    forall a | a in artifacts && a.meta.kind == CodeChange
      ensures exists b :: b in LatestChanges(artifacts) && b.meta.producer == a.meta.producer
    {
      var i := LastChange(artifacts, a.meta.producer);
      assert artifacts[i] in LatestChanges(artifacts);
    }
  }

  /** Integration misses its parts exactly when one of the three agents has no code change, or a stranger has one. */
  lemma MissingIff(artifacts: seq<Artifact>, pinned: string -> bool)
    ensures MergeSources(artifacts, pinned) != Failure(MissingImplementation) <==>
              && HasChange(artifacts, BACKEND) && HasChange(artifacts, FRONTEND) && HasChange(artifacts, TESTS)
              && forall a :: a in artifacts && a.meta.kind == CodeChange ==> a.meta.producer in {BACKEND, FRONTEND, TESTS}
  {
    ProducersOfChanges(artifacts);
    ChangeOfIff(artifacts, BACKEND);
    ChangeOfIff(artifacts, FRONTEND);
    ChangeOfIff(artifacts, TESTS);
  }

  /** The files an agent contributes, as its last code change has them. */
  lemma FilesOfLastChange(artifacts: seq<Artifact>, agent: string, pinned: string -> bool)
    requires FilesOf(LatestChanges(artifacts), agent, pinned).Success?
    ensures exists i :: IsLatestChange(artifacts, i) && artifacts[i].meta.producer == agent
              && artifacts[i].content.source == Some(FilesOf(LatestChanges(artifacts), agent, pinned).value)
    ensures OwnsFiles(agent, FilesOf(LatestChanges(artifacts), agent, pinned).value, pinned)
  {
    var latest := LatestChanges(artifacts);
    LatestChangesAreLast(artifacts);
    ChangeOfMember(latest, agent);
    var i :| IsLatestChange(artifacts, i) && artifacts[i] == ChangeOf(latest, agent).value;
  }

  /**
    Ownership: every file of an integrated source comes from the last code change of the one agent whose
    prefix its path has, and each agent contributes all of its files.
   */
  lemma IntegrationKeepsOwnership(artifacts: seq<Artifact>, pinned: string -> bool, agent: string)
    requires MergeSources(artifacts, pinned).Success? && agent in {BACKEND, FRONTEND, TESTS}
    ensures BundleOk(MergeSources(artifacts, pinned).value)
    ensures exists i :: IsLatestChange(artifacts, i) && artifacts[i].meta.producer == agent
              && artifacts[i].content.source.Some?
              && forall f :: f in artifacts[i].content.source.value <==>
                   f in MergeSources(artifacts, pinned).value && HasPrefix(f.path, Prefix(agent))
  {
    var latest := LatestChanges(artifacts);
    var backend, frontend, tests :=
      FilesOf(latest, BACKEND, pinned).value, FilesOf(latest, FRONTEND, pinned).value, FilesOf(latest, TESTS, pinned).value;
    FilesOfLastChange(artifacts, BACKEND, pinned);
    FilesOfLastChange(artifacts, FRONTEND, pinned);
    FilesOfLastChange(artifacts, TESTS, pinned);
    var own := FilesOf(latest, agent, pinned).value;
    forall f ensures f in own <==> f in backend + frontend + tests && HasPrefix(f.path, Prefix(agent)) {
      forall a, b | a in {BACKEND, FRONTEND, TESTS} && b in {BACKEND, FRONTEND, TESTS} && a != b
                    && HasPrefix(f.path, Prefix(a))
        ensures !HasPrefix(f.path, Prefix(b))
      {
        PrefixesDisjoint(f.path, a, b);
      }
    }
  }

  lemma PrefixesDisjoint(path: string, a: string, b: string)
    requires a in {BACKEND, FRONTEND, TESTS} && b in {BACKEND, FRONTEND, TESTS} && a != b
    requires HasPrefix(path, Prefix(a))
    ensures !HasPrefix(path, Prefix(b))
  {
    assert path[0] == Prefix(a)[0];
    assert Prefix(b)[0] != path[0];
  }

  // ----- release -----

  datatype ReleaseError = MissingInput | NotQualified

  const DROPPED := {"ui/package.json", "ui/tsconfig.json"}

  function ProjectFiles(files: seq<SourceFile>): seq<SourceFile> {
    if files == [] then []
    else if files[0].path in DROPPED then ProjectFiles(files[1..])
    else [files[0]] + ProjectFiles(files[1..])
  }

  /** A human accepted the very evaluation content under review. */
  predicate HumanAccepted(artifacts: seq<Artifact>, review: Artifact) {
    exists a :: a in artifacts && a.meta.kind == HumanResponse && a.content.decision == Some(Accept)
                && a.content.answers == Some(review.meta.digest)
  }

  predicate Qualified(artifacts: seq<Artifact>, gates: GateReport, review: Artifact, threshold: real)
    requires review.content.evaluation.Some?
  {
    var score := EvaluationModel.OverallScore(review.content.evaluation.value);
    HumanAccepted(artifacts, review) || (gates.verdict.VerdictPassed? && score.Some? && score.value >= threshold)
  }

  /** `assets` are the four pinned toolchain files. */
  function AssembleRelease(artifacts: seq<Artifact>, threshold: real, assets: seq<SourceFile>): Result<Bundle, ReleaseError> {
    var gate := Latest(artifacts, QualityGateReport);
    var review := Latest(artifacts, EvaluationReport);
    if gate.None? || review.None? || gate.value.content.gates.None? || review.value.content.evaluation.None?
    then Failure(MissingInput)
    else if !Qualified(artifacts, gate.value.content.gates.value, review.value, threshold) then Failure(NotQualified)
    else
      var source := Latest(artifacts, IntegratedSource);
      if source.None? || source.value.content.source.None? then Failure(MissingInput)
      else Success(Bundle(ProjectFiles(source.value.content.source.value) + assets, source.value.meta.id,
                          gate.value.meta.id, review.value.meta.id, Ids(artifacts)))
  }
}
