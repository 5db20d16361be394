/** Deterministic quality gates over the current evidence; no program runs here. */
module Gates {
  import opened Kinds
  import opened Results
  import opened Publication
  import opened Artifacts
  import opened Sources

  const STATIC_ANALYSIS_AGENT := "static-analysis-agent"

  function Reports(a: Artifact): seq<Report> {
    if a.content.reports.Some? then a.content.reports.value else []
  }

  /** The report in artifact `a` is evidence of this kind about the source. */
  predicate Matches(kind: Kind, a: Artifact, report: Report, source: Artifact) {
    a.meta.kind == kind
    && (if kind == StaticAnalysisReport then report.artifactId else report.sourceArtifactId) == Some(source.meta.id)
  }

  predicate IsHexDigest(text: string) {
    |text| == 71 && text[..7] == "sha256:" && forall c :: c in text[7..] ==> 'a' <= c <= 'f' || '0' <= c <= '9'
  }

  /** A completed, isolated, cleaned-up execution under the given runtime and a pinned image. */
  predicate ExecutionOk(e: Execution, completed: Option<bool>, runtime: string) {
    && e.schemaOk && completed == Some(true) && e.runtime == Some(runtime) && e.exitCode == Some(0)
    && e.cleanupSucceeded == Some(true) && e.timedOut == Some(false) && e.outputTruncated == Some(false)
    && e.oomKilled == Some(false) && e.image.Some? && IsHexDigest(e.image.value)
  }

  predicate CheckReport(kind: Kind, source: Artifact, a: Artifact, report: Report, runtime: string) {
    var analysis := kind == StaticAnalysisReport;
    && (if analysis then report.contentDigest else report.sourceDigest) == Some(source.meta.digest)
    && source.meta.id in a.meta.parents
    && a.meta.producer == (if analysis then STATIC_ANALYSIS_AGENT else TRUSTED_SANDBOX)
    && report.execution.Some?
    && (if analysis then
          report.analysis.Some? && report.analysis.value.run == source.meta.run && report.analysis.value.findings == 0
        else
          a.execution == report.execution && (kind == TestReport ==> report.ranTests))
    && ExecutionOk(report.execution.value, report.completed, runtime)
  }

  // ----- evidence in listing order -----

  datatype Candidate = Candidate(artifact: Artifact, report: Report)

  function CandidatesIn(kind: Kind, a: Artifact, reports: seq<Report>, source: Artifact): seq<Candidate> {
    if reports == [] then []
    else
      var last := reports[|reports| - 1];
      CandidatesIn(kind, a, reports[..|reports| - 1], source)
      + if Matches(kind, a, last, source) then [Candidate(a, last)] else []
  }

  function Candidates(kind: Kind, artifacts: seq<Artifact>, source: Artifact): seq<Candidate> {
    if artifacts == [] then []
    else
      var a := artifacts[|artifacts| - 1];
      Candidates(kind, artifacts[..|artifacts| - 1], source) + CandidatesIn(kind, a, Reports(a), source)
  }

  /** Report `j` of artifact `i` is the last evidence of this kind about the source. */
  ghost predicate LastEvidence(kind: Kind, artifacts: seq<Artifact>, source: Artifact, i: int, j: int) {
    && Evidence(kind, artifacts, source, i, j)
    && forall i', j' :: Evidence(kind, artifacts, source, i', j') ==> i' < i || (i' == i && j' <= j)
  }

  ghost predicate Evidence(kind: Kind, artifacts: seq<Artifact>, source: Artifact, i: int, j: int) {
    && 0 <= i < |artifacts| && 0 <= j < |Reports(artifacts[i])|
    && Matches(kind, artifacts[i], Reports(artifacts[i])[j], source)
  }

  lemma {:induction false} LastCandidateIn(kind: Kind, a: Artifact, reports: seq<Report>, source: Artifact)
    ensures var c := CandidatesIn(kind, a, reports, source);
            && (c == [] ==> forall j :: 0 <= j < |reports| ==> !Matches(kind, a, reports[j], source))
            && (c != [] ==> exists j :: 0 <= j < |reports| && Matches(kind, a, reports[j], source)
                              && c[|c| - 1] == Candidate(a, reports[j])
                              && forall j' :: j < j' < |reports| ==> !Matches(kind, a, reports[j'], source))
  {
    if reports != [] {
      LastCandidateIn(kind, a, reports[..|reports| - 1], source);
    }
  }

  lemma EvidenceBefore(kind: Kind, artifacts: seq<Artifact>, source: Artifact, n: nat, i: int, j: int)
    requires n <= |artifacts| && i < n
    ensures Evidence(kind, artifacts, source, i, j) <==> Evidence(kind, artifacts[..n], source, i, j)
  {
  }

  ghost predicate IsLastCandidate(kind: Kind, artifacts: seq<Artifact>, source: Artifact, c: Candidate, i: int, j: int) {
    LastEvidence(kind, artifacts, source, i, j) && c == Candidate(artifacts[i], Reports(artifacts[i])[j])
  }

  lemma LastInLastArtifact(kind: Kind, artifacts: seq<Artifact>, source: Artifact, n: nat)
    requires |artifacts| == n + 1 && CandidatesIn(kind, artifacts[n], Reports(artifacts[n]), source) != []
    ensures Proof(kind, artifacts, source).Some?
    ensures exists j :: IsLastCandidate(kind, artifacts, source, Proof(kind, artifacts, source).value, n, j)
  {
    LastCandidateIn(kind, artifacts[n], Reports(artifacts[n]), source);
    var last := CandidatesIn(kind, artifacts[n], Reports(artifacts[n]), source);
    var j :| 0 <= j < |Reports(artifacts[n])| && Matches(kind, artifacts[n], Reports(artifacts[n])[j], source)
             && last[|last| - 1] == Candidate(artifacts[n], Reports(artifacts[n])[j])
             && forall j' :: j < j' < |Reports(artifacts[n])| ==>
                  !Matches(kind, artifacts[n], Reports(artifacts[n])[j'], source);
    assert LastEvidence(kind, artifacts, source, n, j);
    var c := Candidates(kind, artifacts, source);
    assert c[|c| - 1] == last[|last| - 1];
    assert IsLastCandidate(kind, artifacts, source, Proof(kind, artifacts, source).value, n, j);
  }

  lemma LastBeforeLastArtifact(kind: Kind, artifacts: seq<Artifact>, source: Artifact, n: nat, c: Candidate, i: int, j: int)
    requires |artifacts| == n + 1 && CandidatesIn(kind, artifacts[n], Reports(artifacts[n]), source) == []
    requires IsLastCandidate(kind, artifacts[..n], source, c, i, j)
    ensures IsLastCandidate(kind, artifacts, source, c, i, j)
  {
    LastCandidateIn(kind, artifacts[n], Reports(artifacts[n]), source);
    EvidenceBefore(kind, artifacts, source, n, i, j);
    forall i', j' | Evidence(kind, artifacts, source, i', j') ensures i' < i || (i' == i && j' <= j) {
      assert i' < n;
      EvidenceBefore(kind, artifacts, source, n, i', j');
    }
  }

  ghost predicate NoEvidence(kind: Kind, artifacts: seq<Artifact>, source: Artifact) {
    forall i, j :: !Evidence(kind, artifacts, source, i, j)
  }

  ghost predicate IsLast(kind: Kind, artifacts: seq<Artifact>, source: Artifact, c: Candidate) {
    exists i, j :: IsLastCandidate(kind, artifacts, source, c, i, j)
  }

  lemma NoneInLastArtifact(kind: Kind, artifacts: seq<Artifact>, source: Artifact, n: nat)
    requires |artifacts| == n + 1 && CandidatesIn(kind, artifacts[n], Reports(artifacts[n]), source) == []
    ensures Proof(kind, artifacts, source) == Proof(kind, artifacts[..n], source)
    ensures NoEvidence(kind, artifacts[..n], source) ==> NoEvidence(kind, artifacts, source)
  {
    assert Candidates(kind, artifacts, source) == Candidates(kind, artifacts[..n], source);
    if NoEvidence(kind, artifacts[..n], source) {
      forall i, j ensures !Evidence(kind, artifacts, source, i, j) {
        NoEvidenceAt(kind, artifacts, source, n, i, j);
      }
    }
  }

  lemma NoEvidenceAt(kind: Kind, artifacts: seq<Artifact>, source: Artifact, n: nat, i: int, j: int)
    requires |artifacts| == n + 1 && CandidatesIn(kind, artifacts[n], Reports(artifacts[n]), source) == []
    requires !Evidence(kind, artifacts[..n], source, i, j)
    ensures !Evidence(kind, artifacts, source, i, j)
  {
    if i < n {
      EvidenceBefore(kind, artifacts, source, n, i, j);
    } else if i == n && 0 <= j < |Reports(artifacts[n])| {
      LastCandidateIn(kind, artifacts[n], Reports(artifacts[n]), source);
    }
  }

  lemma LastStaysLast(kind: Kind, artifacts: seq<Artifact>, source: Artifact, n: nat, c: Candidate)
    requires |artifacts| == n + 1 && CandidatesIn(kind, artifacts[n], Reports(artifacts[n]), source) == []
    requires IsLast(kind, artifacts[..n], source, c)
    ensures IsLast(kind, artifacts, source, c)
  {
    var i, j :| IsLastCandidate(kind, artifacts[..n], source, c, i, j);
    LastBeforeLastArtifact(kind, artifacts, source, n, c, i, j);
  }

  /** The report that counts is the last evidence, and there is none without evidence. */
  lemma {:induction false} ProofIsLastEvidence(kind: Kind, artifacts: seq<Artifact>, source: Artifact)
    ensures Proof(kind, artifacts, source).None? ==> NoEvidence(kind, artifacts, source)
    ensures Proof(kind, artifacts, source).Some? ==> IsLast(kind, artifacts, source, Proof(kind, artifacts, source).value)
  {
    if artifacts == [] {
      assert NoEvidence(kind, artifacts, source);
    } else {
      var n := |artifacts| - 1;
      if CandidatesIn(kind, artifacts[n], Reports(artifacts[n]), source) != [] {
        LastInLastArtifact(kind, artifacts, source, n);
      } else {
        ProofIsLastEvidence(kind, artifacts[..n], source);
        NoneInLastArtifact(kind, artifacts, source, n);
        if Proof(kind, artifacts, source).Some? {
          LastStaysLast(kind, artifacts, source, n, Proof(kind, artifacts, source).value);
        }
      }
    }
  }

  // ----- one evidence gate -----

  function Proof(kind: Kind, artifacts: seq<Artifact>, source: Artifact): Option<Candidate> {
    var c := Candidates(kind, artifacts, source);
    if c == [] then None else Some(c[|c| - 1])
  }

  predicate Proven(kind: Kind, artifacts: seq<Artifact>, source: Artifact, runtime: string) {
    var c := Proof(kind, artifacts, source);
    c.Some? && CheckReport(kind, source, c.value.artifact, c.value.report, runtime)
  }

  /** The three lists the scan builds: sources without evidence, sources failing it, and evidence ids once each. */
  datatype Scan = Scan(missing: seq<Id>, failures: seq<Id>, evidence: seq<Id>)

  function ScanSource(scan: Scan, proof: Option<Candidate>, source: Artifact, ok: bool): Scan {
    if proof.None? then scan.(missing := scan.missing + [source.meta.id])
    else
      var id := proof.value.artifact.meta.id;
      Scan(scan.missing, if ok then scan.failures else scan.failures + [source.meta.id],
           if id in scan.evidence then scan.evidence else scan.evidence + [id])
  }

  function ScanSources(kind: Kind, sources: seq<Artifact>, artifacts: seq<Artifact>, runtime: string): Scan {
    if sources == [] then Scan([], [], [])
    else
      var source := sources[|sources| - 1];
      ScanSource(ScanSources(kind, sources[..|sources| - 1], artifacts, runtime), Proof(kind, artifacts, source), source,
                 Proven(kind, artifacts, source, runtime))
  }

  function ExecutionGateOf(
    name: GateName, kind: Kind, sources: seq<Artifact>, artifacts: seq<Artifact>, runtime: string, ready: bool): Gate
  {
    if !ready then Gate(name, NotExecuted, [])
    else
      var scan := ScanSources(kind, sources, artifacts, runtime);
      Gate(name,
           if scan.missing != [] then NotExecuted else if scan.failures != [] then GateFailed else GatePassed,
           scan.evidence)
  }

  ghost predicate AllHaveProof(kind: Kind, sources: seq<Artifact>, artifacts: seq<Artifact>) {
    forall s :: s in sources ==> Proof(kind, artifacts, s).Some?
  }

  ghost predicate NoneFails(kind: Kind, sources: seq<Artifact>, artifacts: seq<Artifact>, runtime: string) {
    forall s :: s in sources ==> Spared(kind, s, artifacts, runtime)
  }

  /** Not among the failures: without evidence, or proven by it. */
  predicate Spared(kind: Kind, s: Artifact, artifacts: seq<Artifact>, runtime: string) {
    Proof(kind, artifacts, s).None? || Proven(kind, artifacts, s, runtime)
  }

  lemma {:induction false} ScanFinds(kind: Kind, sources: seq<Artifact>, artifacts: seq<Artifact>, runtime: string)
    ensures var scan := ScanSources(kind, sources, artifacts, runtime);
            && (scan.missing == [] <==> AllHaveProof(kind, sources, artifacts))
            && (scan.failures == [] <==> NoneFails(kind, sources, artifacts, runtime))
  {
    if sources != [] {
      var n := |sources| - 1;
      ScanFinds(kind, sources[..n], artifacts, runtime);
      OneMoreProof(kind, sources, artifacts, n);
      OneMorePasses(kind, sources, artifacts, runtime, n);
    }
  }

  lemma OneMoreProof(kind: Kind, sources: seq<Artifact>, artifacts: seq<Artifact>, n: nat)
    requires |sources| == n + 1
    ensures AllHaveProof(kind, sources, artifacts) <==>
              AllHaveProof(kind, sources[..n], artifacts) && Proof(kind, artifacts, sources[n]).Some?
  {
    LastAndRest(sources, n, s => Proof(kind, artifacts, s).Some?);
  }

  lemma OneMorePasses(kind: Kind, sources: seq<Artifact>, artifacts: seq<Artifact>, runtime: string, n: nat)
    requires |sources| == n + 1
    ensures NoneFails(kind, sources, artifacts, runtime) <==>
              NoneFails(kind, sources[..n], artifacts, runtime) && Spared(kind, sources[n], artifacts, runtime)
  {
    LastAndRest(sources, n, s => Spared(kind, s, artifacts, runtime));
  }

  lemma LastAndRest(sources: seq<Artifact>, n: nat, holds: Artifact -> bool)
    requires |sources| == n + 1
    ensures (forall s :: s in sources ==> holds(s)) <==> (forall s :: s in sources[..n] ==> holds(s)) && holds(sources[n])
  {
    assert sources == sources[..n] + [sources[n]];
  }

  /** Scans all evidence for each source; the last match counts. */
  method ExecutionGate(
    name: GateName, kind: Kind, sources: seq<Artifact>, artifacts: seq<Artifact>, runtime: string, ready: bool)
    returns (gate: Gate)
    ensures gate == ExecutionGateOf(name, kind, sources, artifacts, runtime, ready)
  {
    if !ready {
      return Gate(name, NotExecuted, []);
    }
    var evidence, failures, missing := [], [], [];
    for n := 0 to |sources|
      invariant Scan(missing, failures, evidence) == ScanSources(kind, sources[..n], artifacts, runtime)
    {
      var source := sources[n];
      assert sources[..n + 1][..n] == sources[..n];
      var last, ok := CheckSource(kind, source, artifacts, runtime);
      if last.None? {
        missing := missing + [source.meta.id];
      } else {
        if last.value.artifact.meta.id !in evidence {
          evidence := evidence + [last.value.artifact.meta.id];
        }
        if !ok {
          failures := failures + [source.meta.id];
        }
      }
    }
    assert sources[..|sources|] == sources;
    gate := Gate(name, if missing != [] then NotExecuted else if failures != [] then GateFailed else GatePassed, evidence);
  }

  method CheckSource(kind: Kind, source: Artifact, artifacts: seq<Artifact>, runtime: string)
    returns (last: Option<Candidate>, ok: bool)
    ensures last == Proof(kind, artifacts, source) && ok == Proven(kind, artifacts, source, runtime)
  {
    var candidates := CollectCandidates(kind, artifacts, source);
    if candidates == [] {
      return None, false;
    }
    last := Some(candidates[|candidates| - 1]);
    ok := CheckReport(kind, source, last.value.artifact, last.value.report, runtime);
  }

  method CollectCandidates(kind: Kind, artifacts: seq<Artifact>, source: Artifact) returns (candidates: seq<Candidate>)
    ensures candidates == Candidates(kind, artifacts, source)
  {
    candidates := [];
    for i := 0 to |artifacts|
      invariant candidates == Candidates(kind, artifacts[..i], source)
    {
      assert artifacts[..i + 1][..i] == artifacts[..i];
      var own := OwnCandidates(kind, artifacts[i], source);
      candidates := candidates + own;
    }
    assert artifacts[..|artifacts|] == artifacts;
  }

  method OwnCandidates(kind: Kind, a: Artifact, source: Artifact) returns (candidates: seq<Candidate>)
    ensures candidates == CandidatesIn(kind, a, Reports(a), source)
  {
    candidates := [];
    var reports := Reports(a);
    if a.meta.kind != kind {
      LastCandidateIn(kind, a, reports, source);
      return;
    }
    for j := 0 to |reports|
      invariant candidates == CandidatesIn(kind, a, reports[..j], source)
    {
      assert reports[..j + 1][..j] == reports[..j];
      if Matches(kind, a, reports[j], source) {
        candidates := candidates + [Candidate(a, reports[j])];
      }
    }
    assert reports[..|reports|] == reports;
  }

  // ----- the report -----

  predicate Intact(artifacts: seq<Artifact>, run: RunId) {
    && (forall a :: a in artifacts ==> a.meta.run == run && a.actual == a.meta.digest)
    && (forall i, j :: 0 <= i < j < |artifacts| ==> artifacts[i].meta.id != artifacts[j].meta.id)
  }

  function RequirementsGate(artifacts: seq<Artifact>): Gate {
    match Latest(artifacts, RequirementsSpec)
    case None => Gate(RequirementsSchema, NotExecuted, [])
    case Some(spec) =>
      Gate(RequirementsSchema, if RequirementsOk(spec) then GatePassed else GateFailed, [spec.meta.id])
  }

  predicate RequirementsOk(spec: Artifact) {
    spec.content.requirements.Some?
    && spec.content.requirements.value.functional != 0 && spec.content.requirements.value.acceptance != 0
  }

  function Executable(sources: seq<Artifact>): seq<Artifact> {
    if sources == [] then []
    else if sources[|sources| - 1].content.source.Some?
    then Executable(sources[..|sources| - 1]) + [sources[|sources| - 1]]
    else Executable(sources[..|sources| - 1])
  }

  predicate IsReact(sources: seq<Artifact>) {
    exists s :: s in sources && s.content.source.Some? && exists f :: f in s.content.source.value && HasPrefix(f.path, "ui/")
  }

  function VerdictOf(gates: seq<Gate>): Verdict {
    if exists g :: g in gates && g.status == NotExecuted then VerdictBlocked
    else if exists g :: g in gates && g.status == GateFailed then VerdictFailed
    else VerdictPassed
  }

  function AllGates(sources: seq<Artifact>, artifacts: seq<Artifact>, runtime: string): seq<Gate> {
    var executable := Executable(sources);
    var ready := sources != [] && |executable| == |sources|;
    [ Gate(ArtifactIntegrity, GatePassed, Ids(artifacts)),
      RequirementsGate(artifacts),
      Gate(ExecutableSource, if ready then GatePassed else NotExecuted, Ids(sources)),
      ExecutionGateOf(Build, BuildReport, executable, artifacts, runtime, ready),
      ExecutionGateOf(UnitTests, TestReport, executable, artifacts, runtime, ready),
      ExecutionGateOf(StaticAnalysis, StaticAnalysisReport, executable, artifacts, runtime, ready)]
  }

  function Evaluate(run: RunId, artifacts: seq<Artifact>, runtime: string): GateReport {
    if !Intact(artifacts, run)
    then GateReport(run, VerdictBlocked, [Gate(ArtifactIntegrity, GateFailed, [])], [], false)
    else
      var gates := AllGates(CurrentSources(artifacts), artifacts, runtime);
      var executable := Executable(CurrentSources(artifacts));
      GateReport(run, VerdictOf(gates), gates, Ids(executable), IsReact(executable))
  }

  /** The current sources, and those among them that validate. */
  method CollectSources(artifacts: seq<Artifact>) returns (sources: seq<Artifact>, executable: seq<Artifact>)
    ensures sources == CurrentSources(artifacts) && executable == Executable(sources)
  {
    var integrated := Latest(artifacts, IntegratedSource);
    if integrated.Some? {
      sources := [integrated.value];
    } else {
      sources := CollectChanges(artifacts);
    }
    executable := [];
    for n := 0 to |sources|
      invariant executable == Executable(sources[..n])
    {
      assert sources[..n + 1][..n] == sources[..n];
      if sources[n].content.source.Some? {
        executable := executable + [sources[n]];
      }
    }
    assert sources[..|sources|] == sources;
  }

  method BuildGates(sources: seq<Artifact>, executable: seq<Artifact>, artifacts: seq<Artifact>, runtime: string)
    returns (gates: seq<Gate>)
    requires executable == Executable(sources)
    ensures gates == AllGates(sources, artifacts, runtime)
  {
    var ready := sources != [] && |executable| == |sources|;
    gates := [Gate(ArtifactIntegrity, GatePassed, Ids(artifacts)), RequirementsGate(artifacts),
              Gate(ExecutableSource, if ready then GatePassed else NotExecuted, Ids(sources))];
    var build := ExecutionGate(Build, BuildReport, executable, artifacts, runtime, ready);
    var tests := ExecutionGate(UnitTests, TestReport, executable, artifacts, runtime, ready);
    var analysis := ExecutionGate(StaticAnalysis, StaticAnalysisReport, executable, artifacts, runtime, ready);
    gates := gates + [build, tests, analysis];
  }

  method EvaluateGates(run: RunId, artifacts: seq<Artifact>, runtime: string) returns (report: GateReport)
    ensures report == Evaluate(run, artifacts, runtime)
  {
    if !Intact(artifacts, run) {
      return GateReport(run, VerdictBlocked, [Gate(ArtifactIntegrity, GateFailed, [])], [], false);
    }
    var sources, executable := CollectSources(artifacts);
    var gates := BuildGates(sources, executable, artifacts, runtime);
    report := GateReport(run, VerdictOf(gates), gates, Ids(executable), IsReact(executable));
  }

  lemma {:induction false} ExecutableIsAll(sources: seq<Artifact>)
    ensures |Executable(sources)| <= |sources|
    ensures |Executable(sources)| == |sources| <==> forall s :: s in sources ==> s.content.source.Some?
    ensures |Executable(sources)| == |sources| ==> Executable(sources) == sources
  {
    if sources != [] {
      var n := |sources| - 1;
      assert sources == sources[..n] + [sources[n]];
      ExecutableIsAll(sources[..n]);
    }
  }

  // ----- soundness and completeness -----

  /** For this source and kind there is evidence, and the last of it checks. */
  ghost predicate LastEvidenceChecks(kind: Kind, artifacts: seq<Artifact>, source: Artifact, runtime: string) {
    exists i, j :: LastEvidence(kind, artifacts, source, i, j)
      && CheckReport(kind, source, artifacts[i], Reports(artifacts[i])[j], runtime)
  }

  /** What the last evidence of a kind is: a listed report about the source that checks. */
  lemma ChecksGiveReport(kind: Kind, artifacts: seq<Artifact>, source: Artifact, runtime: string)
    returns (a: Artifact, r: Report)
    requires LastEvidenceChecks(kind, artifacts, source, runtime)
    ensures a in artifacts && r in Reports(a) && Matches(kind, a, r, source) && CheckReport(kind, source, a, r, runtime)
  {
    var i, j :| LastEvidence(kind, artifacts, source, i, j)
      && CheckReport(kind, source, artifacts[i], Reports(artifacts[i])[j], runtime);
    EvidenceIsListed(kind, artifacts, source, i, j);
    a, r := artifacts[i], Reports(artifacts[i])[j];
  }

  lemma EvidenceIsListed(kind: Kind, artifacts: seq<Artifact>, source: Artifact, i: int, j: int)
    requires Evidence(kind, artifacts, source, i, j)
    ensures artifacts[i] in artifacts && Reports(artifacts[i])[j] in Reports(artifacts[i])
    ensures Matches(kind, artifacts[i], Reports(artifacts[i])[j], source)
  {
  }

  lemma ProvenIff(kind: Kind, artifacts: seq<Artifact>, source: Artifact, runtime: string)
    ensures Proven(kind, artifacts, source, runtime) <==> LastEvidenceChecks(kind, artifacts, source, runtime)
  {
    ProofIsLastEvidence(kind, artifacts, source);
    if LastEvidenceChecks(kind, artifacts, source, runtime) {
      var i, j :| LastEvidence(kind, artifacts, source, i, j)
        && CheckReport(kind, source, artifacts[i], Reports(artifacts[i])[j], runtime);
      assert Evidence(kind, artifacts, source, i, j);
      var i', j' :| IsLastCandidate(kind, artifacts, source, Proof(kind, artifacts, source).value, i', j');
      assert i == i' && j == j';
    }
  }

  const EVIDENCE_KINDS := {BuildReport, TestReport, StaticAnalysisReport}

  ghost predicate AllProven(kind: Kind, sources: seq<Artifact>, artifacts: seq<Artifact>, runtime: string) {
    forall s :: s in sources ==> LastEvidenceChecks(kind, artifacts, s, runtime)
  }

  lemma EvidenceGatePassedIff(name: GateName, kind: Kind, sources: seq<Artifact>, artifacts: seq<Artifact>, runtime: string)
    ensures ExecutionGateOf(name, kind, sources, artifacts, runtime, true).status == GatePassed <==>
            AllProven(kind, sources, artifacts, runtime)
  {
    ScanFinds(kind, sources, artifacts, runtime);
    forall s | s in sources
      ensures Proven(kind, artifacts, s, runtime) <==> LastEvidenceChecks(kind, artifacts, s, runtime)
    {
      ProvenIff(kind, artifacts, s, runtime);
    }
  }

  /** Source of the run that validates and whose last evidence of every kind checks. */
  ghost predicate FullyProven(artifacts: seq<Artifact>, source: Artifact, runtime: string) {
    && source.content.source.Some?
    && forall kind :: kind in EVIDENCE_KINDS ==> LastEvidenceChecks(kind, artifacts, source, runtime)
  }

  /**
    The verdict is passed exactly when identities are intact, requirements hold, there is current source, all
    of it validates, and for every source and every evidence kind the last matching report checks.
   */
  lemma PassedIff(run: RunId, artifacts: seq<Artifact>, runtime: string)
    ensures Evaluate(run, artifacts, runtime).verdict.VerdictPassed? <==>
            && Intact(artifacts, run)
            && Latest(artifacts, RequirementsSpec).Some? && RequirementsOk(Latest(artifacts, RequirementsSpec).value)
            && CurrentSources(artifacts) != []
            && forall s :: s in CurrentSources(artifacts) ==> FullyProven(artifacts, s, runtime)
  {
    if Intact(artifacts, run) {
      PassedIsAllPassed(AllGates(CurrentSources(artifacts), artifacts, runtime));
      GatesPassedIff(artifacts, runtime);
    }
  }

  predicate Ready(sources: seq<Artifact>) {
    sources != [] && forall s :: s in sources ==> s.content.source.Some?
  }

  lemma GatesPassedIff(artifacts: seq<Artifact>, runtime: string)
    ensures (forall g :: g in AllGates(CurrentSources(artifacts), artifacts, runtime) ==> g.status == GatePassed) <==>
            && RequirementsGate(artifacts).status == GatePassed
            && CurrentSources(artifacts) != []
            && forall s :: s in CurrentSources(artifacts) ==> FullyProven(artifacts, s, runtime)
  {
    var sources := CurrentSources(artifacts);
    SixGates(AllGates(sources, artifacts, runtime));
    ExecutableIsAll(sources);
    if Ready(sources) {
      ReadyGates(sources, artifacts, runtime);
    } else {
      assert AllGates(sources, artifacts, runtime)[2].status == NotExecuted;
      if s :| s in sources && s.content.source.None? {
        assert !FullyProven(artifacts, s, runtime);
      }
    }
  }

  lemma ReadyList(sources: seq<Artifact>, artifacts: seq<Artifact>, runtime: string)
    requires Ready(sources)
    ensures AllGates(sources, artifacts, runtime) ==
      [ Gate(ArtifactIntegrity, GatePassed, Ids(artifacts)),
        RequirementsGate(artifacts),
        Gate(ExecutableSource, GatePassed, Ids(sources)),
        ExecutionGateOf(Build, BuildReport, sources, artifacts, runtime, true),
        ExecutionGateOf(UnitTests, TestReport, sources, artifacts, runtime, true),
        ExecutionGateOf(StaticAnalysis, StaticAnalysisReport, sources, artifacts, runtime, true)]
  {
    ExecutableIsAll(sources);
  }

  lemma ReadyAt(sources: seq<Artifact>, artifacts: seq<Artifact>, runtime: string)
    requires Ready(sources)
    ensures var g := AllGates(sources, artifacts, runtime);
            && g[0].status == GatePassed && g[1] == RequirementsGate(artifacts) && g[2].status == GatePassed
            && g[3] == ExecutionGateOf(Build, BuildReport, sources, artifacts, runtime, true)
            && g[4] == ExecutionGateOf(UnitTests, TestReport, sources, artifacts, runtime, true)
            && g[5] == ExecutionGateOf(StaticAnalysis, StaticAnalysisReport, sources, artifacts, runtime, true)
  {
    ReadyList(sources, artifacts, runtime);
    ElementsOfSix(AllGates(sources, artifacts, runtime), Gate(ArtifactIntegrity, GatePassed, Ids(artifacts)),
                  RequirementsGate(artifacts), Gate(ExecutableSource, GatePassed, Ids(sources)),
                  ExecutionGateOf(Build, BuildReport, sources, artifacts, runtime, true),
                  ExecutionGateOf(UnitTests, TestReport, sources, artifacts, runtime, true),
                  ExecutionGateOf(StaticAnalysis, StaticAnalysisReport, sources, artifacts, runtime, true));
  }

  lemma ElementsOfSix(g: seq<Gate>, a: Gate, b: Gate, c: Gate, d: Gate, e: Gate, f: Gate)
    requires g == [a, b, c, d, e, f]
    ensures |g| == 6 && g[0] == a && g[1] == b && g[2] == c && g[3] == d && g[4] == e && g[5] == f
  {
  }

  lemma ReadyStatuses(sources: seq<Artifact>, artifacts: seq<Artifact>, runtime: string)
    requires Ready(sources)
    ensures var g := AllGates(sources, artifacts, runtime);
            && g[0].status == GatePassed && g[1] == RequirementsGate(artifacts) && g[2].status == GatePassed
            && (g[3].status == GatePassed <==> AllProven(BuildReport, sources, artifacts, runtime))
            && (g[4].status == GatePassed <==> AllProven(TestReport, sources, artifacts, runtime))
            && (g[5].status == GatePassed <==> AllProven(StaticAnalysisReport, sources, artifacts, runtime))
  {
    ReadyAt(sources, artifacts, runtime);
    EvidenceGatePassedIff(Build, BuildReport, sources, artifacts, runtime);
    EvidenceGatePassedIff(UnitTests, TestReport, sources, artifacts, runtime);
    EvidenceGatePassedIff(StaticAnalysis, StaticAnalysisReport, sources, artifacts, runtime);
  }

  lemma ReadyGates(sources: seq<Artifact>, artifacts: seq<Artifact>, runtime: string)
    requires Ready(sources)
    ensures var g := AllGates(sources, artifacts, runtime);
            && g[0].status == GatePassed && g[1] == RequirementsGate(artifacts) && g[2].status == GatePassed
            && (g[3].status == GatePassed && g[4].status == GatePassed && g[5].status == GatePassed
                <==> forall s :: s in sources ==> FullyProven(artifacts, s, runtime))
  {
    ReadyStatuses(sources, artifacts, runtime);
    AllKindsProven(sources, artifacts, runtime);
  }

  lemma KindByKind(artifacts: seq<Artifact>, s: Artifact, runtime: string)
    ensures FullyProven(artifacts, s, runtime) <==>
              && s.content.source.Some? && LastEvidenceChecks(BuildReport, artifacts, s, runtime)
              && LastEvidenceChecks(TestReport, artifacts, s, runtime)
              && LastEvidenceChecks(StaticAnalysisReport, artifacts, s, runtime)
  {
    EachKind(kind => LastEvidenceChecks(kind, artifacts, s, runtime));
  }

  lemma EachKind(holds: Kind -> bool)
    ensures (forall kind :: kind in EVIDENCE_KINDS ==> holds(kind)) <==>
              holds(BuildReport) && holds(TestReport) && holds(StaticAnalysisReport)
  {
    assert BuildReport in EVIDENCE_KINDS && TestReport in EVIDENCE_KINDS && StaticAnalysisReport in EVIDENCE_KINDS;
  }

  lemma AllKindsProven(sources: seq<Artifact>, artifacts: seq<Artifact>, runtime: string)
    ensures (forall s :: s in sources ==> FullyProven(artifacts, s, runtime)) <==>
            && (forall s :: s in sources ==> s.content.source.Some?)
            && AllProven(BuildReport, sources, artifacts, runtime)
            && AllProven(TestReport, sources, artifacts, runtime)
            && AllProven(StaticAnalysisReport, sources, artifacts, runtime)
  {
    forall s | s in sources
      ensures FullyProven(artifacts, s, runtime) <==>
                && s.content.source.Some? && LastEvidenceChecks(BuildReport, artifacts, s, runtime)
                && LastEvidenceChecks(TestReport, artifacts, s, runtime)
                && LastEvidenceChecks(StaticAnalysisReport, artifacts, s, runtime)
    {
      KindByKind(artifacts, s, runtime);
    }
  }

  lemma SixGates(gates: seq<Gate>)
    requires |gates| == 6
    ensures (forall g :: g in gates ==> g.status == GatePassed) <==>
            && gates[0].status == GatePassed && gates[1].status == GatePassed && gates[2].status == GatePassed
            && gates[3].status == GatePassed && gates[4].status == GatePassed && gates[5].status == GatePassed
  {
    assert gates == [gates[0], gates[1], gates[2], gates[3], gates[4], gates[5]];
  }

  lemma PassedIsAllPassed(gates: seq<Gate>)
    ensures VerdictOf(gates).VerdictPassed? <==> forall g :: g in gates ==> g.status == GatePassed
  {
  }

  ghost predicate HasEvidence(kind: Kind, artifacts: seq<Artifact>, source: Artifact) {
    exists i, j :: Evidence(kind, artifacts, source, i, j)
  }

  lemma EvidenceGateMissingIff(name: GateName, kind: Kind, sources: seq<Artifact>, artifacts: seq<Artifact>, runtime: string)
    ensures ExecutionGateOf(name, kind, sources, artifacts, runtime, true).status == NotExecuted <==>
            LacksEvidence(kind, sources, artifacts)
  {
    ScanFinds(kind, sources, artifacts, runtime);
    forall s | s in sources ensures Proof(kind, artifacts, s).Some? <==> HasEvidence(kind, artifacts, s) {
      ProofIffEvidence(kind, artifacts, s);
    }
  }

  lemma ProofIffEvidence(kind: Kind, artifacts: seq<Artifact>, s: Artifact)
    ensures Proof(kind, artifacts, s).Some? <==> HasEvidence(kind, artifacts, s)
  {
    ProofIsLastEvidence(kind, artifacts, s);
    if Proof(kind, artifacts, s).Some? {
      var i, j :| IsLastCandidate(kind, artifacts, s, Proof(kind, artifacts, s).value, i, j);
      assert Evidence(kind, artifacts, s, i, j);
    }
  }

  /** The verdict is blocked exactly when an identity, an input, a source bundle or a piece of evidence is missing. */
  lemma BlockedIff(run: RunId, artifacts: seq<Artifact>, runtime: string)
    ensures Evaluate(run, artifacts, runtime).verdict.VerdictBlocked? <==>
            || !Intact(artifacts, run)
            || Latest(artifacts, RequirementsSpec).None?
            || !Ready(CurrentSources(artifacts))
            || exists kind :: kind in EVIDENCE_KINDS && LacksEvidence(kind, CurrentSources(artifacts), artifacts)
  {
    if Intact(artifacts, run) {
      var sources := CurrentSources(artifacts);
      if Ready(sources) {
        ReadyMissing(sources, artifacts, runtime);
      } else {
        UnreadyMissing(sources, artifacts, runtime);
      }
    }
  }

  lemma UnreadyMissing(sources: seq<Artifact>, artifacts: seq<Artifact>, runtime: string)
    requires !Ready(sources)
    ensures VerdictOf(AllGates(sources, artifacts, runtime)).VerdictBlocked?
  {
    ExecutableIsAll(sources);
    assert AllGates(sources, artifacts, runtime)[2].status == NotExecuted;
  }

  lemma ReadyMissing(sources: seq<Artifact>, artifacts: seq<Artifact>, runtime: string)
    requires Ready(sources)
    ensures VerdictOf(AllGates(sources, artifacts, runtime)).VerdictBlocked? <==>
            || Latest(artifacts, RequirementsSpec).None?
            || exists kind :: kind in EVIDENCE_KINDS && LacksEvidence(kind, sources, artifacts)
  {
    var gates := AllGates(sources, artifacts, runtime);
    assert VerdictOf(gates).VerdictBlocked? <==>
        gates[1].status == NotExecuted || gates[3].status == NotExecuted
        || gates[4].status == NotExecuted || gates[5].status == NotExecuted by {
      ReadyList(sources, artifacts, runtime);
      SixMissing(gates);
    }
    assert gates[1] == RequirementsGate(artifacts);
    ReadyList(sources, artifacts, runtime);
    MissingEvidence(sources, artifacts, runtime);
  }

  ghost predicate LacksEvidence(kind: Kind, sources: seq<Artifact>, artifacts: seq<Artifact>) {
    exists s :: s in sources && !HasEvidence(kind, artifacts, s)
  }

  lemma MissingEvidence(sources: seq<Artifact>, artifacts: seq<Artifact>, runtime: string)
    ensures (ExecutionGateOf(Build, BuildReport, sources, artifacts, runtime, true).status == NotExecuted
             || ExecutionGateOf(UnitTests, TestReport, sources, artifacts, runtime, true).status == NotExecuted
             || ExecutionGateOf(StaticAnalysis, StaticAnalysisReport, sources, artifacts, runtime, true).status == NotExecuted)
            <==> exists kind :: kind in EVIDENCE_KINDS && LacksEvidence(kind, sources, artifacts)
  {
    EvidenceGateMissingIff(Build, BuildReport, sources, artifacts, runtime);
    EvidenceGateMissingIff(UnitTests, TestReport, sources, artifacts, runtime);
    EvidenceGateMissingIff(StaticAnalysis, StaticAnalysisReport, sources, artifacts, runtime);
    SomeKindLacks(sources, artifacts);
  }

  lemma SomeKindLacks(sources: seq<Artifact>, artifacts: seq<Artifact>)
    ensures (exists kind :: kind in EVIDENCE_KINDS && LacksEvidence(kind, sources, artifacts)) <==>
              LacksEvidence(BuildReport, sources, artifacts) || LacksEvidence(TestReport, sources, artifacts)
              || LacksEvidence(StaticAnalysisReport, sources, artifacts)
  {
    assert BuildReport in EVIDENCE_KINDS && TestReport in EVIDENCE_KINDS && StaticAnalysisReport in EVIDENCE_KINDS;
  }

  lemma SixMissing(gates: seq<Gate>)
    requires |gates| == 6
    ensures VerdictOf(gates).VerdictBlocked? <==>
            || gates[0].status == NotExecuted || gates[1].status == NotExecuted || gates[2].status == NotExecuted
            || gates[3].status == NotExecuted || gates[4].status == NotExecuted || gates[5].status == NotExecuted
  {
    assert gates == [gates[0], gates[1], gates[2], gates[3], gates[4], gates[5]];
  }

  /** No report listed so far speaks about this artifact id. */
  ghost predicate Unreferenced(artifacts: seq<Artifact>, id: Id) {
    forall a, r :: a in artifacts && r in Reports(a) ==> r.artifactId != Some(id) && r.sourceArtifactId != Some(id)
  }

  /** New current source always turns the verdict to blocked: earlier evidence cannot qualify it. */
  lemma NewSourceBlocks(run: RunId, artifacts: seq<Artifact>, source: Artifact, runtime: string)
    requires source.meta.kind == IntegratedSource
             || (source.meta.kind == CodeChange && Latest(artifacts, IntegratedSource).None?)
    requires Unreferenced(artifacts, source.meta.id)
    ensures source in CurrentSources(artifacts + [source])
    ensures Evaluate(run, artifacts + [source], runtime).verdict.VerdictBlocked?
  {
    var all := artifacts + [source];
    assert all[..|all| - 1] == artifacts;
    if source.meta.kind == CodeChange {
      assert Latest(all, IntegratedSource).None?;
      LatestChangesAreLast(artifacts);
      UpsertMembers(LatestChanges(artifacts), source);
    }
    forall i, j ensures !Evidence(BuildReport, all, source, i, j) {
      if 0 <= i < |artifacts| && 0 <= j < |Reports(artifacts[i])| {
        assert artifacts[i] in artifacts && Reports(artifacts[i])[j] in Reports(artifacts[i]);
      }
    }
    assert !HasEvidence(BuildReport, all, source);
    assert LacksEvidence(BuildReport, CurrentSources(all), all) && BuildReport in EVIDENCE_KINDS;
    BlockedIff(run, all, runtime);
  }
}
