/** Artifacts with the parts of their JSON content that the hub's readers look at. */
module Artifacts {
  import opened Kinds
  import opened Results
  import opened Publication
  import opened HumanDecisions

  /** `size` is the length of the UTF-8 encoding of the content. */
  datatype SourceFile = SourceFile(path: string, content: string, size: nat)

  datatype Requirements = Requirements(functional: nat, acceptance: nat)

  /** Isolation evidence. `schemaOk` says whether the fixed sandbox schema validates it. */
  datatype Execution = Execution(
    schemaOk: bool, runtime: Option<string>, exitCode: Option<int>, cleanupSucceeded: Option<bool>,
    timedOut: Option<bool>, outputTruncated: Option<bool>, oomKilled: Option<bool>, image: Option<string>)

  /** What the analyzer's report schema yields when it validates. */
  datatype Analysis = Analysis(run: RunId, findings: nat)

  /** One report dictionary; an absent key is `None`. */
  datatype Report = Report(
    artifactId: Option<Id>, sourceArtifactId: Option<Id>, contentDigest: Option<Digest>, sourceDigest: Option<Digest>,
    analysis: Option<Analysis>, execution: Option<Execution>, completed: Option<bool>, ranTests: bool)

  datatype GateName = ArtifactIntegrity | RequirementsSchema | ExecutableSource | Build | UnitTests | StaticAnalysis

  datatype GateStatus = GatePassed | GateFailed | NotExecuted

  datatype Gate = Gate(name: GateName, status: GateStatus, evidence: seq<Id>)

  datatype Verdict = VerdictPassed | VerdictFailed | VerdictBlocked

  datatype GateReport = GateReport(run: RunId, verdict: Verdict, gates: seq<Gate>, sources: seq<Id>, react: bool)

  datatype Rubric = Applicable(score: real) | NotApplicable

  datatype Evaluation = NotEvaluated | Evaluated(
    requirementCoverage: Rubric, mvpCompleteness: Rubric, usability: Rubric,
    architecture: Rubric, maintainability: Rubric, riskAcceptance: Rubric)

  /** The release bundle's content. */
  datatype Bundle = Bundle(files: seq<SourceFile>, source: Id, gate: Id, evaluation: Id, evidence: seq<Id>)

  /** A content seen through each reader's schema: `None` where that schema does not validate. */
  datatype Content = Content(
    requirements: Option<Requirements>, source: Option<seq<SourceFile>>, reports: Option<seq<Report>>,
    gates: Option<GateReport>, evaluation: Option<Evaluation>, decision: Option<Decision>, answers: Option<Digest>,
    bundle: Option<Bundle>)

  const EMPTY := Content(None, None, None, None, None, None, None, None)

  /** `actual` is the digest of the content as read; `execution` is the manifest's own execution record. */
  datatype Artifact = Artifact(meta: Meta, content: Content, actual: Digest, execution: Option<Execution>)

  function Ids(artifacts: seq<Artifact>): (ids: seq<Id>)
    ensures |ids| == |artifacts|
    ensures forall i :: 0 <= i < |ids| ==> ids[i] == artifacts[i].meta.id
  {
    seq(|artifacts|, i requires 0 <= i < |artifacts| => artifacts[i].meta.id)
  }

  /** The last artifact of a kind, in listing order. */
  function Latest(artifacts: seq<Artifact>, kind: Kind): (last: Option<Artifact>)
    ensures last.Some? ==> last.value in artifacts && last.value.meta.kind == kind
    ensures last.None? <==> forall a :: a in artifacts ==> a.meta.kind != kind
  {
    if artifacts == [] then None
    else if artifacts[|artifacts| - 1].meta.kind == kind then Some(artifacts[|artifacts| - 1])
    else Latest(artifacts[..|artifacts| - 1], kind)
  }

  predicate HasPrefix(text: string, prefix: string) {
    prefix <= text
  }

  predicate HasSuffix(text: string, suffix: string) {
    |suffix| <= |text| && text[|text| - |suffix|..] == suffix
  }
}
