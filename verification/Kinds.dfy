/** Artifact kinds, workflow stages and the rank order that invalidation rests on. */
module Kinds {

  datatype Kind =
    | HostCapabilityReport | SandboxQualificationReport | SandboxRecoveryReport
    | ProjectBrief | RequirementsSpec | ArchitectureDecision | UxSpecification | ThreatModel | TestPlan
    | ImplementationPlan | CodeChange | IntegratedSource | BuildReport | TestReport | StaticAnalysisReport
    | QualityGateReport | RepairRequest | EvaluationReport | ReleaseBundle | HumanRequest | HumanResponse

  datatype Stage =
    | Preflight | Intake | Requirements | Discovery | Planning | Implementation | Integration | Evaluation | Release

  datatype RunStatus = Pending | Running | InputRequired | Completed | Failed | Canceled | Blocked

  const SNAPSHOT_KINDS: set<Kind> := {
    ProjectBrief, RequirementsSpec, ArchitectureDecision, UxSpecification, ThreatModel, TestPlan,
    ImplementationPlan, CodeChange, IntegratedSource, BuildReport, TestReport, StaticAnalysisReport,
    QualityGateReport, EvaluationReport, ReleaseBundle }

  const GROUPS: seq<set<Kind>> := [
    {ProjectBrief},
    {RequirementsSpec},
    {ArchitectureDecision, UxSpecification, ThreatModel, TestPlan},
    {ImplementationPlan},
    {CodeChange},
    {IntegratedSource},
    {BuildReport, TestReport, StaticAnalysisReport},
    {QualityGateReport},
    {EvaluationReport},
    {ReleaseBundle}]

  function UnionFrom(i: nat): set<Kind>
    requires i <= |GROUPS|
    decreases |GROUPS| - i
  {
    if i == |GROUPS| then {} else GROUPS[i] + UnionFrom(i + 1)
  }

  function InvalidatedFrom(i: nat, kind: Kind): set<Kind>
    requires i <= |GROUPS|
    decreases |GROUPS| - i
  {
    if i == |GROUPS| then {}
    else if kind in GROUPS[i] then UnionFrom(i + 1)
    else InvalidatedFrom(i + 1, kind)
  }

  /** Every kind in a group after the one that holds `kind`; nothing for a kind outside all groups. */
  function InvalidatedKinds(kind: Kind): set<Kind> {
    InvalidatedFrom(0, kind)
  }

  /** Position of a snapshot kind in the dependency order, -1 for records. */
  function Rank(kind: Kind): int {
    match kind
    case ProjectBrief => 0
    case RequirementsSpec => 1
    case ArchitectureDecision => 2
    case UxSpecification => 2
    case ThreatModel => 2
    case TestPlan => 2
    case ImplementationPlan => 3
    case CodeChange => 4
    case IntegratedSource => 5
    case BuildReport => 6
    case TestReport => 6
    case StaticAnalysisReport => 6
    case QualityGateReport => 7
    case EvaluationReport => 8
    case ReleaseBundle => 9
    case _ => -1
  }

  predicate Upstream(kind: Kind, other: Kind) {
    0 <= Rank(kind) < Rank(other)
  }

  lemma GroupIsRank(i: nat, kind: Kind)
    requires i < |GROUPS|
    ensures kind in GROUPS[i] <==> Rank(kind) == i
  {
    if i < 5 {
      if i == 0 {} else if i == 1 {} else if i == 2 {} else if i == 3 {} else {}
    } else {
      if i == 5 {} else if i == 6 {} else if i == 7 {} else if i == 8 {} else {}
    }
  }

  lemma {:induction false} UnionFromRank(i: nat, kind: Kind)
    requires i <= |GROUPS|
    ensures kind in UnionFrom(i) <==> i <= Rank(kind)
    decreases |GROUPS| - i
  {
    if i < |GROUPS| {
      GroupIsRank(i, kind);
      UnionFromRank(i + 1, kind);
    }
  }

  lemma {:induction false} InvalidatedFromRank(i: nat, kind: Kind, other: Kind)
    requires i <= |GROUPS| && (Rank(kind) < 0 || i <= Rank(kind))
    ensures other in InvalidatedFrom(i, kind) <==> Upstream(kind, other)
    decreases |GROUPS| - i
  {
    if i < |GROUPS| {
      GroupIsRank(i, kind);
      UnionFromRank(i + 1, other);
      if Rank(kind) != i {
        InvalidatedFromRank(i + 1, kind, other);
      }
    }
  }

  /** The invalidated kinds of a kind are exactly the kinds strictly downstream of it. */
  lemma InvalidatedIffUpstream(kind: Kind)
    ensures forall other :: other in InvalidatedKinds(kind) <==> Upstream(kind, other)
  {
    forall other ensures other in InvalidatedKinds(kind) <==> Upstream(kind, other) {
      InvalidatedFromRank(0, kind, other);
    }
  }

  /** The snapshot kinds are exactly the ranked ones, so every snapshot takes part in invalidation. */
  lemma SnapshotIffRanked(kind: Kind)
    ensures kind in SNAPSHOT_KINDS <==> 0 <= Rank(kind)
    ensures kind in SNAPSHOT_KINDS <==> kind in UnionFrom(0)
  {
    UnionFromRank(0, kind);
  }
}
