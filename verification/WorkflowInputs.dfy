/** Whenever the workflow reaches a stage, everything the stage requires has been published and still stands. */
module WorkflowInputs {
  import opened Kinds
  import opened Publication
  import opened Artifacts
  import opened Catalog
  import opened HubIndex
  import opened Workflow
  import Context
  import Sources

  type Execution = Workflow.Execution

  predicate InCatalog(spec: AgentSpec) {
    spec in AgentsByStage(spec.stage)
  }

  ghost predicate OutputsBefore(index: seq<Artifact>, stage: Stage) {
    forall spec :: InCatalog(spec) && StageIndex(spec.stage) < StageIndex(stage) ==> HasOutput(index, spec)
  }

  /**
    The listing a stage needs: the output of every agent of an earlier stage, and the hub's own integrated
    source and gate report once their stage is prepared.
   */
  ghost predicate Stocked(index: seq<Artifact>, stage: Stage, prepared: bool) {
    && OutputsBefore(index, stage)
    && (Integrated(stage, prepared) ==> HasKind(index, IntegratedSource))
    && (Gated(stage, prepared) ==> HasKind(index, QualityGateReport))
  }

  predicate Integrated(stage: Stage, prepared: bool) {
    StageIndex(stage) > 6 || (stage == Integration && prepared)
  }

  predicate Gated(stage: Stage, prepared: bool) {
    StageIndex(stage) > 7 || (stage == Stage.Evaluation && prepared)
  }

  // ----- the catalog fits the rank order -----

  /** The rank of what a stage's agents publish. */
  function StageRank(stage: Stage): int {
    match stage
    case Preflight => -1
    case Intake => 0
    case Requirements => 1
    case Discovery => 2
    case Planning => 3
    case Implementation => 4
    case Integration => 6
    case Evaluation => 8
    case Release => 9
  }

  ghost predicate WellPlaced(spec: AgentSpec, stage: Stage) {
    && spec.stage == stage && Rank(spec.kind) == StageRank(stage) >= 0
    && spec.name != TRUSTED_SANDBOX
    && (spec.kind == CodeChange ==> spec.name in {Sources.BACKEND, Sources.FRONTEND, Sources.TESTS})
  }

  lemma EarlyAgents()
    ensures WellPlaced(INTAKE, Intake) && WellPlaced(REQUIREMENTS, Stage.Requirements) && WellPlaced(PLANNING, Planning)
  {
  }

  lemma DiscoveryAgents()
    ensures WellPlaced(ARCHITECTURE, Discovery) && WellPlaced(UX, Discovery)
    ensures WellPlaced(SECURITY, Discovery) && WellPlaced(TEST_PLANNER, Discovery)
  {
  }

  lemma SourceAgents()
    ensures WellPlaced(BACKEND_AGENT, Implementation) && WellPlaced(FRONTEND_AGENT, Implementation)
    ensures WellPlaced(TEST_AGENT, Implementation)
  {
  }

  lemma LateAgents()
    ensures WellPlaced(BUILD, Integration) && WellPlaced(VALIDATION, Integration)
    ensures WellPlaced(STATIC_ANALYSIS, Integration)
    ensures WellPlaced(EVALUATION, Stage.Evaluation) && WellPlaced(RELEASE, Release)
  {
  }

  lemma AgentFacts(stage: Stage, spec: AgentSpec)
    requires spec in AgentsByStage(stage)
    ensures WellPlaced(spec, stage)
  {
    EarlyAgents();
    DiscoveryAgents();
    SourceAgents();
    LateAgents();
  }

  /** Agents of one stage publish into different slots. */
  lemma SlotsDiffer(stage: Stage, a: AgentSpec, b: AgentSpec)
    requires a in AgentsByStage(stage) && b in AgentsByStage(stage) && a != b
    ensures a.kind != b.kind || a.name != b.name
  {
    assert |Sources.BACKEND| == 13 && |Sources.FRONTEND| == 14 && |Sources.TESTS| == 10;
  }

  /** The stage whose agents make a kind; the hub makes the integrated source and the gate report itself. */
  function MakingStage(kind: Kind): Stage {
    match kind
    case ProjectBrief => Intake
    case RequirementsSpec => Stage.Requirements
    case ArchitectureDecision => Discovery
    case UxSpecification => Discovery
    case ThreatModel => Discovery
    case TestPlan => Discovery
    case ImplementationPlan => Planning
    case BuildReport => Integration
    case TestReport => Integration
    case StaticAnalysisReport => Integration
    case EvaluationReport => Stage.Evaluation
    case _ => Release
  }

  /** Made by an agent of an earlier stage, or by the hub when it prepares the stage. */
  predicate MadeBefore(kind: Kind, stage: Stage) {
    || (kind == IntegratedSource && StageIndex(stage) >= 6)
    || (kind == QualityGateReport && StageIndex(stage) >= 7)
    || StageIndex(MakingStage(kind)) < StageIndex(stage)
  }

  predicate InputMade(d: ArtifactInput, stage: Stage) {
    d.required ==> d.producer.None? && MadeBefore(d.kind, stage)
  }

  predicate InputsMade(inputs: seq<ArtifactInput>, stage: Stage) {
    forall i :: 0 <= i < |inputs| ==> InputMade(inputs[i], stage)
  }

  lemma EarlyInputs()
    ensures InputsMade(INTAKE.inputs, Intake) && InputsMade(REQUIREMENTS.inputs, Stage.Requirements)
    ensures InputsMade(ARCHITECTURE.inputs, Discovery) && InputsMade(UX.inputs, Discovery)
    ensures InputsMade(SECURITY.inputs, Discovery) && InputsMade(TEST_PLANNER.inputs, Discovery)
    ensures InputsMade(PLANNING.inputs, Planning)
  {
  }

  lemma SourceInputs()
    ensures InputsMade(BACKEND_AGENT.inputs, Implementation) && InputsMade(FRONTEND_AGENT.inputs, Implementation)
    ensures InputsMade(TEST_AGENT.inputs, Implementation)
  {
  }

  lemma LateInputs()
    ensures InputsMade(BUILD.inputs, Integration) && InputsMade(VALIDATION.inputs, Integration)
    ensures InputsMade(STATIC_ANALYSIS.inputs, Integration)
    ensures InputsMade(RELEASE.inputs, Release)
  {
  }

  lemma EvaluationInputs()
    ensures InputsMade(EVALUATION.inputs, Stage.Evaluation)
  {
  }

  /** No agent requires anything that is not made before its stage runs. */
  lemma InputsAreMade(stage: Stage, spec: AgentSpec)
    requires spec in AgentsByStage(stage)
    ensures InputsMade(spec.inputs, stage)
  {
    EarlyInputs();
    SourceInputs();
    LateInputs();
    EvaluationInputs();
  }

  function Maker(kind: Kind): AgentSpec {
    match kind
    case RequirementsSpec => REQUIREMENTS
    case ArchitectureDecision => ARCHITECTURE
    case UxSpecification => UX
    case ThreatModel => SECURITY
    case TestPlan => TEST_PLANNER
    case ImplementationPlan => PLANNING
    case BuildReport => BUILD
    case TestReport => VALIDATION
    case StaticAnalysisReport => STATIC_ANALYSIS
    case EvaluationReport => EVALUATION
    case _ => INTAKE
  }

  lemma MakerMakes(kind: Kind)
    requires MakingStage(kind) != Release
    ensures Maker(kind) in AgentsByStage(MakingStage(kind)) && Maker(kind).stage == MakingStage(kind) && Maker(kind).kind == kind
  {
  }

  lemma StockHolds(index: seq<Artifact>, stage: Stage, kind: Kind)
    requires Stocked(index, stage, true) && MadeBefore(kind, stage)
    ensures HasKind(index, kind)
  {
    if StageIndex(MakingStage(kind)) < StageIndex(stage) {
      MakerMakes(kind);
      var a :| a in index && IsOutput(a, Maker(kind));
      assert a.meta.kind == kind;
    }
  }

  lemma StockSupplies(index: seq<Artifact>, stage: Stage, inputs: seq<ArtifactInput>)
    requires Stocked(index, stage, true) && InputsMade(inputs, stage)
    ensures Context.Select(inputs, index).Some?
  {
    Context.SelectSucceedsIff(inputs, index);
    forall d | d in inputs && d.required ensures Context.Available(index, d) {
      var i :| 0 <= i < |inputs| && inputs[i] == d;
      assert InputMade(inputs[i], stage);
      StockHolds(index, stage, d.kind);
      var a :| a in index && a.meta.kind == d.kind;
      assert Context.Matches(a, d);
    }
  }

  // ----- publications keep what a stage needs -----

  /** A publication that outranks a slot, or takes another slot of the same rank, leaves it alone. */
  predicate Spares(m: Meta, kind: Kind, producer: string) {
    m.Snapshot() ==> Rank(kind) <= Rank(m.kind) && (kind != m.kind || producer != m.producer)
  }

  lemma PublishKeepsOutput(index: seq<Artifact>, a: Artifact, spec: AgentSpec)
    requires HasOutput(index, spec) && Spares(a.meta, spec.kind, spec.name)
    ensures HasOutput(PublishTo(index, a), spec)
  {
    KeepMembers(index, a.meta);
    var b :| b in index && IsOutput(b, spec);
    assert b in PublishTo(index, a);
  }

  lemma PublishKeepsKind(index: seq<Artifact>, a: Artifact, kind: Kind)
    requires HasKind(index, kind) && (a.meta.Snapshot() ==> Rank(kind) <= Rank(a.meta.kind))
    ensures HasKind(PublishTo(index, a), kind)
  {
    KeepMembers(index, a.meta);
    var b :| b in index && b.meta.kind == kind;
    assert a in PublishTo(index, a);
    assert Hits(a.meta, b.meta) || b in PublishTo(index, a);
  }

  /** What may be published while a stage is served: records, the hub's own part, then the agents' outputs. */
  predicate Fits(m: Meta, stage: Stage, prepared: bool) {
    || !m.Snapshot()
    || Rank(m.kind) == StageRank(stage)
    || (!prepared && stage == Integration && m.kind == IntegratedSource)
    || (!prepared && stage == Stage.Evaluation && m.kind == QualityGateReport)
  }

  lemma FittingSpares(m: Meta, stage: Stage, prepared: bool, spec: AgentSpec)
    requires Fits(m, stage, prepared) && InCatalog(spec) && StageIndex(spec.stage) < StageIndex(stage)
    ensures Spares(m, spec.kind, spec.name)
  {
    AgentFacts(spec.stage, spec);
    RanksFollowStages(spec.stage, stage);
  }

  lemma RanksFollowStages(early: Stage, late: Stage)
    requires StageIndex(early) < StageIndex(late)
    ensures StageRank(early) < StageRank(late)
    ensures late == Integration ==> StageRank(early) < Rank(IntegratedSource)
    ensures late == Stage.Evaluation ==> StageRank(early) < Rank(QualityGateReport)
  {
  }

  lemma PublishKeepsOutputs(index: seq<Artifact>, a: Artifact, stage: Stage, prepared: bool)
    requires OutputsBefore(index, stage) && Fits(a.meta, stage, prepared)
    ensures OutputsBefore(PublishTo(index, a), stage)
  {
    forall spec | InCatalog(spec) && StageIndex(spec.stage) < StageIndex(stage)
      ensures HasOutput(PublishTo(index, a), spec)
    {
      FittingSpares(a.meta, stage, prepared, spec);
      PublishKeepsOutput(index, a, spec);
    }
  }

  lemma FittingOutranks(m: Meta, stage: Stage, prepared: bool)
    requires Fits(m, stage, prepared) && m.Snapshot()
    ensures Integrated(stage, prepared) ==> Rank(IntegratedSource) <= Rank(m.kind)
    ensures Gated(stage, prepared) ==> Rank(QualityGateReport) <= Rank(m.kind)
  {
  }

  lemma PublishKeepsStock(index: seq<Artifact>, a: Artifact, stage: Stage, prepared: bool)
    requires Stocked(index, stage, prepared) && Fits(a.meta, stage, prepared)
    ensures Stocked(PublishTo(index, a), stage, prepared)
  {
    PublishKeepsOutputs(index, a, stage, prepared);
    if a.meta.Snapshot() {
      FittingOutranks(a.meta, stage, prepared);
    }
    if Integrated(stage, prepared) {
      PublishKeepsKind(index, a, IntegratedSource);
    }
    if Gated(stage, prepared) {
      PublishKeepsKind(index, a, QualityGateReport);
    }
  }
}
