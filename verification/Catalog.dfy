/** Scheduling and input contracts of the specialists. */
module Catalog {
  import opened Kinds
  import opened Results

  datatype ArtifactInput = ArtifactInput(kind: Kind, producer: Option<string>, required: bool, fallback: Option<Kind>)

  datatype AgentSpec = AgentSpec(name: string, stage: Stage, kind: Kind, inputs: seq<ArtifactInput>)

  function Needs(kind: Kind): ArtifactInput {
    ArtifactInput(kind, None, true, None)
  }

  function May(kind: Kind): ArtifactInput {
    ArtifactInput(kind, None, false, None)
  }

  function MayFrom(kind: Kind, producer: string): ArtifactInput {
    ArtifactInput(kind, Some(producer), false, None)
  }

  /** Integrated source, or the component sources when there is none. */
  const SOURCE_INPUT := ArtifactInput(IntegratedSource, None, false, Some(CodeChange))

  const INTAKE := AgentSpec("intake-agent", Intake, ProjectBrief,
                            [MayFrom(ProjectBrief, "intake-agent"), May(HumanResponse)])
  const REQUIREMENTS := AgentSpec("requirements-agent", Requirements, RequirementsSpec,
                                  [Needs(ProjectBrief), May(HumanResponse)])
  const ARCHITECTURE := AgentSpec("architecture-agent", Discovery, ArchitectureDecision,
                                  [Needs(ProjectBrief), Needs(RequirementsSpec)])
  const UX := AgentSpec("ux-agent", Discovery, UxSpecification, [Needs(ProjectBrief), Needs(RequirementsSpec)])
  const SECURITY := AgentSpec("security-agent", Discovery, ThreatModel, [Needs(ProjectBrief), Needs(RequirementsSpec)])
  const TEST_PLANNER := AgentSpec("test-planner-agent", Discovery, TestPlan,
                                  [Needs(ProjectBrief), Needs(RequirementsSpec)])
  const PLANNING := AgentSpec("planning-agent", Planning, ImplementationPlan,
                              [Needs(RequirementsSpec), Needs(ArchitectureDecision), Needs(UxSpecification),
                               Needs(ThreatModel), Needs(TestPlan)])
  const BACKEND_AGENT := AgentSpec("backend-agent", Implementation, CodeChange,
                                   [Needs(RequirementsSpec), Needs(ArchitectureDecision), Needs(ImplementationPlan),
                                    May(IntegratedSource), MayFrom(CodeChange, "backend-agent")])
  const FRONTEND_AGENT := AgentSpec("frontend-agent", Implementation, CodeChange,
                                    [Needs(RequirementsSpec), Needs(ArchitectureDecision), Needs(UxSpecification),
                                     Needs(ImplementationPlan), May(IntegratedSource),
                                     MayFrom(CodeChange, "frontend-agent")])
  const TEST_AGENT := AgentSpec("test-agent", Implementation, CodeChange,
                                [Needs(RequirementsSpec), Needs(TestPlan), Needs(ImplementationPlan),
                                 May(IntegratedSource), MayFrom(CodeChange, "test-agent")])
  const BUILD := AgentSpec("build-agent", Integration, BuildReport, [SOURCE_INPUT])
  const VALIDATION := AgentSpec("validation-agent", Integration, TestReport,
                                [Needs(RequirementsSpec), Needs(TestPlan), SOURCE_INPUT])
  const STATIC_ANALYSIS := AgentSpec("static-analysis-agent", Integration, StaticAnalysisReport, [SOURCE_INPUT])
  const EVALUATION := AgentSpec("evaluation-agent", Evaluation, EvaluationReport,
                                [Needs(RequirementsSpec), Needs(ArchitectureDecision), Needs(UxSpecification),
                                 Needs(ThreatModel), Needs(TestPlan), May(IntegratedSource), Needs(BuildReport),
                                 Needs(TestReport), MayFrom(BuildReport, "trusted-sandbox-service"),
                                 MayFrom(TestReport, "trusted-sandbox-service"), Needs(StaticAnalysisReport),
                                 Needs(QualityGateReport)])
  const RELEASE := AgentSpec("release-agent", Release, ReleaseBundle,
                             [May(IntegratedSource), Needs(QualityGateReport), Needs(EvaluationReport),
                              May(HumanResponse)])

  function AgentsByStage(stage: Stage): seq<AgentSpec> {
    match stage
    case Preflight => []
    case Intake => [INTAKE]
    case Requirements => [REQUIREMENTS]
    case Discovery => [ARCHITECTURE, UX, SECURITY, TEST_PLANNER]
    case Planning => [PLANNING]
    case Implementation => [BACKEND_AGENT, FRONTEND_AGENT, TEST_AGENT]
    case Integration => [BUILD, VALIDATION, STATIC_ANALYSIS]
    case Evaluation => [EVALUATION]
    case Release => [RELEASE]
  }

  function StageIndex(stage: Stage): nat {
    match stage
    case Preflight => 0
    case Intake => 1
    case Requirements => 2
    case Discovery => 3
    case Planning => 4
    case Implementation => 5
    case Integration => 6
    case Evaluation => 7
    case Release => 8
  }
}
