/** Over every run: invalidation and partial reuse never take away what the current stage requires. */
module WorkflowSupply {
  import opened Kinds
  import opened Results
  import Publication
  import opened Artifacts
  import opened Catalog
  import opened HubIndex
  import opened Workflow
  import opened WorkflowInputs
  import Context
  import Sources
  import WorkflowLifecycle

  type Execution = Workflow.Execution
  type Step = Workflow.Step

  // ----- rows -----

  ghost predicate Proper(c: Config, a: Artifact) {
    && a.meta.run == c.run
    && (a.meta.kind == CodeChange ==> a.meta.producer in {Sources.BACKEND, Sources.FRONTEND, Sources.TESTS})
    && (a.meta.kind in {QualityGateReport, EvaluationReport} ==> a.meta.Snapshot())
  }

  /** A review stands on a gate report, and a gate report on integrated source. */
  ghost predicate Supported(index: seq<Artifact>) {
    && (HasKind(index, EvaluationReport) ==> HasKind(index, QualityGateReport))
    && (HasKind(index, QualityGateReport) ==> HasKind(index, IntegratedSource))
  }

  ghost predicate Rows(c: Config, index: seq<Artifact>) {
    (forall a :: a in index ==> Proper(c, a)) && Supported(index)
  }

  predicate StandsOn(upper: Kind, lower: Kind) {
    (upper == EvaluationReport && lower == QualityGateReport) || (upper == QualityGateReport && lower == IntegratedSource)
  }

  /** Whatever deletes the lower kind deletes the upper one over it, or is of the lower kind itself. */
  lemma LowerOutlastsUpper(c: Config, a: Artifact, b: Artifact, g: Artifact)
    requires Proper(c, b) && Proper(c, g) && StandsOn(b.meta.kind, g.meta.kind) && !Publication.Hits(a.meta, b.meta)
    ensures a.meta.kind == g.meta.kind || !Publication.Hits(a.meta, g.meta)
  {
  }

  /** What is indexed over something it stands on never outlives it. */
  lemma PublishKeepsRows(c: Config, index: seq<Artifact>, a: Artifact)
    requires Rows(c, index) && Proper(c, a)
    requires a.meta.kind == EvaluationReport ==> HasKind(index, QualityGateReport)
    requires a.meta.kind == QualityGateReport ==> HasKind(index, IntegratedSource)
    ensures Rows(c, PublishTo(index, a))
  {
    KeepMembers(index, a.meta);
    if HasKind(PublishTo(index, a), EvaluationReport) {
      SupportStays(c, index, a, EvaluationReport, QualityGateReport);
    }
    if HasKind(PublishTo(index, a), QualityGateReport) {
      SupportStays(c, index, a, QualityGateReport, IntegratedSource);
    }
  }

  lemma SupportStays(c: Config, index: seq<Artifact>, a: Artifact, upper: Kind, lower: Kind)
    requires (forall b :: b in index ==> Proper(c, b)) && StandsOn(upper, lower)
    requires HasKind(PublishTo(index, a), upper) && (HasKind(index, upper) || a.meta.kind == upper ==> HasKind(index, lower))
    ensures HasKind(PublishTo(index, a), lower)
  {
    KeepMembers(index, a.meta);
    if a.meta.kind == upper {
      PublishKeepsKind(index, a, lower);
    } else {
      var b :| b in PublishTo(index, a) && b.meta.kind == upper;
      assert HasKind(index, upper);
      var g :| g in index && g.meta.kind == lower;
      LowerOutlastsUpper(c, a, b, g);
      assert a in PublishTo(index, a);
    }
  }

  // ----- what an execution can rely on -----

  ghost predicate Done(index: seq<Artifact>, stage: Stage, busy: set<AgentSpec>) {
    forall spec :: spec in AgentsByStage(stage) && spec !in busy ==> HasOutput(index, spec)
  }

  ghost predicate SavedStand(index: seq<Artifact>, e: Execution, stage: Stage, saved: set<AgentSpec>) {
    && saved <= AgentSet(stage)
    && (forall spec :: spec in saved ==> HasOutput(index, spec))
    && (saved != {} ==> Reuses(e, stage) && (stage == Integration ==> HasKind(index, IntegratedSource)))
  }

  ghost predicate Supplied(index: seq<Artifact>, e: Execution) {
    match e.phase
    case Turn(stage) => StageIndex(stage) >= 1 && Stocked(index, stage, false)
    case Opened(stage, saved) =>
      StageIndex(stage) >= 1 && Stocked(index, stage, false) && SavedStand(index, e, stage, saved)
    case Working(stage, context, waiting, active) =>
      && StageIndex(stage) >= 1 && Stocked(index, stage, true) && Stocked(context, stage, true)
      && waiting <= AgentSet(stage) && active <= AgentSet(stage) && Done(index, stage, waiting + active)
    case Deciding => Stocked(index, Release, false) && HasOutput(index, EVALUATION)
    case _ => true
  }

  ghost predicate Ready(f: Effect) {
    f.next.Some? ==> Supplied(f.run.index, f.next.value)
  }

  /** A stage whose agents have all delivered stocks the next one. */
  lemma DoneStocksNext(index: seq<Artifact>, stage: Stage)
    requires 1 <= StageIndex(stage) < 8 && Stocked(index, stage, true) && Done(index, stage, {})
    ensures Stocked(index, NextStage(stage), false)
  {
    var next := NextStage(stage);
    WorkflowLifecycle.NextStageIsNearer(stage);
    forall spec | InCatalog(spec) && StageIndex(spec.stage) < StageIndex(next) ensures HasOutput(index, spec) {
      if StageIndex(spec.stage) == StageIndex(stage) {
        SameStage(spec.stage, stage);
      }
    }
  }

  lemma SameStage(a: Stage, b: Stage)
    requires StageIndex(a) == StageIndex(b)
    ensures a == b
  {
  }

  lemma EarlierIsStocked(index: seq<Artifact>, early: Stage, late: Stage)
    requires Stocked(index, late, false) && StageIndex(early) <= StageIndex(late)
    ensures Stocked(index, early, false)
  {
  }

  lemma SavedHaveOutputs(r: Run, e: Execution, stage: Stage)
    requires Reuses(e, stage)
    ensures SavedStand(r.index, e, stage, Saved(r, e, stage))
  {
    forall spec | spec in Saved(r, e, stage) ensures HasOutput(r.index, spec) {
      var a :| a in r.index && IsSaved(r, e, spec, a);
      assert IsOutput(a, spec);
    }
  }

  lemma SavedIsDone(index: seq<Artifact>, e: Execution, stage: Stage, saved: set<AgentSpec>)
    requires Stocked(index, stage, false) && 1 <= StageIndex(stage) <= 6
    requires SavedStand(index, e, stage, saved) && saved == AgentSet(stage)
    ensures Stocked(index, stage, true) && Done(index, stage, {})
  {
    if stage == Integration {
      assert BUILD in saved;
    }
    forall spec | spec in AgentsByStage(stage) ensures HasOutput(index, spec) {
      assert spec in saved;
    }
  }

  lemma SavedStocksNext(index: seq<Artifact>, e: Execution, stage: Stage, saved: set<AgentSpec>)
    requires Stocked(index, stage, false) && 1 <= StageIndex(stage) <= 6
    requires SavedStand(index, e, stage, saved) && saved == AgentSet(stage)
    ensures Stocked(index, NextStage(stage), false)
  {
    SavedIsDone(index, e, stage, saved);
    DoneStocksNext(index, stage);
  }

  lemma SkipFacts(r: Run, e: Execution, stage: Stage)
    requires Skips(r, e, stage)
    ensures StageIndex(stage) <= 6 && Reuses(e, stage) && Saved(r, e, stage) == AgentSet(stage)
  {
  }

  lemma NextIsLater(stage: Stage)
    requires StageIndex(stage) <= 6
    ensures StageIndex(NextStage(stage)) >= 1
  {
    WorkflowLifecycle.NextStageIsNearer(stage);
  }

  lemma SkipReady(r: Run, e: Execution, stage: Stage, saved: set<AgentSpec>)
    requires Stocked(r.index, stage, false) && 1 <= StageIndex(stage) <= 6
    requires Reuses(e, stage) && saved == Saved(r, e, stage) && saved == AgentSet(stage)
    ensures Stocked(r.index, NextStage(stage), false)
  {
    assert SavedStand(r.index, e, stage, saved) by {
      SavedHaveOutputs(r, e, stage);
    }
    SavedStocksNext(r.index, e, stage, saved);
  }

  lemma OpenReady(r: Run, e: Execution, stage: Stage)
    ensures SavedStand(r.index, e, stage, if Reuses(e, stage) then Saved(r, e, stage) else {})
  {
    if Reuses(e, stage) {
      SavedHaveOutputs(r, e, stage);
    }
  }

  lemma VisitReady(r: Run, e: Execution)
    requires Supplied(r.index, e) && e.phase.Turn?
    ensures Ready(AfterVisit(r, e))
  {
    if Skips(r, e, e.phase.stage) {
      SkipFacts(r, e, e.phase.stage);
      SkipReady(r, e, e.phase.stage, Saved(r, e, e.phase.stage));
      NextIsLater(e.phase.stage);
    } else {
      OpenReady(r, e, e.phase.stage);
    }
  }

  /** Saved outputs of a stage survive its preparation: they are there only if nothing has to be prepared. */
  lemma PrepareReady(c: Config, r: Run, e: Execution, a: Artifact)
    requires Rows(c, r.index) && Supplied(r.index, e) && CanPrepare(c, r, e, a)
    ensures Ready(AfterPrepare(r, e, a)) && Rows(c, AfterPrepare(r, e, a).run.index)
  {
    var stage, saved := e.phase.stage, e.phase.saved;
    if saved != {} {
      SavedNeedsNothing(c, r, e);
    }
    var next := AfterPrepare(r, e, a).run.index;
    if NeedsIntegration(r, e) || NeedsGates(r, e) {
      HubPartStocks(c, r.index, a, stage);
    } else {
      assert Stocked(next, stage, true);
    }
    PreparedDone(next, stage, saved);
  }

  /** The hub's own part completes the stock of its stage. */
  lemma HubPartStocks(c: Config, index: seq<Artifact>, a: Artifact, stage: Stage)
    requires Rows(c, index) && Stocked(index, stage, false) && a.meta.run == c.run
    requires (stage == Integration && a.meta.kind == IntegratedSource)
             || (stage == Stage.Evaluation && a.meta.kind == QualityGateReport && a.meta.producer == GATEKEEPER)
    ensures Rows(c, PublishTo(index, a)) && Stocked(PublishTo(index, a), stage, true)
  {
    HubPartKeepsRows(c, index, a);
    PublishKeepsStock(index, a, stage, false);
    PublishedIsListed(index, a);
    StockCompleted(PublishTo(index, a), stage, a.meta.kind);
  }

  lemma PublishedIsListed(index: seq<Artifact>, a: Artifact)
    ensures HasKind(PublishTo(index, a), a.meta.kind)
  {
    assert a in PublishTo(index, a);
  }

  lemma StockCompleted(index: seq<Artifact>, stage: Stage, kind: Kind)
    requires Stocked(index, stage, false) && HasKind(index, kind)
    requires (stage == Integration && kind == IntegratedSource) || (stage == Stage.Evaluation && kind == QualityGateReport)
    ensures Stocked(index, stage, true)
  {
  }

  lemma HubPartKeepsRows(c: Config, index: seq<Artifact>, a: Artifact)
    requires Rows(c, index) && a.meta.run == c.run
    requires a.meta.kind == IntegratedSource
             || (a.meta.kind == QualityGateReport && a.meta.producer == GATEKEEPER && HasKind(index, IntegratedSource))
    ensures Rows(c, PublishTo(index, a))
  {
    assert GATEKEEPER[0] != Publication.TRUSTED_SANDBOX[0];
    PublishKeepsRows(c, index, a);
  }

  lemma SavedNeedsNothing(c: Config, r: Run, e: Execution)
    requires Rows(c, r.index) && Supplied(r.index, e) && e.phase.Opened? && e.phase.saved != {}
    ensures !NeedsIntegration(r, e) && !NeedsGates(r, e)
  {
    if e.phase.stage == Stage.Evaluation {
      assert EVALUATION in e.phase.saved;
      var b :| b in r.index && IsOutput(b, EVALUATION);
      assert b.meta.kind == EvaluationReport;
    }
  }

  lemma PreparedDone(index: seq<Artifact>, stage: Stage, saved: set<AgentSpec>)
    requires forall spec :: spec in saved ==> HasOutput(index, spec)
    ensures Done(index, stage, AgentSet(stage) - saved + {})
  {
  }

  lemma CloseReady(r: Run, e: Execution)
    requires Supplied(r.index, e) && e.phase.Working? && e.phase.waiting == {} && e.phase.active == {}
    ensures Ready(AfterClose(r, e))
  {
    var stage := e.phase.stage;
    if stage != Release {
      DoneStocksNext(r.index, stage);
      WorkflowLifecycle.NextStageIsNearer(stage);
      if stage == Stage.Evaluation {
        assert EVALUATION in AgentsByStage(stage);
      }
    }
  }

  lemma TurnReady(index: seq<Artifact>, e: Execution)
    requires Stocked(index, Release, false) && e.phase in {Turn(Release), Turn(Implementation)}
    ensures Supplied(index, e)
  {
    if e.phase == Turn(Implementation) {
      EarlierIsStocked(index, Implementation, Release);
      TurnSupplied(index, e, Implementation);
    } else {
      TurnSupplied(index, e, Release);
    }
  }

  lemma TurnSupplied(index: seq<Artifact>, e: Execution, stage: Stage)
    requires e.phase == Turn(stage) && StageIndex(stage) >= 1 && Stocked(index, stage, false)
    ensures Supplied(index, e)
  {
  }

  lemma DecideReady(c: Config, r: Run, e: Execution, step: Step)
    requires Stocked(r.index, Release, false) && Reviewable(r) && step.Decide?
    ensures Ready(AfterDecide(c, r, e, step.human))
  {
    var f := AfterDecide(c, r, e, step.human);
    if f.next.Some? {
      TurnReady(f.run.index, f.next.value);
    }
  }

  lemma BeginningIsStocked(index: seq<Artifact>)
    ensures Stocked(index, Intake, false)
  {
    forall spec | InCatalog(spec) ensures StageIndex(spec.stage) >= 1 {
    }
  }

  /** An agent's output leaves its colleagues' outputs alone and takes its own slot. */
  lemma OutputIsPublished(c: Config, index: seq<Artifact>, stage: Stage, spec: AgentSpec, a: Artifact, busy: set<AgentSpec>)
    requires Rows(c, index) && Stocked(index, stage, true) && Done(index, stage, busy)
    requires spec in AgentsByStage(stage) && IsOutput(a, spec) && a.meta.run == c.run
    ensures Rows(c, PublishTo(index, a)) && Stocked(PublishTo(index, a), stage, true)
    ensures Done(PublishTo(index, a), stage, busy - {spec})
  {
    OutputKeepsStock(c, index, stage, spec, a);
    OutputKeepsDone(index, stage, spec, a, busy);
  }

  lemma OutputKeepsDone(index: seq<Artifact>, stage: Stage, spec: AgentSpec, a: Artifact, busy: set<AgentSpec>)
    requires Done(index, stage, busy) && spec in AgentsByStage(stage) && IsOutput(a, spec)
    ensures Done(PublishTo(index, a), stage, busy - {spec})
  {
    forall other | other in AgentsByStage(stage) && other !in busy - {spec} ensures HasOutput(PublishTo(index, a), other) {
      if other == spec {
        assert a in PublishTo(index, a);
      } else {
        ColleagueIsSpared(index, stage, spec, a, other);
      }
    }
  }

  lemma OutputKeepsStock(c: Config, index: seq<Artifact>, stage: Stage, spec: AgentSpec, a: Artifact)
    requires Rows(c, index) && Stocked(index, stage, true)
    requires spec in AgentsByStage(stage) && IsOutput(a, spec) && a.meta.run == c.run
    ensures Rows(c, PublishTo(index, a)) && Stocked(PublishTo(index, a), stage, true)
  {
    AgentFacts(stage, spec);
    PublishKeepsStock(index, a, stage, true);
    OutputIsProper(c, stage, spec, a);
    PublishKeepsRows(c, index, a);
  }

  lemma OutputIsProper(c: Config, stage: Stage, spec: AgentSpec, a: Artifact)
    requires WellPlaced(spec, stage) && IsOutput(a, spec) && a.meta.run == c.run
    ensures Proper(c, a) && a.meta.kind != QualityGateReport
    ensures a.meta.kind == EvaluationReport ==> stage == Stage.Evaluation
  {
  }

  lemma ColleagueIsSpared(index: seq<Artifact>, stage: Stage, spec: AgentSpec, a: Artifact, other: AgentSpec)
    requires spec in AgentsByStage(stage) && IsOutput(a, spec)
    requires other in AgentsByStage(stage) && other != spec && HasOutput(index, other)
    ensures HasOutput(PublishTo(index, a), other)
  {
    AgentFacts(stage, spec);
    AgentFacts(stage, other);
    SlotsDiffer(stage, spec, other);
    PublishKeepsOutput(index, a, other);
  }

  lemma DeliverReady(c: Config, r: Run, e: Execution, step: Step)
    requires Rows(c, r.index) && Supplied(r.index, e) && step.Deliver? && AgentCanStep(c, r, e, step)
    ensures Ready(AfterAgent(r, e, step)) && Rows(c, AfterAgent(r, e, step).run.index)
  {
    var Working(stage, context, waiting, active) := e.phase;
    OutputIsPublished(c, r.index, stage, step.spec, step.artifact, waiting + active);
    PreparedAgain(PublishTo(r.index, step.artifact), stage, waiting + active - {step.spec}, waiting + (active - {step.spec}));
  }

  lemma AskReady(c: Config, r: Run, e: Execution, step: Step)
    requires Rows(c, r.index) && Supplied(r.index, e) && step.Ask? && AgentCanStep(c, r, e, step)
    ensures Ready(AfterAgent(r, e, step)) && Rows(c, AfterAgent(r, e, step).run.index)
  {
    var Working(stage, context, waiting, active) := e.phase;
    if step.draft.Some? {
      OutputIsPublished(c, r.index, stage, step.spec, step.draft.value, waiting + active);
      PreparedAgain(PublishTo(r.index, step.draft.value), stage, waiting + active - {step.spec}, waiting + active);
    }
  }

  /** An agent that may still be busy need not have delivered. */
  lemma PreparedAgain(index: seq<Artifact>, stage: Stage, busy: set<AgentSpec>, more: set<AgentSpec>)
    requires Done(index, stage, busy) && busy <= more
    ensures Done(index, stage, more)
  {
  }

  /** A cached output stands in for the agent. */
  lemma HitDone(index: seq<Artifact>, stage: Stage, waiting: set<AgentSpec>, active: set<AgentSpec>, spec: AgentSpec)
    requires Done(index, stage, waiting + active) && HasOutput(index, spec)
    ensures Done(index, stage, waiting - {spec} + active)
  {
  }

  lemma HitReady(c: Config, r: Run, e: Execution, step: Step)
    requires Supplied(r.index, e) && step.Hit? && AgentCanStep(c, r, e, step)
    ensures Ready(AfterAgent(r, e, step))
  {
    HitDone(r.index, e.phase.stage, e.phase.waiting, e.phase.active, step.spec);
  }

  lemma InvokeReady(c: Config, r: Run, e: Execution, step: Step)
    requires Supplied(r.index, e) && (step.Invoke? || step.Answered?) && AgentCanStep(c, r, e, step)
    ensures Ready(AfterAgent(r, e, step))
  {
    var Working(stage, context, waiting, active) := e.phase;
    if step.Invoke? {
      PreparedAgain(r.index, stage, waiting + active, waiting - {step.spec} + (active + {step.spec}));
    }
  }

  lemma AgentReady(c: Config, r: Run, e: Execution, step: Step)
    requires Rows(c, r.index) && Supplied(r.index, e) && AtAgent(step) && AgentCanStep(c, r, e, step)
    ensures Ready(AfterAgent(r, e, step)) && Rows(c, AfterAgent(r, e, step).run.index)
  {
    if step.Deliver? {
      DeliverReady(c, r, e, step);
    } else if step.Ask? {
      AskReady(c, r, e, step);
    } else if step.Hit? {
      HitReady(c, r, e, step);
    } else {
      InvokeReady(c, r, e, step);
    }
  }

  // ----- over whole runs -----

  ghost predicate Inv(c: Config, h: Hub) {
    && WorkflowLifecycle.Inv(c, h) && Rows(c, h.run.index)
    && forall k :: k in h.executions ==> Supplied(h.run.index, h.executions[k])
  }

  lemma EffectSupplied(c: Config, r: Run, e: Execution, step: Step)
    requires Rows(c, r.index) && Supplied(r.index, e) && Inside(step) && CanStep(c, r, e, step)
    ensures Ready(After(c, r, e, step)) && Rows(c, After(c, r, e, step).run.index)
  {
    if AtAgent(step) {
      AgentReady(c, r, e, step);
    } else if step.Prepare? {
      PrepareReady(c, r, e, step.artifact);
    } else {
      LoopReady(c, r, e, step);
    }
  }

  lemma LoopReady(c: Config, r: Run, e: Execution, step: Step)
    requires Supplied(r.index, e) && Inside(step) && CanStep(c, r, e, step) && !AtAgent(step) && !step.Prepare?
    ensures Ready(After(c, r, e, step)) && After(c, r, e, step).run.index == r.index
  {
    if step.Visit? {
      VisitReady(r, e);
    } else if step.Close? {
      CloseReady(r, e);
    } else if step.Decide? {
      DecideReady(c, r, e, step);
    } else if step.Checked? {
      BeginningIsStocked(r.index);
    }
  }

  /** Records never replace anything. */
  lemma RecordKeepsSupply(index: seq<Artifact>, e: Execution, a: Artifact)
    requires Supplied(index, e) && IsRecord(a)
    ensures Supplied(PublishTo(index, a), e)
  {
    KeepAll(index, a.meta);
    assert PublishTo(index, a) == index + [a];
    MoreKeepsSupply(index, a, e);
  }

  lemma MoreKeepsSupply(index: seq<Artifact>, a: Artifact, e: Execution)
    requires Supplied(index, e)
    ensures Supplied(index + [a], e)
  {
    var more := index + [a];
    assert forall b :: b in index ==> b in more;
    assert forall spec :: HasOutput(index, spec) ==> HasOutput(more, spec);
    assert forall kind :: HasKind(index, kind) ==> HasKind(more, kind);
  }

  lemma StepSupplied(c: Config, h: Hub, step: Step)
    requires Inv(c, h) && Enabled(c, h, step)
    ensures Rows(c, Apply(c, h, step).run.index)
    ensures forall k :: k in Apply(c, h, step).executions ==>
              Supplied(Apply(c, h, step).run.index, Apply(c, h, step).executions[k])
  {
    if Inside(step) {
      WorkflowLifecycle.OnlyOne(h, step.k);
      EffectSupplied(c, h.run, h.executions[step.k], step);
    } else {
      OutsideSupplied(c, h, step);
    }
  }

  /** Outside its own steps an execution is only asked to stop, and the listing only gains records. */
  lemma OutsideExecutions(c: Config, h: Hub, step: Step, k: nat)
    requires WorkflowLifecycle.Inv(c, h) && Enabled(c, h, step) && !Inside(step) && k in Apply(c, h, step).executions
    ensures var e := Apply(c, h, step).executions[k];
            e.phase.Scheduled? || (k in h.executions && e == h.executions[k].(cancelling := e.cancelling))
  {
  }

  lemma SuppliedAgain(index: seq<Artifact>, e: Execution, cancelling: bool)
    requires Supplied(index, e)
    ensures Supplied(index, e.(cancelling := cancelling))
  {
  }

  lemma OutsideIndex(c: Config, h: Hub, step: Step)
    requires Enabled(c, h, step) && !Inside(step) && !step.Record?
    ensures Apply(c, h, step).run.index == h.run.index
  {
  }

  lemma OutsideSupplied(c: Config, h: Hub, step: Step)
    requires Inv(c, h) && Enabled(c, h, step) && !Inside(step)
    ensures Rows(c, Apply(c, h, step).run.index)
    ensures forall k :: k in Apply(c, h, step).executions ==>
              Supplied(Apply(c, h, step).run.index, Apply(c, h, step).executions[k])
  {
    var g := Apply(c, h, step);
    if step.Record? {
      PublishKeepsRows(c, h.run.index, step.artifact);
    } else {
      OutsideIndex(c, h, step);
    }
    forall k | k in g.executions ensures Supplied(g.run.index, g.executions[k]) {
      OutsideExecutions(c, h, step, k);
      if !g.executions[k].phase.Scheduled? {
        SuppliedAgain(h.run.index, h.executions[k], g.executions[k].cancelling);
        if step.Record? {
          RecordKeepsSupply(h.run.index, g.executions[k], step.artifact);
        }
      }
    }
  }

  lemma {:induction false} RunPreserves(c: Config, h: Hub, steps: seq<Step>)
    requires Inv(c, h) && ValidRun(c, h, steps)
    ensures Inv(c, Final(c, h, steps))
    decreases |steps|
  {
    if steps != [] {
      WorkflowLifecycle.StepPreserves(c, h, steps[0]);
      StepSupplied(c, h, steps[0]);
      RunPreserves(c, Apply(c, h, steps[0]), steps[1..]);
    }
  }

  /**
    In every run, with any failures, retries and repairs, the context of a stage holds every required input of
    every one of its agents, so selecting inputs never fails.
   */
  lemma InputsAreAlwaysThere(c: Config, steps: seq<Step>, k: nat, spec: AgentSpec)
    requires ValidRun(c, START, steps) && k in Final(c, START, steps).executions
    requires Final(c, START, steps).executions[k].phase.Working?
    requires spec in AgentsByStage(Final(c, START, steps).executions[k].phase.stage)
    ensures Context.Select(spec.inputs, Final(c, START, steps).executions[k].phase.context).Some?
  {
    RunPreserves(c, START, steps);
    var e := Final(c, START, steps).executions[k];
    InputsAreMade(e.phase.stage, spec);
    StockSupplies(e.phase.context, e.phase.stage, spec.inputs);
  }

  /** Integration always finds a code change of each of the three agents, and of no other. */
  lemma IntegrationFindsItsParts(c: Config, steps: seq<Step>, k: nat)
    requires ValidRun(c, START, steps) && k in Final(c, START, steps).executions
    requires Final(c, START, steps).executions[k].phase.Opened?
    requires Final(c, START, steps).executions[k].phase.stage == Integration
    ensures Sources.MergeSources(Final(c, START, steps).run.index, c.pinned)
            != Failure(Sources.MissingImplementation)
  {
    RunPreserves(c, START, steps);
    var h := Final(c, START, steps);
    assert Stocked(h.run.index, Integration, false);
    PartsAreThere(c, h.run.index);
  }

  lemma PartsAreThere(c: Config, index: seq<Artifact>)
    requires Rows(c, index) && OutputsBefore(index, Integration)
    ensures Sources.MergeSources(index, c.pinned) != Failure(Sources.MissingImplementation)
  {
    forall name | name in {Sources.BACKEND, Sources.FRONTEND, Sources.TESTS} ensures Sources.HasChange(index, name) {
      var spec := Component(name);
      PartIsThere(index, Integration, spec);
    }
    Sources.MissingIff(index, c.pinned);
  }

  function Component(name: string): (spec: AgentSpec)
    requires name in {Sources.BACKEND, Sources.FRONTEND, Sources.TESTS}
    ensures spec.name == name && spec.kind == CodeChange && InCatalog(spec)
    ensures StageIndex(spec.stage) < StageIndex(Integration)
  {
    if name == Sources.BACKEND then BACKEND_AGENT else if name == Sources.FRONTEND then FRONTEND_AGENT else TEST_AGENT
  }

  lemma PartIsThere(index: seq<Artifact>, stage: Stage, spec: AgentSpec)
    requires OutputsBefore(index, stage) && InCatalog(spec) && StageIndex(spec.stage) < StageIndex(stage)
    requires spec.kind == CodeChange
    ensures Sources.HasChange(index, spec.name)
  {
  }

  /** The evaluation loop always finds the gate report and the review it decides on. */
  lemma VerdictFindsItsReports(c: Config, steps: seq<Step>, k: nat)
    requires ValidRun(c, START, steps) && k in Final(c, START, steps).executions
    requires Final(c, START, steps).executions[k].phase.Deciding?
    ensures Latest(Final(c, START, steps).run.index, QualityGateReport).Some?
    ensures Latest(Final(c, START, steps).run.index, EvaluationReport).Some?
  {
    RunPreserves(c, START, steps);
    OutputHasKind(Final(c, START, steps).run.index, EVALUATION);
  }

  lemma OutputHasKind(index: seq<Artifact>, spec: AgentSpec)
    requires HasOutput(index, spec)
    ensures HasKind(index, spec.kind)
  {
    var a :| a in index && IsOutput(a, spec);
    assert a.meta.kind == spec.kind;
  }

  /** In every run a listed review has its gate report listed, and a listed gate report its integrated source. */
  lemma ListedReviewsAreSupported(c: Config, steps: seq<Step>)
    requires ValidRun(c, START, steps)
    ensures Supported(Final(c, START, steps).run.index)
  {
    RunPreserves(c, START, steps);
  }
}
