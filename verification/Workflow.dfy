/**
  One run of the workflow across its executions: creation, stages with reuse, the repair loop, retries,
  cancellation, shutdown, kills and recovery. Hub code between two awaits is one step; a kill can fall between
  any two steps. Specialists, preflight and reconciliation answer in any way they can.
 */
module Workflow {
  import opened Kinds
  import opened Results
  import opened Publication
  import opened Artifacts
  import opened HumanDecisions
  import opened EvaluationModel
  import opened Catalog
  import opened HubIndex
  import Sources

  const INTEGRATOR := "trusted-integration-service"
  const GATEKEEPER := "deterministic-quality-gates"

  /**
    Where an execution is. `Turn` has reached a stage; `Opened` has announced it and knows which outputs are
    saved; `Working` runs its agents on the listing taken when the stage was prepared.
   */
  datatype Phase =
    | Scheduled
    | Reconciling
    | Checking
    | Turn(stage: Stage)
    | Opened(stage: Stage, saved: set<AgentSpec>)
    | Working(stage: Stage, context: seq<Artifact>, waiting: set<AgentSpec>, active: set<AgentSpec>)
    | Deciding

  type Statuses = map<Stage, RunStatus>

  /** `start` are the stage statuses read at the beginning; `repairing` marks the passes after a repair request. */
  datatype Execution = Execution(
    retry: nat, start: Statuses, attempt: nat, repairing: bool, cancelling: bool, phase: Phase)

  datatype Invocation = Invocation(stage: Stage, agent: string, repair: nat, retry: nat)

  /**
    What is stored about the run. `repairs` are the attempt numbers of the indexed repair requests, in listing
    order; `finished` the repair attempts of artifacts recorded as completed agent outputs; `log` is history:
    every invocation handed to the fleet.
   */
  datatype Run = Run(
    status: RunStatus, current: Option<Stage>, stages: Statuses,
    repairs: seq<nat>, index: seq<Artifact>, finished: map<Id, nat>, log: seq<Invocation>)

  /** `executions` are the unfinished ones by retry number, `handle` is the entry of the task table. */
  datatype Hub = Hub(
    created: bool, up: bool, stopping: bool, retries: nat, run: Run, executions: map<nat, Execution>, handle: Option<nat>)

  const START := Hub(false, true, false, 0, Run(Pending, None, map[], [], [], map[], []), map[], None)

  datatype Config = Config(run: RunId, limit: nat, threshold: real, pinned: string -> bool)

  datatype Step =
    | Create
    | Retry
    | Cancel
    | Callback
    | Shutdown
    | Crash
    | Recover
    | Record(artifact: Artifact)
    | Begin(k: nat)
    | Drop(k: nat)
    | Reconciled(k: nat)
    | Checked(k: nat, ready: bool)
    | Visit(k: nat)
    | Prepare(k: nat, artifact: Artifact)
    | Hit(k: nat, spec: AgentSpec)
    | Invoke(k: nat, spec: AgentSpec)
    | Ask(k: nat, spec: AgentSpec, draft: Option<Artifact>)
    | Answered(k: nat, spec: AgentSpec)
    | Deliver(k: nat, spec: AgentSpec, artifact: Artifact)
    | Close(k: nat)
    | Decide(k: nat, human: Option<Decision>)
    | Fail(k: nat, outcome: RunStatus)

  predicate Terminal(status: RunStatus) {
    status in {Completed, Failed, Canceled, Blocked}
  }

  predicate Retryable(status: RunStatus) {
    status in {Failed, Blocked, Canceled}
  }

  function StatusOf(stages: Statuses, stage: Stage): RunStatus {
    if stage in stages then stages[stage] else Pending
  }

  function AgentSet(stage: Stage): set<AgentSpec> {
    set spec | spec in AgentsByStage(stage)
  }

  ghost predicate HasKind(index: seq<Artifact>, kind: Kind) {
    exists a :: a in index && a.meta.kind == kind
  }

  predicate IsOutput(a: Artifact, spec: AgentSpec) {
    a.meta.stage == spec.stage && a.meta.producer == spec.name && a.meta.kind == spec.kind
  }

  ghost predicate HasOutput(index: seq<Artifact>, spec: AgentSpec) {
    exists a :: a in index && IsOutput(a, spec)
  }

  // ----- the stage loop -----

  /** Only implementation, integration and evaluation run under a repair attempt. */
  function StageAttempt(e: Execution, stage: Stage): nat {
    if stage in {Implementation, Integration, Stage.Evaluation} then e.attempt else 0
  }

  predicate Reuses(e: Execution, stage: Stage) {
    e.retry > 0 && stage != Release && (stage == Stage.Evaluation || !e.repairing)
  }

  ghost predicate IsSaved(r: Run, e: Execution, spec: AgentSpec, a: Artifact) {
    IsOutput(a, spec)
    && (StatusOf(e.start, spec.stage) == Completed
        || (a.meta.id in r.finished && r.finished[a.meta.id] == StageAttempt(e, spec.stage)))
  }

  ghost function Saved(r: Run, e: Execution, stage: Stage): set<AgentSpec> {
    if stage == Integration && !HasKind(r.index, IntegratedSource) then {}
    else set spec | spec in AgentSet(stage) && exists a :: a in r.index && IsSaved(r, e, spec, a)
  }

  /** A retry passes over a completed stage whose outputs are all still there. */
  ghost predicate Skips(r: Run, e: Execution, stage: Stage) {
    && e.retry > 0 && !e.repairing && StageIndex(stage) <= StageIndex(Integration)
    && StatusOf(e.start, stage) == Completed && Saved(r, e, stage) == AgentSet(stage)
  }

  function NextStage(stage: Stage): Stage {
    match stage
    case Preflight => Intake
    case Intake => Stage.Requirements
    case Requirements => Discovery
    case Discovery => Planning
    case Planning => Implementation
    case Implementation => Integration
    case Integration => Stage.Evaluation
    case Evaluation => Release
    case Release => Release
  }

  function CurrentStage(e: Execution): Stage {
    match e.phase
    case Turn(stage) => stage
    case Opened(stage, _) => stage
    case Working(stage, _, _, _) => stage
    case Deciding => Stage.Evaluation
    case _ => Preflight
  }

  /** Whether preparing the stage integrates the component sources. */
  ghost predicate NeedsIntegration(r: Run, e: Execution) {
    e.phase.Opened? && e.phase.stage == Integration && !(Reuses(e, Integration) && HasKind(r.index, IntegratedSource))
  }

  /** Whether preparing the stage computes the quality gates. */
  ghost predicate NeedsGates(r: Run, e: Execution) {
    && e.phase.Opened? && e.phase.stage == Stage.Evaluation
    && !(e.phase.saved != {} && HasKind(r.index, QualityGateReport))
  }

  /** Evidence and human records: publications outside the snapshots. Repair requests are listed apart. */
  predicate IsRecord(a: Artifact) {
    if a.meta.producer == TRUSTED_SANDBOX then a.meta.kind in {BuildReport, TestReport}
    else Rank(a.meta.kind) < 0 && a.meta.kind != RepairRequest
  }

  // ----- the steps of an execution -----

  /** The run and the execution after one of its steps; the execution is over when there is none. */
  datatype Effect = Effect(run: Run, next: Option<Execution>)

  /** An execution keeps its number, and ends only under a terminal status. */
  ghost predicate Orderly(r: Run, e: Execution, f: Effect) {
    && (f.next.None? ==> Terminal(f.run.status))
    && (f.next.Some? ==>
          && f.next.value.retry == e.retry && f.next.value.cancelling == e.cancelling && !f.next.value.phase.Scheduled?
          && f.run.status in {r.status, Running, InputRequired})
  }

  function WithStage(r: Run, stage: Stage, status: RunStatus): Run {
    r.(status := status, current := Some(stage), stages := r.stages[stage := status])
  }

  function Moved(r: Run, e: Execution, phase: Phase): Effect {
    Effect(r, Some(e.(phase := phase)))
  }

  function EndedAs(r: Run, stage: Stage, outcome: RunStatus): Effect {
    Effect(WithStage(r, stage, outcome), None)
  }

  function AfterBegin(r: Run, e: Execution): (f: Effect)
    ensures Orderly(r, e, f)
  {
    if e.retry > 0 then Moved(r, e.(start := r.stages), Reconciling)
    else Moved(WithStage(r, Preflight, Running), e.(start := r.stages), Checking)
  }

  function AfterChecked(r: Run, e: Execution, ready: bool): (f: Effect)
    ensures Orderly(r, e, f)
  {
    if !ready then EndedAs(r, Preflight, Blocked)
    else
      var attempt := if e.retry > 0 && r.repairs != [] then r.repairs[|r.repairs| - 1] else 0;
      Moved(r.(stages := r.stages[Preflight := Completed]), e.(attempt := attempt), Turn(Intake))
  }

  ghost function AfterVisit(r: Run, e: Execution): (f: Effect)
    requires e.phase.Turn?
    ensures Orderly(r, e, f)
  {
    var stage := e.phase.stage;
    if Skips(r, e, stage) then Moved(r, e, Turn(NextStage(stage)))
    else Moved(WithStage(r, stage, Running), e, Opened(stage, if Reuses(e, stage) then Saved(r, e, stage) else {}))
  }

  ghost predicate CanPrepare(c: Config, r: Run, e: Execution, a: Artifact) {
    && e.phase.Opened? && a.meta.run == c.run
    && (NeedsIntegration(r, e) ==>
          a.meta.kind == IntegratedSource && a.meta.producer == INTEGRATOR && Sources.MergeSources(r.index, c.pinned).Success?)
    && (NeedsGates(r, e) ==> a.meta.kind == QualityGateReport && a.meta.producer == GATEKEEPER)
  }

  ghost function AfterPrepare(r: Run, e: Execution, a: Artifact): (f: Effect)
    requires e.phase.Opened?
    ensures Orderly(r, e, f)
  {
    var index := if NeedsIntegration(r, e) || NeedsGates(r, e) then PublishTo(r.index, a) else r.index;
    var stage := e.phase.stage;
    Moved(r.(index := index), e, Working(stage, index, AgentSet(stage) - e.phase.saved, {}))
  }

  function AfterClose(r: Run, e: Execution): (f: Effect)
    requires e.phase.Working?
    ensures Orderly(r, e, f)
  {
    var stage := e.phase.stage;
    var done := r.(stages := r.stages[stage := Completed]);
    match stage
    case Release => Effect(done.(status := Completed, current := Some(Release)), None)
    case Evaluation => Moved(done, e, Deciding)
    case _ => Moved(done, e, Turn(NextStage(stage)))
  }

  predicate Reviewable(r: Run) {
    var gate, review := Latest(r.index, QualityGateReport), Latest(r.index, EvaluationReport);
    gate.Some? && gate.value.content.gates.Some? && review.Some? && review.value.content.evaluation.Some?
  }

  function Verdict(c: Config, r: Run, attempt: nat, human: Option<Decision>): (d: Outcome)
    requires Reviewable(r)
    ensures d == ToRepair ==> attempt < c.limit
  {
    var gate, review := Latest(r.index, QualityGateReport).value, Latest(r.index, EvaluationReport).value;
    DecisionIsBounded(gate.content.gates.value, review.content.evaluation.value, attempt, c.limit, c.threshold, human);
    RepairDecision(gate.content.gates.value, review.content.evaluation.value, attempt, c.limit, c.threshold, human)
  }

  function AfterDecide(c: Config, r: Run, e: Execution, human: Option<Decision>): (f: Effect)
    requires Reviewable(r)
    ensures Orderly(r, e, f) && f.run.index == r.index && f.run.log == r.log
    ensures f.next.Some? ==> f.next.value.phase in {Turn(Release), Turn(Implementation)}
  {
    match Verdict(c, r, e.attempt, human)
    case Passed => Moved(r, e, Turn(Release))
    case Deferred => Moved(r, e, Turn(Release))
    case Exhausted => EndedAs(r, Stage.Evaluation, Failed)
    case ToRepair =>
      Moved(r.(repairs := r.repairs + [e.attempt + 1]), e.(attempt := e.attempt + 1, repairing := true),
            Turn(Implementation))
  }

  predicate AtAgent(step: Step) {
    step.Hit? || step.Invoke? || step.Ask? || step.Answered? || step.Deliver?
  }

  ghost predicate AgentCanStep(c: Config, r: Run, e: Execution, step: Step)
    requires AtAgent(step)
  {
    && e.phase.Working?
    && match step
       case Hit(_, spec) => spec in e.phase.waiting && HasOutput(r.index, spec)
       case Invoke(_, spec) => spec in e.phase.waiting
       case Ask(_, spec, draft) =>
         spec in e.phase.active
         && (draft.Some? ==> IsOutput(draft.value, spec) && draft.value.meta.run == c.run)
       case Answered(_, spec) => spec in e.phase.active
       case Deliver(_, spec, a) => spec in e.phase.active && IsOutput(a, spec) && a.meta.run == c.run
  }

  function AfterAgent(r: Run, e: Execution, step: Step): (f: Effect)
    requires e.phase.Working? && AtAgent(step)
    ensures Orderly(r, e, f)
  {
    var Working(stage, context, waiting, active) := e.phase;
    match step
    case Hit(_, spec) => Moved(r, e, Working(stage, context, waiting - {spec}, active))
    case Invoke(_, spec) =>
      Moved(r.(log := r.log + [Invocation(stage, spec.name, StageAttempt(e, stage), e.retry)]), e,
            Working(stage, context, waiting - {spec}, active + {spec}))
    case Ask(_, _, draft) =>
      var asked := if draft.Some? then r.(index := PublishTo(r.index, draft.value)) else r;
      Moved(WithStage(asked, stage, InputRequired), e, e.phase)
    case Answered(_, _) => Moved(WithStage(r, stage, Running), e, e.phase)
    case Deliver(_, spec, a) =>
      Moved(r.(index := PublishTo(r.index, a), finished := r.finished[a.meta.id := StageAttempt(e, stage)]), e,
            Working(stage, context, waiting, active - {spec}))
  }

  /** The steps of an execution that has begun. */
  predicate Inside(step: Step) {
    || step.Begin? || step.Reconciled? || step.Checked? || step.Visit? || step.Prepare? || step.Close? || step.Decide?
    || step.Fail? || AtAgent(step)
  }

  ghost predicate CanStep(c: Config, r: Run, e: Execution, step: Step)
    requires Inside(step)
  {
    if AtAgent(step) then AgentCanStep(c, r, e, step)
    else
      match step
      case Begin(_) => e.phase.Scheduled? && !e.cancelling
      case Reconciled(_) => e.phase.Reconciling?
      case Checked(_, _) => e.phase.Checking?
      case Visit(_) => e.phase.Turn?
      case Prepare(_, a) => CanPrepare(c, r, e, a)
      case Close(_) => e.phase.Working? && e.phase.waiting == {} && e.phase.active == {}
      case Decide(_, _) => e.phase.Deciding? && Reviewable(r)
      case Fail(_, outcome) => !e.phase.Scheduled? && outcome in {Failed, Canceled}
  }

  ghost function After(c: Config, r: Run, e: Execution, step: Step): (f: Effect)
    requires Inside(step) && CanStep(c, r, e, step)
    ensures Orderly(r, e, f)
  {
    if AtAgent(step) then AfterAgent(r, e, step)
    else
      match step
      case Begin(_) => AfterBegin(r, e)
      case Reconciled(_) => Moved(WithStage(r, Preflight, Running), e, Checking)
      case Checked(_, ready) => AfterChecked(r, e, ready)
      case Visit(_) => AfterVisit(r, e)
      case Prepare(_, a) => AfterPrepare(r, e, a)
      case Close(_) => AfterClose(r, e)
      case Decide(_, human) => AfterDecide(c, r, e, human)
      case Fail(_, outcome) => EndedAs(r, CurrentStage(e), outcome)
  }

  // ----- the steps of the hub -----

  predicate Unfinished(h: Hub) {
    h.handle.Some? && h.handle.value in h.executions
  }

  ghost predicate Enabled(c: Config, h: Hub, step: Step) {
    if Inside(step) then h.up && step.k in h.executions && CanStep(c, h.run, h.executions[step.k], step)
    else
      match step
      case Create => h.up && !h.created
      case Retry => h.up && h.created && Retryable(h.run.status) && !Unfinished(h)
      case Cancel => h.up && Unfinished(h) && !h.executions[h.handle.value].cancelling
      case Drop(k) => h.up && k in h.executions && h.executions[k].phase.Scheduled? && h.executions[k].cancelling
      case Callback => h.up && h.handle.Some? && !Unfinished(h)
      case Shutdown => h.up
      case Crash => h.up
      case Recover => !h.up
      case Record(a) => h.created && IsRecord(a) && a.meta.run == c.run
  }

  function Scheduling(h: Hub, retry: nat): Hub {
    h.(run := h.run.(status := Pending),
       executions := h.executions[retry := Execution.Execution(retry, map[], 0, false, false, Scheduled)],
       handle := Some(retry))
  }

  function Canceling(executions: map<nat, Execution>): map<nat, Execution> {
    map k | k in executions :: executions[k].(cancelling := true)
  }

  /** What a start makes of a run that was left unfinished. */
  function AfterRecovery(r: Run): Run {
    if Terminal(r.status) then r
    else r.(status := Blocked, stages := if r.current.Some? then r.stages[r.current.value := Blocked] else r.stages)
  }

  ghost function Apply(c: Config, h: Hub, step: Step): Hub
    requires Enabled(c, h, step)
  {
    if Inside(step) then
      var f := After(c, h.run, h.executions[step.k], step);
      h.(run := f.run,
         executions := if f.next.Some? then h.executions[step.k := f.next.value] else h.executions - {step.k})
    else
      match step
      case Create => Scheduling(h.(created := true), 0)
      case Retry => Scheduling(h.(retries := h.retries + 1), h.retries + 1)
      case Cancel =>
        var k := h.handle.value;
        h.(run := if h.run.status == Pending then h.run.(status := Canceled) else h.run,
           executions := h.executions[k := h.executions[k].(cancelling := true)])
      case Drop(k) => h.(executions := h.executions - {k})
      case Callback => h.(handle := None)
      case Shutdown => h.(stopping := true, executions := Canceling(h.executions))
      case Crash => h.(up := false, executions := map[], handle := None)
      case Recover => h.(up := true, stopping := false, run := if h.created then AfterRecovery(h.run) else h.run)
      case Record(a) => h.(run := h.run.(index := PublishTo(h.run.index, a)))
  }

  ghost predicate ValidRun(c: Config, h: Hub, steps: seq<Step>)
    decreases |steps|
  {
    steps == [] || (Enabled(c, h, steps[0]) && ValidRun(c, Apply(c, h, steps[0]), steps[1..]))
  }

  ghost function Final(c: Config, h: Hub, steps: seq<Step>): Hub
    requires ValidRun(c, h, steps)
    decreases |steps|
  {
    if steps == [] then h else Final(c, Apply(c, h, steps[0]), steps[1..])
  }
}
