/** No invocation is ever repeated in the life of a run, so no invocation id is ever reused. */
module WorkflowLog {
  import opened Kinds
  import opened Results
  import opened Catalog
  import opened Workflow
  import WorkflowLifecycle
  import opened InvocationIds

  // ----- the order in which an execution visits its stages -----

  /** Behind an execution that has reached a stage under an attempt. */
  predicate Past(i: Invocation, stage: Stage, attempt: nat) {
    if StageIndex(i.stage) <= StageIndex(Planning) then StageIndex(i.stage) < StageIndex(stage)
    else
      && i.stage != Release && StageIndex(stage) >= StageIndex(Implementation)
      && (i.repair < attempt || (i.repair == attempt && StageIndex(i.stage) < StageIndex(stage)))
  }

  ghost predicate AllPast(log: seq<Invocation>, retry: nat, stage: Stage, attempt: nat) {
    forall i :: i in log && i.retry == retry ==> Past(i, stage, attempt)
  }

  /** At the current stage, and none of the agents still waiting. */
  predicate Handed(i: Invocation, e: Execution)
    requires e.phase.Working?
  {
    && i.stage == e.phase.stage && i.repair == StageAttempt(e, e.phase.stage)
    && forall w :: w in e.phase.waiting ==> w.name != i.agent
  }

  /** The invocations of an execution lie behind it. */
  ghost predicate Visited(log: seq<Invocation>, e: Execution) {
    match e.phase
    case Turn(stage) => AllPast(log, e.retry, stage, e.attempt)
    case Opened(stage, _) => AllPast(log, e.retry, stage, e.attempt)
    case Working(stage, _, waiting, _) =>
      waiting <= AgentSet(stage)
      && forall i :: i in log && i.retry == e.retry ==> Past(i, stage, e.attempt) || Handed(i, e)
    case Deciding => AllPast(log, e.retry, Release, e.attempt)
    case _ => forall i :: i in log ==> i.retry != e.retry
  }

  ghost predicate NoRepeats(log: seq<Invocation>) {
    forall a, b :: 0 <= a < b < |log| ==> log[a] != log[b]
  }

  predicate Known(i: Invocation) {
    exists spec :: spec in AgentsByStage(i.stage) && spec.name == i.agent
  }

  lemma NextIsPast(i: Invocation, stage: Stage, attempt: nat)
    requires Past(i, stage, attempt) && stage != Release
    ensures Past(i, NextStage(stage), attempt)
  {
    WorkflowLifecycle.NextStageIsNearer(stage);
  }

  lemma HandedIsPast(i: Invocation, e: Execution)
    requires e.phase.Working? && Handed(i, e) && e.phase.stage != Release
    ensures Past(i, NextStage(e.phase.stage), e.attempt)
  {
    WorkflowLifecycle.NextStageIsNearer(e.phase.stage);
  }

  lemma VisitVisited(r: Run, e: Execution)
    requires Visited(r.log, e) && e.phase.Turn?
    ensures Visited(r.log, AfterVisit(r, e).next.value)
  {
    if Skips(r, e, e.phase.stage) {
      forall i | i in r.log && i.retry == e.retry ensures Past(i, NextStage(e.phase.stage), e.attempt) {
        NextIsPast(i, e.phase.stage, e.attempt);
      }
    }
  }

  lemma CloseVisited(r: Run, e: Execution)
    requires Visited(r.log, e) && e.phase.Working? && e.phase.stage != Release
    ensures Visited(r.log, AfterClose(r, e).next.value)
  {
    forall i | i in r.log && i.retry == e.retry ensures Past(i, NextStage(e.phase.stage), e.attempt) {
      if Past(i, e.phase.stage, e.attempt) {
        NextIsPast(i, e.phase.stage, e.attempt);
      } else {
        HandedIsPast(i, e);
      }
    }
  }

  lemma DecideVisited(c: Config, r: Run, e: Execution, step: Step)
    requires Visited(r.log, e) && e.phase.Deciding? && step.Decide? && Reviewable(r)
    ensures var next := AfterDecide(c, r, e, step.human).next; next.Some? ==> Visited(r.log, next.value)
  {
    var next := AfterDecide(c, r, e, step.human).next;
    if next.Some? && next.value.phase == Turn(Implementation) {
      AllPastNext(r.log, e.retry, e.attempt);
    }
  }

  /** What lies behind a verdict also lies behind the implementation of the next attempt. */
  lemma AllPastNext(log: seq<Invocation>, retry: nat, attempt: nat)
    requires AllPast(log, retry, Release, attempt)
    ensures AllPast(log, retry, Implementation, attempt + 1)
  {
    forall i | i in log && i.retry == retry ensures Past(i, Implementation, attempt + 1) {
      assert Past(i, Release, attempt);
    }
  }

  /** What an execution is about to invoke is not behind it. */
  lemma InvokeIsNew(c: Config, r: Run, e: Execution, step: Step)
    requires Visited(r.log, e) && step.Invoke? && AgentCanStep(c, r, e, step)
    ensures var i := Invocation(e.phase.stage, step.spec.name, StageAttempt(e, e.phase.stage), e.retry);
            i !in r.log && Known(i)
  {
    var i := Invocation(e.phase.stage, step.spec.name, StageAttempt(e, e.phase.stage), e.retry);
    assert !Past(i, e.phase.stage, e.attempt);
    assert step.spec in e.phase.waiting;
    assert !Handed(i, e);
    assert step.spec in AgentsByStage(i.stage);
  }

  lemma NamesDiffer(stage: Stage, a: AgentSpec, b: AgentSpec)
    requires a in AgentsByStage(stage) && b in AgentsByStage(stage) && a != b
    ensures a.name != b.name
  {
    assert |BACKEND_AGENT.name| == 13 && |FRONTEND_AGENT.name| == 14 && |TEST_AGENT.name| == 10;
    assert |BUILD.name| == 11 && |VALIDATION.name| == 16 && |STATIC_ANALYSIS.name| == 21;
    assert |UX.name| == 8 && |SECURITY.name| == 14 && ARCHITECTURE.name[0] == 'a' && TEST_PLANNER.name[0] == 't';
    assert |ARCHITECTURE.name| == |TEST_PLANNER.name| == 18;
  }

  lemma InvokeVisited(c: Config, r: Run, e: Execution, step: Step)
    requires Visited(r.log, e) && step.Invoke? && AgentCanStep(c, r, e, step)
    ensures Visited(AfterAgent(r, e, step).run.log, AfterAgent(r, e, step).next.value)
  {
    var g := AfterAgent(r, e, step).next.value;
    forall w | w in g.phase.waiting ensures w.name != step.spec.name {
      NamesDiffer(e.phase.stage, w, step.spec);
    }
    forall i | i in AfterAgent(r, e, step).run.log && i.retry == e.retry
      ensures Past(i, e.phase.stage, e.attempt) || Handed(i, g)
    {
      if i in r.log {
        assert Past(i, e.phase.stage, e.attempt) || Handed(i, e);
      }
    }
  }

  lemma OtherAgentVisited(c: Config, r: Run, e: Execution, step: Step)
    requires Visited(r.log, e) && AtAgent(step) && !step.Invoke? && AgentCanStep(c, r, e, step)
    ensures AfterAgent(r, e, step).run.log == r.log && Visited(r.log, AfterAgent(r, e, step).next.value)
  {
    var g := AfterAgent(r, e, step).next.value;
    forall i | i in r.log && i.retry == e.retry ensures Past(i, e.phase.stage, e.attempt) || Handed(i, g) {
      assert Past(i, e.phase.stage, e.attempt) || Handed(i, e);
    }
  }

  lemma EffectVisited(c: Config, r: Run, e: Execution, step: Step)
    requires Visited(r.log, e) && Inside(step) && !AtAgent(step) && CanStep(c, r, e, step)
    ensures var f := After(c, r, e, step); f.run.log == r.log && (f.next.Some? ==> Visited(r.log, f.next.value))
  {
    match step
    case Begin(_) =>
    case Reconciled(_) =>
    case Checked(_, _) =>
    case Visit(_) => VisitVisited(r, e);
    case Prepare(_, a) =>
    case Close(_) =>
      if e.phase.stage != Release {
        CloseVisited(r, e);
      }
    case Decide(_, _) => DecideVisited(c, r, e, step);
    case Fail(_, _) =>
  }

  ghost predicate Logged(h: Hub) {
    && NoRepeats(h.run.log)
    && (forall i :: i in h.run.log ==> i.retry <= h.retries && Known(i))
    && (forall k :: k in h.executions ==> Visited(h.run.log, h.executions[k]))
  }

  ghost predicate Inv(c: Config, h: Hub) {
    WorkflowLifecycle.Inv(c, h) && Logged(h)
  }

  lemma InvokeLogged(c: Config, h: Hub, step: Step)
    requires Inv(c, h) && Enabled(c, h, step) && step.Invoke?
    ensures Logged(Apply(c, h, step))
  {
    var e := h.executions[step.k];
    WorkflowLifecycle.OnlyOne(h, step.k);
    InvokeIsNew(c, h.run, e, step);
    InvokeVisited(c, h.run, e, step);
  }

  lemma InsideLogged(c: Config, h: Hub, step: Step)
    requires Inv(c, h) && Enabled(c, h, step) && Inside(step) && !step.Invoke?
    ensures Logged(Apply(c, h, step))
  {
    var e := h.executions[step.k];
    WorkflowLifecycle.OnlyOne(h, step.k);
    if AtAgent(step) {
      OtherAgentVisited(c, h.run, e, step);
    } else {
      EffectVisited(c, h.run, e, step);
    }
  }

  lemma OutsideLogged(c: Config, h: Hub, step: Step)
    requires Inv(c, h) && Enabled(c, h, step) && !Inside(step)
    ensures Logged(Apply(c, h, step))
  {
    if Unfinished(h) {
      WorkflowLifecycle.OnlyOne(h, h.handle.value);
    }
  }

  lemma StepLogged(c: Config, h: Hub, step: Step)
    requires Inv(c, h) && Enabled(c, h, step)
    ensures Inv(c, Apply(c, h, step))
  {
    WorkflowLifecycle.StepPreserves(c, h, step);
    if step.Invoke? {
      InvokeLogged(c, h, step);
    } else if Inside(step) {
      InsideLogged(c, h, step);
    } else {
      OutsideLogged(c, h, step);
    }
  }

  lemma {:induction false} RunLogged(c: Config, h: Hub, steps: seq<Step>)
    requires Inv(c, h) && ValidRun(c, h, steps)
    ensures Inv(c, Final(c, h, steps))
    decreases |steps|
  {
    if steps != [] {
      StepLogged(c, h, steps[0]);
      RunLogged(c, Apply(c, h, steps[0]), steps[1..]);
    }
  }

  /** Over the whole life of a run no invocation is made twice. */
  lemma InvocationsAreDistinct(c: Config, steps: seq<Step>)
    requires ValidRun(c, START, steps)
    ensures NoRepeats(Final(c, START, steps).run.log)
  {
    RunLogged(c, START, steps);
  }

  lemma EarlyNames()
    ensures Plain(INTAKE.name) && Plain(REQUIREMENTS.name) && Plain(PLANNING.name)
    ensures Plain(ARCHITECTURE.name) && Plain(UX.name) && Plain(SECURITY.name) && Plain(TEST_PLANNER.name)
  {
  }

  lemma LateNames()
    ensures Plain(BACKEND_AGENT.name) && Plain(FRONTEND_AGENT.name) && Plain(TEST_AGENT.name)
    ensures Plain(BUILD.name) && Plain(VALIDATION.name) && Plain(STATIC_ANALYSIS.name)
    ensures Plain(EVALUATION.name) && Plain(RELEASE.name)
  {
  }

  lemma NamesArePlain(stage: Stage, spec: AgentSpec)
    requires spec in AgentsByStage(stage)
    ensures Plain(spec.name)
  {
    EarlyNames();
    LateNames();
  }

  /**
    Message ids are never reused: two invocations of a run have different ids, and the id of a continuation,
    whatever the action's id, is that of no invocation and of no other invocation's continuation.
   */
  lemma MessageIdsAreNeverReused(c: Config, steps: seq<Step>, run: string, a: nat, b: nat, x: string, y: string)
    requires ValidRun(c, START, steps) && Plain(run)
    requires a < |Final(c, START, steps).run.log| && b < |Final(c, START, steps).run.log|
    ensures var i, j := Final(c, START, steps).run.log[a], Final(c, START, steps).run.log[b];
            && (InvocationId(run, i) == InvocationId(run, j) <==> a == b)
            && ContinuationId(run, i, x) != InvocationId(run, j)
            && (ContinuationId(run, i, x) == ContinuationId(run, j, y) <==> a == b && x == y)
  {
    RunLogged(c, START, steps);
    var log := Final(c, START, steps).run.log;
    var i, j := log[a], log[b];
    KnownIsWellformed(run, i);
    KnownIsWellformed(run, j);
    if InvocationId(run, i) == InvocationId(run, j) {
      IdsAreInjective(run, i, run, j);
    }
    ContinuationIsNoInvocation(run, i, x, run, j);
    if ContinuationId(run, i, x) == ContinuationId(run, j, y) {
      ContinuationsAreInjective(run, i, x, run, j, y);
    }
  }

  lemma KnownIsWellformed(run: string, i: Invocation)
    requires Plain(run) && Known(i)
    ensures Wellformed(run, i)
  {
    var spec :| spec in AgentsByStage(i.stage) && spec.name == i.agent;
    NamesArePlain(i.stage, spec);
  }
}
