/** What every sequence of executions of one run keeps: one at a time, an honest status, and bounded repair. */
module WorkflowLifecycle {
  import opened Kinds
  import opened Results
  import H = HumanDecisions
  import opened Catalog
  import opened Workflow

  // ----- one execution at a time, and a terminal status once it is over -----

  /** Only the execution in the task table can be unfinished; executions are numbered by their retry. */
  ghost predicate Single(h: Hub) {
    && (forall k :: k in h.executions ==> h.handle == Some(k) && h.executions[k].retry == k)
    && (h.handle.Some? ==> h.handle.value <= h.retries)
    && (h.executions != map[] ==> h.created && h.up)
    && (!h.created ==> h.run == START.run && h.retries == 0 && h.handle == None)
  }

  /** A scheduled execution shows as pending, or as canceled when a user canceled it. */
  ghost predicate Announced(h: Hub, e: Execution) {
    e.phase.Scheduled? ==>
      && (!e.cancelling ==> h.run.status == Pending)
      && (e.cancelling ==> h.run.status == Canceled || (h.stopping && h.run.status == Pending))
  }

  ghost predicate Settled(h: Hub) {
    && (forall k :: k in h.executions ==> Announced(h, h.executions[k]))
    && (h.created && h.up && !h.stopping && h.executions == map[] ==> Terminal(h.run.status))
    && (h.run.status == Completed ==> h.executions == map[])
  }

  /** There is only one execution to act on. */
  lemma OnlyOne(h: Hub, k: nat)
    requires Single(h) && k in h.executions
    ensures h.executions == map[k := h.executions[k]] && h.executions - {k} == map[]
    ensures forall e :: h.executions[k := e] == map[k := e]
  {
  }

  lemma InsideKeeps(c: Config, h: Hub, step: Step)
    requires Single(h) && Settled(h) && Inside(step) && Enabled(c, h, step)
    ensures Single(Apply(c, h, step)) && Settled(Apply(c, h, step))
  {
    OnlyOne(h, step.k);
  }

  lemma OutsideKeeps(c: Config, h: Hub, step: Step)
    requires Single(h) && Settled(h) && !Inside(step) && Enabled(c, h, step)
    ensures Single(Apply(c, h, step)) && Settled(Apply(c, h, step))
  {
    if Unfinished(h) {
      OnlyOne(h, h.handle.value);
    }
  }

  // ----- repair attempts -----

  /** The repair requests are numbered consecutively from one, within the limit. */
  ghost predicate Numbered(c: Config, repairs: seq<nat>) {
    |repairs| <= c.limit && forall i :: 0 <= i < |repairs| ==> repairs[i] == i + 1
  }

  predicate PastPreflight(e: Execution) {
    e.phase.Turn? || e.phase.Opened? || e.phase.Working? || e.phase.Deciding?
  }

  /** The first execution starts without repairs; past preflight an execution carries the last attempt. */
  ghost predicate Counts(r: Run, e: Execution) {
    && (!PastPreflight(e) && e.retry == 0 ==> r.repairs == [])
    && (PastPreflight(e) ==> e.attempt == |r.repairs|)
  }

  ghost predicate Bounded(c: Config, h: Hub) {
    Numbered(c, h.run.repairs) && forall k :: k in h.executions ==> Counts(h.run, h.executions[k])
  }

  lemma EffectCounts(c: Config, r: Run, e: Execution, step: Step)
    requires Inside(step) && CanStep(c, r, e, step) && Numbered(c, r.repairs) && Counts(r, e)
    ensures var f := After(c, r, e, step);
            Numbered(c, f.run.repairs) && (f.next.Some? ==> Counts(f.run, f.next.value))
  {
    if step.Decide? {
      DecideCounts(c, r, e, step.human);
    } else if AtAgent(step) {
      assert After(c, r, e, step).run.repairs == r.repairs;
    }
  }

  /** A granted repair takes the next number, and there is one left. */
  lemma DecideCounts(c: Config, r: Run, e: Execution, human: Option<H.Decision>)
    requires Numbered(c, r.repairs) && Counts(r, e) && e.phase.Deciding? && Reviewable(r)
    ensures var f := AfterDecide(c, r, e, human);
            Numbered(c, f.run.repairs) && (f.next.Some? ==> Counts(f.run, f.next.value))
  {
  }

  lemma InsideBounded(c: Config, h: Hub, step: Step)
    requires Single(h) && Bounded(c, h) && Inside(step) && Enabled(c, h, step)
    ensures Bounded(c, Apply(c, h, step))
  {
    OnlyOne(h, step.k);
    EffectCounts(c, h.run, h.executions[step.k], step);
  }

  lemma OutsideBounded(c: Config, h: Hub, step: Step)
    requires Single(h) && Bounded(c, h) && !Inside(step) && Enabled(c, h, step)
    ensures Bounded(c, Apply(c, h, step))
  {
    if Unfinished(h) {
      OnlyOne(h, h.handle.value);
    }
  }

  // ----- over whole runs -----

  ghost predicate Inv(c: Config, h: Hub) {
    Single(h) && Settled(h) && Bounded(c, h)
  }

  lemma StepPreserves(c: Config, h: Hub, step: Step)
    requires Inv(c, h) && Enabled(c, h, step)
    ensures Inv(c, Apply(c, h, step))
  {
    if Inside(step) {
      InsideKeeps(c, h, step);
      InsideBounded(c, h, step);
    } else {
      OutsideKeeps(c, h, step);
      OutsideBounded(c, h, step);
    }
  }

  lemma {:induction false} RunPreserves(c: Config, h: Hub, steps: seq<Step>)
    requires Inv(c, h) && ValidRun(c, h, steps)
    ensures Inv(c, Final(c, h, steps))
    decreases |steps|
  {
    if steps != [] {
      StepPreserves(c, h, steps[0]);
      RunPreserves(c, Apply(c, h, steps[0]), steps[1..]);
    }
  }

  /**
    In every run at most one execution is unfinished; and when none is, while the hub is up and not shutting
    down, the run shows a terminal status.
   */
  lemma LifecycleIsSound(c: Config, steps: seq<Step>)
    requires ValidRun(c, START, steps)
    ensures var h := Final(c, START, steps);
            && |h.executions| <= 1
            && (h.created && h.up && !h.stopping && h.executions == map[] ==> Terminal(h.run.status))
            && (h.run.status == Completed ==> h.executions == map[])
  {
    RunPreserves(c, START, steps);
    var h := Final(c, START, steps);
    if h.executions != map[] {
      var k :| k in h.executions;
      OnlyOne(h, k);
      assert |map[k := h.executions[k]]| == 1;
    }
  }

  /** A completed run stays completed and never hands out work again, whatever is requested or crashes. */
  lemma {:induction false} CompletedIsFinal(c: Config, h: Hub, steps: seq<Step>)
    requires Inv(c, h) && h.created && h.run.status == Completed && ValidRun(c, h, steps)
    ensures var g := Final(c, h, steps);
            g.executions == map[] && g.run == h.run.(index := g.run.index)
    decreases |steps|
  {
    if steps != [] {
      StepPreserves(c, h, steps[0]);
      CompletedIsFinal(c, Apply(c, h, steps[0]), steps[1..]);
    }
  }

  /** However often a run fails, is canceled, crashes and is retried, its repairs are numbered 1 to k within the limit. */
  lemma RepairsAreBounded(c: Config, steps: seq<Step>)
    requires ValidRun(c, START, steps)
    ensures Numbered(c, Final(c, START, steps).run.repairs)
  {
    RunPreserves(c, START, steps);
  }

  // ----- termination of the stage loops -----

  /** What is left of an execution: repairs it may still grant, then stages to the release. */
  function Remaining(c: Config, e: Execution): int {
    10 * (c.limit - e.attempt) + 2 * (8 - StageIndex(CurrentStage(e))) + if e.phase.Deciding? then 0 else 1
  }

  ghost predicate Nearer(c: Config, e: Execution, next: Option<Execution>) {
    next.Some? ==> 0 <= Remaining(c, next.value) < Remaining(c, e)
  }

  lemma NextStageIsNearer(stage: Stage)
    requires stage != Release
    ensures StageIndex(NextStage(stage)) == StageIndex(stage) + 1
  {
  }

  /** A stage passed over or completed, and every verdict, brings an execution nearer to its end. */
  lemma SkipAdvances(c: Config, r: Run, e: Execution)
    requires Numbered(c, r.repairs) && Counts(r, e) && e.phase.Turn? && Skips(r, e, e.phase.stage)
    ensures Nearer(c, e, AfterVisit(r, e).next)
  {
    NextStageIsNearer(e.phase.stage);
  }

  lemma CloseAdvances(c: Config, r: Run, e: Execution)
    requires Numbered(c, r.repairs) && Counts(r, e) && e.phase.Working?
    ensures Nearer(c, e, AfterClose(r, e).next)
  {
    if e.phase.stage != Release {
      NextStageIsNearer(e.phase.stage);
    }
  }

  lemma VerdictAdvances(c: Config, r: Run, e: Execution, human: Option<H.Decision>)
    requires Numbered(c, r.repairs) && Counts(r, e) && e.phase.Deciding? && Reviewable(r)
    ensures Nearer(c, e, AfterDecide(c, r, e, human).next)
  {
  }

  /** The most stages and verdicts any execution can go through. */
  function Budget(c: Config): int {
    10 * c.limit + 20
  }

  /** What execution `k` may still go through: everything before it starts, nothing once it is over. */
  function Potential(c: Config, h: Hub, k: nat): int {
    if !h.created || k > h.retries then Budget(c)
    else if k !in h.executions then 0
    else if PastPreflight(h.executions[k]) then Remaining(c, h.executions[k]) + 1
    else Budget(c)
  }

  function Spend(step: Step, k: nat): nat {
    if (step.Close? || step.Decide?) && step.k == k then 1 else 0
  }

  /** The stages completed and verdicts reached by execution `k`. */
  function Spent(steps: seq<Step>, k: nat): nat {
    if steps == [] then 0 else Spend(steps[0], k) + Spent(steps[1..], k)
  }

  /** Within one stage an execution gets no farther from its end. */
  ghost predicate NoFarther(c: Config, e: Execution, next: Option<Execution>) {
    next.Some? ==> PastPreflight(next.value) && 0 <= Remaining(c, next.value) <= Remaining(c, e)
  }

  lemma PastPreflightAdvances(c: Config, r: Run, e: Execution, step: Step)
    requires Numbered(c, r.repairs) && Counts(r, e) && PastPreflight(e) && Inside(step) && CanStep(c, r, e, step)
    ensures NoFarther(c, e, After(c, r, e, step).next)
    ensures (step.Close? || step.Decide?) ==> Nearer(c, e, After(c, r, e, step).next)
  {
    if step.Visit? {
      if Skips(r, e, e.phase.stage) {
        SkipAdvances(c, r, e);
      }
    } else if step.Close? {
      CloseAdvances(c, r, e);
    } else if step.Decide? {
      VerdictAdvances(c, r, e, step.human);
    }
  }

  lemma BeforePreflightAdvances(c: Config, r: Run, e: Execution, step: Step)
    requires Numbered(c, r.repairs) && Counts(r, e) && !PastPreflight(e) && Inside(step) && CanStep(c, r, e, step)
    ensures !step.Close? && !step.Decide?
    ensures var next := After(c, r, e, step).next;
            next.Some? && PastPreflight(next.value) ==> Remaining(c, next.value) < Budget(c)
  {
  }

  /** What an execution may still go through, whatever the hub around it. */
  function Left(c: Config, next: Option<Execution>): int {
    if next.None? then 0 else if PastPreflight(next.value) then Remaining(c, next.value) + 1 else Budget(c)
  }

  lemma LoopSpends(c: Config, e: Execution, next: Option<Execution>, step: Step)
    requires PastPreflight(e) && 0 <= Remaining(c, e) && NoFarther(c, e, next)
    requires (step.Close? || step.Decide?) ==> Nearer(c, e, next)
    ensures Inside(step) ==> 0 <= Left(c, next) + Spend(step, step.k) <= Left(c, Some(e))
  {
  }

  lemma PastSpends(c: Config, r: Run, e: Execution, step: Step)
    requires Numbered(c, r.repairs) && Counts(r, e) && PastPreflight(e) && Inside(step) && CanStep(c, r, e, step)
    ensures 0 <= Left(c, After(c, r, e, step).next) + Spend(step, step.k) <= Left(c, Some(e))
  {
    PastPreflightAdvances(c, r, e, step);
    LoopSpends(c, e, After(c, r, e, step).next, step);
  }

  lemma BeforeSpends(c: Config, r: Run, e: Execution, step: Step)
    requires Numbered(c, r.repairs) && Counts(r, e) && !PastPreflight(e) && Inside(step) && CanStep(c, r, e, step)
    ensures 0 <= Left(c, After(c, r, e, step).next) + Spend(step, step.k) <= Left(c, Some(e))
  {
    BeforePreflightAdvances(c, r, e, step);
    EffectCounts(c, r, e, step);
    StartSpends(c, After(c, r, e, step).run, After(c, r, e, step).next);
  }

  lemma EffectSpends(c: Config, r: Run, e: Execution, step: Step)
    requires Numbered(c, r.repairs) && Counts(r, e) && Inside(step) && CanStep(c, r, e, step)
    ensures 0 <= Left(c, After(c, r, e, step).next) + Spend(step, step.k) <= Left(c, Some(e))
  {
    if PastPreflight(e) {
      PastSpends(c, r, e, step);
    } else {
      BeforeSpends(c, r, e, step);
    }
  }

  lemma StartSpends(c: Config, r: Run, next: Option<Execution>)
    requires next.Some? ==> Numbered(c, r.repairs) && Counts(r, next.value)
    requires next.Some? && PastPreflight(next.value) ==> Remaining(c, next.value) < Budget(c)
    ensures 0 <= Left(c, next) <= Budget(c)
  {
  }

  lemma InsidePotential(c: Config, h: Hub, step: Step, k: nat)
    requires Inv(c, h) && Inside(step) && Enabled(c, h, step)
    ensures Potential(c, Apply(c, h, step), k) + Spend(step, k) <= Potential(c, h, k)
  {
    OnlyOne(h, step.k);
    assert Counts(h.run, h.executions[step.k]);
    EffectSpends(c, h.run, h.executions[step.k], step);
    SamePotential(c, h, step, k);
  }

  lemma SamePotential(c: Config, h: Hub, step: Step, k: nat)
    requires Single(h) && Inside(step) && Enabled(c, h, step)
    ensures k == step.k ==> Potential(c, h, k) == Left(c, Some(h.executions[k]))
                            && Potential(c, Apply(c, h, step), k) == Left(c, After(c, h.run, h.executions[k], step).next)
    ensures k != step.k ==> Potential(c, Apply(c, h, step), k) == Potential(c, h, k)
  {
    OnlyOne(h, step.k);
  }

  lemma OutsidePotential(c: Config, h: Hub, step: Step, k: nat)
    requires Inv(c, h) && !Inside(step) && Enabled(c, h, step)
    ensures Potential(c, Apply(c, h, step), k) <= Potential(c, h, k)
  {
    if Unfinished(h) {
      OnlyOne(h, h.handle.value);
      assert Counts(h.run, h.executions[h.handle.value]);
    }
  }

  lemma {:induction false} RunSpends(c: Config, h: Hub, steps: seq<Step>, k: nat)
    requires Inv(c, h) && ValidRun(c, h, steps)
    ensures Potential(c, Final(c, h, steps), k) + Spent(steps, k) <= Potential(c, h, k)
    decreases |steps|
  {
    if steps != [] {
      StepPreserves(c, h, steps[0]);
      if Inside(steps[0]) {
        InsidePotential(c, h, steps[0], k);
      } else {
        OutsidePotential(c, h, steps[0], k);
      }
      RunSpends(c, Apply(c, h, steps[0]), steps[1..], k);
    }
  }

  lemma PotentialIsNatural(c: Config, h: Hub, k: nat)
    requires Inv(c, h)
    ensures 0 <= Potential(c, h, k)
  {
    if k in h.executions {
      assert Counts(h.run, h.executions[k]);
    }
  }

  /** The stage and repair loops of every execution end: over any run it goes through boundedly many stages and verdicts. */
  lemma EveryExecutionIsBounded(c: Config, steps: seq<Step>, k: nat)
    requires ValidRun(c, START, steps)
    ensures Spent(steps, k) <= 10 * c.limit + 20
  {
    RunPreserves(c, START, steps);
    RunSpends(c, START, steps, k);
    PotentialIsNatural(c, Final(c, START, steps), k);
  }
}
