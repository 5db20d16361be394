/** The hub's entry points: retry, cancel and recovery after a restart, over all runs it stores. */
module Orchestrator {
  import opened Kinds
  import opened Results
  import opened Workflow
  import WorkflowLifecycle

  type RunKey = nat

  datatype RetryError = RunNotFound | NotRetryable | StillActive | Unreadable

  /** How many runs, newest first, a restart looks at. */
  const RECOVERY_LIMIT := 10_000

  function RetryReply(hubs: map<RunKey, Hub>, run: RunKey, readable: bool): Result<nat, RetryError> {
    if run !in hubs || !hubs[run].created then Failure(RunNotFound)
    else if !Retryable(hubs[run].run.status) then Failure(NotRetryable)
    else if Unfinished(hubs[run]) then Failure(StillActive)
    else if !readable then Failure(Unreadable)
    else Success(hubs[run].retries + 1)
  }

  predicate Cancelable(hubs: map<RunKey, Hub>, run: RunKey) {
    run in hubs && Unfinished(hubs[run]) && !hubs[run].executions[hubs[run].handle.value].cancelling
  }

  /** The runs a restart recovers: those among the newest that are listed at all. */
  predicate Looked(newest: seq<RunKey>, run: RunKey) {
    exists i :: 0 <= i < |newest| && i < RECOVERY_LIMIT && newest[i] == run
  }

  lemma RetryStep(c: Config, h: Hub)
    requires WorkflowLifecycle.Inv(c, h) && h.up && h.created && Retryable(h.run.status) && !Unfinished(h)
    ensures Enabled(c, h, Step.Retry)
    ensures Apply(c, h, Step.Retry) == Scheduling(h.(retries := h.retries + 1), h.retries + 1)
    ensures WorkflowLifecycle.Inv(c, Apply(c, h, Step.Retry)) && Apply(c, h, Step.Retry).up
  {
    WorkflowLifecycle.StepPreserves(c, h, Step.Retry);
  }

  lemma CancelStep(c: Config, h: Hub)
    requires WorkflowLifecycle.Inv(c, h) && h.up && Unfinished(h) && !h.executions[h.handle.value].cancelling
    ensures Enabled(c, h, Step.Cancel)
    ensures WorkflowLifecycle.Inv(c, Apply(c, h, Step.Cancel)) && Apply(c, h, Step.Cancel).up
  {
    WorkflowLifecycle.StepPreserves(c, h, Step.Cancel);
  }

  class WorkflowOrchestrator {
    ghost const config: Config
    var hubs: map<RunKey, Hub>

    constructor (ghost config: Config)
      ensures this.config == config && hubs == map[]
    {
      this.config := config;
      hubs := map[];
    }

    /** Every stored run is in a state its own steps lead to, and this process is up. */
    ghost predicate Valid()
      reads this
    {
      forall run :: run in hubs ==> hubs[run].up && WorkflowLifecycle.Inv(config, hubs[run])
    }

    method Put(run: RunKey, h: Hub)
      requires Valid() && h.up && WorkflowLifecycle.Inv(config, h)
      modifies this`hubs
      ensures Valid() && hubs == old(hubs)[run := h]
    {
      hubs := hubs[run := h];
    }

    method CreateRun(run: RunKey)
      requires Valid() && run !in hubs
      modifies this`hubs
      ensures Valid() && hubs == old(hubs)[run := Apply(config, START, Create)]
    {
      hubs := hubs[run := Scheduling(START.(created := true), 0)];
      WorkflowLifecycle.StepPreserves(config, START, Create);
    }

    /** A new execution is scheduled exactly for a stopped run without an unfinished one; otherwise nothing changes. */
    method Retry(run: RunKey, readable: bool) returns (reply: Result<nat, RetryError>)
      requires Valid()
      modifies this`hubs
      ensures Valid() && reply == RetryReply(old(hubs), run, readable)
      ensures reply.Success? ==> Enabled(config, old(hubs)[run], Step.Retry)
      ensures hubs == if reply.Success? then old(hubs)[run := Apply(config, old(hubs)[run], Step.Retry)] else old(hubs)
    {
      if run !in hubs || !hubs[run].created {
        return Failure(RunNotFound);
      }
      var h := hubs[run];
      if !Retryable(h.run.status) {
        return Failure(NotRetryable);
      }
      if h.handle.Some? && h.handle.value in h.executions {
        return Failure(StillActive);
      }
      if !readable {
        return Failure(Unreadable);
      }
      RetryStep(config, h);
      var attempt := 1 + h.retries;
      Put(run, Scheduling(h.(retries := attempt), attempt));
      return Success(attempt);
    }

    method Cancel(run: RunKey) returns (accepted: bool)
      requires Valid()
      modifies this`hubs
      ensures Valid() && accepted == Cancelable(old(hubs), run)
      ensures hubs == if accepted then old(hubs)[run := Apply(config, old(hubs)[run], Step.Cancel)] else old(hubs)
    {
      if run !in hubs {
        return false;
      }
      var h := hubs[run];
      if h.handle.None? || h.handle.value !in h.executions || h.executions[h.handle.value].cancelling {
        return false;
      }
      CancelStep(config, h);
      var k := h.handle.value;
      var status := if h.run.status == Pending then Canceled else h.run.status;
      hubs := hubs[run := h.(run := h.run.(status := status),
                             executions := h.executions[k := h.executions[k].(cancelling := true)])];
      return true;
    }
  }

  /** What is stored about the runs, as a new process finds it. */
  class RunTable {
    var runs: map<RunKey, Run>

    constructor (runs: map<RunKey, Run>)
      ensures this.runs == runs
    {
      this.runs := runs;
    }

    /** After a restart the newest runs that were left unfinished are blocked; all others are untouched. */
    method RecoverInterrupted(newest: seq<RunKey>)
      requires forall run :: run in newest ==> run in runs
      requires forall i, j :: 0 <= i < j < |newest| ==> newest[i] != newest[j]
      modifies this
      ensures runs.Keys == old(runs).Keys
      ensures forall run :: run in runs ==>
                runs[run] == if Looked(newest, run) then AfterRecovery(old(runs)[run]) else old(runs)[run]
    {
      var n := if |newest| < RECOVERY_LIMIT then |newest| else RECOVERY_LIMIT;
      for i := 0 to n
        invariant runs.Keys == old(runs).Keys
        invariant forall j :: 0 <= j < i ==> runs[newest[j]] == AfterRecovery(old(runs)[newest[j]])
        invariant forall run :: run in runs && run !in newest[..i] ==> runs[run] == old(runs)[run]
      {
        var run := runs[newest[i]];
        if !Terminal(run.status) {
          if run.current.Some? {
            run := run.(stages := run.stages[run.current.value := Blocked]);
          }
          run := run.(status := Blocked);
          runs := runs[newest[i] := run];
        }
      }
    }
  }

  /** After recovery nothing is left unfinished exactly if no unfinished run was beyond the limit. */
  lemma RecoveryIsCompleteIff(before: map<RunKey, Run>, after: map<RunKey, Run>, newest: seq<RunKey>)
    requires after.Keys == before.Keys && forall run :: run in before ==> run in newest
    requires forall run :: run in after ==>
               after[run] == if Looked(newest, run) then AfterRecovery(before[run]) else before[run]
    ensures (forall run :: run in after ==> Terminal(after[run].status)) <==>
            forall run :: run in before && !Looked(newest, run) ==> Terminal(before[run].status)
  {
    if forall run :: run in after ==> Terminal(after[run].status) {
      forall run | run in before && !Looked(newest, run) ensures Terminal(before[run].status) {
        assert run in after;
      }
    }
  }
}
