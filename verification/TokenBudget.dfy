/** Reported token usage per phase: each execution is counted once, and the budget is checked after counting. */
module TokenBudget {
  import opened Kinds
  import opened Results
  import Catalog

  /** Events in id order. An empty execution id is never recognised again; reported tokens are not checked. */
  datatype Event =
    | RetryRequested
    | Recorded(agent: string, phase: Option<Stage>, id: string, tokens: int)
    | Unrelated

  datatype Outcome = Duplicate | Within | Exceeded

  predicate PhaseAgent(phase: Stage, agent: string) {
    exists spec :: spec in Catalog.AgentsByStage(phase) && spec.name == agent
  }

  /** Charged by its explicit phase, or by its agent for events from before phases were recorded. */
  predicate Charged(event: Event, phase: Stage) {
    event.Recorded? && (event.phase == Some(phase) || PhaseAgent(phase, event.agent))
  }

  predicate Seen(events: seq<Event>, id: string) {
    exists i :: 0 <= i < |events| && events[i].Recorded? && events[i].id == id
  }

  function Total(events: seq<Event>, phase: Stage): int {
    if events == [] then 0
    else
      var last := events[|events| - 1];
      Total(events[..|events| - 1], phase) + if Charged(last, phase) then last.tokens else 0
  }

  /** Position behind the last retry request. */
  function AfterLastRetry(events: seq<Event>): (n: nat)
    ensures n <= |events|
  {
    if events == [] then 0
    else if events[|events| - 1].RetryRequested? then |events|
    else AfterLastRetry(events[..|events| - 1])
  }

  function WindowStart(events: seq<Event>, phase: Stage): (n: nat)
    ensures n <= |events|
  {
    if phase == Evaluation then AfterLastRetry(events) else 0
  }

  /** What a phase has used so far: since the last retry for evaluation, since the beginning for the others. */
  function Spent(events: seq<Event>, phase: Stage): int {
    Total(events[WindowStart(events, phase)..], phase)
  }

  predicate IsDuplicate(events: seq<Event>, id: string) {
    id != "" && Seen(events, id)
  }

  function Verdict(events: seq<Event>, agent: string, phase: Stage, id: string, tokens: int, budget: int): Outcome {
    if IsDuplicate(events, id) then Duplicate
    else if Spent(events, phase) + tokens > budget then Exceeded
    else Within
  }

  function AfterRecord(events: seq<Event>, agent: string, phase: Stage, id: string, tokens: int): seq<Event> {
    if IsDuplicate(events, id) then events else events + [Recorded(agent, Some(phase), id, tokens)]
  }

  class ExecutionLedger {
    const budget: int
    var events: seq<Event>

    constructor (budget: int)
      ensures this.budget == budget && events == []
    {
      this.budget := budget;
      events := [];
    }

    method RequestRetry()
      modifies this
      ensures events == old(events) + [RetryRequested]
    {
      events := events + [RetryRequested];
    }

    /** The event is stored before the budget is checked, so a refused execution still counts. */
    method RecordExecution(agent: string, phase: Stage, id: string, input: Option<int>, output: Option<int>)
      returns (outcome: Outcome)
      modifies this
      ensures var tokens := (if input.Some? then input.value else 0) + (if output.Some? then output.value else 0);
              && outcome == Verdict(old(events), agent, phase, id, tokens, budget)
              && events == AfterRecord(old(events), agent, phase, id, tokens)
    {
      var tokens := (if input.Some? then input.value else 0) + (if output.Some? then output.value else 0);
      var previous := events;
      if id != "" {
        var known := Known(previous, id);
        if known {
          return Duplicate;
        }
      }
      events := events + [Recorded(agent, Some(phase), id, tokens)];
      var start := 0;
      if phase == Evaluation {
        start := LatestRetry(previous);
      }
      var total := PhaseTotal(previous[start..], phase);
      total := total + tokens;
      outcome := if total > budget then Exceeded else Within;
    }
  }

  method Known(events: seq<Event>, id: string) returns (known: bool)
    ensures known == Seen(events, id)
  {
    for i := 0 to |events|
      invariant forall j :: 0 <= j < i ==> !(events[j].Recorded? && events[j].id == id)
    {
      if events[i].Recorded? && events[i].id == id {
        return true;
      }
    }
    return false;
  }

  method LatestRetry(events: seq<Event>) returns (latest: nat)
    ensures latest == AfterLastRetry(events)
  {
    latest := 0;
    for i := 0 to |events|
      invariant latest == AfterLastRetry(events[..i])
    {
      assert events[..i + 1][..i] == events[..i];
      if events[i].RetryRequested? {
        latest := i + 1;
      }
    }
    assert events[..|events|] == events;
  }

  method PhaseTotal(events: seq<Event>, phase: Stage) returns (total: int)
    ensures total == Total(events, phase)
  {
    total := 0;
    for i := 0 to |events|
      invariant total == Total(events[..i], phase)
    {
      assert events[..i + 1][..i] == events[..i];
      if Charged(events[i], phase) {
        total := total + events[i].tokens;
      }
    }
    assert events[..|events|] == events;
  }

  // ----- accounting over whole runs -----

  datatype Step = Retry | Record(agent: string, phase: Stage, id: string, tokens: int)

  function Apply(events: seq<Event>, step: Step): seq<Event> {
    match step
    case Retry => events + [RetryRequested]
    case Record(agent, phase, id, tokens) => AfterRecord(events, agent, phase, id, tokens)
  }

  function Run(events: seq<Event>, steps: seq<Step>): seq<Event>
    decreases |steps|
  {
    if steps == [] then events else Run(Apply(events, steps[0]), steps[1..])
  }

  ghost predicate CountedOnce(events: seq<Event>) {
    forall i, j :: 0 <= i < j < |events| && events[i].Recorded? && events[j].Recorded? && events[i].id != "" ==>
      events[i].id != events[j].id
  }

  lemma {:induction false} RunKeepsCounts(events: seq<Event>, steps: seq<Step>)
    requires CountedOnce(events)
    ensures CountedOnce(Run(events, steps)) && events <= Run(events, steps)
    decreases |steps|
  {
    if steps != [] {
      RunKeepsCounts(Apply(events, steps[0]), steps[1..]);
    }
  }

  /** Whatever is recorded, repeated and retried, no execution id is counted twice, and nothing recorded is lost. */
  lemma EachExecutionCountsOnce(steps: seq<Step>, more: seq<Step>)
    ensures CountedOnce(Run([], steps))
    ensures Run([], steps) <= Run(Run([], steps), more)
  {
    RunKeepsCounts([], steps);
    RunKeepsCounts(Run([], steps), more);
  }

  lemma {:induction false} TotalAppends(events: seq<Event>, more: seq<Event>, phase: Stage)
    ensures Total(events + more, phase) == Total(events, phase) + Total(more, phase)
  {
    if more == [] {
      assert events + [] == events;
    } else {
      var n := |more| - 1;
      TotalAppends(events, more[..n], phase);
      assert (events + more)[..|events + more| - 1] == events + more[..n];
    }
  }

  /** Later events that leave the phase's window open: any for most phases, any but a retry for evaluation. */
  ghost predicate KeepsWindow(more: seq<Event>, phase: Stage) {
    phase == Evaluation ==> forall e :: e in more ==> !e.RetryRequested?
  }

  lemma {:induction false} WindowStays(events: seq<Event>, more: seq<Event>, phase: Stage)
    requires KeepsWindow(more, phase)
    ensures WindowStart(events + more, phase) == WindowStart(events, phase)
  {
    if more == [] {
      assert events + more == events;
    } else {
      var n := |more| - 1;
      assert more[n] in more;
      WindowStays(events, more[..n], phase);
      assert (events + more)[..|events + more| - 1] == events + more[..n];
    }
  }

  /** Within its window a phase's usage only adds up. */
  lemma SpentAppends(events: seq<Event>, more: seq<Event>, phase: Stage)
    requires KeepsWindow(more, phase)
    ensures Spent(events + more, phase) == Spent(events, phase) + Total(more, phase)
  {
    WindowStays(events, more, phase);
    var start := WindowStart(events, phase);
    assert (events + more)[start..] == events[start..] + more;
    TotalAppends(events[start..], more, phase);
  }

  lemma TotalOfOne(event: Event, phase: Stage)
    ensures Total([event], phase) == if Charged(event, phase) then event.tokens else 0
  {
    assert [event][..0] == [];
  }

  /** A new record passes exactly when its phase's window, with the record in it, is within the budget. */
  lemma WithinIff(events: seq<Event>, agent: string, phase: Stage, id: string, tokens: int, budget: int)
    requires !IsDuplicate(events, id)
    ensures Verdict(events, agent, phase, id, tokens, budget) == Within <==>
              Spent(AfterRecord(events, agent, phase, id, tokens), phase) <= budget
  {
    var record := Recorded(agent, Some(phase), id, tokens);
    SpentAppends(events, [record], phase);
    TotalOfOne(record, phase);
  }

  /** A later new record is refused exactly if the usage reported since then, its own included, keeps the excess. */
  lemma LaterIsRefusedIff(
    events: seq<Event>, more: seq<Event>, agent: string, phase: Stage, id: string, tokens: int, budget: int)
    requires KeepsWindow(more, phase) && !IsDuplicate(events + more, id)
    ensures Verdict(events + more, agent, phase, id, tokens, budget) == Exceeded <==>
              Total(more, phase) + tokens > budget - Spent(events, phase)
  {
    SpentAppends(events, more, phase);
  }

  ghost predicate AtLeast(events: seq<Event>, least: int) {
    forall e :: e in events && e.Recorded? ==> least <= e.tokens
  }

  lemma {:induction false} TotalOfNonNegatives(events: seq<Event>, phase: Stage)
    requires AtLeast(events, 0)
    ensures 0 <= Total(events, phase)
  {
    if events != [] {
      TotalOfNonNegatives(events[..|events| - 1], phase);
      assert events[|events| - 1] in events;
    }
  }

  /** Once the phase is over its budget, this later new record is refused, if all reports since are at least `least`. */
  ghost predicate RefusedAfter(
    events: seq<Event>, more: seq<Event>, agent: string, phase: Stage, id: string, tokens: int, budget: int, least: int)
  {
    Spent(events, phase) > budget && KeepsWindow(more, phase) && AtLeast(more, least) && least <= tokens
    && !IsDuplicate(events + more, id)
    ==> Verdict(events + more, agent, phase, id, tokens, budget) == Exceeded
  }

  lemma ExceededStaysExceeded(
    events: seq<Event>, more: seq<Event>, agent: string, phase: Stage, id: string, tokens: int, budget: int, least: int)
    requires 0 <= least
    ensures RefusedAfter(events, more, agent, phase, id, tokens, budget, least)
  {
    if KeepsWindow(more, phase) && AtLeast(more, least) && !IsDuplicate(events + more, id) {
      LaterIsRefusedIff(events, more, agent, phase, id, tokens, budget);
      TotalOfNonNegatives(more, phase);
    }
  }

  /** A report below zero takes the excess back: one token over the budget, then the negative report. */
  lemma NegativeUsageReopens(agent: string, phase: Stage, budget: int, tokens: int)
    requires tokens < 0
    ensures Spent([Recorded(agent, Some(phase), "", budget + 1)], phase) == budget + 1
    ensures Verdict([Recorded(agent, Some(phase), "", budget + 1)], agent, phase, "", tokens, budget) == Within
  {
    var record := Recorded(agent, Some(phase), "", budget + 1);
    SpentAppends([], [record], phase);
    TotalOfOne(record, phase);
    assert [] + [record] == [record];
  }

  /**
    Exactly when a spent budget stays spent: every later new record of the phase is refused, after whatever else was
    reported, if and only if no report is negative. The code does not check the sign of reports.
   */
  lemma StaysExceededIff(phase: Stage, budget: int, least: int)
    ensures (forall events, more, agent, id, tokens ::
               RefusedAfter(events, more, agent, phase, id, tokens, budget, least)) <==> 0 <= least
  {
    if 0 <= least {
      forall events, more, agent, id, tokens
        ensures RefusedAfter(events, more, agent, phase, id, tokens, budget, least)
      {
        ExceededStaysExceeded(events, more, agent, phase, id, tokens, budget, least);
      }
    } else {
      var events := [Recorded("", Some(phase), "", budget + 1)];
      NegativeUsageReopens("", phase, budget, least);
      assert events + [] == events;
      assert !RefusedAfter(events, [], "", phase, "", least, budget, least);
    }
  }

  /** A retry gives evaluation a fresh window, and no other phase. */
  lemma RetryResetsEvaluationOnly(events: seq<Event>, phase: Stage)
    ensures Spent(events + [RetryRequested], phase) == if phase == Evaluation then 0 else Spent(events, phase)
  {
    var after := events + [RetryRequested];
    assert after[..|events|] == events;
    if phase == Evaluation {
      assert after[|after|..] == [];
    } else {
      assert after[0..] == after && events[0..] == events;
    }
  }
}
