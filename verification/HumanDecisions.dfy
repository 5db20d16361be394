/** Human decisions: each question is answered at most once, together with its response artifact. */
module HumanDecisions {
  import opened Kinds
  import opened Results
  import opened Publication

  datatype PromptKind = Clarification | Approval | EvaluationDecision

  datatype Decision = Submit | Approve | Reject | Accept | Repair

  datatype Action = Action(
    actionId: string, surfaceId: string, digest: Digest, version: int, decision: Decision, answer: string)

  /** A question to the human about one artifact, and the accepted action once there is one. */
  datatype Interaction = Interaction(
    surfaceId: string, run: RunId, stage: Stage, agent: string, taskId: string, prompt: PromptKind,
    artifactId: Id, digest: Digest, version: int, response: Option<Action>)

  datatype ActionError =
    | UnknownSurface | AlreadyAnswered | NotWaiting | Stale | InvalidDecision | PublishFailed | SupersededByRetry

  type Interactions = map<string, Interaction>

  datatype DecisionTable = DecisionTable(
    interactions: Interactions, rows: Rows, clock: nat, statuses: map<RunId, RunStatus>)

  predicate Allowed(prompt: PromptKind, decision: Decision) {
    match prompt
    case Clarification => decision == Submit
    case Approval => decision in {Approve, Reject}
    case EvaluationDecision => decision in {Accept, Repair}
  }

  predicate IsResponse(m: Meta) {
    m.kind == HumanResponse
  }

  function Decide(t: DecisionTable, run: RunId, action: Action, diskOk: bool): Result<(Interaction, bool), ActionError> {
    if action.surfaceId !in t.interactions || t.interactions[action.surfaceId].run != run then Failure(UnknownSurface)
    else
      var open := t.interactions[action.surfaceId];
      if open.response == Some(action) then Success((open, false))
      else if open.response.Some? then Failure(AlreadyAnswered)
      else if run !in t.statuses || t.statuses[run] != InputRequired then Failure(NotWaiting)
      else if action.version != open.version || action.digest != open.digest then Failure(Stale)
      else if !Allowed(open.prompt, action.decision) || (action.decision == Submit && action.answer == "")
      then Failure(InvalidDecision)
      else if !diskOk then Failure(PublishFailed)
      else Success((open.(response := Some(action)), true))
  }

  function AfterAction(t: DecisionTable, run: RunId, action: Action, m: Meta, diskOk: bool): DecisionTable {
    var r := Decide(t, run, action, diskOk);
    if r.Success? && r.value.1
    then t.(interactions := t.interactions[action.surfaceId := r.value.0],
            rows := InsertRow(t.rows, m, t.clock), clock := t.clock + 1)
    else t
  }

  // ----- the hub's side: a question of an older attempt can no longer be answered -----

  datatype Delegation = Delegation(agent: string, stage: Stage, taskId: Option<string>)

  function LatestTask(delegations: seq<Delegation>, agent: string, stage: Stage): Option<Delegation> {
    if delegations == [] then None
    else
      var last := delegations[|delegations| - 1];
      if last.agent == agent && last.stage == stage then Some(last)
      else LatestTask(delegations[..|delegations| - 1], agent, stage)
  }

  predicate RetrySuperseded(t: DecisionTable, run: RunId, action: Action, delegations: seq<Delegation>) {
    action.surfaceId in t.interactions && t.interactions[action.surfaceId].run == run
    && var open := t.interactions[action.surfaceId];
       var latest := LatestTask(delegations, open.agent, open.stage);
       open.response.None? && latest.Some? && latest.value.taskId != Some(open.taskId)
  }

  // ----- histories -----

  datatype Step =
    | Ask(interaction: Interaction)
    | Act(run: RunId, action: Action, m: Meta, diskOk: bool, delegations: seq<Delegation>)
    | Publish(m: Meta)
    | SetStatus(run: RunId, status: RunStatus)

  ghost predicate Enabled(t: DecisionTable, step: Step) {
    match step
    case Ask(i) => i.surfaceId !in t.interactions && i.response.None?
    case Act(_, _, m, _, _) => IsResponse(m) && m.id !in t.rows
    case Publish(m) => !IsResponse(m) && m.id !in t.rows
    case SetStatus(_, _) => true
  }

  ghost function Apply(t: DecisionTable, step: Step): DecisionTable
    requires Enabled(t, step)
  {
    match step
    case Ask(i) => t.(interactions := t.interactions[i.surfaceId := i])
    case Act(run, action, m, diskOk, delegations) =>
      if RetrySuperseded(t, run, action, delegations) then t else AfterAction(t, run, action, m, diskOk)
    case Publish(m) => t.(rows := InsertRow(t.rows, m, t.clock), clock := t.clock + 1)
    case SetStatus(run, status) => t.(statuses := t.statuses[run := status])
  }

  ghost predicate ValidRun(t: DecisionTable, steps: seq<Step>)
    decreases |steps|
  {
    steps == [] || (Enabled(t, steps[0]) && ValidRun(Apply(t, steps[0]), steps[1..]))
  }

  ghost function Final(t: DecisionTable, steps: seq<Step>): DecisionTable
    requires ValidRun(t, steps)
    decreases |steps|
  {
    if steps == [] then t else Final(Apply(t, steps[0]), steps[1..])
  }

  function Answered(interactions: Interactions): set<string> {
    set s | s in interactions && interactions[s].response.Some?
  }

  function Responses(rows: Rows): set<Id> {
    set id | id in rows && rows[id].meta.kind == HumanResponse
  }

  ghost predicate Inv(t: DecisionTable) {
    && (forall s :: s in t.interactions ==> t.interactions[s].surfaceId == s)
    && |Responses(t.rows)| == |Answered(t.interactions)|
  }

  lemma InsertKeepsResponses(t: DecisionTable, m: Meta)
    requires m.id !in t.rows
    ensures Responses(InsertRow(t.rows, m, t.clock)) == Responses(t.rows) + (if IsResponse(m) then {m.id} else {})
  {
    forall id | id in t.rows && t.rows[id].meta.kind == HumanResponse ensures !Hits(m, t.rows[id].meta) {
    }
  }

  /** An accepted action answers one more question and inserts one more response. */
  lemma ActionKeepsCount(t: DecisionTable, run: RunId, action: Action, m: Meta, diskOk: bool)
    requires Inv(t) && IsResponse(m) && m.id !in t.rows
    ensures Inv(AfterAction(t, run, action, m, diskOk))
  {
    var r := Decide(t, run, action, diskOk);
    if r.Success? && r.value.1 {
      InsertKeepsResponses(t, m);
      assert m.id !in Responses(t.rows);
      AnswerOneMore(t.interactions, action.surfaceId, r.value.0);
    }
  }

  lemma AnswerOneMore(interactions: Interactions, surface: string, answered: Interaction)
    requires surface in interactions && interactions[surface].response.None? && answered.response.Some?
    ensures surface !in Answered(interactions)
    ensures Answered(interactions[surface := answered]) == Answered(interactions) + {surface}
  {
  }

  lemma StepKeepsCount(t: DecisionTable, step: Step)
    requires Inv(t) && Enabled(t, step)
    ensures Inv(Apply(t, step))
  {
    var t' := Apply(t, step);
    match step
    case Ask(i) =>
      assert Answered(t'.interactions) == Answered(t.interactions);
    case Act(run, action, m, diskOk, delegations) =>
      ActionKeepsCount(t, run, action, m, diskOk);
    case Publish(m) =>
      InsertKeepsResponses(t, m);
    case SetStatus(_, _) =>
  }

  /** Over any history the index holds exactly one response artifact for every answered question. */
  lemma {:induction false} OneArtifactPerAnswer(t: DecisionTable, steps: seq<Step>)
    requires Inv(t) && ValidRun(t, steps)
    ensures Inv(Final(t, steps))
    ensures |Responses(Final(t, steps).rows)| == |Answered(Final(t, steps).interactions)|
    decreases |steps|
  {
    if steps != [] {
      StepKeepsCount(t, steps[0]);
      OneArtifactPerAnswer(Apply(t, steps[0]), steps[1..]);
    }
  }

  /** Over any history a response never changes once it is set. */
  lemma {:induction false} ResponseIsWriteOnce(t: DecisionTable, steps: seq<Step>, s: string)
    requires ValidRun(t, steps) && s in t.interactions && t.interactions[s].response.Some?
    ensures s in Final(t, steps).interactions && Final(t, steps).interactions[s] == t.interactions[s]
    decreases |steps|
  {
    if steps != [] {
      ResponseIsWriteOnce(Apply(t, steps[0]), steps[1..], s);
    }
  }

  /**
    An action changes something if and only if it answers an open, current question of a waiting run and its
    file is written; then the whole decision is recorded. Repeating the accepted action returns it.
   */
  lemma ActionTakesEffectIff(t: DecisionTable, run: RunId, action: Action, m: Meta, diskOk: bool)
    requires m.id !in t.rows
    ensures AfterAction(t, run, action, m, diskOk) != t <==>
            && action.surfaceId in t.interactions
            && var open := t.interactions[action.surfaceId];
               && open.run == run && open.response.None? && run in t.statuses && t.statuses[run] == InputRequired
               && action.version == open.version && action.digest == open.digest
               && Allowed(open.prompt, action.decision) && (action.decision == Submit ==> action.answer != "")
               && diskOk
    ensures var t' := AfterAction(t, run, action, m, diskOk);
            && (Decide(t, run, action, diskOk).Failure? ==> t' == t)
            && (t' != t ==> Decide(t', run, action, diskOk) == Success((t'.interactions[action.surfaceId], false))
                            && t'.interactions[action.surfaceId].response == Some(action))
  {
  }
}
