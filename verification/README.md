# Verified model of the AIDLC control plane

This project models the deterministic control plane of the AIDLC workflow hub in Dafny and proves what it keeps
over every interleaving, run or input. The parts are:

- **Artifact publication** (`Kinds`, `Publication`, `PublicationSafety`, `ArtifactStore`, `Database`). A publication
  is a file write under the project lock and, later, an index insertion under the database lock. Any number of
  publishers interleave, and a process may be killed inside either half. The tree and the index can disagree; the
  proofs say exactly how, and that the disagreement heals.
- **Human decisions** (`HumanDecisions`, and `AcceptAction` in `Database`).
- **Gates, sources and release** (`Artifacts`, `EvaluationModel`, `Sources`, `Gates`, `HubIndex`, `ReleaseSafety`):
  which evidence counts, what integration may contain, and what a released bundle rests on in every run of the hub.
- **Delegation** (`Tasks`, `TaskStore`, `TaskListing`, `Delegation`, `Replay`, `Client`): reservation of messages,
  task states, continuations, cancellation, restarts, lost replies, retries and paging.
- **Workflow** (`Workflow`, `WorkflowLifecycle`, `WorkflowInputs`, `WorkflowSupply`, `WorkflowLog`, `InvocationIds`,
  `Orchestrator`, `TokenBudget`, `Catalog`, `Context`): the stage loop with reuse, the repair loop, retries,
  cancellation, kills and recovery of one run.
- **Sandbox recovery** (`Leases`, `JobLeases`, `Recovery`): job leases against recoveries that run at any time.

Conventions. Each state machine has `Enabled`, `Apply`, `ValidRun` and `Final`; main results speak of every state a
`ValidRun` leads to. Code that updates tables, files or lists in place is a class or a loop proved equal to the
function the machine uses. Digests stand for contents, so SHA-256 is taken to be collision free; random ids are
fresh; scores are real numbers. The network, the daemon, the clock and the specialists are parameters or free steps.

Three properties that documentation or code comments suggest do not hold without a condition. Each has a concrete
counterexample and the exact condition:

- *An index entry is never older than an indexed upstream entry.* A writer killed between removing a manifest and
  removing its content, or between writing a content and its manifest, leaves a directory that later writes overlook
  and that `read_content` reads without an identity check, so a superseded snapshot can be indexed
  (`TornDirectoryBreaksFreshness`). `AddKeepsFreshIff` and `AlwaysFreshIff` give the exact condition, for
  one insertion and for whole runs; `FreshInEveryRun` holds whenever no kill leaves such a directory.
- *Unreadable rows heal.* A row stays unreadable if a publisher that was to delete it was killed between its two
  halves (`LostPublisherLeavesStaleRow`), until another publication deletes it (`OutdatedNeverReadsBack`).
  `QuietRowReadsBackIff` says exactly when a row has healed.
- *A spent token budget stays spent.* Reported token counts are not checked for sign; `StaysExceededIff` shows that
  non-negative reports are exactly what is needed.

Two limits of the code are stated as they are: paging with a negative page size never completes
(`NegativeSizeNeverCompletes`), and recovery after a restart looks at the newest 10,000 runs (`RecoveryIsCompleteIff`).

## Model

| member | source | states |
|---|---|---|
| Kinds.InvalidatedIffUpstream | src/aidlc/storage/snapshots.py:24-47 | the kinds a publication invalidates are exactly those strictly downstream of it |
| ArtifactStore.Store.Write | src/aidlc/storage/artifacts.py:92-127 | a publication removes exactly the project's downstream snapshots, fills its own slot and touches no other directory; an unsafe producer changes nothing |
| ArtifactStore.Store.Read | src/aidlc/storage/artifacts.py:152-170 | a read succeeds only with the content the record names, and fails when the slot holds another publication |
| Database.WorkflowDatabase.InsertArtifact | src/aidlc/storage/database.py:315-345 | the insertion loop deletes exactly the same slot and everything downstream, and adds the row |
| Database.WorkflowDatabase.AddArtifact | src/aidlc/storage/database.py:296-313 | a snapshot is indexed exactly if it still reads back, a record always; a refusal changes nothing |
| Database.WorkflowDatabase.AcceptAction | src/aidlc/storage/database.py:118-176 | decision, response file and response row are committed together, or nothing is |
| Publication.RunPreserves | src/aidlc/storage/artifacts.py:113-124 | the coherence invariant holds after any interleaving |
| PublicationSafety.AddKeepsFreshIff | src/aidlc/storage/database.py:296-313 | indexing a snapshot keeps freshness if and only if the read found a manifest to check or no indexed upstream snapshot was written after it |
| PublicationSafety.FreshInEveryRun | src/aidlc/storage/database.py:296-345 | of two indexed snapshots in upstream order the upstream one was written first and indexed first, in every interleaving without torn directories |
| PublicationSafety.AlwaysFreshIff | src/aidlc/storage/database.py:296-345 | a run keeps freshness all along, torn directories or not, if and only if every indexing of a snapshot found a manifest to check or no indexed upstream snapshot was written later |
| PublicationSafety.IdentifiedReadIsCurrent | src/aidlc/storage/artifacts.py:152-170 | in every run, torn directories included, a successful read that finds a manifest finds the publication's own, and no completed write that disturbs it is later |
| PublicationSafety.ReadProvesCurrent | src/aidlc/storage/artifacts.py:152-170 | a successful read proves that no later write disturbed the snapshot |
| PublicationSafety.StaleRowsAreCovered | src/aidlc/storage/database.py:296-334 | an indexed row reads back, or a pending publication that reads back was written after it and disturbs it, or a publication that was cut short did so |
| PublicationSafety.QuietIndexReadsBack | src/aidlc/storage/database.py:296-334 | with nothing pending, a row reads back unless a publication written after it that disturbs it was cut short, in every run |
| PublicationSafety.QuietRowReadsBackIff | src/aidlc/storage/database.py:296-334 | with nothing pending and publishers killed only between their halves, a row reads back if and only if no publication cut short was written after it and disturbs it |
| PublicationSafety.OutdatedNeverReadsBack | src/aidlc/storage/artifacts.py:152-170 | a publication that a later write disturbed never reads back again in any continuation without torn directories |
| PublicationSafety.RowsOnlyDisappear | src/aidlc/storage/database.py:316-345 | rows never change; an id that is not pending can only leave the index |
| PublicationSafety.EvidenceIsConserved | src/aidlc/storage/artifacts.py:92-92 | no sequence of publications deletes a trusted report, human record or repair request |
| PublicationSafety.LineageStaysIndexed | src/aidlc/storage/database.py:316-334 | while a snapshot is indexed, so is every upstream parent that was indexed when it was |
| PublicationSafety.TornDirectoryBreaksFreshness | src/aidlc/storage/artifacts.py:115-124 | a concrete run, without repeated contents, in which a killed writer makes freshness fail |
| PublicationSafety.LostPublisherLeavesStaleRow | src/aidlc/storage/artifacts.py:113-124 | a concrete run in which a publisher killed between its halves leaves an unreadable row although nothing is pending |
| HumanDecisions.OneArtifactPerAnswer | src/aidlc/storage/database.py:118-176 | over any history the index holds one response artifact per answered surface |
| HumanDecisions.ResponseIsWriteOnce | src/aidlc/storage/database.py:138-142 | a response never changes once set |
| HumanDecisions.ActionTakesEffectIff | src/aidlc/storage/database.py:128-163 | an action changes something exactly if it answers an open, current question of a waiting run with an allowed decision and its file is written |
| EvaluationModel.ScoreOnScale | src/aidlc/evaluation/models.py:71-91 | the overall score is on the rubric scale and present exactly when some rubric applies |
| EvaluationModel.DecisionIsBounded | src/aidlc/evaluation/models.py:94-118 | a repair is granted only below the limit, exhaustion comes only at it, and which inputs pass or defer |
| Sources.LatestChangesAreLast | src/aidlc/agents/source.py:21-33 | those are exactly the last code change of each producer, one per producer |
| Sources.MissingIff | src/aidlc/agents/source.py:57-69 | integration lacks its parts exactly when one of the three agents has no code change or a stranger has one |
| Sources.IntegrationKeepsOwnership | src/aidlc/agents/source.py:36-69 | every integrated file is from the last change of the agent whose prefix its path has, and none of that agent's files is missing |
| Gates.ExecutionGate | src/aidlc/evaluation/gates.py:135-181 | the nested scan yields exactly the missing, failing and proving evidence per source |
| Gates.EvaluateGates | src/aidlc/evaluation/gates.py:17-128 | the report is the six gates over the current sources with the verdict they imply |
| Gates.ProofIsLastEvidence | src/aidlc/evaluation/gates.py:140-172 | the report that counts for a source is the last matching one, and there is none without a match |
| Gates.PassedIff | src/aidlc/evaluation/gates.py:17-128 | the verdict is passed exactly when identities and requirements hold, there is current source, all of it validates, and the last evidence of each kind checks for each source |
| Gates.BlockedIff | src/aidlc/evaluation/gates.py:104-128 | the verdict is blocked exactly when some input or evidence is missing |
| Gates.NewSourceBlocks | src/aidlc/evaluation/gates.py:17-128 | a new current source with a fresh id always turns the verdict to blocked |
| Context.SelectAgentArtifacts | src/aidlc/orchestration/context.py:20-46 | the loop selects one current snapshot per dependency, in contract order |
| Context.SelectSucceedsIff | src/aidlc/orchestration/context.py:20-46 | selection fails exactly when a required input is unavailable, and selects only listed artifacts |
| HubIndex.AtomicPublication | src/aidlc/orchestration/workflow.py:580-607 | writing and indexing without an await publishes on the hub's listing what it publishes in the table |
| ReleaseSafety.ReleasesAreBacked | src/aidlc/agents/source.py:95-132 | in every hub run a released bundle has the files of the source its gate report was computed over, and a human accept of that very evaluation or checked evidence and a score at the threshold |
| ReleaseSafety.ListedGateKeepsItsInputs | src/aidlc/storage/database.py:316-334 | in every run everything a listed gate report was computed over is still listed, except what the report itself replaced |
| ReleaseSafety.ListedGateHasItsSources | src/aidlc/storage/database.py:316-334 | in every run every source a listed gate report names is itself listed, with its files |
| ReleaseSafety.ListedGateNamesListedSource | src/aidlc/orchestration/workflow.py:401-433 | a gate report and an integrated source that are listed together belong together, and to no other source |
| TaskStore.SQLiteTaskStore.constructor | src/aidlc/a2a/task_store.py:26-61 | opening the store fails exactly the agent's submitted and working tasks and starts none |
| TaskStore.SQLiteTaskStore.Reserve | src/aidlc/a2a/task_store.py:76-130 | one transaction answers a known message with its task, or reserves one execution, or refuses without effect; tasks stay under their own ids |
| TaskStore.SQLiteTaskStore.List | src/aidlc/a2a/task_store.py:155-187 | answers with the requested page of the listing of the owner's stored tasks |
| TaskStore.CutPage | src/aidlc/a2a/task_store.py:176-187 | cuts the page behind the token, or refuses an unknown token |
| TaskListing.StoredPaginationIsComplete | src/aidlc/a2a/task_store.py:155-187 | however each call enumerates the table, the pages collected from the start are the owner's matching stored tasks, each exactly once, newest first, in at most one page more than there are tasks, for every filter and every page size that is not negative |
| TaskListing.ListingIsUnique | src/aidlc/a2a/task_store.py:156-174 | two readings of the same table give the same listing, in whatever order the rows come |
| TaskListing.NegativeSizeNeverCompletes | src/aidlc/a2a/task_store.py:181-187 | a negative page size fails at once or leads to an empty page whose token points to itself |
| Delegation.HandlerStartsAtMostOnce | src/aidlc/a2a/server.py:185-239 | under any schedule the handler starts at most once per agent, owner and message id |
| Delegation.RepliesNameOneTask | src/aidlc/a2a/task_store.py:83-98 | all successful replies to a message name one task, each in the context the message asked for |
| Delegation.ClientNeverSeesAnotherTask | src/aidlc/a2a/client.py:176-187 | no reply, however late, makes the client's identity check fire, for task or context |
| Delegation.PollsPassTheCheck | src/aidlc/a2a/client.py:256-258 | nor does a poll of the task a client knows |
| Delegation.KnownTaskIsWriteOnce | src/aidlc/a2a/client.py:176-187 | a client's task identity is write-once across retries, deletions and restarts |
| Delegation.OneResumePerPause | src/aidlc/a2a/task_store.py:97-116 | from any reachable state until the task next pauses, at most one continuation of it is accepted, and none if it is not paused |
| Delegation.ResumesBalancePauses | src/aidlc/a2a/task_store.py:97-116 | over a whole run a task accepts no more continuations than it had pauses, and one fewer while it is paused |
| Delegation.ContinuationAcceptedIff | src/aidlc/a2a/task_store.py:97-116 | a continuation is accepted exactly when its task waits in its context; history grows by exactly that message |
| Delegation.RacingContinuationRefused | src/aidlc/a2a/task_store.py:107-110 | after one continuation is accepted a racing one is refused without effect |
| Delegation.RestartLeavesNothingBusy | src/aidlc/a2a/task_store.py:44-61 | after a restart no task is submitted or working, and nothing was started |
| Delegation.BusyTasksAreAttended | src/aidlc/a2a/server.py:185-239 | in every run a task that shows as submitted or working has an execution, running or reserved |
| Delegation.NoSilentRerun | src/aidlc/a2a/task_store.py:44-61 | a message reserved before a restart is never started after it |
| Delegation.EveryStoreRecovers | src/aidlc/a2a/task_store.py:44-61 | opening every agent's store recovers the whole fleet |
| Replay.Follow | src/aidlc/a2a/server.py:247-270 | the polling loop emits exactly the changes up to the first interrupting or missing snapshot |
| Replay.EveryArtifactOnce | src/aidlc/a2a/server.py:250-263 | every artifact the task ever showed is in the first snapshot or announced exactly once, never both |
| Replay.WatcherIsUpToDate | src/aidlc/a2a/server.py:254-270 | the events leave a watcher with the state of the last poll |
| Client.TransientIff | src/aidlc/a2a/client.py:49-55 | an error is retried exactly if the outermost transport or status error in its chain of causes is retriable |
| Client.Mapping.Adopt | src/aidlc/a2a/client.py:176-187 | a task identity is adopted exactly if it matches the context and the identity already known |
| Client.Mapping.PollTask | src/aidlc/a2a/client.py:256-308 | polling ends only in a state that ends the task, and never changes the identity |
| Client.Mapping.Invoke | src/aidlc/a2a/client.py:189-322 | at most one send per attempt and one attempt more than the retries; the message is never sent again once the identity is known; a transient error is given up only on the last attempt |
| WorkflowLifecycle.LifecycleIsSound | src/aidlc/orchestration/workflow.py:55-90 | at most one execution is unfinished, and when none is, outside shutdown, the status is terminal |
| WorkflowLifecycle.CompletedIsFinal | src/aidlc/orchestration/workflow.py:67-73 | a completed run stays completed and hands out no more work |
| WorkflowLifecycle.RepairsAreBounded | src/aidlc/orchestration/workflow.py:218-307 | over all retries and crashes repair requests are numbered 1 to k with k at most the limit |
| WorkflowLifecycle.EveryExecutionIsBounded | src/aidlc/orchestration/workflow.py:179-324 | over any run each execution goes through at most 10 times the repair limit plus 20 stages and verdicts, so its stage and repair loops end |
| WorkflowSupply.InputsAreAlwaysThere | src/aidlc/orchestration/workflow.py:179-216 | in every run the context of a stage holds every required input of each of its agents |
| WorkflowSupply.ListedReviewsAreSupported | src/aidlc/storage/database.py:316-334 | in every run of the workflow a listed evaluation has a listed gate report, and a listed gate report a listed integrated source |
| WorkflowSupply.IntegrationFindsItsParts | src/aidlc/orchestration/workflow.py:580-599 | integration always finds the code changes of exactly the three implementation agents |
| WorkflowSupply.VerdictFindsItsReports | src/aidlc/orchestration/workflow.py:229-240 | the evaluation loop always finds a gate report and a review |
| WorkflowLog.InvocationsAreDistinct | src/aidlc/orchestration/workflow.py:179-324 | over the life of a run no stage, agent, repair and retry combination is invoked twice |
| WorkflowLog.MessageIdsAreNeverReused | src/aidlc/a2a/client.py:148-158 | two invocations of a run have different ids, and no continuation id is that of an invocation or of another continuation |
| InvocationIds.IdsAreInjective | src/aidlc/a2a/client.py:148-158 | an id determines run, stage, agent, repair and retry |
| InvocationIds.ContinuationIsNoInvocation | src/aidlc/a2a/client.py:271-274 | no continuation id is an invocation id, whatever the action id contains |
| InvocationIds.ContinuationsAreInjective | src/aidlc/a2a/client.py:271-274 | a continuation id determines the invocation and the action |
| Orchestrator.WorkflowOrchestrator.CreateRun | src/aidlc/orchestration/workflow.py:55-64 | a new run gets its first execution; other runs are untouched |
| Orchestrator.WorkflowOrchestrator.Retry | src/aidlc/orchestration/workflow.py:67-90 | a retry is the machine's retry step of that run, exactly when it is stopped, idle and readable |
| Orchestrator.WorkflowOrchestrator.Cancel | src/aidlc/orchestration/workflow.py:126-135 | a cancellation is the machine's cancel step of that run, exactly when an execution is unfinished and not yet canceled |
| Orchestrator.RunTable.RecoverInterrupted | src/aidlc/storage/database.py:194-203 | the newest unfinished runs are blocked, all others untouched |
| Orchestrator.RecoveryIsCompleteIff | src/aidlc/storage/database.py:194-203 | nothing is left unfinished exactly if no unfinished run lies beyond the limit |
| TokenBudget.ExecutionLedger.RecordExecution | src/aidlc/orchestration/workflow.py:732-818 | a record is a duplicate, within or over budget as its window says, and counts before it is judged |
| TokenBudget.EachExecutionCountsOnce | src/aidlc/orchestration/workflow.py:746-756 | no execution id is counted twice in any run |
| TokenBudget.WithinIff | src/aidlc/orchestration/workflow.py:786-818 | a new record passes exactly when its window total, including it, is within budget |
| TokenBudget.StaysExceededIff | src/aidlc/orchestration/workflow.py:786-818 | once a phase is over its budget every later new record of it is refused, whatever else is reported in its window, if and only if no report is negative |
| TokenBudget.LaterIsRefusedIff | src/aidlc/orchestration/workflow.py:799-818 | a later new record is refused exactly if the usage reported since then, its own included, keeps the excess |
| TokenBudget.RetryResetsEvaluationOnly | src/aidlc/orchestration/workflow.py:788-800 | a retry empties the window of evaluation and of no other phase |
| Leases.RecoveryNeverHitsALiveJob | src/aidlc/sandbox/runner.py:139-156 | in any interleaving, when a recovery's removal takes effect, however late, no executor holds the lease of the job that made the container |
| Leases.LiveContainersStay | src/aidlc/sandbox/runner.py:232-238 | while a job is live only its own executor takes its container away |
| Leases.DeadJobsStayDead | src/aidlc/sandbox/leases.py:28-43 | a job that lost its executor never has one again |
| JobLeases.Acquire | src/aidlc/sandbox/leases.py:28-38 | a lease is granted exactly for a valid name nobody holds; a refusal changes no lock |
| JobLeases.JobLease.Close | src/aidlc/sandbox/leases.py:40-43 | closing releases the lease's own lock, and closing again touches nobody else's |
| Recovery.Reconcile | src/aidlc/sandbox/runner.py:74-163 | the pass reports every id by its fate up to the first error, is unavailable without the Docker client, and fails on bad inventory, errors or unconfirmed removals |
| Recovery.EveryIdIsClassifiedOnce | src/aidlc/sandbox/runner.py:113-156 | in a pass that is not broken off every inventoried id is in exactly one class or confirmed gone |
| Recovery.RemovedIff | src/aidlc/sandbox/runner.py:126-156 | an id is reported removed exactly if it is the owner's job, its lease was acquired and its absence confirmed |
| Recovery.DoneIff | src/aidlc/sandbox/runner.py:85-163 | a pass is completed exactly if the client is there, the inventory is sound and no id failed or broke it |

## Left out

- PublicationSafety.FreshInEveryRun: assumes that no kill leaves a directory whose manifest is gone and whose content is not; without it the property is false, as TornDirectoryBreaksFreshness shows.
- PublicationSafety.QuietRowReadsBackIff: covers kills between the two halves; a kill inside the first half may or may not have removed files, so there only the direction of QuietIndexReadsBack holds.
- ArtifactStore.Store.Write: leaves out the released source directory and the project descriptor that the same call derives from the content.
- Delegation.ContinuationAcceptedIff: covers the history kept by the reservation; messages the protocol library appends itself while a task runs are not modelled.
- Recovery.Reconcile: takes the daemon's answers as inputs; the 30-second deadline around a pass, whose report is failed with empty lists, is not modelled.
- Client.Mapping.Invoke: discovery is a possible failure of any attempt; time limits end polling, and the cancellation sent after a failure is not modelled.
- WorkflowLifecycle.LifecycleIsSound: assumes that recovery after a restart reaches the run, as it does for the newest 10,000 runs; it treats two adjacent database writes of the hub without an await between them as one step, except where a stage is announced and prepared and where outputs are published.
- `created_at` is drawn before the lock is taken, so order in the publication proofs is the order of writes and insertions, and the hub's listing is in insertion order; the hub is one process that publishes without interleaving.
- The release's materialised source directory, Markdown files and `project.json`: derived from modelled content.
- The cache key and context hashes: a cache hit is a free choice among the agent's own listed outputs.
- JSON schema validation of contents: a content is seen through what each reader's schema accepts.
- Creation, inspection and start of sandbox containers (`DockerSandbox._execute`): policy checks of one call; only creation, clean-up and late effects matter for recovery.
- Remote reconciliation before a retry (`reconcile_run`) succeeds or fails freely in the workflow.
- Publishers outside the hub (command line evaluation, qualification reports) do not take part in the workflow and release properties; the publication properties allow any publisher.
- Model harness, prompts, tracing, authentication, tool servers, host preflight checks, image building, user interface, cost reporting: input and output plumbing without protocol state.
