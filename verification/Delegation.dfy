/**
  Idempotent delegation between the hub and the agent fleet: lost requests and replies, client retries,
  concurrent duplicates, human continuations, cancellation, deletion and restarts, in any order.
 */
module Delegation {
  import opened Results
  import opened Tasks
  import opened TaskStore

  /** A successful answer of the server to message `key`; the network may deliver it later or never. */
  datatype Reply = Reply(key: Key, taskId: Name, contextId: Name)

  /**
    `ready` holds reservations whose execution has not begun, `live` the running executions with the task they
    will save. `starts`, `entered` and `accepted` count handler starts per message, and pauses and accepted
    continuations per task. `known` is the task identity each client has learned.
   */
  datatype Fleet = Fleet(
    db: Tables, ready: set<Key>, live: map<Key, Task>, canceling: set<Key>, taskIds: set<Name>,
    starts: map<Key, nat>, entered: map<Key, nat>, accepted: map<Key, nat>, replies: seq<Reply>, known: map<Key, Name>)

  const EMPTY_FLEET := Fleet(Tables(map[], map[]), {}, map[], {}, {}, map[], map[], map[], [], map[])

  datatype Step =
    | Send(agent: Name, owner: Name, m: Message, freshTask: Name, freshContext: Name)
    | Start(key: Key)
    | Save(task: Key, state: TaskState, note: Note)
    | BeginCancel(task: Key)
    | EndCancel(task: Key)
    | Delete(task: Key)
    | Restart
    | Deliver(i: nat)

  predicate Interrupting(state: TaskState) {
    state !in {Submitted, Working}
  }

  predicate Terminal(state: TaskState) {
    state in {Completed, Canceled, Failed, Rejected}
  }

  function Count(counts: map<Key, nat>, k: Key): nat {
    if k in counts then counts[k] else 0
  }

  function Bump(counts: map<Key, nat>, k: Key): map<Key, nat> {
    counts[k := Count(counts, k) + 1]
  }

  function RecoveredAll(tasks: map<Key, Task>): map<Key, Task> {
    map k | k in tasks :: Interrupted(tasks[k])
  }

  ghost predicate Enabled(f: Fleet, step: Step) {
    match step
    case Send(_, _, m, freshTask, _) => freshTask !in f.taskIds
    case Start(k) => k in f.ready
    case Save(t, _, _) => t in f.live
    case BeginCancel(t) => t in f.db.tasks && !Terminal(f.db.tasks[t].state)
    case EndCancel(t) => t in f.canceling
    case Delete(_) => true
    case Restart => true
    case Deliver(i) => i < |f.replies|
  }

  function AfterSend(f: Fleet, agent: Name, owner: Name, m: Message, freshTask: Name, freshContext: Name): Fleet {
    var reply := ReserveReply(f.db, agent, owner, m, freshTask, freshContext);
    var k := MessageKey(agent, owner, m);
    if reply.Failure? then f
    else
      var t := reply.value.0;
      var g := f.(replies := f.replies + [Reply(k, t.id, t.contextId)]);
      if !reply.value.1 then g
      else
        g.(db := Reserved(f.db, agent, owner, m, freshTask, freshContext), ready := f.ready + {k},
           taskIds := f.taskIds + {freshTask},
           accepted := if m.taskId.Some? then Bump(f.accepted, TaskKey(k, t.id)) else f.accepted)
  }

  /** Execution begins on the task as stored; a task deleted in between is not started. */
  function AfterStart(f: Fleet, k: Key): Fleet {
    var g := f.(ready := f.ready - {k});
    if k !in f.db.messages || TaskKey(k, f.db.messages[k].taskId) !in f.db.tasks then g
    else
      var t := TaskKey(k, f.db.messages[k].taskId);
      g.(starts := Bump(f.starts, k), live := f.live[t := f.db.tasks[t]])
  }

  function AfterSave(f: Fleet, t: Key, state: TaskState, note: Note): Fleet
    requires t in f.live
  {
    var task := f.live[t].(state := state, note := note);
    f.(db := f.db.(tasks := f.db.tasks[t := task]),
       live := if Interrupting(state) then f.live - {t} else f.live[t := task],
       entered := if state == InputRequired then Bump(f.entered, t) else f.entered)
  }

  function AfterCancel(f: Fleet, t: Key): Fleet {
    var g := f.(canceling := f.canceling - {t}, live := f.live - {t});
    if t in f.db.tasks
    then g.(db := f.db.(tasks := f.db.tasks[t := f.db.tasks[t].(state := Canceled)]))
    else g
  }

  /** The client's check before it adopts a task identity. */
  predicate Acceptable(f: Fleet, r: Reply) {
    && (r.key in f.known ==> f.known[r.key] == r.taskId)
    && (r.key in f.db.messages ==> AsksFor(f.db.messages[r.key].fingerprint, r.contextId))
  }

  /** The context of a message's task is the one the message names, if it names one. */
  predicate AsksFor(m: Message, contextId: Name) {
    m.contextId.Some? ==> m.contextId.value == contextId
  }

  ghost function Apply(f: Fleet, step: Step): Fleet
    requires Enabled(f, step)
  {
    match step
    case Send(agent, owner, m, freshTask, freshContext) => AfterSend(f, agent, owner, m, freshTask, freshContext)
    case Start(k) => AfterStart(f, k)
    case Save(t, state, note) => AfterSave(f, t, state, note)
    case BeginCancel(t) => f.(canceling := f.canceling + {t})
    case EndCancel(t) => AfterCancel(f, t)
    case Delete(t) => f.(db := f.db.(tasks := f.db.tasks - {t}))
    case Restart =>
      f.(db := f.db.(tasks := RecoveredAll(f.db.tasks)), ready := {}, live := map[], canceling := {})
    case Deliver(i) =>
      var r := f.replies[i];
      if Acceptable(f, r) then f.(known := f.known[r.key := r.taskId]) else f
  }

  ghost predicate ValidRun(f: Fleet, steps: seq<Step>)
    decreases |steps|
  {
    steps == [] || (Enabled(f, steps[0]) && ValidRun(Apply(f, steps[0]), steps[1..]))
  }

  ghost function Final(f: Fleet, steps: seq<Step>): Fleet
    requires ValidRun(f, steps)
    decreases |steps|
  {
    if steps == [] then f else Final(Apply(f, steps[0]), steps[1..])
  }

  // ----- what every step keeps -----

  /** Tasks sit under their own id, and ids in use are never fresh again. */
  ghost predicate Identified(f: Fleet) {
    && (forall t :: t in f.db.tasks ==> f.db.tasks[t].id == t.id && t.id in f.taskIds)
    && (forall t :: t in f.live ==> f.live[t].id == t.id && t.id in f.taskIds)
    && (forall k :: k in f.db.messages ==>
          f.db.messages[k].taskId in f.taskIds && f.db.messages[k].fingerprint.messageId == k.id)
  }

  /** Every message keeps its context: its task, stored or running, has the context the message named. */
  ghost predicate Contextual(f: Fleet) {
    && (forall k :: k in f.db.messages ==> InContext(f, k))
    && (forall t :: t in f.db.tasks && t in f.live ==> f.db.tasks[t].contextId == f.live[t].contextId)
  }

  ghost predicate InContext(f: Fleet, k: Key)
    requires k in f.db.messages
  {
    var r := f.db.messages[k];
    var t := TaskKey(k, r.taskId);
    r.fingerprint.contextId.Some? ==>
      && (t in f.db.tasks ==> f.db.tasks[t].contextId == r.fingerprint.contextId.value)
      && (t in f.live ==> f.live[t].contextId == r.fingerprint.contextId.value)
  }

  /** A message starts at most once, and only out of its reservation. */
  ghost predicate StartedOnce(f: Fleet) {
    && (forall k :: k in f.ready ==> k in f.db.messages && Count(f.starts, k) == 0)
    && (forall k :: k in f.starts ==> k in f.db.messages)
    && (forall k :: Count(f.starts, k) <= 1)
  }

  /** Every reply names the reserved task, and clients know only what replies named. */
  ghost predicate Truthful(f: Fleet) {
    && (forall i :: 0 <= i < |f.replies| ==> Reserves(f.db, f.replies[i]))
    && (forall k :: k in f.known ==> k in f.db.messages && f.known[k] == f.db.messages[k].taskId)
  }

  ghost predicate Reserves(db: Tables, r: Reply) {
    && r.key in db.messages && db.messages[r.key].taskId == r.taskId
    && AsksFor(db.messages[r.key].fingerprint, r.contextId)
  }

  /** A paused task has one continuation to come; otherwise pauses and continuations balance. */
  ghost predicate Balanced(f: Fleet) {
    forall t: Key :: PauseBalance(f, t)
  }

  ghost predicate PauseBalance(f: Fleet, t: Key) {
    Count(f.accepted, t) + (if t in f.db.tasks && f.db.tasks[t].state == InputRequired then 1 else 0) <= Count(f.entered, t)
  }

  /** A task that looks busy has an execution, begun or about to begin. */
  ghost predicate Attended(f: Fleet) {
    forall t :: t in f.db.tasks && Busy(f.db.tasks[t]) ==> t in f.live || exists k :: Awaits(f, k, t)
  }

  ghost predicate Awaits(f: Fleet, k: Key, t: Key) {
    k in f.ready && k in f.db.messages && TaskKey(k, f.db.messages[k].taskId) == t
  }

  ghost predicate Inv(f: Fleet) {
    Identified(f) && Contextual(f) && StartedOnce(f) && Truthful(f) && Balanced(f) && Attended(f)
  }

  /** A new reservation: the task it starts or continues, under the message that asked for it. */
  ghost predicate Reserving(f: Fleet, g: Fleet, step: Step, t: Task)
    requires step.Send?
  {
    var k, m := MessageKey(step.agent, step.owner, step.m), step.m;
    var tk := TaskKey(k, t.id);
    && k !in f.db.messages && g.db == Tables(f.db.tasks[tk := t], f.db.messages[k := Reservation(m, t.id)])
    && g.ready == f.ready + {k} && g.taskIds == f.taskIds + {step.freshTask}
    && t.state == Submitted && (m.contextId.Some? ==> t.contextId == m.contextId.value)
    && (if m.taskId.Some?
        then tk in f.db.tasks && f.db.tasks[tk].state == InputRequired && SameTask(t, f.db.tasks[tk])
             && t.id == f.db.tasks[tk].id && g.accepted == Bump(f.accepted, tk)
        else t.id == step.freshTask && g.accepted == f.accepted)
  }

  ghost predicate Repeating(f: Fleet, g: Fleet) {
    g.db == f.db && g.ready == f.ready && g.taskIds == f.taskIds && g.accepted == f.accepted
  }

  predicate SameTask(a: Task, b: Task) {
    a.id == b.id && a.contextId == b.contextId
  }

  ghost predicate SendsOnly(f: Fleet, g: Fleet) {
    && g.live == f.live && g.canceling == f.canceling && g.starts == f.starts && g.entered == f.entered && g.known == f.known
    && f.replies <= g.replies && |g.replies| <= |f.replies| + 1
  }

  lemma SendIsQuiet(f: Fleet, step: Step)
    requires Enabled(f, step) && step.Send?
    ensures SendsOnly(f, Apply(f, step))
  {
  }

  /** A send reserves one execution or none, and answers at most itself. */
  lemma SendReserves(f: Fleet, step: Step) returns (t: Task)
    requires Identified(f) && Enabled(f, step) && step.Send?
    ensures Repeating(f, Apply(f, step)) || Reserving(f, Apply(f, step), step, t)
  {
    var reply := ReserveReply(f.db, step.agent, step.owner, step.m, step.freshTask, step.freshContext);
    t := if reply.Success? then reply.value.0 else Task(0, 0, Submitted, [], NoNote, 0);
  }

  /** The reply to a message names the task it reserves, in the context it asked for. */
  lemma ReplyReserves(f: Fleet, step: Step)
    requires Identified(f) && Contextual(f) && Enabled(f, step) && step.Send?
    requires |Apply(f, step).replies| > |f.replies|
    ensures Reserves(Apply(f, step).db, Apply(f, step).replies[|f.replies|])
  {
    var k := MessageKey(step.agent, step.owner, step.m);
    if k in f.db.messages {
      assert InContext(f, k);
    }
  }

  lemma ReservingIdentified(f: Fleet, g: Fleet, step: Step, t: Task)
    requires step.Send? && Identified(f) && step.freshTask !in f.taskIds && SendsOnly(f, g) && Reserving(f, g, step, t)
    ensures Identified(g)
  {
  }

  /** A fresh task has no earlier message, and an accepted continuation names the context of its task. */
  lemma ReservingContextual(f: Fleet, g: Fleet, step: Step, t: Task)
    requires step.Send? && Identified(f) && Contextual(f) && step.freshTask !in f.taskIds
    requires SendsOnly(f, g) && Reserving(f, g, step, t)
    ensures Contextual(g)
  {
    forall k | k in g.db.messages ensures InContext(g, k) {
      if k in f.db.messages {
        assert InContext(f, k);
      }
    }
  }

  lemma ReservingStartedOnce(f: Fleet, g: Fleet, step: Step, t: Task)
    requires step.Send? && StartedOnce(f) && SendsOnly(f, g) && Reserving(f, g, step, t)
    ensures StartedOnce(g)
  {
  }

  /** Accepting a continuation uses up the pause it answers. */
  lemma ReservingBalanced(f: Fleet, g: Fleet, step: Step, t: Task)
    requires step.Send? && Identified(f) && Balanced(f) && SendsOnly(f, g) && Reserving(f, g, step, t)
    ensures Balanced(g)
  {
    forall x ensures PauseBalance(g, x) {
      assert PauseBalance(f, x);
    }
  }

  lemma ReservingAttended(f: Fleet, g: Fleet, step: Step, t: Task)
    requires step.Send? && Attended(f) && SendsOnly(f, g) && Reserving(f, g, step, t)
    ensures Attended(g)
  {
    var k := MessageKey(step.agent, step.owner, step.m);
    forall x | x in g.db.tasks && Busy(g.db.tasks[x]) && x !in g.live ensures exists k' :: Awaits(g, k', x) {
      if x == TaskKey(k, t.id) {
        assert Awaits(g, k, x);
      } else {
        var k' :| Awaits(f, k', x);
        assert Awaits(g, k', x);
      }
    }
  }

  /** Reservations are never taken back. */
  lemma SendTruthful(f: Fleet, g: Fleet)
    requires Truthful(f) && SendsOnly(f, g)
    requires forall k :: k in f.db.messages ==> k in g.db.messages && g.db.messages[k] == f.db.messages[k]
    requires |g.replies| > |f.replies| ==> Reserves(g.db, g.replies[|f.replies|])
    ensures Truthful(g)
  {
    forall i | 0 <= i < |g.replies| ensures Reserves(g.db, g.replies[i]) {
      if i < |f.replies| {
        assert g.replies[i] == f.replies[i];
        assert Reserves(f.db, f.replies[i]);
      }
    }
  }

  lemma RepeatingKeeps(f: Fleet, g: Fleet)
    requires Identified(f) && Contextual(f) && StartedOnce(f) && Balanced(f) && Attended(f)
    requires SendsOnly(f, g) && Repeating(f, g)
    ensures Identified(g) && Contextual(g) && StartedOnce(g) && Balanced(g) && Attended(g)
  {
    forall k | k in g.db.messages ensures InContext(g, k) {
      assert InContext(f, k);
    }
    forall x ensures PauseBalance(g, x) {
      assert PauseBalance(f, x);
    }
    forall x | x in g.db.tasks && Busy(g.db.tasks[x]) && x !in g.live ensures exists k :: Awaits(g, k, x) {
      var k :| Awaits(f, k, x);
      assert Awaits(g, k, x);
    }
  }

  lemma SendPreserves(f: Fleet, step: Step)
    requires Inv(f) && Enabled(f, step) && step.Send?
    ensures Inv(Apply(f, step))
  {
    var g := Apply(f, step);
    var t := SendReserves(f, step);
    SendIsQuiet(f, step);
    if |g.replies| > |f.replies| {
      ReplyReserves(f, step);
    }
    SendTruthful(f, g);
    if Repeating(f, g) {
      RepeatingKeeps(f, g);
    } else {
      ReservingIdentified(f, g, step, t);
      ReservingContextual(f, g, step, t);
      ReservingStartedOnce(f, g, step, t);
      ReservingBalanced(f, g, step, t);
      ReservingAttended(f, g, step, t);
    }
  }

  /** No other step touches a reservation. */
  lemma OtherKeepsReservations(f: Fleet, step: Step)
    requires Enabled(f, step) && !step.Send?
    ensures Apply(f, step).db.messages == f.db.messages
  {
  }

  /** What other steps store is an earlier stored task in a new state, or a running one that is saved. */
  lemma OtherKeepsStored(f: Fleet, step: Step, t: Key)
    requires Enabled(f, step) && !step.Send? && t in Apply(f, step).db.tasks
    ensures if step.Save? && t == step.task then SameTask(Apply(f, step).db.tasks[t], f.live[t])
            else t in f.db.tasks && SameTask(Apply(f, step).db.tasks[t], f.db.tasks[t])
  {
    if step.Save? {
      SaveKeepsStored(f, step.task, step.state, step.note, t);
    }
  }

  lemma SaveKeepsStored(f: Fleet, saved: Key, state: TaskState, note: Note, t: Key)
    requires saved in f.live && t in AfterSave(f, saved, state, note).db.tasks
    ensures if t == saved then SameTask(AfterSave(f, saved, state, note).db.tasks[t], f.live[t])
            else t in f.db.tasks && AfterSave(f, saved, state, note).db.tasks[t] == f.db.tasks[t]
  {
  }

  /** What other steps run is an earlier running task in a new state, or a stored one that starts. */
  lemma OtherKeepsLive(f: Fleet, step: Step, t: Key)
    requires Enabled(f, step) && !step.Send? && t in Apply(f, step).live
    ensures || (t in f.live && SameTask(Apply(f, step).live[t], f.live[t]))
            || (step.Start? && t in f.db.tasks && Apply(f, step).live[t] == f.db.tasks[t])
  {
  }

  lemma OtherKeepsTask(f: Fleet, step: Step, t: Key)
    requires Enabled(f, step) && !step.Send?
    ensures t in Apply(f, step).db.tasks ==>
              || (t in f.db.tasks && SameTask(Apply(f, step).db.tasks[t], f.db.tasks[t]))
              || (step.Save? && t == step.task && SameTask(Apply(f, step).db.tasks[t], f.live[t]))
    ensures t in Apply(f, step).live ==>
              || (t in f.live && SameTask(Apply(f, step).live[t], f.live[t]))
              || (step.Start? && t in f.db.tasks && Apply(f, step).live[t] == f.db.tasks[t])
  {
    if t in Apply(f, step).db.tasks {
      OtherKeepsStored(f, step, t);
    }
    if t in Apply(f, step).live {
      OtherKeepsLive(f, step, t);
    }
  }

  lemma OtherIdentified(f: Fleet, step: Step)
    requires Identified(f) && Enabled(f, step) && !step.Send?
    ensures Identified(Apply(f, step))
  {
    OtherKeepsReservations(f, step);
    var g := Apply(f, step);
    assert g.taskIds == f.taskIds;
    forall t | t in g.db.tasks || t in g.live
      ensures (t in g.db.tasks ==> g.db.tasks[t].id == t.id && t.id in g.taskIds)
              && (t in g.live ==> g.live[t].id == t.id && t.id in g.taskIds)
    {
      OtherKeepsTask(f, step, t);
    }
  }

  lemma OtherContextual(f: Fleet, step: Step)
    requires Contextual(f) && Enabled(f, step) && !step.Send?
    ensures Contextual(Apply(f, step))
  {
    OtherKeepsReservations(f, step);
    var g := Apply(f, step);
    forall k | k in g.db.messages ensures InContext(g, k) {
      assert InContext(f, k);
      OtherKeepsTask(f, step, TaskKey(k, g.db.messages[k].taskId));
    }
    forall t | t in g.db.tasks && t in g.live ensures g.db.tasks[t].contextId == g.live[t].contextId {
      if t in f.live && t in f.db.tasks {
        assert f.db.tasks[t].contextId == f.live[t].contextId;
      }
      OtherKeepsTask(f, step, t);
    }
  }

  /** A client learns at most what one of them says. */
  lemma OtherReplies(f: Fleet, step: Step)
    requires Enabled(f, step) && !step.Send?
    ensures var g := Apply(f, step);
            g.known == f.known || (step.Deliver? && g.known == f.known[f.replies[step.i].key := f.replies[step.i].taskId])
  {
  }

  lemma OtherKeepsReplies(f: Fleet, step: Step)
    requires Enabled(f, step) && !step.Send?
    ensures Apply(f, step).replies == f.replies
  {
  }

  lemma OtherTruthful(f: Fleet, step: Step)
    requires Truthful(f) && Enabled(f, step) && !step.Send?
    ensures Truthful(Apply(f, step))
  {
    OtherKeepsReservations(f, step);
    OtherReplies(f, step);
    OtherKeepsReplies(f, step);
    TruthfulAfter(f, Apply(f, step), if step.Deliver? then step.i else 0);
  }

  lemma TruthfulAfter(f: Fleet, g: Fleet, i: nat)
    requires Truthful(f) && g.db.messages == f.db.messages && g.replies == f.replies
    requires g.known == f.known || (i < |f.replies| && g.known == f.known[f.replies[i].key := f.replies[i].taskId])
    ensures Truthful(g)
  {
    forall j | 0 <= j < |g.replies| ensures Reserves(g.db, g.replies[j]) {
      assert Reserves(f.db, f.replies[j]);
    }
  }

  lemma StartedOnceAfterStart(f: Fleet, k: Key)
    requires StartedOnce(f) && k in f.ready
    ensures StartedOnce(AfterStart(f, k))
  {
    assert Count(f.starts, k) == 0;
    forall x ensures Count(AfterStart(f, k).starts, x) <= 1 {
      assert Count(f.starts, x) <= 1;
    }
  }

  lemma OtherStarts(f: Fleet, step: Step)
    requires Enabled(f, step) && !step.Send? && !step.Start?
    ensures Apply(f, step).starts == f.starts && Apply(f, step).ready <= f.ready
  {
  }

  lemma OtherStartedOnce(f: Fleet, step: Step)
    requires StartedOnce(f) && Enabled(f, step) && !step.Send?
    ensures StartedOnce(Apply(f, step))
  {
    OtherKeepsReservations(f, step);
    if step.Start? {
      StartedOnceAfterStart(f, step.key);
    } else {
      OtherStarts(f, step);
      StartedOnceAfter(f, Apply(f, step));
    }
  }

  lemma StartedOnceAfter(f: Fleet, g: Fleet)
    requires StartedOnce(f) && g.starts == f.starts && g.ready <= f.ready && g.db.messages == f.db.messages
    ensures StartedOnce(g)
  {
  }

  /** Pauses are counted as they begin. */
  lemma OtherEnters(f: Fleet, step: Step, t: Key)
    requires Enabled(f, step) && !step.Send?
    ensures Count(Apply(f, step).entered, t) == Count(f.entered, t) + if Pauses(step, t) then 1 else 0
  {
  }

  lemma OtherBalanced(f: Fleet, step: Step)
    requires Balanced(f) && Enabled(f, step) && !step.Send?
    ensures Balanced(Apply(f, step))
  {
    var g := Apply(f, step);
    forall t ensures PauseBalance(g, t) {
      assert PauseBalance(f, t);
      OtherEnters(f, step, t);
      OtherAcceptsNothing(f, step);
      if !Pauses(step, t) {
        OtherUsesNoPause(f, step, t);
      }
    }
  }

  /** Still busy after the step, and not running: then it awaited its start before, and does so now. */
  lemma OtherAttended(f: Fleet, step: Step)
    requires Attended(f) && Enabled(f, step) && !step.Send?
    ensures Attended(Apply(f, step))
  {
    var g := Apply(f, step);
    forall t | t in g.db.tasks && Busy(g.db.tasks[t]) && t !in g.live ensures exists k :: Awaits(g, k, t) {
      BusyBefore(f, step, t);
      var k :| Awaits(f, k, t);
      StillAwaits(f, step, k, t);
    }
  }

  lemma BusyBeforeSave(f: Fleet, saved: Key, state: TaskState, note: Note, t: Key)
    requires saved in f.live && t in AfterSave(f, saved, state, note).db.tasks
    requires Busy(AfterSave(f, saved, state, note).db.tasks[t]) && t !in AfterSave(f, saved, state, note).live
    ensures t in f.db.tasks && Busy(f.db.tasks[t]) && t !in f.live
  {
  }

  lemma BusyBeforeCancel(f: Fleet, canceled: Key, t: Key)
    requires t in AfterCancel(f, canceled).db.tasks
    requires Busy(AfterCancel(f, canceled).db.tasks[t]) && t !in AfterCancel(f, canceled).live
    ensures t in f.db.tasks && Busy(f.db.tasks[t]) && t !in f.live
  {
  }

  lemma BusyBefore(f: Fleet, step: Step, t: Key)
    requires Enabled(f, step) && !step.Send? && t in Apply(f, step).db.tasks
    requires Busy(Apply(f, step).db.tasks[t]) && t !in Apply(f, step).live
    ensures t in f.db.tasks && Busy(f.db.tasks[t]) && t !in f.live && !step.Restart?
  {
    if step.Save? {
      BusyBeforeSave(f, step.task, step.state, step.note, t);
    } else if step.EndCancel? {
      BusyBeforeCancel(f, step.task, t);
    }
  }

  lemma AwaitsAfterStart(f: Fleet, started: Key, k: Key, t: Key)
    requires Awaits(f, k, t) && t in f.db.tasks && t !in AfterStart(f, started).live
    ensures Awaits(AfterStart(f, started), k, t)
  {
  }

  lemma StillAwaits(f: Fleet, step: Step, k: Key, t: Key)
    requires Enabled(f, step) && !step.Send? && !step.Restart? && Awaits(f, k, t)
    requires t in f.db.tasks && t !in Apply(f, step).live
    ensures Awaits(Apply(f, step), k, t)
  {
    OtherKeepsReservations(f, step);
    if step.Start? {
      AwaitsAfterStart(f, step.key, k, t);
    } else {
      OtherKeepsReady(f, step);
    }
  }

  lemma OtherKeepsReady(f: Fleet, step: Step)
    requires Enabled(f, step) && !step.Send? && !step.Restart? && !step.Start?
    ensures Apply(f, step).ready == f.ready
  {
  }

  lemma StepPreserves(f: Fleet, step: Step)
    requires Inv(f) && Enabled(f, step)
    ensures Inv(Apply(f, step))
  {
    if step.Send? {
      SendPreserves(f, step);
    } else {
      OtherIdentified(f, step);
      OtherContextual(f, step);
      OtherTruthful(f, step);
      OtherStartedOnce(f, step);
      OtherBalanced(f, step);
      OtherAttended(f, step);
    }
  }

  lemma {:induction false} RunPreserves(f: Fleet, steps: seq<Step>)
    requires Inv(f) && ValidRun(f, steps)
    ensures Inv(Final(f, steps))
    decreases |steps|
  {
    if steps != [] {
      StepPreserves(f, steps[0]);
      RunPreserves(Apply(f, steps[0]), steps[1..]);
    }
  }

  // ----- exactly once -----

  /** Under any schedule a message starts the handler at most once. */
  lemma HandlerStartsAtMostOnce(steps: seq<Step>, k: Key)
    requires ValidRun(EMPTY_FLEET, steps)
    ensures Count(Final(EMPTY_FLEET, steps).starts, k) <= 1
  {
    RunPreserves(EMPTY_FLEET, steps);
  }

  /** All successful replies to a message, first or duplicate, name one task, in the context it asked for. */
  lemma RepliesNameOneTask(steps: seq<Step>, i: nat, j: nat)
    requires ValidRun(EMPTY_FLEET, steps)
    requires i < |Final(EMPTY_FLEET, steps).replies| && j < |Final(EMPTY_FLEET, steps).replies|
    requires Final(EMPTY_FLEET, steps).replies[i].key == Final(EMPTY_FLEET, steps).replies[j].key
    ensures var f := Final(EMPTY_FLEET, steps);
            && f.replies[i].taskId == f.replies[j].taskId && f.replies[i].key in f.db.messages
            && AsksFor(f.db.messages[f.replies[i].key].fingerprint, f.replies[i].contextId)
            && AsksFor(f.db.messages[f.replies[i].key].fingerprint, f.replies[j].contextId)
  {
    RunPreserves(EMPTY_FLEET, steps);
    var f := Final(EMPTY_FLEET, steps);
    assert Reserves(f.db, f.replies[i]) && Reserves(f.db, f.replies[j]);
  }

  /**
    The client's identity check never fires: whatever reply arrives, and when, names the task it knows and the
    context it asked for.
   */
  lemma ClientNeverSeesAnotherTask(steps: seq<Step>, i: nat)
    requires ValidRun(EMPTY_FLEET, steps) && i < |Final(EMPTY_FLEET, steps).replies|
    ensures Acceptable(Final(EMPTY_FLEET, steps), Final(EMPTY_FLEET, steps).replies[i])
  {
    RunPreserves(EMPTY_FLEET, steps);
    var f := Final(EMPTY_FLEET, steps);
    assert Reserves(f.db, f.replies[i]);
  }

  /** Nor does it fire on a poll: the stored task a client knows keeps the context the client asked for. */
  lemma PollsPassTheCheck(steps: seq<Step>, k: Key)
    requires ValidRun(EMPTY_FLEET, steps) && k in Final(EMPTY_FLEET, steps).known
    requires TaskKey(k, Final(EMPTY_FLEET, steps).known[k]) in Final(EMPTY_FLEET, steps).db.tasks
    ensures var f := Final(EMPTY_FLEET, steps);
            var task := f.db.tasks[TaskKey(k, f.known[k])];
            Acceptable(f, Reply(k, task.id, task.contextId))
  {
    RunPreserves(EMPTY_FLEET, steps);
    assert InContext(Final(EMPTY_FLEET, steps), k);
  }

  /** A client's task identity is write-once, across retries, deletions and restarts. */
  lemma {:induction false} KnownTaskIsWriteOnce(f: Fleet, steps: seq<Step>, k: Key)
    requires Inv(f) && ValidRun(f, steps) && k in f.known
    ensures k in Final(f, steps).known && Final(f, steps).known[k] == f.known[k]
    decreases |steps|
  {
    if steps != [] {
      StepPreserves(f, steps[0]);
      StepKeepsKnown(f, steps[0], k);
      KnownTaskIsWriteOnce(Apply(f, steps[0]), steps[1..], k);
    }
  }

  lemma StepKeepsKnown(f: Fleet, step: Step, k: Key)
    requires Enabled(f, step) && k in f.known
    ensures k in Apply(f, step).known && Apply(f, step).known[k] == f.known[k]
  {
  }

  // ----- continuations -----

  ghost predicate Paused(f: Fleet, t: Key) {
    t in f.db.tasks && f.db.tasks[t].state == InputRequired
  }

  predicate Pauses(step: Step, t: Key) {
    step.Save? && step.task == t && step.state == InputRequired
  }

  ghost predicate NoNewPause(steps: seq<Step>, t: Key) {
    forall i :: 0 <= i < |steps| ==> !Pauses(steps[i], t)
  }

  /** A send accepts a continuation of a paused task, which ends the pause, or leaves the task's pause alone. */
  lemma SendUsesPause(f: Fleet, step: Step, t: Key)
    requires Identified(f) && Enabled(f, step) && step.Send?
    ensures var g := Apply(f, step);
            || (Paused(g, t) == Paused(f, t) && Count(g.accepted, t) == Count(f.accepted, t))
            || (Paused(f, t) && !Paused(g, t) && Count(g.accepted, t) == Count(f.accepted, t) + 1)
  {
    var task := SendReserves(f, step);
  }

  /** Any other step that does not pause the task accepts nothing, and pauses nothing. */
  lemma OtherUsesNoPause(f: Fleet, step: Step, t: Key)
    requires Enabled(f, step) && !step.Send? && !Pauses(step, t)
    ensures Apply(f, step).accepted == f.accepted && (Paused(Apply(f, step), t) ==> Paused(f, t))
  {
    OtherAcceptsNothing(f, step);
    if step.Save? {
      if Paused(AfterSave(f, step.task, step.state, step.note), t) {
        SaveKeepsPauses(f, step.task, step.state, step.note, t);
      }
    } else if Paused(Apply(f, step), t) {
      OtherPausesNothing(f, step, t);
    }
  }

  lemma OtherAcceptsNothing(f: Fleet, step: Step)
    requires Enabled(f, step) && !step.Send?
    ensures Apply(f, step).accepted == f.accepted
  {
  }

  lemma SaveKeepsPauses(f: Fleet, saved: Key, state: TaskState, note: Note, t: Key)
    requires saved in f.live && !(saved == t && state == InputRequired) && Paused(AfterSave(f, saved, state, note), t)
    ensures Paused(f, t)
  {
  }

  lemma OtherPausesNothing(f: Fleet, step: Step, t: Key)
    requires Enabled(f, step) && !step.Send? && !step.Save? && Paused(Apply(f, step), t)
    ensures Paused(f, t)
  {
  }

  /**
    One resume per pause: from any reachable state until the task next enters the pause, at most one continuation
    of it is accepted, and none if it is not paused at the beginning.
   */
  lemma {:induction false} OneResumePerPause(f: Fleet, steps: seq<Step>, t: Key)
    requires Inv(f) && ValidRun(f, steps) && NoNewPause(steps, t)
    ensures Count(f.accepted, t) <= Count(Final(f, steps).accepted, t)
    ensures Count(Final(f, steps).accepted, t) <= Count(f.accepted, t) + if Paused(f, t) then 1 else 0
    decreases |steps|
  {
    if steps != [] {
      assert !Pauses(steps[0], t);
      StepPreserves(f, steps[0]);
      if steps[0].Send? {
        SendUsesPause(f, steps[0], t);
      } else {
        OtherUsesNoPause(f, steps[0], t);
      }
      assert NoNewPause(steps[1..], t);
      OneResumePerPause(Apply(f, steps[0]), steps[1..], t);
    }
  }

  /** Over a whole run continuations never outnumber pauses, and are one fewer while the task is paused. */
  lemma ResumesBalancePauses(steps: seq<Step>, t: Key)
    requires ValidRun(EMPTY_FLEET, steps)
    ensures var f := Final(EMPTY_FLEET, steps);
            && Count(f.accepted, t) <= Count(f.entered, t)
            && (Paused(f, t) ==> Count(f.accepted, t) < Count(f.entered, t))
  {
    RunPreserves(EMPTY_FLEET, steps);
    assert PauseBalance(Final(EMPTY_FLEET, steps), t);
  }

  /**
    A new continuation is accepted exactly when its task waits for input in its context; then the history
    grows by exactly this message and no other task changes. Otherwise nothing changes at all.
   */
  lemma ContinuationAcceptedIff(f: Fleet, step: Step)
    requires Inv(f) && Enabled(f, step) && step.Send? && step.m.taskId.Some?
    requires MessageKey(step.agent, step.owner, step.m) !in f.db.messages
    ensures var t := Key(step.agent, step.owner, step.m.taskId.value);
            var g := Apply(f, step);
            if t in f.db.tasks && f.db.tasks[t].state == InputRequired && step.m.contextId == Some(f.db.tasks[t].contextId)
            then && t in g.db.tasks && g.db.tasks[t].history == f.db.tasks[t].history + [step.m]
                 && g.db.tasks[t].state == Submitted && g.db.tasks - {t} == f.db.tasks - {t}
                 && MessageKey(step.agent, step.owner, step.m) in g.ready
            else g == f
  {
  }

  /** After one continuation is accepted, a racing one is refused without effect. */
  lemma RacingContinuationRefused(f: Fleet, first: Step, second: Step)
    requires Inv(f) && Enabled(f, first) && first.Send? && first.m.taskId.Some? && Apply(f, first).db != f.db
    requires Enabled(Apply(f, first), second) && second.Send? && second.m.taskId == first.m.taskId
    requires second.agent == first.agent && second.owner == first.owner
    requires MessageKey(second.agent, second.owner, second.m) !in Apply(f, first).db.messages
    ensures Apply(Apply(f, first), second) == Apply(f, first)
    ensures ReserveReply(Apply(f, first).db, second.agent, second.owner, second.m, second.freshTask, second.freshContext)
              in {Failure(NotWaiting), Failure(ContextMismatch)}
  {
  }

  // ----- restart -----

  /** After a restart no task is submitted or working, nothing runs, and nothing was started. */
  lemma RestartLeavesNothingBusy(f: Fleet, t: Key)
    requires Inv(f)
    ensures var g := Apply(f, Restart);
            && (t in g.db.tasks ==> !Busy(g.db.tasks[t]))
            && (t in g.db.tasks <==> t in f.db.tasks)
            && (t in f.db.tasks && !Busy(f.db.tasks[t]) ==> g.db.tasks[t] == f.db.tasks[t])
            && g.live == map[] && g.starts == f.starts && g.db.messages == f.db.messages
  {
  }

  /** In every run a task that shows as submitted or working has an execution, running or reserved. */
  lemma BusyTasksAreAttended(steps: seq<Step>, t: Key)
    requires ValidRun(EMPTY_FLEET, steps)
    requires t in Final(EMPTY_FLEET, steps).db.tasks && Busy(Final(EMPTY_FLEET, steps).db.tasks[t])
    ensures t in Final(EMPTY_FLEET, steps).live || exists k :: Awaits(Final(EMPTY_FLEET, steps), k, t)
  {
    RunPreserves(EMPTY_FLEET, steps);
  }

  /** A message reserved before a restart is never started after it, however often it is sent again. */
  lemma {:induction false} NoSilentRerun(f: Fleet, steps: seq<Step>, k: Key)
    requires Inv(f) && ValidRun(f, steps) && k in f.db.messages && k !in f.ready
    ensures Count(Final(f, steps).starts, k) == Count(f.starts, k)
    decreases |steps|
  {
    if steps != [] {
      StepPreserves(f, steps[0]);
      NotReadyAgain(f, steps[0], k);
      NoSilentRerun(Apply(f, steps[0]), steps[1..], k);
    }
  }

  lemma NotReadyAgain(f: Fleet, step: Step, k: Key)
    requires Enabled(f, step) && k in f.db.messages && k !in f.ready
    ensures k in Apply(f, step).db.messages && k !in Apply(f, step).ready
    ensures Count(Apply(f, step).starts, k) == Count(f.starts, k)
  {
    if step.Send? {
      NotReadyAfterSend(f, step, k);
    } else {
      OtherKeepsReservations(f, step);
    }
  }

  lemma NotReadyAfterSend(f: Fleet, step: Step, k: Key)
    requires Enabled(f, step) && step.Send? && k in f.db.messages && k !in f.ready
    ensures k in Apply(f, step).db.messages && k !in Apply(f, step).ready
    ensures Count(Apply(f, step).starts, k) == Count(f.starts, k)
  {
  }

  /** Opening the store of every agent in turn recovers the whole fleet. */
  lemma {:induction false} EveryStoreRecovers(tasks: map<Key, Task>, agents: seq<Name>)
    ensures OpenStores(tasks, agents).Keys == tasks.Keys
    ensures forall t :: t in tasks ==>
              OpenStores(tasks, agents)[t] == if t.agent in agents then Interrupted(tasks[t]) else tasks[t]
    ensures (forall t :: t in tasks ==> t.agent in agents) ==> OpenStores(tasks, agents) == RecoveredAll(tasks)
  {
    if agents != [] {
      EveryStoreRecovers(Recovered(tasks, agents[0]), agents[1..]);
    }
  }

  function OpenStores(tasks: map<Key, Task>, agents: seq<Name>): map<Key, Task> {
    if agents == [] then tasks else OpenStores(Recovered(tasks, agents[0]), agents[1..])
  }
}
