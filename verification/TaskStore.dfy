/** Durable task storage and atomic message reservations of the agent fleet. */
module TaskStore {
  import opened Results
  import opened Tasks
  import opened TaskListing

  datatype ReserveError = MessageReused | TaskDeleted | UnknownTask | ContextMismatch | NotWaiting

  function MessageKey(agent: Name, owner: Name, m: Message): Key {
    Key(agent, owner, m.messageId)
  }

  function TaskKey(k: Key, taskId: Name): Key {
    Key(k.agent, k.owner, taskId)
  }

  /** The reply to a message, and whether it reserved an execution. */
  function ReserveReply(db: Tables, agent: Name, owner: Name, m: Message, freshTask: Name, freshContext: Name)
    : Result<(Task, bool), ReserveError>
  {
    var k := MessageKey(agent, owner, m);
    if k in db.messages then
      var r := db.messages[k];
      if r.fingerprint != m then Failure(MessageReused)
      else if TaskKey(k, r.taskId) !in db.tasks then Failure(TaskDeleted)
      else Success((db.tasks[TaskKey(k, r.taskId)], false))
    else if m.taskId.Some? then
      var t := TaskKey(k, m.taskId.value);
      if t !in db.tasks then Failure(UnknownTask)
      else if m.contextId != Some(db.tasks[t].contextId) then Failure(ContextMismatch)
      else if db.tasks[t].state != InputRequired then Failure(NotWaiting)
      else Success((db.tasks[t].(history := db.tasks[t].history + [m], state := Submitted), true))
    else
      var contextId := if m.contextId.Some? then m.contextId.value else freshContext;
      Success((Task(freshTask, contextId, Submitted, [m], NoNote, 0), true))
  }

  function Reserved(db: Tables, agent: Name, owner: Name, m: Message, freshTask: Name, freshContext: Name): Tables {
    var reply := ReserveReply(db, agent, owner, m, freshTask, freshContext);
    if reply.Success? && reply.value.1 then
      var k := MessageKey(agent, owner, m);
      var t := reply.value.0;
      Tables(db.tasks[TaskKey(k, t.id) := t], db.messages[k := Reservation(m, t.id)])
    else db
  }

  predicate Busy(t: Task) {
    t.state in {Submitted, Working}
  }

  function Interrupted(t: Task): Task {
    if Busy(t) then t.(state := Failed, note := ProcessRestarted) else t
  }

  /** What a restart makes of an agent's tasks. */
  function Recovered(tasks: map<Key, Task>, agent: Name): map<Key, Task> {
    map k | k in tasks :: if k.agent == agent then Interrupted(tasks[k]) else tasks[k]
  }

  class TaskDatabase {
    var tasks: map<Key, Task>
    var messages: map<Key, Reservation>

    constructor ()
      ensures tasks == map[] && messages == map[]
    {
      tasks, messages := map[], map[];
    }

    ghost function View(): Tables
      reads this
    {
      Tables(tasks, messages)
    }
  }

  class SQLiteTaskStore {
    const agent: Name
    const db: TaskDatabase

    /** Opening the store after a restart fails what was left running, without running it again. */
    constructor (db: TaskDatabase, agent: Name)
      modifies db
      ensures this.db == db && this.agent == agent
      ensures db.tasks == Recovered(old(db.tasks), agent) && db.messages == old(db.messages)
      ensures old(WellKeyed(db.tasks)) ==> WellKeyed(db.tasks)
    {
      this.db := db;
      this.agent := agent;
      new;
      var todo := set k | k in db.tasks && k.agent == agent;
      while todo != {}
        invariant todo <= db.tasks.Keys && db.messages == old(db.messages)
        invariant db.tasks.Keys == old(db.tasks).Keys
        invariant forall k :: k in todo ==> k.agent == agent && db.tasks[k] == old(db.tasks)[k]
        invariant forall k :: k in db.tasks && k !in todo ==>
                    db.tasks[k] == if k.agent == agent then Interrupted(old(db.tasks)[k]) else old(db.tasks)[k]
        decreases |todo|
      {
        var k :| k in todo;
        todo := todo - {k};
        var task := db.tasks[k];
        if task.state in {Submitted, Working} {
          db.tasks := db.tasks[k := task.(state := Failed, note := ProcessRestarted)];
        }
      }
    }

    /** One transaction: a known message yields its task again, a new one reserves exactly one execution. */
    method Reserve(owner: Name, m: Message, freshTask: Name, freshContext: Name)
      returns (reply: Result<(Task, bool), ReserveError>)
      modifies db
      ensures reply == ReserveReply(old(db.View()), agent, owner, m, freshTask, freshContext)
      ensures db.View() == Reserved(old(db.View()), agent, owner, m, freshTask, freshContext)
      ensures old(WellKeyed(db.tasks)) ==> WellKeyed(db.tasks)
    {
      var k := MessageKey(agent, owner, m);
      if k in db.messages {
        var row := db.messages[k];
        if row.fingerprint != m {
          return Failure(MessageReused);
        }
        if TaskKey(k, row.taskId) !in db.tasks {
          return Failure(TaskDeleted);
        }
        return Success((db.tasks[TaskKey(k, row.taskId)], false));
      }
      var task;
      if m.taskId.Some? {
        var t := TaskKey(k, m.taskId.value);
        if t !in db.tasks {
          return Failure(UnknownTask);
        }
        task := db.tasks[t];
        if m.contextId != Some(task.contextId) {
          return Failure(ContextMismatch);
        }
        if task.state != InputRequired {
          return Failure(NotWaiting);
        }
        task := task.(history := task.history + [m], state := Submitted);
      } else {
        task := Task(freshTask, if m.contextId.Some? then m.contextId.value else freshContext, Submitted, [m], NoNote, 0);
      }
      db.tasks := db.tasks[TaskKey(k, task.id) := task];
      db.messages := db.messages[k := Reservation(m, task.id)];
      return Success((task, true));
    }

    method Save(owner: Name, task: Task)
      modifies db
      ensures db.tasks == old(db.tasks)[Key(agent, owner, task.id) := task] && db.messages == old(db.messages)
      ensures old(WellKeyed(db.tasks)) ==> WellKeyed(db.tasks)
    {
      db.tasks := db.tasks[Key(agent, owner, task.id) := task];
    }

    method Delete(owner: Name, taskId: Name)
      modifies db
      ensures db.tasks == old(db.tasks) - {Key(agent, owner, taskId)} && db.messages == old(db.messages)
      ensures old(WellKeyed(db.tasks)) ==> WellKeyed(db.tasks)
    {
      db.tasks := db.tasks - {Key(agent, owner, taskId)};
    }

    /** The rows of one owner, in some order. */
    method Rows(owner: Name) returns (rows: seq<Task>)
      ensures Lists(rows, db.tasks, agent, owner)
    {
      var todo := set k | k in db.tasks && k.agent == agent && k.owner == owner;
      rows := [];
      ghost var keys: seq<Key> := [];
      while todo != {}
        invariant todo <= set k | k in db.tasks && k.agent == agent && k.owner == owner
        invariant |keys| == |rows|
        invariant forall i :: 0 <= i < |keys| ==> keys[i] in db.tasks && keys[i] !in todo && rows[i] == db.tasks[keys[i]]
        invariant forall i :: 0 <= i < |keys| ==> keys[i].agent == agent && keys[i].owner == owner
        invariant forall i, j :: 0 <= i < j < |keys| ==> keys[i] != keys[j]
        invariant forall k :: k in db.tasks && k.agent == agent && k.owner == owner ==> k in todo || k in keys
        decreases |todo|
      {
        var k :| k in todo;
        todo := todo - {k};
        rows := rows + [db.tasks[k]];
        keys := keys + [k];
      }
      assert Enumerates(keys, rows, db.tasks, agent, owner);
    }

    /** One page of the owner's matching tasks, newest first. */
    method List(owner: Name, filter: Filter, token: Option<Name>, pageSize: int) returns (r: Result<Page, ListError>)
      ensures Answers(db.tasks, agent, owner, filter, token, pageSize, r)
    {
      var rows := Rows(owner);
      var tasks := Matching(rows, filter);
      r := CutPage(Sort(tasks), token, pageSize);
    }
  }

  method Matching(rows: seq<Task>, filter: Filter) returns (tasks: seq<Task>)
    ensures tasks == Filtered(rows, filter)
  {
    tasks := [];
    for i := 0 to |rows|
      invariant tasks == Filtered(rows[..i], filter)
    {
      assert rows[..i + 1][..i] == rows[..i];
      if Passes(rows[i], filter) {
        tasks := tasks + [rows[i]];
      }
    }
    assert rows[..|rows|] == rows;
  }

  method CutPage(tasks: seq<Task>, token: Option<Name>, pageSize: int) returns (r: Result<Page, ListError>)
    ensures r == PageOf(tasks, token, pageSize)
  {
    var rest := tasks;
    if token.Some? {
      var index := 0;
      while index < |tasks| && tasks[index].id != token.value
        invariant index <= |tasks| && forall j :: 0 <= j < index ==> tasks[j].id != token.value
      {
        index := index + 1;
      }
      if index == |tasks| {
        return Failure(InvalidToken);
      }
      rest := tasks[index..];
    }
    var size := if pageSize == 0 then DEFAULT_PAGE_SIZE else pageSize;
    if size < 0 && |rest| < -size {
      return Failure(OutOfRange);
    }
    var cut := if size < 0 then |rest| + size else if size < |rest| then size else |rest|;
    r := Success(Page(rest[..cut], |tasks|, if cut < |rest| then Some(rest[cut].id) else None));
  }
}
