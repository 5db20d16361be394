/** Protocol tasks and messages as the fleet stores them. */
module Tasks {
  import opened Results

  /** Agents, owners and identifiers, interned: only equality of these strings matters here. */
  type Name = nat

  datatype TaskState =
    | Submitted | Working | InputRequired | AuthRequired | Completed | Failed | Canceled | Rejected

  datatype Note = NoNote | ProcessRestarted | Reported(text: nat)

  /** The digest over the serialized message is taken to be collision free, so a message is its own fingerprint. */
  datatype Message = Message(messageId: Name, taskId: Option<Name>, contextId: Option<Name>, payload: nat)

  /** `timestamp` is the position of the status time's text in string order. */
  datatype Task = Task(id: Name, contextId: Name, state: TaskState, history: seq<Message>, note: Note, timestamp: nat)

  /** Primary keys of both tables. */
  datatype Key = Key(agent: Name, owner: Name, id: Name)

  datatype Reservation = Reservation(fingerprint: Message, taskId: Name)

  datatype Tables = Tables(tasks: map<Key, Task>, messages: map<Key, Reservation>)
}
