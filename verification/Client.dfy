/** The hub's side of a delegation: bounded retries of one message, and a task identity that is written once. */
module Client {
  import opened Results
  import opened Tasks

  // ----- which errors are retried -----

  /** An error and the one it was raised from. */
  datatype Error = Http(status: int, cause: Option<Error>) | Transport(cause: Option<Error>) | Other(cause: Option<Error>)

  function Transient(e: Error): bool {
    match e
    case Http(status, _) => status >= 500 || status in {408, 429}
    case Transport(_) => true
    case Other(cause) => cause.Some? && Transient(cause.value)
  }

  function Chain(e: Error): seq<Error> {
    [e] + match e.cause case None => [] case Some(cause) => Chain(cause)
  }

  predicate Retriable(e: Error) {
    e.Transport? || (e.Http? && (e.status >= 500 || e.status in {408, 429}))
  }

  ghost predicate DecidedAt(chain: seq<Error>, i: int) {
    0 <= i < |chain| && Retriable(chain[i]) && forall j :: 0 <= j < i ==> chain[j].Other?
  }

  /** The outermost transport or status error in the chain of causes decides. */
  lemma {:induction false} TransientIff(e: Error)
    ensures Transient(e) <==> exists i :: DecidedAt(Chain(e), i)
  {
    if !e.Other? {
      assert Chain(e)[0] == e;
      forall i | 0 < i ensures !DecidedAt(Chain(e), i) {
        assert !Chain(e)[0].Other?;
      }
      assert Transient(e) <==> DecidedAt(Chain(e), 0);
    } else if e.cause.Some? {
      var rest := Chain(e.cause.value);
      TransientIff(e.cause.value);
      assert Chain(e)[1..] == rest;
      if Transient(e) {
        var i :| DecidedAt(rest, i);
        ShiftDecision(e, i);
      } else {
        assert Chain(e)[0] == e && !Retriable(e);
        forall i | 0 < i ensures !DecidedAt(Chain(e), i) {
          ShiftDecision(e, i - 1);
        }
      }
    }
  }

  lemma ShiftDecision(e: Error, i: int)
    requires e.Other? && e.cause.Some? && 0 <= i
    ensures DecidedAt(Chain(e), i + 1) <==> DecidedAt(Chain(e.cause.value), i)
  {
    var rest := Chain(e.cause.value);
    assert Chain(e) == [e] + rest;
    assert forall j :: 0 <= j < |rest| ==> rest[j] == Chain(e)[j + 1];
    assert forall j :: 0 < j < |Chain(e)| ==> Chain(e)[j] == rest[j - 1];
    if DecidedAt(Chain(e), i + 1) {
      forall j | 0 <= j < i ensures rest[j].Other? {
        assert Chain(e)[j + 1].Other?;
      }
    }
  }

  // ----- one delegation -----

  /** What a stream delivers; a missing task id is the empty string. */
  datatype Event =
    | Update(taskId: Option<Name>, contextId: Name, state: TaskState)
    | Piece(piece: Name, within: Name)
    | Direct

  /** A poll of the task. `reply` is the stream that follows a human answer, if the human was asked and answered. */
  datatype Poll =
    | Seen(taskId: Option<Name>, contextId: Name, state: TaskState, reply: Option<seq<Event>>)
    | Broken(error: Error)

  /** How the network answers one attempt: discovery, the stream up to an error, then polls until time runs out. */
  datatype Attempt = Attempt(discovery: Option<Error>, stream: seq<Event>, broken: Option<Error>, polls: seq<Poll>)

  datatype ClientError = Raised(error: Error) | TimedOut

  const MISMATCH := Other(None)

  /** History of a delegation: the first message sent, a continuation sent, a task identity adopted. */
  datatype Act = Sent | Continued | Adopted(taskId: Name)

  ghost predicate WriteOnce(trace: seq<Act>) {
    forall i, j :: 0 <= i < j < |trace| && trace[i].Adopted? ==>
      !trace[j].Sent? && (trace[j].Adopted? ==> trace[j] == trace[i])
  }

  function Sends(trace: seq<Act>): nat {
    if trace == [] then 0 else Sends(trace[..|trace| - 1]) + if trace[|trace| - 1].Sent? then 1 else 0
  }

  /** An identity is the only one adopted, and known once something was continued. */
  ghost predicate Consistent(trace: seq<Act>, taskId: Option<Name>) {
    && (forall i :: 0 <= i < |trace| && trace[i].Adopted? ==> taskId == Some(trace[i].taskId))
    && (forall i :: 0 <= i < |trace| && trace[i].Continued? ==> taskId.Some?)
  }

  lemma SendsGrow(trace: seq<Act>, act: Act)
    ensures Sends(trace + [act]) == Sends(trace) + if act.Sent? then 1 else 0
  {
    assert (trace + [act])[..|trace|] == trace;
  }

  lemma ActKeepsTrace(trace: seq<Act>, before: Option<Name>, after: Option<Name>, act: Act)
    requires WriteOnce(trace) && Consistent(trace, before)
    requires act.Sent? ==> before.None? && after.None?
    requires act.Continued? ==> before.Some? && after == before
    requires act.Adopted? ==> after == Some(act.taskId) && before in {None, after}
    ensures WriteOnce(trace + [act]) && Consistent(trace + [act], after)
  {
  }

  class Mapping {
    const contextId: Name
    var taskId: Option<Name>
    var state: Option<TaskState>
    var attempts: nat
    ghost var trace: seq<Act>

    constructor (contextId: Name)
      ensures Valid() && this.contextId == contextId && taskId == None && attempts == 0 && trace == []
    {
      this.contextId, taskId, state, attempts, trace := contextId, None, None, 0, [];
    }

    /** The identity is what was adopted, once and for all; a message is sent only while it is unknown. */
    ghost predicate Valid()
      reads this
    {
      WriteOnce(trace) && Sends(trace) <= attempts && Consistent(trace, taskId)
    }

    method Adopt(taskId: Option<Name>, contextId: Name, state: TaskState) returns (ok: bool)
      requires Valid()
      modifies this`taskId, this`state, this`trace
      ensures Valid() && Sends(trace) == Sends(old(trace))
      ensures ok <==> taskId.Some? && contextId == this.contextId && old(this.taskId) in {None, taskId}
      ensures ok ==> this.taskId == taskId && this.state == Some(state)
      ensures !ok ==> this.taskId == old(this.taskId) && this.state == old(this.state) && trace == old(trace)
      ensures old(this.taskId).Some? ==> this.taskId == old(this.taskId)
    {
      if taskId.None? || contextId != this.contextId {
        return false;
      }
      if this.taskId.Some? && taskId != this.taskId {
        return false;
      }
      ActKeepsTrace(trace, this.taskId, taskId, Adopted(taskId.value));
      SendsGrow(trace, Adopted(taskId.value));
      this.taskId, this.state := taskId, Some(state);
      trace := trace + [Adopted(taskId.value)];
      return true;
    }

    method Read(stream: seq<Event>, pieces: bool) returns (error: Option<Error>)
      requires Valid()
      modifies this`taskId, this`state, this`trace
      ensures Valid() && Sends(trace) == Sends(old(trace))
      ensures old(taskId).Some? ==> taskId == old(taskId)
    {
      for i := 0 to |stream|
        invariant Valid() && Sends(trace) == Sends(old(trace))
        invariant old(taskId).Some? ==> taskId == old(taskId)
      {
        match stream[i] {
          case Update(id, context, s) =>
            var ok := Adopt(id, context, s);
            if !ok {
              return Some(MISMATCH);
            }
          case Piece(id, context) =>
            if pieces && (Some(id) != taskId || context != contextId) {
              return Some(MISMATCH);
            }
          case Direct =>
            if pieces {
              return Some(MISMATCH);
            }
        }
      }
      return None;
    }

    ghost method Note(act: Act)
      requires Valid() && ((act.Sent? && taskId.None? && Sends(trace) < attempts) || (act.Continued? && taskId.Some?))
      modifies this`trace
      ensures Valid() && Sends(trace) == Sends(old(trace)) + if act.Sent? then 1 else 0
    {
      ActKeepsTrace(trace, taskId, taskId, act);
      SendsGrow(trace, act);
      trace := trace + [act];
    }

    /** Polls until the task ends; human input continues the same task. */
    method PollTask(polls: seq<Poll>) returns (r: Result<TaskState, ClientError>)
      requires Valid() && taskId.Some?
      modifies this`taskId, this`state, this`trace
      ensures Valid() && Sends(trace) == Sends(old(trace)) && taskId == old(taskId)
      ensures r.Success? ==> r.value in {Completed, Failed, Canceled, Rejected, AuthRequired} && state == Some(r.value)
    {
      for i := 0 to |polls|
        invariant Valid() && Sends(trace) == Sends(old(trace)) && taskId == old(taskId)
      {
        match polls[i] {
          case Broken(error) => return Failure(Raised(error));
          case Seen(id, context, s, reply) =>
            var ok := Adopt(id, context, s);
            if !ok {
              return Failure(Raised(MISMATCH));
            }
            if s == InputRequired {
              if reply.None? {
                return Failure(Raised(Other(None)));
              }
              Note(Continued);
              var error := Read(reply.value, false);
              if error.Some? {
                return Failure(Raised(error.value));
              }
            } else if s !in {Submitted, Working} {
              return Success(s);
            }
        }
      }
      return Failure(TimedOut);
    }

    method Try(network: Attempt) returns (r: Result<TaskState, ClientError>)
      requires Valid() && Sends(trace) < attempts
      modifies this`taskId, this`state, this`trace
      ensures Valid() && Sends(trace) <= Sends(old(trace)) + if old(taskId).None? then 1 else 0
      ensures old(taskId).Some? ==> taskId == old(taskId)
      ensures r.Success? ==> taskId.Some? && state == Some(r.value)
      ensures r.Success? ==> r.value in {Completed, Failed, Canceled, Rejected, AuthRequired}
    {
      if network.discovery.Some? {
        return Failure(Raised(network.discovery.value));
      }
      if taskId.None? {
        Note(Sent);
        var error := Read(network.stream, true);
        if error.Some? {
          return Failure(Raised(error.value));
        }
        if network.broken.Some? {
          return Failure(Raised(network.broken.value));
        }
      }
      if taskId.None? {
        return Failure(Raised(MISMATCH));
      }
      r := PollTask(network.polls);
    }

    /**
      At most one send per attempt and one attempt more than the allowed retries; a task identity, once known,
      is never replaced, and the first message is never sent again.
     */
    method Invoke(retries: nat, network: seq<Attempt>) returns (r: Result<TaskState, ClientError>)
      requires Valid() && attempts == 0 && trace == [] && |network| == retries + 1
      modifies this
      ensures Valid() && WriteOnce(trace)
      ensures 1 <= attempts <= retries + 1 && Sends(trace) <= attempts
      ensures r.Success? ==> taskId.Some? && state == Some(r.value) && r.value == Completed
      ensures r.Failure? && r.error.Raised? && Transient(r.error.error) ==> attempts == retries + 1
    {
      var attempt := 0;
      while true
        invariant attempt <= retries && attempts == attempt
        invariant Valid() && Sends(trace) <= attempt
        decreases retries - attempt
      {
        attempts := attempt + 1;
        var outcome := Try(network[attempt]);
        if outcome.Success? {
          if outcome.value == Completed {
            return outcome;
          }
          return Failure(Raised(Other(None)));
        }
        if outcome.error.TimedOut? || !Transient(outcome.error.error) || attempt >= retries {
          return outcome;
        }
        attempt := attempt + 1;
      }
    }
  }
}
