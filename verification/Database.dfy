/** The hub's tables: the artifact index and the human decisions. */
module Database {
  import opened Kinds
  import opened Results
  import opened Publication
  import opened HumanDecisions
  import ArtifactStore

  /** What remains of the index once the loop has looked at every row outside `todo`. */
  function Swept(rows: Rows, m: Meta, todo: set<Id>): Rows {
    map id | id in rows && (id in todo || !Hits(m, rows[id].meta)) :: rows[id]
  }

  class WorkflowDatabase {
    var rows: Rows
    var clock: nat
    var interactions: Interactions
    var statuses: map<RunId, RunStatus>

    constructor ()
      ensures rows == map[] && clock == 0 && interactions == map[] && statuses == map[]
    {
      rows, clock, interactions, statuses := map[], 0, map[], map[];
    }

    /** Replaces the slot and deletes everything downstream of it, then inserts the row. */
    method InsertArtifact(m: Meta)
      modifies this`rows, this`clock
      ensures rows == InsertRow(old(rows), m, old(clock)) && clock == old(clock) + 1
    {
      ghost var before := rows;
      var lineage := UpstreamParents(rows, m);
      if m.Snapshot() {
        InvalidatedIffUpstream(m.kind);
        var invalidated := InvalidatedKinds(m.kind);
        var todo := rows.Keys;
        assert rows == Swept(before, m, todo);
        while todo != {}
          invariant todo <= rows.Keys
          invariant rows == Swept(before, m, todo) && clock == old(clock)
          decreases |todo|
        {
          var id :| id in todo;
          todo := todo - {id};
          var previous := rows[id].meta;
          var sameSlot := previous.kind == m.kind && previous.producer == m.producer;
          if previous.run == m.run && (sameSlot || (previous.Snapshot() && previous.kind in invalidated)) {
            rows := rows - {id};
          }
        }
      }
      assert rows == Kept(before, m);
      rows := rows[m.id := Row(m, clock, lineage)];
      clock := clock + 1;
    }

    /** Indexes a publication unless it is a snapshot that no longer reads back. */
    method AddArtifact(store: ArtifactStore.Store, m: Meta) returns (r: Result<(), ReadError>)
      modifies this`rows, this`clock
      ensures r.Success? <==> Accepts(store.files, m)
      ensures r.Success? ==> rows == InsertRow(old(rows), m, old(clock)) && clock == old(clock) + 1
      ensures r.Failure? ==> rows == old(rows) && clock == old(clock)
    {
      if m.Snapshot() {
        var content := store.Read(m);
        if content.Failure? {
          return Failure(content.error);
        }
      }
      InsertArtifact(m);
      return Success(());
    }

    /** Opens a question; the surface id is a primary key. */
    method SaveInteraction(interaction: Interaction) returns (ok: bool)
      modifies this`interactions
      ensures ok == (interaction.surfaceId !in old(interactions))
      ensures interactions == if ok then old(interactions)[interaction.surfaceId := interaction] else old(interactions)
    {
      ok := interaction.surfaceId !in interactions;
      if ok {
        interactions := interactions[interaction.surfaceId := interaction];
      }
    }

    /**
      One transaction: checks the action against the open question, publishes the response file and commits
      the decision together with its artifact row. `diskOk` is false when the file cannot be written.
     */
    method AcceptAction(store: ArtifactStore.Store, run: RunId, action: Action, m: Meta, diskOk: bool)
      returns (r: Result<(Interaction, bool), ActionError>)
      requires IsResponse(m) && ArtifactStore.SafeProducer(m.producer)
      modifies this`rows, this`clock, this`interactions, store
      ensures r == Decide(old(Table()), run, action, diskOk)
      ensures Table() == AfterAction(old(Table()), run, action, m, diskOk)
      ensures store.files == if r.Success? && r.value.1 then WriteFiles(old(store.files), m) else old(store.files)
    {
      if action.surfaceId !in interactions || interactions[action.surfaceId].run != run {
        return Failure(UnknownSurface);
      }
      var interaction := interactions[action.surfaceId];
      if interaction.response.Some? {
        if interaction.response.value == action {
          return Success((interaction, false));
        }
        return Failure(AlreadyAnswered);
      }
      if run !in statuses || statuses[run] != InputRequired {
        return Failure(NotWaiting);
      }
      if action.version != interaction.version || action.digest != interaction.digest {
        return Failure(Stale);
      }
      if !Allowed(interaction.prompt, action.decision) || (action.decision == Submit && action.answer == "") {
        return Failure(InvalidDecision);
      }
      if !diskOk {
        return Failure(PublishFailed);
      }
      interaction := interaction.(response := Some(action));
      var _ := store.Write(m);
      InsertArtifact(m);
      interactions := interactions[action.surfaceId := interaction];
      return Success((interaction, true));
    }

    ghost function Table(): DecisionTable
      reads this
    {
      DecisionTable(interactions, rows, clock, statuses)
    }
  }
}
