/** What the server's transaction keeps over every sequence of messages, well
    formed or not, and what the target holds afterwards: one plain fold over the
    accepted log, with no inbox, no stage, no phase and no pages. */
module TargetRun {
  import opened Event
  import opened Staging
  import opened Target

  // ---------------------------------------------------------------- invariant

  ghost predicate InboxOk(db: Database) {
    && (forall k | k in db.inbox ::
          && k.generation == db.generation && 1 <= k.seqNo <= db.received && k.ordinal == 0
          && db.inbox[k].seqNo == k.seqNo && db.inbox[k].transaction == db.openTransaction)
    && (db.inbox == map[] <==> db.openTransaction == "")
  }

  ghost predicate StageOk(db: Database) {
    && (forall k | k in db.snapshotRows :: k.generation == db.generation && k.seqNo <= db.received)
    && (!db.phase.Snapshot? ==> db.snapshotRows == map[] && db.scope == [])
  }

  ghost predicate HashesOk(db: Database) {
    forall k :: k in db.hashes <==> k.generation == db.generation && 1 <= k.seqNo <= db.received && k.ordinal == 0
  }

  ghost predicate SchemaStageOk(cfg: Config, db: Database) {
    forall k | k in db.schemaStage ::
      k.generation == db.generation && k.table in cfg.tables && db.schemaStage[k].table == k.table
        && db.schemaStage[k].columns != []
  }

  ghost predicate CountersOk(db: Database) {
    && db.applied <= db.received
    && (db.received == 0 <==> db.phase.Unset?)
    && (db.pendingSchema != "" ==> db.phase.Stream? && db.openTransaction == "")
  }

  /** The store invariant. */
  ghost predicate Inv(cfg: Config, db: Database) {
    CountersOk(db) && InboxOk(db) && StageOk(db) && HashesOk(db) && SchemaStageOk(cfg, db)
  }

  /** A database just after migration. */
  predicate Fresh(db: Database) {
    && db.generation == "" && db.received == 0 && db.applied == 0 && db.phase == Unset
    && db.openTransaction == "" && db.schemaVersion == "" && db.pendingSchema == "" && !db.repairAuthorized
    && db.inbox == map[] && db.snapshotRows == map[] && db.scope == [] && db.hashes == map[] && db.schemaStage == map[]
  }

  lemma FreshInv(cfg: Config, db: Database)
    requires Fresh(db)
    ensures Inv(cfg, db)
  {
  }

  lemma RestartInv(cfg: Config, db: Database, m: Message)
    ensures Inv(cfg, Restart(db, m))
  {
  }

  lemma {:induction false} StageRowsKeys(staged: map<Key, Row>, generation: string, seqNo: nat, rows: seq<Row>)
    ensures forall k :: k in StageRows(staged, generation, seqNo, rows) <==>
                        k in staged || (k.generation == generation && k.seqNo == seqNo && k.ordinal < |rows|)
    decreases |rows|
  {
    if rows != [] {
      StageRowsKeys(staged, generation, seqNo, rows[..|rows| - 1]);
    }
  }

  /** The gates keep at most one transaction open and no transaction across a schema refresh. */
  lemma Gates(db: Database, m: Message)
    requires VersionGate(db, m).Success? && TransactionGate(db, m).Success?
    ensures var pending, open := VersionGate(db, m).value, TransactionGate(db, m).value;
            && (OpensBatch(m.kind) ==> open == m.transaction != "" && db.openTransaction in {"", m.transaction})
            && (ClosesBatch(m.kind) ==> open == m.transaction == db.openTransaction != "")
            && (!OpensBatch(m.kind) ==> open == db.openTransaction)
            && (m.kind.SchemaTable? ==> open == "")
            && (pending != "" ==> db.phase.Stream? && (m.kind.SchemaTable? || m.kind.SchemaEnd?))
            && (m.kind.SchemaEnd? ==> pending == db.pendingSchema == m.schemaVersion != "")
  {
  }

  lemma AcceptFields(cfg: Config, db: Database, m: Message)
    requires Accept(cfg, db, m).Success?
    ensures VersionGate(db, m).Success? && TransactionGate(db, m).Success? && PhaseAllows(cfg, db.phase, m)
    ensures var next := Accept(cfg, db, m).value;
            && next.generation == db.generation && next.received == m.seqNo && next.phase == NextPhase(db.phase, m.kind)
            && next.openTransaction == (if ClosesBatch(m.kind) then "" else TransactionGate(db, m).value)
            && next.inbox == NextInbox(db.inbox, m) && next.snapshotRows == NextStage(db.snapshotRows, m)
            && next.scope == NextScope(db.scope, m) && next.schemaStage == NextSchemaStage(db, m)
            && next.columns == NextColumns(db, m)
            && next.schemaVersion == (if m.kind.SchemaEnd? then VersionGate(db, m).value else db.schemaVersion)
            && next.pendingSchema == (if m.kind.SchemaEnd? then "" else VersionGate(db, m).value)
  {
    hide VersionGate, TransactionGate, NextInbox, NextStage, NextSchemaStage, NextColumns, NextTables, NextFiles,
         SchemaAllows, PhaseAllows;
  }

  lemma AcceptCounters(cfg: Config, db: Database, m: Message)
    requires CountersOk(db) && m.seqNo == db.received + 1 && Accept(cfg, db, m).Success?
    ensures CountersOk(Accept(cfg, db, m).value)
  {
    Gates(db, m);
  }

  lemma AcceptInbox(cfg: Config, db: Database, m: Message)
    requires InboxOk(db) && m.generation == db.generation && m.seqNo == db.received + 1 && Accept(cfg, db, m).Success?
    ensures InboxOk(Accept(cfg, db, m).value)
  {
    hide Accept, VersionGate, TransactionGate;
    AcceptFields(cfg, db, m);
    Gates(db, m);
    if OpensBatch(m.kind) {
      assert Key(m.generation, m.seqNo, 0) in NextInbox(db.inbox, m);
    }
  }

  lemma AcceptStage(cfg: Config, db: Database, m: Message)
    requires StageOk(db) && m.generation == db.generation && m.seqNo == db.received + 1 && Accept(cfg, db, m).Success?
    ensures StageOk(Accept(cfg, db, m).value)
  {
    hide Accept, VersionGate, TransactionGate;
    AcceptFields(cfg, db, m);
    StageRowsKeys(db.snapshotRows, m.generation, m.seqNo, m.rows);
  }

  lemma AcceptSchemaStage(cfg: Config, db: Database, m: Message)
    requires SchemaStageOk(cfg, db) && m.generation == db.generation && Accept(cfg, db, m).Success?
    ensures SchemaStageOk(cfg, Accept(cfg, db, m).value)
  {
  }

  lemma AcceptHashes(cfg: Config, db: Database, m: Message)
    requires HashesOk(db) && m.generation == db.generation && m.seqNo == db.received + 1 && Accept(cfg, db, m).Success?
    ensures HashesOk(Accept(cfg, db, m).value)
  {
  }

  /** Accepting the next message of the current generation keeps the invariant. */
  lemma AcceptInv(cfg: Config, db: Database, m: Message)
    requires Inv(cfg, db) && m.generation == db.generation && m.seqNo == db.received + 1 && Accept(cfg, db, m).Success?
    ensures Inv(cfg, Accept(cfg, db, m).value)
  {
    AcceptCounters(cfg, db, m);
    AcceptInbox(cfg, db, m);
    AcceptStage(cfg, db, m);
    AcceptSchemaStage(cfg, db, m);
    AcceptHashes(cfg, db, m);
  }

  /** Every accepted message keeps the store invariant; a rejected one changes nothing at all. */
  lemma StoreInv(cfg: Config, db: Database, m: Message)
    requires Inv(cfg, db) && Store(cfg, db, m).Success?
    ensures Inv(cfg, Store(cfg, db, m).value)
  {
    var current := if m.generation != db.generation then Restart(db, m) else db;
    RestartInv(cfg, db, m);
    if m.seqNo == current.received + 1 {
      AcceptInv(cfg, current, m);
    }
  }

  /** A replayed sequence number changes nothing; with another payload hash it is rejected. */
  lemma ReplayIsHarmless(cfg: Config, db: Database, m: Message)
    requires Inv(cfg, db) && m.generation == db.generation && 1 <= m.seqNo <= db.received <= MaxBigint
    ensures Store(cfg, db, m) ==
            if db.hashes[Key(m.generation, m.seqNo, 0)] == cfg.payloadHash(m) then Success(db) else Failure(Refused)
  {
  }

  /** A message of another generation is accepted only as sequence 1, snapshot_begin; it empties everything
      staged and recorded and leaves the target tables and files alone. */
  lemma SwitchClears(cfg: Config, db: Database, m: Message)
    requires m.generation != db.generation && Store(cfg, db, m).Success?
    ensures m.seqNo == 1 && m.kind.SnapshotBegin?
    ensures var next := Store(cfg, db, m).value;
            && next.generation == m.generation && next.received == 1 && next.applied == 0 && next.phase.Snapshot?
            && next.inbox == map[] && next.snapshotRows == map[] && next.schemaStage == map[]
            && next.hashes.Keys == {Key(m.generation, 1, 0)}
            && next.tables == db.tables && next.files == db.files
  {
  }
}
