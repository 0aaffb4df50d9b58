/** The schema barrier and the server's admission checks, against the message streams collectors publish: one
    snapshot, then transactions, schema refreshes and files. */
module Barrier {
  import opened Event
  import opened Target
  import opened TargetRun
  import opened Collections
  import R = Replay

  // ---------------------------------------------------------------- the barrier

  function TablesStaged(db: Database, generation: string, version: string): set<TableRef> {
    set k | k in StagedFor(db, generation, version) :: k.table
  }

  function TableSet(tables: seq<TableRef>): set<TableRef> {
    set t | t in tables
  }

  lemma {:induction false} SeqSetBound(tables: seq<TableRef>)
    ensures |TableSet(tables)| <= |tables|
    ensures DistinctTables(tables) ==> |TableSet(tables)| == |tables|
    decreases |tables|
  {
    if tables != [] {
      var front, last := tables[..|tables| - 1], tables[|tables| - 1];
      SeqSetBound(front);
      assert TableSet(tables) == TableSet(front) + {last};
    }
  }

  lemma {:induction false} TablesCount(keys: set<SchemaKey>, generation: string, version: string)
    requires forall k | k in keys :: k.generation == generation && k.version == version
    ensures |set k | k in keys :: k.table| == |keys|
    decreases |keys|
  {
    if keys == {} {
      assert (set k | k in keys :: k.table) == {};
    } else {
      var x :| x in keys;
      TablesCount(keys - {x}, generation, version);
      var rest := set k | k in keys - {x} :: k.table;
      assert x.table !in rest;
      assert (set k | k in keys :: k.table) == rest + {x.table};
    }
  }

  /** A version is activated only when the staged set is exactly the configured tables: as many distinct
      configured tables as are configured leave none out. */
  lemma ActivationIsComplete(cfg: Config, db: Database, generation: string, version: string)
    requires SchemaStageOk(cfg, db) && Activatable(cfg, db, generation, version)
    ensures TablesStaged(db, generation, version) == TableSet(cfg.tables)
  {
    var keys := StagedFor(db, generation, version);
    TablesCount(keys, generation, version);
    SeqSetBound(cfg.tables);
    SubsetOfSize(TablesStaged(db, generation, version), TableSet(cfg.tables));
  }

  // ---------------------------------------------------------------- what a collector publishes

  /** Where a published stream stands. `staged` are the tables announced so far. */
  datatype Stream =
    | Fresh
    | InSnapshot(version: string, staged: set<TableRef>)
    | Idle(version: string)
    | InTransaction(version: string, transaction: string)
    | InFile(version: string, transaction: string)
    | InRefresh(version: string, next: string, staged: set<TableRef>)

  /** A schema message for a captured table that has not been announced yet. */
  predicate Announces(tables: set<TableRef>, m: Message, version: string, staged: set<TableRef>) {
    && m.kind.SchemaTable? && m.schemaVersion == version != "" && m.schema.Some?
    && m.schema.value.table in tables && m.schema.value.table !in staged && m.schema.value.columns != []
  }

  /** The end of a transaction of which no chunk was published. */
  predicate Lone(s: Stream, m: Message) {
    s.Idle? && m.kind.TransactionEnd?
  }

  function Speak(tables: set<TableRef>, s: Stream, m: Message): Option<Stream> {
    match s
    case Fresh =>
      if m.kind.SnapshotBegin? && DistinctTables(m.tables) && (forall t | t in m.tables :: t in tables) then
        Some(InSnapshot(m.schemaVersion, {}))
      else None
    case InSnapshot(v, staged) =>
      if Announces(tables, m, v, staged) then Some(InSnapshot(v, staged + {m.schema.value.table}))
      else if m.kind.SnapshotRows? && m.schemaVersion == v then Some(s)
      else if m.kind.SnapshotEnd? && m.schemaVersion == v && (v != "" ==> staged == tables) then Some(Idle(v))
      else None
    case Idle(v) =>
      if m.kind.TransactionRows? && m.schemaVersion == v && m.transaction != ""
        then Some(InTransaction(v, m.transaction))
      else if Lone(s, m) && m.schemaVersion == v && m.transaction != "" then Some(s)
      else if m.kind.FileBegin? && m.schemaVersion == v && m.transaction != "" then Some(InFile(v, m.transaction))
      else if m.kind.FileDelete? && m.schemaVersion == v then Some(s)
      else if m.schemaVersion != v && Announces(tables, m, m.schemaVersion, {}) then
        Some(InRefresh(v, m.schemaVersion, {m.schema.value.table}))
      else None
    case InTransaction(v, tx) =>
      if m.kind.TransactionRows? && m.schemaVersion == v && m.transaction == tx then Some(s)
      else if m.kind.TransactionEnd? && m.schemaVersion == v && m.transaction == tx then Some(Idle(v))
      else None
    case InFile(v, tx) =>
      if m.kind.FileChunk? && m.schemaVersion == v && m.transaction == tx then Some(s)
      else if m.kind.FileEnd? && m.schemaVersion == v && m.transaction == tx then Some(Idle(v))
      else None
    case InRefresh(v, next, staged) =>
      if Announces(tables, m, next, staged) then Some(InRefresh(v, next, staged + {m.schema.value.table}))
      else if m.kind.SchemaEnd? && m.schemaVersion == next && staged == tables then Some(Idle(next))
      else None
  }

  function SpeakAll(tables: set<TableRef>, s: Stream, log: seq<Message>): Option<Stream> {
    if log == [] then Some(s)
    else
      var before := SpeakAll(tables, s, log[..|log| - 1]);
      if before.None? then None else Speak(tables, before.value, log[|log| - 1])
  }

  predicate ClosesSchemas(kind: Kind) {
    kind.SnapshotEnd? || kind.SchemaEnd?
  }

  /** The schemas announced since the last snapshot or refresh was closed. */
  function Pending(log: seq<Message>): seq<TableSchema> {
    if log == [] || ClosesSchemas(log[|log| - 1].kind) then []
    else
      var front, m := log[..|log| - 1], log[|log| - 1];
      if m.kind.SchemaTable? && m.schema.Some? then Pending(front) + [m.schema.value] else Pending(front)
  }

  /** The schemas of the last snapshot or refresh that was closed. */
  function Current(log: seq<Message>): seq<TableSchema> {
    if log == [] then []
    else if ClosesSchemas(log[|log| - 1].kind) then Pending(log[..|log| - 1])
    else Current(log[..|log| - 1])
  }

  function StagedTables(s: Stream): set<TableRef> {
    if s.InSnapshot? || s.InRefresh? then s.staged else {}
  }

  // ---------------------------------------------------------------- the server follows it

  /** Distinct configured tables with proper names. */
  predicate ProperTables(tables: seq<TableRef>) {
    DistinctTables(tables) && forall t | t in tables :: t.schema != "" && t.name != ""
  }

  function KeysFor(tables: set<TableRef>, generation: string, version: string): set<SchemaKey> {
    set t | t in tables :: SchemaKey(generation, version, t)
  }

  ghost predicate Fitting(cfg: Config, columns: Columns, staged: map<SchemaKey, TableSchema>) {
    forall k | k in staged :: SchemaFits(cfg, columns, staged[k])
  }

  ghost predicate StagedIs(cfg: Config, db: Database, version: string, staged: set<TableRef>) {
    staged <= TableSet(cfg.tables) && db.schemaStage.Keys == KeysFor(staged, db.generation, version)
    && Fitting(cfg, db.columns, db.schemaStage)
  }

  /** The database agrees with the stream it has stored. */
  ghost predicate Follows(cfg: Config, db: Database, s: Stream) {
    match s
    case Fresh => false
    case InSnapshot(v, staged) =>
      && db.phase.Snapshot? && db.schemaVersion == v && db.pendingSchema == "" && db.openTransaction == ""
      && StagedIs(cfg, db, v, staged) && (v == "" ==> staged == {})
    case Idle(v) =>
      && db.phase.Stream? && db.schemaVersion == v && db.pendingSchema == "" && db.openTransaction == ""
      && db.schemaStage == map[]
    case InTransaction(v, tx) =>
      && db.phase.Stream? && db.schemaVersion == v && db.pendingSchema == "" && db.openTransaction == tx != ""
      && db.schemaStage == map[]
    case InFile(v, tx) =>
      && db.phase.Stream? && db.schemaVersion == v && db.pendingSchema == "" && db.openTransaction == tx != ""
      && db.schemaStage == map[]
    case InRefresh(v, next, staged) =>
      && db.phase.Stream? && db.schemaVersion == v && db.pendingSchema == next != "" && db.openTransaction == ""
      && StagedIs(cfg, db, next, staged)
  }

  /** The target can take the message's schema or file: every missing column may be added, files are stored and
      the file message is well formed. */
  predicate Takes(cfg: Config, columns: Columns, m: Message) {
    && (m.schema.Some? ==> SchemaFits(cfg, columns, m.schema.value))
    && (IsFile(m.kind) ==> ValidFileMessage(cfg, m))
  }

  lemma {:induction false} KeysCount(tables: set<TableRef>, generation: string, version: string)
    ensures |KeysFor(tables, generation, version)| == |tables|
    decreases |tables|
  {
    if tables != {} {
      var t :| t in tables;
      KeysCount(tables - {t}, generation, version);
      assert KeysFor(tables, generation, version)
             == KeysFor(tables - {t}, generation, version) + {SchemaKey(generation, version, t)};
    }
  }

  lemma AnnouncedStages(cfg: Config, db: Database, m: Message, version: string, staged: set<TableRef>)
    requires ProperTables(cfg.tables) && StagedIs(cfg, db, version, staged) && m.generation == db.generation
    requires Announces(TableSet(cfg.tables), m, version, staged) && Takes(cfg, db.columns, m)
    ensures StageableSchema(cfg, db, m)
    ensures var key := SchemaKey(m.generation, version, m.schema.value.table);
            StagedIs(cfg, db.(schemaStage := db.schemaStage[key := m.schema.value]), version,
                     staged + {m.schema.value.table})
  {
    hide SchemaFits;
    var table := m.schema.value.table;
    var key := SchemaKey(m.generation, version, table);
    assert key !in KeysFor(staged, db.generation, version);
    assert KeysFor(staged + {table}, db.generation, version) == KeysFor(staged, db.generation, version) + {key};
  }

  lemma CompleteActivates(cfg: Config, db: Database, version: string)
    requires ProperTables(cfg.tables) && StagedIs(cfg, db, version, TableSet(cfg.tables))
    ensures Activatable(cfg, db, db.generation, version)
    ensures db.schemaStage - StagedFor(db, db.generation, version) == map[]
  {
    KeysCount(TableSet(cfg.tables), db.generation, version);
    SeqSetBound(cfg.tables);
    var keys := StagedFor(db, db.generation, version);
    assert keys == db.schemaStage.Keys by {
      forall k | k in db.schemaStage ensures k in keys {
        assert k in KeysFor(TableSet(cfg.tables), db.generation, version);
      }
    }
  }

  /** The version and open-transaction checks pass. */
  lemma GatesPass(cfg: Config, db: Database, s: Stream, m: Message)
    requires Follows(cfg, db, s) && Speak(TableSet(cfg.tables), s, m).Some? && Takes(cfg, db.columns, m) && !Lone(s, m)
    ensures VersionGate(db, m) == Success(if (m.kind.SchemaTable? && db.phase.Stream?)
            || m.kind.SchemaEnd? then m.schemaVersion else "")
    ensures TransactionGate(db, m) == Success(if m.kind.TransactionRows?
            || m.kind.FileBegin? then m.transaction else db.openTransaction)
    ensures PhaseAllows(cfg, db.phase, m) && !m.kind.SnapshotBegin? && (IsFile(m.kind) ==> ValidFileMessage(cfg, m))
  {
    hide SchemaFits, TableSet, StagedIs;
  }

  lemma NothingStaged(cfg: Config, db: Database, version: string)
    ensures db.schemaStage == map[] <==> StagedIs(cfg, db, version, {})
  {
  }

  /** So does the schema barrier. */
  lemma BarrierPasses(cfg: Config, db: Database, s: Stream, m: Message)
    requires ProperTables(cfg.tables) && Follows(cfg, db, s) && Speak(TableSet(cfg.tables), s, m).Some?
    requires m.generation == db.generation && Takes(cfg, db.columns, m) && !Lone(s, m)
    ensures SchemaAllows(cfg, db, m)
  {
    hide SchemaFits, StagedIs, TableSet, ValidFileMessage, Activatable, StageableSchema;
    GatesPass(cfg, db, s, m);
    if m.kind.SchemaTable? {
      NothingStaged(cfg, db, m.schemaVersion);
      AnnouncedStages(cfg, db, m, m.schemaVersion, StagedTables(s));
    } else if Activates(m) {
      CompleteActivates(cfg, db, m.schemaVersion);
    }
  }

  /** The state that follows. */
  lemma NextFollows(cfg: Config, db: Database, s: Stream, m: Message)
    requires ProperTables(cfg.tables) && Follows(cfg, db, s) && Speak(TableSet(cfg.tables), s, m).Some?
    requires m.generation == db.generation && Takes(cfg, db.columns, m) && !Lone(s, m) && Accept(cfg, db, m).Success?
    ensures Follows(cfg, Accept(cfg, db, m).value, Speak(TableSet(cfg.tables), s, m).value)
  {
    if m.kind.SchemaTable? {
      AnnouncementFollows(cfg, db, s, m);
    } else if Activates(m) || m.kind.SnapshotEnd? {
      ActivationFollows(cfg, db, s, m);
    } else {
      hide Accept, VersionGate, TransactionGate, StagedIs, NextInbox, NextStage, NextScope, ValidFileMessage, TableSet,
           Takes;
      GatesPass(cfg, db, s, m);
      AcceptFields(cfg, db, m);
    }
  }

  lemma AnnouncementFollows(cfg: Config, db: Database, s: Stream, m: Message)
    requires ProperTables(cfg.tables) && Follows(cfg, db, s) && Speak(TableSet(cfg.tables), s, m).Some?
             && m.kind.SchemaTable?
    requires m.generation == db.generation && Takes(cfg, db.columns, m) && Accept(cfg, db, m).Success?
    ensures Follows(cfg, Accept(cfg, db, m).value, Speak(TableSet(cfg.tables), s, m).value)
  {
    hide Accept, VersionGate, TransactionGate, SchemaFits, Activatable, KeysFor, Fitting, NextInbox, NextStage,
         NextScope, ValidFileMessage, TableSet;
    GatesPass(cfg, db, s, m);
    AcceptFields(cfg, db, m);
    NothingStaged(cfg, db, m.schemaVersion);
    AnnouncedStages(cfg, db, m, m.schemaVersion, StagedTables(s));
    assert {} + {m.schema.value.table} == {m.schema.value.table};
  }

  lemma ActivationFollows(cfg: Config, db: Database, s: Stream, m: Message)
    requires ProperTables(cfg.tables) && Follows(cfg, db, s) && Speak(TableSet(cfg.tables), s, m).Some?
    requires Activates(m) || m.kind.SnapshotEnd?
    requires m.generation == db.generation && Takes(cfg, db.columns, m) && Accept(cfg, db, m).Success?
    ensures Follows(cfg, Accept(cfg, db, m).value, Speak(TableSet(cfg.tables), s, m).value)
  {
    hide Accept, VersionGate, TransactionGate, SchemaFits, Activatable, KeysFor, Fitting, NextInbox, NextStage,
         NextScope, ValidFileMessage, TableSet;
    GatesPass(cfg, db, s, m);
    AcceptFields(cfg, db, m);
    if Activates(m) {
      CompleteActivates(cfg, db, m.schemaVersion);
    } else {
      NothingStaged(cfg, db, "");
    }
  }

  // ---------------------------------------------------------------- admission of whole streams

  lemma {:induction false} RowsFailInapplicable(cfg: Config, columns: Columns, tables: Tables, rows: seq<Row>)
    ensures ApplyRows(cfg, columns, tables, rows).Failure? ==>
              ApplyRows(cfg, columns, tables, rows).error == Inapplicable
    decreases |rows|
  {
    if rows != [] {
      RowsFailInapplicable(cfg, columns, tables, rows[..|rows| - 1]);
    }
  }

  /** The messages whose effect depends on the data. */
  predicate Applies(kind: Kind) {
    kind.SnapshotEnd? || kind.TransactionEnd? || kind.FileEnd?
  }

  lemma DataFailsInapplicable(cfg: Config, db: Database, m: Message)
    ensures NextTables(cfg, db, m).Failure? ==> NextTables(cfg, db, m).error == Inapplicable && Applies(m.kind)
    ensures NextFiles(cfg, db, m).Failure? ==> NextFiles(cfg, db, m).error == Inapplicable && Applies(m.kind)
  {
    if m.kind.SnapshotEnd? {
      RowsFailInapplicable(cfg, db.columns, Cleared(db.tables, db.scope),
                           AsInserts(InOrder(db.snapshotRows, m.generation)));
    } else if m.kind.TransactionEnd? {
      RowsFailInapplicable(cfg, db.columns, db.tables, RowsOf(InOrder(db.inbox, m.generation), m.transaction));
    }
  }

  /** A message a collector would publish next is stored, unless it is a lone end, which is always refused, or the
      target data does not admit its rows or the file does not arrive whole. */
  lemma NextAdmitted(cfg: Config, db: Database, s: Stream, m: Message)
    requires ProperTables(cfg.tables) && Follows(cfg, db, s) && Speak(TableSet(cfg.tables), s, m).Some?
    requires m.generation == db.generation && m.seqNo == db.received + 1 <= MaxBigint && Takes(cfg, db.columns, m)
    ensures match Store(cfg, db, m)
            case Success(next) =>
              !Lone(s, m) && next == Accept(cfg, db, m).value
                && Follows(cfg, next, Speak(TableSet(cfg.tables), s, m).value)
            case Failure(e) => if Lone(s, m) then e == Refused else e == Inapplicable && Applies(m.kind)
  {
    if Lone(s, m) {
      LoneEndRefused(cfg, db, s.version, m);
    } else {
      NextPasses(cfg, db, s, m);
    }
  }

  lemma NextPasses(cfg: Config, db: Database, s: Stream, m: Message)
    requires ProperTables(cfg.tables) && Follows(cfg, db, s) && Speak(TableSet(cfg.tables), s, m).Some? && !Lone(s, m)
    requires m.generation == db.generation && m.seqNo == db.received + 1 <= MaxBigint && Takes(cfg, db.columns, m)
    ensures match Store(cfg, db, m)
            case Success(next) => next == Accept(cfg, db, m).value && Follows(cfg, next,
                                                                              Speak(TableSet(cfg.tables), s, m).value)
            case Failure(e) => e == Inapplicable && Applies(m.kind)
  {
    hide Follows, Speak, SchemaAllows, VersionGate, TransactionGate, Takes, ValidFileMessage, NextTables, NextFiles,
         PhaseAllows;
    GatesPass(cfg, db, s, m);
    BarrierPasses(cfg, db, s, m);
    DataFailsInapplicable(cfg, db, m);
    if Accept(cfg, db, m).Success? {
      NextFollows(cfg, db, s, m);
    }
  }

  /** Whether it is stored is decided by its data alone. */
  lemma DataDecides(cfg: Config, db: Database, s: Stream, m: Message)
    requires ProperTables(cfg.tables) && Follows(cfg, db, s) && Speak(TableSet(cfg.tables), s, m).Some?
    requires m.generation == db.generation && m.seqNo == db.received + 1 <= MaxBigint && Takes(cfg, db.columns, m)
    requires !Lone(s, m) && (Applies(m.kind) ==> NextTables(cfg, db, m).Success? && NextFiles(cfg, db, m).Success?)
    ensures Store(cfg, db, m).Success?
  {
    hide Follows, Speak, SchemaAllows, VersionGate, TransactionGate, Takes, ValidFileMessage, NextTables, NextFiles,
         PhaseAllows;
    GatesPass(cfg, db, s, m);
    BarrierPasses(cfg, db, s, m);
    DataFailsInapplicable(cfg, db, m);
  }

  lemma FirstAdmitted(cfg: Config, db: Database, m: Message)
    requires Speak(TableSet(cfg.tables), Fresh, m).Some?
    requires m.generation != db.generation && m.seqNo == 1
    ensures Store(cfg, db, m).Success?
    ensures var next := Store(cfg, db, m).value;
            && Follows(cfg, next, Speak(TableSet(cfg.tables), Fresh, m).value)
            && next.generation == m.generation && next.received == 1 && next.columns == db.columns
               && next.schemaStage == map[]
  {
    assert forall t | t in m.tables :: t in cfg.tables;
    var current := Restart(db, m);
    assert Accept(cfg, current, m).Success?;
  }

  /** An end marker without a row chunk before it is refused, always. */
  lemma LoneEndRefused(cfg: Config, db: Database, version: string, m: Message)
    requires Follows(cfg, db, Idle(version)) && m.kind.TransactionEnd? && m.generation == db.generation
             && m.seqNo > db.received
    ensures Store(cfg, db, m) == Failure(Refused)
  {
  }

  /** Some transaction ends without an open chunk. */
  predicate HasLoneEnd(log: seq<Message>) {
    exists n | 0 <= n < |log| :: LoneEnd(log, n)
  }

  predicate LoneEnd(log: seq<Message>, n: nat)
    requires n < |log|
  {
    log[n].kind.TransactionEnd? && R.OpenBatch(log[..n]) == []
  }

  /** Chunks are open exactly inside a transaction or file. */
  lemma {:induction false} OpenInside(tables: set<TableRef>, log: seq<Message>)
    requires SpeakAll(tables, Fresh, log).Some?
    ensures var s := SpeakAll(tables, Fresh, log).value; R.OpenBatch(log) != [] <==> s.InTransaction? || s.InFile?
    decreases |log|
  {
    if log != [] {
      OpenInside(tables, log[..|log| - 1]);
    }
  }

  lemma LoneEndGrows(log: seq<Message>)
    requires log != []
    ensures HasLoneEnd(log) <==> HasLoneEnd(log[..|log| - 1]) || LoneEnd(log, |log| - 1)
  {
    hide R.OpenBatch;
    var front := log[..|log| - 1];
    forall n | 0 <= n < |front| ensures LoneEnd(log, n) == LoneEnd(front, n) {
      assert log[..n] == front[..n];
    }
  }

  ghost function StoreAll(cfg: Config, db: Database, log: seq<Message>): Result<Database, StoreError> {
    if log == [] then Success(db)
    else
      var before :- StoreAll(cfg, db, log[..|log| - 1]);
      Store(cfg, before, log[|log| - 1])
  }

  predicate Wider(a: Columns, b: Columns) {
    forall t | t in a :: t in b && a[t] <= b[t]
  }

  lemma TakesWider(cfg: Config, a: Columns, b: Columns, m: Message)
    requires Wider(a, b) && Takes(cfg, a, m)
    ensures Takes(cfg, b, m)
  {
    if m.schema.Some? {
      var schema := m.schema.value;
      forall j | 0 <= j < |schema.columns| ensures FitsAt(cfg, b[schema.table.name], schema, j) {
        assert FitsAt(cfg, a[schema.table.name], schema, j);
      }
    }
  }

  lemma AcceptWidens(cfg: Config, db: Database, m: Message)
    requires Accept(cfg, db, m).Success?
    ensures var next := Accept(cfg, db, m).value;
            Wider(db.columns, next.columns) && next.generation == db.generation && next.received == m.seqNo
  {
  }

  /** Every stream a collector publishes passes the server's version, phase, contiguity and open-transaction
      checks and its schema barrier, unless it has a lone end, with which it is never stored; otherwise only rows the
      target data does not admit can stop it. */
  lemma {:induction false} StreamAdmitted(cfg: Config, db: Database, generation: string, log: seq<Message>)
    requires ProperTables(cfg.tables) && db.generation != generation && |log| <= MaxBigint
    requires forall i | 0 <= i < |log| :: log[i].generation == generation && log[i].seqNo == i + 1 && Takes(cfg,
               db.columns, log[i])
    requires SpeakAll(TableSet(cfg.tables), Fresh, log).Some?
    ensures match StoreAll(cfg, db, log)
            case Success(next) =>
              && !HasLoneEnd(log)
              && (log != [] ==> && Follows(cfg, next, SpeakAll(TableSet(cfg.tables), Fresh, log).value)
                                && next.generation == generation && next.received == |log|
                                   && Wider(db.columns, next.columns))
            case Failure(e) => e == Inapplicable || (e == Refused && HasLoneEnd(log))
    decreases |log|
  {
    if log != [] {
      var front, last := log[..|log| - 1], log[|log| - 1];
      StreamAdmitted(cfg, db, generation, front);
      hide Follows, Speak, Store, Accept, HasLoneEnd;
      LoneEndGrows(log);
      OpenInside(TableSet(cfg.tables), front);
      if front == [] {
        FirstIsBegin(TableSet(cfg.tables), last);
        FirstAdmitted(cfg, db, last);
        assert !HasLoneEnd(front) by { NothingLone(); }
      } else if StoreAll(cfg, db, front).Success? {
        var before := StoreAll(cfg, db, front).value;
        TakesWider(cfg, db.columns, before.columns, last);
        NextAdmitted(cfg, before, SpeakAll(TableSet(cfg.tables), Fresh, front).value, last);
        if Store(cfg, before, last).Success? {
          StoredIsAccepted(cfg, before, last);
          AcceptWidens(cfg, before, last);
        }
      }
    }
  }

  lemma FirstIsBegin(tables: set<TableRef>, m: Message)
    requires Speak(tables, Fresh, m).Some?
    ensures m.kind.SnapshotBegin?
  {
  }

  lemma NothingLone()
    ensures !HasLoneEnd([])
  {
  }

  lemma StoredIsAccepted(cfg: Config, db: Database, m: Message)
    requires m.generation == db.generation && m.seqNo == db.received + 1 <= MaxBigint && Store(cfg, db, m).Success?
    ensures Accept(cfg, db, m) == Store(cfg, db, m)
  {
  }
}
