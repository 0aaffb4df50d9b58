/** What the server knows of the source's columns: the announced schemas wait in its stage, and those of the last
    snapshot or refresh that was closed are part of its tables. */
module Activation {
  import opened Event
  import opened Target
  import opened TargetRun
  import opened Replay
  import opened Barrier

  /** The tables have every column of these schemas. */
  predicate Covers(cfg: Config, columns: Columns, schemas: seq<TableSchema>) {
    forall s | s in schemas ::
      s.table in cfg.tables && s.table.name in columns && ColumnNames(s) <= columns[s.table.name]
  }

  /** The stage holds exactly these schemas. */
  predicate Waiting(cfg: Config, staged: map<SchemaKey, TableSchema>, schemas: seq<TableSchema>) {
    && (forall s | s in schemas :: s.table in cfg.tables && exists k | k in staged :: staged[k] == s)
    && (forall k | k in staged :: staged[k] in schemas)
  }

  function Added(schemas: seq<TableSchema>, t: string): set<string> {
    set s, c | s in schemas && s.table.name == t && c in ColumnNames(s) :: c
  }

  function Widened(columns: Columns, schemas: seq<TableSchema>): Columns {
    map t | t in columns :: columns[t] + Added(schemas, t)
  }

  /** The columns a server has after a log, if it had these before: each snapshot and refresh adds those it
      announced. */
  function Grown(start: Columns, log: seq<Message>): Columns {
    if log == [] then start
    else
      var front, columns := log[..|log| - 1], Grown(start, log[..|log| - 1]);
      if ClosesSchemas(log[|log| - 1].kind) then Widened(columns, Pending(front)) else columns
  }

  /** After this log, starting with these columns. No column is added before a snapshot is closed. */
  ghost predicate Learned(cfg: Config, start: Columns, log: seq<Message>, s: Stream, db: Database) {
    && db.columns == Grown(start, log) && (s.InSnapshot? ==> db.columns == start)
    && Waiting(cfg, db.schemaStage, Pending(log)) && Covers(cfg, db.columns, Current(log))
  }

  lemma CoversWider(cfg: Config, a: Columns, b: Columns, schemas: seq<TableSchema>)
    requires Covers(cfg, a, schemas) && Wider(a, b)
    ensures Covers(cfg, b, schemas)
  {
  }

  lemma FirstLearned(cfg: Config, db: Database, m: Message, next: Database)
    requires Speak(TableSet(cfg.tables), Stream.Fresh, m).Some? && next.columns == db.columns
             && next.schemaStage == map[]
    ensures Learned(cfg, db.columns, [m], Speak(TableSet(cfg.tables), Stream.Fresh, m).value, next)
  {
    assert [m][..0] == [];
  }

  lemma AnnouncementLearned(cfg: Config, staged: map<SchemaKey, TableSchema>, key: SchemaKey, schema: TableSchema,
                            schemas: seq<TableSchema>)
    requires Waiting(cfg, staged, schemas) && key !in staged && schema.table in cfg.tables
    ensures Waiting(cfg, staged[key := schema], schemas + [schema])
  {
    var next := staged[key := schema];
    forall s | s in schemas + [schema] ensures s.table in cfg.tables && exists k | k in next :: next[k] == s {
      if s in schemas {
        var k :| k in staged && staged[k] == s;
        assert k in next && next[k] == s;
      } else {
        assert key in next && next[key] == s;
      }
    }
  }

  lemma ActivationLearned(cfg: Config, db: Database, m: Message, schemas: seq<TableSchema>)
    requires Waiting(cfg, db.schemaStage, schemas) && Activatable(cfg, db, db.generation, m.schemaVersion)
    requires db.schemaStage - StagedFor(db, db.generation, m.schemaVersion) == map[]
    ensures var columns := WidenAll(db.columns, db.schemaStage, StagedFor(db, db.generation, m.schemaVersion));
            Covers(cfg, columns, schemas) && columns == Widened(db.columns, schemas)
  {
    var keys := StagedFor(db, db.generation, m.schemaVersion);
    var columns := WidenAll(db.columns, db.schemaStage, keys);
    forall t | t in db.columns ensures columns[t] == db.columns[t] + Added(schemas, t) {
      WidenedBy(db.schemaStage, keys, schemas, t);
    }
    forall s | s in schemas ensures s.table in cfg.tables && s.table.name in columns
      && ColumnNames(s) <= columns[s.table.name] {
      var k :| k in db.schemaStage && db.schemaStage[k] == s;
      assert k in keys by {
        assert k !in db.schemaStage - keys;
      }
      assert SchemaFits(cfg, db.columns, s);
    }
  }

  lemma WidenedBy(staged: map<SchemaKey, TableSchema>, keys: set<SchemaKey>, schemas: seq<TableSchema>, t: string)
    requires (forall s | s in schemas :: exists k | k in staged :: staged[k] == s)
             && forall k | k in staged :: staged[k] in schemas
    requires staged - keys == map[]
    ensures (set k, c | k in keys && k in staged && staged[k].table.name == t && c in ColumnNames(staged[k]) :: c)
            == Added(schemas, t)
  {
    forall c | c in Added(schemas, t)
      ensures exists k | k in keys && k in staged :: staged[k].table.name == t && c in ColumnNames(staged[k])
    {
      var s :| s in schemas && s.table.name == t && c in ColumnNames(s);
      var k :| k in staged && staged[k] == s;
      assert k !in staged - keys;
    }
  }

  /** A snapshot or refresh is closed: what it announced is known. */
  lemma ClosingLearned(cfg: Config, db: Database, s: Stream, m: Message, schemas: seq<TableSchema>)
    requires ProperTables(cfg.tables) && Follows(cfg, db, s) && Speak(TableSet(cfg.tables), s, m).Some?
    requires ClosesSchemas(m.kind) && m.generation == db.generation && Takes(cfg, db.columns, m)
    requires Waiting(cfg, db.schemaStage, schemas)
    ensures Covers(cfg, NextColumns(db, m), schemas)
    ensures NextColumns(db, m) == Widened(db.columns, schemas)
    ensures NextSchemaStage(db, m) == map[]
  {
    hide VersionGate, TransactionGate, SchemaFits, KeysFor, Fitting, TableSet, Activatable, WidenAll, Widened;
    if Activates(m) {
      CompleteActivates(cfg, db, m.schemaVersion);
      ActivationLearned(cfg, db, m, schemas);
    } else {
      NothingStaged(cfg, db, "");
      NothingAdded(cfg, db.schemaStage, schemas, db.columns);
    }
  }

  lemma NothingAdded(cfg: Config, staged: map<SchemaKey, TableSchema>, schemas: seq<TableSchema>, columns: Columns)
    requires staged == map[] && Waiting(cfg, staged, schemas)
    ensures columns == Widened(columns, schemas) && Covers(cfg, columns, schemas)
  {
    forall t | t in columns ensures columns[t] + Added(schemas, t) == columns[t] {
      assert Added(schemas, t) == {};
    }
  }

  lemma PendingNext(log: seq<Message>, m: Message)
    ensures Pending(log + [m]) == if ClosesSchemas(m.kind) then []
                                  else if m.kind.SchemaTable? && m.schema.Some? then Pending(log) + [m.schema.value]
                                    else Pending(log)
    ensures Current(log + [m]) == if ClosesSchemas(m.kind) then Pending(log) else Current(log)
    ensures forall start ::
              Grown(start, log + [m]) == if ClosesSchemas(m.kind) then Widened(Grown(start, log), Pending(log))
                                         else Grown(start, log)
  {
    assert (log + [m])[..|log|] == log;
  }

  lemma LearnedNext(cfg: Config, start: Columns, log: seq<Message>, s: Stream, db: Database, m: Message)
    requires ProperTables(cfg.tables) && Follows(cfg, db, s) && Speak(TableSet(cfg.tables), s, m).Some?
    requires m.generation == db.generation && Takes(cfg, db.columns, m) && Accept(cfg, db, m).Success?
    requires Learned(cfg, start, log, s, db)
    ensures Learned(cfg, start, log + [m], Speak(TableSet(cfg.tables), s, m).value, Accept(cfg, db, m).value)
  {
    hide Accept, Takes, Follows, Pending, Current, Covers, Waiting, NextColumns, VersionGate, TransactionGate, Grown,
         Widened, NextSchemaStage;
    var next := Accept(cfg, db, m).value;
    FollowsBegun(cfg, db, s);
    AcceptFields(cfg, db, m);
    AcceptWidens(cfg, db, m);
    PendingNext(log, m);
    if ClosesSchemas(m.kind) {
      ClosingLearned(cfg, db, s, m, Pending(log));
      NothingWaits(cfg);
    } else {
      CoversWider(cfg, db.columns, next.columns, Current(log));
      ColumnsKept(db, m);
      if m.kind.SchemaTable? {
        StagedNext(cfg, db, s, m);
        AnnouncementLearned(cfg, db.schemaStage, SchemaKey(m.generation, m.schemaVersion, m.schema.value.table),
                            m.schema.value, Pending(log));
      }
    }
  }

  lemma FollowsBegun(cfg: Config, db: Database, s: Stream)
    requires Follows(cfg, db, s)
    ensures !s.Fresh?
  {
  }

  lemma NothingWaits(cfg: Config)
    ensures Waiting(cfg, map[], [])
  {
  }

  lemma ColumnsKept(db: Database, m: Message)
    requires !ClosesSchemas(m.kind)
    ensures NextColumns(db, m) == db.columns && (!m.kind.SchemaTable? ==> NextSchemaStage(db, m) == db.schemaStage)
  {
  }

  lemma StagedNext(cfg: Config, db: Database, s: Stream, m: Message)
    requires Speak(TableSet(cfg.tables), s, m).Some? && m.kind.SchemaTable? && Accept(cfg, db, m).Success?
    ensures m.schema.Some? && m.schema.value.table in cfg.tables
    ensures var key := SchemaKey(m.generation, m.schemaVersion, m.schema.value.table);
            key !in db.schemaStage && NextSchemaStage(db, m) == db.schemaStage[key := m.schema.value]
  {
    hide VersionGate, TransactionGate, NextTables, NextFiles;
  }

  // ---------------------------------------------------------------- a column that comes too late

  const Notes := TableRef("public", "notes")
  const NewBody := ColumnSchema("body", "text", true, false)
  const NotesSchema := TableSchema(Notes, [ColumnSchema("id", "integer", false, true), NewBody])

  /** A server in the middle of a snapshot that has announced a column its table does not have yet. */
  function Announced(db: Database, g: string): Database {
    db.(generation := g, received := 2, applied := 0, phase := Snapshot, openTransaction := "",
        schemaVersion := "v", pendingSchema := "", inbox := map[], snapshotRows := map[], scope := [Notes],
        schemaStage := map[SchemaKey(g, "v", Notes) := NotesSchema],
        columns := map["notes" := {"id"}], tables := map["notes" := multiset{}])
  }

  function InSnapshotMessage(g: string, kind: Kind, seqNo: nat): Message {
    Draft(kind).(generation := g, seqNo := seqNo, schemaVersion := "v")
  }

  function NoteRow(): Row {
    var id, body := Column("id", "integer", Some("1")), Column("body", "text", Some("x"));
    Row(false, Notes, Read, [id], [], [id, body], 1)
  }

  /** The column may be added, and the end of the snapshot adds it; but with a row that uses it the same end is
      refused, because its rows are checked against the columns of before. */
  lemma AddedColumnRefused(cfg: Config, db: Database, g: string)
    requires cfg.tables == [Notes] && cfg.autoAddColumns && cfg.addable(NotesSchema, NewBody)
    ensures var d := Announced(db, g);
            var loaded := Store(cfg, d, InSnapshotMessage(g, SnapshotRows, 3).(rows := [NoteRow()]));
            var empty := Store(cfg, d, InSnapshotMessage(g, SnapshotEnd, 3));
            && empty.Success? && "notes" in empty.value.columns && "body" in empty.value.columns["notes"]
            && loaded.Success?
               && Store(cfg, loaded.value, InSnapshotMessage(g, SnapshotEnd, 4)) == Failure(Inapplicable)
  {
    hide Store, Announced;
    EmptyEndStored(cfg, db, g);
    RowStaged(cfg, db, g);
    var d, rows := Announced(db, g), InSnapshotMessage(g, SnapshotRows, 3).(rows := [NoteRow()]);
    LateEndRefused(cfg, Store(cfg, d, rows).value, g);
  }

  /** In the snapshot, with the schema staged, after n messages. */
  ghost predicate Midway(d: Database, g: string, n: nat) {
    && d.generation == g && d.received == n && d.phase.Snapshot? && d.openTransaction == "" && d.schemaVersion == "v"
    && d.pendingSchema == "" && d.columns == map["notes" := {"id"}]
    && d.schemaStage == map[SchemaKey(g, "v", Notes) := NotesSchema]
  }

  lemma EmptyEndStored(cfg: Config, db: Database, g: string)
    requires cfg.tables == [Notes] && cfg.autoAddColumns && cfg.addable(NotesSchema, NewBody)
    ensures var empty := Store(cfg, Announced(db, g), InSnapshotMessage(g, SnapshotEnd, 3));
            empty.Success? && "notes" in empty.value.columns && "body" in empty.value.columns["notes"]
  {
    hide InOrder, Activatable, WidenAll, ApplyRows;
    var d := Announced(db, g);
    NotesActivate(cfg, db, g);
    InOrderEmpty(d.snapshotRows, g);
    NoRowsApply(cfg, d.columns, Cleared(d.tables, d.scope));
  }

  lemma NoRowsApply(cfg: Config, columns: Columns, tables: Tables)
    ensures ApplyRows(cfg, columns, tables, AsInserts([])) == Success(tables)
  {
  }

  lemma RowStaged(cfg: Config, db: Database, g: string)
    ensures var loaded := Store(cfg, Announced(db, g), InSnapshotMessage(g, SnapshotRows, 3).(rows := [NoteRow()]));
            loaded.Success? && Midway(loaded.value, g, 3) && InOrder(loaded.value.snapshotRows, g) == [NoteRow()]
  {
    hide InOrder, StageRows;
    var d := Announced(db, g);
    InOrderEmpty(d.snapshotRows, g);
    InOrderStages(d.snapshotRows, g, 3, [NoteRow()]);
    assert [] + [NoteRow()] == [NoteRow()];
  }

  lemma LateEndRefused(cfg: Config, d: Database, g: string)
    requires cfg.tables == [Notes] && cfg.autoAddColumns && cfg.addable(NotesSchema, NewBody)
    requires Midway(d, g, 3) && InOrder(d.snapshotRows, g) == [NoteRow()]
    ensures Store(cfg, d, InSnapshotMessage(g, SnapshotEnd, 4)) == Failure(Inapplicable)
  {
    hide InOrder, Activatable, WidenAll, ApplyRows, NoteRow;
    NotesActivate(cfg, d, g);
    SameStaged(cfg, Announced(d, g), d, g);
    LateRowRefused(cfg, d.columns, Cleared(d.tables, d.scope));
  }

  lemma SameStaged(cfg: Config, a: Database, b: Database, g: string)
    requires a.schemaStage == b.schemaStage && a.columns == b.columns
    ensures Activatable(cfg, a, g, "v") == Activatable(cfg, b, g, "v")
  {
    assert StagedFor(a, g, "v") == StagedFor(b, g, "v");
  }

  lemma NotesActivate(cfg: Config, db: Database, g: string)
    requires cfg.tables == [Notes] && cfg.autoAddColumns && cfg.addable(NotesSchema, NewBody)
    ensures var d := Announced(db, g);
            && Activatable(cfg, d, g, "v")
            && var columns := WidenAll(d.columns, d.schemaStage, StagedFor(d, g, "v"));
               "notes" in columns && "body" in columns["notes"]
  {
    var d, key := Announced(db, g), SchemaKey(g, "v", Notes);
    assert StagedFor(d, g, "v") == {key};
    assert NewBody in NotesSchema.columns && "body" in ColumnNames(NotesSchema);
  }

  lemma LateRowRefused(cfg: Config, columns: Columns, tables: Tables)
    requires columns == map["notes" := {"id"}]
    ensures ApplyRows(cfg, columns, tables, AsInserts([NoteRow()])) == Failure(Inapplicable)
  {
    var rows := AsInserts([NoteRow()]);
    assert rows[..0] == [] && rows[0].columns[1].name == "body" && rows[0].columns[1] in rows[0].columns;
  }
}
