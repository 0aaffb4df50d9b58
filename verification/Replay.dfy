/** The reference meaning of a message log: a plain fold that applies each unit
    whole when its closing message is reached. The server's store is shown to
    compute it for every sequence of messages offered. */
module Replay {
  import opened Event
  import opened Staging
  import opened Files
  import opened Target
  import opened TargetRun

  datatype Replica = Replica(tables: Tables, files: map<string, FileObject>)

  // ---------------------------------------------------------------- the reference fold

  function Front<T>(s: seq<T>): seq<T>
    requires s != []
  {
    s[..|s| - 1]
  }

  function Last<T>(s: seq<T>): T
    requires s != []
  {
    s[|s| - 1]
  }

  /** The chunks received since the last batch was closed. */
  function OpenBatch(log: seq<Message>): seq<Message> {
    if log == [] || ClosesBatch(Last(log).kind) then []
    else if OpensBatch(Last(log).kind) then OpenBatch(Front(log)) + [Last(log)]
    else OpenBatch(Front(log))
  }

  /** The rows received since the last snapshot began. */
  function OpenSnapshot(log: seq<Message>): seq<Row> {
    if log == [] || Last(log).kind.SnapshotBegin? || Last(log).kind.SnapshotEnd? then []
    else if Last(log).kind.SnapshotRows? then OpenSnapshot(Front(log)) + Last(log).rows
    else OpenSnapshot(Front(log))
  }

  function OpenScope(log: seq<Message>): seq<TableRef> {
    if log == [] || Last(log).kind.SnapshotEnd? then []
    else if Last(log).kind.SnapshotBegin? then Last(log).tables
    else OpenScope(Front(log))
  }

  function AllRows(chunks: seq<Message>): seq<Row> {
    if chunks == [] then [] else AllRows(Front(chunks)) + Last(chunks).rows
  }

  function PatchRow(pick: (Table, seq<Column>) -> Image, tables: Tables, row: Row): Tables {
    if row.table.name in tables then tables[row.table.name := Patch(pick, tables[row.table.name], row)] else tables
  }

  function PatchRows(pick: (Table, seq<Column>) -> Image, tables: Tables, rows: seq<Row>): Tables {
    if rows == [] then tables else PatchRow(pick, PatchRows(pick, tables, Front(rows)), Last(rows))
  }

  /** What closing a unit does to the tables: a transaction patches its rows, a snapshot replaces the
      tables of its scope. */
  function CloseTables(cfg: Config, tables: Tables, unit: seq<Message>, m: Message): Tables {
    if m.kind.TransactionEnd? then PatchRows(cfg.pick, tables, AllRows(OpenBatch(unit)))
    else if m.kind.SnapshotEnd? then
      PatchRows(cfg.pick, Cleared(tables, OpenScope(unit)), AsInserts(OpenSnapshot(unit)))
    else tables
  }

  /** What closing a unit does to the files: a file batch writes one whole object. */
  function CloseFiles(cfg: Config, files: map<string, FileObject>, unit: seq<Message>, m: Message): map<string,
                      FileObject> {
    if m.file.None? then files
    else if m.kind.FileEnd? && OpenBatch(unit) != [] then
      PutFile(cfg, files, Content(cfg.codec, OpenBatch(unit)[1..]), m.file.value)
    else if m.kind.FileDelete? && AllowsFile(cfg, FileRemove) then files - {m.file.value.path}
    else files
  }

  /** The replica after a log: each unit takes effect, whole, at its closing message. */
  function Effect(cfg: Config, base: Replica, log: seq<Message>): Replica {
    if log == [] then base
    else
      var before := Effect(cfg, base, Front(log));
      Replica(CloseTables(cfg, before.tables, Front(log), Last(log)),
              CloseFiles(cfg, before.files, Front(log), Last(log)))
  }

  function LastClosing(log: seq<Message>): nat {
    if log == [] then 0 else if Closing(Last(log).kind) then |log| else LastClosing(Front(log))
  }

  /** Messages after the last closing one have no effect: an open unit is never half applied. */
  lemma {:induction false} EffectStopsAtClosing(cfg: Config, base: Replica, log: seq<Message>)
    ensures LastClosing(log) <= |log|
    ensures Effect(cfg, base, log) == Effect(cfg, base, log[..LastClosing(log)])
    decreases |log|
  {
    if log != [] {
      if Closing(Last(log).kind) {
        assert log[..|log|] == log;
      } else {
        EffectStopsAtClosing(cfg, base, Front(log));
        assert Front(log)[..LastClosing(log)] == log[..LastClosing(log)];
      }
    }
  }

  // ---------------------------------------------------------------- staged contents against the log

  lemma BeforeIsStrict(k: Key)
    ensures !Before(k, k)
  {
  }

  lemma InOrderAppends<V>(staged: map<Key, V>, k: Key, v: V)
    requires forall j | j in staged && j.generation == k.generation :: Before(j, k)
    ensures InOrder(staged[k := v], k.generation) == InOrder(staged, k.generation) + [v]
  {
    hide Before, Ordered;
    var keys := InGeneration(staged, k.generation);
    var longer := staged[k := v];
    assert k !in keys by {
      BeforeIsStrict(k);
    }
    assert InGeneration(longer, k.generation) == keys + {k};
    OrderedAppends(keys, k);
    OrderedSorts(keys);
    forall i | 0 <= i < |Ordered(keys)|
      ensures Ordered(keys)[i] in keys && longer[Ordered(keys)[i]] == staged[Ordered(keys)[i]]
    {
      assert Ordered(keys)[i] in Ordered(keys);
    }
  }

  lemma {:induction false} InOrderStages(staged: map<Key, Row>, generation: string, seqNo: nat, rows: seq<Row>)
    requires forall j | j in staged && j.generation == generation :: j.seqNo < seqNo
    ensures InOrder(StageRows(staged, generation, seqNo, rows), generation) == InOrder(staged, generation) + rows
    decreases |rows|
  {
    if rows == [] {
    } else {
      InOrderStages(staged, generation, seqNo, Front(rows));
      StageRowsKeys(staged, generation, seqNo, Front(rows));
      InOrderAppends(StageRows(staged, generation, seqNo, Front(rows)), Key(generation, seqNo, |rows| - 1), Last(rows));
      assert Front(rows) + [Last(rows)] == rows;
    }
  }

  lemma InOrderEmpty<V>(staged: map<Key, V>, generation: string)
    requires staged == map[]
    ensures InOrder(staged, generation) == []
  {
    assert InGeneration(staged, generation) == {};
  }

  // ---------------------------------------------------------------- rows

  lemma {:induction false} AppliedIsPatched(cfg: Config, columns: Columns, tables: Tables, rows: seq<Row>)
    requires ApplyRows(cfg, columns, tables, rows).Success?
    ensures ApplyRows(cfg, columns, tables, rows).value == PatchRows(cfg.pick, tables, rows)
    decreases |rows|
  {
    if rows != [] {
      AppliedIsPatched(cfg, columns, tables, Front(rows));
    }
  }

  lemma {:induction false} RowsOfBatch(chunks: seq<Message>, transaction: string)
    requires forall m | m in chunks :: m.transaction == transaction
    ensures RowsOf(chunks, transaction) == AllRows(chunks)
    decreases |chunks|
  {
    if chunks != [] {
      RowsOfBatch(Front(chunks), transaction);
    }
  }

  // ---------------------------------------------------------------- the database represents the log

  predicate Numbered(log: seq<Message>, generation: string) {
    forall i | 0 <= i < |log| :: log[i].seqNo == i + 1 && log[i].generation == generation
  }

  /** Sequence numbers and payload hashes match the log. */
  ghost predicate Logged(cfg: Config, db: Database, log: seq<Message>) {
    && HashesOk(db)
    && |log| == db.received && Numbered(log, db.generation)
    && (forall i | 0 <= i < |log| :: db.hashes[Key(db.generation, i + 1, 0)] == cfg.payloadHash(log[i]))
  }

  /** What the last accepted message says about an open transaction or an unfinished schema refresh. */
  predicate Settled(db: Database, log: seq<Message>) {
    && (db.pendingSchema != "" ==> log != [] && Last(log).kind.SchemaTable?)
    && (log != [] && (ClosesBatch(Last(log).kind) || Last(log).kind.SchemaEnd? || Last(log).kind.FileDelete?) ==>
          db.openTransaction == "")
  }

  /** Everything but the file store, which is written before the database transaction commits. */
  ghost predicate Core(cfg: Config, db: Database, base: Replica, log: seq<Message>) {
    && Inv(cfg, db)
    && Logged(cfg, db, log)
    && db.applied == LastClosing(log)
    && InOrder(db.inbox, db.generation) == OpenBatch(log)
    && InOrder(db.snapshotRows, db.generation) == OpenSnapshot(log)
    && db.scope == OpenScope(log)
    && Settled(db, log)
    && db.tables == Effect(cfg, base, log).tables
  }

  /** The database holds exactly what the accepted log of its generation says. */
  ghost predicate Represents(cfg: Config, db: Database, base: Replica, log: seq<Message>) {
    Core(cfg, db, base, log) && db.files == Effect(cfg, base, log).files
  }

  lemma InboxCarriesOpenTransaction(db: Database, m: Message)
    requires InboxOk(db) && m in InOrder(db.inbox, db.generation)
    ensures m.transaction == db.openTransaction
  {
    var keys := InGeneration(db.inbox, db.generation);
    OrderedSorts(keys);
    forall i | 0 <= i < |Ordered(keys)| ensures Ordered(keys)[i] in keys {
      assert Ordered(keys)[i] in Ordered(keys);
    }
    var i :| 0 <= i < |Ordered(keys)| && db.inbox[Ordered(keys)[i]] == m;
  }

  lemma AcceptBatch(cfg: Config, db: Database, log: seq<Message>, m: Message)
    requires InboxOk(db) && InOrder(db.inbox, db.generation) == OpenBatch(log)
    requires m.generation == db.generation && m.seqNo == db.received + 1
    requires Accept(cfg, db, m).Success?
    ensures InOrder(Accept(cfg, db, m).value.inbox, db.generation) == OpenBatch(log + [m])
  {
    hide Accept, VersionGate, TransactionGate, InOrder;
    AcceptFields(cfg, db, m);
    Gates(db, m);
    assert Front(log + [m]) == log;
    if OpensBatch(m.kind) {
      InOrderAppends(db.inbox, Key(m.generation, m.seqNo, 0), m);
    } else if ClosesBatch(m.kind) {
      assert NextInbox(db.inbox, m) == map[];
      InOrderEmpty(NextInbox(db.inbox, m), db.generation);
    }
  }

  lemma AcceptSnapshotRows(cfg: Config, db: Database, log: seq<Message>, m: Message)
    requires StageOk(db) && InOrder(db.snapshotRows, db.generation) == OpenSnapshot(log) && db.scope == OpenScope(log)
    requires m.generation == db.generation && m.seqNo == db.received + 1
    requires Accept(cfg, db, m).Success?
    ensures InOrder(Accept(cfg, db, m).value.snapshotRows, db.generation) == OpenSnapshot(log + [m])
    ensures Accept(cfg, db, m).value.scope == OpenScope(log + [m])
  {
    hide Accept, VersionGate, TransactionGate, InOrder;
    AcceptFields(cfg, db, m);
    assert Front(log + [m]) == log;
    if m.kind.SnapshotRows? {
      InOrderStages(db.snapshotRows, m.generation, m.seqNo, m.rows);
    } else if m.kind.SnapshotBegin? || m.kind.SnapshotEnd? {
      InOrderEmpty(NextStage(db.snapshotRows, m), db.generation);
    }
  }

  lemma AcceptTables(cfg: Config, db: Database, base: Replica, log: seq<Message>, m: Message)
    requires Core(cfg, db, base, log) && m.generation == db.generation
    requires Accept(cfg, db, m).Success?
    ensures Accept(cfg, db, m).value.tables == Effect(cfg, base, log + [m]).tables
  {
    assert Front(log + [m]) == log;
    if m.kind.SnapshotEnd? {
      AppliedIsPatched(cfg, db.columns, Cleared(db.tables, db.scope),
                       AsInserts(InOrder(db.snapshotRows, m.generation)));
    } else if m.kind.TransactionEnd? {
      Gates(db, m);
      forall c | c in OpenBatch(log) ensures c.transaction == m.transaction {
        InboxCarriesOpenTransaction(db, c);
      }
      RowsOfBatch(OpenBatch(log), m.transaction);
      AppliedIsPatched(cfg, db.columns, db.tables, RowsOf(InOrder(db.inbox, m.generation), m.transaction));
    }
  }

  /** Writing an object again changes nothing, so a file effect that outlived an aborted transaction is
      absorbed when the message is stored again. */
  lemma CloseFilesTwice(cfg: Config, files: map<string, FileObject>, unit: seq<Message>, m: Message)
    ensures CloseFiles(cfg, CloseFiles(cfg, files, unit, m), unit, m) == CloseFiles(cfg, files, unit, m)
  {
  }

  lemma AcceptFiles(cfg: Config, db: Database, base: Replica, log: seq<Message>, m: Message)
    requires Core(cfg, db, base, log) && m.generation == db.generation
    requires Accept(cfg, db, m).Success?
    requires db.files == Effect(cfg, base, log).files || db.files == Effect(cfg, base, log + [m]).files
    ensures Accept(cfg, db, m).value.files == Effect(cfg, base, log + [m]).files
  {
    assert Front(log + [m]) == log;
    CloseFilesTwice(cfg, Effect(cfg, base, log).files, log, m);
    AcceptWrites(cfg, db, log, m);
  }

  lemma AcceptWrites(cfg: Config, db: Database, log: seq<Message>, m: Message)
    requires InOrder(db.inbox, db.generation) == OpenBatch(log) && m.generation == db.generation
    requires Accept(cfg, db, m).Success?
    ensures Accept(cfg, db, m).value.files == CloseFiles(cfg, db.files, log, m)
  {
    hide VersionGate, TransactionGate, InOrder, NextTables, OpenBatch;
  }

  lemma AcceptLogged(cfg: Config, db: Database, log: seq<Message>, m: Message)
    requires Logged(cfg, db, log) && m.generation == db.generation && m.seqNo == db.received + 1
    requires Accept(cfg, db, m).Success?
    ensures Logged(cfg, Accept(cfg, db, m).value, log + [m])
  {
    hide VersionGate, TransactionGate, NextTables, NextFiles;
    AcceptHashes(cfg, db, m);
  }

  lemma AcceptSettled(cfg: Config, db: Database, log: seq<Message>, m: Message)
    requires CountersOk(db) && Accept(cfg, db, m).Success?
    ensures Settled(Accept(cfg, db, m).value, log + [m])
  {
    Gates(db, m);
  }

  /** Accepting a message extends the represented log by that message. */
  lemma AcceptExtendsCore(cfg: Config, db: Database, base: Replica, log: seq<Message>, m: Message)
    requires Core(cfg, db, base, log) && m.generation == db.generation && m.seqNo == db.received + 1
    requires Accept(cfg, db, m).Success?
    ensures Core(cfg, Accept(cfg, db, m).value, base, log + [m])
  {
    hide VersionGate, TransactionGate, InOrder, Effect, NextTables, NextFiles, OpenBatch;
    AcceptInv(cfg, db, m);
    AcceptLogged(cfg, db, log, m);
    AcceptBatch(cfg, db, log, m);
    AcceptSnapshotRows(cfg, db, log, m);
    AcceptTables(cfg, db, base, log, m);
    AcceptSettled(cfg, db, log, m);
    assert Front(log + [m]) == log;
  }

  lemma AcceptExtendsLog(cfg: Config, db: Database, base: Replica, log: seq<Message>, m: Message)
    requires Represents(cfg, db, base, log) && m.generation == db.generation && m.seqNo == db.received + 1
    requires Accept(cfg, db, m).Success?
    ensures Represents(cfg, Accept(cfg, db, m).value, base, log + [m])
  {
    AcceptExtendsCore(cfg, db, base, log, m);
    AcceptFiles(cfg, db, base, log, m);
  }

  // ---------------------------------------------------------------- every sequence of messages

  /** The database with the log of its current generation and the replica that generation started from. */
  datatype Served = Served(db: Database, base: Replica, log: seq<Message>)

  ghost function Offer(cfg: Config, s: Served, m: Message): Served {
    match Store(cfg, s.db, m)
    case Failure(_) => s
    case Success(db) =>
      if m.generation != s.db.generation then Served(db, Replica(s.db.tables, s.db.files), [m])
      else if m.seqNo <= s.db.received then s
      else Served(db, s.base, s.log + [m])
  }

  ghost function OfferAll(cfg: Config, s: Served, offered: seq<Message>): Served {
    if offered == [] then s else Offer(cfg, OfferAll(cfg, s, Front(offered)), Last(offered))
  }

  lemma RestartRepresents(cfg: Config, db: Database, m: Message)
    ensures Represents(cfg, Restart(db, m), Replica(db.tables, db.files), [])
  {
    var clean := Restart(db, m);
    RestartInv(cfg, db, m);
    InOrderEmpty(clean.inbox, clean.generation);
    InOrderEmpty(clean.snapshotRows, clean.generation);
  }

  /** Whatever is offered, the database after it is the fold of the log it accepted. */
  lemma OfferRefines(cfg: Config, s: Served, m: Message)
    requires Represents(cfg, s.db, s.base, s.log)
    ensures var next := Offer(cfg, s, m); Represents(cfg, next.db, next.base, next.log)
  {
    hide Accept, InOrder, Effect, OpenBatch;
    if Store(cfg, s.db, m).Success? {
      if m.generation != s.db.generation {
        RestartRepresents(cfg, s.db, m);
        AcceptExtendsLog(cfg, Restart(s.db, m), Replica(s.db.tables, s.db.files), [], m);
        assert [] + [m] == [m];
      } else if m.seqNo == s.db.received + 1 {
        AcceptExtendsLog(cfg, s.db, s.base, s.log, m);
      }
    }
  }

  /** For every sequence of messages offered to a fresh server, in any order and with any contents, the
      target holds the fold of the complete units of the accepted log, each applied whole and once. */
  lemma {:induction false} RunRefines(cfg: Config, db: Database, offered: seq<Message>)
    requires Fresh(db)
    ensures var end := OfferAll(cfg, Served(db, Replica(db.tables, db.files), []), offered);
            && Represents(cfg, end.db, end.base, end.log)
            && Replica(end.db.tables, end.db.files) == Effect(cfg, end.base, end.log[..end.db.applied])
    decreases |offered|
  {
    var start := Served(db, Replica(db.tables, db.files), []);
    if offered == [] {
      FreshInv(cfg, db);
      InOrderEmpty(db.inbox, db.generation);
      InOrderEmpty(db.snapshotRows, db.generation);
    } else {
      RunRefines(cfg, db, Front(offered));
      OfferRefines(cfg, OfferAll(cfg, start, Front(offered)), Last(offered));
    }
    var end := OfferAll(cfg, start, offered);
    EffectStopsAtClosing(cfg, end.base, end.log);
  }

  /** With a collision-free digest, a stored sequence number can only be offered again with the very same
      message; it is then acknowledged and changes nothing. */
  lemma ReplayNeedsSamePayload(cfg: Config, db: Database, base: Replica, log: seq<Message>, m: Message)
    requires Represents(cfg, db, base, log) && m.generation == db.generation && 1 <= m.seqNo <= db.received <= MaxBigint
    requires forall a, b :: cfg.payloadHash(a) == cfg.payloadHash(b) ==> a == b
    ensures Store(cfg, db, m) == if m == log[m.seqNo - 1] then Success(db) else Failure(Refused)
  {
    ReplayIsHarmless(cfg, db, m);
    assert db.hashes[Key(db.generation, (m.seqNo - 1) + 1, 0)] == cfg.payloadHash(log[m.seqNo - 1]);
  }

  // ---------------------------------------------------------------- a snapshot forgets the past

  lemma {:induction false} PatchRowsLocal(pick: (Table, seq<Column>) -> Image, a: Tables, b: Tables, t: string,
                                          rows: seq<Row>)
    requires t in a && t in b && a[t] == b[t]
    ensures t in PatchRows(pick, a, rows) && t in PatchRows(pick, b, rows)
    ensures PatchRows(pick, a, rows)[t] == PatchRows(pick, b, rows)[t]
    decreases |rows|
  {
    if rows != [] {
      PatchRowsLocal(pick, a, b, t, Front(rows));
    }
  }

  lemma CloseTablesLocal(cfg: Config, a: Tables, b: Tables, t: string, unit: seq<Message>, m: Message)
    requires t in a && t in b && a[t] == b[t]
    ensures t in CloseTables(cfg, a, unit, m) && t in CloseTables(cfg, b, unit, m)
    ensures CloseTables(cfg, a, unit, m)[t] == CloseTables(cfg, b, unit, m)[t]
  {
    if m.kind.TransactionEnd? {
      PatchRowsLocal(cfg.pick, a, b, t, AllRows(OpenBatch(unit)));
    } else if m.kind.SnapshotEnd? {
      PatchRowsLocal(cfg.pick, Cleared(a, OpenScope(unit)), Cleared(b, OpenScope(unit)), t,
                     AsInserts(OpenSnapshot(unit)));
    }
  }

  lemma {:induction false} EffectKeepsTables(cfg: Config, base: Replica, log: seq<Message>, t: string)
    requires t in base.tables
    ensures t in Effect(cfg, base, log).tables
    decreases |log|
  {
    if log != [] {
      EffectKeepsTables(cfg, base, Front(log), t);
      var before := Effect(cfg, base, Front(log)).tables;
      CloseTablesLocal(cfg, before, before, t, Front(log), Last(log));
    }
  }

  lemma PublishForgets(cfg: Config, a: Tables, b: Tables, ref: TableRef, unit: seq<Message>, m: Message)
    requires m.kind.SnapshotEnd? && ref in OpenScope(unit) && ref.name in a && ref.name in b
    ensures ref.name in CloseTables(cfg, a, unit, m) && ref.name in CloseTables(cfg, b, unit, m)
    ensures CloseTables(cfg, a, unit, m)[ref.name] == CloseTables(cfg, b, unit, m)[ref.name]
  {
    PatchRowsLocal(cfg.pick, Cleared(a, OpenScope(unit)), Cleared(b, OpenScope(unit)), ref.name,
                   AsInserts(OpenSnapshot(unit)));
  }

  /** Once a snapshot covering table t has been published at position e, the table depends on the log alone:
      whatever the target held before, however it had drifted, is gone. */
  lemma {:induction false} SnapshotForgetsPast(cfg: Config, a: Replica, b: Replica, log: seq<Message>, e: nat,
                                               ref: TableRef)
    requires e < |log| && log[e].kind.SnapshotEnd? && ref in OpenScope(log[..e])
    requires ref.name in a.tables && ref.name in b.tables
    ensures ref.name in Effect(cfg, a, log).tables && ref.name in Effect(cfg, b, log).tables
    ensures Effect(cfg, a, log).tables[ref.name] == Effect(cfg, b, log).tables[ref.name]
    decreases |log|
  {
    EffectKeepsTables(cfg, a, Front(log), ref.name);
    EffectKeepsTables(cfg, b, Front(log), ref.name);
    var x, y := Effect(cfg, a, Front(log)).tables, Effect(cfg, b, Front(log)).tables;
    if e == |log| - 1 {
      assert Front(log) == log[..e];
      PublishForgets(cfg, x, y, ref, Front(log), Last(log));
    } else {
      assert Front(log)[..e] == log[..e];
      SnapshotForgetsPast(cfg, a, b, Front(log), e, ref);
      CloseTablesLocal(cfg, x, y, ref.name, Front(log), Last(log));
    }
  }

  // ---------------------------------------------------------------- at a unit boundary

  /** No snapshot ends after a batch was opened: a generation begins with its snapshot. */
  predicate SnapshotFirst(log: seq<Message>) {
    forall i, j | 0 <= i < j < |log| && OpensBatch(log[i].kind) :: !log[j].kind.SnapshotEnd?
  }

  lemma {:induction false} NothingOpen(log: seq<Message>)
    requires forall i | 0 <= i < |log| :: !OpensBatch(log[i].kind)
    ensures OpenBatch(log) == []
    decreases |log|
  {
    if log != [] {
      NothingOpen(Front(log));
    }
  }

  lemma InboxEmptyIfNothingStaged(db: Database)
    requires InboxOk(db) && InOrder(db.inbox, db.generation) == []
    ensures db.openTransaction == ""
  {
    var keys := InGeneration(db.inbox, db.generation);
    OrderedSorts(keys);
    assert |Ordered(keys)| == |InOrder(db.inbox, db.generation)| == 0;
    assert keys == {};
    forall k ensures k !in db.inbox {
      assert k in db.inbox ==> k in keys;
    }
  }

  /** If the stored log ends with a closing message, everything received is applied, no transaction is open
      and no schema refresh is pending. */
  lemma ClosedLogIsQuiescent(cfg: Config, db: Database, base: Replica, log: seq<Message>)
    requires Core(cfg, db, base, log) && log != [] && Closing(Last(log).kind) && SnapshotFirst(log)
    ensures db.applied == db.received && db.openTransaction == "" && db.pendingSchema == ""
  {
    if Last(log).kind.SnapshotEnd? {
      NothingOpen(Front(log));
      InboxEmptyIfNothingStaged(db);
    }
  }
}
