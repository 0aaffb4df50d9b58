/** When a server stores what a PostgreSQL collector with a truthful source has published, exactly. */
module Admission {
  import opened Event
  import opened Target
  import opened TargetRun
  import opened Replay
  import opened Changes
  import opened Barrier
  import opened Activation
  import opened Mirror
  import opened PgSnapshot
  import opened Versions
  import CaptureStream
  import PgRows
  import Cap = Capture
  import PG = PgCollector

  // ---------------------------------------------------------------- rows

  /** The row is about a configured table and names only columns the target has. */
  predicate Placed(cfg: Config, columns: Columns, row: Row) {
    row.table in cfg.tables && row.table.name in columns && KnownTo(columns[row.table.name], row)
  }

  predicate AllPlaced(cfg: Config, columns: Columns, rows: seq<Row>) {
    forall i | 0 <= i < |rows| :: Placed(cfg, columns, rows[i])
  }

  predicate NoneSilent(rows: seq<Row>) {
    forall i | 0 <= i < |rows| :: !Silent(rows[i])
  }

  /** Truthful events that say something are admitted and repeat what happened. */
  lemma {:induction false} ToldApplies(cfg: Config, columns: Columns, tables: Tables, rows: seq<Row>, hs: seq<Happened>)
    requires PickWorks(cfg.pick) && Told(tables, rows, hs) && AllPlaced(cfg, columns, rows) && NoneSilent(rows)
    ensures ApplyRows(cfg, columns, tables, rows) == Success(HappenAll(tables, hs))
    decreases |rows|
  {
    hide PickWorks, Describes, Applicable, ApplyRow, KnownTo, Silent;
    if rows != [] {
      ToldApplies(cfg, columns, tables, Front(rows), Front(hs));
      var before, row, h := HappenAll(tables, Front(hs)), Last(rows), Last(hs);
      assert Placed(cfg, columns, row) && !Silent(row);
      DescribedChangeApplies(cfg, columns, before, row, h.change);
    }
  }

  lemma AppliedRow(cfg: Config, columns: Columns, tables: Tables, row: Row)
    requires ApplyRow(cfg, columns, tables, row).Success?
    ensures !Silent(row) && (row.operation.Insert? ==> Placed(cfg, columns, row))
  {
  }

  /** Nothing else is: among rows that were applied none is silent, and inserts name only columns the target has. */
  lemma {:induction false} AppliedRows(cfg: Config, columns: Columns, tables: Tables, rows: seq<Row>)
    requires ApplyRows(cfg, columns, tables, rows).Success?
    ensures NoneSilent(rows) && forall i | 0 <= i < |rows| && rows[i].operation.Insert? :: Placed(cfg, columns, rows[i])
    decreases |rows|
  {
    hide ApplyRow, Placed, Silent;
    if rows != [] {
      AppliedRows(cfg, columns, tables, Front(rows));
      AppliedRow(cfg, columns, ApplyRows(cfg, columns, tables, Front(rows)).value, Last(rows));
    }
  }

  // ---------------------------------------------------------------- records of a transaction

  /** An update record that sends no column. */
  predicate SilentRecord(r: PgRows.ChangeRecord) {
    r.action.UpdateAction? && r.columns == []
  }

  lemma NumberedSilent(catalog: Cap.Catalog, r: PgRows.ChangeRecord, n: nat)
    requires Cap.Numbered(catalog, r, n).Success?
    ensures Silent(Cap.Numbered(catalog, r, n).value) <==> SilentRecord(r)
  {
    var t := catalog[r.table];
    hide PgRows.Decode, PgRows.Pick, PgRows.PickEither, PgRows.KeyColumns, PgRows.HasKey, PgRows.ListsAll;
    PgRows.DecodedCount(t, r.columns);
  }

  lemma {:induction false} ConvertedSilent(catalog: Cap.Catalog, changes: seq<PgRows.ChangeRecord>)
    requires Cap.ConvertAll(catalog, changes).Some?
    ensures NoneSilent(Cap.ConvertAll(catalog, changes).value) <==> forall j | 0 <= j < |changes| ::
              !SilentRecord(changes[j])
    decreases |changes|
  {
    hide Cap.Numbered, Silent, SilentRecord;
    CaptureStream.ConvertedCount(catalog, changes);
    if changes != [] {
      ConvertedSilent(catalog, Front(changes));
      NumberedSilent(catalog, Last(changes), |changes|);
      var rows, front := Cap.ConvertAll(catalog, changes).value, Cap.ConvertAll(catalog, Front(changes)).value;
      assert Front(rows) == front && Silent(Last(rows)) == SilentRecord(Last(changes));
      assert NoneSilent(rows) <==> NoneSilent(front) && !Silent(Last(rows));
    }
  }

  /** The catalog lists configured tables, with columns the target has. */
  predicate CatalogFits(cfg: Config, columns: Columns, catalog: Cap.Catalog) {
    forall ref | ref in catalog ::
      ref in cfg.tables && ref.name in columns && PgRows.Names(catalog[ref]) <= columns[ref.name]
  }

  lemma KnownWider(a: set<string>, b: set<string>, row: Row)
    requires KnownTo(a, row) && a <= b
    ensures KnownTo(b, row)
  {
  }

  lemma ConvertedKnown(t: PgRows.PgTable, table: Table, r: PgRows.ChangeRecord, change: Change)
    requires RecordedRow(t, table, r, change) && PgRows.ConvertedRow(t, r).Success?
    ensures KnownTo(PgRows.Names(t), PgRows.ConvertedRow(t, r).value)
  {
    hide PgRows.ConvertedRow, PgRows.Emits, PgRows.WellFormed, Distinguishes, KnownTo;
    match change {
      case Inserted(after) => PgRows.InsertDescribes(t, r, after);
      case Updated(before, after) => PgRows.UpdateDescribes(t, r, before, after);
      case Deleted(before) => PgRows.DeleteDescribes(t, r, before);
    }
  }

  lemma NumberedPlaced(cfg: Config, columns: Columns, catalog: Cap.Catalog, table: Table,
                       r: PgRows.ChangeRecord, change: Change, n: nat)
    requires CatalogFits(cfg, columns, catalog) && r.table in catalog && RecordedRow(catalog[r.table], table, r, change)
    requires Cap.Numbered(catalog, r, n).Success?
    ensures Placed(cfg, columns, Cap.Numbered(catalog, r, n).value)
  {
    hide RecordedRow, PgRows.ConvertedRow, PgRows.Names, KnownTo;
    var t := catalog[r.table];
    var row := PgRows.ConvertedRow(t, r).value;
    ConvertedKnown(t, table, r, change);
    PgRows.ConvertedTable(t, r);
    KnownWider(PgRows.Names(t), columns[r.table.name], row);
    OrdinalUnknown(columns[r.table.name], row, n);
  }

  lemma OrdinalUnknown(known: set<string>, row: Row, n: nat)
    requires KnownTo(known, row)
    ensures KnownTo(known, row.(ordinal := n))
  {
  }

  lemma {:induction false} RecordedPlaced(cfg: Config, columns: Columns, catalog: Cap.Catalog, tables: Tables,
                                          changes: seq<PgRows.ChangeRecord>, hs: seq<Happened>)
    requires CatalogFits(cfg, columns, catalog) && Recorded(catalog, tables, changes, hs)
    requires Cap.ConvertAll(catalog, changes).Some?
    ensures AllPlaced(cfg, columns, Cap.ConvertAll(catalog, changes).value)
    decreases |changes|
  {
    hide CatalogFits, RecordedRow, HappenAll, Placed, Cap.Numbered;
    if changes != [] {
      RecordedPlaced(cfg, columns, catalog, tables, Front(changes), Front(hs));
      var before, r, h := HappenAll(tables, Front(hs)), Last(changes), Last(hs);
      NumberedPlaced(cfg, columns, catalog, before[h.table], r, h.change, |changes|);
    }
  }

  // ---------------------------------------------------------------- rows of a snapshot

  predicate TableKnown(env: Cap.Env, columns: Columns, shot: Shot, i: nat)
    requires i < |shot.tables| == |shot.rows| == |env.tables|
  {
    shot.rows[i] == [] || (env.tables[i].name in columns && PgRows.Names(shot.tables[i]) <= columns[env.tables[i].name])
  }

  /** The target has every column of each captured table that has a row. */
  predicate ShotKnown(env: Cap.Env, columns: Columns, shot: Shot) {
    |shot.tables| == |shot.rows| == |env.tables| &&
    forall i | 0 <= i < |env.tables| :: TableKnown(env, columns, shot, i)
  }

  /** A row that was read is placed exactly if the target has all columns of its table. */
  lemma ReadRowPlaced(cfg: Config, columns: Columns, t: PgRows.PgTable, raw: Raw, n: nat)
    requires |raw| == |t.columns| && t.ref in cfg.tables
    ensures Placed(cfg, columns, ReadRow(t, raw, n).(operation := Insert)) <==>
            t.ref.name in columns && PgRows.Names(t) <= columns[t.ref.name]
  {
    var cells := Cells(t, raw);
    forall c | c in cells ensures c.name in PgRows.Names(t) {
      var i :| 0 <= i < |cells| && cells[i] == c;
      assert t.columns[i] in t.columns;
    }
    forall name | name in PgRows.Names(t) ensures exists c | c in cells :: c.name == name {
      var c :| c in t.columns && c.name == name;
      var i :| 0 <= i < |t.columns| && t.columns[i] == c;
      assert cells[i] in cells && cells[i].name == name;
    }
  }

  lemma TablePlaced(cfg: Config, columns: Columns, t: PgRows.PgTable, raws: seq<Raw>)
    requires t.ref in cfg.tables && forall raw | raw in raws :: |raw| == |t.columns|
    ensures AllPlaced(cfg, columns, AsInserts(TableRows(t, raws))) <==>
            raws == [] || (t.ref.name in columns && PgRows.Names(t) <= columns[t.ref.name])
  {
    hide Placed, ReadRow, PgRows.Names;
    var rows := AsInserts(TableRows(t, raws));
    forall i | 0 <= i < |rows|
      ensures Placed(cfg, columns, rows[i]) <==> t.ref.name in columns && PgRows.Names(t) <= columns[t.ref.name]
    {
      assert raws[i] in raws;
      ReadRowPlaced(cfg, columns, t, raws[i], i + 1);
    }
    if raws != [] {
      assert |rows| > 0 && Placed(cfg, columns, rows[0]) == (t.ref.name in columns
             && PgRows.Names(t) <= columns[t.ref.name]);
    }
  }

  lemma PlacedConcat(cfg: Config, columns: Columns, a: seq<Row>, b: seq<Row>)
    ensures AllPlaced(cfg, columns, AsInserts(a + b)) <==>
            AllPlaced(cfg, columns, AsInserts(a)) && AllPlaced(cfg, columns, AsInserts(b))
  {
    hide Placed;
    var all := AsInserts(a + b);
    assert all == AsInserts(a) + AsInserts(b);
    assert forall i | 0 <= i < |a| :: all[i] == AsInserts(a)[i];
    assert forall i | 0 <= i < |b| :: all[|a| + i] == AsInserts(b)[i];
  }

  lemma NothingPlaced(cfg: Config, columns: Columns)
    ensures AllPlaced(cfg, columns, AsInserts([]))
  {
  }

  /** The rows of the first n tables are placed exactly if the columns of those that have rows are known. */
  lemma {:induction false} ShotPlaced(cfg: Config, env: Cap.Env, columns: Columns, shot: Shot, n: nat)
    requires ShotOf(env, shot) && n <= |shot.tables| && TableSet(env.tables) == TableSet(cfg.tables)
    ensures AllPlaced(cfg, columns, AsInserts(RowsUpTo(env, shot, n))) <==>
            forall i | 0 <= i < n :: TableKnown(env, columns, shot, i)
    decreases n
  {
    hide AllPlaced, TableRows, Cap.CatalogOf, PgRows.WellFormed, PgRows.Names, ColumnNames;
    if n == 0 {
      NothingPlaced(cfg, columns);
    } else {
      ShotPlaced(cfg, env, columns, shot, n - 1);
      var t, raws := shot.tables[n - 1], shot.rows[n - 1];
      assert TableShot(env.tables[n - 1], t, raws) && env.tables[n - 1] in TableSet(env.tables);
      TablePlaced(cfg, columns, t, raws);
      PlacedConcat(cfg, columns, RowsUpTo(env, shot, n - 1), TableRows(t, raws));
      assert TableKnown(env, columns, shot, n - 1) <==> AllPlaced(cfg, columns, AsInserts(TableRows(t, raws)));
    }
  }

  lemma ShotRowsPlaced(cfg: Config, env: Cap.Env, columns: Columns, shot: Shot)
    requires ShotOf(env, shot) && TableSet(env.tables) == TableSet(cfg.tables)
    ensures AllPlaced(cfg, columns, AsInserts(ShotRows(env, shot))) <==> ShotKnown(env, columns, shot)
  {
    hide AllPlaced, RowsUpTo, Cap.CatalogOf, TableShot, PgRows.Names, ColumnNames;
    ShotPlaced(cfg, env, columns, shot, |shot.tables|);
  }

  lemma InsertsNotSilent(rows: seq<Row>)
    ensures NoneSilent(AsInserts(rows))
  {
  }

  // ---------------------------------------------------------------- a published log and a server

  /** What was published for generation `g`, offered to a server with database `db`. */
  datatype Offer = Offer(cfg: Config, env: Cap.Env, src: PG.Source, account: PG.Account, db: Database, g: string,
                         log: seq<Message>)

  /** The server has not seen this generation, has its tables and can take its schemas. */
  ghost predicate Ready(o: Offer) {
    && ProperTables(o.cfg.tables) && TableSet(o.env.tables) == TableSet(o.cfg.tables) && PickWorks(o.cfg.pick)
    && o.db.generation != o.g && |o.log| <= MaxBigint
    && (forall i | 0 <= i < |o.log| :: Takes(o.cfg, Grown(o.db.columns, o.log[..i]), o.log[i]))
    && (forall ref | ref in o.env.tables :: ref.name in o.db.tables)
  }

  /** Different catalogs have different schema hashes. */
  ghost predicate FaithfulHash(env: Cap.Env) {
    forall a, b :: env.hash(a) == env.hash(b) ==> a == b
  }

  ghost predicate LogFits(o: Offer) {
    PG.LogOk(o.cfg, o.env, o.src, o.account, o.log)
  }

  ghost predicate Honest(o: Offer) {
    && PG.Proper(o.env, o.src) && FaithfulHash(o.env) && LogFits(o) && PG.Truthful(o.src, o.account)
    && forall i | 0 <= i < |o.log| :: o.log[i].generation == o.g && o.log[i].seqNo == i + 1
  }

  ghost predicate Offered(o: Offer) {
    Honest(o) && Ready(o)
  }

  /** Every published transaction has a row in a captured table. */
  predicate Full(account: PG.Account) {
    forall i | 0 <= i < |account.done| :: account.done[i].tx.changes != []
  }

  predicate VoicedAt(changes: seq<PgRows.ChangeRecord>) {
    forall j | 0 <= j < |changes| :: !SilentRecord(changes[j])
  }

  /** Every published update sends a column. */
  predicate Voiced(account: PG.Account) {
    forall i | 0 <= i < |account.done| :: VoicedAt(account.done[i].tx.changes)
  }

  /** The three things that keep a truthful log from being stored do not occur: a transaction without rows, an update
      without columns, a snapshot row with a column the target did not have before the snapshot. */
  predicate Storable(env: Cap.Env, columns: Columns, account: PG.Account) {
    Full(account) && Voiced(account) && ShotKnown(env, columns, account.shot)
  }

  function Before(o: Offer, n: nat): seq<Message> {
    if n <= |o.log| then o.log[..n] else o.log
  }

  function Spoken(o: Offer, n: nat): Option<Stream> {
    SpeakAll(TableSet(o.cfg.tables), Stream.Fresh, Before(o, n))
  }

  /** The server stands where the stream of the first n messages says. */
  ghost predicate Stands(o: Offer, n: nat, d: Database) {
    && Spoken(o, n).Some? && Follows(o.cfg, d, Spoken(o, n).value) && d.generation == o.g && d.received == n
    && Learned(o.cfg, o.db.columns, Before(o, n), Spoken(o, n).value, d)
    && Represents(o.cfg, d, Replica(o.db.tables, o.db.files), Before(o, n))
  }

  /** The server in state d stores message n. */
  ghost predicate Stores(o: Offer, n: nat, d: Database) {
    n < |o.log| && Store(o.cfg, d, o.log[n]).Success?
  }

  ghost function After(o: Offer, n: nat, d: Database): Database {
    if Stores(o, n, d) then Store(o.cfg, d, o.log[n]).value else d
  }

  /** The first n messages are stored. */
  ghost predicate Reaches(o: Offer, n: nat) {
    StoreAll(o.cfg, o.db, Before(o, n)).Success?
  }

  ghost function Reached(o: Offer, n: nat): Database {
    if Reaches(o, n) then StoreAll(o.cfg, o.db, Before(o, n)).value else o.db
  }

  /** The data message n applies is admitted. */
  ghost predicate Admitted(o: Offer, n: nat, d: Database) {
    n < |o.log| && NextTables(o.cfg, d, o.log[n]).Success?
  }

  lemma BeforeNext(o: Offer, n: nat)
    requires n < |o.log|
    ensures Before(o, n + 1) == Before(o, n) + [o.log[n]] && Before(o, n + 1)[..n] == Before(o, n)
    ensures |Before(o, n)| == n && Before(o, |o.log|) == o.log
  {
  }

  lemma ReachNext(o: Offer, n: nat)
    requires n < |o.log|
    ensures Reaches(o, n + 1) <==> Reaches(o, n) && Stores(o, n, Reached(o, n))
    ensures Reaches(o, n + 1) ==> Reached(o, n + 1) == After(o, n, Reached(o, n))
  {
    hide Store;
    BeforeNext(o, n);
  }

  lemma {:induction false} SpeakPrefix(tables: set<TableRef>, log: seq<Message>, n: nat)
    requires SpeakAll(tables, Stream.Fresh, log).Some? && n <= |log|
    ensures SpeakAll(tables, Stream.Fresh, log[..n]).Some?
    decreases |log|
  {
    hide Speak;
    if n == |log| {
      assert log[..n] == log;
    } else {
      SpeakPrefix(tables, log[..|log| - 1], n);
      assert log[..|log| - 1][..n] == log[..n];
    }
  }

  predicate SpeaksNext(o: Offer, n: nat) {
    && n < |o.log| && Spoken(o, n).Some?
    && Speak(TableSet(o.cfg.tables), Spoken(o, n).value, o.log[n]).Some?
    && Spoken(o, n + 1) == Speak(TableSet(o.cfg.tables), Spoken(o, n).value, o.log[n])
  }

  lemma SpeakNext(o: Offer, n: nat)
    requires SpeakAll(TableSet(o.cfg.tables), Stream.Fresh, o.log).Some? && n < |o.log|
    ensures SpeaksNext(o, n)
  {
    hide Speak;
    SpeakPrefix(TableSet(o.cfg.tables), o.log, n + 1);
    BeforeNext(o, n);
  }

  lemma OfferParts(o: Offer)
    requires Offered(o)
    ensures LogFits(o) && SpeakAll(TableSet(o.cfg.tables), Stream.Fresh, o.log).Some? && PickWorks(o.cfg.pick)
    ensures ProperTables(o.cfg.tables) && TableSet(o.env.tables) == TableSet(o.cfg.tables) && FaithfulHash(o.env)
    ensures Dated(o.env, o.account.first, o.log, o.account.done) && |o.log| <= MaxBigint && o.db.generation != o.g
    ensures forall ref | ref in o.env.tables :: ref.name in o.db.tables
  {
    hide PG.Proper, PG.Shows, PG.Opened, PG.Mirrored, PG.DoneFits, SpeakAll, PG.Truthful, Takes, PickWorks,
         ProperTables, Dated;
  }

  predicate MessageFits(o: Offer, n: nat) {
    n < |o.log| && o.log[n].generation == o.g && o.log[n].seqNo == n + 1 <= MaxBigint
    && Takes(o.cfg, Grown(o.db.columns, Before(o, n)), o.log[n])
  }

  lemma MessageAt(o: Offer, n: nat)
    requires Offered(o) && n < |o.log|
    ensures MessageFits(o, n)
  {
    hide Takes, PickWorks, ProperTables, PG.Proper, LogFits, PG.Truthful;
  }

  // ---------------------------------------------------------------- as far as it is stored, the server stands there

  /** The first message is always stored. */
  lemma FirstStands(o: Offer)
    requires Offered(o) && o.log != []
    ensures Stores(o, 0, o.db) && Stands(o, 1, After(o, 0, o.db))
  {
    hide Offered, PickWorks, Takes, Follows, Speak, Accept, Represents, ProperTables, Learned, Dated, LogFits;
    OfferParts(o);
    MessageAt(o, 0);
    SpeakNext(o, 0);
    BeforeNext(o, 0);
    var m := o.log[0];
    assert Spoken(o, 0) == Some(Stream.Fresh);
    FirstAdmitted(o.cfg, o.db, m);
    FirstLearned(o.cfg, o.db, m, Store(o.cfg, o.db, m).value);
    RestartRepresents(o.cfg, o.db, m);
    AcceptExtendsLog(o.cfg, Restart(o.db, m), Replica(o.db.tables, o.db.files), [], m);
    assert [] + [m] == [m] == Before(o, 1);
  }

  lemma NextStands(o: Offer, n: nat, d: Database)
    requires Offered(o) && 0 < n && Stands(o, n, d) && Stores(o, n, d)
    ensures Stands(o, n + 1, After(o, n, d))
  {
    hide Offered, PickWorks, Takes, Follows, SpeakAll, Speak, Store, Represents, ProperTables, Learned, Dated, LogFits,
         Before;
    OfferParts(o);
    MessageAt(o, n);
    SpeakNext(o, n);
    BeforeNext(o, n);
    var s, m := Spoken(o, n).value, o.log[n];
    LearnedColumns(o, n, s, d);
    NextAdmitted(o.cfg, d, s, m);
    StoredIsAccepted(o.cfg, d, m);
    AcceptWidens(o.cfg, d, m);
    AcceptExtendsLog(o.cfg, d, Replica(o.db.tables, o.db.files), Before(o, n), m);
    LearnedNext(o.cfg, o.db.columns, Before(o, n), s, d, m);
  }

  lemma LearnedColumns(o: Offer, n: nat, s: Stream, d: Database)
    requires Learned(o.cfg, o.db.columns, Before(o, n), s, d)
    ensures d.columns == Grown(o.db.columns, Before(o, n))
  {
  }

  lemma {:induction false} PrefixStands(o: Offer, n: nat)
    requires Offered(o) && 0 < n <= |o.log| && Reaches(o, n)
    ensures Stands(o, n, Reached(o, n))
    decreases n
  {
    hide Offered, Stands, Stores, After, Reaches, Reached;
    ReachNext(o, n - 1);
    if n == 1 {
      NothingReached(o);
      FirstStands(o);
    } else {
      PrefixStands(o, n - 1);
      NextStands(o, n - 1, Reached(o, n - 1));
    }
  }

  lemma NothingReached(o: Offer)
    ensures Reaches(o, 0) && Reached(o, 0) == o.db
  {
  }

  lemma {:induction false} PrefixReached(o: Offer, n: nat, m: nat)
    requires n <= m <= |o.log| && Reaches(o, m)
    ensures Reaches(o, n)
    decreases m
  {
    hide Reaches, Reached, Stores;
    if n < m {
      ReachNext(o, m - 1);
      PrefixReached(o, n, m - 1);
    }
  }

  // ---------------------------------------------------------------- the snapshot

  /** The tables of the target are never created or dropped. */
  lemma {:induction false} EffectKeepsTables(cfg: Config, base: Replica, log: seq<Message>)
    ensures Effect(cfg, base, log).tables.Keys == base.tables.Keys
    decreases |log|
  {
    hide CloseFiles, OpenBatch, OpenSnapshot, OpenScope;
    if log != [] {
      EffectKeepsTables(cfg, base, Front(log));
      var tables := Effect(cfg, base, Front(log)).tables;
      PatchKeepsTables(cfg.pick, tables, AllRows(OpenBatch(Front(log))));
      PatchKeepsTables(cfg.pick, Cleared(tables, OpenScope(Front(log))), AsInserts(OpenSnapshot(Front(log))));
    }
  }

  lemma {:induction false} PatchKeepsTables(pick: (Table, seq<Column>) -> Image, tables: Tables, rows: seq<Row>)
    ensures PatchRows(pick, tables, rows).Keys == tables.Keys
    decreases |rows|
  {
    hide Patch;
    if rows != [] {
      PatchKeepsTables(pick, tables, Front(rows));
    }
  }

  lemma TablesThere(o: Offer, n: nat, d: Database)
    requires Stands(o, n, d) && forall ref | ref in o.env.tables :: ref.name in o.db.tables
    ensures forall ref | ref in o.env.tables :: ref.name in Cleared(d.tables, o.env.tables)
  {
    hide Follows, SpeakAll, Learned, Inv, Logged, InOrder, Settled, Effect;
    EffectKeepsTables(o.cfg, Replica(o.db.tables, o.db.files), Before(o, n));
  }

  /** The position of the snapshot's end marker. */
  function Seal(o: Offer): nat {
    if o.account.first == [] then 0 else |o.account.first| - 1
  }

  predicate SealFits(o: Offer) {
    && 0 < Seal(o) < |o.log| && o.log[Seal(o)].kind.SnapshotEnd? && |o.account.first| == Seal(o) + 1
    && (forall i | 0 <= i < Seal(o) :: !Applies(o.log[i].kind))
  }

  lemma SealAt(o: Offer)
    requires LogFits(o)
    ensures SealFits(o) && ShotOf(o.env, o.account.shot)
    ensures OpenScope(Before(o, Seal(o))) == o.env.tables
            && OpenSnapshot(Before(o, Seal(o))) == ShotRows(o.env, o.account.shot)
  {
    hide ShotMessages, ShotRows, SpeakAll, MirrorsAt, Dated, OpenScope, OpenSnapshot, OpenBatch, Ends, PG.Shows,
         PG.DoneFits;
    var shot, first := o.account.shot, o.account.first;
    assert Mirrors(o.cfg, Replica(map[], map[]), first, o.log, o.account.done);
    ShotOpen(o.env, shot, o.env.hash(shot.schemas), first);
    ShotLong(o.env, shot, o.env.hash(shot.schemas), first);
    assert Front(first) == Before(o, Seal(o));
    assert forall i | 0 <= i < |first| :: o.log[i] == first[i];
  }

  lemma ShotLong(env: Cap.Env, shot: Shot, version: string, log: seq<Message>)
    requires ShotLog(env, shot, version, log)
    ensures 1 < |log|
  {
    hide ShotRows, Opening;
    OpeningCount(env, shot);
    assert |Cap.Payloads(log)| == |log|;
  }

  /** The snapshot's end marker applies the rows that were read, to the columns of before. */
  ghost predicate AppliesShot(o: Offer, d: Database) {
    && Seal(o) < |o.log| && ShotOf(o.env, o.account.shot)
    && NextTables(o.cfg, d, o.log[Seal(o)])
       == ApplyRows(o.cfg, o.db.columns, Cleared(d.tables, o.env.tables), AsInserts(ShotRows(o.env, o.account.shot)))
  }

  lemma SnapshotEndAt(o: Offer, d: Database)
    requires Offered(o) && Stands(o, Seal(o), d)
    ensures AppliesShot(o, d)
  {
    hide Offered, LogFits, ShotOf, ShotRows, Follows, SpeakAll, InOrder, Inv, Logged, Settled, ApplyRows, OpenBatch,
         OpenScope, OpenSnapshot, Dated, Pending, Current, Covers, Waiting, Wider, Effect, Before, ProperTables,
         FaithfulHash, PickWorks, Takes;
    OfferParts(o);
    SealAt(o);
    MessageAt(o, Seal(o));
    SpeakNext(o, Seal(o));
  }

  /** The rows of the snapshot apply exactly if their columns are known. */
  lemma SnapshotApplies(o: Offer, d: Database)
    requires Offered(o) && Stands(o, Seal(o), d)
    ensures Admitted(o, Seal(o), d) <==> ShotKnown(o.env, o.db.columns, o.account.shot)
  {
    hide Offered, LogFits, Stands, ShotKnown, ShotOf, PickWorks, ApplyRows, RowsUpTo, Told, AllPlaced, NoneSilent,
         NextTables, Dated, ProperTables, FaithfulHash, TableSet, Placed, SpeakAll;
    var shot, cleared := o.account.shot, Cleared(d.tables, o.env.tables);
    OfferParts(o);
    SnapshotEndAt(o, d);
    TablesThere(o, Seal(o), d);
    var rows := AsInserts(ShotRows(o.env, shot));
    ShotRowsPlaced(o.cfg, o.env, o.db.columns, shot);
    if AllPlaced(o.cfg, o.db.columns, rows) {
      ShotTold(o.env, shot, cleared, |shot.tables|);
      InsertsNotSilent(ShotRows(o.env, shot));
      ToldApplies(o.cfg, o.db.columns, cleared, rows, InsertedUpTo(o.env, shot, |shot.tables|));
    } else if ApplyRows(o.cfg, o.db.columns, cleared, rows).Success? {
      AppliedRows(o.cfg, o.db.columns, cleared, rows);
      InsertsPlaced(o.cfg, o.db.columns, ShotRows(o.env, shot));
    }
  }

  lemma InsertsPlaced(cfg: Config, columns: Columns, rows: seq<Row>)
    requires var all := AsInserts(rows); forall i | 0 <= i < |all| && all[i].operation.Insert? ::
               Placed(cfg, columns, all[i])
    ensures AllPlaced(cfg, columns, AsInserts(rows))
  {
    hide Placed;
  }

  // ---------------------------------------------------------------- transactions

  /** Message n closes the k-th published transaction. */
  predicate Closes(o: Offer, n: nat, k: nat) {
    && |o.account.first| <= n < |o.log| && o.log[n].kind.TransactionEnd? && k < |o.account.done|
    && Ends(Before(o, n)) == Ends(o.account.first) + k
  }

  /** Its open rows are those of the transaction. */
  ghost predicate ClosesRows(o: Offer, n: nat, k: nat) {
    && Closes(o, n, k)
    && Cap.ConvertAll(o.account.done[k].tables, o.account.done[k].tx.changes) == Some(AllRows(OpenBatch(Before(o, n))))
    && (LoneEnd(o.log, n) <==> o.account.done[k].tx.changes == [])
  }

  lemma CommitConverts(o: Offer, k: nat)
    requires LogFits(o) && k < |o.account.done|
    ensures Cap.ConvertAll(o.account.done[k].tables, o.account.done[k].tx.changes).Some?
  {
    hide PG.Shows, PG.Opened, PG.Mirrored, SpeakAll, Cap.ConvertAll, Dated;
  }

  lemma MirrorAt(o: Offer, base: Replica, n: nat)
    requires LogFits(o) && |o.account.first| <= n <= |o.log|
    ensures MirrorsAt(o.cfg, base, o.account.first, o.log, o.account.done, n)
  {
    hide PG.Shows, PG.Opened, PG.DoneFits, SpeakAll, Dated, MirrorsAt, OpenBatch, Ends;
    assert Mirrors(o.cfg, base, o.account.first, o.log, o.account.done);
  }

  predicate IsEnd(o: Offer, n: nat) {
    n < |o.log| && o.log[n].kind.TransactionEnd?
  }

  /** Every end marker of the log closes one. */
  lemma EndCloses(o: Offer, n: nat) returns (k: nat)
    requires LogFits(o) && IsEnd(o, n)
    ensures ClosesRows(o, n, k)
  {
    hide LogFits, Effect, Patched, Ends, OpenBatch, AllRows, Cap.ConvertAll, ShotOf, OpenScope, OpenSnapshot;
    SealAt(o);
    MirrorAt(o, Replica(map[], map[]), n);
    k := Ends(o.log[..n]) - Ends(o.account.first);
    CommitConverts(o, k);
    CaptureStream.ConvertedCount(o.account.done[k].tables, o.account.done[k].tx.changes);
  }

  /** Each end after the first part of a log is found by its number. */
  lemma {:induction false} EndNumbered(first: seq<Message>, log: seq<Message>, k: nat) returns (n: nat)
    requires first <= log && k < Ends(log) - Ends(first)
    ensures |first| <= n < |log| && log[n].kind.TransactionEnd? && Ends(log[..n]) == Ends(first) + k
    decreases |log|
  {
    assert log != first;
    n := |log| - 1;
    if !(log[n].kind.TransactionEnd? && Ends(log[..n]) == Ends(first) + k) {
      n := EndNumbered(first, Front(log), k);
      assert Front(log)[..n] == log[..n];
    }
  }

  /** Every published transaction is closed by one. */
  lemma EndOf(o: Offer, k: nat) returns (n: nat)
    requires LogFits(o) && k < |o.account.done|
    ensures Closes(o, n, k)
  {
    hide PG.Shows, PG.Opened, PG.Mirrored, PG.DoneFits, SpeakAll, Ends, Hashed, Catalogued;
    n := EndNumbered(o.account.first, o.log, k);
  }

  lemma ClosesOne(o: Offer, n: nat, j: nat, k: nat)
    requires Closes(o, n, j) && Closes(o, n, k)
    ensures j == k
  {
  }

  lemma ClosedRows(o: Offer, n: nat, k: nat)
    requires LogFits(o) && Closes(o, n, k)
    ensures ClosesRows(o, n, k)
  {
    hide LogFits, Ends, LoneEnd, Cap.ConvertAll, AllRows, OpenBatch;
    var j := EndCloses(o, n);
    ClosesOne(o, n, j, k);
  }

  lemma TrueAt(tables: Tables, done: seq<Cap.Published>, hs: seq<seq<Happened>>, k: nat)
    requires TrueLog(tables, done, hs) && k < |done|
    ensures k < |hs| == |done| && TrueLogAt(tables, done, hs, k)
  {
  }

  ghost predicate RecordedAt(o: Offer, base: Replica, n: nat, k: nat, hs: seq<Happened>) {
    k < |o.account.done| &&
    Recorded(o.account.done[k].tables, Effect(o.cfg, base, Before(o, n)).tables, o.account.done[k].tx.changes, hs)
  }

  /** The source logged that transaction truthfully about the tables as the target has them then. */
  lemma RecordedAtEnd(o: Offer, base: Replica, n: nat, k: nat) returns (hs: seq<Happened>)
    requires Offered(o) && Closes(o, n, k) && forall ref | ref in o.env.tables :: ref.name in base.tables
    ensures RecordedAt(o, base, n, k, hs)
  {
    hide PickWorks, Effect, Ends, Agree, TrueLog, SpeakAll, PG.Shows, PG.Opened, SourceAfter, CaptureStream.Captures,
         Cap.FaithfulLsn, DistinctNames, Touches, Recorded, Patched, OpenBatch, AllRows, Cap.ConvertAll, Dated,
         FaithfulHash, NextFits, Takes, ProperTables;
    var account := o.account;
    var past, end := account.shot.past, account.shot.past + |account.done|;
    var there, here, all := PG.TablesAfter(o.src, past), Effect(o.cfg, base, account.first).tables,
      o.src.happened[past..end];
    PG.SnapshotMirrors(o.cfg, o.env, o.src, account, base);
    TrueLogLocal(PG.Names(o.env), there, here, account.done, all);
    MirrorAt(o, base, n);
    PatchedIsSource(o.cfg.pick, here, account.done, all, k);
    assert TrueLogAt(here, account.done, all, k) by { TrueAt(here, account.done, all, k); }
    hs := all[k];
  }

  ghost predicate CatalogKnown(o: Offer, k: nat, d: Database) {
    k < |o.account.done| && CatalogFits(o.cfg, d.columns, o.account.done[k].tables)
  }

  /** The target has the columns of the catalog a transaction was converted with: they were announced before. */
  lemma AnnouncedBefore(o: Offer, n: nat, k: nat, d: Database)
    requires Offered(o) && Closes(o, n, k) && Stands(o, n, d)
    ensures CatalogKnown(o, k, d)
  {
    hide Offered, LogFits, PickWorks, Follows, Represents, SpeakAll, Hashed, Ends, Current, Pending, Waiting, Wider,
         ColumnNames, PgRows.Names, ProperTables;
    OfferParts(o);
    SpeakNext(o, n);
    HashedPrefix(o.env, o.log, n);
    CurrentVersion(o.env, TableSet(o.cfg.tables), Before(o, n));
    assert CataloguedAt(o.env, o.account.first, o.log, o.account.done, n);
    var catalog := o.account.done[k].tables;
    var schemas :| o.env.hash(schemas) == o.log[n].schemaVersion && Cap.Catalogs(schemas, catalog);
    assert schemas == Current(Before(o, n));
  }

  /** What the server reads back from its inbox for the end of a transaction is the open batch. */
  ghost predicate AppliesBatch(o: Offer, n: nat, d: Database) {
    && n < |o.log|
    && NextTables(o.cfg, d, o.log[n]) == ApplyRows(o.cfg, d.columns, d.tables, AllRows(OpenBatch(Before(o, n))))
    && d.tables == Effect(o.cfg, Replica(o.db.tables, o.db.files), Before(o, n)).tables
  }

  lemma BatchRows(o: Offer, n: nat, d: Database)
    requires Offered(o) && IsEnd(o, n) && Stands(o, n, d)
    ensures AppliesBatch(o, n, d)
  {
    hide Offered, LogFits, InOrder, Learned, Effect, Logged, Settled, OpenBatch, AllRows, RowsOf, SpeakAll, StagedIs,
         ApplyRows, Before, Dated, PickWorks, ProperTables, FaithfulHash, TableSet, Takes;
    OfferParts(o);
    MessageAt(o, n);
    SpeakNext(o, n);
    OpenInside(TableSet(o.cfg.tables), Before(o, n));
    var batch := InOrder(d.inbox, o.g);
    forall m | m in batch ensures m.transaction == o.log[n].transaction {
      InboxCarriesOpenTransaction(d, m);
    }
    RowsOfBatch(batch, o.log[n].transaction);
  }

  /** The rows of a transaction apply exactly if none of its updates is silent. */
  lemma TransactionApplies(o: Offer, n: nat, k: nat, d: Database)
    requires Offered(o) && Closes(o, n, k) && Stands(o, n, d)
    ensures Admitted(o, n, d) <==> VoicedAt(o.account.done[k].tx.changes)
  {
    hide Offered, LogFits, Stands, PickWorks, SpeakAll, NoneSilent, ApplyRows, OpenBatch, Effect, AllRows, Ends, Told,
         Recorded, AllPlaced, SilentRecord, NextTables, Dated, LoneEnd, FaithfulHash, Cap.ConvertAll, ProperTables,
         TableSet, Placed, Before, CatalogFits;
    OfferParts(o);
    ClosedRows(o, n, k);
    BatchRows(o, n, d);
    var done, rows := o.account.done[k], AllRows(OpenBatch(Before(o, n)));
    ConvertedSilent(done.tables, done.tx.changes);
    if NoneSilent(rows) {
      var hs := RecordedAtEnd(o, Replica(o.db.tables, o.db.files), n, k);
      AnnouncedBefore(o, n, k, d);
      RecordedPlaced(o.cfg, d.columns, done.tables, d.tables, done.tx.changes, hs);
      RecordedIsTold(done.tables, d.tables, done.tx.changes, hs);
      ToldApplies(o.cfg, d.columns, d.tables, rows, hs);
    } else if ApplyRows(o.cfg, d.columns, d.tables, rows).Success? {
      AppliedRows(o.cfg, d.columns, d.tables, rows);
    }
  }

  // ---------------------------------------------------------------- lone ends

  /** The log has a lone end exactly if a transaction without rows was published. */
  lemma LoneEndsAreEmpty(o: Offer)
    requires LogFits(o)
    ensures HasLoneEnd(o.log) <==> !Full(o.account)
  {
    hide LogFits, LoneEnd, Closes, Cap.ConvertAll;
    if HasLoneEnd(o.log) {
      var n :| 0 <= n < |o.log| && LoneEnd(o.log, n);
      assert o.log[n].kind.TransactionEnd? by { LoneIsEnd(o.log, n); }
      var k := EndCloses(o, n);
      ClosesDone(o, n, k);
    }
    if !Full(o.account) {
      var k :| 0 <= k < |o.account.done| && o.account.done[k].tx.changes == [];
      var n := EndOf(o, k);
      ClosesDone(o, n, k);
      ClosedRows(o, n, k);
    }
  }

  lemma ClosesDone(o: Offer, n: nat, k: nat)
    requires Closes(o, n, k)
    ensures n < |o.log| && k < |o.account.done|
  {
  }

  lemma LoneIsEnd(log: seq<Message>, n: nat)
    requires n < |log| && LoneEnd(log, n)
    ensures log[n].kind.TransactionEnd?
  {
  }

  /** Where every transaction has rows no next message is a lone end. */
  lemma NextNotLone(o: Offer, n: nat)
    requires LogFits(o) && Full(o.account) && n < |o.log| && Spoken(o, n).Some?
    ensures !Lone(Spoken(o, n).value, o.log[n])
  {
    hide LogFits, Ends, SpeakAll, Cap.ConvertAll, OpenBatch;
    if Lone(Spoken(o, n).value, o.log[n]) {
      var k := EndCloses(o, n);
      OpenInside(TableSet(o.cfg.tables), Before(o, n));
    }
  }

  // ---------------------------------------------------------------- the whole log

  lemma NextKind(o: Offer, n: nat)
    requires LogFits(o) && |o.account.first| <= n < |o.log|
    ensures Cap.IsTx(o.log[n]) || o.log[n].kind.SchemaTable? || o.log[n].kind.SchemaEnd?
  {
    hide LogFits, Effect, Patched, Ends, OpenBatch;
    MirrorAt(o, Replica(map[], map[]), n);
  }

  /** The data of a message to be applied is admitted. */
  lemma DataApplies(o: Offer, n: nat, d: Database)
    requires Offered(o) && Storable(o.env, o.db.columns, o.account) && n < |o.log| && Stands(o, n, d)
             && Applies(o.log[n].kind)
    ensures Admitted(o, n, d) && NextFiles(o.cfg, d, o.log[n]).Success?
  {
    hide Offered, LogFits, Stands, Admitted, ShotOf, ShotRows, SpeakAll, Dated, ShotKnown, VoicedAt, OpenScope,
         OpenSnapshot, Ends, Full, PickWorks, ProperTables, FaithfulHash, TableSet, Before, Cap.ConvertAll, LoneEnd,
         OpenBatch, AllRows;
    OfferParts(o);
    SealAt(o);
    if n < |o.account.first| {
      SnapshotApplies(o, d);
    } else {
      NextKind(o, n);
      var k := EndCloses(o, n);
      TransactionApplies(o, n, k, d);
    }
  }

  /** The next message is stored. */
  lemma NextStored(o: Offer, n: nat, d: Database)
    requires Offered(o) && Storable(o.env, o.db.columns, o.account) && n < |o.log| && Stands(o, n, d)
    ensures Stores(o, n, d)
  {
    hide Offered, LogFits, PickWorks, Takes, Follows, SpeakAll, Speak, Store, Represents, NextTables, NextFiles,
         ProperTables, Full, Lone, Dated, Learned, ShotKnown, Voiced, FaithfulHash;
    OfferParts(o);
    MessageAt(o, n);
    SpeakNext(o, n);
    var s, m := Spoken(o, n).value, o.log[n];
    LearnedColumns(o, n, s, d);
    if Applies(m.kind) {
      DataApplies(o, n, d);
    }
    NextNotLone(o, n);
    DataDecides(o.cfg, d, s, m);
  }

  /** Everything up to any point is stored. */
  lemma {:induction false} StorableIsStored(o: Offer, n: nat)
    requires Offered(o) && Storable(o.env, o.db.columns, o.account) && n <= |o.log|
    ensures Reaches(o, n)
    decreases n
  {
    hide Offered, Stands, Stores, After, Reaches, Reached, Storable;
    if n == 0 {
      NothingReached(o);
    } else {
      StorableIsStored(o, n - 1);
      ReachNext(o, n - 1);
      if n == 1 {
        NothingReached(o);
        FirstStands(o);
      } else {
        PrefixStands(o, n - 1);
        NextStored(o, n - 1, Reached(o, n - 1));
      }
    }
  }

  /** A message that was stored had its data admitted. */
  lemma StoredApplied(o: Offer, n: nat) returns (d: Database)
    requires Offered(o) && 0 < n < |o.log| && Reaches(o, |o.log|)
    ensures Stands(o, n, d) && Admitted(o, n, d)
  {
    hide Offered, Stands, Reaches, Reached, Store, NextTables, LogFits, Takes;
    PrefixReached(o, n, |o.log|);
    PrefixReached(o, n + 1, |o.log|);
    PrefixStands(o, n);
    ReachNext(o, n);
    d := Reached(o, n);
    StandsParts(o, n, d);
    MessageAt(o, n);
    StoredIsAccepted(o.cfg, d, o.log[n]);
    AcceptedApplied(o.cfg, d, o.log[n]);
  }

  lemma StandsParts(o: Offer, n: nat, d: Database)
    requires Stands(o, n, d)
    ensures d.generation == o.g && d.received == n
  {
  }

  lemma AcceptedApplied(cfg: Config, db: Database, m: Message)
    requires Accept(cfg, db, m).Success?
    ensures NextTables(cfg, db, m).Success?
  {
    hide VersionGate, TransactionGate, NextTables, NextFiles, SchemaAllows, PhaseAllows;
  }

  /** A log that was stored meets the conditions. */
  lemma StoredIsStorable(o: Offer)
    requires Offered(o) && Reaches(o, |o.log|)
    ensures Voiced(o.account) && ShotKnown(o.env, o.db.columns, o.account.shot)
  {
    hide Offered, LogFits, Stands, Reaches, ShotKnown, ShotOf, ShotRows, Admitted, Dated, OpenScope, OpenSnapshot,
         VoicedAt, Closes, Before, SpeakAll, PickWorks, ProperTables, FaithfulHash, TableSet;
    OfferParts(o);
    SealAt(o);
    var d := StoredApplied(o, Seal(o));
    SnapshotApplies(o, d);
    forall i | 0 <= i < |o.account.done| ensures VoicedAt(o.account.done[i].tx.changes) {
      var n := EndOf(o, i);
      ClosesDone(o, n, i);
      ClosesLate(o, n, i);
      var d := StoredApplied(o, n);
      TransactionApplies(o, n, i, d);
    }
  }

  lemma ClosesLate(o: Offer, n: nat, k: nat)
    requires SealFits(o) && Closes(o, n, k)
    ensures n > 0
  {
  }

  /** Nor does it have a lone end. */
  lemma StoredIsFull(o: Offer)
    requires Offered(o) && Reaches(o, |o.log|)
    ensures Full(o.account)
  {
    hide Offered, LogFits, SpeakAll, Reaches, Full, Takes, ProperTables, PickWorks, Dated, FaithfulHash, TableSet,
         LoneEnd, Store, ShotOf, ShotRows, OpenScope, OpenSnapshot;
    OfferParts(o);
    SealAt(o);
    LoneEndsAreEmpty(o);
    if HasLoneEnd(o.log) {
      var n :| 0 <= n < |o.log| && LoneEnd(o.log, n);
      LoneLate(o, n);
      PrefixReached(o, n, |o.log|);
      PrefixReached(o, n + 1, |o.log|);
      ReachNext(o, n);
      PrefixStands(o, n);
      LoneStops(o, n, Reached(o, n));
    }
  }

  lemma LoneLate(o: Offer, n: nat)
    requires SealFits(o) && n < |o.log| && LoneEnd(o.log, n)
    ensures n > 0
  {
  }

  lemma LoneStops(o: Offer, n: nat, d: Database)
    requires Offered(o) && n < |o.log| && LoneEnd(o.log, n) && Stands(o, n, d)
    ensures !Stores(o, n, d)
  {
    hide Offered, LogFits, SpeakAll, Takes, ProperTables, PickWorks, Dated, FaithfulHash, TableSet, Learned, Represents,
         Follows, Store, OpenBatch;
    OfferParts(o);
    MessageAt(o, n);
    SpeakNext(o, n);
    OpenInside(TableSet(o.cfg.tables), Before(o, n));
    LoneEndRefused(o.cfg, d, Spoken(o, n).value.version, o.log[n]);
  }

  /** A server that has the captured tables and can take their schemas stores the whole of a truthfully logged
      stream if and only if every transaction in it has a row, every update sends a column, and the columns of the
      snapshot's rows were there before the snapshot. Its tables are then the fold of the log. */
  lemma TruthfulIsStored(o: Offer)
    requires Honest(o) && Ready(o)
    ensures Reaches(o, |o.log|) <==> Storable(o.env, o.db.columns, o.account)
    ensures Reaches(o, |o.log|) ==>
              var d := Reached(o, |o.log|);
              d.received == |o.log| && d.tables == Effect(o.cfg, Replica(o.db.tables, o.db.files), o.log).tables
  {
    hide Honest, Ready, Stands, Effect, Reaches, Reached, Full, Voiced, ShotKnown, LogFits, ShotOf, ShotRows, OpenScope,
         OpenSnapshot, SpeakAll, PickWorks, ProperTables, Dated, FaithfulHash, TableSet;
    OfferParts(o);
    SealAt(o);
    if Storable(o.env, o.db.columns, o.account) {
      StorableIsStored(o, |o.log|);
    }
    if Reaches(o, |o.log|) {
      StoredIsStorable(o);
      StoredIsFull(o);
      PrefixStands(o, |o.log|);
      StoredTables(o, Reached(o, |o.log|));
    }
  }

  lemma StoredTables(o: Offer, d: Database)
    requires Stands(o, |o.log|, d)
    ensures d.received == |o.log| && d.tables == Effect(o.cfg, Replica(o.db.tables, o.db.files), o.log).tables
  {
    hide Follows, Learned, SpeakAll, Effect, Inv, Logged, InOrder, Settled;
    assert Before(o, |o.log|) == o.log;
  }
}
