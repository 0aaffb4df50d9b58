/** The replica mirrors the source: every prefix of the log the PostgreSQL capture publishes, applied by the
    reference fold, gives the source's tables as they were after a whole number of committed transactions. */
module Mirror {
  import opened Event
  import Q = Queue
  import opened Target
  import opened Replay
  import opened Changes
  import PgRows
  import B = Batching
  import opened Capture
  import Barrier
  import CaptureStream

  // ---------------------------------------------------------------- source and rows

  /** A change to one row of a named source table. */
  datatype Happened = Happened(table: string, change: Change)

  function Happen(tables: Tables, h: Happened): Tables {
    if h.table in tables then tables[h.table := ChangeTable(tables[h.table], h.change)] else tables
  }

  function HappenAll(tables: Tables, hs: seq<Happened>): Tables {
    if hs == [] then tables else Happen(HappenAll(tables, Front(hs)), Last(hs))
  }

  /** Row by row, the events describe what happened, to a table that holds the changed row. */
  ghost predicate Told(tables: Tables, rows: seq<Row>, hs: seq<Happened>) {
    && |rows| == |hs|
    && (rows != [] ==>
          var before, row, h := HappenAll(tables, Front(hs)), Last(rows), Last(hs);
          && Told(tables, Front(rows), Front(hs)) && row.table.name == h.table && h.table in before
          && Describes(row, h.change) && Applicable(before[h.table], row, h.change))
  }

  /** Applying truthful events repeats what happened. */
  lemma {:induction false} RowsMirror(pick: (Table, seq<Column>) -> Image, tables: Tables, rows: seq<Row>,
                                      hs: seq<Happened>)
    requires PickWorks(pick) && Told(tables, rows, hs)
    ensures PatchRows(pick, tables, rows) == HappenAll(tables, hs)
    decreases |rows|
  {
    if rows != [] {
      RowsMirror(pick, tables, Front(rows), Front(hs));
      var before, row, h := HappenAll(tables, Front(hs)), Last(rows), Last(hs);
      DescribedChangePatches(pick, before[h.table], row, h.change);
    }
  }

  /** The images inserted into one table. */
  function Loaded(hs: seq<Happened>, t: string): Table {
    if hs == [] then multiset{}
    else
      var h := Last(hs);
      Loaded(Front(hs), t) + if h.table == t && h.change.Inserted? then multiset{h.change.after} else multiset{}
  }

  lemma {:induction false} InsertsLoad(tables: Tables, hs: seq<Happened>, t: string)
    requires t in tables && forall h | h in hs :: h.change.Inserted?
    ensures t in HappenAll(tables, hs) && HappenAll(tables, hs)[t] == tables[t] + Loaded(hs, t)
    decreases |hs|
  {
    if hs != [] {
      InsertsLoad(tables, Front(hs), t);
      assert Last(hs) in hs;
    }
  }

  /** A snapshot leaves in each table of its scope exactly the images that were read from the source,
      whatever the target held before. */
  lemma SnapshotLoads(cfg: Config, tables: Tables, unit: seq<Message>, m: Message, hs: seq<Happened>, ref: TableRef)
    requires PickWorks(cfg.pick) && m.kind.SnapshotEnd? && ref in OpenScope(unit) && ref.name in tables
    requires forall h | h in hs :: h.change.Inserted?
    requires Told(Cleared(tables, OpenScope(unit)), AsInserts(OpenSnapshot(unit)), hs)
    ensures ref.name in CloseTables(cfg, tables, unit, m)
    ensures CloseTables(cfg, tables, unit, m)[ref.name] == Loaded(hs, ref.name)
  {
    hide PickWorks, Told, OpenScope, OpenSnapshot, PatchRows;
    var empty := Cleared(tables, OpenScope(unit));
    RowsMirror(cfg.pick, empty, AsInserts(OpenSnapshot(unit)), hs);
    InsertsLoad(empty, hs, ref.name);
  }

  /** The source logged what happened, under a catalog that fits. */
  ghost predicate Recorded(catalog: Catalog, tables: Tables, changes: seq<PgRows.ChangeRecord>, hs: seq<Happened>) {
    && |changes| == |hs|
    && (changes != [] ==>
          var before, r, h := HappenAll(tables, Front(hs)), Last(changes), Last(hs);
          && Recorded(catalog, tables, Front(changes), Front(hs)) && r.table in catalog && h.table == r.table.name
          && h.table in before && RecordedRow(catalog[r.table], before[h.table], r, h.change))
  }

  ghost predicate RecordedRow(t: PgRows.PgTable, table: Table, r: PgRows.ChangeRecord, change: Change) {
    && PgRows.WellFormed(t) && PgRows.Emits(t, change, r) && Distinguishes(t.fullRow, PgRows.IdentityNames(t), table)
       && Held(table, change)
  }

  lemma RowTold(t: PgRows.PgTable, table: Table, r: PgRows.ChangeRecord, change: Change, ordinal: nat)
    requires RecordedRow(t, table, r, change) && PgRows.ConvertedRow(t, r).Success?
    ensures var row := PgRows.ConvertedRow(t, r).value.(ordinal := ordinal);
            row.table == r.table && Describes(row, change) && Applicable(table, row, change)
  {
    var row := PgRows.ConvertedRow(t, r).value;
    match change {
      case Inserted(after) =>
        PgRows.InsertDescribes(t, r, after);
      case Updated(before, after) =>
        PgRows.UpdateDescribes(t, r, before, after);
        IdentityPins(t.fullRow, PgRows.IdentityNames(t), table, Identity(row), before);
      case Deleted(before) =>
        PgRows.DeleteDescribes(t, r, before);
        IdentityPins(t.fullRow, PgRows.IdentityNames(t), table, Identity(row), before);
    }
    hide PgRows.ConvertedRow, PgRows.Emits, Distinguishes, Pins, PgRows.WellFormed;
    NumberingIsFree(row, change, ordinal);
    PgRows.ConvertedTable(t, r);
  }

  lemma NumberingIsFree(row: Row, change: Change, ordinal: nat)
    requires Describes(row, change)
    ensures Describes(row.(ordinal := ordinal), change) && Identity(row.(ordinal := ordinal)) == Identity(row)
  {
  }

  lemma {:induction false} RecordedIsTold(catalog: Catalog, tables: Tables, changes: seq<PgRows.ChangeRecord>,
                                          hs: seq<Happened>)
    requires Recorded(catalog, tables, changes, hs) && ConvertAll(catalog, changes).Some?
    ensures Told(tables, ConvertAll(catalog, changes).value, hs)
    decreases |changes|
  {
    if changes != [] {
      RecordedIsTold(catalog, tables, Front(changes), Front(hs));
      var before, r, h := HappenAll(tables, Front(hs)), Last(changes), Last(hs);
      RowTold(catalog[r.table], before[h.table], r, h.change, |changes|);
      var rows := ConvertAll(catalog, changes).value;
      assert Front(rows) == ConvertAll(catalog, Front(changes)).value;
      hide PgRows.ConvertedRow, Describes, Applicable, RecordedRow;
    }
  }

  // ---------------------------------------------------------------- units in the reference fold

  /** Messages that close no unit change no table. */
  lemma {:induction false} QuietEffect(cfg: Config, base: Replica, log: seq<Message>, more: seq<Message>)
    requires forall i | 0 <= i < |more| :: !more[i].kind.TransactionEnd? && !more[i].kind.SnapshotEnd?
    ensures Effect(cfg, base, log + more).tables == Effect(cfg, base, log).tables
    decreases |more|
  {
    if more == [] {
      assert log + more == log;
    } else {
      assert Front(log + more) == log + Front(more);
      QuietEffect(cfg, base, log, Front(more));
    }
  }

  lemma {:induction false} ChunksStayOpen(log: seq<Message>, chunks: seq<Message>)
    requires OpenBatch(log) == [] && forall i | 0 <= i < |chunks| :: chunks[i].kind.TransactionRows?
    ensures OpenBatch(log + chunks) == chunks
    decreases |chunks|
  {
    if chunks == [] {
      assert log + chunks == log;
    } else {
      assert Front(log + chunks) == log + Front(chunks);
      ChunksStayOpen(log, Front(chunks));
      assert Front(chunks) + [Last(chunks)] == chunks;
    }
  }

  lemma {:induction false} PayloadRows(chunks: seq<Message>)
    ensures AllRows(chunks) == B.Concat(Payloads(chunks))
    decreases |chunks|
  {
    if chunks != [] {
      PayloadRows(Front(chunks));
      var payloads := Payloads(chunks);
      assert payloads[..|payloads| - 1] == Payloads(Front(chunks));
    }
  }

  /** The messages of one published transaction. */
  ghost predicate IsUnit(lim: B.Limits, lsn: string, rows: seq<Row>, messages: seq<Message>) {
    (exists version :: CaptureStream.TxUnder(version, messages)) && B.Encode(lim, lsn, rows) == Some(Payloads(messages))
  }

  lemma UnitShape(lim: B.Limits, lsn: string, rows: seq<Row>, messages: seq<Message>)
    requires IsUnit(lim, lsn, rows, messages)
    ensures messages != [] && Last(messages).kind.TransactionEnd?
    ensures forall i | 0 <= i < |messages| - 1 :: messages[i].kind.TransactionRows?
    ensures AllRows(Front(messages)) == rows && (Front(messages) == [] <==> rows == [])
  {
    hide B.Encode, B.Within, B.Concat, AllRows, CaptureStream.TxUnder;
    B.EncodeChunks(lim, lsn, rows);
    var n, payloads := |messages| - 1, Payloads(messages);
    assert payloads[n] == Payload(messages[n]);
    forall i | 0 <= i < n ensures messages[i].kind.TransactionRows? {
      assert payloads[..n][i] == Payload(messages[i]);
    }
    assert payloads[..n] == Payloads(Front(messages));
    PayloadRows(Front(messages));
  }

  /** A published transaction patches exactly its rows, at its last message... */
  lemma UnitEffect(cfg: Config, base: Replica, log: seq<Message>, lim: B.Limits, lsn: string, rows: seq<Row>,
                   messages: seq<Message>)
    requires OpenBatch(log) == [] && IsUnit(lim, lsn, rows, messages)
    ensures OpenBatch(log + messages) == []
    ensures Effect(cfg, base, log + messages).tables == PatchRows(cfg.pick, Effect(cfg, base, log).tables, rows)
  {
    hide IsUnit, PatchRows, AllRows, OpenSnapshot, OpenScope, CloseFiles;
    UnitShape(lim, lsn, rows, messages);
    var chunks := Front(messages);
    ChunksStayOpen(log, chunks);
    QuietEffect(cfg, base, log, chunks);
    EndEffect(cfg, base, log + chunks, Last(messages));
    assert log + messages == log + chunks + [Last(messages)];
  }

  lemma EndEffect(cfg: Config, base: Replica, log: seq<Message>, m: Message)
    requires m.kind.TransactionEnd?
    ensures OpenBatch(log + [m]) == []
    ensures Effect(cfg, base, log + [m]).tables
            == PatchRows(cfg.pick, Effect(cfg, base, log).tables, AllRows(OpenBatch(log)))
  {
    hide PatchRows, AllRows, CloseFiles;
    assert Front(log + [m]) == log;
  }

  /** ... and nothing before it. */
  lemma UnitQuiet(cfg: Config, base: Replica, log: seq<Message>, lim: B.Limits, lsn: string, rows: seq<Row>,
                  messages: seq<Message>, n: nat)
    requires IsUnit(lim, lsn, rows, messages) && n < |messages|
    ensures Effect(cfg, base, log + messages[..n]).tables == Effect(cfg, base, log).tables
    ensures forall i | 0 <= i < n :: !messages[i].kind.TransactionEnd?
  {
    UnitShape(lim, lsn, rows, messages);
    QuietEffect(cfg, base, log, messages[..n]);
  }

  // ---------------------------------------------------------------- every prefix of every run

  function Ends(log: seq<Message>): nat {
    if log == [] then 0 else Ends(Front(log)) + if Last(log).kind.TransactionEnd? then 1 else 0
  }

  lemma {:induction false} EndsConcat(a: seq<Message>, b: seq<Message>)
    ensures Ends(a + b) == Ends(a) + Ends(b)
    decreases |b|
  {
    if b == [] {
      assert a + b == a;
    } else {
      assert Front(a + b) == a + Front(b);
      EndsConcat(a, Front(b));
    }
  }

  lemma {:induction false} NoEnds(b: seq<Message>)
    requires forall i | 0 <= i < |b| :: !b[i].kind.TransactionEnd?
    ensures Ends(b) == 0
    decreases |b|
  {
    if b != [] {
      NoEnds(Front(b));
    }
  }

  /** The tables after the given published transactions. */
  function Patched(pick: (Table, seq<Column>) -> Image, tables: Tables, done: seq<Published>): Tables {
    if done == [] then tables
    else
      var rows := ConvertAll(Last(done).tables, Last(done).tx.changes);
      PatchRows(pick, Patched(pick, tables, Front(done)), if rows.Some? then rows.value else [])
  }

  /** After its first `first` messages, the log applied up to any point is a whole number of transactions. */
  ghost predicate Mirrors(cfg: Config, base: Replica, first: seq<Message>, log: seq<Message>, done: seq<Published>) {
    && first <= log && OpenBatch(log) == [] && Ends(log) == Ends(first) + |done|
    && forall n | |first| <= n <= |log| :: MirrorsAt(cfg, base, first, log, done, n)
  }

  ghost predicate MirrorsAt(cfg: Config, base: Replica, first: seq<Message>, log: seq<Message>, done: seq<Published>,
                            n: nat)
    requires n <= |log|
  {
    var k := Ends(log[..n]) - Ends(first);
    && 0 <= k <= |done|
    && Effect(cfg, base, log[..n]).tables == Patched(cfg.pick, Effect(cfg, base, first).tables, done[..k])
    && (n < |log| ==> NextFits(log[n], OpenBatch(log[..n]), done[k..]))
  }

  /** After the snapshot come transactions and refreshes only; a transaction ends with its own rows open. */
  predicate NextFits(m: Message, open: seq<Message>, left: seq<Published>) {
    && (IsTx(m) || m.kind.SchemaTable? || m.kind.SchemaEnd?)
    && (m.kind.TransactionEnd? ==>
          left != [] && AllRows(open) == RowsOfDone(left[0]) && (open == [] <==> RowsOfDone(left[0]) == []))
  }

  function RowsOfDone(d: Published): seq<Row> {
    var rows := ConvertAll(d.tables, d.tx.changes);
    if rows.Some? then rows.value else []
  }

  lemma QuietMirrors(cfg: Config, base: Replica, first: seq<Message>, log: seq<Message>, done: seq<Published>,
                     more: seq<Message>)
    requires Mirrors(cfg, base, first, log, done)
    requires forall i | 0 <= i < |more| :: more[i].kind.SchemaTable? || more[i].kind.SchemaEnd?
    ensures Mirrors(cfg, base, first, log + more, done)
  {
    EndsConcat(log, more);
    NoEnds(more);
    QuietOpen(log, more);
    hide MirrorsAt, Ends, OpenBatch;
    forall n | |first| <= n <= |log + more| ensures MirrorsAt(cfg, base, first, log + more, done, n) {
      QuietMirrorsAt(cfg, base, first, log, done, more, n);
    }
  }

  lemma QuietMirrorsAt(cfg: Config, base: Replica, first: seq<Message>, log: seq<Message>, done: seq<Published>,
                       more: seq<Message>, n: nat)
    requires Mirrors(cfg, base, first, log, done) && |first| <= n <= |log + more|
    requires forall i | 0 <= i < |more| :: more[i].kind.SchemaTable? || more[i].kind.SchemaEnd?
    ensures MirrorsAt(cfg, base, first, log + more, done, n)
  {
    hide Effect, Ends, Patched;
    if n <= |log| {
      assert (log + more)[..n] == log[..n];
      assert MirrorsAt(cfg, base, first, log, done, n);
    } else {
      var some := more[..n - |log|];
      assert (log + more)[..n] == log + some && log[..|log|] == log;
      assert MirrorsAt(cfg, base, first, log, done, |log|);
      QuietEffect(cfg, base, log, some);
      EndsConcat(log, some);
      NoEnds(some);
    }
  }

  lemma {:induction false} QuietOpen(log: seq<Message>, more: seq<Message>)
    requires OpenBatch(log) == [] && forall i | 0 <= i < |more| :: more[i].kind.SchemaTable? || more[i].kind.SchemaEnd?
    ensures OpenBatch(log + more) == []
    decreases |more|
  {
    if more == [] {
      assert log + more == log;
    } else {
      assert Front(log + more) == log + Front(more);
      QuietOpen(log, Front(more));
    }
  }

  lemma UnitMirrors(cfg: Config, base: Replica, first: seq<Message>, log: seq<Message>, done: seq<Published>,
                    lim: B.Limits, lsn: string, tx: Published, messages: seq<Message>)
    requires Mirrors(cfg, base, first, log, done) && ConvertAll(tx.tables, tx.tx.changes).Some?
    requires IsUnit(lim, lsn, ConvertAll(tx.tables, tx.tx.changes).value, messages)
    ensures Mirrors(cfg, base, first, log + messages, done + [tx])
  {
    hide IsUnit, MirrorsAt, Effect, OpenBatch, Ends, ConvertAll, PatchRows;
    var all, more, rows := log + messages, done + [tx], ConvertAll(tx.tables, tx.tx.changes).value;
    UnitEffect(cfg, base, log, lim, lsn, rows, messages);
    UnitEnds(lim, lsn, rows, log, messages);
    forall n | |first| <= n <= |all| ensures MirrorsAt(cfg, base, first, all, more, n) {
      if n < |log| {
        Earlier(cfg, base, first, log, done, tx, messages, n);
      } else if n < |all| {
        BeforeEnd(cfg, base, first, log, done, lim, lsn, tx, messages, n);
      } else {
        AtEnd(cfg, base, first, log, done, lim, lsn, tx, messages);
      }
    }
  }

  lemma Earlier(cfg: Config, base: Replica, first: seq<Message>, log: seq<Message>, done: seq<Published>, tx: Published,
                messages: seq<Message>, n: nat)
    requires Mirrors(cfg, base, first, log, done) && |first| <= n < |log|
    ensures MirrorsAt(cfg, base, first, log + messages, done + [tx], n)
  {
    hide Effect, Patched, Ends, OpenBatch, AllRows, RowsOfDone;
    assert (log + messages)[..n] == log[..n];
    assert MirrorsAt(cfg, base, first, log, done, n);
    var k := Ends(log[..n]) - Ends(first);
    assert (done + [tx])[..k] == done[..k] && (done + [tx])[k..] == done[k..] + [tx];
  }

  lemma AtEnd(cfg: Config, base: Replica, first: seq<Message>, log: seq<Message>, done: seq<Published>,
              lim: B.Limits, lsn: string, tx: Published, messages: seq<Message>)
    requires Mirrors(cfg, base, first, log, done) && ConvertAll(tx.tables, tx.tx.changes).Some?
    requires IsUnit(lim, lsn, ConvertAll(tx.tables, tx.tx.changes).value, messages)
    ensures MirrorsAt(cfg, base, first, log + messages, done + [tx], |log + messages|)
  {
    hide IsUnit, Effect, PatchRows, Ends;
    var all, more := log + messages, done + [tx];
    UnitEffect(cfg, base, log, lim, lsn, ConvertAll(tx.tables, tx.tx.changes).value, messages);
    UnitEnds(lim, lsn, ConvertAll(tx.tables, tx.tx.changes).value, log, messages);
    assert all[..|all|] == all && log[..|log|] == log;
    assert MirrorsAt(cfg, base, first, log, done, |log|);
    assert more[..|more|] == more && Front(more) == done && done[..|done|] == done;
  }

  lemma BeforeEnd(cfg: Config, base: Replica, first: seq<Message>, log: seq<Message>, done: seq<Published>,
                  lim: B.Limits, lsn: string, tx: Published, messages: seq<Message>, n: nat)
    requires Mirrors(cfg, base, first, log, done) && ConvertAll(tx.tables, tx.tx.changes).Some?
    requires IsUnit(lim, lsn, ConvertAll(tx.tables, tx.tx.changes).value, messages) && |log| <= n < |log + messages|
    ensures MirrorsAt(cfg, base, first, log + messages, done + [tx], n)
  {
    hide IsUnit, Effect, Patched, OpenBatch, AllRows, ConvertAll;
    var m := n - |log|;
    UnitQuiet(cfg, base, log, lim, lsn, ConvertAll(tx.tables, tx.tx.changes).value, messages, m);
    UnitNext(log, lim, lsn, tx, messages, m);
    assert (done + [tx])[|done|..] == [tx] && (log + messages)[n] == messages[m];
    assert (log + messages)[..n] == log + messages[..m] && log[..|log|] == log;
    EndsConcat(log, messages[..m]);
    NoEnds(messages[..m]);
    assert MirrorsAt(cfg, base, first, log, done, |log|);
    assert (done + [tx])[..|done|] == done[..|done|] == done;
  }

  lemma UnitNext(log: seq<Message>, lim: B.Limits, lsn: string, tx: Published, messages: seq<Message>, m: nat)
    requires OpenBatch(log) == [] && ConvertAll(tx.tables, tx.tx.changes).Some? && m < |messages|
    requires IsUnit(lim, lsn, ConvertAll(tx.tables, tx.tx.changes).value, messages)
    ensures NextFits(messages[m], OpenBatch(log + messages[..m]), [tx])
  {
    hide IsUnit, OpenBatch, AllRows, ConvertAll;
    UnitShape(lim, lsn, ConvertAll(tx.tables, tx.tx.changes).value, messages);
    if m == |messages| - 1 {
      ChunksStayOpen(log, Front(messages));
    }
  }

  lemma UnitEnds(lim: B.Limits, lsn: string, rows: seq<Row>, log: seq<Message>, messages: seq<Message>)
    requires IsUnit(lim, lsn, rows, messages)
    ensures Ends(log + messages) == Ends(log) + 1
  {
    UnitShape(lim, lsn, rows, messages);
    EndsConcat(log, messages);
    NoEnds(Front(messages));
  }

  lemma SealMirrors(env: Env, cfg: Config, base: Replica, first: seq<Message>, source: seq<Txn>, past: nat, w: World,
                    free: nat, now: int)
    requires Ok(env, source, past, w) && CaptureStream.Speaks(env, w) && Mirrors(cfg, base, first, w.t.log, w.done)
    requires w.proc.Streaming? && w.proc.todo == [] && w.proc.seal.Some?
    ensures var next := DoPerform(env, source, w, free, now); Mirrors(cfg, base, first, next.t.log, next.done)
  {
    hide Q.TracedValid, Staged, TxPayloads, DoPerform, Q.TraceStep, DoneOk, Frontier, Mirrors, Barrier.SpeakAll;
    var p, n, staged, h := w.proc, past + |w.done|, Staged(env.queue, w.t), CaptureStream.Hash(w.t);
    assert TxPayloads(staged) + [] == TxPayloads(staged);
    TxPayloadsOfTx(staged);
    var tx, lsn := Published(source[n], p.tables), env.show(source[n].end);
    assert Unit(env, tx) == Some(Payloads(staged));
    CaptureStream.PublishAll(env, w.t, Q.OpPublish(p.seal.value, false, ""));
    SealState(env, source, w, free, now);
    assert IsUnit(env.limits, lsn, ConvertAll(tx.tables, tx.tx.changes).value, staged);
    UnitMirrors(cfg, base, first, w.t.log, w.done, env.limits, lsn, tx, staged);
  }

  lemma RefreshMirrors(env: Env, cfg: Config, base: Replica, first: seq<Message>, source: seq<Txn>, w: World, free: nat,
                       now: int)
    requires CaptureStream.Speaks(env, w) && Mirrors(cfg, base, first, w.t.log, w.done)
    requires w.proc.Refreshing? && w.proc.drafts == []
    requires Q.Attempt(env.queue, w.t.d, Q.OpPublishSchema(w.proc.lsn, w.proc.hash)).Success?
    ensures var next := DoPerform(env, source, w, free, now); Mirrors(cfg, base, first, next.t.log, next.done)
  {
    var p, staged := w.proc, Staged(env.queue, w.t);
    CaptureStream.PublishAll(env, w.t, Q.OpPublishSchema(p.lsn, p.hash));
    hide Q.TracedValid, Staged, Q.TraceStep, Mirrors, Barrier.SpeakAll;
    var plains, drafts := CaptureStream.Plains(staged), SchemaDrafts(p.schemas, p.hash);
    assert plains + [] == plains;
    forall i | 0 <= i < |staged| ensures staged[i].kind.SchemaTable? || staged[i].kind.SchemaEnd? {
      assert plains[i] == CaptureStream.Plain(staged[i]) == drafts[i];
      assert i < |p.schemas| ==> drafts[i] == Draft(SchemaTable).(schemaVersion := p.hash,
                                                                  schema := Some(p.schemas[i]));
    }
    QuietMirrors(cfg, base, first, w.t.log, w.done, staged);
  }

  lemma LogKept(env: Env, source: seq<Txn>, w: World, step: Step)
    requires Q.TracedValid(env.queue, w.t)
    requires step.Perform? ==>
               !(NextOp(w, step.free, step.now).Some? && Q.Publishes(NextOp(w, step.free, step.now).value))
    ensures Do(env, source, w, step).t.log == w.t.log && Do(env, source, w, step).done == w.done
  {
    hide Q.TracedValid, Next;
  }

  lemma StepMirrors(env: Env, cfg: Config, base: Replica, first: seq<Message>, source: seq<Txn>, past: nat, w: World,
                    step: Step)
    requires Ok(env, source, past, w) && CaptureStream.Speaks(env, w) && Mirrors(cfg, base, first, w.t.log, w.done)
    ensures var next := Do(env, source, w, step); Mirrors(cfg, base, first, next.t.log, next.done)
  {
    hide Mirrors, Q.TracedValid, Q.TraceStep, Staged, Frontier, DoneOk, ProcOk, Barrier.SpeakAll;
    var op := if step.Perform? then NextOp(w, step.free, step.now) else None;
    if op.Some? && Q.Publishes(op.value) {
      if Q.Attempt(env.queue, w.t.d, op.value).Success? {
        if w.proc.Streaming? {
          SealMirrors(env, cfg, base, first, source, past, w, step.free, step.now);
        } else {
          RefreshMirrors(env, cfg, base, first, source, w, step.free, step.now);
        }
      }
    } else {
      LogKept(env, source, w, step);
    }
  }

  // ---------------------------------------------------------------- the source

  /** The source's tables after k further transactions. */
  function SourceAfter(tables: Tables, hs: seq<seq<Happened>>, k: nat): Tables
    requires k <= |hs|
  {
    if k == 0 then tables else HappenAll(SourceAfter(tables, hs, k - 1), hs[k - 1])
  }

  /** Each published transaction was logged truthfully by the source, under the catalog it was converted with. */
  ghost predicate TrueLog(tables: Tables, done: seq<Published>, hs: seq<seq<Happened>>) {
    |done| == |hs| && forall i | 0 <= i < |done| :: TrueLogAt(tables, done, hs, i)
  }

  ghost predicate TrueLogAt(tables: Tables, done: seq<Published>, hs: seq<seq<Happened>>, i: nat)
    requires i < |done| == |hs|
  {
    Recorded(done[i].tables, SourceAfter(tables, hs, i), done[i].tx.changes, hs[i])
  }

  lemma {:induction false} PatchedIsSource(pick: (Table, seq<Column>) -> Image, tables: Tables, done: seq<Published>,
                                           hs: seq<seq<Happened>>, k: nat)
    requires PickWorks(pick) && TrueLog(tables, done, hs) && k <= |done|
    requires forall i | 0 <= i < |done| :: ConvertAll(done[i].tables, done[i].tx.changes).Some?
    ensures Patched(pick, tables, done[..k]) == SourceAfter(tables, hs, k)
    decreases k
  {
    PatchedStep(pick, tables, done, k);
    hide Recorded, ConvertAll, PatchRows, HappenAll, PickWorks, Patched;
    if k > 0 {
      PatchedIsSource(pick, tables, done, hs, k - 1);
      assert TrueLogAt(tables, done, hs, k - 1);
      TxnMirrors(pick, SourceAfter(tables, hs, k - 1), done[k - 1], hs[k - 1]);
    }
  }

  lemma PatchedStep(pick: (Table, seq<Column>) -> Image, tables: Tables, done: seq<Published>, k: nat)
    requires k <= |done|
    ensures k == 0 ==> Patched(pick, tables, done[..k]) == tables
    ensures k > 0 && ConvertAll(done[k - 1].tables, done[k - 1].tx.changes).Some? ==>
              Patched(pick, tables, done[..k]) ==
              PatchRows(pick, Patched(pick, tables, done[..k - 1]),
                        ConvertAll(done[k - 1].tables, done[k - 1].tx.changes).value)
  {
    if k > 0 {
      assert Front(done[..k]) == done[..k - 1];
    }
    hide ConvertAll, PatchRows;
  }

  /** A truthfully logged transaction, converted and applied, repeats what happened. */
  lemma TxnMirrors(pick: (Table, seq<Column>) -> Image, tables: Tables, tx: Published, hs: seq<Happened>)
    requires PickWorks(pick) && Recorded(tx.tables, tables, tx.tx.changes, hs)
    requires ConvertAll(tx.tables, tx.tx.changes).Some?
    ensures PatchRows(pick, tables, ConvertAll(tx.tables, tx.tx.changes).value) == HappenAll(tables, hs)
  {
    hide Recorded, ConvertAll, PatchRows, HappenAll, Told, PickWorks;
    RecordedIsTold(tx.tables, tables, tx.tx.changes, hs);
    RowsMirror(pick, tables, ConvertAll(tx.tables, tx.tx.changes).value, hs);
  }

  lemma PrefixIsSource(cfg: Config, base: Replica, first: seq<Message>, log: seq<Message>, done: seq<Published>,
                       hs: seq<seq<Happened>>, n: nat)
    requires Mirrors(cfg, base, first, log, done) && |first| <= n <= |log|
    requires PickWorks(cfg.pick) && TrueLog(Effect(cfg, base, first).tables, done, hs)
    requires forall i | 0 <= i < |done| :: ConvertAll(done[i].tables, done[i].tx.changes).Some?
    ensures var k := Ends(log[..n]) - Ends(first);
            0 <= k <= |hs| && Effect(cfg, base, log[..n]).tables == SourceAfter(Effect(cfg, base, first).tables, hs, k)
  {
    hide Recorded, Effect, OpenBatch, Ends, PickWorks, SourceAfter, Patched, ConvertAll;
    assert MirrorsAt(cfg, base, first, log, done, n);
    PatchedIsSource(cfg.pick, Effect(cfg, base, first).tables, done, hs, Ends(log[..n]) - Ends(first));
  }

  lemma DoneConverts(env: Env, source: seq<Txn>, past: nat, w: World)
    requires Ok(env, source, past, w)
    ensures forall i | 0 <= i < |w.done| :: ConvertAll(w.done[i].tables, w.done[i].tx.changes).Some?
  {
    hide TxPayloads, Units, Q.TracedValid, Staged, ProcOk;
    forall i | 0 <= i < |w.done| ensures ConvertAll(w.done[i].tables, w.done[i].tx.changes).Some? {
      assert Unit(env, w.done[i]).Some?;
    }
  }

  // ---------------------------------------------------------------- the captured tables alone

  /** Both hold the same rows in each of the named tables. */
  predicate Agree(names: set<string>, a: Tables, b: Tables) {
    forall n | n in names :: n in a && n in b && a[n] == b[n]
  }

  predicate Touches(names: set<string>, hs: seq<Happened>) {
    forall h | h in hs :: h.table in names
  }

  lemma TouchesFront(names: set<string>, hs: seq<Happened>)
    requires Touches(names, hs) && hs != []
    ensures Touches(names, Front(hs)) && Last(hs).table in names
  {
  }

  lemma {:induction false} HappenLocal(names: set<string>, a: Tables, b: Tables, hs: seq<Happened>)
    requires Agree(names, a, b) && Touches(names, hs)
    ensures Agree(names, HappenAll(a, hs), HappenAll(b, hs))
    decreases |hs|
  {
    hide Touches, ChangeTable;
    if hs != [] {
      TouchesFront(names, hs);
      HappenLocal(names, a, b, Front(hs));
    }
  }

  /** What the source logs about a captured table depends on that table alone. */
  lemma {:induction false} RecordedLocal(names: set<string>, catalog: Catalog, a: Tables, b: Tables,
                                         changes: seq<PgRows.ChangeRecord>, hs: seq<Happened>)
    requires Agree(names, a, b) && Touches(names, hs) && Recorded(catalog, a, changes, hs)
    ensures Recorded(catalog, b, changes, hs)
    decreases |hs|
  {
    hide Touches, HappenAll, RecordedRow;
    if hs != [] {
      TouchesFront(names, hs);
      HappenLocal(names, a, b, Front(hs));
      RecordedLocal(names, catalog, a, b, Front(changes), Front(hs));
    }
  }

  lemma {:induction false} SourceLocal(names: set<string>, a: Tables, b: Tables, hs: seq<seq<Happened>>, k: nat)
    requires Agree(names, a, b) && (forall i | 0 <= i < |hs| :: Touches(names, hs[i])) && k <= |hs|
    ensures Agree(names, SourceAfter(a, hs, k), SourceAfter(b, hs, k))
    decreases k
  {
    hide Agree, Touches;
    if k > 0 {
      SourceLocal(names, a, b, hs, k - 1);
      HappenLocal(names, SourceAfter(a, hs, k - 1), SourceAfter(b, hs, k - 1), hs[k - 1]);
    }
  }

  lemma TrueLogLocal(names: set<string>, a: Tables, b: Tables, done: seq<Published>, hs: seq<seq<Happened>>)
    requires Agree(names, a, b) && (forall i | 0 <= i < |hs| :: Touches(names, hs[i])) && TrueLog(a, done, hs)
    ensures TrueLog(b, done, hs)
  {
    hide Agree, Touches, Recorded, SourceAfter;
    forall i | 0 <= i < |done| ensures TrueLogAt(b, done, hs, i) {
      assert TrueLogAt(a, done, hs, i);
      SourceLocal(names, a, b, hs, i);
      RecordedLocal(names, done[i].tables, SourceAfter(a, hs, i), SourceAfter(b, hs, i), done[i].tx.changes, hs[i]);
    }
  }

  /** After `past` transactions and k more. */
  lemma {:induction false} SourceSplits(tables: Tables, hs: seq<seq<Happened>>, past: nat, k: nat, upTo: nat)
    requires past + k <= upTo <= |hs|
    ensures SourceAfter(SourceAfter(tables, hs, past), hs[past..upTo], k) == SourceAfter(tables, hs, past + k)
    decreases k
  {
    hide HappenAll;
    if k > 0 {
      SourceSplits(tables, hs, past, k - 1, upTo);
    }
  }
}
