/** The PostgreSQL capture: a decoder over the replication stream, a batcher, and the queue they fill. A run is
    any sequence of attachments, received records, queue operations, deliveries, schema refreshes and crashes;
    the source replays from any point at or before the durable position. */
module Capture {
  import opened Event
  import Q = Queue
  import opened Batching
  import opened PgRows
  import Target

  datatype Txn = Txn(xid: nat, end: nat, changes: seq<ChangeRecord>)

  type Catalog = map<TableRef, PgTable>

  /** `tables` are the configured tables, in order; `hash` is the schema hash of a catalog. */
  datatype Env = Env(queue: Q.Config, limits: Limits, tables: seq<TableRef>, show: nat -> string,
                     parse: string -> Option<nat>,
                     hash: seq<TableSchema> -> string)

  /** Log positions are written and read back faithfully, and never as the empty string. */
  ghost predicate FaithfulLsn(env: Env) {
    forall n: nat :: env.parse(env.show(n)) == Some(n) && env.show(n) != ""
  }

  // ---------------------------------------------------------------- decoder

  datatype Record =
    | Begin(xid: nat, nextLsn: string)
    | Commit(xid: nat, nextLsn: string)
    | RowChange(xid: nat, change: ChangeRecord)
    | Truncate
    | LogicalMessage
    | UnknownAction(name: string)

  datatype Decoder = Decoder(durable: nat, active: bool, skip: bool, end: nat, xid: nat, ordinal: nat, batch: Batch)

  datatype DecodeError = BadStream | Unconvertible(error: ConvertError) | RowTooLarge

  /** What a record makes the decoder do: messages to append, in order, and then possibly a publication. */
  datatype Decoded = Decoded(dec: Decoder, out: seq<Message>, seal: Option<string>)

  function NewDecoder(durable: nat): Decoder {
    Decoder(durable, false, false, 0, 0, 0, Open(Draft(OtherKind(""))))
  }

  function DecodeBegin(env: Env, d: Decoder, r: Record): Result<Decoded, DecodeError>
    requires r.Begin?
  {
    var end := env.parse(r.nextLsn);
    if d.active || end.None? || end.value == 0 then Failure(BadStream)
    else
      Success(Decoded(d.(active := true, end := end.value, xid := r.xid, ordinal := 0, skip := end.value <= d.durable,
                         batch := Batch(RowsDraft(r.nextLsn), d.batch.size)), [], None))
  }

  function DecodeCommit(env: Env, d: Decoder, r: Record): Result<Decoded, DecodeError>
    requires r.Commit?
  {
    if !d.active || r.xid != d.xid || env.parse(r.nextLsn) != Some(d.end) then Failure(BadStream)
    else if d.skip then Success(Decoded(d.(active := false), [], None))
    else
      var f := Flush(Flushed(d.batch, []));
      Success(Decoded(d.(active := false, durable := d.end, batch := f.batch),
                      f.out + [EndDraft(r.nextLsn, f.batch.draft.chunk)], Some(r.nextLsn)))
  }

  function DecodeRow(env: Env, tables: Catalog, d: Decoder, r: Record): Result<Decoded, DecodeError>
    requires r.RowChange?
  {
    if !d.active || r.xid != d.xid then Failure(BadStream)
    else if d.skip then Success(Decoded(d, [], None))
    else
      var row :- Numbered(tables, r.change, d.ordinal + 1);
      match Add(env.limits, Flushed(d.batch, []), row)
      case None => Failure(RowTooLarge)
      case Some(f) => Success(Decoded(d.(ordinal := d.ordinal + 1, batch := f.batch), f.out, None))
  }

  function Numbered(tables: Catalog, change: ChangeRecord, ordinal: nat): Result<Row, DecodeError> {
    if change.table !in tables then Failure(BadStream)
    else
      match ConvertedRow(tables[change.table], change)
      case Failure(e) => Failure(Unconvertible(e))
      case Success(row) => Success(row.(ordinal := ordinal))
  }

  function Decode(env: Env, tables: Catalog, d: Decoder, r: Record): Result<Decoded, DecodeError> {
    match r
    case Begin(_, _) => DecodeBegin(env, d, r)
    case Commit(_, _) => DecodeCommit(env, d, r)
    case RowChange(_, _) => DecodeRow(env, tables, d, r)
    case _ => Failure(BadStream)
  }

  // ---------------------------------------------------------------- runs

  datatype Proc =
    | Down
    | Streaming(tables: Catalog, pos: nat, rec: nat, dec: Decoder, todo: seq<Message>, seal: Option<string>)
    | Refreshing(schemas: seq<TableSchema>, drafts: seq<Message>, lsn: string, hash: string)

  /** A published transaction and the catalog it was converted with. */
  datatype Published = Published(tx: Txn, tables: Catalog)

  datatype World = World(t: Q.Traced, proc: Proc, done: seq<Published>)

  /** The records of a transaction: begin, changes, commit. */
  function RecordOf(env: Env, tx: Txn, rec: nat): Record {
    if rec == 0 then Begin(tx.xid, env.show(tx.end))
    else if rec <= |tx.changes| then RowChange(tx.xid, tx.changes[rec - 1])
    else Commit(tx.xid, env.show(tx.end))
  }

  datatype Step =
    | Attach(pos: nat, schemas: seq<TableSchema>, tables: Catalog)
    | Receive
    | Perform(free: nat, now: int)
    | Refresh(schemas: seq<TableSchema>)
    | Crash
    | Deliver(seqNo: nat, id: MessageId, ackedAt: int)

  /** The source replays from a point at or before the durable position. */
  predicate ReplaysFrom(source: seq<Txn>, pos: nat, durable: nat) {
    pos <= |source| && forall i | 0 <= i < pos :: source[i].end <= durable
  }

  /** The catalog, as it is announced and as the decoder uses it. */
  predicate Catalogs(schemas: seq<TableSchema>, tables: Catalog) {
    && (forall ref | ref in tables :: exists s | s in schemas :: s.table == ref)
    && (forall s | s in schemas :: s.table in tables && Names(tables[s.table]) == Target.ColumnNames(s))
  }

  /** Streaming may start: a snapshot is sealed, the catalog is still the one announced last, and the source has
      everything past the durable position. */
  predicate Attaches(env: Env, source: seq<Txn>, w: World, pos: nat, schemas: seq<TableSchema>, tables: Catalog) {
    var durable := env.parse(w.t.d.state.durableLsn);
    && w.t.d.state.phase.Stream? && durable.Some? && ReplaysFrom(source, pos, durable.value)
    && env.hash(schemas) == w.t.d.state.schemaHash && Catalogs(schemas, tables)
  }

  ghost function DoAttach(env: Env, source: seq<Txn>, w: World, pos: nat, schemas: seq<TableSchema>,
                          tables: Catalog): World {
    var durable := env.parse(w.t.d.state.durableLsn);
    if !Attaches(env, source, w, pos, schemas, tables) then w
    else World(Q.TraceStep(env.queue, w.t, Q.OpRecover), Streaming(tables, pos, 0, NewDecoder(durable.value), [], None),
               w.done)
  }

  predicate Idle(source: seq<Txn>, w: World) {
    w.proc.Streaming? && w.proc.todo == [] && w.proc.seal.None? && w.proc.pos < |source|
  }

  function Next(env: Env, source: seq<Txn>, w: World): Result<Decoded, DecodeError>
    requires Idle(source, w)
  {
    Decode(env, w.proc.tables, w.proc.dec, RecordOf(env, source[w.proc.pos], w.proc.rec))
  }

  function DoReceive(env: Env, source: seq<Txn>, w: World): World {
    if !Idle(source, w) then w
    else
      match Next(env, source, w)
      case Failure(_) => w.(proc := Down)
      case Success(decoded) =>
        var last := w.proc.rec > |source[w.proc.pos].changes|;
        w.(proc := w.proc.(pos := if last then w.proc.pos + 1 else w.proc.pos,
                           rec := if last then 0 else w.proc.rec + 1,
                           dec := decoded.dec, todo := decoded.out, seal := decoded.seal))
  }

  function SchemaDrafts(schemas: seq<TableSchema>, hash: string): seq<Message> {
    seq(|schemas|, i requires 0 <= i < |schemas| =>
      Draft(SchemaTable).(schemaVersion := hash, schema := Some(schemas[i])))
    + [Draft(SchemaEnd).(schemaVersion := hash)]
  }

  /** The catalog query returns every configured table, in order, each with columns. */
  predicate CatalogOf(env: Env, schemas: seq<TableSchema>) {
    |schemas| == |env.tables| && forall i | 0 <= i < |schemas| ::
      schemas[i].table == env.tables[i] && schemas[i].columns != []
  }

  /** A row that does not fit the captured schema: discard the open transaction, publish the new schema at the
      durable position, and attach again. */
  ghost function DoRefresh(env: Env, source: seq<Txn>, w: World, schemas: seq<TableSchema>): World {
    var hash := env.hash(schemas);
    if !Idle(source, w) || Next(env, source, w) != Failure(Unconvertible(SchemaMismatch)) then w
    else if !CatalogOf(env, schemas) || hash == "" || hash == w.t.d.state.schemaHash then w
    else World(Q.TraceStep(env.queue, w.t, Q.OpRecover),
               Refreshing(schemas, SchemaDrafts(schemas, hash), env.show(w.proc.dec.durable), hash), w.done)
  }

  /** The next queue operation of the capture, if it has one. */
  function NextOp(w: World, free: nat, now: int): Option<Q.Op> {
    match w.proc
    case Streaming(_, _, _, _, todo, seal) =>
      if todo != [] then Some(Q.OpAppend(todo[0], free, now))
      else if seal.Some? then Some(Q.OpPublish(seal.value, false, ""))
      else None
    case Refreshing(_, drafts, lsn, hash) =>
      Some(if drafts != [] then Q.OpAppend(drafts[0], free, now) else Q.OpPublishSchema(lsn, hash))
    case Down => None
  }

  /** The process after its next queue operation succeeded. */
  function Advanced(p: Proc): Proc
    requires !p.Down?
  {
    match p
    case Streaming(_, _, _, _, todo, _) => if todo != [] then p.(todo := todo[1..]) else p.(seal := None)
    case Refreshing(_, drafts, _, _) => if drafts != [] then p.(drafts := drafts[1..]) else Down
  }

  /** Performs it; a failed append is tried again. */
  ghost function DoPerform(env: Env, source: seq<Txn>, w: World, free: nat, now: int): World {
    var op := NextOp(w, free, now);
    if op.None? || Q.Attempt(env.queue, w.t.d, op.value).Failure? then w
    else
      World(Q.TraceStep(env.queue, w.t, op.value), Advanced(w.proc),
            if op.value.OpPublish? && 0 < w.proc.pos <= |source| then
              w.done + [Published(source[w.proc.pos - 1], w.proc.tables)]
            else w.done)
  }

  ghost function Do(env: Env, source: seq<Txn>, w: World, step: Step): World {
    match step
    case Attach(pos, schemas, tables) => DoAttach(env, source, w, pos, schemas, tables)
    case Receive => DoReceive(env, source, w)
    case Perform(free, now) => DoPerform(env, source, w, free, now)
    case Refresh(schemas) => DoRefresh(env, source, w, schemas)
    case Crash => w.(proc := Down)
    case Deliver(seqNo, id, now) => w.(t := Q.TraceStep(env.queue, w.t, Q.OpAck(seqNo, id, now)))
  }

  lemma DoTraced(env: Env, source: seq<Txn>, w: World, step: Step)
    requires Q.TracedValid(env.queue, w.t)
    ensures Q.TracedValid(env.queue, Do(env, source, w, step).t)
  {
    match step
    case Attach(_, _, _) => Q.TraceStepValid(env.queue, w.t, Q.OpRecover);
    case Refresh(_) => Q.TraceStepValid(env.queue, w.t, Q.OpRecover);
    case Deliver(seqNo, id, now) => Q.TraceStepValid(env.queue, w.t, Q.OpAck(seqNo, id, now));
    case Perform(free, now) =>
      if NextOp(w, free, now).Some? {
        Q.TraceStepValid(env.queue, w.t, NextOp(w, free, now).value);
      }
    case _ =>
  }

  /** The queue operation a step performs, if it performs one. */
  function StepOp(env: Env, source: seq<Txn>, w: World, step: Step): Option<Q.Op> {
    match step
    case Attach(pos, schemas, tables) =>
      if Attaches(env, source, w, pos, schemas, tables) then Some(Q.OpRecover) else None
    case Refresh(schemas) =>
      var hash := env.hash(schemas);
      if !Idle(source, w) || Next(env, source, w) != Failure(Unconvertible(SchemaMismatch)) then None
      else if !CatalogOf(env, schemas) || hash == "" || hash == w.t.d.state.schemaHash then None
      else Some(Q.OpRecover)
    case Perform(free, now) => NextOp(w, free, now)
    case Deliver(seqNo, id, now) => Some(Q.OpAck(seqNo, id, now))
    case _ => None
  }

  /** That operation is all a step does to the queue. */
  lemma StepOpIsAll(env: Env, source: seq<Txn>, w: World, step: Step)
    requires Q.TracedValid(env.queue, w.t)
    ensures Do(env, source, w, step).t == match StepOp(env, source, w, step)
                                          case None => w.t
                                          case Some(op) => Q.TraceStep(env.queue, w.t, op)
  {
    hide Q.TracedValid, Next;
    var op := StepOp(env, source, w, step);
    if op.Some? && Q.Attempt(env.queue, w.t.d, op.value).Failure? {
      FailureKeeps(env.queue, w.t, op.value);
    }
  }

  lemma FailureKeeps(cfg: Q.Config, t: Q.Traced, op: Q.Op)
    requires Q.TracedValid(cfg, t) && Q.Attempt(cfg, t.d, op).Failure?
    ensures Q.TraceStep(cfg, t, op) == t
  {
    hide Q.TracedValid;
  }

  ghost function Run(env: Env, source: seq<Txn>, w: World, steps: seq<Step>): (r: World)
    requires Q.TracedValid(env.queue, w.t)
    ensures Q.TracedValid(env.queue, r.t)
  {
    if steps == [] then w
    else
      var before := Run(env, source, w, steps[..|steps| - 1]);
      DoTraced(env, source, before, steps[|steps| - 1]);
      Do(env, source, before, steps[|steps| - 1])
  }

  // ---------------------------------------------------------------- published transactions

  /** A message without the envelope the queue puts on it. */
  function Payload(m: Message): Message {
    m.(version := "", sourceId := "", generation := "", schemaVersion := "", seqNo := 0, id := MessageId("", "", 0),
       createdAt := None)
  }

  function Payloads(messages: seq<Message>): seq<Message> {
    seq(|messages|, i requires 0 <= i < |messages| => Payload(messages[i]))
  }

  predicate IsTx(m: Message) {
    m.kind.TransactionRows? || m.kind.TransactionEnd?
  }

  /** The transaction messages of a log, in order, without their envelopes. */
  function TxPayloads(log: seq<Message>): seq<Message> {
    if log == [] then []
    else TxPayloads(log[..|log| - 1]) + if IsTx(log[|log| - 1]) then [Payload(log[|log| - 1])] else []
  }

  lemma {:induction false} TxPayloadsConcat(a: seq<Message>, b: seq<Message>)
    ensures TxPayloads(a + b) == TxPayloads(a) + TxPayloads(b)
    decreases |b|
  {
    if b == [] {
      assert a + b == a;
    } else {
      assert (a + b)[..|a + b| - 1] == a + b[..|b| - 1];
      TxPayloadsConcat(a, b[..|b| - 1]);
    }
  }

  lemma {:induction false} TxPayloadsOfTx(messages: seq<Message>)
    requires forall i | 0 <= i < |messages| :: IsTx(messages[i])
    ensures TxPayloads(messages) == Payloads(messages)
    decreases |messages|
  {
    if messages != [] {
      TxPayloadsOfTx(messages[..|messages| - 1]);
    }
  }

  /** The rows of a transaction, converted and numbered from 1. */
  function ConvertAll(tables: Catalog, changes: seq<ChangeRecord>): Option<seq<Row>> {
    if changes == [] then Some([])
    else
      var front := ConvertAll(tables, changes[..|changes| - 1]);
      var last := Numbered(tables, changes[|changes| - 1], |changes|);
      if front.None? || last.Failure? then None else Some(front.value + [last.value])
  }

  /** The messages a transaction is published as. */
  function Unit(env: Env, done: Published): Option<seq<Message>> {
    var rows := ConvertAll(done.tables, done.tx.changes);
    if rows.None? then None else Encode(env.limits, env.show(done.tx.end), rows.value)
  }

  function Units(env: Env, done: seq<Published>): seq<Message> {
    if done == [] then []
    else
      var last := Unit(env, done[|done| - 1]);
      Units(env, done[..|done| - 1]) + if last.Some? then last.value else []
  }

  // ---------------------------------------------------------------- assembly of one transaction

  lemma FlushMoves(b: Batch, out: seq<Message>)
    ensures Flush(Flushed(b, out)) == Flushed(Flush(Flushed(b, [])).batch, out + Flush(Flushed(b, [])).out)
  {
  }

  /** The decoder's batch goes on where the transaction's batch is. */
  lemma AddMoves(lim: Limits, f: Flushed, row: Row)
    ensures var alone := Add(lim, Flushed(f.batch, []), row);
            Add(lim, f, row) == if alone.None? then None else Some(Flushed(alone.value.batch, f.out + alone.value.out))
  {
    var overflows := Overflows(lim, f.batch, row);
    var alone := Flushed(f.batch, []);
    var room, roomAlone := if overflows then Flush(f) else f, if overflows then Flush(alone) else alone;
    FlushMoves(f.batch, f.out);
    assert room == Flushed(roomAlone.batch, f.out + roomAlone.out);
    var put := Put(lim, room, row);
    FlushMoves(put.batch, put.out);
    FlushMoves(put.batch, roomAlone.out);
    assert f.out + roomAlone.out + Flush(Flushed(put.batch, [])).out
           == f.out + (roomAlone.out + Flush(Flushed(put.batch, [])).out);
  }

  predicate Bare(messages: seq<Message>) {
    forall i | 0 <= i < |messages| :: IsTx(messages[i]) && Payload(messages[i]) == messages[i]
  }

  /** The chunks of a transaction carry no envelope. */
  lemma ChunksAreBare(lim: Limits, lsn: string, rows: seq<Row>)
    requires AddAll(lim, RowsDraft(lsn), rows).Some?
    ensures Bare(AddAll(lim, RowsDraft(lsn), rows).value.out)
            && Bare(Flush(AddAll(lim, RowsDraft(lsn), rows).value).out)
  {
    AddAllFilling(lim, RowsDraft(lsn), rows);
    FlushFilling(lim, RowsDraft(lsn), AddAll(lim, RowsDraft(lsn), rows).value);
    hide AddAll, Flush;
  }

  /** The messages of the first `count` changes of a transaction, and its batch. */
  function Assembled(env: Env, tables: Catalog, tx: Txn, count: nat): Option<Flushed>
    requires count <= |tx.changes|
  {
    var rows := ConvertAll(tables, tx.changes[..count]);
    if rows.None? then None else AddAll(env.limits, RowsDraft(env.show(tx.end)), rows.value)
  }

  lemma AssembledBare(env: Env, tables: Catalog, tx: Txn, count: nat)
    requires count <= |tx.changes| && Assembled(env, tables, tx, count).Some?
    ensures Bare(Assembled(env, tables, tx, count).value.out)
  {
    ChunksAreBare(env.limits, env.show(tx.end), ConvertAll(tables, tx.changes[..count]).value);
  }

  lemma DecodeRowExtends(env: Env, tables: Catalog, tx: Txn, rec: nat, dec: Decoder, pending: seq<Message>)
    requires 0 < rec <= |tx.changes| && dec.active && !dec.skip && dec.xid == tx.xid && dec.ordinal == rec - 1
    requires Assembled(env, tables, tx, rec - 1) == Some(Flushed(dec.batch, pending))
    requires DecodeRow(env, tables, dec, RecordOf(env, tx, rec)).Success?
    ensures var d := DecodeRow(env, tables, dec, RecordOf(env, tx, rec)).value;
            && Assembled(env, tables, tx, rec) == Some(Flushed(d.dec.batch, pending + d.out))
            && d.dec == dec.(ordinal := rec, batch := d.dec.batch) && d.seal.None?
  {
    var before, after := tx.changes[..rec - 1], tx.changes[..rec];
    assert after[..|after| - 1] == before;
    var row := Numbered(tables, tx.changes[rec - 1], rec).value;
    var rows := ConvertAll(tables, before).value;
    assert ConvertAll(tables, after) == Some(rows + [row]);
    assert (rows + [row])[..|rows|] == rows;
    AddMoves(env.limits, Flushed(dec.batch, pending), row);
    hide Add, Numbered;
  }

  lemma BareSuffix(a: seq<Message>, b: seq<Message>)
    requires Bare(a + b)
    ensures Bare(b)
  {
    forall i | 0 <= i < |b| ensures IsTx(b[i]) && Payload(b[i]) == b[i] {
      assert b[i] == (a + b)[|a| + i];
    }
  }

  lemma FlushEmpties(lim: Limits, lsn: string, rows: seq<Row>)
    requires AddAll(lim, RowsDraft(lsn), rows).Some?
    ensures Flush(AddAll(lim, RowsDraft(lsn), rows).value).batch.size == 0
  {
    hide AddAll, Flush;
    AddAllFilling(lim, RowsDraft(lsn), rows);
    FlushFilling(lim, RowsDraft(lsn), AddAll(lim, RowsDraft(lsn), rows).value);
  }

  /** Everything a collector appends for a transaction is a transaction message without an envelope. */
  lemma AttemptedBare(lim: Limits, lsn: string, rows: seq<Row>, whole: bool)
    ensures Bare(Attempted(lim, lsn, rows, whole))
  {
    hide AddAll, Flush, Admissible, Bare;
    if whole && Encode(lim, lsn, rows).Some? {
      ChunksAreBare(lim, lsn, rows);
      var f := AddAll(lim, RowsDraft(lsn), rows).value;
      EndIsBare(Flush(f).out, lsn, Flush(f).batch.draft.chunk);
    } else {
      AdmissibleAdds(lim, RowsDraft(lsn), rows);
      ChunksAreBare(lim, lsn, Admissible(lim, rows));
    }
  }

  lemma EndIsBare(out: seq<Message>, lsn: string, chunks: nat)
    requires Bare(out)
    ensures Bare(out + [EndDraft(lsn, chunks)])
  {
  }

  lemma DecodeCommitCompletes(env: Env, tables: Catalog, tx: Txn, dec: Decoder, pending: seq<Message>)
    requires FaithfulLsn(env) && dec.active && !dec.skip && dec.xid == tx.xid && dec.end == tx.end
    requires Assembled(env, tables, tx, |tx.changes|) == Some(Flushed(dec.batch, pending))
    ensures var r := DecodeCommit(env, dec, Commit(tx.xid, env.show(tx.end)));
            && r.Success? && r.value.seal == Some(env.show(tx.end))
            && r.value.dec == dec.(active := false, durable := tx.end, batch := r.value.dec.batch)
            && r.value.dec.batch.size == 0
            && Unit(env, Published(tx, tables)) == Some(pending + r.value.out) && Bare(r.value.out)
  {
    hide AddAll, Flush, ConvertAll, Bare, Filling;
    assert tx.changes[..|tx.changes|] == tx.changes;
    var rows, lsn := ConvertAll(tables, tx.changes).value, env.show(tx.end);
    ChunksAreBare(env.limits, lsn, rows);
    FlushMoves(dec.batch, pending);
    FlushEmpties(env.limits, lsn, rows);
    var f := Flush(Flushed(dec.batch, []));
    BareSuffix(pending, f.out);
    var end := EndDraft(lsn, f.batch.draft.chunk);
    EndIsBare(f.out, lsn, f.batch.draft.chunk);
    assert pending + f.out + [end] == pending + (f.out + [end]);
  }

  // ---------------------------------------------------------------- invariant

  predicate Commits(source: seq<Txn>) {
    && (forall i | 0 <= i < |source| :: source[i].end > 0)
    && (forall i, j | 0 <= i < j < |source| :: source[i].end < source[j].end)
  }

  function Staged(cfg: Q.Config, t: Q.Traced): seq<Message> {
    Q.Staged(t.d)
  }

  function Durable(env: Env, t: Q.Traced): nat {
    var durable := env.parse(t.d.state.durableLsn);
    if durable.Some? then durable.value else 0
  }

  /** Exactly the first n transactions of the source are at or before the durable position. */
  predicate Frontier(source: seq<Txn>, n: nat, durable: nat) {
    && n <= |source|
    && (forall i | 0 <= i < n :: source[i].end <= durable)
    && (forall i | n <= i < |source| :: source[i].end > durable)
  }

  /** The transactions past the snapshot point, in commit order, each published once and whole. */
  predicate DoneOk(env: Env, source: seq<Txn>, past: nat, done: seq<Published>, log: seq<Message>) {
    && past + |done| <= |source|
    && (forall i | 0 <= i < |done| :: done[i].tx == source[past + i] && Unit(env, done[i]).Some?)
    && TxPayloads(log) == Units(env, done)
  }

  /** Between transactions. */
  predicate Between(p: Proc, pending: seq<Message>)
    requires p.Streaming?
  {
    p.rec == 0 && !p.dec.active && p.dec.batch.size == 0 && pending == []
  }

  /** Inside a transaction that is being skipped, or whose messages so far are those of its rows so far. */
  predicate Inside(env: Env, tx: Txn, p: Proc, pending: seq<Message>)
    requires p.Streaming?
  {
    && 0 < p.rec <= |tx.changes| + 1
    && p.dec.active && p.dec.end == tx.end && p.dec.xid == tx.xid && (p.dec.skip <==> tx.end <= p.dec.durable)
    && if p.dec.skip then pending == [] && p.dec.batch.size == 0
       else p.dec.ordinal == p.rec - 1 && Assembled(env, p.tables, tx, p.rec - 1) == Some(Flushed(p.dec.batch, pending))
  }

  /** The messages of the next transaction are complete and about to be published. */
  predicate Sealing(env: Env, source: seq<Txn>, n: nat, p: Proc, pending: seq<Message>)
    requires p.Streaming?
  {
    && Between(p, []) && p.pos == n + 1 <= |source|
    && p.dec.durable == source[n].end && p.seal == Some(env.show(source[n].end))
    && Unit(env, Published(source[n], p.tables)) == Some(pending)
  }

  /** `staged` are the transaction messages stored but invisible. */
  predicate StreamingOk(env: Env, source: seq<Txn>, n: nat, durable: nat, p: Proc, staged: seq<Message>)
    requires p.Streaming?
  {
    && Bare(p.todo)
    && if p.seal.Some? then Sealing(env, source, n, p, staged + p.todo)
       else
         && p.dec.durable == durable && ReplaysFrom(source, p.pos, durable)
         && (Between(p, staged + p.todo) || (p.pos < |source| && Inside(env, source[p.pos], p, staged + p.todo)))
  }

  predicate RefreshingOk(env: Env, durable: nat, p: Proc, staged: seq<Message>)
    requires p.Refreshing?
  {
    staged == [] && p.lsn == env.show(durable) && forall i | 0 <= i < |p.drafts| :: !IsTx(p.drafts[i])
  }

  predicate ProcOk(env: Env, source: seq<Txn>, n: nat, durable: nat, p: Proc, staged: seq<Message>) {
    match p
    case Down => true
    case Streaming(_, _, _, _, _, _) => StreamingOk(env, source, n, durable, p, staged)
    case Refreshing(_, _, _, _) => RefreshingOk(env, durable, p, staged)
  }

  ghost predicate Ok(env: Env, source: seq<Txn>, past: nat, w: World) {
    var n, durable := past + |w.done|, Durable(env, w.t);
    && Q.TracedValid(env.queue, w.t) && w.t.d.state.phase.Stream? && env.parse(w.t.d.state.durableLsn).Some?
    && Frontier(source, n, durable) && DoneOk(env, source, past, w.done, w.t.log)
    && ProcOk(env, source, n, durable, w.proc, TxPayloads(Staged(env.queue, w.t)))
  }

  // ---------------------------------------------------------------- records

  lemma BeginOk(env: Env, source: seq<Txn>, n: nat, durable: nat, p: Proc, staged: seq<Message>)
    requires FaithfulLsn(env) && Commits(source) && p.Streaming? && p.todo == [] && p.seal.None? && p.pos < |source|
    requires StreamingOk(env, source, n, durable, p, staged) && p.rec == 0
    ensures var d := DecodeBegin(env, p.dec, RecordOf(env, source[p.pos], 0));
            && d.Success?
            && StreamingOk(env, source, n, durable,
                           p.(rec := 1, dec := d.value.dec, todo := d.value.out, seal := d.value.seal), staged)
  {
    var tx := source[p.pos];
    assert tx.changes[..0] == [];
    assert staged + [] == staged;
    var next := p.(rec := 1, dec := DecodeBegin(env, p.dec, RecordOf(env, tx, 0)).value.dec);
    assert Inside(env, tx, next, staged + []);
  }

  lemma RowOk(env: Env, source: seq<Txn>, n: nat, durable: nat, p: Proc, staged: seq<Message>)
    requires p.Streaming? && p.todo == [] && p.seal.None? && p.pos < |source| && 0 < p.rec <= |source[p.pos].changes|
    requires StreamingOk(env, source, n, durable, p, staged)
    requires DecodeRow(env, p.tables, p.dec, RecordOf(env, source[p.pos], p.rec)).Success?
    ensures var d := DecodeRow(env, p.tables, p.dec, RecordOf(env, source[p.pos], p.rec)).value;
            StreamingOk(env, source, n, durable, p.(rec := p.rec + 1, dec := d.dec, todo := d.out, seal := d.seal),
                        staged)
  {
    var tx := source[p.pos];
    var d := DecodeRow(env, p.tables, p.dec, RecordOf(env, tx, p.rec)).value;
    assert staged + [] == staged;
    assert Inside(env, tx, p, staged);
    if !p.dec.skip {
      DecodeRowExtends(env, p.tables, tx, p.rec, p.dec, staged);
      AssembledBare(env, p.tables, tx, p.rec);
      BareSuffix(staged, d.out);
      hide DecodeRow, Assembled;
      assert Inside(env, tx, p.(rec := p.rec + 1, dec := d.dec, todo := d.out, seal := d.seal), staged + d.out);
    }
  }

  lemma CommitSkips(env: Env, source: seq<Txn>, n: nat, durable: nat, p: Proc, staged: seq<Message>)
    requires FaithfulLsn(env) && p.Streaming? && p.todo == [] && p.seal.None? && p.pos < |source|
    requires p.rec > |source[p.pos].changes| && Frontier(source, n, durable) && p.dec.skip
    requires StreamingOk(env, source, n, durable, p, staged)
    ensures var d := DecodeCommit(env, p.dec, Commit(source[p.pos].xid, env.show(source[p.pos].end)));
            && d.Success?
            && StreamingOk(env, source, n, durable,
                           p.(pos := p.pos + 1, rec := 0, dec := d.value.dec, todo := d.value.out,
                              seal := d.value.seal), staged)
  {
    assert staged + [] == staged;
    assert Inside(env, source[p.pos], p, staged);
    hide Assembled, Unit;
  }

  lemma CommitCompletes(env: Env, source: seq<Txn>, n: nat, durable: nat, p: Proc, staged: seq<Message>)
    requires FaithfulLsn(env) && p.Streaming? && p.todo == [] && p.seal.None? && p.pos < |source|
    requires p.rec > |source[p.pos].changes| && Frontier(source, n, durable) && !p.dec.skip
    requires StreamingOk(env, source, n, durable, p, staged)
    ensures var d := DecodeCommit(env, p.dec, Commit(source[p.pos].xid, env.show(source[p.pos].end)));
            && d.Success?
            && StreamingOk(env, source, n, durable,
                           p.(pos := p.pos + 1, rec := 0, dec := d.value.dec, todo := d.value.out,
                              seal := d.value.seal), staged)
  {
    var tx := source[p.pos];
    assert staged + [] == staged;
    assert Inside(env, tx, p, staged) && ReplaysFrom(source, p.pos, durable) && tx.end > durable
           && p.rec == |tx.changes| + 1;
    hide DecodeCommit, Assembled, Unit, StreamingOk;
    AtFrontier(source, n, durable, p.pos);
    DecodeCommitCompletes(env, p.tables, tx, p.dec, staged);
    CommitSeals(env, source, n, durable, p, staged, DecodeCommit(env, p.dec, Commit(tx.xid, env.show(tx.end))).value);
  }

  lemma CommitOk(env: Env, source: seq<Txn>, n: nat, durable: nat, p: Proc, staged: seq<Message>)
    requires FaithfulLsn(env) && p.Streaming? && p.todo == [] && p.seal.None? && p.pos < |source|
    requires p.rec > |source[p.pos].changes| && Frontier(source, n, durable)
    requires StreamingOk(env, source, n, durable, p, staged)
    ensures var d := DecodeCommit(env, p.dec, Commit(source[p.pos].xid, env.show(source[p.pos].end)));
            && d.Success?
            && StreamingOk(env, source, n, durable,
                           p.(pos := p.pos + 1, rec := 0, dec := d.value.dec, todo := d.value.out,
                              seal := d.value.seal), staged)
  {
    if p.dec.skip {
      CommitSkips(env, source, n, durable, p, staged);
    } else {
      CommitCompletes(env, source, n, durable, p, staged);
    }
  }

  lemma CommitSeals(env: Env, source: seq<Txn>, n: nat, durable: nat, p: Proc, staged: seq<Message>, d: Decoded)
    requires p.Streaming? && p.pos == n < |source| && Bare(d.out)
    requires d.seal == Some(env.show(source[n].end))
             && Unit(env, Published(source[n], p.tables)) == Some(staged + d.out)
    requires !d.dec.active && d.dec.durable == source[n].end && d.dec.batch.size == 0
    ensures StreamingOk(env, source, n, durable,
                        p.(pos := p.pos + 1, rec := 0, dec := d.dec, todo := d.out, seal := d.seal), staged)
  {
    hide Unit, Inside;
  }

  /** The first transaction past the durable position is the next one to publish. */
  lemma AtFrontier(source: seq<Txn>, n: nat, durable: nat, pos: nat)
    requires Frontier(source, n, durable) && pos < |source| && ReplaysFrom(source, pos, durable)
             && source[pos].end > durable
    ensures pos == n
  {
    var frontier := if n < |source| then source[n].end else 0;
  }

  lemma ReceiveOk(env: Env, source: seq<Txn>, past: nat, w: World)
    requires FaithfulLsn(env) && Commits(source) && Ok(env, source, past, w)
    ensures Ok(env, source, past, DoReceive(env, source, w))
  {
    hide Q.TracedValid, Staged, TxPayloads, Frontier, DoneOk, StreamingOk;
    if Idle(source, w) && Next(env, source, w).Success? {
      var p, n, durable, staged := w.proc, past + |w.done|, Durable(env, w.t), TxPayloads(Staged(env.queue, w.t));
      if p.rec == 0 {
        BeginOk(env, source, n, durable, p, staged);
      } else if p.rec <= |source[p.pos].changes| {
        RowOk(env, source, n, durable, p, staged);
      } else {
        CommitOk(env, source, n, durable, p, staged);
      }
      hide DecodeBegin, DecodeRow, DecodeCommit;
    }
  }

  // ---------------------------------------------------------------- recovery

  lemma RecoverClears(env: Env, t: Q.Traced)
    requires Q.TracedValid(env.queue, t)
    ensures var next := Q.TraceStep(env.queue, t, Q.OpRecover);
            && Q.TracedValid(env.queue, next) && SamePublished(t, next)
            && Staged(env.queue, next) == [] && TxPayloads(Staged(env.queue, next)) == []
  {
    Q.TraceStepValid(env.queue, t, Q.OpRecover);
    Q.RecoverDiscardsStaged(env.queue, t.d);
  }

  lemma AttachOk(env: Env, source: seq<Txn>, past: nat, w: World, pos: nat, schemas: seq<TableSchema>, tables: Catalog)
    requires Ok(env, source, past, w)
    ensures Ok(env, source, past, DoAttach(env, source, w, pos, schemas, tables))
  {
    hide Q.TracedValid, Q.TraceStep, Staged, TxPayloads, DoneOk, Frontier;
    RecoverClears(env, w.t);
  }

  lemma SchemaIsNotTx(schemas: seq<TableSchema>, hash: string)
    ensures forall i | 0 <= i < |SchemaDrafts(schemas, hash)| :: !IsTx(SchemaDrafts(schemas, hash)[i])
  {
    var drafts := SchemaDrafts(schemas, hash);
    forall i | 0 <= i < |drafts| ensures !IsTx(drafts[i]) {
      assert i < |schemas| ==> drafts[i] == Draft(SchemaTable).(schemaVersion := hash, schema := Some(schemas[i]));
    }
  }

  lemma RefreshOk(env: Env, source: seq<Txn>, past: nat, w: World, schemas: seq<TableSchema>)
    requires Ok(env, source, past, w)
    ensures Ok(env, source, past, DoRefresh(env, source, w, schemas))
  {
    hide Q.TracedValid, Q.TraceStep, Staged, TxPayloads, DoneOk, Frontier, Next, SchemaDrafts, Between, Inside, Sealing;
    RecoverClears(env, w.t);
    SchemaIsNotTx(schemas, env.hash(schemas));
  }

  // ---------------------------------------------------------------- queue operations

  predicate SamePublished(t: Q.Traced, next: Q.Traced) {
    next.log == t.log && next.d.state.durableLsn == t.d.state.durableLsn && next.d.state.phase == t.d.state.phase
  }

  lemma StampedPayload(s: Q.State, m: Message, now: int)
    ensures Payload(Q.Stamp(s, m, now)) == Payload(m) && (IsTx(Q.Stamp(s, m, now)) <==> IsTx(m))
  {
  }

  /** A successful append moves the next message to the staged ones. */
  lemma AppendStages(env: Env, t: Q.Traced, m: Message, free: nat, now: int)
    requires Q.TracedValid(env.queue, t) && Q.Attempt(env.queue, t.d, Q.OpAppend(m, free, now)).Success?
    ensures var next := Q.TraceStep(env.queue, t, Q.OpAppend(m, free, now));
            && Q.TracedValid(env.queue, next) && next.log == t.log
            && next.d.state.durableLsn == t.d.state.durableLsn && next.d.state.phase == t.d.state.phase
            && TxPayloads(Staged(env.queue, next))
               == TxPayloads(Staged(env.queue, t)) + if IsTx(m) then [Payload(m)] else []
  {
    var op := Q.OpAppend(m, free, now);
    Q.TraceStepValid(env.queue, t, op);
    Q.AppendStages(env.queue, t.d, m, free, now);
    StampedPayload(t.d.state, m, now);
    var next, stamped := Q.TraceStep(env.queue, t, op), Q.Stamp(t.d.state, m, now);
    assert Staged(env.queue, next) == Staged(env.queue, t) + [stamped];
    TxPayloadsConcat(Staged(env.queue, t), [stamped]);
    assert [stamped][..0] == [];
  }

  /** Messages move from the process to the stage. */
  lemma StreamingMoves(env: Env, source: seq<Txn>, n: nat, durable: nat, p: Proc, staged: seq<Message>)
    requires p.Streaming? && StreamingOk(env, source, n, durable, p, staged) && p.todo != []
    ensures StreamingOk(env, source, n, durable, p.(todo := p.todo[1..]), staged + [p.todo[0]])
  {
    assert staged + [p.todo[0]] + p.todo[1..] == staged + p.todo;
    hide Unit, Assembled;
  }

  lemma PerformAppendOk(env: Env, source: seq<Txn>, past: nat, w: World, free: nat, now: int, m: Message)
    requires Ok(env, source, past, w) && NextOp(w, free, now) == Some(Q.OpAppend(m, free, now))
    requires Q.Attempt(env.queue, w.t.d, Q.OpAppend(m, free, now)).Success?
    ensures Ok(env, source, past, DoPerform(env, source, w, free, now))
  {
    hide Q.TracedValid, Staged, TxPayloads, DoneOk, Frontier;
    var p, n, durable, staged := w.proc, past + |w.done|, Durable(env, w.t), TxPayloads(Staged(env.queue, w.t));
    var t := Q.TraceStep(env.queue, w.t, Q.OpAppend(m, free, now));
    AppendStages(env, w.t, m, free, now);
    assert DoPerform(env, source, w, free, now) == World(t, Advanced(p), w.done);
    hide TxPayloads, DoneOk, Frontier, Q.TraceStep, Q.Attempt, DoPerform;
    assert ProcOk(env, source, n, durable, Advanced(p), TxPayloads(Staged(env.queue, t))) by {
      if p.Streaming? {
        StreamingMoves(env, source, n, durable, p, staged);
        assert IsTx(p.todo[0]) && Payload(p.todo[0]) == p.todo[0];
      }
      hide Between, Inside, Sealing;
    }
  }

  lemma AckKeepsStaged(env: Env, t: Q.Traced, seqNo: nat, id: MessageId, now: int)
    requires Q.TracedValid(env.queue, t)
    ensures var next := Q.TraceStep(env.queue, t, Q.OpAck(seqNo, id, now));
            Q.TracedValid(env.queue, next) && SamePublished(t, next) && Staged(env.queue, next) == Staged(env.queue, t)
  {
    hide Q.Accounted;
    var op := Q.OpAck(seqNo, id, now);
    Q.TraceStepValid(env.queue, t, op);
    Q.StepKeepsReadable(env.queue, t.d, op);
    var next := Q.TraceStep(env.queue, t, op);
    assert next.d.state.nextSeq == t.d.state.nextSeq && next.d.state.readySeq == t.d.state.readySeq;
    forall k: nat | t.d.state.readySeq < k <= t.d.state.nextSeq ensures next.d.items[k] == t.d.items[k] {
      assert k in next.d.items;
    }
  }

  /** An acknowledgement leaves the staged messages alone. */
  lemma DeliverOk(env: Env, source: seq<Txn>, past: nat, w: World, seqNo: nat, id: MessageId, now: int)
    requires Ok(env, source, past, w)
    ensures Ok(env, source, past, w.(t := Q.TraceStep(env.queue, w.t, Q.OpAck(seqNo, id, now))))
  {
    hide Q.TracedValid, Q.TraceStep, Staged, TxPayloads, DoneOk, ProcOk, Frontier;
    AckKeepsStaged(env, w.t, seqNo, id, now);
  }

  lemma PublishMoves(env: Env, t: Q.Traced, op: Q.Op)
    requires Q.TracedValid(env.queue, t) && Q.Publishes(op) && Q.Attempt(env.queue, t.d, op).Success?
    ensures var next := Q.TraceStep(env.queue, t, op);
            && Q.TracedValid(env.queue, next) && TxPayloads(Staged(env.queue, next)) == []
            && TxPayloads(next.log) == TxPayloads(t.log) + TxPayloads(Staged(env.queue, t))
            && next.d.state.durableLsn == (if op.OpPublish? then op.lsn else op.schemaLsn)
  {
    Q.TraceStepValid(env.queue, t, op);
    Q.PublishExposesStaged(env.queue, t, op);
    TxPayloadsConcat(t.log, Staged(env.queue, t));
  }

  lemma SealState(env: Env, source: seq<Txn>, w: World, free: nat, now: int)
    requires Q.TracedValid(env.queue, w.t) && w.t.d.state.phase.Stream? && w.proc.Streaming?
    requires w.proc.todo == [] && w.proc.seal.Some? && 0 < w.proc.pos <= |source|
    ensures var t := Q.TraceStep(env.queue, w.t, Q.OpPublish(w.proc.seal.value, false, ""));
            && t.d.state.phase.Stream?
            && DoPerform(env, source, w, free, now) ==
               World(t, w.proc.(seal := None), w.done + [Published(source[w.proc.pos - 1], w.proc.tables)])
  {
  }

  /** Publication: the staged messages are one whole transaction, and it is the next one. */
  lemma PerformSealOk(env: Env, source: seq<Txn>, past: nat, w: World, free: nat, now: int)
    requires FaithfulLsn(env) && Commits(source) && Ok(env, source, past, w) && w.proc.Streaming?
    requires w.proc.todo == [] && w.proc.seal.Some?
    ensures Ok(env, source, past, DoPerform(env, source, w, free, now))
  {
    hide Q.TracedValid, Staged, TxPayloads, DoneOk, Frontier, DoPerform, Q.TraceStep, Unit;
    var p, n, staged := w.proc, past + |w.done|, TxPayloads(Staged(env.queue, w.t));
    assert staged + [] == staged;
    assert Sealing(env, source, n, p, staged);
    var op := Q.OpPublish(p.seal.value, false, "");
    var t, tx := Q.TraceStep(env.queue, w.t, op), Published(source[n], p.tables);
    PublishMoves(env, w.t, op);
    SealState(env, source, w, free, now);
    DoneGrows(env, source, past, w.done, w.t.log, tx, staged, t.log);
    SealedProc(env, source, n, Durable(env, w.t), p, staged);
    Compose(env, source, past, World(t, p.(seal := None), w.done + [tx]));
  }

  lemma Compose(env: Env, source: seq<Txn>, past: nat, w: World)
    requires Q.TracedValid(env.queue, w.t) && w.t.d.state.phase.Stream? && env.parse(w.t.d.state.durableLsn).Some?
    requires Frontier(source, past + |w.done|, Durable(env, w.t)) && DoneOk(env, source, past, w.done, w.t.log)
    requires ProcOk(env, source, past + |w.done|, Durable(env, w.t), w.proc, TxPayloads(Staged(env.queue, w.t)))
    ensures Ok(env, source, past, w)
  {
  }

  lemma SealedProc(env: Env, source: seq<Txn>, n: nat, durable: nat, p: Proc, staged: seq<Message>)
    requires Commits(source) && p.Streaming? && p.todo == [] && Sealing(env, source, n, p, staged)
             && Frontier(source, n, durable)
    ensures Frontier(source, n + 1, source[n].end)
    ensures StreamingOk(env, source, n + 1, source[n].end, p.(seal := None), [])
  {
    hide Unit;
  }

  lemma DoneGrows(env: Env, source: seq<Txn>, past: nat, done: seq<Published>, log: seq<Message>, tx: Published,
                  staged: seq<Message>, longer: seq<Message>)
    requires DoneOk(env, source, past, done, log) && past + |done| < |source| && tx.tx == source[past + |done|]
    requires Unit(env, tx) == Some(staged) && TxPayloads(longer) == TxPayloads(log) + staged
    ensures DoneOk(env, source, past, done + [tx], longer)
  {
    hide TxPayloads, Unit;
    assert (done + [tx])[..|done|] == done;
  }

  lemma PerformRefreshOk(env: Env, source: seq<Txn>, past: nat, w: World, free: nat, now: int)
    requires FaithfulLsn(env) && Ok(env, source, past, w) && w.proc.Refreshing? && w.proc.drafts == []
    requires Q.Attempt(env.queue, w.t.d, Q.OpPublishSchema(w.proc.lsn, w.proc.hash)).Success?
    ensures Ok(env, source, past, DoPerform(env, source, w, free, now))
  {
    hide Q.TracedValid, Staged, TxPayloads, Units, Unit;
    var op := Q.OpPublishSchema(w.proc.lsn, w.proc.hash);
    PublishMoves(env, w.t, op);
    var t := Q.TraceStep(env.queue, w.t, op);
    assert DoPerform(env, source, w, free, now) == World(t, Down, w.done);
    assert t.d.state.phase.Stream?;
    hide TxPayloads, Units, Unit, Q.TraceStep, DoPerform, Q.Attempt;
  }

  lemma PerformOk(env: Env, source: seq<Txn>, past: nat, w: World, free: nat, now: int)
    requires FaithfulLsn(env) && Commits(source) && Ok(env, source, past, w)
    ensures Ok(env, source, past, DoPerform(env, source, w, free, now))
  {
    var op := NextOp(w, free, now);
    if op.Some? && Q.Attempt(env.queue, w.t.d, op.value).Success? {
      if op.value.OpAppend? {
        PerformAppendOk(env, source, past, w, free, now, op.value.m);
      } else if w.proc.Streaming? {
        PerformSealOk(env, source, past, w, free, now);
      } else {
        PerformRefreshOk(env, source, past, w, free, now);
      }
    }
  }

  lemma CrashOk(env: Env, source: seq<Txn>, past: nat, w: World)
    requires Ok(env, source, past, w)
    ensures Ok(env, source, past, w.(proc := Down))
  {
    hide Q.TracedValid, Staged, TxPayloads, DoneOk, Frontier;
  }

  lemma StepOk(env: Env, source: seq<Txn>, past: nat, w: World, step: Step)
    requires FaithfulLsn(env) && Commits(source) && Ok(env, source, past, w)
    ensures Ok(env, source, past, Do(env, source, w, step))
  {
    assert Q.TracedValid(env.queue, w.t);
    hide Ok, Q.TracedValid, DoAttach, DoReceive, DoPerform, DoRefresh, Q.TraceStep;
    match step
    case Attach(pos, schemas, tables) => AttachOk(env, source, past, w, pos, schemas, tables);
    case Receive => ReceiveOk(env, source, past, w);
    case Perform(free, now) => PerformOk(env, source, past, w, free, now);
    case Refresh(schemas) => RefreshOk(env, source, past, w, schemas);
    case Crash => CrashOk(env, source, past, w);
    case Deliver(seqNo, id, now) => DeliverOk(env, source, past, w, seqNo, id, now);
  }

  /** A queue just sealed by a snapshot: `past` transactions of the source are covered by it. */
  ghost predicate Snapshotted(env: Env, source: seq<Txn>, past: nat, w: World) {
    && Q.TracedValid(env.queue, w.t) && w.t.d.state.phase.Stream? && env.parse(w.t.d.state.durableLsn).Some?
    && past <= |source| && Frontier(source, past, Durable(env, w.t))
    && TxPayloads(w.t.log) == [] && w.proc.Down? && w.done == []
  }

  lemma {:induction false} RunOk(env: Env, source: seq<Txn>, past: nat, w: World, steps: seq<Step>)
    requires FaithfulLsn(env) && Commits(source) && Ok(env, source, past, w)
    ensures Ok(env, source, past, Run(env, source, w, steps))
    decreases |steps|
  {
    assert Q.TracedValid(env.queue, w.t);
    hide Ok, Do, Q.TracedValid;
    if steps != [] {
      RunOk(env, source, past, w, steps[..|steps| - 1]);
      StepOk(env, source, past, Run(env, source, w, steps[..|steps| - 1]), steps[|steps| - 1]);
    }
  }

  /** Exactly once: in every run, whatever crashes, reconnects and replays happen, the published transaction
      messages are those of the source transactions between the snapshot point and the durable position, in
      commit order, each encoded whole. */
  lemma ExactlyOnce(env: Env, source: seq<Txn>, past: nat, w: World, steps: seq<Step>)
    requires FaithfulLsn(env) && Commits(source) && Snapshotted(env, source, past, w)
    ensures var r := Run(env, source, w, steps);
            && Frontier(source, past + |r.done|, Durable(env, r.t))
            && (forall i | 0 <= i < |r.done| :: r.done[i].tx == source[past + i] && Unit(env, r.done[i]).Some?)
            && TxPayloads(r.t.log) == Units(env, r.done)
  {
    assert Units(env, []) == [];
    hide Q.TracedValid, Staged, TxPayloads, Units, Unit, ProcOk, Run, Frontier;
    assert Ok(env, source, past, w);
    RunOk(env, source, past, w, steps);
  }
}
