/** Every log the PostgreSQL capture publishes is well formed: the snapshot, then whole
    transactions and whole schema refreshes under consistent schema versions. */
module CaptureStream {
  import opened Event
  import Q = Queue
  import opened Batching
  import opened Capture
  import opened Barrier
  import opened Target
  import PgRows
  import U = Units

  /** There are captured tables, and none is listed twice. */
  predicate Captures(env: Env) {
    env.tables != [] && DistinctTables(env.tables)
  }

  // ---------------------------------------------------------------- speaking

  lemma {:induction false} SpeakAllConcat(tables: set<TableRef>, s: Stream, a: seq<Message>, b: seq<Message>)
    ensures SpeakAll(tables, s, a + b) ==
            if SpeakAll(tables, s, a).None? then None else SpeakAll(tables, SpeakAll(tables, s, a).value, b)
    decreases |b|
  {
    if b == [] {
      assert a + b == a;
    } else {
      assert (a + b)[..|a + b| - 1] == a + b[..|b| - 1];
      SpeakAllConcat(tables, s, a, b[..|b| - 1]);
    }
  }

  /** Transaction messages of one schema version. */
  predicate TxUnder(version: string, messages: seq<Message>) {
    forall i | 0 <= i < |messages| :: IsTx(messages[i]) && messages[i].schemaVersion == version
  }

  /** The chunks of a transaction leave it open. */
  lemma {:induction false} ChunksSpeak(lim: Limits, tables: set<TableRef>, version: string, lsn: string,
                                       messages: seq<Message>)
    requires TxUnder(version, messages) && messages != [] && lsn != ""
    requires Chunked(lim, RowsDraft(lsn), Payloads(messages))
    ensures SpeakAll(tables, Idle(version), messages) == Some(InTransaction(version, lsn))
    decreases |messages|
  {
    var front, last := messages[..|messages| - 1], messages[|messages| - 1];
    assert Payloads(messages)[|front|] == Payload(last);
    if front != [] {
      assert forall i | 0 <= i < |front| :: Payloads(front)[i] == Payloads(messages)[i];
      ChunksSpeak(lim, tables, version, lsn, front);
    }
  }

  /** A whole transaction goes from idle to idle; without rows it is a lone end. */
  lemma UnitSpeaks(lim: Limits, tables: set<TableRef>, version: string, lsn: string, rows: seq<Row>,
                   messages: seq<Message>)
    requires TxUnder(version, messages) && lsn != ""
    requires Encode(lim, lsn, rows) == Some(Payloads(messages))
    ensures SpeakAll(tables, Idle(version), messages) == Some(Idle(version))
  {
    hide Encode, Chunked, Within, RowsDraft;
    EncodeChunks(lim, lsn, rows);
    var n := |messages| - 1;
    assert Payloads(messages)[..n] == Payloads(messages[..n]);
    if rows != [] {
      ChunksSpeak(lim, tables, version, lsn, messages[..n]);
    }
    assert Payloads(messages)[n] == Payload(messages[n]);
  }

  /** A message without the envelope the queue puts on it, but with its schema version. */
  function Plain(m: Message): Message {
    Payload(m).(schemaVersion := m.schemaVersion)
  }

  function Plains(messages: seq<Message>): seq<Message> {
    seq(|messages|, i requires 0 <= i < |messages| => Plain(messages[i]))
  }

  lemma SchemaDraftAt(schemas: seq<TableSchema>, hash: string, i: nat)
    requires i < |schemas|
    ensures |SchemaDrafts(schemas, hash)| == |schemas| + 1
    ensures SchemaDrafts(schemas, hash)[i] == Draft(SchemaTable).(schemaVersion := hash, schema := Some(schemas[i]))
  {
  }

  lemma {:induction false} AnnouncementsSpeak(env: Env, version: string, schemas: seq<TableSchema>, hash: string,
                                              messages: seq<Message>)
    requires CatalogOf(env, schemas) && DistinctTables(env.tables) && hash != "" && hash != version
    requires 0 < |messages| <= |schemas|
    requires forall i | 0 <= i < |messages| :: Plain(messages[i]) == SchemaDrafts(schemas, hash)[i]
    ensures SpeakAll(TableSet(env.tables), Idle(version), messages)
            == Some(InRefresh(version, hash, TableSet(env.tables[..|messages|])))
    decreases |messages|
  {
    hide SchemaDrafts, DistinctTables, CatalogOf, Announces, Plain;
    var front, n := messages[..|messages| - 1], |messages| - 1;
    AnnouncementFits(env, schemas, hash, messages[n], n);
    NextTable(env.tables, n);
    if front == [] {
      NotAFile(messages[n], hash, TableSet(env.tables));
    } else {
      AnnouncementsSpeak(env, version, schemas, hash, front);
    }
  }

  lemma AnnouncementFits(env: Env, schemas: seq<TableSchema>, hash: string, m: Message, n: nat)
    requires CatalogOf(env, schemas) && DistinctTables(env.tables) && hash != "" && n < |schemas|
    requires Plain(m) == SchemaDrafts(schemas, hash)[n]
    ensures Announces(TableSet(env.tables), m, hash, TableSet(env.tables[..n])) && m.schema.value.table == env.tables[n]
    ensures m.schemaVersion == hash && n < |env.tables|
  {
    SchemaDraftAt(schemas, hash, n);
    NextTable(env.tables, n);
    hide SchemaDrafts, DistinctTables, CatalogOf;
    assert m.schema == Some(schemas[n]) && m.schemaVersion == hash && m.kind.SchemaTable?;
  }

  lemma NotAFile(m: Message, hash: string, tables: set<TableRef>)
    requires Announces(tables, m, hash, {})
    ensures m.kind.SchemaTable?
  {
  }

  /** One more of the distinct tables. */
  lemma NextTable(tables: seq<TableRef>, n: nat)
    requires DistinctTables(tables) && n < |tables|
    ensures tables[n] in TableSet(tables) && tables[n] !in TableSet(tables[..n])
    ensures TableSet(tables[..n + 1]) == TableSet(tables[..n]) + {tables[n]}
    ensures n == 0 ==> TableSet(tables[..n]) == {} && TableSet(tables[..n + 1]) == {tables[n]}
  {
    assert tables[..n + 1] == tables[..n] + [tables[n]];
  }

  /** A whole schema refresh goes from idle under the old version to idle under the new one. */
  lemma RefreshSpeaks(env: Env, version: string, schemas: seq<TableSchema>, hash: string, messages: seq<Message>)
    requires CatalogOf(env, schemas) && Captures(env) && hash != "" && hash != version
    requires Plains(messages) == SchemaDrafts(schemas, hash)
    ensures SpeakAll(TableSet(env.tables), Idle(version), messages) == Some(Idle(hash))
  {
    var n := |messages| - 1;
    forall i | 0 <= i < n ensures Plain(messages[i]) == SchemaDrafts(schemas, hash)[i] {
      assert Plains(messages)[i] == Plain(messages[i]);
    }
    AnnouncementsSpeak(env, version, schemas, hash, messages[..n]);
    assert Plains(messages)[n] == Plain(messages[n]);
    assert env.tables[..|env.tables|] == env.tables;
  }

  // ---------------------------------------------------------------- every run

  function Hash(t: Q.Traced): string {
    t.d.state.schemaHash
  }

  /** The decoder's catalog is one with this schema hash. */
  ghost predicate Versioned(env: Env, version: string, tables: Catalog) {
    exists schemas :: env.hash(schemas) == version && Catalogs(schemas, tables)
  }

  /** The published log is a spoken stream at rest; the invisible messages are a piece of the next unit. */
  ghost predicate Speaks(env: Env, w: World) {
    && Q.TracedValid(env.queue, w.t)
    && Hash(w.t) != "" && SpeakAll(TableSet(env.tables), Fresh, w.t.log) == Some(Idle(Hash(w.t)))
    && (w.proc.Streaming? ==> TxUnder(Hash(w.t), Staged(env.queue, w.t)) && Versioned(env, Hash(w.t), w.proc.tables))
    && (w.proc.Refreshing? ==>
          && CatalogOf(env, w.proc.schemas) && w.proc.hash == env.hash(w.proc.schemas) != "" && w.proc.hash != Hash(w.t)
          && Plains(Staged(env.queue, w.t)) + w.proc.drafts == SchemaDrafts(w.proc.schemas, w.proc.hash))
  }

  lemma HashKept(cfg: Q.Config, t: Q.Traced, op: Q.Op)
    requires Q.TracedValid(cfg, t) && (op.OpRecover? || op.OpAppend? || op.OpPublish? || op.OpAck?)
    ensures Hash(Q.TraceStep(cfg, t, op)) == Hash(t)
  {
  }

  lemma AppendMoves(env: Env, t: Q.Traced, m: Message, free: nat, now: int)
    requires Q.TracedValid(env.queue, t) && Q.Attempt(env.queue, t.d, Q.OpAppend(m, free, now)).Success?
    ensures var next := Q.TraceStep(env.queue, t, Q.OpAppend(m, free, now));
            && Q.TracedValid(env.queue, next) && next.log == t.log && Hash(next) == Hash(t)
            && Staged(env.queue, next) == Staged(env.queue, t) + [Q.Stamp(t.d.state, m, now)]
  {
    var op := Q.OpAppend(m, free, now);
    Q.TraceStepValid(env.queue, t, op);
    Q.AppendStages(env.queue, t.d, m, free, now);
    HashKept(env.queue, t, op);
  }

  lemma StampedTx(s: Q.State, m: Message, now: int)
    requires IsTx(m) && Payload(m) == m
    ensures IsTx(Q.Stamp(s, m, now)) && Q.Stamp(s, m, now).schemaVersion == s.schemaHash
  {
  }

  lemma StampedSchema(s: Q.State, schemas: seq<TableSchema>, hash: string, i: nat, now: int)
    requires i < |SchemaDrafts(schemas, hash)| && hash != ""
    ensures Plain(Q.Stamp(s, SchemaDrafts(schemas, hash)[i], now)) == SchemaDrafts(schemas, hash)[i]
  {
    if i < |schemas| {
      assert SchemaDrafts(schemas, hash)[i] == Draft(SchemaTable).(schemaVersion := hash, schema := Some(schemas[i]));
    }
  }

  lemma StreamAppendSpeaks(env: Env, w: World, t: Q.Traced, stamped: Message)
    requires Speaks(env, w) && w.proc.Streaming? && w.proc.todo != []
    requires Q.TracedValid(env.queue, t) && t.log == w.t.log && Hash(t) == Hash(w.t)
    requires Staged(env.queue, t) == Staged(env.queue, w.t) + [stamped] && IsTx(stamped)
             && stamped.schemaVersion == Hash(w.t)
    ensures Speaks(env, w.(t := t, proc := Advanced(w.proc)))
  {
    hide Q.TracedValid, Staged, SpeakAll;
  }

  lemma RefreshAppendSpeaks(env: Env, w: World, t: Q.Traced, stamped: Message)
    requires Speaks(env, w) && w.proc.Refreshing? && w.proc.drafts != []
    requires Q.TracedValid(env.queue, t) && t.log == w.t.log && Hash(t) == Hash(w.t)
    requires Staged(env.queue, t) == Staged(env.queue, w.t) + [stamped] && Plain(stamped) == w.proc.drafts[0]
    ensures Speaks(env, w.(t := t, proc := Advanced(w.proc)))
  {
    hide Q.TracedValid, Staged, SpeakAll, SchemaDrafts;
    var staged, drafts := Staged(env.queue, w.t), w.proc.drafts;
    assert Plains(staged + [stamped]) == Plains(staged) + [drafts[0]];
    assert Plains(staged) + [drafts[0]] + drafts[1..] == Plains(staged) + drafts;
  }

  lemma PerformAppendSpeaks(env: Env, source: seq<Txn>, past: nat, w: World, free: nat, now: int, m: Message)
    requires Ok(env, source, past, w) && Speaks(env, w) && NextOp(w, free, now) == Some(Q.OpAppend(m, free, now))
    requires Q.Attempt(env.queue, w.t.d, Q.OpAppend(m, free, now)).Success?
    ensures Speaks(env, DoPerform(env, source, w, free, now))
  {
    hide Q.TraceStep, Q.TracedValid, Staged, SpeakAll, SchemaDrafts, DoneOk, Frontier, Sealing, Between, Inside,
         Q.Stamp, Versioned, CatalogOf, Plains;
    var t, stamped := Q.TraceStep(env.queue, w.t, Q.OpAppend(m, free, now)), Q.Stamp(w.t.d.state, m, now);
    AppendMoves(env, w.t, m, free, now);
    if w.proc.Streaming? {
      assert Bare(w.proc.todo);
      StampedTx(w.t.d.state, m, now);
      StreamAppendSpeaks(env, w, t, stamped);
    } else {
      NextAnnounced(env, w, m, now);
      RefreshAppendSpeaks(env, w, t, stamped);
    }
  }

  /** The next message of a refresh keeps its schema version when it is stamped. */
  lemma NextAnnounced(env: Env, w: World, m: Message, now: int)
    requires Speaks(env, w) && w.proc.Refreshing? && w.proc.drafts != [] && w.proc.drafts[0] == m
    ensures Plain(Q.Stamp(w.t.d.state, m, now)) == m
  {
    hide Q.TracedValid, Staged, SpeakAll, SchemaDrafts, Q.Stamp, CatalogOf;
    var i := |Plains(Staged(env.queue, w.t))|;
    assert SchemaDrafts(w.proc.schemas, w.proc.hash)[i] == (Plains(Staged(env.queue, w.t)) + w.proc.drafts)[i] == m;
    StampedSchema(w.t.d.state, w.proc.schemas, w.proc.hash, i, now);
  }

  lemma PublishAll(env: Env, t: Q.Traced, op: Q.Op)
    requires Q.TracedValid(env.queue, t) && Q.Publishes(op) && Q.Attempt(env.queue, t.d, op).Success?
    ensures var next := Q.TraceStep(env.queue, t, op);
            && Q.TracedValid(env.queue, next) && Staged(env.queue, next) == []
               && next.log == t.log + Staged(env.queue, t)
            && Hash(next) == (if op.OpPublishSchema? then op.hash else Hash(t))
  {
    Q.TraceStepValid(env.queue, t, op);
    Q.PublishExposesStaged(env.queue, t, op);
  }

  lemma {:induction false} ConvertedCount(tables: Catalog, changes: seq<PgRows.ChangeRecord>)
    requires ConvertAll(tables, changes).Some?
    ensures |ConvertAll(tables, changes).value| == |changes|
    decreases |changes|
  {
    if changes != [] {
      ConvertedCount(tables, changes[..|changes| - 1]);
    }
  }

  /** What is about to be published is one whole transaction. */
  lemma StagedUnitSpeaks(env: Env, source: seq<Txn>, n: nat, p: Proc, h: string, staged: seq<Message>)
    requires FaithfulLsn(env) && TxUnder(h, staged)
    requires p.Streaming? && Sealing(env, source, n, p, TxPayloads(staged))
    ensures SpeakAll(TableSet(env.tables), Idle(h), staged) == Some(Idle(h))
  {
    TxPayloadsOfTx(staged);
    var rows := ConvertAll(p.tables, source[n].changes).value;
    UnitSpeaks(env.limits, TableSet(env.tables), h, env.show(source[n].end), rows, staged);
  }

  lemma PerformSealSpeaks(env: Env, source: seq<Txn>, past: nat, w: World, free: nat, now: int)
    requires FaithfulLsn(env) && Ok(env, source, past, w) && Speaks(env, w)
    requires w.proc.Streaming? && w.proc.todo == [] && w.proc.seal.Some?
    ensures Speaks(env, DoPerform(env, source, w, free, now))
  {
    hide Q.TracedValid, Staged, SpeakAll, TxPayloads, DoPerform, Q.TraceStep, Unit, DoneOk, Frontier;
    var p, n, staged, h := w.proc, past + |w.done|, Staged(env.queue, w.t), Hash(w.t);
    assert TxPayloads(staged) + [] == TxPayloads(staged);
    StagedUnitSpeaks(env, source, n, p, h, staged);
    PublishAll(env, w.t, Q.OpPublish(p.seal.value, false, ""));
    SealState(env, source, w, free, now);
    SpeakAllConcat(TableSet(env.tables), Fresh, w.t.log, staged);
  }

  lemma PerformRefreshSpeaks(env: Env, source: seq<Txn>, w: World, free: nat, now: int)
    requires Captures(env) && Speaks(env, w) && w.proc.Refreshing? && w.proc.drafts == []
    requires Q.Attempt(env.queue, w.t.d, Q.OpPublishSchema(w.proc.lsn, w.proc.hash)).Success?
    ensures Speaks(env, DoPerform(env, source, w, free, now))
  {
    var p, staged, h := w.proc, Staged(env.queue, w.t), Hash(w.t);
    assert Plains(staged) + [] == Plains(staged);
    RefreshSpeaks(env, h, p.schemas, p.hash, staged);
    PublishAll(env, w.t, Q.OpPublishSchema(p.lsn, p.hash));
    SpeakAllConcat(TableSet(env.tables), Fresh, w.t.log, staged);
    hide Q.TracedValid, Staged, SpeakAll, SchemaDrafts, Q.TraceStep;
  }

  lemma StepSpeaks(env: Env, source: seq<Txn>, past: nat, w: World, step: Step)
    requires FaithfulLsn(env) && Captures(env)
    requires Ok(env, source, past, w) && Speaks(env, w)
    ensures Speaks(env, Do(env, source, w, step))
  {
    hide Q.TracedValid, Staged, SpeakAll, Ok, Q.TraceStep, DoAttach, DoRefresh, DoReceive, DoPerform;
    match step
    case Attach(pos, schemas, tables) => AttachSpeaks(env, source, w, pos, schemas, tables);
    case Refresh(schemas) => RefreshStepSpeaks(env, source, w, schemas);
    case Deliver(seqNo, id, now) => DeliverSpeaks(env, w, seqNo, id, now);
    case Perform(free, now) => PerformSpeaks(env, source, past, w, free, now);
    case Receive => ReceiveSpeaks(env, source, w);
    case Crash =>
  }

  lemma AttachSpeaks(env: Env, source: seq<Txn>, w: World, pos: nat, schemas: seq<TableSchema>, tables: Catalog)
    requires Speaks(env, w)
    ensures Speaks(env, DoAttach(env, source, w, pos, schemas, tables))
  {
    hide Q.TracedValid, Staged, SpeakAll, Q.TraceStep;
    RecoverClears(env, w.t);
    HashKept(env.queue, w.t, Q.OpRecover);
  }

  lemma RefreshStepSpeaks(env: Env, source: seq<Txn>, w: World, schemas: seq<TableSchema>)
    requires Speaks(env, w)
    ensures Speaks(env, DoRefresh(env, source, w, schemas))
  {
    hide Q.TracedValid, Staged, SpeakAll, Q.TraceStep, Next, SchemaDrafts;
    RecoverClears(env, w.t);
    HashKept(env.queue, w.t, Q.OpRecover);
    var drafts := SchemaDrafts(schemas, env.hash(schemas));
    assert Plains([]) + drafts == drafts;
  }

  lemma DeliverSpeaks(env: Env, w: World, seqNo: nat, id: MessageId, now: int)
    requires Speaks(env, w)
    ensures Speaks(env, w.(t := Q.TraceStep(env.queue, w.t, Q.OpAck(seqNo, id, now))))
  {
    hide Q.TracedValid, Staged, SpeakAll, Q.TraceStep;
    AckKeepsStaged(env, w.t, seqNo, id, now);
    HashKept(env.queue, w.t, Q.OpAck(seqNo, id, now));
  }

  lemma ReceiveSpeaks(env: Env, source: seq<Txn>, w: World)
    requires Speaks(env, w)
    ensures Speaks(env, DoReceive(env, source, w))
  {
    hide Q.TracedValid, Staged, SpeakAll, Next;
  }

  lemma PerformSpeaks(env: Env, source: seq<Txn>, past: nat, w: World, free: nat, now: int)
    requires FaithfulLsn(env) && Captures(env)
    requires Ok(env, source, past, w) && Speaks(env, w)
    ensures Speaks(env, DoPerform(env, source, w, free, now))
  {
    var op := NextOp(w, free, now);
    if op.Some? && Q.Attempt(env.queue, w.t.d, op.value).Success? {
      if op.value.OpAppend? {
        PerformAppendSpeaks(env, source, past, w, free, now, op.value.m);
      } else if w.proc.Streaming? {
        PerformSealSpeaks(env, source, past, w, free, now);
      } else {
        PerformRefreshSpeaks(env, source, w, free, now);
      }
    }
  }

  /** In every run, from a sealed snapshot on, the published log is a well-formed stream, at rest. */
  lemma {:induction false} PublishedLogSpeaks(env: Env, source: seq<Txn>, past: nat, w: World, steps: seq<Step>)
    requires FaithfulLsn(env) && Commits(source) && Captures(env)
    requires Ok(env, source, past, w) && Speaks(env, w)
    ensures var r := Run(env, source, w, steps); SpeakAll(TableSet(env.tables), Fresh, r.t.log) == Some(Idle(Hash(r.t)))
    ensures Ok(env, source, past, Run(env, source, w, steps)) && Speaks(env, Run(env, source, w, steps))
    decreases |steps|
  {
    RunOk(env, source, past, w, steps);
    if steps != [] {
      var front := steps[..|steps| - 1];
      PublishedLogSpeaks(env, source, past, w, front);
      hide Ok, Do, Q.TracedValid, SpeakAll;
      StepSpeaks(env, source, past, Run(env, source, w, front), steps[|steps| - 1]);
    }
  }

  // ---------------------------------------------------------------- whole units

  /** What is about to be published ends with the transaction's end marker. */
  lemma SealedLast(env: Env, source: seq<Txn>, n: nat, p: Proc, h: string, staged: seq<Message>)
    requires TxUnder(h, staged) && p.Streaming? && Sealing(env, source, n, p, TxPayloads(staged))
    ensures staged != [] && staged[|staged| - 1].kind.TransactionEnd?
  {
    TxPayloadsOfTx(staged);
    var rows := ConvertAll(p.tables, source[n].changes).value;
    EncodeChunks(env.limits, env.show(source[n].end), rows);
    assert Payloads(staged)[|staged| - 1] == Payload(staged[|staged| - 1]);
  }

  lemma RefreshLast(schemas: seq<TableSchema>, hash: string, staged: seq<Message>)
    requires Plains(staged) == SchemaDrafts(schemas, hash)
    ensures staged != [] && staged[|staged| - 1].kind.SchemaEnd?
  {
    assert Plains(staged)[|staged| - 1] == Plain(staged[|staged| - 1]);
  }

  lemma AppendDisciplined(env: Env, source: seq<Txn>, past: nat, w: World, free: nat, now: int, m: Message)
    requires Ok(env, source, past, w) && Speaks(env, w) && NextOp(w, free, now) == Some(Q.OpAppend(m, free, now))
    ensures U.Disciplined(w.t.d, Q.OpAppend(m, free, now))
  {
    hide Q.TracedValid, Staged, SpeakAll, DoneOk, Frontier, SchemaDrafts, Sealing, Between, Inside;
    if w.proc.Streaming? {
      assert Bare(w.proc.todo) && IsTx(m);
    } else {
      var i := |Plains(Staged(env.queue, w.t))|;
      assert SchemaDrafts(w.proc.schemas, w.proc.hash)[i] == (Plains(Staged(env.queue, w.t)) + w.proc.drafts)[i] == m;
      SchemaKinds(w.proc.schemas, w.proc.hash, i);
    }
  }

  lemma SchemaKinds(schemas: seq<TableSchema>, hash: string, i: nat)
    requires i < |SchemaDrafts(schemas, hash)|
    ensures SchemaDrafts(schemas, hash)[i].kind == if i < |schemas| then SchemaTable else SchemaEnd
  {
    if i < |schemas| {
      SchemaDraftAt(schemas, hash, i);
    }
  }

  /** Every queue operation of the capture keeps the published log a sequence of whole units. */
  lemma CaptureDisciplined(env: Env, source: seq<Txn>, past: nat, w: World, free: nat, now: int)
    requires Ok(env, source, past, w) && Speaks(env, w) && NextOp(w, free, now).Some?
    ensures U.Disciplined(w.t.d, NextOp(w, free, now).value)
  {
    hide SpeakAll, DoneOk, Frontier, SchemaDrafts, TxPayloads, Unit, U.Disciplined, Q.Accounted, Bare;
    var op, staged := NextOp(w, free, now).value, Staged(env.queue, w.t);
    if op.OpAppend? {
      AppendDisciplined(env, source, past, w, free, now, op.m);
    } else {
      if w.proc.Streaming? {
        assert TxPayloads(staged) + [] == TxPayloads(staged);
        SealedLast(env, source, past + |w.done|, w.proc, Hash(w.t), staged);
      } else {
        assert Plains(staged) + [] == Plains(staged);
        RefreshLast(w.proc.schemas, w.proc.hash, staged);
      }
      U.PublishDisciplined(w.t.d, op);
    }
  }
}
