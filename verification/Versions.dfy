/** The schema versions of a published log: a snapshot or refresh is closed under the hash of the schemas it
    announced, and every transaction was converted with a catalog that has the hash its messages carry. */
module Versions {
  import opened Event
  import Q = Queue
  import opened Replay
  import opened Barrier
  import opened Capture
  import opened CaptureStream
  import opened Mirror

  // ---------------------------------------------------------------- announcements

  ghost predicate HashedAt(env: Env, log: seq<Message>, n: nat)
    requires n < |log|
  {
    ClosesSchemas(log[n].kind) ==> env.hash(Pending(log[..n])) == log[n].schemaVersion
  }

  /** Every snapshot and refresh is closed under the hash of what it announced. */
  ghost predicate Hashed(env: Env, log: seq<Message>) {
    forall n | 0 <= n < |log| :: HashedAt(env, log, n)
  }

  lemma HashedGrows(env: Env, log: seq<Message>, more: seq<Message>)
    requires Hashed(env, log)
    requires forall i | 0 <= i < |more| && ClosesSchemas(more[i].kind) ::
               env.hash(Pending(log + more[..i])) == more[i].schemaVersion
    ensures Hashed(env, log + more)
  {
    hide Pending;
    forall n | 0 <= n < |log + more| ensures HashedAt(env, log + more, n) {
      if n < |log| {
        assert HashedAt(env, log, n) && (log + more)[..n] == log[..n];
      } else {
        assert (log + more)[..n] == log + more[..n - |log|];
      }
    }
  }

  /** Nothing is pending where the stream is at rest. */
  lemma {:induction false} RestIsClosed(tables: set<TableRef>, log: seq<Message>)
    requires SpeakAll(tables, Fresh, log).Some?
    ensures var s := SpeakAll(tables, Fresh, log).value; s.InSnapshot? || s.InRefresh? || Pending(log) == []
    decreases |log|
  {
    if log != [] {
      RestIsClosed(tables, log[..|log| - 1]);
    }
  }

  lemma {:induction false} QuietPending(log: seq<Message>, more: seq<Message>)
    requires forall i | 0 <= i < |more| :: !more[i].kind.SchemaTable? && !ClosesSchemas(more[i].kind)
    ensures Pending(log + more) == Pending(log)
    decreases |more|
  {
    if more == [] {
      assert log + more == log;
    } else {
      assert Front(log + more) == log + Front(more);
      QuietPending(log, Front(more));
    }
  }

  lemma {:induction false} AnnouncedPending(log: seq<Message>, more: seq<Message>, schemas: seq<TableSchema>)
    requires Pending(log) == [] && |more| <= |schemas|
    requires forall i | 0 <= i < |more| :: more[i].kind.SchemaTable? && more[i].schema == Some(schemas[i])
    ensures Pending(log + more) == schemas[..|more|]
    decreases |more|
  {
    if more == [] {
      assert log + more == log;
    } else {
      assert Front(log + more) == log + Front(more);
      AnnouncedPending(log, Front(more), schemas);
      assert schemas[..|more|] == schemas[..|more| - 1] + [schemas[|more| - 1]];
    }
  }

  lemma TxHashed(env: Env, log: seq<Message>, more: seq<Message>)
    requires Hashed(env, log) && forall i | 0 <= i < |more| :: IsTx(more[i])
    ensures Hashed(env, log + more)
  {
    hide Hashed, Pending;
    HashedGrows(env, log, more);
  }

  lemma RefreshHashed(env: Env, log: seq<Message>, schemas: seq<TableSchema>, messages: seq<Message>)
    requires Hashed(env, log) && Pending(log) == [] && Plains(messages) == SchemaDrafts(schemas, env.hash(schemas))
    ensures Hashed(env, log + messages)
  {
    hide Hashed, Pending;
    var hash, n := env.hash(schemas), |schemas|;
    forall i | 0 <= i <= n
      ensures |messages| == n + 1 && messages[i].schemaVersion == hash
      ensures i < n ==> messages[i].kind.SchemaTable? && messages[i].schema == Some(schemas[i])
      ensures i == n ==> messages[i].kind.SchemaEnd?
    {
      SchemaKinds(schemas, hash, i);
      assert Plains(messages)[i] == Plain(messages[i]);
      if i < n {
        SchemaDraftAt(schemas, hash, i);
      }
    }
    AnnouncedPending(log, messages[..n], schemas);
    assert schemas[..n] == schemas;
    HashedGrows(env, log, messages);
  }

  lemma HashedPrefix(env: Env, log: seq<Message>, n: nat)
    requires n <= |log| && Hashed(env, log)
    ensures Hashed(env, log[..n])
  {
    hide Pending;
    forall i | 0 <= i < n ensures HashedAt(env, log[..n], i) {
      assert HashedAt(env, log, i) && log[..n][..i] == log[..i];
    }
  }

  /** A stream stands under the hash of the schemas closed last. */
  lemma {:induction false} CurrentVersion(env: Env, tables: set<TableRef>, log: seq<Message>)
    requires Hashed(env, log) && SpeakAll(tables, Fresh, log).Some?
    ensures var s := SpeakAll(tables, Fresh, log).value;
            s.Idle? || s.InTransaction? || s.InFile? || s.InRefresh? ==> env.hash(Current(log)) == s.version
    decreases |log|
  {
    hide Pending, Hashed;
    if log != [] {
      HashedPrefix(env, log, |log| - 1);
      CurrentVersion(env, tables, Front(log));
      assert HashedAt(env, log, |log| - 1) by { LastHashed(env, log); }
    }
  }

  lemma LastHashed(env: Env, log: seq<Message>)
    requires log != [] && Hashed(env, log)
    ensures HashedAt(env, log, |log| - 1)
  {
  }

  // ---------------------------------------------------------------- catalogs

  ghost predicate CataloguedAt(env: Env, first: seq<Message>, log: seq<Message>, done: seq<Published>, n: nat)
    requires n < |log|
  {
    var k := Ends(log[..n]) - Ends(first);
    log[n].kind.TransactionEnd? && 0 <= k < |done| ==> Versioned(env, log[n].schemaVersion, done[k].tables)
  }

  /** Every transaction was converted with a catalog of the version it was published under. */
  ghost predicate Catalogued(env: Env, first: seq<Message>, log: seq<Message>, done: seq<Published>) {
    forall n | |first| <= n < |log| :: CataloguedAt(env, first, log, done, n)
  }

  lemma {:induction false} EndsGrow(log: seq<Message>, n: nat)
    requires n < |log|
    ensures Ends(log[..n]) + (if log[n].kind.TransactionEnd? then 1 else 0) <= Ends(log)
    decreases |log|
  {
    if n < |log| - 1 {
      EndsGrow(Front(log), n);
      assert Front(log)[..n] == log[..n];
    }
  }

  lemma QuietCatalogued(env: Env, first: seq<Message>, log: seq<Message>, done: seq<Published>, more: seq<Message>)
    requires Catalogued(env, first, log, done) && forall i | 0 <= i < |more| :: !more[i].kind.TransactionEnd?
    ensures Catalogued(env, first, log + more, done)
  {
    hide Versioned, Ends;
    forall n | |first| <= n < |log + more| ensures CataloguedAt(env, first, log + more, done, n) {
      if n < |log| {
        assert CataloguedAt(env, first, log, done, n) && (log + more)[..n] == log[..n];
      }
    }
  }

  /** The messages of one more transaction under its catalog's version. */
  lemma UnitCatalogued(env: Env, first: seq<Message>, log: seq<Message>, done: seq<Published>, unit: seq<Message>,
                       tx: Published, version: string)
    requires Catalogued(env, first, log, done) && Ends(log) == Ends(first) + |done|
    requires TxUnder(version, unit) && Versioned(env, version, tx.tables)
    requires forall i | 0 <= i < |unit| - 1 :: unit[i].kind.TransactionRows?
    ensures Catalogued(env, first, log + unit, done + [tx])
  {
    hide Versioned, Ends;
    var all := log + unit;
    forall n | |first| <= n < |all| ensures CataloguedAt(env, first, all, done + [tx], n) {
      if n < |log| {
        assert CataloguedAt(env, first, log, done, n) && all[..n] == log[..n];
        EndsGrow(log, n);
      } else {
        assert all[n] == unit[n - |log|] && all[..n] == log + unit[..n - |log|];
        EndsConcat(log, unit[..n - |log|]);
        NoEnds(unit[..n - |log|]);
      }
    }
  }

  // ---------------------------------------------------------------- every step

  ghost predicate Dated(env: Env, first: seq<Message>, log: seq<Message>, done: seq<Published>) {
    && first <= log && Ends(log) == Ends(first) + |done|
    && Hashed(env, log) && Catalogued(env, first, log, done)
  }

  lemma SealDated(env: Env, first: seq<Message>, source: seq<Txn>, past: nat, w: World, free: nat, now: int)
    requires Ok(env, source, past, w) && Speaks(env, w) && Dated(env, first, w.t.log, w.done)
    requires w.proc.Streaming? && w.proc.todo == [] && w.proc.seal.Some?
    ensures var next := DoPerform(env, source, w, free, now); Dated(env, first, next.t.log, next.done)
  {
    hide Q.TracedValid, Staged, TxPayloads, DoPerform, Q.TraceStep, DoneOk, Frontier, SpeakAll, Versioned, Hashed,
         Catalogued, Ends;
    var p, n, staged, h := w.proc, past + |w.done|, Staged(env.queue, w.t), Hash(w.t);
    assert TxPayloads(staged) + [] == TxPayloads(staged);
    TxPayloadsOfTx(staged);
    var tx, lsn := Published(source[n], p.tables), env.show(source[n].end);
    assert Unit(env, tx) == Some(Payloads(staged));
    PublishAll(env, w.t, Q.OpPublish(p.seal.value, false, ""));
    SealState(env, source, w, free, now);
    var rows := ConvertAll(tx.tables, tx.tx.changes).value;
    assert IsUnit(env.limits, lsn, rows, staged);
    UnitShape(env.limits, lsn, rows, staged);
    UnitEnds(env.limits, lsn, rows, w.t.log, staged);
    TxHashed(env, w.t.log, staged);
    UnitCatalogued(env, first, w.t.log, w.done, staged, tx, h);
  }

  lemma RefreshDated(env: Env, first: seq<Message>, source: seq<Txn>, w: World, free: nat, now: int)
    requires Speaks(env, w) && Dated(env, first, w.t.log, w.done)
    requires w.proc.Refreshing? && w.proc.drafts == []
    requires Q.Attempt(env.queue, w.t.d, Q.OpPublishSchema(w.proc.lsn, w.proc.hash)).Success?
    ensures var next := DoPerform(env, source, w, free, now); Dated(env, first, next.t.log, next.done)
  {
    hide Q.TracedValid, Staged, SpeakAll, Versioned, Hashed, Catalogued, Ends, SchemaDrafts, Pending, Q.TraceStep;
    var p, staged := w.proc, Staged(env.queue, w.t);
    PublishAll(env, w.t, Q.OpPublishSchema(p.lsn, p.hash));
    assert Plains(staged) + [] == Plains(staged);
    forall i | 0 <= i < |staged| ensures !staged[i].kind.TransactionEnd? {
      assert Plains(staged)[i] == Plain(staged[i]);
      SchemaKinds(p.schemas, p.hash, i);
    }
    RestIsClosed(TableSet(env.tables), w.t.log);
    RefreshHashed(env, w.t.log, p.schemas, staged);
    QuietCatalogued(env, first, w.t.log, w.done, staged);
    EndsConcat(w.t.log, staged);
    NoEnds(staged);
  }

  lemma StepDated(env: Env, first: seq<Message>, source: seq<Txn>, past: nat, w: World, step: Step)
    requires Ok(env, source, past, w) && Speaks(env, w) && Dated(env, first, w.t.log, w.done)
    ensures var next := Do(env, source, w, step); Dated(env, first, next.t.log, next.done)
  {
    hide Dated, Q.TracedValid, Q.TraceStep, Staged, Frontier, DoneOk, ProcOk, SpeakAll;
    var op := if step.Perform? then NextOp(w, step.free, step.now) else None;
    if op.Some? && Q.Publishes(op.value) {
      if Q.Attempt(env.queue, w.t.d, op.value).Success? {
        if w.proc.Streaming? {
          SealDated(env, first, source, past, w, step.free, step.now);
        } else {
          RefreshDated(env, first, source, w, step.free, step.now);
        }
      }
    } else {
      LogKept(env, source, w, step);
    }
  }
}
