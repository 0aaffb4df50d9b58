/** The capture's decoder and batcher as the object whose fields each record updates, and the append that waits
    for room while the delivery side acknowledges messages. Proved against `Capture` and `Queue`. */
module CaptureDecoder {
  import opened Event
  import Q = Queue
  import QS = QueueStore
  import B = Batching
  import PgRows
  import C = Capture
  import U = Units

  class Decoder {
    const env: C.Env
    const tables: C.Catalog
    var durable: nat
    var active: bool
    var skip: bool
    var end: nat
    var xid: nat
    var ordinal: nat
    var msg: Message
    var size: nat
    var out: seq<Message>       // messages handed to the queue, in order
    var seal: Option<string>    // the position published last

    function State(): C.Decoder
      reads this
    {
      C.Decoder(durable, active, skip, end, xid, ordinal, B.Batch(msg, size))
    }

    function Filled(): B.Flushed
      reads this
    {
      B.Flushed(B.Batch(msg, size), out)
    }

    constructor (env: C.Env, tables: C.Catalog, start: nat)
      ensures this.env == env && this.tables == tables && State() == C.NewDecoder(start) && out == [] && seal == None
    {
      this.env, this.tables := env, tables;
      durable, active, skip, end, xid, ordinal := start, false, false, 0, 0, 0;
      msg, size, out, seal := Draft(OtherKind("")), 0, [], None;
    }

    method Flush()
      modifies `msg, `size, `out
      ensures Filled() == B.Flush(old(Filled()))
    {
      if |msg.rows| == 0 {
        return;
      }
      out := out + [msg];
      msg := msg.(rows := [], chunk := msg.chunk + 1);
      size := 0;
    }

    method Add(row: Row) returns (ok: bool)
      modifies `msg, `size, `out
      ensures var next := B.Add(env.limits, old(Filled()), row);
              ok == next.Some? && Filled() == if ok then next.value else old(Filled())
    {
      var length := env.limits.sizeOf(row);
      if length > env.limits.maxRow {
        return false;
      }
      if |msg.rows| > 0 && (|msg.rows| >= env.limits.rows || size + length > env.limits.bytes) {
        Flush();
      }
      msg := msg.(rows := msg.rows + [row]);
      size := size + length;
      if size >= env.limits.bytes || |msg.rows| >= env.limits.rows {
        Flush();
      }
      return true;
    }

    method Begin(r: C.Record) returns (error: Option<C.DecodeError>)
      requires r.Begin?
      modifies this
      ensures Performed(C.DecodeBegin(env, old(State()), r), old(out), old(seal), error)
    {
      if active {
        return Some(C.BadStream);
      }
      var position := env.parse(r.nextLsn);
      if position.None? || position.value == 0 {
        return Some(C.BadStream);
      }
      active, end, xid, ordinal, skip := true, position.value, r.xid, 0, position.value <= durable;
      msg := Draft(TransactionRows).(transaction := r.nextLsn, lsn := r.nextLsn);
      return None;
    }

    method Commit(r: C.Record) returns (error: Option<C.DecodeError>)
      requires r.Commit?
      modifies this
      ensures Performed(C.DecodeCommit(env, old(State()), r), old(out), old(seal), error)
    {
      if !active || r.xid != xid {
        return Some(C.BadStream);
      }
      var position := env.parse(r.nextLsn);
      if position != Some(end) {
        return Some(C.BadStream);
      }
      if !skip {
        C.FlushMoves(B.Batch(msg, size), out);
        Flush();
        out := out + [Draft(TransactionEnd).(transaction := r.nextLsn, lsn := r.nextLsn, chunk := msg.chunk)];
        seal := Some(r.nextLsn);
        durable := end;
      }
      active := false;
      return None;
    }

    method Change(r: C.Record) returns (error: Option<C.DecodeError>)
      requires r.RowChange?
      modifies this
      ensures Performed(C.DecodeRow(env, tables, old(State()), r), old(out), old(seal), error)
    {
      if !active || r.xid != xid {
        return Some(C.BadStream);
      }
      if skip {
        return None;
      }
      if r.change.table !in tables {
        return Some(C.BadStream);
      }
      var row := PgRows.Convert(tables[r.change.table], r.change);
      if row.Failure? {
        return Some(C.Unconvertible(row.error));
      }
      var numbered := row.value.(ordinal := ordinal + 1);
      C.AddMoves(env.limits, Filled(), numbered);
      var ok := Add(numbered);
      if !ok {
        return Some(C.RowTooLarge);
      }
      ordinal := ordinal + 1;
      return None;
    }

    /** The outcome of a record: on success the state, the messages and the publication follow it; on failure
        nothing was handed to the queue. */
    ghost predicate Performed(result: Result<C.Decoded, C.DecodeError>, oldOut: seq<Message>, oldSeal: Option<string>,
                              error: Option<C.DecodeError>)
      reads this
    {
      match result
      case Success(d) =>
        error.None? && State() == d.dec && out == oldOut + d.out && seal == if d.seal.Some? then d.seal else oldSeal
      case Failure(e) => error == Some(e) && out == oldOut && seal == oldSeal
    }

    method Record(r: C.Record) returns (error: Option<C.DecodeError>)
      modifies this
      ensures Performed(C.Decode(env, tables, old(State()), r), old(out), old(seal), error)
    {
      match r
      case Begin(_, _) => error := Begin(r);
      case Commit(_, _) => error := Commit(r);
      case RowChange(_, _) => error := Change(r);
      case _ => error := Some(C.BadStream);
    }
  }

  // ---------------------------------------------------------------- appending under backpressure

  /** One turn of the waiting loop: the free disk space and the clock it sees, and how many messages the delivery
      side acknowledges before the next turn. */
  datatype Turn = Turn(free: nat, now: int, acks: nat)

  datatype AppendError = TooSmall | Cancelled

  /** Acknowledgements change only the delivered mark, the archive and the byte accounts. */
  predicate SameEnvelope(a: Q.State, b: Q.State) {
    a == b.(deliveredSeq := a.deliveredSeq, earliestSeq := a.earliestSeq, bytes := a.bytes,
            archiveBytes := a.archiveBytes)
  }

  /** The delivery side acknowledges the next messages. */
  method Deliver(queue: QS.Store, count: nat, now: int, ghost log: seq<Message>) returns (ghost ops: seq<Q.Op>)
    requires queue.Valid() && Q.TracedValid(queue.cfg, Q.Traced(queue.Contents(), log))
    modifies queue
    ensures queue.Valid() && Q.TracedValid(queue.cfg, Q.Traced(queue.Contents(), log))
    ensures SameEnvelope(queue.state, old(queue.state))
    ensures Q.Staged(queue.Contents()) == old(Q.Staged(queue.Contents()))
    ensures queue.Contents() == U.Ran(queue.cfg, old(queue.Contents()), ops) && forall op | op in ops :: op.OpAck?
  {
    ops := [];
    for i := 0 to count
      invariant queue.Valid() && Q.TracedValid(queue.cfg, Q.Traced(queue.Contents(), log))
      invariant SameEnvelope(queue.state, old(queue.state))
      invariant Q.Staged(queue.Contents()) == old(Q.Staged(queue.Contents()))
      invariant queue.Contents() == U.Ran(queue.cfg, old(queue.Contents()), ops) && forall op | op in ops :: op.OpAck?
    {
      if queue.state.deliveredSeq < queue.state.readySeq {
        var next := queue.state.deliveredSeq + 1;
        ghost var op := Q.OpAck(next, queue.items[next].id, now);
        AckTrace(queue.cfg, Q.Traced(queue.Contents(), log), next, queue.items[next].id, now);
        U.RanNext(queue.cfg, old(queue.Contents()), ops, op);
        var _ := queue.Ack(next, queue.items[next].id, now);
        ops := ops + [op];
      }
    }
  }

  lemma AckTrace(cfg: Q.Config, t: Q.Traced, seqNo: nat, id: MessageId, now: int)
    requires Q.TracedValid(cfg, t)
    ensures var next := Q.Step(cfg, t.d, Q.OpAck(seqNo, id, now));
            && Q.TracedValid(cfg, Q.Traced(next, t.log)) && Q.Staged(next) == Q.Staged(t.d)
            && SameEnvelope(next.state, t.d.state)
  {
    var env := C.Env(cfg, B.Limits(0, 0, 0, _ => 0), [], _ => "", _ => None, _ => "");
    C.AckKeepsStaged(env, t, seqNo, id, now);
  }

  /** Appends, waiting while the queue is full and something is still undelivered. Waiting publishes nothing and
      discards nothing: afterwards the stage has exactly the new message more, or is as it was, and nothing but
      appends of it and acknowledgements happened. */
  method AppendWaiting(queue: QS.Store, m: Message, turns: seq<Turn>, ghost log: seq<Message>)
    returns (error: Option<AppendError>, ghost ops: seq<Q.Op>)
    requires queue.Valid() && Q.TracedValid(queue.cfg, Q.Traced(queue.Contents(), log))
    modifies queue
    ensures queue.Valid() && Q.TracedValid(queue.cfg, Q.Traced(queue.Contents(), log))
    ensures error.Some? ==> Q.Staged(queue.Contents()) == old(Q.Staged(queue.Contents()))
    ensures error.None? ==> exists now ::
              Q.Staged(queue.Contents()) == old(Q.Staged(queue.Contents())) + [Q.Stamp(old(queue.state), m, now)]
    ensures error == Some(TooSmall) ==> queue.state.readySeq == queue.state.deliveredSeq
    ensures queue.Contents() == U.Ran(queue.cfg, old(queue.Contents()), ops) && forall op | op in ops :: U.Waits(m, op)
  {
    hide Q.TracedValid, Q.Staged, Q.Stamp, U.Ran, Q.Append;
    ops := [];
    U.RanNothing(queue.cfg, queue.Contents());
    for i := 0 to |turns|
      invariant queue.Valid() && Q.TracedValid(queue.cfg, Q.Traced(queue.Contents(), log))
      invariant Q.Staged(queue.Contents()) == old(Q.Staged(queue.Contents()))
      invariant SameEnvelope(queue.state, old(queue.state))
      invariant queue.Contents() == U.Ran(queue.cfg, old(queue.Contents()), ops)
                && forall op | op in ops :: U.Waits(m, op)
    {
      var turn := turns[i];
      ghost var before, op := queue.Contents(), Q.OpAppend(m, turn.free, turn.now);
      AppendTrace(queue.cfg, Q.Traced(before, log), m, turn.free, turn.now);
      SameStamp(queue.state, old(queue.state), m, turn.now);
      U.RanNext(queue.cfg, old(queue.Contents()), ops, op);
      var failure := queue.Append(m, turn.free, turn.now);
      ops := ops + [op];
      if failure.None? {
        return None, ops;
      }
      if queue.state.readySeq == queue.state.deliveredSeq {
        return Some(TooSmall), ops;
      }
      ghost var acks := Deliver(queue, turn.acks, turn.now, log);
      U.RanConcat(queue.cfg, old(queue.Contents()), ops, acks);
      ops := ops + acks;
    }
    return Some(Cancelled), ops;
  }

  lemma SameStamp(a: Q.State, b: Q.State, m: Message, now: int)
    requires SameEnvelope(a, b)
    ensures Q.Stamp(a, m, now) == Q.Stamp(b, m, now)
  {
  }

  lemma AppendTrace(cfg: Q.Config, t: Q.Traced, m: Message, free: nat, now: int)
    requires Q.TracedValid(cfg, t)
    ensures Q.Append(cfg, t.d, m, free, now).Success? ==>
              var next := Q.Append(cfg, t.d, m, free, now).value;
              Q.TracedValid(cfg, Q.Traced(next, t.log))
                && Q.Staged(next) == Q.Staged(t.d) + [Q.Stamp(t.d.state, m, now)]
  {
    if Q.Append(cfg, t.d, m, free, now).Success? {
      Q.AppendStages(cfg, t.d, m, free, now);
      Q.TraceStepValid(cfg, t, Q.OpAppend(m, free, now));
    }
  }
}
