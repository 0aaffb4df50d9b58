/** One file of a watched directory: its chunks are appended while it is read, and published whole or discarded. */
module FileCapture {
  import opened Event
  import opened Files
  import Q = Queue
  import QS = QueueStore
  import opened Capture
  import D = CaptureDecoder
  import U = Units

  /** Where the loop over the chunks fails, if it does: the file cannot be opened, or the context ends or reading
      fails at a chunk. `modTime` is what the file shows after reading. */
  datatype Access = Access(opens: bool, readable: nat, modTime: int)

  predicate Draftable(m: Message) {
    Payload(m) == m && (m.kind.FileBegin? || m.kind.FileChunk? || m.kind.FileEnd? || m.kind.FileDelete?)
  }

  /** The unit of a file. */
  function FileUnit(codec: Codec, transaction: string, change: FileChange, chunkBytes: nat,
                    content: Bytes): seq<Message> {
    [FileMessage(FileBegin, transaction, change)]
    + ChunkMessages(codec, transaction, change, chunkBytes, content, change.chunks)
    + [FileMessage(FileEnd, transaction, change)]
  }

  lemma AppendNext(cfg: Q.Config, t: Q.Traced, m: Message, free: nat, now: int, start: Q.Durable, ops: seq<Q.Op>)
    requires Q.TracedValid(cfg, t) && Draftable(m) && t.d.state.phase.Stream?
    requires t.d == U.Ran(cfg, start, ops) && U.DisciplinedRun(cfg, start, ops)
    ensures var op := Q.OpAppend(m, free, now);
            var next := Q.Step(cfg, t.d, op);
            && Q.TracedValid(cfg, Q.Traced(next, t.log)) && next.state.phase.Stream?
            && next == U.Ran(cfg, start, ops + [op]) && U.DisciplinedRun(cfg, start, ops + [op])
            && Payloads(Q.Staged(next))
               == Payloads(Q.Staged(t.d)) + if Q.Attempt(cfg, t.d, op).Success? then [m] else []
  {
    hide U.Ran, U.DisciplinedRun, Q.Append;
    var op := Q.OpAppend(m, free, now);
    D.AppendTrace(cfg, t, m, free, now);
    U.RanNext(cfg, start, ops, op);
    U.PhaseKept(cfg, t.d, op);
    StampedNext(t.d.state, Q.Staged(t.d), m, now);
  }

  lemma StampedNext(st: Q.State, staged: seq<Message>, m: Message, now: int)
    requires Payload(m) == m
    ensures Payloads(staged + [Q.Stamp(st, m, now)]) == Payloads(staged) + [m]
  {
    StampedPayload(st, m, now);
  }

  lemma RecoverNext(cfg: Q.Config, t: Q.Traced, start: Q.Durable, ops: seq<Q.Op>)
    requires Q.TracedValid(cfg, t) && t.d == U.Ran(cfg, start, ops) && U.DisciplinedRun(cfg, start, ops)
    ensures var next := Q.Step(cfg, t.d, Q.OpRecover);
            && Q.TracedValid(cfg, Q.Traced(next, t.log)) && Q.Staged(next) == []
            && next == U.Ran(cfg, start, ops + [Q.OpRecover]) && U.DisciplinedRun(cfg, start, ops + [Q.OpRecover])
  {
    hide U.Ran, U.DisciplinedRun;
    Q.TraceStepValid(cfg, t, Q.OpRecover);
    Q.RecoverDiscardsStaged(cfg, t.d);
    U.RanNext(cfg, start, ops, Q.OpRecover);
  }

  lemma PublishNext(cfg: Q.Config, t: Q.Traced, lsn: string, start: Q.Durable, ops: seq<Q.Op>)
    requires Q.TracedValid(cfg, t) && t.d == U.Ran(cfg, start, ops) && U.DisciplinedRun(cfg, start, ops)
             && t.d.state.phase.Stream?
    requires var staged := Q.Staged(t.d); staged != [] && Closing(staged[|staged| - 1].kind)
    ensures var op := Q.OpPublish(lsn, false, "");
            var next := Q.Step(cfg, t.d, op);
            && Q.TracedValid(cfg, Q.Traced(next, t.log + Q.Staged(t.d))) && Q.Staged(next) == []
            && next == U.Ran(cfg, start, ops + [op]) && U.DisciplinedRun(cfg, start, ops + [op])
  {
    hide U.Ran, U.DisciplinedRun, U.Disciplined, Q.Accounted, Q.Stamped;
    var op := Q.OpPublish(lsn, false, "");
    Q.TraceStepValid(cfg, t, op);
    Q.PublishExposesStaged(cfg, t, op);
    U.PublishDisciplined(t.d, op);
    U.RanNext(cfg, start, ops, op);
  }

  /** Appends a draft; if it does not fit, what is invisible is discarded. */
  method Put(queue: QS.Store, m: Message, free: nat, now: int, ghost log: seq<Message>, ghost start: Q.Durable,
             ghost prior: seq<Q.Op>)
    returns (ok: bool, ghost ops: seq<Q.Op>)
    requires queue.Valid() && Q.TracedValid(queue.cfg, Q.Traced(queue.Contents(), log)) && queue.state.phase.Stream?
             && Draftable(m)
    requires queue.Contents() == U.Ran(queue.cfg, start, prior) && U.DisciplinedRun(queue.cfg, start, prior)
    modifies queue
    ensures queue.Valid() && Q.TracedValid(queue.cfg, Q.Traced(queue.Contents(), log))
    ensures queue.Contents() == U.Ran(queue.cfg, start, ops) && U.DisciplinedRun(queue.cfg, start, ops)
    ensures ok ==> && Payloads(Q.Staged(queue.Contents())) == old(Payloads(Q.Staged(queue.Contents()))) + [m]
                   && queue.state.phase.Stream?
    ensures !ok ==> Q.Staged(queue.Contents()) == []
  {
    hide U.Ran, U.DisciplinedRun, Q.TracedValid, Payload, Q.Staged, Draftable;
    ghost var t, op := Q.Traced(queue.Contents(), log), Q.OpAppend(m, free, now);
    AppendNext(queue.cfg, t, m, free, now, start, prior);
    var error := queue.Append(m, free, now);
    ops := prior + [op];
    if error.None? {
      return true, ops;
    }
    ops := Discard(queue, log, start, ops);
    return false, ops;
  }

  method Discard(queue: QS.Store, ghost log: seq<Message>, ghost start: Q.Durable, ghost prior: seq<Q.Op>)
    returns (ghost ops: seq<Q.Op>)
    requires queue.Valid() && Q.TracedValid(queue.cfg, Q.Traced(queue.Contents(), log))
    requires queue.Contents() == U.Ran(queue.cfg, start, prior) && U.DisciplinedRun(queue.cfg, start, prior)
    modifies queue
    ensures queue.Valid() && Q.TracedValid(queue.cfg, Q.Traced(queue.Contents(), log))
            && Q.Staged(queue.Contents()) == []
    ensures queue.Contents() == U.Ran(queue.cfg, start, ops) && U.DisciplinedRun(queue.cfg, start, ops)
  {
    hide U.Ran, U.DisciplinedRun, Q.TracedValid, Q.Staged;
    RecoverNext(queue.cfg, Q.Traced(queue.Contents(), log), start, prior);
    var error := queue.Recover();
    ops := prior + [Q.OpRecover];
  }

  lemma Drafts(codec: Codec, transaction: string, change: FileChange, chunkBytes: nat, content: Bytes, k: nat)
    ensures Draftable(FileMessage(FileBegin, transaction, change))
            && Draftable(FileMessage(FileEnd, transaction, change))
    ensures Draftable(ChunkMessage(codec, transaction, change, chunkBytes, content, k))
  {
  }

  lemma LastOfUnit(staged: seq<Message>, front: seq<Message>, end: Message)
    requires Payloads(staged) == front + [end] && end.kind.FileEnd?
    ensures staged != [] && Closing(staged[|staged| - 1].kind)
  {
    assert |Payloads(staged)| == |staged| && Payloads(staged)[|staged| - 1] == Payload(staged[|staged| - 1]);
  }

  /** The loop over the chunks: all of them, with the bytes read, or nothing invisible is left. */
  method PutChunks(queue: QS.Store, codec: Codec, transaction: string, change: FileChange, chunkBytes: nat,
                   content: Bytes,
                   readable: nat, free: nat, now: int, ghost log: seq<Message>, ghost start: Q.Durable,
                     ghost prior: seq<Q.Op>)
    returns (ok: bool, full: bool, hashed: Bytes, ghost ops: seq<Q.Op>)
    requires queue.Valid() && Q.TracedValid(queue.cfg, Q.Traced(queue.Contents(), log)) && queue.state.phase.Stream?
    requires queue.Contents() == U.Ran(queue.cfg, start, prior) && U.DisciplinedRun(queue.cfg, start, prior)
    modifies queue
    ensures queue.Valid() && Q.TracedValid(queue.cfg, Q.Traced(queue.Contents(), log))
    ensures queue.Contents() == U.Ran(queue.cfg, start, ops) && U.DisciplinedRun(queue.cfg, start, ops)
    ensures ok <==> !full && change.chunks <= readable
    ensures ok ==> && queue.state.phase.Stream? && hashed == ReadUpTo(content, chunkBytes, change.chunks)
                   && Payloads(Q.Staged(queue.Contents())) == old(Payloads(Q.Staged(queue.Contents())))
                      + ChunkMessages(codec, transaction, change, chunkBytes, content, change.chunks)
    ensures !ok ==> Q.Staged(queue.Contents()) == []
  {
    hide U.Ran, U.DisciplinedRun, Q.TracedValid, Payload, Q.Staged, Draftable, ReadAt;
    ghost var before := Payloads(Q.Staged(queue.Contents()));
    hashed, ops, full := [], prior, false;
    for chunk := 0 to change.chunks
      invariant queue.Valid() && Q.TracedValid(queue.cfg, Q.Traced(queue.Contents(), log)) && queue.state.phase.Stream?
      invariant queue.Contents() == U.Ran(queue.cfg, start, ops) && U.DisciplinedRun(queue.cfg, start, ops)
      invariant Payloads(Q.Staged(queue.Contents()))
                == before + ChunkMessages(codec, transaction, change, chunkBytes, content, chunk)
      invariant hashed == ReadUpTo(content, chunkBytes, chunk) && chunk <= readable
    {
      if chunk >= readable {
        ops := Discard(queue, log, start, ops);
        return false, false, hashed, ops;
      }
      hashed := hashed + ReadAt(content, chunkBytes, chunk);
      Drafts(codec, transaction, change, chunkBytes, content, chunk);
      ok, ops := Put(queue, ChunkMessage(codec, transaction, change, chunkBytes, content, chunk), free, now, log, start,
                     ops);
      if !ok {
        return false, true, hashed, ops;
      }
    }
    return true, false, hashed, ops;
  }

  lemma ReadsWhole(content: Bytes, chunkBytes: nat, size: nat)
    requires chunkBytes > 0 && |content| == size
    ensures ReadUpTo(content, chunkBytes, ChunkCount(size, chunkBytes)) == content
  {
    ReadUpToIsPrefix(content, chunkBytes, ChunkCount(size, chunkBytes));
    ChunksCover(size, chunkBytes);
  }

  /** Publishes a file exactly as its last scan recorded it: begin, numbered chunks and end become visible
      together, or nothing does and nothing invisible is left. */
  method PublishFile(queue: QS.Store, codec: Codec, name: string, operation: FileOperation, transaction: string,
                     state: FileState, chunkBytes: nat, content: Bytes, access: Access, lsn: string, free: nat,
                       now: int,
                     ghost log: seq<Message>)
    returns (ok: bool, full: bool, ghost next: seq<Message>, ghost ops: seq<Q.Op>)
    requires chunkBytes > 0 && queue.Valid() && Q.TracedValid(queue.cfg, Q.Traced(queue.Contents(), log))
    requires queue.state.phase.Stream? && Q.Staged(queue.Contents()) == []
    modifies queue
    ensures queue.Valid() && Q.TracedValid(queue.cfg, Q.Traced(queue.Contents(), next))
            && Q.Staged(queue.Contents()) == []
    ensures queue.Contents() == U.Ran(queue.cfg, old(queue.Contents()), ops)
            && U.DisciplinedRun(queue.cfg, old(queue.Contents()), ops)
    ensures ok <==> && !full && access.opens && ChunkCount(state.size, chunkBytes) <= access.readable
                    && |content| == state.size && access.modTime == state.modTime && codec.sha(content) == state.sha256
    ensures ok ==> && log <= next
                   && Payloads(next[|log|..])
                      == FileUnit(codec, transaction,
                                  Header(name, operation, state, ChunkCount(state.size, chunkBytes)), chunkBytes,
                        content)
    ensures !ok ==> next == log
  {
    hide U.Ran, U.DisciplinedRun, Q.TracedValid, Payload, Q.Staged, Draftable, ChunkMessages, Header, ReadUpTo;
    ghost var start := queue.Contents();
    next, ops, full := log, [], false;
    U.RanNothing(queue.cfg, start);
    var chunks := (state.size + chunkBytes - 1) / chunkBytes;
    if chunks == 0 {
      chunks := 1;
    }
    var change := Header(name, operation, state, chunks);
    HeaderChunks(name, operation, state, chunks);
    Drafts(codec, transaction, change, chunkBytes, content, 0);
    ok, ops := Put(queue, FileMessage(FileBegin, transaction, change), free, now, log, start, ops);
    if !ok {
      return false, true, log, ops;
    }
    if !access.opens {
      ops := Discard(queue, log, start, ops);
      return false, false, log, ops;
    }
    var hashed;
    ok, full, hashed, ops := PutChunks(queue, codec, transaction, change, chunkBytes, content, access.readable, free,
                                       now, log, start, ops);
    if !ok {
      return false, full, log, ops;
    }
    if |content| == state.size {
      ReadsWhole(content, chunkBytes, state.size);
    }
    if |content| != state.size || access.modTime != state.modTime || codec.sha(hashed) != state.sha256 {
      ops := Discard(queue, log, start, ops);
      return false, false, log, ops;
    }
    ok, ops := Put(queue, FileMessage(FileEnd, transaction, change), free, now, log, start, ops);
    if !ok {
      return false, true, log, ops;
    }
    ghost var t := Q.Traced(queue.Contents(), log);
    LastOfUnit(Q.Staged(t.d),
               [FileMessage(FileBegin, transaction, change)]
      + ChunkMessages(codec, transaction, change, chunkBytes, content, chunks),
               FileMessage(FileEnd, transaction, change));
    PublishNext(queue.cfg, t, lsn, start, ops);
    var error := queue.PublishSource(lsn, false, "");
    ops := ops + [Q.OpPublish(lsn, false, "")];
    next := log + Q.Staged(t.d);
    assert next[|log|..] == Q.Staged(t.d);
    return true, false, next, ops;
  }

  lemma HeaderChunks(name: string, operation: FileOperation, state: FileState, chunks: nat)
    ensures Header(name, operation, state, chunks).chunks == chunks
  {
  }
}
