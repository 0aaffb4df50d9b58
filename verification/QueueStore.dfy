/** The queue as the collector runs it: an object whose methods each read the
    state record, work on a transaction-local copy, and commit or roll back. */
module QueueStore {
  import opened Event
  import opened Queue

  /** The durable contents after `op`: the new contents and no error, or the old contents and the error. */
  predicate Performed(cfg: Config, before: Durable, op: Op, error: Option<QueueError>, after: Durable) {
    match Attempt(cfg, before, op)
    case Success(next) => error == None && after == next
    case Failure(e) => error == Some(e) && after == before
  }

  /** Rewrites the boundary of every invisible snapshot message, unless the running total outgrows the capacity. */
  method RewriteBoundary(cfg: Config, items: map<nat, Message>, next: nat, lsn: string)
    returns (result: Option<(map<nat, Message>, int)>)
    requires forall k: nat | 1 <= k <= next :: k in items
    ensures var goal := Relabel(items, next, lsn);
            result == if next > 0 && Size(cfg, goal, 1, next + 1) > cfg.maxBytes then None
                      else Some((goal, Size(cfg, goal, 1, next + 1)))
  {
    var bucket, bytes := items, 0;
    ghost var goal := Relabel(items, next, lsn);
    var seqNo := 1;
    while seqNo <= next
      invariant 1 <= seqNo <= next + 1
      invariant bucket == Relabel(items, seqNo - 1, lsn)
      invariant bytes == Size(cfg, goal, 1, seqNo)
      invariant seqNo == 1 || bytes <= cfg.maxBytes
    {
      var message := bucket[seqNo].(lsn := lsn);
      SizeSplit(cfg, goal, 1, seqNo + 1, next + 1);
      if bytes + cfg.encodedSize(message) > cfg.maxBytes {
        return None;
      }
      bucket := bucket[seqNo := message];
      bytes := bytes + cfg.encodedSize(message);
      seqNo := seqNo + 1;
    }
    return Some((bucket, bytes));
  }

  /** The recovery cursor: it starts after the last published item and deletes to the end of the bucket. */
  method DropUnpublished(cfg: Config, items: map<nat, Message>, ready: nat, next: nat)
    returns (bucket: map<nat, Message>, freed: int)
    requires ready <= next
    requires forall k: nat | ready < k :: k in items <==> k <= next
    ensures bucket == map k | k in items && k <= ready :: items[k]
    ensures freed == Size(cfg, items, ready + 1, next + 1)
  {
    bucket, freed := items, 0;
    var k := ready + 1;
    while k in bucket
      invariant ready + 1 <= k <= next + 1
      invariant bucket == map j | j in items && !(ready < j < k) :: items[j]
      invariant freed == Size(cfg, items, ready + 1, k)
      decreases next + 1 - k
    {
      freed := freed + cfg.encodedSize(bucket[k]);
      bucket := bucket - {k};
      k := k + 1;
    }
    assert k == next + 1;
  }

  /** The archive eviction loop of an acknowledgement. */
  method Evict(cfg: Config, items: map<nat, Message>, start: nat, delivered: nat, total: int, now: int)
    returns (bucket: map<nat, Message>, earliest: nat, archive: int)
    requires start <= delivered + 1
    requires total == Size(cfg, items, start, delivered + 1)
    ensures earliest == FirstKept(cfg, items, start, delivered, now)
    ensures bucket == map k | k in items && !(start <= k < earliest) :: items[k]
    ensures archive == Size(cfg, items, earliest, delivered + 1)
  {
    bucket, earliest, archive := items, start, total;
    while earliest <= delivered
      invariant start <= earliest <= delivered + 1
      invariant bucket == map k | k in items && !(start <= k < earliest) :: items[k]
      invariant archive == Size(cfg, items, earliest, delivered + 1)
      invariant FirstKept(cfg, items, start, delivered, now) == FirstKept(cfg, items, earliest, delivered, now)
    {
      SizeSplit(cfg, items, earliest, earliest + 1, delivered + 1);
      assert Size(cfg, items, earliest, earliest) == 0;
      if earliest !in bucket {
        earliest := earliest + 1;
        continue;
      }
      var oldest := bucket[earliest];
      if !Expired(cfg, oldest, now) && archive <= cfg.replayBytes {
        break;
      }
      archive := archive - cfg.encodedSize(oldest);
      bucket := bucket - {earliest};
      earliest := earliest + 1;
    }
  }

  class Store {
    const cfg: Config
    var state: State
    var items: map<nat, Message>

    ghost predicate Valid()
      reads this
    {
      Queue.Valid(cfg, Contents())
    }

    function Contents(): Durable
      reads this
    {
      Durable(state, items)
    }

    constructor (cfg: Config)
      ensures Valid() && Contents() == Durable(EmptyState, map[]) && this.cfg == cfg
    {
      this.cfg := cfg;
      state := EmptyState;
      items := map[];
      new;
      FreshQueueValid(cfg);
    }

    method Initialize(st: State) returns (error: Option<QueueError>)
      requires Valid()
      modifies this
      ensures Valid() && Performed(cfg, old(Contents()), OpInitialize(st), error, Contents())
    {
      StepValid(cfg, Contents(), OpInitialize(st));
      if state.phase != Unset && state.phase != Snapshot {
        return Some(Rejected);
      }
      items := map[];
      state := st.(phase := Snapshot, bytes := 0, nextSeq := 0, readySeq := 0, deliveredSeq := 0, earliestSeq := 1,
                   archiveBytes := 0);
      return None;
    }

    method FinalizeSnapshotLsn(lsn: string) returns (error: Option<QueueError>)
      requires Valid()
      modifies this
      ensures Valid() && Performed(cfg, old(Contents()), OpFinalize(lsn), error, Contents())
    {
      StepValid(cfg, Contents(), OpFinalize(lsn));
      if state.phase != Snapshot || state.readySeq != 0 {
        return Some(Rejected);
      }
      var rewritten := RewriteBoundary(cfg, items, state.nextSeq, lsn);
      if rewritten.None? {
        return Some(Full);
      }
      items := rewritten.value.0;
      state := state.(bytes := rewritten.value.1, snapshotLsn := lsn);
      return None;
    }

    method Append(m: Message, free: nat, now: int) returns (error: Option<QueueError>)
      requires Valid()
      modifies this
      ensures Valid() && Performed(cfg, old(Contents()), OpAppend(m, free, now), error, Contents())
    {
      hide Size, Accounted, Windowed;
      StepValid(cfg, Contents(), OpAppend(m, free, now));
      if free < cfg.reserve + |m.rows| * 1024 {
        return Some(Full);
      }
      var version := if state.protocolVersion == "" then "v1" else state.protocolVersion;
      var stamped := m.(version := version, sourceId := state.sourceId, generation := state.generation);
      if stamped.schemaVersion == "" {
        stamped := stamped.(schemaVersion := state.schemaHash);
      }
      stamped := stamped.(seqNo := state.nextSeq + 1);
      stamped := stamped.(id := MessageId(state.sourceId, state.generation, stamped.seqNo), createdAt := Some(now));
      var size := cfg.encodedSize(stamped);
      if state.bytes + size > cfg.maxBytes || free < cfg.reserve + size * 4 {
        return Some(Full);
      }
      items := items[stamped.seqNo := stamped];
      state := state.(nextSeq := stamped.seqNo, bytes := state.bytes + size);
      return None;
    }

    method PublishSource(lsn: string, seal: bool, cleanup: string) returns (error: Option<QueueError>)
      requires Valid()
      modifies this
      ensures Valid() && Performed(cfg, old(Contents()), OpPublish(lsn, seal, cleanup), error, Contents())
    {
      StepValid(cfg, Contents(), OpPublish(lsn, seal, cleanup));
      var st := state;
      if seal {
        if st.phase != Snapshot {
          return Some(Rejected);
        }
        st := st.(phase := Stream);
      }
      state := st.(readySeq := st.nextSeq, durableLsn := lsn, sourceCleanup := cleanup);
      return None;
    }

    method PublishSchema(lsn: string, hash: string) returns (error: Option<QueueError>)
      requires Valid()
      modifies this
      ensures Valid() && Performed(cfg, old(Contents()), OpPublishSchema(lsn, hash), error, Contents())
    {
      StepValid(cfg, Contents(), OpPublishSchema(lsn, hash));
      if lsn == "" || hash == "" {
        return Some(Rejected);
      }
      if state.phase != Stream {
        return Some(Rejected);
      }
      state := state.(readySeq := state.nextSeq, durableLsn := lsn, schemaHash := hash);
      return None;
    }

    method ClearSourceCleanup(expected: string) returns (error: Option<QueueError>)
      requires Valid()
      modifies this
      ensures Valid() && Performed(cfg, old(Contents()), OpClearCleanup(expected), error, Contents())
    {
      StepValid(cfg, Contents(), OpClearCleanup(expected));
      if state.sourceCleanup != expected {
        return Some(Rejected);
      }
      state := state.(sourceCleanup := "");
      return None;
    }

    method Recover() returns (error: Option<QueueError>)
      requires Valid()
      modifies this
      ensures Valid() && Performed(cfg, old(Contents()), OpRecover, error, Contents())
    {
      hide Size, Stamped, Stamp, Earliest, FirstKept, Accounted;
      StepValid(cfg, Contents(), OpRecover);
      var bucket, freed := DropUnpublished(cfg, items, state.readySeq, state.nextSeq);
      items := bucket;
      state := state.(bytes := state.bytes - freed, nextSeq := state.readySeq);
      return None;
    }

    method ResetForSnapshot() returns (error: Option<QueueError>)
      requires Valid()
      modifies this
      ensures Valid() && Performed(cfg, old(Contents()), OpReset, error, Contents())
    {
      StepValid(cfg, Contents(), OpReset);
      if state.phase != Stream {
        return Some(Rejected);
      }
      if state.nextSeq != state.readySeq || state.deliveredSeq != state.readySeq {
        return Some(NotDrained);
      }
      items := map[];
      state := state.(phase := Snapshot, generation := "", schemaHash := "", snapshotLsn := "", durableLsn := "",
                      sourceCleanup := "", nextSeq := 0, readySeq := 0, deliveredSeq := 0, bytes := 0,
                      earliestSeq := 1, archiveBytes := 0);
      return None;
    }

    /** Acknowledges one message and evicts expired or over-budget history, oldest first. */
    method Ack(seqNo: nat, id: MessageId, now: int) returns (error: Option<QueueError>)
      requires Valid()
      modifies this
      ensures Valid() && Performed(cfg, old(Contents()), OpAck(seqNo, id, now), error, Contents())
    {
      hide Size, Stamped, Stamp, FirstKept, Accounted;
      StepValid(cfg, Contents(), OpAck(seqNo, id, now));
      if seqNo != state.deliveredSeq + 1 || seqNo > state.readySeq {
        return Some(Rejected);
      }
      if seqNo !in items || items[seqNo].id != id {
        return Some(Rejected);
      }
      var size := cfg.encodedSize(items[seqNo]);
      var start := if state.earliestSeq == 0 then 1 else state.earliestSeq;
      ArchiveTotal(cfg, Contents(), seqNo, start);
      var bucket, earliest, archive := Evict(cfg, items, start, seqNo, state.archiveBytes + size, now);
      items := bucket;
      state := state.(bytes := state.bytes - size, archiveBytes := archive, deliveredSeq := seqNo,
                      earliestSeq := earliest);
      return None;
    }

    method Get(seqNo: nat) returns (result: Result<Message, QueueError>)
      requires Valid()
      ensures result == Queue.Get(Contents(), seqNo)
      ensures result.Success? <==> Earliest(state) <= seqNo <= state.readySeq
    {
      var earliest := state.earliestSeq;
      if earliest == 0 {
        earliest := state.deliveredSeq + 1;
      }
      if seqNo < earliest || seqNo > state.readySeq {
        return Failure(Empty);
      }
      if seqNo !in items {
        return Failure(Gap);
      }
      return Success(items[seqNo]);
    }
  }

  /** Before eviction the archive account covers everything from the cursor to the acknowledged item. */
  lemma ArchiveTotal(cfg: Config, d: Durable, seqNo: nat, start: nat)
    requires Queue.Valid(cfg, d) && seqNo == d.state.deliveredSeq + 1 && seqNo in d.items
    requires start == if d.state.earliestSeq == 0 then 1 else d.state.earliestSeq
    ensures d.state.archiveBytes + cfg.encodedSize(d.items[seqNo]) == Size(cfg, d.items, start, seqNo + 1)
  {
    SizeSplit(cfg, d.items, start, seqNo, seqNo + 1);
    if d.state.earliestSeq == 0 {
      SizeAgree(cfg, d.items, map[], 1, seqNo);
      EmptySize(cfg, 1, seqNo);
    }
  }

  lemma {:induction false} EmptySize(cfg: Config, lo: nat, hi: nat)
    ensures Size(cfg, map[], lo, hi) == 0
    decreases hi
  {
    if lo < hi {
      EmptySize(cfg, lo, hi - 1);
    }
  }
}
