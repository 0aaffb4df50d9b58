/** The collector's durable queue: one bbolt file holding a state record and
    the items keyed by sequence number. Every operation is one atomic
    transaction, written here as a function from the durable contents to the new
    contents or an error (which rolls back); `QueueStore` proves the imperative
    store against these functions. */
module Queue {
  import opened Event

  datatype State = State(
    protocolVersion: string,
    sourceId: string,
    generation: string,
    owner: string,            // fingerprint, system, timeline, database and slot
    schemaHash: string,
    phase: Phase,
    snapshotLsn: string,
    durableLsn: string,
    sourceCleanup: string,
    nextSeq: nat,
    readySeq: nat,
    deliveredSeq: nat,
    bytes: int,
    earliestSeq: nat,
    archiveBytes: int
  )

  datatype Durable = Durable(state: State, items: map<nat, Message>)

  datatype Config = Config(
    maxBytes: int,
    reserve: nat,
    replayAge: int,
    replayBytes: int,
    encodedSize: Message -> nat
  )

  datatype QueueError = Full | Empty | NotDrained | Gap | Rejected

  type Outcome = Result<Durable, QueueError>

  const EmptyState :=
    State("", "", "", "", "", Unset, "", "", "", 0, 0, 0, 0, 0, 0)

  // ---------------------------------------------------------------- byte accounts

  /** The encoded size of the items with sequence numbers in [lo, hi). */
  function Size(cfg: Config, items: map<nat, Message>, lo: nat, hi: nat): nat
    decreases hi
  {
    if hi <= lo then 0
    else Size(cfg, items, lo, hi - 1) + (if hi - 1 in items then cfg.encodedSize(items[hi - 1]) else 0)
  }

  lemma {:induction false} SizeSplit(cfg: Config, items: map<nat, Message>, lo: nat, mid: nat, hi: nat)
    requires lo <= mid <= hi
    ensures Size(cfg, items, lo, hi) == Size(cfg, items, lo, mid) + Size(cfg, items, mid, hi)
    decreases hi
  {
    if mid < hi {
      SizeSplit(cfg, items, lo, mid, hi - 1);
    }
  }

  lemma {:induction false} SizeAgree(cfg: Config, a: map<nat, Message>, b: map<nat, Message>, lo: nat, hi: nat)
    requires forall k: nat | lo <= k < hi :: (k in a <==> k in b) && (k in a ==> a[k] == b[k])
    ensures Size(cfg, a, lo, hi) == Size(cfg, b, lo, hi)
    decreases hi
  {
    if lo < hi {
      SizeAgree(cfg, a, b, lo, hi - 1);
    }
  }

  // ---------------------------------------------------------------- invariant

  /** A state written before replay archives existed has earliest = 0; its acknowledged items are gone. */
  function Earliest(s: State): nat {
    if s.earliestSeq == 0 then s.deliveredSeq + 1 else s.earliestSeq
  }

  predicate Stamped(s: State, k: nat, m: Message) {
    m.seqNo == k && m.sourceId == s.sourceId && m.generation == s.generation
    && m.id == MessageId(s.sourceId, s.generation, k)
  }

  /** The items are exactly the window [earliest, next], each under its canonical envelope. */
  ghost predicate Windowed(d: Durable) {
    var s := d.state;
    && s.deliveredSeq <= s.readySeq <= s.nextSeq
    && 1 <= Earliest(s) <= s.deliveredSeq + 1
    && (forall k: nat :: k in d.items <==> Earliest(s) <= k <= s.nextSeq)
    && (forall k: nat | k in d.items :: Stamped(s, k, d.items[k]))
  }

  /** Both byte accounts are exact: pending bytes and archived bytes. */
  ghost predicate Accounted(cfg: Config, d: Durable) {
    var s := d.state;
    && s.bytes == Size(cfg, d.items, s.deliveredSeq + 1, s.nextSeq + 1)
    && s.archiveBytes == Size(cfg, d.items, Earliest(s), s.deliveredSeq + 1)
  }

  ghost predicate Valid(cfg: Config, d: Durable) {
    Windowed(d) && Accounted(cfg, d)
  }

  // ---------------------------------------------------------------- operations

  function Reset(s: State): State {
    s.(phase := Snapshot, bytes := 0, nextSeq := 0, readySeq := 0, deliveredSeq := 0, earliestSeq := 1,
       archiveBytes := 0)
  }

  function Initialize(d: Durable, st: State): Outcome {
    if d.state.phase.Stream? then Failure(Rejected) else Success(Durable(Reset(st), map[]))
  }

  function SnapshotPoint(d: Durable, lsn: string): Outcome {
    Success(d.(state := d.state.(snapshotLsn := lsn)))
  }

  function Relabel(items: map<nat, Message>, upTo: nat, lsn: string): map<nat, Message> {
    map k | k in items :: if 1 <= k <= upTo then items[k].(lsn := lsn) else items[k]
  }

  function FinalizeSnapshotLsn(cfg: Config, d: Durable, lsn: string): Outcome {
    var s := d.state;
    if !s.phase.Snapshot? || s.readySeq != 0 then Failure(Rejected)
    else
      var items := Relabel(d.items, s.nextSeq, lsn);
      var bytes := Size(cfg, items, 1, s.nextSeq + 1);
      // encoded sizes are positive sums, so the running total overflows exactly when the final one does
      if s.nextSeq > 0 && bytes > cfg.maxBytes then Failure(Full)
      else Success(Durable(s.(bytes := bytes, snapshotLsn := lsn), items))
  }

  /** The envelope the queue puts on a draft message. */
  function Stamp(s: State, m: Message, now: int): Message {
    m.(version := if s.protocolVersion == "" then "v1" else s.protocolVersion,
       sourceId := s.sourceId,
       generation := s.generation,
       schemaVersion := if m.schemaVersion == "" then s.schemaHash else m.schemaVersion,
       seqNo := s.nextSeq + 1,
       id := MessageId(s.sourceId, s.generation, s.nextSeq + 1),
       createdAt := Some(now))
  }

  function Append(cfg: Config, d: Durable, m: Message, free: nat, now: int): Outcome {
    var s := d.state;
    var stamped := Stamp(s, m, now);
    var size := cfg.encodedSize(stamped);
    if free < cfg.reserve + |m.rows| * 1024 then Failure(Full)
    else if s.bytes + size > cfg.maxBytes || free < cfg.reserve + size * 4 then Failure(Full)
    else Success(Durable(s.(nextSeq := stamped.seqNo, bytes := s.bytes + size), d.items[stamped.seqNo := stamped]))
  }

  function PublishSource(d: Durable, lsn: string, seal: bool, cleanup: string): Outcome {
    var s := d.state;
    if seal && !s.phase.Snapshot? then Failure(Rejected)
    else Success(d.(state := s.(phase := if seal then Stream else s.phase,
                                readySeq := s.nextSeq, durableLsn := lsn, sourceCleanup := cleanup)))
  }

  function PublishSchema(d: Durable, lsn: string, hash: string): Outcome {
    if lsn == "" || hash == "" || !d.state.phase.Stream? then Failure(Rejected)
    else Success(d.(state := d.state.(readySeq := d.state.nextSeq, durableLsn := lsn, schemaHash := hash)))
  }

  function ClearSourceCleanup(d: Durable, expected: string): Outcome {
    if d.state.sourceCleanup != expected then Failure(Rejected)
    else Success(d.(state := d.state.(sourceCleanup := "")))
  }

  function Recover(cfg: Config, d: Durable): Outcome {
    var s := d.state;
    Success(Durable(s.(bytes := s.bytes - Size(cfg, d.items, s.readySeq + 1, s.nextSeq + 1), nextSeq := s.readySeq),
                    map k | k in d.items && k <= s.readySeq :: d.items[k]))
  }

  function ResetForSnapshot(d: Durable): Outcome {
    var s := d.state;
    if !s.phase.Stream? then Failure(Rejected)
    else if s.nextSeq != s.readySeq || s.deliveredSeq != s.readySeq then Failure(NotDrained)
    else Success(Durable(Reset(s).(generation := "", schemaHash := "", snapshotLsn := "", durableLsn := "",
                                   sourceCleanup := ""), map[]))
  }

  predicate Expired(cfg: Config, m: Message, now: int) {
    m.createdAt.Some? && now - m.createdAt.value > cfg.replayAge
  }

  /** An acknowledged item stays while it is young enough and everything from it on fits the replay budget. */
  predicate Keeps(cfg: Config, items: map<nat, Message>, e: nat, delivered: nat, now: int) {
    e in items && !Expired(cfg, items[e], now) && Size(cfg, items, e, delivered + 1) <= cfg.replayBytes
  }

  function FirstKept(cfg: Config, items: map<nat, Message>, e: nat, delivered: nat, now: int): nat
    decreases delivered + 1 - e
  {
    if e > delivered || Keeps(cfg, items, e, delivered, now) then e
    else FirstKept(cfg, items, e + 1, delivered, now)
  }

  function Ack(cfg: Config, d: Durable, seqNo: nat, id: MessageId, now: int): Outcome {
    var s := d.state;
    if seqNo != s.deliveredSeq + 1 || seqNo > s.readySeq || seqNo !in d.items || d.items[seqNo].id != id
      then Failure(Rejected)
    else
      var start := if s.earliestSeq == 0 then 1 else s.earliestSeq;
      var kept := FirstKept(cfg, d.items, start, seqNo, now);
      Success(Durable(
        s.(bytes := s.bytes - cfg.encodedSize(d.items[seqNo]), archiveBytes := Size(cfg, d.items, kept, seqNo + 1),
           deliveredSeq := seqNo, earliestSeq := kept),
        map k | k in d.items && !(start <= k < kept) :: d.items[k]))
  }

  // ---------------------------------------------------------------- reads

  function Get(d: Durable, seqNo: nat): Result<Message, QueueError> {
    if seqNo < Earliest(d.state) || seqNo > d.state.readySeq then Failure(Empty)
    else if seqNo !in d.items then Failure(Gap)
    else Success(d.items[seqNo])
  }

  function Peek(d: Durable): Result<Message, QueueError> {
    if d.state.deliveredSeq >= d.state.readySeq then Failure(Empty)
    else if d.state.deliveredSeq + 1 !in d.items then Failure(Gap)
    else Success(d.items[d.state.deliveredSeq + 1])
  }

  // ---------------------------------------------------------------- eviction

  /** The eviction loop stops at the first acknowledged item worth keeping, and evicts nothing else. */
  lemma {:induction false} FirstKeptIsFirst(cfg: Config, items: map<nat, Message>, e: nat, delivered: nat, now: int)
    requires e <= delivered + 1
    ensures var kept := FirstKept(cfg, items, e, delivered, now);
            && e <= kept <= delivered + 1
            && (kept <= delivered ==> Keeps(cfg, items, kept, delivered, now))
            && (forall k: nat | e <= k < kept :: !Keeps(cfg, items, k, delivered, now))
    decreases delivered + 1 - e
  {
    if !(e > delivered || Keeps(cfg, items, e, delivered, now)) {
      FirstKeptIsFirst(cfg, items, e + 1, delivered, now);
    }
  }

  // ---------------------------------------------------------------- steps

  datatype Op =
    | OpInitialize(st: State)
    | OpSnapshotPoint(point: string)
    | OpFinalize(boundary: string)
    | OpAppend(m: Message, free: nat, appendedAt: int)
    | OpPublish(lsn: string, seal: bool, cleanup: string)
    | OpPublishSchema(schemaLsn: string, hash: string)
    | OpClearCleanup(expected: string)
    | OpRecover
    | OpReset
    | OpAck(seqNo: nat, id: MessageId, ackedAt: int)
    | OpCrash

  function Attempt(cfg: Config, d: Durable, op: Op): Outcome {
    match op
    case OpInitialize(st) => Initialize(d, st)
    case OpSnapshotPoint(point) => SnapshotPoint(d, point)
    case OpFinalize(boundary) => FinalizeSnapshotLsn(cfg, d, boundary)
    case OpAppend(m, free, now) => Append(cfg, d, m, free, now)
    case OpPublish(lsn, seal, cleanup) => PublishSource(d, lsn, seal, cleanup)
    case OpPublishSchema(lsn, hash) => PublishSchema(d, lsn, hash)
    case OpClearCleanup(expected) => ClearSourceCleanup(d, expected)
    case OpRecover => Recover(cfg, d)
    case OpReset => ResetForSnapshot(d)
    case OpAck(seqNo, id, now) => Ack(cfg, d, seqNo, id, now)
    case OpCrash => Success(d)  // the process dies; the file keeps what was committed
  }

  /** A failed transaction rolls back. */
  function Step(cfg: Config, d: Durable, op: Op): Durable {
    match Attempt(cfg, d, op)
    case Success(next) => next
    case Failure(_) => d
  }

  predicate Restarts(cfg: Config, d: Durable, op: Op) {
    (op.OpInitialize? || op.OpReset?) && Attempt(cfg, d, op).Success?
  }

  /** The queue together with everything ever published since the last reset, including evicted messages. */
  datatype Traced = Traced(d: Durable, log: seq<Message>)

  function Slice(items: map<nat, Message>, lo: nat, hi: nat): seq<Message>
    requires lo <= hi
    requires forall k: nat | lo < k <= hi :: k in items
  {
    seq(hi - lo, i requires 0 <= i < hi - lo => items[lo + 1 + i])
  }

  ghost predicate TracedValid(cfg: Config, t: Traced) {
    && Valid(cfg, t.d)
    && |t.log| == t.d.state.readySeq
    && (forall k: nat | Earliest(t.d.state) <= k <= t.d.state.readySeq :: t.d.items[k] == t.log[k - 1])
  }

  ghost function TraceStep(cfg: Config, t: Traced, op: Op): Traced {
    var d := Step(cfg, t.d, op);
    if !TracedValid(cfg, t) then t
    else if Restarts(cfg, t.d, op) then Traced(d, [])
    else if t.d.state.readySeq < d.state.readySeq <= t.d.state.nextSeq then
      Traced(d, t.log + Slice(t.d.items, t.d.state.readySeq, d.state.readySeq))
    else Traced(d, t.log)
  }

  lemma TraceStepQueue(cfg: Config, t: Traced, op: Op)
    requires TracedValid(cfg, t)
    ensures TraceStep(cfg, t, op).d == Step(cfg, t.d, op)
  {
    hide TracedValid, Step;
  }

  // ---------------------------------------------------------------- preservation

  lemma AppendWindowed(cfg: Config, d: Durable, m: Message, free: nat, now: int)
    requires Windowed(d) && Append(cfg, d, m, free, now).Success?
    ensures Windowed(Append(cfg, d, m, free, now).value)
  {
  }

  lemma AppendAccounted(cfg: Config, d: Durable, m: Message, free: nat, now: int)
    requires Valid(cfg, d) && Append(cfg, d, m, free, now).Success?
    ensures Accounted(cfg, Append(cfg, d, m, free, now).value)
  {
    hide Stamped;
    var next, s, stamped := Append(cfg, d, m, free, now).value, d.state, Stamp(d.state, m, now);
    assert stamped.seqNo == s.nextSeq + 1;
    hide Stamp;
    SizeAgree(cfg, d.items, next.items, s.deliveredSeq + 1, s.nextSeq + 1);
    SizeAgree(cfg, d.items, next.items, Earliest(s), s.deliveredSeq + 1);
  }

  lemma AppendValid(cfg: Config, d: Durable, m: Message, free: nat, now: int)
    requires Valid(cfg, d) && Append(cfg, d, m, free, now).Success?
    ensures Valid(cfg, Append(cfg, d, m, free, now).value)
  {
    AppendWindowed(cfg, d, m, free, now);
    AppendAccounted(cfg, d, m, free, now);
  }

  lemma RecoverWindowed(cfg: Config, d: Durable)
    requires Windowed(d)
    ensures Windowed(Recover(cfg, d).value)
  {
  }

  lemma RecoverSizes(cfg: Config, d: Durable)
    requires d.state.deliveredSeq <= d.state.readySeq <= d.state.nextSeq
    ensures var items, s := Recover(cfg, d).value.items, d.state;
            && Size(cfg, d.items, s.deliveredSeq + 1, s.nextSeq + 1) ==
               Size(cfg, items, s.deliveredSeq + 1, s.readySeq + 1) + Size(cfg, d.items, s.readySeq + 1, s.nextSeq + 1)
            && Size(cfg, items, Earliest(s), s.deliveredSeq + 1) == Size(cfg, d.items, Earliest(s), s.deliveredSeq + 1)
  {
    var items, s := Recover(cfg, d).value.items, d.state;
    SizeSplit(cfg, d.items, s.deliveredSeq + 1, s.readySeq + 1, s.nextSeq + 1);
    SizeAgree(cfg, d.items, items, s.deliveredSeq + 1, s.readySeq + 1);
    SizeAgree(cfg, d.items, items, Earliest(s), s.deliveredSeq + 1);
  }

  lemma RecoverAccounted(cfg: Config, d: Durable)
    requires Valid(cfg, d)
    ensures Accounted(cfg, Recover(cfg, d).value)
  {
    RecoverSizes(cfg, d);
    hide Size;
  }

  lemma AckWindowed(cfg: Config, d: Durable, seqNo: nat, id: MessageId, now: int)
    requires Windowed(d) && Ack(cfg, d, seqNo, id, now).Success?
    ensures Windowed(Ack(cfg, d, seqNo, id, now).value)
  {
    var start := if d.state.earliestSeq == 0 then 1 else d.state.earliestSeq;
    FirstKeptIsFirst(cfg, d.items, start, seqNo, now);
  }

  lemma AckAccounted(cfg: Config, d: Durable, seqNo: nat, id: MessageId, now: int)
    requires Valid(cfg, d) && Ack(cfg, d, seqNo, id, now).Success?
    ensures Accounted(cfg, Ack(cfg, d, seqNo, id, now).value)
  {
    hide Size, Stamped, Stamp, Keeps, FirstKept;
    var next := Ack(cfg, d, seqNo, id, now).value;
    var start := if d.state.earliestSeq == 0 then 1 else d.state.earliestSeq;
    FirstKeptIsFirst(cfg, d.items, start, seqNo, now);
    AckAccountsPending(cfg, d.items, next.items, seqNo, d.state.nextSeq);
    SizeAgree(cfg, d.items, next.items, next.state.earliestSeq, seqNo + 1);
  }

  lemma AckAccountsPending(cfg: Config, before: map<nat, Message>, after: map<nat, Message>, seqNo: nat, last: nat)
    requires seqNo <= last && seqNo in before
    requires forall k: nat | seqNo < k <= last :: k in before && k in after && after[k] == before[k]
    ensures Size(cfg, before, seqNo, last + 1)
         == cfg.encodedSize(before[seqNo]) + Size(cfg, after, seqNo + 1, last + 1)
  {
    SizeSplit(cfg, before, seqNo, seqNo + 1, last + 1);
    assert Size(cfg, before, seqNo, seqNo) == 0;
    SizeAgree(cfg, before, after, seqNo + 1, last + 1);
  }

  lemma FinalizeValid(cfg: Config, d: Durable, lsn: string)
    requires Valid(cfg, d) && FinalizeSnapshotLsn(cfg, d, lsn).Success?
    ensures Valid(cfg, FinalizeSnapshotLsn(cfg, d, lsn).value)
  {
  }

  lemma RecoverValid(cfg: Config, d: Durable)
    requires Valid(cfg, d)
    ensures Valid(cfg, Recover(cfg, d).value)
  {
    RecoverWindowed(cfg, d);
    RecoverAccounted(cfg, d);
  }

  lemma AckValid(cfg: Config, d: Durable, seqNo: nat, id: MessageId, now: int)
    requires Valid(cfg, d) && Ack(cfg, d, seqNo, id, now).Success?
    ensures Valid(cfg, Ack(cfg, d, seqNo, id, now).value)
  {
    hide Ack;
    AckWindowed(cfg, d, seqNo, id, now);
    AckAccounted(cfg, d, seqNo, id, now);
  }

  /** The operations that only change the state record, or empty the queue. */
  lemma RecordValid(cfg: Config, d: Durable, op: Op)
    requires Valid(cfg, d) && Attempt(cfg, d, op).Success?
    requires !(op.OpAppend? || op.OpRecover? || op.OpAck? || op.OpFinalize?)
    ensures Valid(cfg, Attempt(cfg, d, op).value)
  {
    hide Append, Ack, FinalizeSnapshotLsn, Recover;
  }

  lemma StepValid(cfg: Config, d: Durable, op: Op)
    requires Valid(cfg, d)
    ensures Valid(cfg, Step(cfg, d, op))
  {
    hide Valid, Append, Ack, FinalizeSnapshotLsn, Recover;
    if Attempt(cfg, d, op).Success? {
      match op
      case OpAppend(m, free, now) => AppendValid(cfg, d, m, free, now);
      case OpRecover => RecoverValid(cfg, d);
      case OpAck(seqNo, id, now) => AckValid(cfg, d, seqNo, id, now);
      case OpFinalize(lsn) => FinalizeValid(cfg, d, lsn);
      case _ => RecordValid(cfg, d, op);
    }
  }

  predicate Publishes(op: Op) {
    op.OpPublish? || op.OpPublishSchema?
  }

  lemma PublishState(cfg: Config, d: Durable, op: Op)
    requires Publishes(op) && Attempt(cfg, d, op).Success?
    ensures var next := Step(cfg, d, op);
            && next.items == d.items
            && next.state.readySeq == next.state.nextSeq == d.state.nextSeq
            && next.state.earliestSeq == d.state.earliestSeq && next.state.deliveredSeq == d.state.deliveredSeq
  {
  }

  lemma SliceExtendsLog(d: Durable, log: seq<Message>)
    requires Windowed(d) && |log| == d.state.readySeq
    requires forall k: nat | Earliest(d.state) <= k <= d.state.readySeq :: d.items[k] == log[k - 1]
    ensures var longer := log + Slice(d.items, d.state.readySeq, d.state.nextSeq);
            |longer| == d.state.nextSeq &&
            forall k: nat | Earliest(d.state) <= k <= d.state.nextSeq :: d.items[k] == longer[k - 1]
  {
    hide Stamped, Slice;
    SliceCount(d.items, d.state.readySeq, d.state.nextSeq);
    forall k: nat | Earliest(d.state) <= k <= d.state.nextSeq
      ensures d.items[k] == (log + Slice(d.items, d.state.readySeq, d.state.nextSeq))[k - 1]
    {
      SliceAt(d.items, log, d.state.nextSeq, k);
    }
  }

  lemma SliceCount(items: map<nat, Message>, lo: nat, hi: nat)
    requires lo <= hi && forall k: nat | lo < k <= hi :: k in items
    ensures |Slice(items, lo, hi)| == hi - lo
  {
  }

  lemma SliceAt(items: map<nat, Message>, log: seq<Message>, hi: nat, k: nat)
    requires |log| <= hi && (forall j: nat | |log| < j <= hi :: j in items) && 0 < k <= hi && k in items
    requires k <= |log| ==> items[k] == log[k - 1]
    ensures |Slice(items, |log|, hi)| == hi - |log| && (log + Slice(items, |log|, hi))[k - 1] == items[k]
  {
    var more := Slice(items, |log|, hi);
    if k > |log| {
      assert (log + more)[k - 1] == more[k - 1 - |log|];
    }
  }

  lemma PublishKeepsTrace(cfg: Config, t: Traced, op: Op)
    requires TracedValid(cfg, t) && Publishes(op) && Attempt(cfg, t.d, op).Success?
    ensures TracedValid(cfg, TraceStep(cfg, t, op))
    ensures TraceStep(cfg, t, op).log == t.log + Slice(t.d.items, t.d.state.readySeq, t.d.state.nextSeq)
  {
    StepValid(cfg, t.d, op);
    PublishState(cfg, t.d, op);
    SliceExtendsLog(t.d, t.log);
    if t.d.state.readySeq == t.d.state.nextSeq {
      assert t.log + Slice(t.d.items, t.d.state.readySeq, t.d.state.nextSeq) == t.log;
    }
  }

  /** Every operation that neither publishes nor restarts leaves the readable part of the log alone. */
  lemma StepKeepsReadable(cfg: Config, d: Durable, op: Op)
    requires Windowed(d) && !Publishes(op) && !Restarts(cfg, d, op)
    ensures var next := Step(cfg, d, op);
            && next.state.readySeq == d.state.readySeq
            && Earliest(d.state) <= Earliest(next.state)
            && (forall k: nat | Earliest(next.state) <= k <= d.state.readySeq :: k in next.items ==>
                 next.items[k] == d.items[k])
  {
    if op.OpAck? && Attempt(cfg, d, op).Success? {
      var start := if d.state.earliestSeq == 0 then 1 else d.state.earliestSeq;
      FirstKeptIsFirst(cfg, d.items, start, op.seqNo, op.ackedAt);
      if d.state.earliestSeq == 0 {
        FirstKeptSkips(cfg, d.items, 1, op.seqNo, op.ackedAt);
      }
    }
  }

  /** No step rewrites or drops a published message: whatever is still stored equals the published log. */
  lemma TraceStepValid(cfg: Config, t: Traced, op: Op)
    requires TracedValid(cfg, t)
    ensures TracedValid(cfg, TraceStep(cfg, t, op))
    ensures Restarts(cfg, t.d, op) || t.log <= TraceStep(cfg, t, op).log
  {
    hide Size, Stamped, Stamp, Earliest, FirstKept;
    StepValid(cfg, t.d, op);
    if Restarts(cfg, t.d, op) {
    } else if Publishes(op) {
      if Attempt(cfg, t.d, op).Success? {
        PublishKeepsTrace(cfg, t, op);
      }
    } else {
      StepKeepsReadable(cfg, t.d, op);
    }
  }

  ghost function TraceRun(cfg: Config, t: Traced, ops: seq<Op>): Traced
    requires TracedValid(cfg, t)
    decreases |ops|
  {
    if ops == [] then t
    else
      TraceStepValid(cfg, t, ops[0]);
      TraceRun(cfg, TraceStep(cfg, t, ops[0]), ops[1..])
  }

  ghost predicate NeverRestarts(cfg: Config, t: Traced, ops: seq<Op>)
    requires TracedValid(cfg, t)
    decreases |ops|
  {
    ops == [] ||
    (TraceStepValid(cfg, t, ops[0]);
     !Restarts(cfg, t.d, ops[0]) && NeverRestarts(cfg, TraceStep(cfg, t, ops[0]), ops[1..]))
  }

  /** Over every sequence of operations and crashes the queue invariant holds, and within one
      generation the published log only ever grows. */
  lemma {:induction false} RunKeepsQueue(cfg: Config, t: Traced, ops: seq<Op>)
    requires TracedValid(cfg, t)
    ensures TracedValid(cfg, TraceRun(cfg, t, ops))
    ensures NeverRestarts(cfg, t, ops) ==> t.log <= TraceRun(cfg, t, ops).log
    decreases |ops|
  {
    if ops != [] {
      TraceStepValid(cfg, t, ops[0]);
      RunKeepsQueue(cfg, TraceStep(cfg, t, ops[0]), ops[1..]);
    }
  }

  /** A fresh file satisfies the invariant, with an empty published log. */
  lemma FreshQueueValid(cfg: Config)
    ensures TracedValid(cfg, Traced(Durable(EmptyState, map[]), []))
  {
    assert Size(cfg, map[], 1, 1) == 0;
  }

  /** The pending bytes never exceed the configured capacity. */
  lemma StepWithinCapacity(cfg: Config, d: Durable, op: Op)
    requires Valid(cfg, d) && 0 <= cfg.maxBytes && d.state.bytes <= cfg.maxBytes
    ensures Step(cfg, d, op).state.bytes <= cfg.maxBytes
  {
    if op.OpFinalize? && d.state.nextSeq == 0 {
      assert Size(cfg, Relabel(d.items, 0, op.boundary), 1, 1) == 0;
    }
  }

  /** What an accepted acknowledgement does to the archive: it removes the oldest acknowledged items up
      to the first one worth keeping, nothing else, and ends within the replay budget. */
  lemma AckEvictsOldest(cfg: Config, d: Durable, seqNo: nat, id: MessageId, now: int)
    requires Valid(cfg, d) && 0 <= cfg.replayBytes && Ack(cfg, d, seqNo, id, now).Success?
    ensures var next := Ack(cfg, d, seqNo, id, now).value;
            var kept := next.state.earliestSeq;
            && next.state.deliveredSeq == seqNo == d.state.deliveredSeq + 1
            && Earliest(d.state) <= kept <= seqNo + 1
            && (forall k: nat :: k in next.items <==> k in d.items && kept <= k)
            && (forall k: nat | k in next.items :: next.items[k] == d.items[k])
            && next.state.archiveBytes <= cfg.replayBytes
            && (kept <= seqNo ==> !Expired(cfg, d.items[kept], now))
            && (forall k: nat | Earliest(d.state) <= k < kept ::
                  Expired(cfg, d.items[k], now) || Size(cfg, d.items, k, seqNo + 1) > cfg.replayBytes)
  {
    var start := if d.state.earliestSeq == 0 then 1 else d.state.earliestSeq;
    FirstKeptIsFirst(cfg, d.items, start, seqNo, now);
    if d.state.earliestSeq == 0 {
      FirstKeptSkips(cfg, d.items, 1, seqNo, now);
    }
    forall k: nat | Earliest(d.state) <= k < Ack(cfg, d, seqNo, id, now).value.state.earliestSeq
      ensures Expired(cfg, d.items[k], now) || Size(cfg, d.items, k, seqNo + 1) > cfg.replayBytes
    {
      assert k in d.items && !Keeps(cfg, d.items, k, seqNo, now);
    }
  }

  /** On an upgraded state the loop skips every missing item. */
  lemma {:induction false} FirstKeptSkips(cfg: Config, items: map<nat, Message>, e: nat, delivered: nat, now: int)
    requires e <= delivered
    requires forall k: nat | e <= k < delivered :: k !in items
    ensures FirstKept(cfg, items, e, delivered, now) >= delivered
    decreases delivered - e
  {
    if e < delivered {
      FirstKeptSkips(cfg, items, e + 1, delivered, now);
    }
  }

  /** Every published message the window still covers can be read back, unchanged; nothing else can. */
  lemma GetReadsPublished(cfg: Config, t: Traced, seqNo: nat)
    requires TracedValid(cfg, t)
    ensures Get(t.d, seqNo).Success? <==> Earliest(t.d.state) <= seqNo <= t.d.state.readySeq
    ensures Get(t.d, seqNo).Success? ==> Get(t.d, seqNo).value == t.log[seqNo - 1]
    ensures Get(t.d, seqNo).Failure? ==> Get(t.d, seqNo).error == Empty
    ensures Peek(t.d) == if t.d.state.deliveredSeq < t.d.state.readySeq then Success(t.log[t.d.state.deliveredSeq])
                         else Failure(Empty)
  {
  }

  // ---------------------------------------------------------------- staging

  /** The chunks appended since the last publication: stored but invisible. */
  function Staged(d: Durable): seq<Message> {
    if Stores(d) then Slice(d.items, d.state.readySeq, d.state.nextSeq) else []
  }

  predicate Stores(d: Durable) {
    d.state.readySeq <= d.state.nextSeq && forall k: nat | d.state.readySeq < k <= d.state.nextSeq :: k in d.items
  }

  lemma AppendStages(cfg: Config, d: Durable, m: Message, free: nat, now: int)
    requires Windowed(d) && Append(cfg, d, m, free, now).Success?
    ensures Windowed(Append(cfg, d, m, free, now).value)
    ensures Staged(Append(cfg, d, m, free, now).value) == Staged(d) + [Stamp(d.state, m, now)]
  {
  }

  lemma RecoverDiscardsStaged(cfg: Config, d: Durable)
    requires Windowed(d)
    ensures Staged(Recover(cfg, d).value) == []
    ensures forall k: nat | k in Recover(cfg, d).value.items ::
              k in d.items && Recover(cfg, d).value.items[k] == d.items[k]
    ensures forall k: nat | k in d.items && k <= d.state.readySeq :: k in Recover(cfg, d).value.items
    ensures Recover(cfg, d).value.state.readySeq == d.state.readySeq
  {
  }

  /** Publication moves exactly the staged chunks to the end of the published log. */
  lemma PublishExposesStaged(cfg: Config, t: Traced, op: Op)
    requires TracedValid(cfg, t) && Publishes(op) && Attempt(cfg, t.d, op).Success?
    ensures TraceStep(cfg, t, op).log == t.log + Staged(t.d)
    ensures Step(cfg, t.d, op).state.readySeq == Step(cfg, t.d, op).state.nextSeq
  {
    hide Accounted, Stamped, Slice;
    PublishKeepsTrace(cfg, t, op);
  }
}
