/** A SQL Server collector over its whole life: whatever recoveries, polls, deliveries and crashes happen, the published
    transactions are those of the change tables past the snapshot, in order of their positions, each whole and once. */
module CdcRun {
  import opened Event
  import Q = Queue
  import B = Batching
  import CdcRows
  import opened CdcStream
  import opened CdcPoll
  import opened Capture

  // ---------------------------------------------------------------- the source

  /** A transaction with captured changes. */
  datatype CdcTxn = CdcTxn(lsn: nat, changes: seq<CdcRows.Cdc>)

  predicate Ascending(source: seq<CdcTxn>) {
    forall i, j | 0 <= i < j < |source| :: source[i].lsn < source[j].lsn
  }

  /** Exactly the first n transactions are at or before this position. */
  predicate UpTo(source: seq<CdcTxn>, n: nat, position: nat) {
    && n <= |source|
    && (forall i | 0 <= i < n :: source[i].lsn <= position)
    && (forall i | n <= i < |source| :: position < source[i].lsn)
  }

  /** What a consistent read shows, as long as nothing past the position has been cleaned up: the first transaction past
      it and not past the newest one. */
  ghost predicate Shows(source: seq<CdcTxn>, window: Window, position: nat) {
    Readable(window, position) ==>
      forall n: nat | UpTo(source, n, position) ::
        if n < |source| && source[n].lsn <= window.upper
        then window.next == Some(source[n].lsn) && window.changes == source[n].changes
        else window.next.None?
  }

  ghost predicate FaithfulPositions(p: Poller) {
    forall n: nat :: p.parse(p.show(n)) == Some(n)
  }

  /** The messages a transaction is published as; None if it is malformed or a row exceeds the hard limit. */
  function TxnUnit(p: Poller, tx: CdcTxn): Option<seq<Message>> {
    var read := Pair(p.norm, p.tables, tx.changes);
    if read.None? || read.value.pending.Some? || !AllPaired(p.norm, p.tables, read.value.done) then None
    else B.Encode(p.lim, p.show(tx.lsn), Rows(p.norm, p.tables, read.value.done))
  }

  function TxnUnits(p: Poller, txns: seq<CdcTxn>): seq<Message> {
    if txns == [] then []
    else
      var last := TxnUnit(p, txns[|txns| - 1]);
      TxnUnits(p, txns[..|txns| - 1]) + if last.Some? then last.value else []
  }

  // ---------------------------------------------------------------- runs

  /** A crash leaves the queue as it is: in the middle of a poll that is a poll which broke off, or one that
      published. */
  datatype Move =
    | Recovering
    | Polling(window: Window, outcome: Outcome, es: seq<Emitted>)
    | Delivering(seqNo: nat, id: MessageId, ackedAt: int)

  ghost predicate Moves(p: Poller, cfg: Q.Config, source: seq<CdcTxn>, t: Q.Traced, next: Q.Traced, e: Move) {
    match e
    case Recovering => next == Q.TraceStep(cfg, t, Q.OpRecover)
    case Delivering(seqNo, id, now) => next == Q.TraceStep(cfg, t, Q.OpAck(seqNo, id, now))
    case Polling(window, outcome, es) =>
      && Q.Staged(t.d) == [] && Q.TracedValid(cfg, next) && Polled(p, window, t, next, outcome, es)
      && (p.parse(t.d.state.durableLsn).Some? ==> Shows(source, window, p.parse(t.d.state.durableLsn).value))
  }

  ghost predicate IsRun(p: Poller, cfg: Q.Config, source: seq<CdcTxn>, ts: seq<Q.Traced>, es: seq<Move>) {
    |ts| == |es| + 1 && forall i | 0 <= i < |es| :: Moves(p, cfg, source, ts[i], ts[i + 1], es[i])
  }

  /** A queue with a sealed snapshot that covers the first `past` transactions. */
  ghost predicate Sealed(p: Poller, cfg: Q.Config, source: seq<CdcTxn>, past: nat, t: Q.Traced) {
    && Q.TracedValid(cfg, t) && t.d.state.phase.Stream? && TxPayloads(t.log) == []
    && p.parse(t.d.state.durableLsn).Some? && UpTo(source, past, p.parse(t.d.state.durableLsn).value)
  }

  /** The transactions from `past` to n are published, and the position is past exactly the first n. */
  ghost predicate Account(p: Poller, cfg: Q.Config, source: seq<CdcTxn>, past: nat, n: nat, t: Q.Traced) {
    && Q.TracedValid(cfg, t) && t.d.state.phase.Stream? && p.parse(t.d.state.durableLsn).Some?
    && past <= n && UpTo(source, n, p.parse(t.d.state.durableLsn).value)
    && (forall i | past <= i < n :: TxnUnit(p, source[i]).Some?)
    && TxPayloads(t.log) == TxnUnits(p, source[past..n])
  }

  lemma RecoverKeeps(cfg: Q.Config, t: Q.Traced)
    requires Q.TracedValid(cfg, t)
    ensures var next := Q.TraceStep(cfg, t, Q.OpRecover);
            && Q.TracedValid(cfg, next) && next.log == t.log
            && next.d.state.durableLsn == t.d.state.durableLsn && next.d.state.phase == t.d.state.phase
  {
    Q.TraceStepValid(cfg, t, Q.OpRecover);
  }

  lemma DeliveryKeeps(cfg: Q.Config, t: Q.Traced, seqNo: nat, id: MessageId, now: int)
    requires Q.TracedValid(cfg, t)
    ensures var next := Q.TraceStep(cfg, t, Q.OpAck(seqNo, id, now));
            && Q.TracedValid(cfg, next) && next.log == t.log
            && next.d.state.durableLsn == t.d.state.durableLsn && next.d.state.phase == t.d.state.phase
  {
    Q.TraceStepValid(cfg, t, Q.OpAck(seqNo, id, now));
  }

  /** What a poll assembled is the unit of the transaction. */
  lemma AssembledUnit(p: Poller, tx: CdcTxn, es: seq<Emitted>)
    requires Assembles(p.norm, p.tables, tx.changes, es)
    ensures TxnUnit(p, tx) == B.Encode(p.lim, p.show(tx.lsn), Rows(p.norm, p.tables, es))
  {
    hide Rows, WellPaired, B.Encode, Pair, Unambiguous;
    PairComplete(p.norm, p.tables, es);
  }

  lemma UnitIsTx(lim: B.Limits, lsn: string, rows: seq<Row>, messages: seq<Message>)
    requires B.Encode(lim, lsn, rows) == Some(Payloads(messages))
    ensures TxPayloads(messages) == Payloads(messages)
  {
    hide B.AddAll, B.Flush;
    AttemptedBare(lim, lsn, rows, true);
    assert B.Attempted(lim, lsn, rows, true) == Payloads(messages);
    forall i | 0 <= i < |messages| ensures IsTx(messages[i]) {
      assert Payloads(messages)[i] == Payload(messages[i]) && IsTx(Payloads(messages)[i]);
    }
    TxPayloadsOfTx(messages);
  }

  lemma UnitsGrow(p: Poller, source: seq<CdcTxn>, past: nat, n: nat)
    requires past <= n < |source| && TxnUnit(p, source[n]).Some?
    ensures TxnUnits(p, source[past..n + 1]) == TxnUnits(p, source[past..n]) + TxnUnit(p, source[n]).value
  {
    hide TxnUnit;
    assert source[past..n + 1][..n - past] == source[past..n] && source[past..n + 1][n - past] == source[n];
  }

  lemma UpToNext(source: seq<CdcTxn>, n: nat, position: nat)
    requires Ascending(source) && UpTo(source, n, position) && n < |source|
    ensures UpTo(source, n + 1, source[n].lsn)
  {
  }

  lemma ProgressCounts(p: Poller, cfg: Q.Config, source: seq<CdcTxn>, past: nat, n: nat, t: Q.Traced, next: Q.Traced,
                       window: Window, es: seq<Emitted>)
    requires FaithfulPositions(p) && Ascending(source) && Account(p, cfg, source, past, n, t)
    requires Q.TracedValid(cfg, next) && next.d.state.phase.Stream? && Progressed(p, window, t, next, es)
    requires Shows(source, window, p.parse(t.d.state.durableLsn).value)
    ensures Account(p, cfg, source, past, n + 1, next)
  {
    hide Q.TracedValid, TxPayloads, TxnUnits, TxnUnit, B.Encode, WellPaired, Unambiguous, Expand, Rows, Ascending,
         Q.Staged;
    var position := p.parse(t.d.state.durableLsn).value;
    assert UpTo(source, n, position);
    var more := next.log[|t.log|..];
    assert next.log == t.log + more;
    AssembledUnit(p, source[n], es);
    UnitIsTx(p.lim, p.show(source[n].lsn), Rows(p.norm, p.tables, es), more);
    TxPayloadsConcat(t.log, more);
    UnitsGrow(p, source, past, n);
    UpToNext(source, n, position);
  }

  lemma IdleCounts(p: Poller, cfg: Q.Config, source: seq<CdcTxn>, past: nat, n: nat, t: Q.Traced, next: Q.Traced,
                   window: Window)
    requires FaithfulPositions(p) && Ascending(source) && Account(p, cfg, source, past, n, t)
    requires Q.TracedValid(cfg, next) && next.d.state.phase.Stream? && Idled(p, window, t, next)
    requires Shows(source, window, p.parse(t.d.state.durableLsn).value)
    ensures Account(p, cfg, source, past, n, next)
  {
    hide Q.TracedValid, TxPayloads, TxnUnits, TxnUnit, Q.Staged;
    assert UpTo(source, n, p.parse(t.d.state.durableLsn).value);
  }

  lemma StepCounts(p: Poller, cfg: Q.Config, source: seq<CdcTxn>, past: nat, n: nat, t: Q.Traced, next: Q.Traced,
                   e: Move)
    returns (m: nat)
    requires FaithfulPositions(p) && Ascending(source) && Account(p, cfg, source, past, n, t)
             && Moves(p, cfg, source, t, next, e)
    ensures n <= m <= n + 1 && Account(p, cfg, source, past, m, next)
  {
    hide Q.TracedValid, TxPayloads, TxnUnits, TxnUnit, Q.TraceStep, Q.Staged, FaithfulPositions, Ascending, Shows,
         Progressed, Idled;
    m := n;
    match e {
      case Recovering => RecoverKeeps(cfg, t);
      case Delivering(seqNo, id, now) => DeliveryKeeps(cfg, t, seqNo, id, now);
      case Polling(window, outcome, es) =>
        if outcome.Progress? {
          m := n + 1;
          ProgressCounts(p, cfg, source, past, n, t, next, window, es);
        } else if outcome.Nothing? {
          IdleCounts(p, cfg, source, past, n, t, next, window);
        }
    }
  }

  lemma {:induction false} RunCounts(p: Poller, cfg: Q.Config, source: seq<CdcTxn>, past: nat, ts: seq<Q.Traced>,
                                     es: seq<Move>)
    returns (n: nat)
    requires FaithfulPositions(p) && Ascending(source) && IsRun(p, cfg, source, ts, es)
             && Sealed(p, cfg, source, past, ts[0])
    ensures Account(p, cfg, source, past, n, ts[|es|])
    decreases |es|
  {
    hide Moves, FaithfulPositions, Ascending;
    if es == [] {
      n := past;
      assert source[past..past] == [];
    } else {
      var k := |es| - 1;
      n := RunCounts(p, cfg, source, past, ts[..|es|], es[..k]);
      hide Account, Sealed;
      n := StepCounts(p, cfg, source, past, n, ts[k], ts[k + 1], es[k]);
    }
  }

  /** Exactly once, in order: after every run the published transaction messages are the whole units of the
      transactions between the snapshot and the durable position. */
  lemma CdcExactlyOnce(p: Poller, cfg: Q.Config, source: seq<CdcTxn>, past: nat, ts: seq<Q.Traced>, es: seq<Move>)
    returns (n: nat)
    requires FaithfulPositions(p) && Ascending(source) && IsRun(p, cfg, source, ts, es)
             && Sealed(p, cfg, source, past, ts[0])
    ensures past <= n <= |source|
    ensures var t := ts[|es|];
            && p.parse(t.d.state.durableLsn).Some? && UpTo(source, n, p.parse(t.d.state.durableLsn).value)
            && (forall i | past <= i < n :: TxnUnit(p, source[i]).Some?)
            && TxPayloads(t.log) == TxnUnits(p, source[past..n])
  {
    n := RunCounts(p, cfg, source, past, ts, es);
    hide Q.TracedValid, TxPayloads, TxnUnits, TxnUnit, Moves;
  }
}
