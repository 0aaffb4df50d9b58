/** One poll of a SQL Server source: the next transaction is read, appended chunk by chunk and published, or
    nothing becomes visible. Every queue operation of a poll publishes whole units only. */
module CdcPoll {
  import opened Event
  import Q = Queue
  import QS = QueueStore
  import B = Batching
  import opened CdcRows
  import opened CdcStream
  import opened Capture
  import D = CaptureDecoder
  import U = Units

  /** What the source shows in one consistent read: the newest position, the oldest each capture instance still
      has, the first transaction past the durable position with its change-table rows, and whether the schema is
      still the same and the read could be committed afterwards. */
  datatype Window = Window(upper: nat, minimums: seq<nat>, next: Option<nat>, changes: seq<Cdc>, steady: bool,
                           commits: bool)

  datatype Outcome = Progress | Nothing | Failed

  /** The change tables still have everything past the durable position. */
  predicate Retained(window: Window, durable: nat) {
    forall i | 0 <= i < |window.minimums| :: 0 < window.minimums[i] <= durable + 1
  }

  /** The position published by a poll that finds the range empty, or the transaction it has to read. */
  predicate Readable(window: Window, durable: nat) {
    durable < window.upper && Retained(window, durable)
      && (window.next.Some? ==> durable < window.next.value <= window.upper)
  }

  lemma StampExtends(st: Q.State, before: seq<Message>, after: seq<Message>, m: Message)
    requires IsTx(m) && Payload(m) == m && exists now :: after == before + [Q.Stamp(st, m, now)]
    ensures Payloads(after) == Payloads(before) + [m]
  {
    hide Q.Stamp;
    var now :| after == before + [Q.Stamp(st, m, now)];
    StampedPayload(st, m, now);
  }

  lemma AppendIsDisciplined(cfg: Q.Config, d: Q.Durable, m: Message, prior: seq<Q.Op>, ops: seq<Q.Op>)
    requires IsTx(m) && U.DisciplinedRun(cfg, d, prior) && U.Ran(cfg, d, prior).state.phase.Stream?
    requires forall op | op in ops :: U.Waits(m, op)
    ensures U.DisciplinedRun(cfg, d, prior + ops) && U.Ran(cfg, d, prior + ops).state.phase.Stream?
    ensures U.Ran(cfg, d, prior + ops).state.durableLsn == U.Ran(cfg, d, prior).state.durableLsn
    ensures U.Ran(cfg, d, prior + ops) == U.Ran(cfg, U.Ran(cfg, d, prior), ops)
  {
    hide U.DisciplinedRun, U.Ran;
    U.WaitingDisciplined(cfg, U.Ran(cfg, d, prior), m, ops);
    U.RanConcat(cfg, d, prior, ops);
  }

  /** Appends messages one after the other, until one does not fit. */
  method AppendAll(queue: QS.Store, drafts: seq<Message>, turns: seq<D.Turn>, ghost log: seq<Message>)
    returns (ok: bool, ghost ops: seq<Q.Op>)
    requires queue.Valid() && Q.TracedValid(queue.cfg, Q.Traced(queue.Contents(), log)) && Bare(drafts)
             && queue.state.phase.Stream?
    requires Q.Staged(queue.Contents()) == []
    modifies queue
    ensures queue.Valid() && Q.TracedValid(queue.cfg, Q.Traced(queue.Contents(), log)) && queue.state.phase.Stream?
    ensures Payloads(Q.Staged(queue.Contents())) <= drafts
    ensures ok ==> Payloads(Q.Staged(queue.Contents())) == drafts
    ensures queue.state.durableLsn == old(queue.state.durableLsn)
    ensures queue.Contents() == U.Ran(queue.cfg, old(queue.Contents()), ops)
    ensures U.DisciplinedRun(queue.cfg, old(queue.Contents()), ops)
  {
    hide Q.TracedValid, Payload, Q.Stamp, U.DisciplinedRun, U.Ran, U.Waits, IsTx, Q.Staged;
    ops := [];
    U.RanNothing(queue.cfg, queue.Contents());
    for i := 0 to |drafts|
      invariant queue.Valid() && Q.TracedValid(queue.cfg, Q.Traced(queue.Contents(), log)) && queue.state.phase.Stream?
      invariant Payloads(Q.Staged(queue.Contents())) == drafts[..i]
                && queue.state.durableLsn == old(queue.state.durableLsn)
      invariant queue.Contents() == U.Ran(queue.cfg, old(queue.Contents()), ops)
      invariant U.DisciplinedRun(queue.cfg, old(queue.Contents()), ops)
    {
      ghost var staged, st := Q.Staged(queue.Contents()), queue.state;
      var error;
      ghost var more;
      error, more := D.AppendWaiting(queue, drafts[i], turns, log);
      AppendIsDisciplined(queue.cfg, old(queue.Contents()), drafts[i], ops, more);
      ops := ops + more;
      if error.Some? {
        return false, ops;
      }
      StampExtends(st, staged, Q.Staged(queue.Contents()), drafts[i]);
      assert drafts[..i + 1] == drafts[..i] + [drafts[i]];
    }
    assert drafts[..|drafts|] == drafts;
    return true, ops;
  }

  lemma PublishTrace(cfg: Q.Config, t: Q.Traced, lsn: string)
    requires Q.TracedValid(cfg, t)
    ensures var next := Q.Step(cfg, t.d, Q.OpPublish(lsn, false, ""));
            && Q.TracedValid(cfg, Q.Traced(next, t.log + Q.Staged(t.d)))
            && next.state.durableLsn == lsn && Q.Staged(next) == []
               && (t.d.state.phase.Stream? ==> next.state.phase.Stream?)
  {
    Q.TraceStepValid(cfg, t, Q.OpPublish(lsn, false, ""));
    Q.PublishExposesStaged(cfg, t, Q.OpPublish(lsn, false, ""));
  }

  /** Publishing a whole transaction, or nothing, after disciplined operations. */
  lemma PublishIsDisciplined(cfg: Q.Config, d: Q.Durable, ops: seq<Q.Op>, t: Q.Traced, lsn: string, unit: seq<Message>)
    requires Q.TracedValid(cfg, t) && t.d == U.Ran(cfg, d, ops) && U.DisciplinedRun(cfg, d, ops)
             && t.d.state.phase.Stream?
    requires Payloads(Q.Staged(t.d)) == unit && (unit != [] ==> unit[|unit| - 1].kind.TransactionEnd?)
    ensures var all := ops + [Q.OpPublish(lsn, false, "")];
            U.DisciplinedRun(cfg, d, all) && U.Ran(cfg, d, all) == Q.Step(cfg, t.d, Q.OpPublish(lsn, false, ""))
  {
    hide U.DisciplinedRun, U.Ran, U.Disciplined;
    var staged, op := Q.Staged(t.d), Q.OpPublish(lsn, false, "");
    if staged != [] {
      assert unit[|unit| - 1] == Payload(staged[|staged| - 1]);
    }
    U.PublishDisciplined(t.d, op);
    U.RanNext(cfg, d, ops, op);
  }

  /** The loop over the capture instances. */
  method CheckRetention(minimums: seq<nat>, durable: nat) returns (ok: bool)
    ensures ok <==> forall i | 0 <= i < |minimums| :: 0 < minimums[i] <= durable + 1
  {
    for i := 0 to |minimums|
      invariant forall j | 0 <= j < i :: 0 < minimums[j] <= durable + 1
    {
      if minimums[i] == 0 || durable + 1 < minimums[i] {
        return false;
      }
    }
    return true;
  }

  /** The unit of a transaction read whole. */
  function UnitOf(lim: B.Limits, lsn: string, rows: seq<Row>, whole: bool): seq<Message> {
    B.Attempted(lim, lsn, rows, whole && rows != [])
  }

  predicate Complete(lim: B.Limits, lsn: string, rows: seq<Row>, whole: bool) {
    whole && rows != [] && B.Encode(lim, lsn, rows).Some?
  }

  lemma UnitEnds(lim: B.Limits, lsn: string, rows: seq<Row>)
    requires Complete(lim, lsn, rows, true)
    ensures var unit := UnitOf(lim, lsn, rows, true);
            B.Encode(lim, lsn, rows) == Some(unit) && unit != [] && unit[|unit| - 1].kind.TransactionEnd?
  {
    B.EncodeChunks(lim, lsn, rows);
  }

  lemma NothingStaged(d: Q.Durable)
    requires Q.Windowed(d)
    ensures Q.Staged(d) == [] <==> Payloads(Q.Staged(d)) == []
  {
  }

  /** Appends and publishes what was read, all of it or nothing. */
  method PublishRead(queue: QS.Store, rows: seq<Row>, whole: bool, commits: bool, lim: B.Limits, lsn: string,
                     turns: seq<D.Turn>,
                     ghost log: seq<Message>)
    returns (ok: bool, ghost next: seq<Message>, ghost ops: seq<Q.Op>)
    requires queue.Valid() && Q.TracedValid(queue.cfg, Q.Traced(queue.Contents(), log))
             && Q.Staged(queue.Contents()) == []
    requires queue.state.phase.Stream?
    modifies queue
    ensures queue.Valid() && Q.TracedValid(queue.cfg, Q.Traced(queue.Contents(), next))
    ensures queue.Contents() == U.Ran(queue.cfg, old(queue.Contents()), ops)
            && U.DisciplinedRun(queue.cfg, old(queue.Contents()), ops)
    ensures ok ==>
            && Complete(lim, lsn, rows, whole) && log <= next
            && B.Encode(lim, lsn, rows) == Some(Payloads(next[|log|..]))
                   && queue.state.durableLsn == lsn && Q.Staged(queue.Contents()) == []
    ensures !ok ==> && next == log && Payloads(Q.Staged(queue.Contents())) <= UnitOf(lim, lsn, rows, whole)
                    && queue.state.durableLsn == old(queue.state.durableLsn)
    ensures queue.state.phase.Stream?
  {
    hide Q.TracedValid, B.Attempted, B.Encode, Payload, U.DisciplinedRun, U.Ran, Bare, Q.Staged;
    next := log;
    var unit := UnitOf(lim, lsn, rows, whole);
    AttemptedBare(lim, lsn, rows, whole && rows != []);
    ok, ops := AppendAll(queue, unit, turns, log);
    if !ok || !whole || rows == [] || B.Encode(lim, lsn, rows).None? || !commits {
      return false, log, ops;
    }
    UnitEnds(lim, lsn, rows);
    ghost var t := Q.Traced(queue.Contents(), log);
    PublishTrace(queue.cfg, t, lsn);
    PublishIsDisciplined(queue.cfg, old(queue.Contents()), ops, t, lsn, unit);
    var error := queue.PublishSource(lsn, false, "");
    ops := ops + [Q.OpPublish(lsn, false, "")];
    next := log + Q.Staged(t.d);
    assert next[|log|..] == Q.Staged(t.d);
    return true, next, ops;
  }

  /** Moves the durable position over a range without captured changes. */
  method PublishIdle(queue: QS.Store, lsn: string, ghost log: seq<Message>) returns (ghost ops: seq<Q.Op>)
    requires queue.Valid() && Q.TracedValid(queue.cfg, Q.Traced(queue.Contents(), log))
             && Q.Staged(queue.Contents()) == []
    requires queue.state.phase.Stream?
    modifies queue
    ensures queue.Valid() && Q.TracedValid(queue.cfg, Q.Traced(queue.Contents(), log))
    ensures queue.state.durableLsn == lsn && Q.Staged(queue.Contents()) == [] && queue.state.phase.Stream?
    ensures queue.Contents() == U.Ran(queue.cfg, old(queue.Contents()), ops)
            && U.DisciplinedRun(queue.cfg, old(queue.Contents()), ops)
  {
    hide Q.TracedValid, Payload, U.DisciplinedRun, U.Ran, Q.Staged;
    ghost var t := Q.Traced(queue.Contents(), log);
    U.RanNothing(queue.cfg, t.d);
    PublishTrace(queue.cfg, t, lsn);
    PublishIsDisciplined(queue.cfg, t.d, [], t, lsn, []);
    var error := queue.PublishSource(lsn, false, "");
    ops := [] + [Q.OpPublish(lsn, false, "")];
    assert log + [] == log;
  }

  /** What a SQL Server collector converts and writes with. */
  datatype Poller = Poller(norm: Normalize, tables: seq<MsTable>, lim: B.Limits, show: nat -> string,
                           parse: string -> Option<nat>)

  /** A poll published the next transaction whole. */
  ghost predicate Progressed(p: Poller, window: Window, t: Q.Traced, next: Q.Traced, es: seq<Emitted>) {
    var durable := p.parse(t.d.state.durableLsn);
    && durable.Some? && window.next.Some? && Readable(window, durable.value)
    && Assembles(p.norm, p.tables, window.changes, es) && es != [] && t.log <= next.log
    && B.Encode(p.lim, p.show(window.next.value), Rows(p.norm, p.tables, es)) == Some(Payloads(next.log[|t.log|..]))
    && next.d.state.durableLsn == p.show(window.next.value) && Q.Staged(next.d) == []
  }

  /** It found nothing new, or moved the position over an empty range. */
  ghost predicate Idled(p: Poller, window: Window, t: Q.Traced, next: Q.Traced) {
    var durable := p.parse(t.d.state.durableLsn);
    && next.log == t.log && Q.Staged(next.d) == [] && durable.Some?
    && if durable.value == window.upper then next.d.state.durableLsn == t.d.state.durableLsn
       else Readable(window, durable.value) && window.next.None? && next.d.state.durableLsn == p.show(window.upper)
  }

  /** It left log and position as they were; a part of the transaction's chunks may be invisible. */
  ghost predicate BrokeOff(p: Poller, window: Window, t: Q.Traced, next: Q.Traced, es: seq<Emitted>) {
    && next.log == t.log && next.d.state.durableLsn == t.d.state.durableLsn && AllPaired(p.norm, p.tables, es)
    && (window.next.None? ==> Q.Staged(next.d) == [])
    && (window.next.Some? ==>
          Payloads(Q.Staged(next.d)) <= UnitOf(p.lim, p.show(window.next.value), Rows(p.norm, p.tables, es),
                                               window.steady && Assembles(p.norm, p.tables, window.changes, es)))
  }

  ghost predicate Polled(p: Poller, window: Window, t: Q.Traced, next: Q.Traced, outcome: Outcome, es: seq<Emitted>) {
    && next.d.state.phase.Stream?
    && match outcome
       case Progress => Progressed(p, window, t, next, es)
       case Nothing => Idled(p, window, t, next)
       case Failed => BrokeOff(p, window, t, next, es)
  }

  /** Publishes the next transaction, or moves the position over an empty range, or leaves the published log as it
      was; an orphaned, mismatched or ambiguous image is never published. A failed poll leaves a part of the
      transaction's chunks invisible, to be discarded by the next attempt. */
  method Poll(queue: QS.Store, p: Poller, window: Window, turns: seq<D.Turn>, ghost log: seq<Message>)
    returns (outcome: Outcome, ghost next: seq<Message>, ghost es: seq<Emitted>, ghost ops: seq<Q.Op>)
    requires queue.Valid() && Q.TracedValid(queue.cfg, Q.Traced(queue.Contents(), log))
             && Q.Staged(queue.Contents()) == []
    requires queue.state.phase.Stream?
    modifies queue
    ensures queue.Valid() && Q.TracedValid(queue.cfg, Q.Traced(queue.Contents(), next))
    ensures queue.Contents() == U.Ran(queue.cfg, old(queue.Contents()), ops)
            && U.DisciplinedRun(queue.cfg, old(queue.Contents()), ops)
    ensures Polled(p, window, Q.Traced(old(queue.Contents()), log), Q.Traced(queue.Contents(), next), outcome, es)
  {
    hide Q.TracedValid, UnitOf, B.Encode, Assembles, Payload, U.DisciplinedRun, U.Ran, WellPaired, StopsAt, Q.Staged;
    next, es, ops := log, [], [];
    U.RanNothing(queue.cfg, queue.Contents());
    NothingStaged(queue.Contents());
    var durable := p.parse(queue.state.durableLsn);
    if durable.None? || window.upper < durable.value {
      return Failed, log, es, ops;
    }
    if window.upper == durable.value {
      return Nothing, log, es, ops;
    }
    var retained := CheckRetention(window.minimums, durable.value);
    if !retained {
      return Failed, log, es, ops;
    }
    if window.next.None? {
      ops := PublishIdle(queue, p.show(window.upper), log);
      return Nothing, log, es, ops;
    }
    if window.next.value <= durable.value || window.next.value > window.upper {
      return Failed, log, es, ops;
    }
    var rows, whole;
    ghost var read;
    rows, whole, es, read := ReadChanges(p.norm, p.tables, window.changes);
    assert whole ==> Assembles(p.norm, p.tables, window.changes, es);
    var ok;
    ok, next, ops := PublishRead(queue, rows, whole && window.steady, window.commits, p.lim, p.show(window.next.value),
                                 turns, log);
    if ok {
      return Progress, next, es, ops;
    }
    return Failed, log, es, ops;
  }
}
