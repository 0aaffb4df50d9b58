/** Units of publication: a capture that publishes only whole units keeps the published log ending with a closed
    one. */
module Units {
  import opened Event
  import Q = Queue
  import opened Target
  import opened Replay

  /** Which kinds a capture appends before and after its snapshot is sealed. */
  predicate InPhase(phase: Phase, kind: Kind) {
    if phase.Stream? then !kind.SnapshotEnd? else !OpensBatch(kind)
  }

  /** A capture publishes only at the end of a unit, and seals exactly the snapshot. */
  predicate Disciplined(d: Q.Durable, op: Q.Op) {
    var st := d.state;
    && (op.OpAppend? ==> InPhase(st.phase, op.m.kind))
    && (op.OpPublish? ==> (op.seal <==> !st.phase.Stream?))
    && (Q.Publishes(op) && st.readySeq < st.nextSeq ==> st.nextSeq in d.items && Closing(d.items[st.nextSeq].kind))
  }

  /** The published log ends with a closed unit and begins with the snapshot. */
  ghost predicate Tidy(cfg: Q.Config, t: Q.Traced) {
    && (t.log != [] ==> t.d.state.phase.Stream? && Closing(Last(t.log).kind))
    && (forall k: nat | k in t.d.items && t.d.state.readySeq < k <= t.d.state.nextSeq ::
         InPhase(t.d.state.phase, t.d.items[k].kind))
    && SnapshotFirst(t.log)
  }

  /** The published log grows by the invisible messages, all of them in phase and the last one closing. */
  lemma PublishFacts(cfg: Q.Config, t: Q.Traced, op: Q.Op)
    requires Q.TracedValid(cfg, t) && Tidy(cfg, t) && Disciplined(t.d, op) && Q.Publishes(op)
    requires Q.Attempt(cfg, t.d, op).Success?
    ensures var next := Q.TraceStep(cfg, t, op);
            && Q.TracedValid(cfg, next) && next.d.state.readySeq == next.d.state.nextSeq && next.d.state.phase.Stream?
            && (next.log != [] ==> Closing(Last(next.log).kind)) && SnapshotFirst(next.log)
  {
    hide Q.TraceStep, Q.TracedValid, Q.Step, Q.Attempt, SnapshotFirst, InPhase, Disciplined, Tidy, Q.Slice;
    assert Q.Windowed(t.d) by { WindowedOf(cfg, t); }
    var staged := Q.Slice(t.d.items, t.d.state.readySeq, t.d.state.nextSeq);
    Q.PublishKeepsTrace(cfg, t, op);
    Q.PublishState(cfg, t.d, op);
    Q.TraceStepQueue(cfg, t, op);
    PublishPhase(cfg, t.d, op);
    StagedInPhase(cfg, t);
    LastCloses(cfg, t, op);
    SnapshotStaysFirst(t.log, staged, t.d.state.phase);
  }

  lemma WindowedOf(cfg: Q.Config, t: Q.Traced)
    requires Q.TracedValid(cfg, t)
    ensures Q.Windowed(t.d)
  {
    hide Q.Windowed;
  }

  lemma StagedInPhase(cfg: Q.Config, t: Q.Traced)
    requires Q.Windowed(t.d) && Tidy(cfg, t)
    ensures var staged := Q.Slice(t.d.items, t.d.state.readySeq, t.d.state.nextSeq);
            forall i | 0 <= i < |staged| :: InPhase(t.d.state.phase, staged[i].kind)
    ensures SnapshotFirst(t.log) && (t.log != [] ==> t.d.state.phase.Stream?)
  {
    hide InPhase, SnapshotFirst, Q.Stamped;
  }

  lemma LastCloses(cfg: Q.Config, t: Q.Traced, op: Q.Op)
    requires Q.Windowed(t.d) && Tidy(cfg, t) && Disciplined(t.d, op) && Q.Publishes(op)
    ensures var longer := t.log + Q.Slice(t.d.items, t.d.state.readySeq, t.d.state.nextSeq);
            longer != [] ==> Closing(Last(longer).kind)
  {
    hide InPhase, SnapshotFirst, Q.Stamped, Closing;
    var staged := Q.Slice(t.d.items, t.d.state.readySeq, t.d.state.nextSeq);
    if staged == [] {
      assert t.log + staged == t.log;
    } else {
      assert Last(t.log + staged) == staged[|staged| - 1] == t.d.items[t.d.state.nextSeq];
    }
  }

  lemma PublishPhase(cfg: Q.Config, d: Q.Durable, op: Q.Op)
    requires Disciplined(d, op) && Q.Publishes(op) && Q.Attempt(cfg, d, op).Success?
    ensures Q.Step(cfg, d, op).state.phase.Stream?
  {
  }

  lemma SnapshotStaysFirst(log: seq<Message>, staged: seq<Message>, phase: Phase)
    requires SnapshotFirst(log) && (forall i | 0 <= i < |staged| :: InPhase(phase, staged[i].kind))
             && (log != [] ==> phase.Stream?)
    ensures SnapshotFirst(log + staged)
  {
  }

  lemma PublishTidy(cfg: Q.Config, t: Q.Traced, op: Q.Op)
    requires Q.TracedValid(cfg, t) && Tidy(cfg, t) && Disciplined(t.d, op) && Q.Publishes(op)
    requires Q.Attempt(cfg, t.d, op).Success?
    ensures Q.TracedValid(cfg, Q.TraceStep(cfg, t, op)) && Tidy(cfg, Q.TraceStep(cfg, t, op))
  {
    hide Q.TracedValid, Q.TraceStep;
    PublishFacts(cfg, t, op);
  }

  /** Disciplined operations keep the log tidy; so do acknowledgements, recoveries and crashes. */
  lemma StepTidy(cfg: Q.Config, t: Q.Traced, op: Q.Op)
    requires Q.TracedValid(cfg, t) && Tidy(cfg, t) && Disciplined(t.d, op)
    ensures Q.TracedValid(cfg, Q.TraceStep(cfg, t, op)) && Tidy(cfg, Q.TraceStep(cfg, t, op))
  {
    hide Q.Accounted, Q.Stamped;
    Q.TraceStepValid(cfg, t, op);
    if Q.Publishes(op) && Q.Attempt(cfg, t.d, op).Success? {
      PublishTidy(cfg, t, op);
    } else if !Q.Publishes(op) && !Q.Restarts(cfg, t.d, op) {
      Q.StepKeepsReadable(cfg, t.d, op);
    }
  }

  /** Publishing nothing, or invisible messages the last of which closes a unit, is disciplined. */
  lemma PublishDisciplined(d: Q.Durable, op: Q.Op)
    requires Q.Windowed(d) && Q.Publishes(op) && (op.OpPublish? ==> (op.seal <==> !d.state.phase.Stream?))
    requires Q.Staged(d) != [] ==> Closing(Last(Q.Staged(d)).kind)
    ensures Disciplined(d, op)
  {
    if d.state.readySeq < d.state.nextSeq {
      assert Last(Q.Staged(d)) == d.items[d.state.nextSeq];
    }
  }

  // ---------------------------------------------------------------- sequences of operations

  function Ran(cfg: Q.Config, d: Q.Durable, ops: seq<Q.Op>): Q.Durable {
    if ops == [] then d else Q.Step(cfg, Ran(cfg, d, Front(ops)), Last(ops))
  }

  /** Every operation is disciplined where it is performed. */
  predicate DisciplinedRun(cfg: Q.Config, d: Q.Durable, ops: seq<Q.Op>) {
    ops != [] ==> DisciplinedRun(cfg, d, Front(ops)) && Disciplined(Ran(cfg, d, Front(ops)), Last(ops))
  }

  lemma RanNothing(cfg: Q.Config, d: Q.Durable)
    ensures Ran(cfg, d, []) == d && DisciplinedRun(cfg, d, [])
  {
  }

  lemma RanNext(cfg: Q.Config, d: Q.Durable, ops: seq<Q.Op>, op: Q.Op)
    ensures Ran(cfg, d, ops + [op]) == Q.Step(cfg, Ran(cfg, d, ops), op)
    ensures DisciplinedRun(cfg, d, ops + [op]) <==> DisciplinedRun(cfg, d, ops) && Disciplined(Ran(cfg, d, ops), op)
  {
    assert Front(ops + [op]) == ops;
  }

  lemma {:induction false} RanConcat(cfg: Q.Config, d: Q.Durable, a: seq<Q.Op>, b: seq<Q.Op>)
    ensures Ran(cfg, d, a + b) == Ran(cfg, Ran(cfg, d, a), b)
    ensures DisciplinedRun(cfg, d, a + b) <==> DisciplinedRun(cfg, d, a) && DisciplinedRun(cfg, Ran(cfg, d, a), b)
    decreases |b|
  {
    hide Disciplined, Q.Step;
    if b == [] {
      assert a + b == a;
    } else {
      assert Front(a + b) == a + Front(b);
      RanConcat(cfg, d, a, Front(b));
    }
  }

  /** Waiting to append a message of the right phase, while others acknowledge, is disciplined. */
  predicate Waits(m: Message, op: Q.Op) {
    op.OpAck? || (op.OpAppend? && op.m == m)
  }

  lemma {:induction false} WaitingDisciplined(cfg: Q.Config, d: Q.Durable, m: Message, ops: seq<Q.Op>)
    requires InPhase(d.state.phase, m.kind) && forall op | op in ops :: Waits(m, op)
    ensures DisciplinedRun(cfg, d, ops) && Ran(cfg, d, ops).state.phase == d.state.phase
    ensures Ran(cfg, d, ops).state.durableLsn == d.state.durableLsn
    decreases |ops|
  {
    if ops != [] {
      assert Last(ops) in ops && forall op | op in Front(ops) :: op in ops;
      WaitingDisciplined(cfg, d, m, Front(ops));
      PhaseKept(cfg, Ran(cfg, d, Front(ops)), Last(ops));
    }
  }

  lemma PhaseKept(cfg: Q.Config, d: Q.Durable, op: Q.Op)
    requires op.OpAck? || op.OpAppend?
    ensures Q.Step(cfg, d, op).state.phase == d.state.phase && Q.Step(cfg, d, op).state.durableLsn == d.state.durableLsn
  {
  }
}
