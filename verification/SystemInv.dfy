/** The invariant of the pipeline and its preservation by every step. */
module SystemInv {
  import opened Event
  import Q = Queue
  import opened Target
  import opened TargetRun
  import opened Replay
  import opened System

  // ---------------------------------------------------------------- invariant

  predicate Canonical(p: Params, generation: string, m: Message, n: nat) {
    m.seqNo == n && m.generation == generation && m.sourceId == p.source && m.id == MessageId(p.source, generation, n)
  }

  predicate PublishedLog(p: Params, generation: string, log: seq<Message>) {
    forall i | 0 <= i < |log| :: Canonical(p, generation, log[i], i + 1)
  }

  /** The queue holds a window of the published log of its generation. */
  ghost predicate CollectorOk(p: Params, c: Collector) {
    && Traceable(p, c)
    && "" !in c.history
    && (Generation(c) != "" ==> Generation(c) in c.history && c.queue.state.sourceId == p.source)
    && (forall g | g in c.history :: PublishedLog(p, g, c.history[g]))
  }

  /** The stored log is a prefix of what was published for its generation. */
  predicate PrefixOk(v: Server, history: map<string, seq<Message>>) {
    if v.store.generation == "" then v.log == []
    else v.store.generation in history && v.log <= history[v.store.generation]
  }

  /** The file store holds the effect of the stored log, possibly already with that of the next message. */
  predicate FilesOk(p: Params, v: Server, history: map<string, seq<Message>>) {
    || v.store.files == Effect(p.target, v.base, v.log).files
    || (&& v.store.generation in history && |v.log| < |history[v.store.generation]|
        && v.store.files == Effect(p.target, v.base, v.log + [history[v.store.generation][|v.log|]]).files)
  }

  ghost predicate ServerOk(p: Params, v: Server, history: map<string, seq<Message>>) {
    Core(p.target, v.store, v.base, v.log) && PrefixOk(v, history) && FilesOk(p, v, history)
  }

  /** How much of a generation the server has stored. */
  function Received(v: Server, generation: string): nat {
    if v.store.generation == generation then v.store.received else 0
  }

  predicate SessionOk(v: Server, history: map<string, seq<Message>>) {
    v.session.Some? ==>
      v.session.value.generation in history && v.session.value.next == Received(v, v.session.value.generation) + 1
  }

  predicate Stopping(c: Collector) {
    c.client.Some? && c.client.value.stopping != ""
  }

  /** At most one request or reply is outstanding; an acknowledgement only travels ahead of a request. */
  predicate ShapeOk(s: System) {
    && |s.toServer| <= 1 && |s.toCollector| <= 2
    && (s.toServer != [] ==> s.toCollector == [])
    && (Stopping(s.col) ==> s.toServer == [] && s.toCollector == [])
    && (|s.toCollector| == 2 ==> s.toCollector[0].Ack? && !s.toCollector[1].Ack?)
  }

  /** The server holds another generation than the one being offered to it. */
  predicate Foreign(v: Server, generation: string) {
    v.store.generation != "" && v.store.generation != generation
  }

  predicate UpFrameOk(s: System, frame: CollectorFrame) {
    match frame
    case Hello(g) =>
      s.srv.session.None? && g in s.col.history && (Foreign(s.srv, g) ==> Generation(s.col) != s.srv.store.generation)
    case Event(m) =>
      m.generation in s.col.history && 1 <= m.seqNo <= |s.col.history[m.generation]|
        && s.col.history[m.generation][m.seqNo - 1] == m
    case _ => true
  }

  predicate DownFrameOk(p: Params, v: Server, frame: ServerFrame) {
    && (frame.Ack? ==> frame.generation == v.store.generation != "" && 1 <= frame.seqNo <= v.store.received
                       && frame.id == MessageId(p.source, frame.generation, frame.seqNo))
    && (frame.Pull? ==> frame.generation != "" && frame.seqNo == Received(v, frame.generation) + 1)
  }

  predicate FramesOk(p: Params, s: System) {
    && (forall i | 0 <= i < |s.toServer| :: UpFrameOk(s, s.toServer[i]))
    && (forall i | 0 <= i < |s.toCollector| :: DownFrameOk(p, s.srv, s.toCollector[i]))
    && (s.srv.session.Some? && Foreign(s.srv, s.srv.session.value.generation) ==>
         Generation(s.col) != s.srv.store.generation)
  }

  /** Only stored messages are ever acknowledged. */
  predicate DeliveredOk(s: System) {
    s.col.queue.state.deliveredSeq <= Received(s.srv, Generation(s.col))
  }

  /** Every change of generation spends an authorization of its own. */
  predicate GrantsOk(v: Server) {
    v.switched + (if v.session.Some? && Foreign(v, v.session.value.generation) then 1 else 0)
      + (if v.store.repairAuthorized then 1 else 0) <= v.granted
  }

  ghost predicate Good(p: Params, s: System) {
    && CollectorOk(p, s.col)
    && ServerOk(p, s.srv, s.col.history)
    && SessionOk(s.srv, s.col.history)
    && ShapeOk(s) && FramesOk(p, s) && DeliveredOk(s) && GrantsOk(s.srv)
  }

  // ---------------------------------------------------------------- history only grows

  predicate Grows(a: map<string, seq<Message>>, b: map<string, seq<Message>>) {
    forall g | g in a :: g in b && a[g] <= b[g]
  }

  predicate Allowed(p: Params, c: Collector, op: Q.Op) {
    && (op.OpInitialize? ==> op.st.generation != "" && op.st.generation !in c.history && op.st.sourceId == p.source)
    && (op.OpInitialize? || op.OpReset? || op.OpRecover? || Generation(c) != "")
  }

  lemma StampedSlice(p: Params, c: Collector, hi: nat)
    requires Traceable(p, c) && c.queue.state.sourceId == p.source
             && c.queue.state.readySeq <= hi <= c.queue.state.nextSeq
    requires PublishedLog(p, Generation(c), Log(c))
    ensures PublishedLog(p, Generation(c), Log(c) + Q.Slice(c.queue.items, c.queue.state.readySeq, hi))
  {
    var st := c.queue.state;
    var log := Log(c) + Q.Slice(c.queue.items, st.readySeq, hi);
    forall i | 0 <= i < |log| ensures Canonical(p, Generation(c), log[i], i + 1) {
      if i >= |Log(c)| {
        assert log[i] == c.queue.items[i + 1];
        assert Q.Stamped(st, i + 1, c.queue.items[i + 1]);
      }
    }
  }

  lemma StepKeepsIdentity(cfg: Q.Config, d: Q.Durable, op: Q.Op)
    requires !Q.Restarts(cfg, d, op)
    ensures var next := Q.Step(cfg, d, op).state;
            next.generation == d.state.generation && next.sourceId == d.state.sourceId
  {
  }

  lemma RestartState(cfg: Q.Config, d: Q.Durable, op: Q.Op)
    requires Q.Restarts(cfg, d, op)
    ensures var next := Q.Step(cfg, d, op).state;
            && next.generation == (if op.OpInitialize? then op.st.generation else "")
            && (op.OpInitialize? ==> next.sourceId == op.st.sourceId)
            && next.deliveredSeq == 0 && next.readySeq == 0
  {
  }

  lemma QueueStepCollector(p: Params, c: Collector, op: Q.Op)
    requires CollectorOk(p, c) && Allowed(p, c, op)
    ensures CollectorOk(p, QueueStep(p, c, op))
    ensures Grows(c.history, QueueStep(p, c, op).history)
  {
    var t := Q.Traced(c.queue, Log(c));
    var next := Q.TraceStep(p.queue, t, op);
    Q.TraceStepValid(p.queue, t, op);
    if Q.Restarts(p.queue, c.queue, op) {
      RestartState(p.queue, c.queue, op);
    } else {
      StepKeepsIdentity(p.queue, c.queue, op);
      TraceKeepsCanonical(p, c, op);
    }
  }

  lemma TraceKeepsCanonical(p: Params, c: Collector, op: Q.Op)
    requires CollectorOk(p, c) && Allowed(p, c, op) && !Q.Restarts(p.queue, c.queue, op)
    ensures PublishedLog(p, Generation(c), Q.TraceStep(p.queue, Q.Traced(c.queue, Log(c)), op).log)
  {
    var t := Q.Traced(c.queue, Log(c));
    var next := Q.Step(p.queue, c.queue, op);
    if c.queue.state.readySeq < next.state.readySeq <= c.queue.state.nextSeq {
      StampedSlice(p, c, next.state.readySeq);
    }
  }

  lemma ServerOkGrows(p: Params, v: Server, a: map<string, seq<Message>>, b: map<string, seq<Message>>)
    requires ServerOk(p, v, a) && Grows(a, b)
    ensures ServerOk(p, v, b)
  {
  }

  lemma UpFrameGrows(s: System, t: System, frame: CollectorFrame)
    requires UpFrameOk(s, frame) && Grows(s.col.history, t.col.history) && t.srv == s.srv
    requires frame.Hello? && Foreign(s.srv, frame.generation) ==> Generation(t.col) != t.srv.store.generation
    ensures UpFrameOk(t, frame)
  {
  }

  // ---------------------------------------------------------------- steps that move no data

  /** Only the controller, the client, the session mode or harmless frames changed. */
  predicate Harmless(s: System, t: System) {
    && t.col.queue == s.col.queue && t.col.history == s.col.history
    && t.srv == s.srv.(session := t.srv.session)
    && (t.srv.session.Some? ==> s.srv.session.Some? && t.srv.session.value.generation == s.srv.session.value.generation
                                && t.srv.session.value.next == s.srv.session.value.next)
    && (forall f | f in t.toServer :: f in s.toServer || !(f.Hello? || f.Event?))
    && (forall f | f in t.toCollector :: f in s.toCollector || f == Repull(s) || !(f.Ack? || f.Pull?))
  }

  /** The request a session repeats while it has nothing new. */
  function Repull(s: System): ServerFrame {
    if s.srv.session.Some? then Pull(s.srv.session.value.generation, s.srv.session.value.next) else Reconcile("")
  }

  lemma HarmlessFrames(p: Params, s: System, t: System)
    requires FramesOk(p, s) && Harmless(s, t) && SessionOk(s.srv, s.col.history) && "" !in s.col.history
    ensures FramesOk(p, t)
  {
    forall i | 0 <= i < |t.toServer| ensures UpFrameOk(t, t.toServer[i]) {
      if t.toServer[i] in s.toServer {
        var j :| 0 <= j < |s.toServer| && s.toServer[j] == t.toServer[i];
        assert UpFrameOk(s, s.toServer[j]);
      }
    }
    forall i | 0 <= i < |t.toCollector| ensures DownFrameOk(p, t.srv, t.toCollector[i]) {
      if t.toCollector[i] in s.toCollector {
        var j :| 0 <= j < |s.toCollector| && s.toCollector[j] == t.toCollector[i];
        assert DownFrameOk(p, s.srv, s.toCollector[j]);
      }
    }
  }

  lemma ControlStep(p: Params, s: System, t: System)
    requires Good(p, s) && ShapeOk(t) && Harmless(s, t)
    ensures Good(p, t)
  {
    hide Traceable, PublishedLog, FramesOk, ShapeOk, ServerOk;
    HarmlessFrames(p, s, t);
    CollectorFields(p, s.col, t.col);
    ServerFields(p, s.srv, t.srv, t.col.history);
  }

  predicate Control(step: Step) {
    || step.DoCaptureExit? || step.DoCollectorCrash? || step.DoClientBreak? || step.DoCollectorReconcile?
    || step.DoFinishStop? || step.DoStopTimeout? || step.DoCollectorResume? || step.DoServerBreak?
    || step.DoServerIdle? || step.DoServerUnavailable? || step.DoServerReply?
    || (step.DoServerResult? && !step.decision.Grant?)
  }

  lemma ControlShape(p: Params, s: System, step: Step)
    requires ShapeOk(s) && Control(step)
    ensures ShapeOk(Do(p, s, step))
  {
    hide Traceable, Store, QueueStep;
  }

  lemma ReconcileHarmless(s: System)
    ensures Harmless(s, CollectorReconcile(s))
  {
    hide ResumeCapture;
  }

  lemma FinishHarmless(s: System)
    ensures Harmless(s, FinishStop(s))
  {
    hide ResumeCapture;
  }

  lemma BreakHarmless(s: System)
    ensures Harmless(s, ClientBreak(s))
  {
    hide ResumeCapture;
  }

  lemma ClientHarmless(p: Params, s: System, step: Step)
    requires step.DoCaptureExit? || step.DoCollectorCrash? || step.DoStopTimeout? || step.DoCollectorResume?
    ensures Harmless(s, Do(p, s, step))
  {
    hide ResumeCapture;
    if step.DoCollectorResume? {
      BreakHarmless(s);
    }
  }

  lemma CollectorHarmless(p: Params, s: System, step: Step)
    requires Control(step)
    requires step.DoCaptureExit? || step.DoCollectorCrash? || step.DoClientBreak? || step.DoCollectorReconcile?
             || step.DoFinishStop? || step.DoStopTimeout? || step.DoCollectorResume?
    ensures Harmless(s, Do(p, s, step))
  {
    hide Harmless;
    match step
    case DoCollectorReconcile => ReconcileHarmless(s);
    case DoFinishStop => FinishHarmless(s);
    case DoClientBreak => BreakHarmless(s);
    case _ => ClientHarmless(p, s, step);
  }

  lemma ServerHarmless(p: Params, s: System, step: Step)
    requires Control(step)
    requires step.DoServerBreak? || step.DoServerIdle? || step.DoServerUnavailable? || step.DoServerReply?
             || step.DoServerResult?
    ensures Harmless(s, Do(p, s, step))
  {
    hide Traceable, Store, QueueStep;
  }

  lemma ControlGood(p: Params, s: System, step: Step)
    requires Good(p, s) && Control(step)
    ensures Good(p, Do(p, s, step))
  {
    hide Traceable, Core, Effect, Store, Accept, QueueStep, PublishedLog, PrefixOk, FilesOk, UpFrameOk, DownFrameOk;
    ControlShape(p, s, step);
    hide Good, ShapeOk, Harmless, Do;
    if step.DoServerBreak? || step.DoServerIdle? || step.DoServerUnavailable? || step.DoServerReply?
      || step.DoServerResult? {
      ServerHarmless(p, s, step);
    } else {
      CollectorHarmless(p, s, step);
    }
    ControlStep(p, s, Do(p, s, step));
  }

  // ---------------------------------------------------------------- steps that move the queue

  lemma QueueFrames(p: Params, s: System, t: System)
    requires FramesOk(p, s) && Grows(s.col.history, t.col.history) && t.srv == s.srv
    requires Generation(t.col) == Generation(s.col) || Generation(t.col) !in s.col.history
    requires s.srv.store.generation != "" ==> s.srv.store.generation in s.col.history
    requires forall i | 0 <= i < |t.toServer| ::
               t.toServer[i] in s.toServer || !(t.toServer[i].Hello? || t.toServer[i].Event?)
    requires forall i | 0 <= i < |t.toCollector| :: t.toCollector[i] in s.toCollector
    ensures FramesOk(p, t)
  {
    forall i | 0 <= i < |t.toServer| ensures UpFrameOk(t, t.toServer[i]) {
      if t.toServer[i] in s.toServer {
        var j :| 0 <= j < |s.toServer| && s.toServer[j] == t.toServer[i];
        assert UpFrameOk(s, s.toServer[j]);
        UpFrameGrows(s, t, s.toServer[j]);
      }
    }
    forall i | 0 <= i < |t.toCollector| ensures DownFrameOk(p, t.srv, t.toCollector[i]) {
      var j :| 0 <= j < |s.toCollector| && s.toCollector[j] == t.toCollector[i];
      assert DownFrameOk(p, s.srv, s.toCollector[j]);
    }
  }

  lemma QueueGood(p: Params, s: System, t: System, op: Q.Op)
    requires Good(p, s) && Allowed(p, s.col, op) && !op.OpAck?
    requires t.col == QueueStep(p, s.col, op).(ctl := t.col.ctl, client := t.col.client) && t.srv == s.srv && ShapeOk(t)
    requires forall i | 0 <= i < |t.toServer| ::
               t.toServer[i] in s.toServer || !(t.toServer[i].Hello? || t.toServer[i].Event?)
    requires forall i | 0 <= i < |t.toCollector| :: t.toCollector[i] in s.toCollector
    ensures Good(p, t)
  {
    hide Core, PublishedLog, FilesOk, FramesOk, ShapeOk, QueueStep;
    QueueStepCollector(p, s.col, op);
    ServerOkGrows(p, s.srv, s.col.history, t.col.history);
    QueueStepBounds(p, s.col, op);
    QueueFrames(p, s, t);
    CollectorFields(p, QueueStep(p, s.col, op), t.col);
  }

  lemma CollectorFields(p: Params, c: Collector, d: Collector)
    requires CollectorOk(p, c) && d.queue == c.queue && d.history == c.history
    ensures CollectorOk(p, d)
  {
    hide Q.TracedValid, PublishedLog;
  }

  /** Without an acknowledgement the delivered mark stays, or the queue restarts under a new generation. */
  lemma QueueStepBounds(p: Params, c: Collector, op: Q.Op)
    requires CollectorOk(p, c) && Allowed(p, c, op) && !op.OpAck?
    ensures var d := QueueStep(p, c, op);
            || (Generation(d) == Generation(c) && d.queue.state.deliveredSeq == c.queue.state.deliveredSeq)
            || (Generation(d) !in c.history && d.queue.state.deliveredSeq == 0)
  {
    if Q.Restarts(p.queue, c.queue, op) {
      RestartState(p.queue, c.queue, op);
    }
  }

  lemma CaptureGood(p: Params, s: System, op: Q.Op)
    requires Good(p, s)
    ensures Good(p, Capture(p, s, op))
  {
    hide Traceable, Core, Store, PublishedLog, PrefixOk, FilesOk, UpFrameOk, DownFrameOk;
    if CaptureMay(p, s.col, op) && Traceable(p, s.col) {
      var c := QueueStep(p, s.col, op);
      assert c == c.(ctl := s.col.ctl, client := s.col.client);
      QueueGood(p, s, Capture(p, s, op), op);
    }
  }

  lemma BreakGood(p: Params, s: System)
    requires Good(p, s)
    ensures Good(p, ClientBreak(s)) && Good(p, ServerBreak(s))
  {
    hide Good, ClientBreak, ServerBreak;
    ControlGood(p, s, DoClientBreak);
    ControlGood(p, s, DoServerBreak);
  }

  lemma GoodParts(p: Params, s: System)
    requires Good(p, s)
    ensures ShapeOk(s) && FramesOk(p, s) && SessionOk(s.srv, s.col.history) && Traceable(p, s.col)
    ensures ServerOk(p, s.srv, s.col.history) && CollectorOk(p, s.col)
  {
    hide Traceable, Core, PublishedLog, FilesOk, PrefixOk, FramesOk, ShapeOk;
  }

  lemma RepairShape(p: Params, s: System)
    requires ShapeOk(s) && Receives(s) && s.toCollector[0].Repair? && Traceable(p, s.col)
    requires s.col.ctl.pausedFor == s.toCollector[0].request && !s.col.ctl.cancel
             && Q.ResetForSnapshot(s.col.queue).Success?
    ensures var t := CollectorRepair(p, s);
            && ShapeOk(t) && t.toCollector == [] && t.srv == s.srv
            && t.col == QueueStep(p, s.col, Q.OpReset).(ctl := t.col.ctl, client := t.col.client)
            && (forall i | 0 <= i < |t.toServer| :: t.toServer[i].RepairAccepted?)
  {
    hide Traceable, QueueStep, Q.ResetForSnapshot;
  }

  lemma RepairGood(p: Params, s: System)
    requires Good(p, s)
    ensures Good(p, CollectorRepair(p, s))
  {
    hide Good, Traceable, FramesOk, Q.ResetForSnapshot, ShapeOk, QueueStep, ClientBreak, CollectorOk, ServerOk;
    GoodParts(p, s);
    if Receives(s) && s.toCollector[0].Repair? {
      var c := s.col.ctl;
      if c.pausedFor != s.toCollector[0].request || c.cancel || Q.ResetForSnapshot(s.col.queue).Failure? {
        BreakGood(p, s);
      } else {
        RepairShape(p, s);
        QueueGood(p, s, CollectorRepair(p, s), Q.OpReset);
      }
    }
  }

  lemma DroppedFrame(s: System)
    requires ShapeOk(s) && s.toCollector != []
    ensures var t := s.(toCollector := s.toCollector[1..]); ShapeOk(t) && Harmless(s, t)
  {
  }

  lemma AckGood(p: Params, s: System, now: int)
    requires Good(p, s)
    ensures Good(p, CollectorAck(p, s, now))
  {
    hide Good, Traceable, FramesOk, QueueStep, Q.Attempt, Harmless, ShapeOk, ClientBreak, CollectorOk, ServerOk;
    GoodParts(p, s);
    if Receives(s) && s.toCollector[0].Ack? {
      var ack, st := s.toCollector[0], s.col.queue.state;
      var op := Q.OpAck(ack.seqNo, ack.id, now);
      if ack.generation != st.generation || ack.seqNo > st.deliveredSeq + 1 {
        BreakGood(p, s);
      } else if ack.seqNo <= st.deliveredSeq {
        DroppedFrame(s);
        ControlStep(p, s, CollectorAck(p, s, now));
      } else if Q.Attempt(p.queue, s.col.queue, op).Failure? {
        BreakGood(p, s);
      } else {
        AckAcceptedGood(p, s, now);
      }
    }
  }

  lemma AckState(cfg: Q.Config, d: Q.Durable, op: Q.Op)
    requires op.OpAck? && Q.Attempt(cfg, d, op).Success?
    ensures var next := Q.Step(cfg, d, op).state;
            && next.generation == d.state.generation && next.sourceId == d.state.sourceId
            && next.deliveredSeq == op.seqNo == d.state.deliveredSeq + 1 && next.readySeq == d.state.readySeq
  {
  }

  /** An acknowledgement the collector acts on is for the next undelivered message, which the server has. */
  lemma AckAcceptedGood(p: Params, s: System, now: int)
    requires Good(p, s) && Receives(s) && s.toCollector[0].Ack?
    requires var ack, st := s.toCollector[0], s.col.queue.state;
             && ack.generation == st.generation && ack.seqNo == st.deliveredSeq + 1
             && Q.Attempt(p.queue, s.col.queue, Q.OpAck(ack.seqNo, ack.id, now)).Success?
    ensures Good(p, CollectorAck(p, s, now))
  {
    hide Traceable, Core, Store, PublishedLog, FilesOk;
    var ack, t := s.toCollector[0], CollectorAck(p, s, now);
    var op := Q.OpAck(ack.seqNo, ack.id, now);
    assert DownFrameOk(p, s.srv, ack);
    AckState(p.queue, s.col.queue, op);
    QueueStepCollector(p, s.col, op);
    ServerOkGrows(p, s.srv, s.col.history, t.col.history);
    forall i | 0 <= i < |t.toCollector| ensures DownFrameOk(p, t.srv, t.toCollector[i]) {
      assert t.toCollector[i] == s.toCollector[i + 1];
    }
  }

  // ---------------------------------------------------------------- steps that move messages

  lemma PullShape(s: System)
    requires ShapeOk(s) && Receives(s) && s.toCollector[0].Pull?
    ensures |s.toCollector| == 1 && !Stopping(s.col) && s.toServer == []
  {
  }

  /** A request that is answered without data. */
  lemma QuietPull(s: System)
    requires ShapeOk(s) && Receives(s) && s.toCollector[0].Pull?
    requires s.toCollector[0].generation == "" || s.toCollector[0].generation == Generation(s.col)
    requires s.toCollector[0].seqNo < Q.Earliest(s.col.queue.state)
             || s.toCollector[0].seqNo > s.col.queue.state.readySeq
    ensures ShapeOk(CollectorPull(s)) && Harmless(s, CollectorPull(s))
  {
    hide Q.Earliest, Q.Get;
  }

  lemma PullGood(p: Params, s: System)
    requires Good(p, s)
    ensures Good(p, CollectorPull(s))
  {
    hide Good, Traceable, FramesOk, Q.Get, Q.Earliest, Harmless, ShapeOk, ClientBreak, CollectorOk, ServerOk;
    GoodParts(p, s);
    if Receives(s) && s.toCollector[0].Pull? {
      var pull, t := s.toCollector[0], CollectorPull(s);
      if pull.generation != "" && pull.generation != Generation(s.col) {
        BreakGood(p, s);
      } else if pull.seqNo < Q.Earliest(s.col.queue.state) || pull.seqNo > s.col.queue.state.readySeq {
        QuietPull(s);
        ControlStep(p, s, t);
      } else if Q.Get(s.col.queue, pull.seqNo).Failure? {
        BreakGood(p, s);
      } else {
        PullShape(s);
        EventGood(p, s, t, pull.seqNo);
      }
    }
  }

  /** A message read from the queue is the published one. */
  lemma EventGood(p: Params, s: System, t: System, n: nat)
    requires Good(p, s) && |s.toCollector| == 1 && !Stopping(s.col) && Q.Get(s.col.queue, n).Success?
    requires t == s.(toCollector := s.toCollector[1..], toServer := s.toServer + [Event(Q.Get(s.col.queue, n).value)])
    ensures Good(p, t)
  {
    hide Core, Store, PublishedLog, PrefixOk, FilesOk, DownFrameOk;
    Q.GetReadsPublished(p.queue, Q.Traced(s.col.queue, Log(s.col)), n);
    assert Canonical(p, Generation(s.col), Log(s.col)[n - 1], n);
    assert UpFrameOk(t, t.toServer[0]);
  }

  lemma ConnectGood(p: Params, s: System)
    requires Good(p, s)
    ensures Good(p, Connect(s))
  {
    hide Core, Store, PublishedLog, PrefixOk, FilesOk, DownFrameOk;
  }

  lemma HelloGood(p: Params, s: System)
    requires Good(p, s)
    ensures Good(p, ServerHello(s))
  {
    hide Traceable, Core, Effect, Store, PrefixOk, UpFrameOk, DownFrameOk;
    if s.srv.session.None? && s.toServer != [] && s.toServer[0].Hello? {
      assert UpFrameOk(s, s.toServer[0]);
      var store, g := s.srv.store, s.toServer[0].generation;
      if store.generation == "" || store.generation == g {
        OpenGood(p, s, store);
      } else if store.repairAuthorized {
        OpenGood(p, s, store.(repairAuthorized := false));
      } else {
        BreakGood(p, s);
      }
    }
  }

  lemma CoreIgnoresAuthorization(cfg: Config, db: Database, base: Replica, log: seq<Message>, authorized: bool)
    requires Core(cfg, db, base, log)
    ensures Core(cfg, db.(repairAuthorized := authorized), base, log)
  {
  }

  lemma ServerFields(p: Params, v: Server, u: Server, history: map<string, seq<Message>>)
    requires ServerOk(p, v, history) && u.store == v.store && u.base == v.base && u.log == v.log
    ensures ServerOk(p, u, history)
  {
    hide Core, Effect;
  }

  lemma OpenGood(p: Params, s: System, store: Database)
    requires Good(p, s) && s.srv.session.None? && s.toServer != [] && s.toServer[0].Hello?
    requires store == s.srv.store.(repairAuthorized := store.repairAuthorized)
    requires Foreign(s.srv, s.toServer[0].generation) ==> s.srv.store.repairAuthorized && !store.repairAuthorized
    requires !Foreign(s.srv, s.toServer[0].generation) ==> store == s.srv.store
    ensures var g := s.toServer[0].generation;
            Good(p, Open(s, store, g, if Foreign(s.srv, g) then 1 else s.srv.store.received + 1))
  {
    hide Traceable, PublishedLog, ServerOk;
    var g := s.toServer[0].generation;
    assert UpFrameOk(s, s.toServer[0]);
    AuthorizeServer(p, s.srv, s.col.history, store.repairAuthorized);
    if s.srv.store.generation == "" {
      EmptyStore(p, s.srv, s.col.history);
    }
    var t := Open(s, store, g, if Foreign(s.srv, g) then 1 else s.srv.store.received + 1);
    ServerFields(p, s.srv.(store := store), t.srv, s.col.history);
  }

  predicate ResultArrives(s: System) {
    s.srv.session.Some? && s.srv.session.value.mode.Comparing? && s.toServer != [] && s.toServer[0].ReconcileResult?
  }

  lemma AuthorizeServer(p: Params, v: Server, history: map<string, seq<Message>>, authorized: bool)
    requires ServerOk(p, v, history)
    ensures ServerOk(p, v.(store := v.store.(repairAuthorized := authorized)), history)
  {
    CoreIgnoresAuthorization(p.target, v.store, v.base, v.log, authorized);
  }

  lemma GrantGood(p: Params, s: System)
    requires Good(p, s)
    ensures Good(p, ServerResult(s, Grant))
  {
    hide Good, Traceable, FramesOk, CollectorOk, ServerOk;
    GoodParts(p, s);
    if ResultArrives(s) {
      var frame, session := s.toServer[0], s.srv.session.value;
      if frame.request != session.mode.request || !frame.ok {
        BreakGood(p, s);
      } else {
        var t := ServerResult(s, Grant);
        AuthorizeServer(p, s.srv, s.col.history, true);
        GrantedGood(p, s, t);
      }
    }
  }

  lemma GrantedGood(p: Params, s: System, t: System)
    requires Good(p, s) && s.srv.session.Some? && t.col == s.col && !Stopping(s.col)
    requires t.srv.store == s.srv.store.(repairAuthorized := true) && t.srv.base == s.srv.base && t.srv.log == s.srv.log
    requires ServerOk(p, s.srv.(store := t.srv.store), s.col.history)
    requires t.srv.granted == s.srv.granted + 1 && t.srv.switched == s.srv.switched
    requires t.srv.session.Some? && t.srv.session.value.generation == s.srv.session.value.generation
    requires t.srv.session.value.next == s.srv.session.value.next
    requires t.toServer == [] && |t.toCollector| == 1 && t.toCollector[0].Repair?
    ensures Good(p, t)
  {
    hide Core, Effect, Traceable;
  }

  // ---------------------------------------------------------------- storing an event

  lemma StoreIsAccept(cfg: Config, db: Database, m: Message)
    requires m.generation == db.generation && m.seqNo == db.received + 1 && Store(cfg, db, m).Success?
    ensures Store(cfg, db, m) == Accept(cfg, db, m)
    ensures var next := Store(cfg, db, m).value;
            next.generation == db.generation && next.received == m.seqNo && next.repairAuthorized == db.repairAuthorized
  {
  }

  predicate IsNext(v: Server, history: map<string, seq<Message>>, m: Message) {
    && m.generation == v.store.generation && m.generation in history && m.generation != ""
    && m.seqNo == v.store.received + 1 <= |history[m.generation]| && history[m.generation][m.seqNo - 1] == m
  }

  /** The next message of the stored generation: committed, it extends the stored log; aborted, at most its
      file effect remains. */
  lemma StoreNextFiles(p: Params, v: Server, history: map<string, seq<Message>>, m: Message)
    requires ServerOk(p, v, history) && IsNext(v, history, m) && Accept(p.target, v.store, m).Success?
    ensures Accept(p.target, v.store, m).value.files == Effect(p.target, v.base, v.log + [m]).files
    ensures v.log + [m] <= history[m.generation] && history[m.generation][|v.log|] == m
  {
    assert |v.log| == v.store.received;
    AcceptFiles(p.target, v.store, v.base, v.log, m);
  }

  lemma StoreNextCommit(p: Params, v: Server, history: map<string, seq<Message>>, m: Message)
    requires ServerOk(p, v, history) && IsNext(v, history, m) && Store(p.target, v.store, m).Success?
    ensures ServerOk(p, v.(store := Store(p.target, v.store, m).value, log := v.log + [m]), history)
  {
    hide Traceable, Core, Effect, Store, Accept, QueueStep, PublishedLog, UpFrameOk, DownFrameOk;
    StoreIsAccept(p.target, v.store, m);
    StoreNextFiles(p, v, history, m);
    AcceptExtendsCore(p.target, v.store, v.base, v.log, m);
    hide Store, Accept, Core, Effect;
  }

  lemma StoreNextAbort(p: Params, v: Server, history: map<string, seq<Message>>, m: Message)
    requires ServerOk(p, v, history) && IsNext(v, history, m) && Store(p.target, v.store, m).Success?
    ensures ServerOk(p, v.(store := v.store.(files := Store(p.target, v.store, m).value.files)), history)
  {
    hide Traceable, Core, Effect, Store, Accept, QueueStep, PublishedLog, UpFrameOk, DownFrameOk;
    StoreIsAccept(p.target, v.store, m);
    StoreNextFiles(p, v, history, m);
    CoreIgnoresFiles(p.target, v.store, v.base, v.log, Store(p.target, v.store, m).value.files);
    hide Store, Accept, Core, Effect;
  }

  lemma CoreIgnoresFiles(cfg: Config, db: Database, base: Replica, log: seq<Message>, files: map<string, FileObject>)
    requires Core(cfg, db, base, log)
    ensures Core(cfg, db.(files := files), base, log)
  {
  }

  /** The first message of another generation. */
  lemma StoreFirst(p: Params, v: Server, history: map<string, seq<Message>>, m: Message)
    requires ServerOk(p, v, history) && m.generation != v.store.generation && m.generation in history
             && m.generation != ""
    requires m.seqNo == 1 <= |history[m.generation]| && history[m.generation][0] == m
    requires Store(p.target, v.store, m).Success?
    ensures var next := Store(p.target, v.store, m).value;
            && Offer(p.target, Served(v.store, v.base, v.log), m) == Served(next,
                                                                            Replica(v.store.tables, v.store.files), [m])
            && ServerOk(p, v.(store := next, base := Replica(v.store.tables, v.store.files), log := [m]), history)
            && next.files == v.store.files
            && next.generation == m.generation && next.received == 1
            && next.repairAuthorized == v.store.repairAuthorized
  {
    hide Core, Effect;
    var clean, base := Restart(v.store, m), Replica(v.store.tables, v.store.files);
    RestartRepresents(p.target, v.store, m);
    AcceptExtendsLog(p.target, clean, base, [], m);
    assert [] + [m] == [m];
    AcceptWrites(p.target, clean, [], m);
  }

  lemma StoreGood(p: Params, s: System, commits: bool)
    requires Good(p, s)
    ensures Good(p, ServerEvent(p, s, commits))
  {
    if Serves(s) && s.toServer[0].Event? {
      var session, m, v := s.srv.session.value, s.toServer[0].message, s.srv;
      assert UpFrameOk(s, s.toServer[0]);
      if !EnvelopeMatches(p, session, m) || Store(p.target, v.store, m).Failure? {
        BreakGood(p, s);
      } else if m.generation == v.store.generation {
        StoreNextGood(p, s, m, commits);
      } else {
        StoreFirstGood(p, s, m, commits);
      }
    }
  }

  lemma StoreNextGood(p: Params, s: System, m: Message, commits: bool)
    requires Good(p, s) && Serves(s) && s.toServer[0] == Event(m) && EnvelopeMatches(p, s.srv.session.value, m)
    requires Store(p.target, s.srv.store, m).Success? && m.generation == s.srv.store.generation
    ensures Good(p, ServerEvent(p, s, commits))
  {
    hide Traceable, Core, Store, Accept, QueueStep;
    assert UpFrameOk(s, s.toServer[0]);
    StoreIsAccept(p.target, s.srv.store, m);
    if commits {
      StoreNextCommit(p, s.srv, s.col.history, m);
      hide Store, Core, Effect, Traceable;
      CommitGood(p, s, ServerEvent(p, s, true), m);
    } else {
      StoreNextAbort(p, s.srv, s.col.history, m);
      hide Store, Core, Effect, Traceable;
      AbortGood(p, s, ServerEvent(p, s, false));
    }
  }

  lemma StoreFirstGood(p: Params, s: System, m: Message, commits: bool)
    requires Good(p, s) && Serves(s) && s.toServer[0] == Event(m) && EnvelopeMatches(p, s.srv.session.value, m)
    requires Store(p.target, s.srv.store, m).Success? && m.generation != s.srv.store.generation
    ensures Good(p, ServerEvent(p, s, commits))
  {
    hide Traceable, Core, Effect, Store, Accept, QueueStep, PublishedLog, DownFrameOk;
    assert UpFrameOk(s, s.toServer[0]);
    StoreFirst(p, s.srv, s.col.history, m);
    hide Store, Core, Effect, Traceable;
    if commits {
      CommitGood(p, s, ServerEvent(p, s, true), m);
    } else {
      assert s.srv.store.(files := s.srv.store.files) == s.srv.store;
      AbortGood(p, s, ServerEvent(p, s, false));
    }
  }

  /** A committed and acknowledged event. */
  lemma CommitGood(p: Params, s: System, t: System, m: Message)
    requires Good(p, s) && Serves(s) && s.toServer[0] == Event(m) && EnvelopeMatches(p, s.srv.session.value, m)
    requires t.col == s.col && ServerOk(p, t.srv, s.col.history)
    requires t.srv.store.generation == m.generation && t.srv.store.received == m.seqNo
    requires t.srv.store.repairAuthorized == s.srv.store.repairAuthorized && t.srv.granted == s.srv.granted
    requires t.srv.switched == s.srv.switched + if Switches(s.srv.store, m) then 1 else 0
    requires t.srv.session.Some? && t.srv.session.value.generation == m.generation
             && t.srv.session.value.next == m.seqNo + 1
    requires t.toServer == s.toServer[1..]
    requires t.toCollector == s.toCollector + [Ack(m.generation, m.seqNo, m.id), Pull(m.generation, m.seqNo + 1)]
    ensures Good(p, t)
  {
    hide Traceable, Core, Effect, Store, Accept, QueueStep, PublishedLog, PrefixOk, FilesOk, UpFrameOk;
    assert UpFrameOk(s, s.toServer[0]);
    if s.srv.store.generation == "" {
      EmptyStore(p, s.srv, s.col.history);
    }
    hide ServerOk, CollectorOk;
    assert "" !in s.col.history by { HistoryNamed(p, s.col); }
    assert t.toCollector == [Ack(m.generation, m.seqNo, m.id), Pull(m.generation, m.seqNo + 1)];
  }

  lemma HistoryNamed(p: Params, c: Collector)
    requires CollectorOk(p, c)
    ensures "" !in c.history
  {
  }

  /** A transaction that failed to commit: the session ends and only files may have changed. */
  lemma AbortGood(p: Params, s: System, t: System)
    requires Good(p, s)
    requires t.col == s.col && t.toServer == [] && t.toCollector == s.toCollector
    requires t.srv == s.srv.(session := None, store := s.srv.store.(files := t.srv.store.files))
    requires ServerOk(p, s.srv.(store := t.srv.store), s.col.history)
    ensures Good(p, t)
  {
    hide Traceable, Core, Effect, Store, PublishedLog, UpFrameOk;
    assert forall f | f in t.toCollector :: DownFrameOk(p, s.srv, f) by {
      forall f | f in t.toCollector ensures DownFrameOk(p, s.srv, f) {
        var j :| 0 <= j < |s.toCollector| && s.toCollector[j] == f;
      }
    }
  }

  lemma EmptyStore(p: Params, v: Server, history: map<string, seq<Message>>)
    requires ServerOk(p, v, history) && v.store.generation == ""
    ensures v.store.received == 0
  {
  }

  // ---------------------------------------------------------------- every run

  lemma StepGood(p: Params, s: System, step: Step)
    requires Good(p, s)
    ensures Good(p, Do(p, s, step))
  {
    hide Good, Traceable, Store, QueueStep;
    if Control(step) {
      ControlGood(p, s, step);
    } else {
      match step
      case DoCapture(op) => CaptureGood(p, s, op);
      case DoConnect => ConnectGood(p, s);
      case DoCollectorAck(now) => AckGood(p, s, now);
      case DoCollectorPull => PullGood(p, s);
      case DoCollectorRepair => RepairGood(p, s);
      case DoServerHello => HelloGood(p, s);
      case DoServerEvent(commits) => StoreGood(p, s, commits);
      case DoServerResult(_) => GrantGood(p, s);
    }
  }

  lemma InitialGood(p: Params, s: System)
    requires Initial(p, s)
    ensures Good(p, s)
  {
    Q.FreshQueueValid(p.queue);
    FreshInv(p.target, s.srv.store);
    InOrderEmpty(s.srv.store.inbox, s.srv.store.generation);
    InOrderEmpty(s.srv.store.snapshotRows, s.srv.store.generation);
  }

  lemma {:induction false} RunGood(p: Params, s: System, steps: seq<Step>)
    requires Good(p, s)
    ensures Good(p, Run(p, s, steps))
    decreases |steps|
  {
    hide Traceable, Core, Store, QueueStep, PublishedLog, PrefixOk, FilesOk, UpFrameOk, DownFrameOk;
    if steps != [] {
      RunGood(p, s, steps[..|steps| - 1]);
      StepGood(p, Run(p, s, steps[..|steps| - 1]), steps[|steps| - 1]);
    }
  }
}
