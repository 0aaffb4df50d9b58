/** When the capture is stopped and what the server has stored by then: one capture at a time, and
    reconciliation scans only at a quiescent point. Both hold as long as no stop returns before its capture
    has exited; `ImpatientStop` shows that this condition cannot be dropped. */
module Quiescence {
  import opened Event
  import Q = Queue
  import opened Target
  import opened Replay
  import opened System
  import opened SystemInv
  import opened Guarantees
  import opened Units

  // ---------------------------------------------------------------- one capture at a time

  function Alive(s: System): nat {
    s.col.ctl.strays + if s.col.ctl.current then 1 else 0
  }

  /** Every capture alive is the controller's own, and it is running, being stopped, or gone. */
  predicate ControllerOk(c: Collector) {
    && c.ctl.strays == 0
    && (!c.ctl.cancel && !Stopping(c) ==> !c.ctl.current)
    && (Stopping(c) ==> !c.ctl.cancel && c.ctl.pausedFor == c.client.value.active == c.client.value.stopping)
  }

  predicate RequestsNamed(s: System) {
    && (forall f | f in s.toCollector :: f.Reconcile? ==> f.request != "")
    && (s.srv.session.Some? && s.srv.session.value.mode.Comparing? ==> s.srv.session.value.mode.request != "")
  }

  /** A stop that returns on its context with the capture still alive. */
  predicate Impatient(s: System, step: Step) {
    step.DoStopTimeout? && s.col.ctl.current
  }

  lemma ServerNames(p: Params, s: System, step: Step)
    requires RequestsNamed(s)
    requires step.DoServerIdle? || step.DoServerResult? || step.DoServerReply? || step.DoServerEvent?
             || step.DoServerHello?
    ensures RequestsNamed(Do(p, s, step))
  {
    hide Store, Offer, Traceable, QueueStep;
  }

  /** The other steps add no request and change no session mode. */
  lemma CollectorNames(p: Params, s: System, step: Step)
    requires RequestsNamed(s)
    requires !(step.DoServerIdle? || step.DoServerResult? || step.DoServerReply? || step.DoServerEvent?
             || step.DoServerHello?)
    ensures RequestsNamed(Do(p, s, step))
  {
    hide Store, Offer, Traceable, QueueStep, ResumeCapture, Q.Attempt, Q.Get, Q.ResetForSnapshot, Drained;
  }

  lemma StepNamesRequests(p: Params, s: System, step: Step)
    requires RequestsNamed(s)
    ensures RequestsNamed(Do(p, s, step))
  {
    hide Traceable, Store, Offer, QueueStep, RequestsNamed;
    if step.DoServerIdle? || step.DoServerResult? || step.DoServerReply? || step.DoServerEvent? || step.DoServerHello? {
      ServerNames(p, s, step);
    } else {
      CollectorNames(p, s, step);
    }
  }

  lemma BreakKeeps(s: System)
    requires ControllerOk(s.col)
    ensures ControllerOk(ClientBreak(s).col)
  {
  }

  lemma CompareKeeps(s: System, request: string)
    requires ControllerOk(s.col) && !Stopping(s.col) && !s.col.ctl.current
    ensures ControllerOk(Compare(s, request).col)
  {
  }

  lemma ReconcileKeeps(s: System)
    requires ControllerOk(s.col) && RequestsNamed(s)
    ensures ControllerOk(CollectorReconcile(s).col)
  {
    hide Compare;
    if Receives(s) && s.toCollector[0].Reconcile? {
      var request, c := s.toCollector[0].request, s.col.ctl;
      var paused := s.(toCollector := s.toCollector[1..],
                       col := s.col.(client := Some(Client(request, "")),
                                     ctl := c.(pausedFor := request, cancel := false)));
      if !c.cancel {
        CompareKeeps(paused, request);
      }
    }
  }

  lemma FinishKeeps(s: System)
    requires ControllerOk(s.col)
    ensures ControllerOk(FinishStop(s).col)
  {
    hide Compare;
    if Stopping(s.col) && !s.col.ctl.current {
      CompareKeeps(s.(col := s.col.(client := Some(s.col.client.value.(stopping := "")))), s.col.client.value.stopping);
    }
  }

  lemma AnswerKeeps(p: Params, s: System, now: int)
    requires ControllerOk(s.col)
    ensures ControllerOk(CollectorResume(s).col) && ControllerOk(CollectorRepair(p, s).col)
    ensures ControllerOk(CollectorAck(p, s, now).col) && ControllerOk(CollectorPull(s).col)
  {
    hide ClientBreak, Traceable, Q.Attempt, Q.Get, Q.Earliest, Q.ResetForSnapshot;
    BreakKeeps(s);
  }

  lemma StepKeepsController(p: Params, s: System, step: Step)
    requires ControllerOk(s.col) && RequestsNamed(s) && !Impatient(s, step)
    ensures ControllerOk(Do(p, s, step).col)
  {
    hide Traceable, QueueStep, Store, Offer, ClientBreak, CollectorReconcile, FinishStop, CollectorResume,
         CollectorRepair, CollectorAck, CollectorPull, RequestsNamed;
    match step
    case DoClientBreak => BreakKeeps(s);
    case DoCollectorReconcile => ReconcileKeeps(s);
    case DoFinishStop => FinishKeeps(s);
    case DoCollectorResume => AnswerKeeps(p, s, 0);
    case DoCollectorRepair => AnswerKeeps(p, s, 0);
    case DoCollectorAck(now) => AnswerKeeps(p, s, now);
    case DoCollectorPull => AnswerKeeps(p, s, 0);
    case DoCapture(op) => CaptureKeepsClient(p, s, op);
    case _ =>
  }

  lemma CaptureKeepsClient(p: Params, s: System, op: Q.Op)
    ensures Capture(p, s, op).col.ctl == s.col.ctl && Capture(p, s, op).col.client == s.col.client
  {
    hide Traceable;
  }

  /** An impatient stop followed by a break of the stream leaves two captures alive; a patient one does not. */
  lemma ImpatientStop(p: Params, s: System)
    requires ControllerOk(s.col) && Stopping(s.col)
    ensures Alive(Run(p, s, [DoStopTimeout, DoClientBreak])) == Alive(s) + 1
    ensures Alive(Run(p, s, [DoStopTimeout, DoClientBreak])) > 1 <==> Impatient(s, DoStopTimeout)
  {
    hide Traceable, Store, QueueStep;
    RunAppends(p, s, [DoStopTimeout], DoClientBreak);
    RunAppends(p, s, [], DoStopTimeout);
    assert [] + [DoStopTimeout] == [DoStopTimeout];
    assert [DoStopTimeout] + [DoClientBreak] == [DoStopTimeout, DoClientBreak];
  }

  lemma RunAppends(p: Params, s: System, steps: seq<Step>, step: Step)
    ensures Run(p, s, steps + [step]) == Do(p, Run(p, s, steps), step)
  {
    hide Traceable, Store, QueueStep;
    assert (steps + [step])[..|steps|] == steps;
  }

  /** A pause ends only by a crash, by the break of the stream that carried its request, by the frame that resumes
      or repairs that request, or by the answer that its queue is not drained. */
  lemma OnlyPauserResumes(p: Params, s: System, step: Step)
    requires s.col.ctl.pausedFor != "" && Do(p, s, step).col.ctl.pausedFor != s.col.ctl.pausedFor
    ensures var request := s.col.ctl.pausedFor;
            || step.DoCollectorCrash?
            || (s.col.client.Some? && s.col.client.value.active == request && Do(p, s, step).col.client.None?)
            || (step.DoCollectorResume? && Receives(s) && s.toCollector[0] == Resume(request))
            || (step.DoCollectorRepair? && Receives(s) && s.toCollector[0] == Repair(request))
            || (step.DoCollectorReconcile? && Receives(s) && s.toCollector[0] == Reconcile(request)
               && !Drained(s.col.queue.state))
            || (step.DoFinishStop? && s.col.client.Some? && s.col.client.value.stopping == request
               && !Drained(s.col.queue.state))
  {
    hide Traceable, Store, Offer, Q.Attempt, Q.Get, Q.Earliest, Q.ResetForSnapshot;
  }

  /** The queue is reset only for the request that paused the capture, with no capture alive and every
      published message acknowledged. */
  lemma RepairResetsDrained(p: Params, s: System)
    requires Good(p, s) && ControllerOk(s.col) && CollectorRepair(p, s).col.queue != s.col.queue
    ensures s.toCollector[0] == Repair(s.col.ctl.pausedFor) && Alive(s) == 0 && Drained(s.col.queue.state)
    ensures Stored(s) == |Log(s.col)|
  {
    hide Core, Store, QueueStep, PublishedLog, FilesOk, FramesOk, GrantsOk, SessionOk;
    CountersOrdered(p, s);
  }

  // ---------------------------------------------------------------- orderly runs

  ghost predicate Calm(p: Params, s: System) {
    && ControllerOk(s.col) && RequestsNamed(s)
    && Traceable(p, s.col) && Tidy(p.queue, Q.Traced(s.col.queue, Log(s.col)))
  }

  predicate OrderlyStep(s: System, step: Step) {
    !Impatient(s, step) && (step.DoCapture? ==> Disciplined(s.col.queue, step.op))
  }

  ghost predicate Orderly(p: Params, s: System, steps: seq<Step>) {
    steps != [] ==>
      Orderly(p, s, steps[..|steps| - 1]) && OrderlyStep(Run(p, s, steps[..|steps| - 1]), steps[|steps| - 1])
  }

  lemma QueueStepTidy(p: Params, c: Collector, op: Q.Op)
    requires CollectorOk(p, c) && Allowed(p, c, op) && Tidy(p.queue, Q.Traced(c.queue, Log(c)))
             && Disciplined(c.queue, op)
    ensures Traceable(p, QueueStep(p, c, op))
    ensures Tidy(p.queue, Q.Traced(QueueStep(p, c, op).queue, Log(QueueStep(p, c, op))))
  {
    var t := Q.Traced(c.queue, Log(c));
    StepTidy(p.queue, t, op);
    var next := QueueStep(p, c, op);
    assert Log(next) == Q.TraceStep(p.queue, t, op).log by {
      if Q.Restarts(p.queue, c.queue, op) {
        RestartState(p.queue, c.queue, op);
      } else {
        StepKeepsIdentity(p.queue, c.queue, op);
      }
    }
  }

  lemma TidyCarried(p: Params, c: Collector, d: Collector)
    requires Traceable(p, c) && Tidy(p.queue, Q.Traced(c.queue, Log(c))) && QueueSame(c, d)
    ensures Traceable(p, d) && Tidy(p.queue, Q.Traced(d.queue, Log(d)))
  {
  }

  lemma StepTidies(p: Params, s: System, step: Step)
    requires Good(p, s) && Calm(p, s) && OrderlyStep(s, step)
    ensures Traceable(p, Do(p, s, step).col)
    ensures Tidy(p.queue, Q.Traced(Do(p, s, step).col.queue, Log(Do(p, s, step).col)))
  {
    hide Traceable, Core, Effect, Store, QueueStep, PublishedLog, FilesOk, FramesOk, GrantsOk, SessionOk, Tidy;
    var c, d := s.col, Do(p, s, step).col;
    if step.DoCapture? {
      assert d == c || (Allowed(p, c, step.op) && d == QueueStep(p, c, step.op));
      hide Do, Tidy, Traceable;
      if d != c {
        QueueStepTidy(p, c, step.op);
      }
    } else if step.DoCollectorAck? {
      AckTidies(p, s, step.now);
    } else if step.DoCollectorRepair? {
      assert Allowed(p, c, Q.OpReset) && Disciplined(c.queue, Q.OpReset);
      assert QueueSame(c, d) || QueueSame(QueueStep(p, c, Q.OpReset), d);
      hide Do, Tidy, Traceable;
      if QueueSame(c, d) {
        TidyCarried(p, c, d);
      } else {
        QueueStepTidy(p, c, Q.OpReset);
        TidyCarried(p, QueueStep(p, c, Q.OpReset), d);
      }
    } else {
      QueueUntouched(p, s, step);
      TidyCarried(p, c, d);
    }
  }

  lemma AckTidies(p: Params, s: System, now: int)
    requires Good(p, s) && Calm(p, s)
    ensures var d := CollectorAck(p, s, now).col; Traceable(p, d) && Tidy(p.queue, Q.Traced(d.queue, Log(d)))
  {
    hide Traceable, Core, Effect, Store, QueueStep, PublishedLog, FilesOk, GrantsOk, SessionOk, Tidy;
    var c, d := s.col, CollectorAck(p, s, now).col;
    if Receives(s) && s.toCollector[0].Ack? {
      var op := Q.OpAck(s.toCollector[0].seqNo, s.toCollector[0].id, now);
      assert DownFrameOk(p, s.srv, s.toCollector[0]);
      assert QueueSame(c, d) || (d == QueueStep(p, c, op) && Generation(c) != "");
      hide Tidy, Traceable;
      if QueueSame(c, d) {
        TidyCarried(p, c, d);
      } else {
        QueueStepTidy(p, c, op);
      }
    }
  }

  predicate QueueSame(c: Collector, d: Collector) {
    d.queue == c.queue && d.history == c.history
  }

  /** Only captures, acknowledgements and repairs change the queue. */
  lemma QueueUntouched(p: Params, s: System, step: Step)
    requires !(step.DoCapture? || step.DoCollectorAck? || step.DoCollectorRepair?)
    ensures QueueSame(s.col, Do(p, s, step).col)
  {
    hide Traceable, Store, QueueStep;
  }

  lemma {:induction false} RunCalm(p: Params, s: System, steps: seq<Step>)
    requires Initial(p, s) && Orderly(p, s, steps)
    ensures Good(p, Run(p, s, steps)) && Calm(p, Run(p, s, steps))
    decreases |steps|
  {
    hide Traceable, Core, Effect, Store, QueueStep, PublishedLog, FilesOk, FramesOk, GrantsOk, SessionOk;
    InitialGood(p, s);
    RunGood(p, s, steps);
    if steps != [] {
      var front, step := steps[..|steps| - 1], steps[|steps| - 1];
      RunCalm(p, s, front);
      var before := Run(p, s, front);
      StepNamesRequests(p, before, step);
      StepKeepsController(p, before, step);
      StepTidies(p, before, step);
      hide Do, Good, Tidy, Traceable;
    }
  }

  ghost predicate Patient(p: Params, s: System, steps: seq<Step>) {
    steps != [] ==>
      Patient(p, s, steps[..|steps| - 1]) && !Impatient(Run(p, s, steps[..|steps| - 1]), steps[|steps| - 1])
  }

  /** If every stop waits for its capture to exit, no run ever has two captures alive. */
  lemma {:induction false} OneCaptureAtATime(p: Params, s: System, steps: seq<Step>)
    requires Initial(p, s) && Patient(p, s, steps)
    ensures Alive(Run(p, s, steps)) <= 1
    ensures ControllerOk(Run(p, s, steps).col) && RequestsNamed(Run(p, s, steps))
    decreases |steps|
  {
    hide Traceable, Core, Effect, Store, QueueStep, PublishedLog, FilesOk, FramesOk, GrantsOk, SessionOk, Tidy;
    if steps != [] {
      var front, step := steps[..|steps| - 1], steps[|steps| - 1];
      OneCaptureAtATime(p, s, front);
      StepNamesRequests(p, Run(p, s, front), step);
      StepKeepsController(p, Run(p, s, front), step);
      hide Do;
    }
  }

  // ---------------------------------------------------------------- the scan

  /** This step makes the collector scan its source and answer with digests. */
  predicate Scans(s: System, step: Step) {
    || (step.DoCollectorReconcile? && Answers(s, CollectorReconcile(s)))
    || (step.DoFinishStop? && Answers(s, FinishStop(s)))
  }

  predicate Answers(s: System, t: System) {
    s.toServer == [] && t.toServer != [] && t.toServer[0].ReconcileResult? && t.toServer[0].ok
  }

  /** Whenever the source scan runs, no capture is alive and the server has stored exactly what was published;
      if anything was, it has applied all of it, with no transaction open and no schema refresh pending. */
  lemma ScanIsQuiescent(p: Params, s: System, steps: seq<Step>, step: Step)
    requires Initial(p, s) && Orderly(p, s, steps) && Scans(Run(p, s, steps), step)
    ensures var t := Do(p, Run(p, s, steps), step);
            && Alive(t) == 0 && Stored(t) == |Log(t.col)|
            && (Log(t.col) != [] ==> && t.srv.store.generation == Generation(t.col) && t.srv.log == Log(t.col)
                                     && t.srv.store.applied == t.srv.store.received == |Log(t.col)|
                                     && t.srv.store.openTransaction == "" && t.srv.store.pendingSchema == "")
  {
    hide Core, Store, QueueStep, PublishedLog, FilesOk, FramesOk, GrantsOk, SessionOk;
    RunCalm(p, s, steps);
    var before, t := Run(p, s, steps), Do(p, Run(p, s, steps), step);
    ScanKeeps(p, before, step);
    CountersOrdered(p, before);
    if Log(t.col) != [] {
      FullPrefix(p, before);
      ClosedLogIsQuiescent(p.target, before.srv.store, before.srv.base, before.srv.log);
    }
  }

  lemma ScanKeeps(p: Params, s: System, step: Step)
    requires ControllerOk(s.col) && RequestsNamed(s) && Scans(s, step)
    ensures var t := Do(p, s, step);
            && t.srv == s.srv && t.col.queue == s.col.queue && t.col.history == s.col.history
            && Drained(s.col.queue.state) && Alive(t) == 0
  {
    hide Traceable, Store, QueueStep;
  }

  lemma FullPrefix(p: Params, s: System)
    requires Good(p, s) && Stored(s) == |Log(s.col)| > 0
    ensures s.srv.store.generation == Generation(s.col) && s.srv.log == Log(s.col)
  {
  }

  /** While the answer to a scan is on its way no step moves the store. */
  lemma StoreHeldForDecision(p: Params, s: System, step: Step)
    requires AwaitsDecision(s)
    ensures var before, after := s.srv.store, Do(p, s, step).srv.store;
            after == before.(repairAuthorized := after.repairAuthorized)
  {
    hide Traceable, Store, QueueStep;
  }

  /** The answer to a scan is on its way. */
  predicate AwaitsDecision(s: System) {
    s.toServer != [] && s.toServer[0].ReconcileResult?
  }

  ghost predicate AwaitsThroughout(p: Params, s: System, steps: seq<Step>) {
    steps != [] ==> AwaitsThroughout(p, s, Front(steps)) && AwaitsDecision(Run(p, s, Front(steps)))
  }

  /** From a scan until and including the server's decision about it, whatever else happens, the store the digests
      are compared with does not move. */
  lemma {:induction false} StoreHeldUntilDecision(p: Params, s: System, steps: seq<Step>)
    requires AwaitsThroughout(p, s, steps)
    ensures var before, after := s.srv.store, Run(p, s, steps).srv.store;
            after == before.(repairAuthorized := after.repairAuthorized)
    decreases |steps|
  {
    hide Do, AwaitsDecision;
    if steps != [] {
      StoreHeldUntilDecision(p, s, Front(steps));
      StoreHeldForDecision(p, Run(p, s, Front(steps)), Last(steps));
    }
  }
}
