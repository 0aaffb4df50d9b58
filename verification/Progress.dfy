/** When acknowledgements stop for good and when a repair is stranded: the exact steps that do it. */
module Progress {
  import opened Event
  import Q = Queue
  import opened Target
  import opened Replay
  import opened System
  import opened SystemInv
  import opened Guarantees

  // ---------------------------------------------------------------- acknowledgements

  /** The collector loses its stream without reading what is in flight. */
  predicate DropsClient(s: System, step: Step) {
    step.DoCollectorCrash? || (step.DoClientBreak? && !Stopping(s.col))
  }

  /** The server commits an event of the collector's generation. */
  ghost predicate CommitsEvent(p: Params, s: System, step: Step) {
    && step == DoServerEvent(true) && Serves(s) && s.toServer[0].Event?
    && var m := s.toServer[0].message;
       && EnvelopeMatches(p, s.srv.session.value, m) && m.generation == Generation(s.col)
       && Store(p.target, s.srv.store, m).Success?
  }

  /** The step that strands the acknowledged mark: the collector drops a stream with an acknowledgement in flight,
      or the server commits an event the collector sent before it dropped its stream. */
  ghost predicate Strands(p: Params, s: System, step: Step) {
    if s.col.client.Some? then Flying(s) && DropsClient(s, step) else CommitsEvent(p, s, step)
  }

  lemma AlignedIsNotStuck(s: System)
    requires Aligned(s) || Stored(s) <= Delivered(s)
    ensures !Stuck(s)
  {
  }

  /** A step that moves no counter and drops no acknowledgement strands nothing. */
  lemma KeptUnstuck(s: System, t: System)
    requires Carried(s, t) && Level(s) && !Stuck(s) && Generation(t.col) == Generation(s.col)
    requires Delivered(t) == Delivered(s) && Stored(t) == Stored(s)
    requires s.col.client.Some? && Flying(s) ==> t.col.client.Some?
    ensures !Stuck(t)
  {
    hide Flying;
    if Aligned(s) && t.col.client.Some? {
      AlignedIsNotStuck(t);
    }
  }

  lemma DropNeedsStep(p: Params, s: System, step: Step)
    requires ShapeOk(s) && Control(step) && s.col.client.Some? && Flying(s) && Do(p, s, step).col.client.None?
    ensures DropsClient(s, step)
  {
    hide Traceable, Store, QueueStep, ResumeCapture, Drained;
  }

  lemma ControlUnstuck(p: Params, s: System, step: Step)
    requires Good(p, s) && Level(s) && !Stuck(s) && Control(step) && !Strands(p, s, step)
    ensures !Stuck(Do(p, s, step))
  {
    hide Good, Do, Level, Stuck, Carried, Delivered, Stored, Flying, DropsClient, ShapeOk, FramesOk, CollectorOk,
         ServerOk, Traceable;
    GoodParts(p, s);
    LevelControlStep(p, s, step);
    ControlKeepsGeneration(p, s, step);
    StepCarries(p, s, step);
    var t := Do(p, s, step);
    if s.col.client.Some? && Flying(s) && t.col.client.None? {
      DropNeedsStep(p, s, step);
    }
    KeptUnstuck(s, t);
  }

  lemma CaptureUnstuck(p: Params, s: System, op: Q.Op)
    requires Good(p, s) && Level(s) && !Stuck(s)
    ensures !Stuck(Capture(p, s, op))
  {
    hide Traceable, Core, Store, PublishedLog, PrefixOk, FilesOk, UpFrameOk, GrantsOk, SessionOk, Carried, Level, Stuck;
    var t := Capture(p, s, op);
    CaptureCarries(p, s, op);
    if CaptureMay(p, s.col, op) && Traceable(p, s.col) {
      QueueStepBounds(p, s.col, op);
      if Generation(t.col) == Generation(s.col) && Delivered(t) == Delivered(s) {
        KeptUnstuck(s, t);
      } else {
        NewGenerationUnknown(p, s, Generation(t.col));
        AlignedIsNotStuck(t);
      }
    }
  }

  /** With another frame than an acknowledgement first, the collector has nothing to lose. */
  lemma NothingFlying(s: System, t: System)
    requires Level(s) && !Stuck(s) && s.col.client.Some? && !Flying(s) && Delivered(t) == Delivered(s)
             && Stored(t) == Stored(s)
    ensures !Stuck(t)
  {
  }

  lemma BreakCounters(p: Params, s: System)
    requires Good(p, s)
    ensures Delivered(ClientBreak(s)) == Delivered(s) && Stored(ClientBreak(s)) == Stored(s)
    ensures Delivered(ServerBreak(s)) == Delivered(s) && Stored(ServerBreak(s)) == Stored(s)
  {
  }

  lemma AckUnstuck(p: Params, s: System, now: int)
    requires Good(p, s) && Level(s) && !Stuck(s)
    ensures !Stuck(CollectorAck(p, s, now))
  {
    hide Good, Traceable, FramesOk, CollectorOk, ServerOk, QueueStep, Q.Attempt, Carried, ClientBreak, Stuck, Level,
         ShapeOk;
    GoodParts(p, s);
    AckCarries(p, s, now);
    if Receives(s) && s.toCollector[0].Ack? {
      var ack := s.toCollector[0];
      if !Flying(s) {
        BreakCounters(p, s);
        NothingFlying(s, ClientBreak(s));
      } else {
        FlyingIsNext(s);
        NextAckSucceeds(p, s, now);
        StillAligned(s, CollectorAck(p, s, now));
        AlignedIsNotStuck(CollectorAck(p, s, now));
      }
    }
  }

  lemma FlyingIsNext(s: System)
    requires Level(s) && !Stuck(s) && s.col.client.Some? && Flying(s)
    ensures Aligned(s) && s.toCollector[0].seqNo == Delivered(s) + 1
  {
  }

  lemma StillAligned(s: System, t: System)
    requires Carried(s, t) && Aligned(s) && Generation(t.col) == Generation(s.col) && t.col.client.Some?
    ensures Aligned(t)
  {
  }

  lemma PullUnstuck(p: Params, s: System)
    requires Good(p, s) && Level(s) && !Stuck(s)
    ensures !Stuck(CollectorPull(s))
  {
    hide Good, Traceable, FramesOk, CollectorOk, ServerOk, Carried, ClientBreak, Stuck, Level, ShapeOk, Q.Get,
         Q.Earliest;
    GoodParts(p, s);
    PullCarries(p, s);
    var t := CollectorPull(s);
    if Receives(s) && s.toCollector[0].Pull? {
      BreakCounters(p, s);
      if t != ClientBreak(s) {
        PullKeeps(s);
      }
      NothingFlying(s, t);
    }
  }

  lemma RepairUnstuck(p: Params, s: System)
    requires Good(p, s) && Level(s) && !Stuck(s)
    ensures !Stuck(CollectorRepair(p, s))
  {
    hide Core, Store, PublishedLog, FilesOk, UpFrameOk, GrantsOk, SessionOk, ClientBreak, Level, Stuck, Q.TracedValid;
    var t := CollectorRepair(p, s);
    if Receives(s) && s.toCollector[0].Repair? {
      BreakCounters(p, s);
      if t == ClientBreak(s) {
        NothingFlying(s, t);
      } else {
        RestartState(p.queue, s.col.queue, Q.OpReset);
        if s.srv.store.generation == "" {
          EmptyStore(p, s.srv, s.col.history);
        }
        AlignedIsNotStuck(t);
      }
    }
  }

  lemma HelloUnstuck(p: Params, s: System)
    requires Good(p, s) && Level(s) && !Stuck(s)
    ensures !Stuck(ServerHello(s))
  {
    hide Good, Carried, ShapeOk, FramesOk, CollectorOk, ServerOk, Traceable, Level, Stuck, ServerBreak;
    GoodParts(p, s);
    HelloCarries(p, s);
    BreakCounters(p, s);
    BreakKeepsCollector(s);
    var t := ServerHello(s);
    if t != ServerBreak(s) {
      HelloKeeps(s);
    }
    KeptUnstuck(s, t);
  }

  lemma BreakKeepsCollector(s: System)
    ensures ServerBreak(s).col == s.col && ServerBreak(s).toCollector == s.toCollector
  {
  }

  lemma ConnectUnstuck(p: Params, s: System)
    requires Good(p, s) && Level(s) && !Stuck(s)
    ensures !Stuck(Connect(s))
  {
    hide Good, Carried;
    ConnectCarries(p, s);
    KeptUnstuck(s, Connect(s));
  }

  lemma GrantUnstuck(p: Params, s: System)
    requires Good(p, s) && Level(s) && !Stuck(s)
    ensures !Stuck(ServerResult(s, Grant))
  {
    hide Good, Carried, ShapeOk, FramesOk, CollectorOk, ServerOk, Traceable, Level, Stuck, ServerBreak;
    GrantCarries(p, s);
    BreakCounters(p, s);
    BreakKeepsCollector(s);
    KeptUnstuck(s, ServerResult(s, Grant));
  }

  lemma CommitStored(p: Params, s: System, m: Message)
    requires Good(p, s) && Serves(s) && s.toServer[0] == Event(m) && EnvelopeMatches(p, s.srv.session.value, m)
    requires Store(p.target, s.srv.store, m).Success?
    ensures var t := ServerEvent(p, s, true);
            && t.col == s.col
            && (m.generation == Generation(s.col) ==> Stored(t) == Stored(s) + 1)
            && (m.generation != Generation(s.col) ==> Stored(t) == 0 || Stored(t) == Stored(s))
  {
    hide Traceable, Core, Effect, Store, Accept, QueueStep, PublishedLog, PrefixOk, FilesOk, GrantsOk;
    assert UpFrameOk(s, s.toServer[0]);
    if m.generation == s.srv.store.generation {
      StoreIsAccept(p.target, s.srv.store, m);
    } else {
      StoreFirst(p, s.srv, s.col.history, m);
      if s.srv.store.generation == "" {
        EmptyStore(p, s.srv, s.col.history);
      }
    }
  }

  lemma EventUnstuck(p: Params, s: System, commits: bool)
    requires Good(p, s) && Level(s) && !Stuck(s) && !Strands(p, s, DoServerEvent(commits))
    ensures !Stuck(ServerEvent(p, s, commits))
  {
    hide Good, Store, Carried, ShapeOk, FramesOk, CollectorOk, ServerOk, Traceable, Level, Stuck, ServerBreak, Offer,
         EnvelopeMatches;
    EventCarries(p, s, commits);
    BreakCounters(p, s);
    BreakKeepsCollector(s);
    var t := ServerEvent(p, s, commits);
    if Serves(s) && s.toServer[0].Event? {
      var m := s.toServer[0].message;
      if !EnvelopeMatches(p, s.srv.session.value, m) || Store(p.target, s.srv.store, m).Failure? {
        KeptUnstuck(s, t);
      } else if !commits {
        AbortKeeps(p, s);
        KeptUnstuck(s, t);
      } else {
        CommitUnstuck(p, s, m);
      }
    }
  }

  lemma CommitUnstuck(p: Params, s: System, m: Message)
    requires Good(p, s) && Level(s) && !Stuck(s) && Serves(s) && s.toServer[0] == Event(m)
    requires EnvelopeMatches(p, s.srv.session.value, m) && Store(p.target, s.srv.store, m).Success?
    requires s.col.client.None? ==> m.generation != Generation(s.col)
    ensures !Stuck(ServerEvent(p, s, true))
  {
    hide Good, Store, Carried, ShapeOk, Stuck, Offer, EnvelopeMatches;
    var t := ServerEvent(p, s, true);
    CommitCarries(p, s, m);
    CommitStored(p, s, m);
    if s.col.client.Some? {
      AlignedWith(s);
      StillAligned(s, t);
      AlignedIsNotStuck(t);
    } else {
      AlignedIsNotStuck(t);
    }
  }

  lemma AlignedWith(s: System)
    requires Level(s) && !Stuck(s) && s.col.client.Some?
    ensures Aligned(s)
  {
  }

  lemma DropStrands(p: Params, s: System, step: Step)
    requires Level(s) && !Stuck(s) && s.col.client.Some? && Flying(s) && DropsClient(s, step)
    ensures Stuck(Do(p, s, step))
  {
    hide ResumeCapture, Level;
    FlyingIsNext(s);
  }

  lemma CommitStrands(p: Params, s: System)
    requires Good(p, s) && Level(s) && !Stuck(s) && s.col.client.None? && CommitsEvent(p, s, DoServerEvent(true))
    ensures Stuck(Do(p, s, DoServerEvent(true)))
  {
    hide Good, Store, Offer;
    CommitStored(p, s, s.toServer[0].message);
  }

  /** Exactly these steps strand the acknowledged mark of a generation, in every reachable state in which it is not
      stranded yet. */
  lemma StrandsExactly(p: Params, s: System, step: Step)
    requires Good(p, s) && Level(s) && !Stuck(s)
    ensures Stuck(Do(p, s, step)) <==> Strands(p, s, step)
  {
    hide Good, Level, Stuck, CommitsEvent, DropsClient, Capture, Connect, CollectorAck, CollectorPull, CollectorRepair,
         ServerHello, ServerEvent, ServerResult, ClientBreak, CollectorCrash;
    if Strands(p, s, step) {
      if s.col.client.Some? {
        DropStrands(p, s, step);
      } else {
        CommitIsEvent(p, s, step);
        CommitStrands(p, s);
      }
    } else if Control(step) {
      ControlUnstuck(p, s, step);
    } else {
      match step
      case DoCapture(op) => CaptureUnstuck(p, s, op);
      case DoConnect => ConnectUnstuck(p, s);
      case DoCollectorAck(now) => AckUnstuck(p, s, now);
      case DoCollectorPull => PullUnstuck(p, s);
      case DoCollectorRepair => RepairUnstuck(p, s);
      case DoServerHello => HelloUnstuck(p, s);
      case DoServerEvent(commits) => EventUnstuck(p, s, commits);
      case DoServerResult(_) => GrantUnstuck(p, s);
    }
  }

  lemma CommitIsEvent(p: Params, s: System, step: Step)
    requires CommitsEvent(p, s, step)
    ensures step == DoServerEvent(true)
  {
  }

  /** Over whole runs: the mark is stranded only if such a step has happened. */
  lemma {:induction false} StuckNeedsStrand(p: Params, s: System, steps: seq<Step>) returns (i: nat)
    requires Initial(p, s) && Stuck(Run(p, s, steps))
    ensures i < |steps| && Strands(p, Run(p, s, steps[..i]), steps[i])
    decreases |steps|
  {
    hide Good, Strands, Do, Level;
    if steps == [] {
      InitialLevel(p, s);
      assert false;
    } else {
      var front, step := Front(steps), Last(steps);
      if Stuck(Run(p, s, front)) {
        i := StuckNeedsStrand(p, s, front);
        assert front[..i] == steps[..i] && front[i] == steps[i];
      } else {
        InitialGood(p, s);
        RunGood(p, s, front);
        AlwaysLevel(p, s, front);
        StrandsExactly(p, Run(p, s, front), step);
        i := |front|;
      }
    }
  }

  lemma InitialLevel(p: Params, s: System)
    requires Initial(p, s)
    ensures !Stuck(s) && Run(p, s, []) == s
  {
  }

  // ---------------------------------------------------------------- repairs

  /** The stored generation is not the collector's, and no authorization to replace it is left. */
  predicate Orphaned(s: System) {
    !s.srv.store.repairAuthorized && s.srv.store.generation != "" && Generation(s.col) != s.srv.store.generation
  }

  /** The end of a session strands a repair exactly when its authorization has been spent and nothing of the
      collector's generation has been stored. */
  lemma BreakStrandsRepair(p: Params, s: System)
    requires Good(p, s)
    ensures Stranded(ServerBreak(s)) <==> Orphaned(s)
  {
    hide Good;
  }

  /** A repair session that has spent its authorization and not stored anything yet. */
  predicate Repairing(s: System) {
    s.srv.session.Some? && Foreign(s.srv, s.srv.session.value.generation) && !s.srv.store.repairAuthorized
  }

  lemma RepairingIsOrphaned(p: Params, s: System)
    requires Good(p, s) && Repairing(s)
    ensures Orphaned(s)
  {
    hide ServerOk, CollectorOk, SessionOk, GrantsOk;
  }

  /** A session ends without touching anything but the files of an aborted transaction. */
  lemma SessionEnds(p: Params, s: System, step: Step)
    requires s.srv.session.Some? && Do(p, s, step).srv.session.None?
    ensures var t := Do(p, s, step);
            && t.col == s.col && t.toServer == [] && t.srv.store.generation == s.srv.store.generation
            && t.srv.store.repairAuthorized == s.srv.store.repairAuthorized
  {
    hide Traceable, Store, QueueStep, ResumeCapture, Offer, EnvelopeMatches, Q.Attempt, Q.Get, Q.Earliest,
         Q.ResetForSnapshot;
  }

  /** Storing its first message completes a repair: the server now holds the new generation. */
  lemma FirstMessageCompletes(p: Params, s: System, m: Message)
    requires Good(p, s) && Repairing(s) && Serves(s) && s.toServer[0] == Event(m)
    requires EnvelopeMatches(p, s.srv.session.value, m) && Store(p.target, s.srv.store, m).Success?
    ensures var t := ServerEvent(p, s, true);
            && t.srv.store.generation == s.srv.session.value.generation && t.srv.store.received == 1
            && t.srv.log == [m] && t.srv.switched == s.srv.switched + 1 && !Repairing(t)
  {
    hide Traceable, Core, Effect, Store, Accept, QueueStep, PublishedLog, PrefixOk, FilesOk, GrantsOk;
    assert UpFrameOk(s, s.toServer[0]);
    StoreFirst(p, s.srv, s.col.history, m);
  }

  /** Every step of a repair session: it is stranded exactly by the steps that end it; otherwise it goes on, or is
      authorized again, or has stored its first message. */
  lemma RepairSessionStep(p: Params, s: System, step: Step)
    requires Good(p, s) && Repairing(s)
    ensures var t := Do(p, s, step);
            && (Stranded(t) <==> t.srv.session.None?)
            && (t.srv.session.Some? ==>
                  || Repairing(t) || t.srv.store.repairAuthorized
                  || (step == DoServerEvent(true) && t.srv.store.generation == s.srv.session.value.generation))
  {
    hide Good, Do, Stranded, Repairing;
    RepairingIsOrphaned(p, s);
    var t := Do(p, s, step);
    if t.srv.session.None? {
      IsRepairing(s);
      SessionEnds(p, s, step);
      StrandedThen(s, t);
    } else {
      NotStranded(t);
      SessionGoesOn(p, s, step);
    }
  }

  lemma IsRepairing(s: System)
    requires Repairing(s)
    ensures s.srv.session.Some?
  {
  }

  lemma NotStranded(t: System)
    requires t.srv.session.Some?
    ensures !Stranded(t)
  {
  }

  lemma StrandedThen(s: System, t: System)
    requires Orphaned(s) && t.col == s.col && t.toServer == [] && t.srv.session.None?
    requires t.srv.store.generation == s.srv.store.generation
             && t.srv.store.repairAuthorized == s.srv.store.repairAuthorized
    ensures Stranded(t)
  {
  }

  lemma SessionGoesOn(p: Params, s: System, step: Step)
    requires Good(p, s) && Repairing(s) && Do(p, s, step).srv.session.Some?
    ensures var t := Do(p, s, step);
            || Repairing(t) || t.srv.store.repairAuthorized
            || (step == DoServerEvent(true) && t.srv.store.generation == s.srv.session.value.generation)
  {
    hide Good, Store, Traceable, QueueStep, Offer;
    if step == DoServerEvent(true) && Serves(s) && s.toServer[0].Event? {
      var m := s.toServer[0].message;
      if EnvelopeMatches(p, s.srv.session.value, m) && Store(p.target, s.srv.store, m).Success? {
        FirstMessageCompletes(p, s, m);
      }
    } else {
      SessionKept(p, s, step);
    }
  }

  lemma SessionKept(p: Params, s: System, step: Step)
    requires s.srv.session.Some? && Do(p, s, step).srv.session.Some?
    requires step == DoServerEvent(true) ==> !(Serves(s) && s.toServer[0].Event?)
    ensures var t := Do(p, s, step);
            && t.srv.session.value.generation == s.srv.session.value.generation
            && t.srv.store.generation == s.srv.store.generation
            && (t.srv.store.repairAuthorized || t.srv.store.repairAuthorized == s.srv.store.repairAuthorized)
  {
    hide Traceable, Store, QueueStep, ResumeCapture, Offer, EnvelopeMatches, Q.Attempt, Q.Get, Q.Earliest,
         Q.ResetForSnapshot;
  }
}
