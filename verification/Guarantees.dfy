/** What every run of the pipeline guarantees, and where its guarantees end. */
module Guarantees {
  import opened Event
  import Q = Queue
  import opened Target
  import opened TargetRun
  import opened Replay
  import opened System
  import opened SystemInv
  import Staging

  // ---------------------------------------------------------------- end to end

  /** In every run the server has stored a prefix of what the collector published for that generation, and
      the target tables are the fold of its complete units, each applied whole and once. */
  lemma EndToEnd(p: Params, s: System, steps: seq<Step>)
    requires Initial(p, s)
    ensures var t := Run(p, s, steps);
            var store := t.srv.store;
            && (t.srv.log != [] ==> store.generation in t.col.history && t.srv.log <= t.col.history[store.generation])
            && store.applied <= store.received == |t.srv.log|
            && store.tables == Effect(p.target, t.srv.base, t.srv.log[..store.applied]).tables
            && FilesOk(p, t.srv, t.col.history)
  {
    hide Traceable, Effect, Store, QueueStep, PublishedLog, FilesOk, UpFrameOk, GrantsOk, SessionOk;
    InitialGood(p, s);
    RunGood(p, s, steps);
    var t := Run(p, s, steps);
    EffectStopsAtClosing(p.target, t.srv.base, t.srv.log);
  }

  /** Whatever the server asks for is still stored: no run ever answers that replay is unavailable. */
  lemma ReplayAlwaysAvailable(p: Params, s: System, steps: seq<Step>)
    requires Initial(p, s)
    ensures var t := Run(p, s, steps);
            ReplayUnavailable !in CollectorPull(t).toServer || ReplayUnavailable in t.toServer
  {
    hide Core, Store, QueueStep, PublishedLog, PrefixOk, FilesOk, UpFrameOk, GrantsOk, SessionOk;
    InitialGood(p, s);
    RunGood(p, s, steps);
    var t := Run(p, s, steps);
    if Receives(t) && t.toCollector[0].Pull? {
      assert DownFrameOk(p, t.srv, t.toCollector[0]);
    }
  }

  // ---------------------------------------------------------------- acknowledgements

  function Delivered(s: System): nat {
    s.col.queue.state.deliveredSeq
  }

  /** How much of the queue's current generation the server has stored. */
  function Stored(s: System): nat {
    Received(s.srv, Generation(s.col))
  }

  /** An acknowledgement for the current generation is on its way. */
  predicate Flying(s: System) {
    s.toCollector != [] && s.toCollector[0].Ack? && s.toCollector[0].generation == Generation(s.col)
  }

  predicate Resting(s: System) {
    s.col.client.None? && Delivered(s) == Stored(s)
  }

  /** The collector has acknowledged everything stored, except for one acknowledgement still in flight. */
  predicate Aligned(s: System) {
    && s.col.client.Some?
    && Stored(s) == Delivered(s) + (if Flying(s) then 1 else 0)
    && (Flying(s) ==> s.toCollector[0].seqNo == Delivered(s) + 1)
  }

  /** The server is ahead and no acknowledgement the collector would accept is on its way. */
  predicate Stuck(s: System) {
    Delivered(s) < Stored(s) && (s.col.client.Some? && Flying(s) ==> s.toCollector[0].seqNo > Delivered(s) + 1)
  }

  predicate Level(s: System) {
    Resting(s) || Aligned(s) || Stuck(s)
  }

  /** Published, stored and delivered stay ordered within a shared generation. */
  lemma CountersOrdered(p: Params, s: System)
    requires Good(p, s)
    ensures Delivered(s) <= Stored(s) <= s.col.queue.state.readySeq || (Stored(s) == 0 && Generation(s.col) == "")
  {
    if s.srv.store.generation == "" {
      EmptyStore(p, s.srv, s.col.history);
    }
  }

  /** An acknowledgement for the next undelivered message of the current generation cannot fail. */
  lemma NextAckSucceeds(p: Params, s: System, now: int)
    requires Good(p, s) && Receives(s) && Flying(s) && s.toCollector[0].seqNo == Delivered(s) + 1
    ensures var t := CollectorAck(p, s, now);
            && Delivered(t) == Delivered(s) + 1 && t.col.client == s.col.client
               && Generation(t.col) == Generation(s.col)
            && t.srv == s.srv && t.toCollector == s.toCollector[1..]
  {
    hide Core, Store, PublishedLog, PrefixOk, FilesOk, UpFrameOk, GrantsOk, SessionOk;
    var ack := s.toCollector[0];
    assert DownFrameOk(p, s.srv, ack);
    CountersOrdered(p, s);
    var d := s.col.queue;
    assert ack.seqNo in d.items && Q.Stamped(d.state, ack.seqNo, d.items[ack.seqNo]);
    AckState(p.queue, d, Q.OpAck(ack.seqNo, ack.id, now));
  }

  /** In an aligned session every acknowledgement is accepted and the gap never exceeds one message. */
  lemma AlignedAccepts(p: Params, s: System, now: int)
    requires Good(p, s) && Aligned(s)
    ensures Stored(s) - Delivered(s) <= 1
    ensures Receives(s) && Flying(s) ==>
              Delivered(CollectorAck(p, s, now)) == Delivered(s) + 1 && Aligned(CollectorAck(p, s, now))
  {
    hide Traceable, Core, Store, QueueStep, PublishedLog, PrefixOk, FilesOk, UpFrameOk, GrantsOk, SessionOk;
    if Receives(s) && Flying(s) {
      NextAckSucceeds(p, s, now);
    }
  }

  /** The part of a state the acknowledgement discipline depends on is carried over by control steps. */
  lemma LevelControl(p: Params, s: System, t: System)
    requires Good(p, s) && ShapeOk(t) && Harmless(s, t)
    requires t.col.client.Some? ==> s.col.client.Some?
    requires t.col.client.Some? && Flying(s) ==> Flying(t)
    ensures Delivered(t) == Delivered(s) && Stored(t) == Stored(s)
    ensures Stuck(s) ==> Stuck(t)
    ensures Aligned(s) && t.col.client.Some? ==> Aligned(t)
    ensures Level(s) ==> Level(t)
  {
    hide Traceable, Core, Store, PublishedLog, PrefixOk, FilesOk, UpFrameOk, GrantsOk, SessionOk;
    if t.toCollector != [] && t.toCollector[0].Ack? {
      assert t.toCollector[0] in s.toCollector;
    }
  }

  lemma ControlKeepsClient(p: Params, s: System, step: Step)
    requires ShapeOk(s) && Control(step)
    ensures var t := Do(p, s, step);
            && (t.col.client.Some? ==> s.col.client.Some?)
            && (t.col.client.Some? && Flying(s) ==> Flying(t))
  {
    hide Traceable, Store, QueueStep;
  }

  lemma LevelControlStep(p: Params, s: System, step: Step)
    requires Good(p, s) && Control(step)
    ensures var t := Do(p, s, step);
            && Delivered(t) == Delivered(s) && Stored(t) == Stored(s)
            && (Stuck(s) ==> Stuck(t)) && (Aligned(s) && t.col.client.Some? ==> Aligned(t)) && (Level(s) ==> Level(t))
  {
    hide Traceable, Core, Effect, Store, Accept, QueueStep, PublishedLog, PrefixOk, FilesOk, UpFrameOk, GrantsOk,
         SessionOk;
    ControlShape(p, s, step);
    ControlKeepsClient(p, s, step);
    if step.DoServerBreak? || step.DoServerIdle? || step.DoServerUnavailable? || step.DoServerReply?
      || step.DoServerResult? {
      ServerHarmless(p, s, step);
    } else {
      CollectorHarmless(p, s, step);
    }
    hide Do, Good, Harmless, ShapeOk;
    LevelControl(p, s, Do(p, s, step));
  }

  /** The outcome of a step for the acknowledgement discipline. */
  predicate Carried(s: System, t: System) {
    && (Level(s) ==> Level(t))
    && (Generation(t.col) == Generation(s.col) && Stuck(s) ==> Stuck(t) && Delivered(t) == Delivered(s))
    && (Generation(t.col) == Generation(s.col) && Aligned(s) && t.col.client.Some? ==> Aligned(t))
  }

  lemma CarriedSame(s: System, t: System)
    requires Delivered(t) == Delivered(s) && Stored(t) == Stored(s) && Generation(t.col) == Generation(s.col)
    requires t.col.client.Some? ==> s.col.client.Some? && (Flying(t) <==> Flying(s))
    requires t.col.client.Some? && Flying(t) ==> t.toCollector[0] == s.toCollector[0]
    ensures Carried(s, t)
  {
  }

  lemma CarriedRestart(s: System, t: System)
    requires Delivered(t) == Stored(t) == 0 && Generation(t.col) != Generation(s.col)
             && (t.col.client.Some? ==> !Flying(t))
    ensures Carried(s, t)
  {
  }

  lemma CaptureCarries(p: Params, s: System, op: Q.Op)
    requires Good(p, s)
    ensures Carried(s, Capture(p, s, op))
  {
    hide Traceable, Core, Store, PublishedLog, PrefixOk, FilesOk, UpFrameOk, GrantsOk, SessionOk;
    var t := Capture(p, s, op);
    if CaptureMay(p, s.col, op) && Traceable(p, s.col) {
      QueueStepBounds(p, s.col, op);
      if Generation(t.col) == Generation(s.col) && Delivered(t) == Delivered(s) {
        CarriedSame(s, t);
      } else {
        NewGenerationUnknown(p, s, Generation(t.col));
        CarriedRestart(s, t);
      }
    } else {
      CarriedSame(s, t);
    }
  }

  /** The server has nothing of a generation that was never published, and acknowledges none of it. */
  lemma NewGenerationUnknown(p: Params, s: System, g: string)
    requires Good(p, s) && g !in s.col.history
    ensures Received(s.srv, g) == 0
    ensures forall i | 0 <= i < |s.toCollector| :: s.toCollector[i].Ack? ==> s.toCollector[i].generation != g
  {
    if s.srv.store.generation == "" {
      EmptyStore(p, s.srv, s.col.history);
    } else {
      StoreNamed(p, s.srv, s.col.history);
    }
    forall i | 0 <= i < |s.toCollector| ensures s.toCollector[i].Ack? ==> s.toCollector[i].generation != g {
      assert DownFrameOk(p, s.srv, s.toCollector[i]);
    }
  }

  lemma StoreNamed(p: Params, v: Server, history: map<string, seq<Message>>)
    requires ServerOk(p, v, history)
    ensures v.store.generation != "" ==> v.store.generation in history
  {
  }

  lemma OldAckCarries(p: Params, s: System, now: int)
    requires Good(p, s) && Receives(s) && s.toCollector[0].Ack? && s.toCollector[0].seqNo <= Delivered(s)
    requires s.toCollector[0].generation == Generation(s.col)
    ensures Carried(s, CollectorAck(p, s, now))
  {
    hide Traceable, Core, Store, PublishedLog, FilesOk, UpFrameOk, GrantsOk, QueueStep;
    assert DownFrameOk(p, s.srv, s.toCollector[0]);
  }

  lemma AcceptedCarries(s: System, t: System)
    requires Receives(s) && Flying(s) && s.toCollector[0].seqNo == Delivered(s) + 1 && ShapeOk(s)
    requires Delivered(t) == Delivered(s) + 1 && t.col.client == s.col.client && Generation(t.col) == Generation(s.col)
    requires t.srv == s.srv && t.toCollector == s.toCollector[1..]
    ensures Carried(s, t)
  {
  }

  lemma AckCarries(p: Params, s: System, now: int)
    requires Good(p, s)
    ensures Carried(s, CollectorAck(p, s, now))
  {
    hide Good, Carried, Traceable, FramesOk, CollectorOk, ServerOk, QueueStep, Q.Attempt;
    GoodParts(p, s);
    if Receives(s) && s.toCollector[0].Ack? {
      var ack := s.toCollector[0];
      if ack.generation != Generation(s.col) || ack.seqNo > Delivered(s) + 1 {
        BreakCarries(p, s);
      } else if ack.seqNo <= Delivered(s) {
        OldAckCarries(p, s, now);
      } else {
        NextAckSucceeds(p, s, now);
        AcceptedCarries(s, CollectorAck(p, s, now));
      }
    } else {
      CarriedSame(s, CollectorAck(p, s, now));
    }
  }

  lemma PullKeeps(s: System)
    requires ShapeOk(s) && CollectorPull(s) != ClientBreak(s)
    ensures var t := CollectorPull(s);
            && t.col == s.col && t.srv == s.srv && (Flying(t) <==> Flying(s))
               && (Flying(t) ==> t.toCollector[0] == s.toCollector[0])
  {
    hide ClientBreak, Q.Get, Q.Earliest;
  }

  lemma PullCarries(p: Params, s: System)
    requires Good(p, s)
    ensures Carried(s, CollectorPull(s))
  {
    hide Good, Traceable, Carried, ShapeOk, FramesOk, CollectorOk, ServerOk, Q.Get, Q.Earliest, ClientBreak;
    GoodParts(p, s);
    var t := CollectorPull(s);
    if t == ClientBreak(s) {
      BreakCarries(p, s);
    } else {
      PullKeeps(s);
      CarriedSame(s, t);
    }
  }

  lemma BreakCarries(p: Params, s: System)
    requires Good(p, s)
    ensures Carried(s, ClientBreak(s)) && Carried(s, ServerBreak(s))
  {
    hide Good, Aligned, Stuck, Level, Delivered, Stored;
    LevelControlStep(p, s, DoClientBreak);
    LevelControlStep(p, s, DoServerBreak);
    assert ClientBreak(s) == Do(p, s, DoClientBreak) && ServerBreak(s) == Do(p, s, DoServerBreak);
  }

  lemma ResetCarries(p: Params, s: System)
    requires Good(p, s) && Receives(s) && s.toCollector[0].Repair? && Q.ResetForSnapshot(s.col.queue).Success?
    requires s.col.ctl.pausedFor == s.toCollector[0].request && !s.col.ctl.cancel
    ensures Carried(s, CollectorRepair(p, s))
  {
    hide Traceable, Core, Store, PublishedLog, FilesOk, UpFrameOk, GrantsOk;
    RestartState(p.queue, s.col.queue, Q.OpReset);
    CountersOrdered(p, s);
    if s.srv.store.generation == "" {
      EmptyStore(p, s.srv, s.col.history);
    }
  }

  lemma RepairCarries(p: Params, s: System)
    requires Good(p, s)
    ensures Carried(s, CollectorRepair(p, s))
  {
    hide Good, Traceable, Carried, ShapeOk;
    GoodParts(p, s);
    if Receives(s) && s.toCollector[0].Repair? {
      var c := s.col.ctl;
      if c.pausedFor != s.toCollector[0].request || c.cancel || Q.ResetForSnapshot(s.col.queue).Failure? {
        BreakCarries(p, s);
      } else {
        ResetCarries(p, s);
      }
    } else {
      CarriedSame(s, CollectorRepair(p, s));
    }
  }

  lemma HelloKeeps(s: System)
    requires ShapeOk(s) && ServerHello(s) != ServerBreak(s)
    ensures var t := ServerHello(s);
            && Delivered(t) == Delivered(s) && Stored(t) == Stored(s) && t.col == s.col
            && (Flying(t) <==> Flying(s)) && (Flying(t) ==> t.toCollector[0] == s.toCollector[0])
  {
  }

  lemma HelloCarries(p: Params, s: System)
    requires Good(p, s)
    ensures Carried(s, ServerHello(s))
  {
    hide Good, Carried, ShapeOk, FramesOk, CollectorOk, ServerOk, Traceable;
    GoodParts(p, s);
    var t := ServerHello(s);
    if t == ServerBreak(s) {
      BreakCarries(p, s);
    } else {
      HelloKeeps(s);
      CarriedSame(s, t);
    }
  }

  lemma CarriedStored(s: System, t: System)
    requires t.col == s.col && s.toCollector == [] && Delivered(s) <= Stored(s)
    requires |t.toCollector| == 2 && t.toCollector[0].Ack? && t.toCollector[0].generation == t.srv.store.generation
    requires t.toCollector[0].seqNo == t.srv.store.received
    requires if t.srv.store.generation == Generation(s.col) then Stored(t) == Stored(s) + 1 else Stored(t) == Stored(s)
    ensures Carried(s, t)
  {
  }

  lemma EventCarries(p: Params, s: System, commits: bool)
    requires Good(p, s)
    ensures Carried(s, ServerEvent(p, s, commits))
  {
    hide Traceable, Core, Store, PublishedLog, PrefixOk, FilesOk, UpFrameOk, GrantsOk, SessionOk;
    if Serves(s) && s.toServer[0].Event? {
      var session, m, t := s.srv.session.value, s.toServer[0].message, ServerEvent(p, s, commits);
      assert UpFrameOk(s, s.toServer[0]);
      if !EnvelopeMatches(p, session, m) || Store(p.target, s.srv.store, m).Failure? {
        BreakCarries(p, s);
      } else if !commits {
        AbortCarries(p, s);
      } else {
        CommitCarries(p, s, m);
      }
    } else {
      CarriedSame(s, ServerEvent(p, s, commits));
    }
  }

  lemma AbortKeeps(p: Params, s: System)
    ensures var t := ServerEvent(p, s, false);
            t.col == s.col && t.toCollector == s.toCollector && Stored(t) == Stored(s)
  {
    hide Store, Offer;
  }

  lemma AbortCarries(p: Params, s: System)
    requires Good(p, s)
    ensures Carried(s, ServerEvent(p, s, false))
  {
    hide Good, Store, Carried, Traceable, ServerOk, CollectorOk, FramesOk, ShapeOk;
    GoodParts(p, s);
    var t := ServerEvent(p, s, false);
    if t == s || t == ServerBreak(s) {
      BreakCarries(p, s);
      CarriedSame(s, s);
    } else {
      AbortKeeps(p, s);
      CarriedSame(s, t);
    }
  }

  lemma CommitCarries(p: Params, s: System, m: Message)
    requires Good(p, s) && Serves(s) && s.toServer[0] == Event(m) && EnvelopeMatches(p, s.srv.session.value, m)
    requires Store(p.target, s.srv.store, m).Success?
    ensures Carried(s, ServerEvent(p, s, true))
  {
    hide Traceable, Core, Effect, Store, Accept, QueueStep, PublishedLog, PrefixOk, FilesOk, GrantsOk;
    var t := ServerEvent(p, s, true);
    assert UpFrameOk(s, s.toServer[0]);
    assert s.toCollector == [];
    if m.generation == s.srv.store.generation {
      StoreIsAccept(p.target, s.srv.store, m);
    } else {
      StoreFirst(p, s.srv, s.col.history, m);
      if s.srv.store.generation == "" {
        EmptyStore(p, s.srv, s.col.history);
      }
    }
    hide Store, Accept, Core, Effect, Traceable;
    CarriedStored(s, t);
  }

  /** Every step carries the discipline on: an aligned session stays aligned until the stream breaks on the
      collector's side, and once the server is ahead nothing in that generation is ever acknowledged again. */
  lemma StepCarries(p: Params, s: System, step: Step)
    requires Good(p, s)
    ensures Carried(s, Do(p, s, step))
  {
    hide Traceable, Core, Effect, Store, Accept, QueueStep, PublishedLog, PrefixOk, FilesOk, UpFrameOk, GrantsOk,
         SessionOk;
    if Control(step) {
      LevelControlStep(p, s, step);
      ControlKeepsGeneration(p, s, step);
      hide Do, Good;
    } else {
      match step
      case DoCapture(op) => CaptureCarries(p, s, op);
      case DoConnect => ConnectCarries(p, s);
      case DoCollectorAck(now) => AckCarries(p, s, now);
      case DoCollectorPull => PullCarries(p, s);
      case DoCollectorRepair => RepairCarries(p, s);
      case DoServerHello => HelloCarries(p, s);
      case DoServerEvent(commits) => EventCarries(p, s, commits);
      case DoServerResult(_) => GrantCarries(p, s);
    }
  }

  lemma ControlKeepsGeneration(p: Params, s: System, step: Step)
    requires Control(step)
    ensures Generation(Do(p, s, step).col) == Generation(s.col)
  {
    hide Traceable, Store, QueueStep;
    if step.DoServerBreak? || step.DoServerIdle? || step.DoServerUnavailable? || step.DoServerReply?
      || step.DoServerResult? {
      ServerHarmless(p, s, step);
    } else {
      CollectorHarmless(p, s, step);
    }
  }

  lemma ConnectCarries(p: Params, s: System)
    requires Good(p, s)
    ensures Carried(s, Connect(s))
  {
    hide Core, Store, PublishedLog, PrefixOk, FilesOk, UpFrameOk, GrantsOk, SessionOk;
  }

  lemma GrantCarries(p: Params, s: System)
    requires Good(p, s)
    ensures Carried(s, ServerResult(s, Grant))
  {
    hide Traceable, Core, Effect, Store, Accept, QueueStep, PublishedLog, PrefixOk, FilesOk, UpFrameOk, GrantsOk,
         SessionOk;
    BreakCarries(p, s);
    var t := ServerResult(s, Grant);
    assert ShapeOk(s);
    hide Good, Carried;
    if t != ServerBreak(s) {
      CarriedSame(s, t);
    }
  }

  /** In every run the collector is at rest, aligned with the server, or stuck behind it. */
  lemma {:induction false} AlwaysLevel(p: Params, s: System, steps: seq<Step>)
    requires Initial(p, s)
    ensures Level(Run(p, s, steps))
    decreases |steps|
  {
    hide Traceable, Core, Store, QueueStep, PublishedLog, PrefixOk, FilesOk, UpFrameOk, GrantsOk, SessionOk;
    if steps != [] {
      var before := Run(p, s, steps[..|steps| - 1]);
      AlwaysLevel(p, s, steps[..|steps| - 1]);
      InitialGood(p, s);
      RunGood(p, s, steps[..|steps| - 1]);
      StepCarries(p, before, steps[|steps| - 1]);
    }
  }

  ghost predicate KeepsGeneration(p: Params, s: System, steps: seq<Step>) {
    steps != [] ==>
      && KeepsGeneration(p, s, steps[..|steps| - 1])
      && Generation(Run(p, s, steps).col) == Generation(Run(p, s, steps[..|steps| - 1]).col)
  }

  /** Once the server is ahead, no later step of that generation ever acknowledges anything. */
  lemma {:induction false} StuckForever(p: Params, s: System, steps: seq<Step>)
    requires Good(p, s) && Stuck(s) && KeepsGeneration(p, s, steps)
    ensures Stuck(Run(p, s, steps)) && Delivered(Run(p, s, steps)) == Delivered(s)
    decreases |steps|
  {
    hide Traceable, Core, Effect, Store, Accept, QueueStep, PublishedLog, PrefixOk, FilesOk, UpFrameOk, GrantsOk,
         SessionOk;
    if steps != [] {
      var front, step := steps[..|steps| - 1], steps[|steps| - 1];
      StuckForever(p, s, front);
      RunGood(p, s, front);
      StepCarries(p, Run(p, s, front), step);
      hide Good, Do, Stuck;
    }
  }

  // ---------------------------------------------------------------- generations

  /** In every run the stored generation changes at most as often as repairs were authorized. */
  lemma SwitchesAreAuthorized(p: Params, s: System, steps: seq<Step>)
    requires Initial(p, s)
    ensures Run(p, s, steps).srv.switched <= Run(p, s, steps).srv.granted
  {
    hide Traceable, Core, Store, QueueStep, PublishedLog, PrefixOk, FilesOk, UpFrameOk, SessionOk;
    InitialGood(p, s);
    RunGood(p, s, steps);
  }

  /** A change of generation stores sequence 1, snapshot_begin, starts from emptied staging and leaves the
      target tables and files as they were. */
  lemma SwitchStartsOver(p: Params, s: System)
    requires Good(p, s) && ServerEvent(p, s, true).srv.switched != s.srv.switched
    ensures var t := ServerEvent(p, s, true).srv;
            && t.switched == s.srv.switched + 1
            && |t.log| == 1 && t.log[0].seqNo == 1 && t.log[0].kind.SnapshotBegin?
            && t.store.generation == t.log[0].generation
            && t.store.inbox == map[] && t.store.snapshotRows == map[] && t.store.schemaStage == map[]
            && t.store.hashes.Keys == {Staging.Key(t.store.generation, 1, 0)}
            && t.store.applied == 0 && t.store.tables == s.srv.store.tables && t.store.files == s.srv.store.files
  {
    hide Traceable, Core, Effect, Store, Accept, QueueStep, PublishedLog, PrefixOk, FilesOk, GrantsOk, SessionOk;
    var m := s.toServer[0].message;
    assert UpFrameOk(s, s.toServer[0]);
    SwitchClears(p.target, s.srv.store, m);
    StoreFirst(p, s.srv, s.col.history, m);
    hide Good, Store, Accept, Core, Effect, Traceable, ServerOk, Offer;
  }

  /** A repair whose authorization was spent on a session that ended before it stored anything. */
  predicate Stranded(s: System) {
    && s.srv.session.None? && !s.srv.store.repairAuthorized
    && s.srv.store.generation != "" && Generation(s.col) != s.srv.store.generation
    && (forall f | f in s.toServer :: f.Hello? ==> f.generation != s.srv.store.generation)
  }

  lemma StrandedStep(p: Params, s: System, step: Step)
    requires Good(p, s) && Stranded(s)
    ensures Stranded(Do(p, s, step)) && Do(p, s, step).srv == s.srv
  {
    hide Traceable, Core, Store, QueueStep, PublishedLog, PrefixOk, FilesOk, UpFrameOk, GrantsOk, SessionOk;
    match step
    case DoCapture(op) => StrandedCapture(p, s, op);
    case DoCollectorRepair => StrandedRepair(p, s);
    case DoCollectorAck(now) => StrandedAck(p, s, now);
    case DoConnect => StrandedConnect(s);
    case DoCollectorPull => StrandedPull(s);
    case _ => StrandedElsewhere(p, s, step);
  }

  lemma StrandedConnect(s: System)
    requires Stranded(s)
    ensures Stranded(Connect(s)) && Connect(s).srv == s.srv
  {
  }

  lemma StrandedPull(s: System)
    requires Stranded(s)
    ensures Stranded(CollectorPull(s)) && CollectorPull(s).srv == s.srv
  {
  }

  /** Without a session the server does nothing but refuse. */
  lemma StrandedElsewhere(p: Params, s: System, step: Step)
    requires Stranded(s) && !(step.DoCapture? || step.DoCollectorRepair? || step.DoCollectorAck? || step.DoConnect?
             || step.DoCollectorPull?)
    ensures Stranded(Do(p, s, step)) && Do(p, s, step).srv == s.srv
  {
    hide Traceable, Core, Effect, Store, Accept, QueueStep, PublishedLog, PrefixOk, FilesOk, UpFrameOk, GrantsOk,
         SessionOk;
    if Control(step) && !(step.DoServerBreak? || step.DoServerIdle? || step.DoServerUnavailable? || step.DoServerReply?
      || step.DoServerResult?) {
      CollectorHarmless(p, s, step);
      hide Do;
    }
  }

  lemma StrandedCapture(p: Params, s: System, op: Q.Op)
    requires Good(p, s) && Stranded(s)
    ensures Stranded(Capture(p, s, op))
  {
    hide Traceable, Core, Store, QueueStep, PublishedLog, PrefixOk, FilesOk, UpFrameOk, GrantsOk, SessionOk;
    if CaptureMay(p, s.col, op) && Traceable(p, s.col) {
      QueueStepBounds(p, s.col, op);
      StoreNamed(p, s.srv, s.col.history);
    }
  }

  lemma StrandedRepair(p: Params, s: System)
    requires Good(p, s) && Stranded(s)
    ensures Stranded(CollectorRepair(p, s)) && CollectorRepair(p, s).srv == s.srv
  {
    hide Traceable, Core, Store, PublishedLog, PrefixOk, FilesOk, UpFrameOk, GrantsOk, SessionOk;
    if Receives(s) && s.toCollector[0].Repair? && Q.ResetForSnapshot(s.col.queue).Success? {
      RestartState(p.queue, s.col.queue, Q.OpReset);
    }
  }

  lemma StrandedAck(p: Params, s: System, now: int)
    requires Good(p, s) && Stranded(s)
    ensures Stranded(CollectorAck(p, s, now)) && CollectorAck(p, s, now).srv == s.srv
  {
    hide Traceable, Core, Store, QueueStep, PublishedLog, PrefixOk, FilesOk, UpFrameOk, GrantsOk, SessionOk;
    if Receives(s) && s.toCollector[0].Ack? {
      assert DownFrameOk(p, s.srv, s.toCollector[0]);
    }
  }

  /** A stranded repair is permanent: no sequence of steps ever changes the server again. */
  lemma {:induction false} StrandedForever(p: Params, s: System, steps: seq<Step>)
    requires Good(p, s) && Stranded(s)
    ensures Stranded(Run(p, s, steps)) && Run(p, s, steps).srv == s.srv
    decreases |steps|
  {
    hide Traceable, Core, Store, QueueStep, PublishedLog, PrefixOk, FilesOk, UpFrameOk, GrantsOk, SessionOk;
    if steps != [] {
      var n := |steps| - 1;
      StrandedForever(p, s, steps[..n]);
      RunGood(p, s, steps[..n]);
      StrandedStep(p, Run(p, s, steps[..n]), steps[n]);
    }
  }
}
