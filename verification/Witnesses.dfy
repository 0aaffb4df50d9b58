/** Concrete runs from the initial state to the states the pipeline should not be in, so that none of the
    conditions under which it stays out of them is empty. */
module Witnesses {
  import opened Event
  import Q = Queue
  import opened Target
  import opened Replay
  import opened System
  import opened SystemInv
  import opened Guarantees
  import opened Quiescence
  import B = Barrier

  // ---------------------------------------------------------------- building runs

  function Begun(p: Params, generation: string): Q.State {
    Q.EmptyState.(generation := generation, sourceId := p.source)
  }

  const OpeningDraft := Draft(SnapshotBegin)
  const ClosingDraft := Draft(SnapshotEnd)

  /** The two messages of an empty snapshot as the queue stamps them. */
  function First(p: Params): Message {
    Q.Stamp(Q.Reset(Begun(p, "a")), OpeningDraft, 0)
  }

  function Second(p: Params): Message {
    Q.Stamp(Q.Reset(Begun(p, "a")).(nextSeq := 1), ClosingDraft, 0)
  }

  /** The queue has room for them. */
  predicate HasRoom(p: Params) {
    p.queue.encodedSize(First(p)) + p.queue.encodedSize(Second(p)) <= p.queue.maxBytes
  }

  function Free(p: Params): nat {
    p.queue.reserve + p.queue.encodedSize(First(p)) * 4 + p.queue.encodedSize(Second(p)) * 4
  }

  lemma InitialFacts(p: Params, s: System)
    requires Initial(p, s)
    ensures Good(p, s) && Run(p, s, []) == s && s.col.ctl == Controller(true, true, 0, "") && s.col.client.None?
    ensures s.col.history == map[] && s.col.queue == Q.Durable(Q.EmptyState, map[])
    ensures s.srv.session.None? && s.srv.store.generation == "" && s.srv.store.received == 0
            && !s.srv.store.repairAuthorized
    ensures s.toServer == [] && s.toCollector == []
  {
    InitialGood(p, s);
  }

  /** One more step. */
  lemma Goes(p: Params, s: System, steps: seq<Step>, step: Step)
    requires Initial(p, s)
    ensures Run(p, s, steps + [step]) == Do(p, Run(p, s, steps), step) && Good(p, Run(p, s, steps + [step]))
  {
    hide Good, Do;
    RunAppends(p, s, steps, step);
    InitialGood(p, s);
    RunGood(p, s, steps + [step]);
  }

  // ---------------------------------------------------------------- single steps

  lemma Initializes(p: Params, s: System, g: string)
    requires Good(p, s) && s.col.ctl.current && !s.col.queue.state.phase.Stream? && g != "" && g !in s.col.history
    ensures var t := Do(p, s, DoCapture(Q.OpInitialize(Begun(p, g))));
            && t == s.(col := s.col.(queue := Q.Durable(Q.Reset(Begun(p, g)), map[]),
                                     history := s.col.history[g := []]))
  {
    hide ServerOk, SessionOk, FramesOk, GrantsOk, Q.TracedValid;
  }

  lemma Connects(s: System)
    requires s.col.client.None? && s.srv.session.None? && Generation(s.col) != ""
    ensures Connect(s) == s.(col := s.col.(client := Some(Client("", ""))), toServer := [Hello(Generation(s.col))],
                             toCollector := [])
  {
  }

  lemma Opens(s: System, g: string)
    requires s.srv.session.None? && s.toServer == [Hello(g)] && s.toCollector == []
    requires s.srv.store.generation in {"", g}
    ensures ServerHello(s) == s.(srv := s.srv.(session := Some(Session(g, s.srv.store.received + 1, false, Serving))),
                                 toServer := [], toCollector := [Pull(g, s.srv.store.received + 1)])
  {
  }

  /** The collector has nothing more: the server starts a reconciliation. */
  lemma StartsReconciling(p: Params, s: System, g: string, n: nat)
    requires s.col.client == Some(Client("", "")) && s.toServer == [] && s.toCollector == [Pull(g, n)]
             && Generation(s.col) == g
    requires Q.Earliest(s.col.queue.state) <= n && s.col.queue.state.readySeq < n
    requires s.srv.session.Some? && s.srv.session.value.mode.Serving? && !s.srv.session.value.openBatch
    ensures var t := ServerIdle(CollectorPull(s), Some("r"));
            t == s.(srv := s.srv.(session := Some(s.srv.session.value.(mode := Comparing("r")))),
                    toCollector := [Reconcile("r")])
  {
  }

  lemma Pauses(s: System)
    requires s.col.client == Some(Client("", "")) && s.toCollector == [Reconcile("r")]
             && s.col.ctl == Controller(true, true, 0, "")
    ensures CollectorReconcile(s)
         == s.(col := s.col.(client := Some(Client("r", "r")), ctl := Controller(false, true, 0, "r")),
               toCollector := [])
  {
  }

  // ---------------------------------------------------------------- two captures

  /** A run with two captures alive: a stop that returns on its context, then a break of the stream. */
  lemma TwoCapturesReachable(p: Params, s: System) returns (steps: seq<Step>)
    requires Initial(p, s)
    ensures Alive(Run(p, s, steps)) == 2
  {
    hide Good, Initial, Do;
    var t;
    steps, t := Reconciling(p, s);
    Goes(p, s, steps, DoStopTimeout);
    steps := steps + [DoStopTimeout];
    t := TimesOut(p, t);
    Goes(p, s, steps, DoClientBreak);
    steps := steps + [DoClientBreak];
    Restarts(p, t);
  }

  lemma TimesOut(p: Params, s: System) returns (t: System)
    requires s.col.client == Some(Client("r", "r"))
    ensures t == Do(p, s, DoStopTimeout) && t.col == s.col.(client := Some(Client("r", "")))
  {
    t := Do(p, s, DoStopTimeout);
  }

  lemma Restarts(p: Params, s: System)
    requires s.col.client == Some(Client("r", "")) && s.col.ctl == Controller(false, true, 0, "r")
    ensures Alive(Do(p, s, DoClientBreak)) == 2
  {
  }

  /** A run to the point where a stop waits for its capture, with an empty queue. */
  lemma Reconciling(p: Params, s: System) returns (steps: seq<Step>, t: System)
    requires Initial(p, s)
    ensures t == Run(p, s, steps) && t.col.client == Some(Client("r", "r"))
            && t.col.ctl == Controller(false, true, 0, "r")
  {
    hide Good, Initial, Run, Capture, Connect, ServerHello, CollectorPull, ServerIdle, CollectorReconcile, CollectorAck,
         ServerEvent;
    InitialFacts(p, s);
    steps, t := [], s;
    Goes(p, s, steps, DoCapture(Q.OpInitialize(Begun(p, "a"))));
    Initializes(p, t, "a");
    steps, t := steps + [DoCapture(Q.OpInitialize(Begun(p, "a")))], Do(p, t, DoCapture(Q.OpInitialize(Begun(p, "a"))));
    assert Generation(t.col) == "a";
    Goes(p, s, steps, DoConnect);
    Connects(t);
    steps, t := steps + [DoConnect], Do(p, t, DoConnect);
    Goes(p, s, steps, DoServerHello);
    Opens(t, "a");
    steps, t := steps + [DoServerHello], Do(p, t, DoServerHello);
    Goes(p, s, steps, DoCollectorPull);
    Goes(p, s, steps + [DoCollectorPull], DoServerIdle(Some("r")));
    StartsReconciling(p, t, "a", 1);
    steps, t := steps + [DoCollectorPull] + [DoServerIdle(Some("r"))],
      Do(p, Do(p, t, DoCollectorPull), DoServerIdle(Some("r")));
    Goes(p, s, steps, DoCollectorReconcile);
    Pauses(t);
    steps, t := steps + [DoCollectorReconcile], Do(p, t, DoCollectorReconcile);
  }

  // ---------------------------------------------------------------- an empty snapshot, published

  predicate Shipped(p: Params, c: Collector, d: nat) {
    var st := c.queue.state;
    && st.generation == "a" && st.phase.Stream? && st.nextSeq == st.readySeq == 2 && st.deliveredSeq == d
    && c.history == map["a" := [First(p), Second(p)]] && c.ctl == Controller(true, true, 0, "")
  }

  function Half(p: Params): Q.Durable {
    Q.Durable(Q.Reset(Begun(p, "a")).(nextSeq := 1, bytes := p.queue.encodedSize(First(p))), map[1 := First(p)])
  }

  function Whole(p: Params): Q.Durable {
    var bytes := p.queue.encodedSize(First(p)) + p.queue.encodedSize(Second(p));
    Q.Durable(Q.Reset(Begun(p, "a")).(nextSeq := 2, bytes := bytes), map[1 := First(p), 2 := Second(p)])
  }

  lemma AppendsFirst(p: Params, s: System)
    requires Good(p, s) && HasRoom(p) && s.col.ctl.current && s.col.history == map["a" := []]
    requires s.col.queue == Q.Durable(Q.Reset(Begun(p, "a")), map[])
    ensures Do(p, s, DoCapture(Q.OpAppend(OpeningDraft, Free(p), 0))) == s.(col := s.col.(queue := Half(p)))
  {
    hide ServerOk, SessionOk, FramesOk, GrantsOk, Q.TracedValid;
    var t := Do(p, s, DoCapture(Q.OpAppend(OpeningDraft, Free(p), 0)));
    assert t.col.history == s.col.history;
  }

  lemma AppendsSecond(p: Params, s: System)
    requires Good(p, s) && HasRoom(p) && s.col.ctl.current && s.col.history == map["a" := []] && s.col.queue == Half(p)
    ensures Do(p, s, DoCapture(Q.OpAppend(ClosingDraft, Free(p), 0))) == s.(col := s.col.(queue := Whole(p)))
  {
    hide ServerOk, SessionOk, FramesOk, GrantsOk, Q.TracedValid;
    var t := Do(p, s, DoCapture(Q.OpAppend(ClosingDraft, Free(p), 0)));
    assert Q.Stamp(Half(p).state, ClosingDraft, 0) == Second(p);
    assert t.col.history == s.col.history;
  }

  lemma Seals(p: Params, s: System)
    requires Good(p, s) && s.col.ctl == Controller(true, true, 0, "") && s.col.history == map["a" := []]
             && s.col.queue == Whole(p)
    ensures var t := Do(p, s, DoCapture(Q.OpPublish("l", true, "")));
            Shipped(p, t.col, 0) && t == s.(col := s.col.(queue := t.col.queue, history := t.col.history))
  {
    hide ServerOk, SessionOk, FramesOk, GrantsOk, Q.TracedValid, First, Second, PublishedLog;
    var t := Do(p, s, DoCapture(Q.OpPublish("l", true, "")));
    var slice := Q.Slice(Whole(p).items, 0, 2);
    assert slice == [First(p), Second(p)];
    assert [] + slice == slice;
  }

  /** A run to a published snapshot that nobody has fetched. */
  lemma Publishing(p: Params, s: System) returns (steps: seq<Step>, t: System)
    requires Initial(p, s) && HasRoom(p)
    ensures t == Run(p, s, steps) && Good(p, t) && Shipped(p, t.col, 0) && t == s.(col := t.col) && t.col.client.None?
  {
    hide Good, Initial, Run, HasRoom, Half, Whole, Do, Q.Reset;
    InitialFacts(p, s);
    steps, t := [], s;
    Goes(p, s, steps, DoCapture(Q.OpInitialize(Begun(p, "a"))));
    Initializes(p, t, "a");
    steps, t := steps + [DoCapture(Q.OpInitialize(Begun(p, "a")))], Do(p, t, DoCapture(Q.OpInitialize(Begun(p, "a"))));
    Goes(p, s, steps, DoCapture(Q.OpAppend(OpeningDraft, Free(p), 0)));
    AppendsFirst(p, t);
    steps, t := steps + [DoCapture(Q.OpAppend(OpeningDraft, Free(p), 0))],
      Do(p, t, DoCapture(Q.OpAppend(OpeningDraft, Free(p), 0)));
    Goes(p, s, steps, DoCapture(Q.OpAppend(ClosingDraft, Free(p), 0)));
    AppendsSecond(p, t);
    steps, t := steps + [DoCapture(Q.OpAppend(ClosingDraft, Free(p), 0))],
      Do(p, t, DoCapture(Q.OpAppend(ClosingDraft, Free(p), 0)));
    Goes(p, s, steps, DoCapture(Q.OpPublish("l", true, "")));
    Seals(p, t);
    steps, t := steps + [DoCapture(Q.OpPublish("l", true, ""))], Do(p, t, DoCapture(Q.OpPublish("l", true, "")));
  }

  // ---------------------------------------------------------------- fetching it

  /** In an open session the next message is asked for. */
  predicate Asking(p: Params, s: System, n: nat)
    requires n >= 1
  {
    && Shipped(p, s.col, n - 1) && s.col.client == Some(Client("", "")) && s.toServer == []
       && s.toCollector == [Pull("a", n)]
    && s.srv.session == Some(Session("a", n, n == 2, Serving)) && !s.srv.store.repairAuthorized
    && s.srv.store.generation == (if n == 1 then "" else "a") && s.srv.store.received == n - 1
  }

  /** The next message has been stored and its acknowledgement is in flight. */
  predicate Acking(p: Params, s: System, n: nat)
    requires n >= 1
  {
    && Shipped(p, s.col, n - 1) && s.col.client == Some(Client("", "")) && s.toServer == []
    && s.toCollector == [Ack("a", n, MessageId(p.source, "a", n)), Pull("a", n + 1)]
    && s.srv.session == Some(Session("a", n + 1, n == 1, Serving)) && !s.srv.store.repairAuthorized
    && s.srv.store.generation == "a" && s.srv.store.received == n
  }

  function Nth(p: Params, n: nat): Message {
    if n == 1 then First(p) else Second(p)
  }

  lemma Fetches(p: Params, s: System, n: nat)
    requires 1 <= n <= 2 && Good(p, s) && Asking(p, s, n)
    ensures CollectorPull(s) == s.(toServer := [Event(Nth(p, n))], toCollector := [])
  {
    hide ServerOk, SessionOk, FramesOk, GrantsOk, First, Second, Q.Accounted;
  }

  lemma StoresFirst(p: Params, s: System)
    requires Good(p, s) && Asking(p, s, 1)
    ensures var t := ServerEvent(p, s.(toServer := [Event(First(p))], toCollector := []), true);
            Acking(p, t, 1) && B.Follows(p.target, t.srv.store, B.InSnapshot("", {}))
  {
    hide Good, Store, B.Follows, Q.Stamp;
    var m := First(p);
    FirstIs(p);
    B.FirstAdmitted(p.target, s.srv.store, m);
    StartKeepsAuthorization(p.target, s.srv.store, m);
  }

  lemma FirstIs(p: Params)
    ensures var m := First(p);
            && m.kind.SnapshotBegin? && m.tables == [] && m.schemaVersion == "" && m.seqNo == 1 && m.generation == "a"
            && m.sourceId == p.source && m.id == MessageId(p.source, "a", 1)
    ensures var m := Second(p);
            && m.kind.SnapshotEnd? && m.schemaVersion == "" && m.seqNo == 2 && m.generation == "a" && m.schema.None?
            && m.sourceId == p.source && m.id == MessageId(p.source, "a", 2)
  {
  }

  lemma StartKeepsAuthorization(cfg: Config, db: Database, m: Message)
    requires Store(cfg, db, m).Success?
    ensures Store(cfg, db, m).value.repairAuthorized == db.repairAuthorized
  {
  }

  lemma EndStores(cfg: Config, db: Database, m: Message)
    requires m.kind.SnapshotEnd? && m.schemaVersion == "" && m.generation == db.generation
             && m.seqNo == db.received + 1 == 2
    requires db.phase.Snapshot? && db.schemaVersion == "" && db.pendingSchema == ""
             && InOrder(db.snapshotRows, m.generation) == []
    ensures Store(cfg, db, m).Success?
    ensures Store(cfg, db, m).value.generation == db.generation && Store(cfg, db, m).value.received == 2
  {
    hide InOrder;
    assert AsInserts([]) == [];
  }

  lemma StoresSecond(p: Params, s: System)
    requires Good(p, s) && Asking(p, s, 2) && B.Follows(p.target, s.srv.store, B.InSnapshot("", {}))
             && s.srv.log == [First(p)]
    ensures Acking(p, ServerEvent(p, s.(toServer := [Event(Second(p))], toCollector := []), true), 2)
  {
    hide Store, Q.Stamp, CollectorOk, SessionOk, FramesOk, GrantsOk, First, Second;
    FirstIs(p);
    assert Front(s.srv.log) == [];
    EndStores(p.target, s.srv.store, Second(p));
    StartKeepsAuthorization(p.target, s.srv.store, Second(p));
  }

  lemma Acknowledges(p: Params, s: System, n: nat)
    requires 1 <= n <= 2 && Good(p, s) && Acking(p, s, n)
    ensures var t := CollectorAck(p, s, 0);
            && Shipped(p, t.col, n) && t.col.client == s.col.client
            && t == s.(col := t.col, toCollector := [Pull("a", n + 1)])
  {
    hide ServerOk, SessionOk, FramesOk, GrantsOk, First, Second, Q.Accounted, Q.FirstKept;
    NextAckSucceeds(p, s, 0);
    var t := CollectorAck(p, s, 0);
    assert t.col.history == s.col.history;
  }

  /** A run to the point where the first acknowledgement is in flight. */
  lemma Fetching(p: Params, s: System) returns (steps: seq<Step>, t: System)
    requires Initial(p, s) && HasRoom(p)
    ensures t == Run(p, s, steps) && Good(p, t) && Acking(p, t, 1)
    ensures B.Follows(p.target, t.srv.store, B.InSnapshot("", {})) && t.srv.log == [First(p)]
  {
    hide Good, Initial, Run, HasRoom, B.Follows, First, Second, Store, Capture, Connect, ServerHello, CollectorPull,
         ServerIdle, CollectorReconcile, CollectorAck, ServerEvent;
    InitialFacts(p, s);
    steps, t := Publishing(p, s);
    Goes(p, s, steps, DoConnect);
    Connects(t);
    steps, t := steps + [DoConnect], Do(p, t, DoConnect);
    Goes(p, s, steps, DoServerHello);
    Opens(t, "a");
    steps, t := steps + [DoServerHello], Do(p, t, DoServerHello);
    assert Asking(p, t, 1);
    Goes(p, s, steps, DoCollectorPull);
    Goes(p, s, steps + [DoCollectorPull], DoServerEvent(true));
    Fetches(p, t, 1);
    StoresFirst(p, t);
    steps, t := steps + [DoCollectorPull] + [DoServerEvent(true)],
      Do(p, Do(p, t, DoCollectorPull), DoServerEvent(true));
    StoredOne(p, t);
  }

  lemma StoredOne(p: Params, s: System)
    requires Good(p, s) && Acking(p, s, 1)
    ensures s.srv.log == [First(p)]
  {
    hide CollectorOk, SessionOk, FramesOk, GrantsOk, First, Second;
    assert |s.srv.log| == 1;
  }

  /** A run after which no acknowledgement of the generation is ever accepted again. */
  lemma StuckReachable(p: Params, s: System) returns (steps: seq<Step>)
    requires Initial(p, s) && HasRoom(p)
    ensures Stuck(Run(p, s, steps))
  {
    hide Good, Initial, Run, HasRoom, B.Follows, First, Second;
    var t;
    steps, t := Fetching(p, s);
    Goes(p, s, steps, DoClientBreak);
    steps := steps + [DoClientBreak];
  }

  // ---------------------------------------------------------------- a stranded repair

  /** A run to the point where the second acknowledgement is in flight. */
  lemma FetchingAll(p: Params, s: System) returns (steps: seq<Step>, t: System)
    requires Initial(p, s) && HasRoom(p)
    ensures t == Run(p, s, steps) && Good(p, t) && Acking(p, t, 2)
  {
    hide Good, Initial, Run, HasRoom, B.Follows, First, Second, Store, CollectorAck, CollectorPull, ServerEvent;
    steps, t := Fetching(p, s);
    Goes(p, s, steps, DoCollectorAck(0));
    Acknowledges(p, t, 1);
    steps, t := steps + [DoCollectorAck(0)], Do(p, t, DoCollectorAck(0));
    assert Asking(p, t, 2);
    Goes(p, s, steps, DoCollectorPull);
    Goes(p, s, steps + [DoCollectorPull], DoServerEvent(true));
    Fetches(p, t, 2);
    StoresSecond(p, t);
    steps, t := steps + [DoCollectorPull] + [DoServerEvent(true)],
      Do(p, Do(p, t, DoCollectorPull), DoServerEvent(true));
  }

  /** A run to the point where everything is delivered and nothing is left to ask for. */
  lemma Delivering(p: Params, s: System) returns (steps: seq<Step>, t: System)
    requires Initial(p, s) && HasRoom(p)
    ensures t == Run(p, s, steps) && Good(p, t) && Shipped(p, t.col, 2) && t.col.client == Some(Client("", ""))
    ensures t.toServer == [] && t.toCollector == [Pull("a", 3)]
            && t.srv.session == Some(Session("a", 3, false, Serving))
    ensures t.srv.store.generation == "a" && !t.srv.store.repairAuthorized
  {
    hide Good, Initial, Run, HasRoom, First, Second, CollectorAck;
    steps, t := FetchingAll(p, s);
    Goes(p, s, steps, DoCollectorAck(0));
    Acknowledges(p, t, 2);
    steps, t := steps + [DoCollectorAck(0)], Do(p, t, DoCollectorAck(0));
  }

  lemma Earliest3(p: Params, s: System)
    requires Good(p, s) && Shipped(p, s.col, 2)
    ensures Q.Earliest(s.col.queue.state) <= 3
  {
    hide ServerOk, SessionOk, FramesOk, GrantsOk, First, Second;
  }

  /** The capture stops, the queue is drained, the server grants a repair. */
  lemma Grants(p: Params, s: System)
    requires Shipped(p, s.col.(ctl := Controller(true, true, 0, "")), 2) && s.col.client == Some(Client("r", "r"))
    requires s.col.ctl == Controller(false, true, 0, "r") && s.toServer == [] && s.toCollector == []
    requires s.srv.session.Some? && s.srv.session.value.mode == Comparing("r")
    ensures var t := ServerResult(FinishStop(CaptureExit(s, false)), Grant);
            t == s.(col := s.col.(client := Some(Client("r", "")), ctl := Controller(false, false, 0, "r")),
                    srv := s.srv.(session := Some(s.srv.session.value.(mode := AwaitRepair("r"))),
                                  granted := s.srv.granted + 1,
                                  store := s.srv.store.(repairAuthorized := true)),
                    toCollector := [Repair("r")])
  {
    hide First, Second;
  }

  lemma Resets(p: Params, s: System)
    requires Good(p, s) && Shipped(p, s.col.(ctl := Controller(true, true, 0, "")), 2)
    requires s.col.client == Some(Client("r", "")) && s.col.ctl == Controller(false, false, 0, "r")
    requires s.toServer == [] && s.toCollector == [Repair("r")] && s.srv.session.Some?
             && s.srv.session.value.mode == AwaitRepair("r")
    ensures var t := ServerReply(CollectorRepair(p, s));
            && t.srv == s.srv.(session := None) && t.toServer == [] && t.toCollector == []
            && t.col.client.None? && t.col.ctl == Controller(true, true, 0, "") && t.col.history == s.col.history
            && !t.col.queue.state.phase.Stream?
  {
    hide ServerOk, SessionOk, FramesOk, GrantsOk, First, Second, Q.TracedValid;
  }

  lemma Reauthorizes(s: System)
    requires s.srv.session.None? && s.toServer == [Hello("b")] && s.toCollector == []
    requires s.srv.store.generation == "a" && s.srv.store.repairAuthorized && Generation(s.col) == "b"
    ensures Stranded(ServerBreak(ServerHello(s)))
  {
  }

  /** A run after which no step ever changes the server again. */
  lemma StrandedReachable(p: Params, s: System) returns (steps: seq<Step>)
    requires Initial(p, s) && HasRoom(p)
    ensures Stranded(Run(p, s, steps))
  {
    hide Good, Initial, Run, HasRoom, First, Second, Store, Stranded, CollectorRepair, ServerReply, ServerBreak,
         Capture, Connect, ServerHello, CollectorPull, ServerIdle, CollectorReconcile, CollectorAck, ServerEvent;
    var t;
    steps, t := Granting(p, s);
    Goes(p, s, steps, DoCollectorRepair);
    Goes(p, s, steps + [DoCollectorRepair], DoServerReply);
    Resets(p, t);
    steps, t := steps + [DoCollectorRepair] + [DoServerReply], Do(p, Do(p, t, DoCollectorRepair), DoServerReply);
    var begin := DoCapture(Q.OpInitialize(Begun(p, "b")));
    Goes(p, s, steps, begin);
    Initializes(p, t, "b");
    steps, t := steps + [begin], Do(p, t, begin);
    assert Generation(t.col) == "b";
    Goes(p, s, steps, DoConnect);
    Connects(t);
    steps, t := steps + [DoConnect], Do(p, t, DoConnect);
    Goes(p, s, steps, DoServerHello);
    Goes(p, s, steps + [DoServerHello], DoServerBreak);
    Reauthorizes(t);
    steps := steps + [DoServerHello] + [DoServerBreak];
  }

  lemma Granting(p: Params, s: System) returns (steps: seq<Step>, t: System)
    requires Initial(p, s) && HasRoom(p)
    ensures t == Run(p, s, steps) && Good(p, t) && Shipped(p, t.col.(ctl := Controller(true, true, 0, "")), 2)
    ensures t.col.client == Some(Client("r", "")) && t.col.ctl == Controller(false, false, 0, "r")
    ensures t.toServer == [] && t.toCollector == [Repair("r")] && t.srv.session.Some?
            && t.srv.session.value.mode == AwaitRepair("r")
    ensures t.srv.store.generation == "a" && t.srv.store.repairAuthorized
  {
    hide Good, Initial, Run, HasRoom, First, Second, Store, CaptureExit, FinishStop, ServerResult, Capture, Connect,
         ServerHello, CollectorPull, ServerIdle, CollectorReconcile, CollectorAck, ServerEvent;
    steps, t := Delivering(p, s);
    Earliest3(p, t);
    Goes(p, s, steps, DoCollectorPull);
    Goes(p, s, steps + [DoCollectorPull], DoServerIdle(Some("r")));
    StartsReconciling(p, t, "a", 3);
    steps, t := steps + [DoCollectorPull] + [DoServerIdle(Some("r"))],
      Do(p, Do(p, t, DoCollectorPull), DoServerIdle(Some("r")));
    Goes(p, s, steps, DoCollectorReconcile);
    Pauses(t);
    steps, t := steps + [DoCollectorReconcile], Do(p, t, DoCollectorReconcile);
    Goes(p, s, steps, DoCaptureExit(false));
    Goes(p, s, steps + [DoCaptureExit(false)], DoFinishStop);
    Goes(p, s, steps + [DoCaptureExit(false)] + [DoFinishStop], DoServerResult(Grant));
    Grants(p, t);
    steps, t := steps + [DoCaptureExit(false)] + [DoFinishStop] + [DoServerResult(Grant)],
      Do(p, Do(p, Do(p, t, DoCaptureExit(false)), DoFinishStop), DoServerResult(Grant));
  }
}
