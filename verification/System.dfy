/** The whole pipeline as a state machine: a collector (durable queue, capture
    controller, its side of the stream), a server (target database, its side of
    the stream) and the frames in flight. Every step is one atomic action of one
    party; a step that is not enabled changes nothing, so a run is any sequence
    of steps. Captures, crashes, breaks, timeouts and lost frames may happen at
    any point. */
module System {
  import opened Event
  import Q = Queue
  import opened Target
  import opened Replay
  import TargetRun

  datatype Params = Params(queue: Q.Config, target: Config, source: string)

  datatype ServerFrame =
    | Pull(generation: string, seqNo: nat)
    | Ack(generation: string, seqNo: nat, id: MessageId)
    | Reconcile(request: string)
    | Resume(request: string)
    | Repair(request: string)

  datatype CollectorFrame =
    | Hello(generation: string)
    | Event(message: Message)
    | Idle
    | ReplayUnavailable
    | ReconcileResult(request: string, ok: bool)
    | ResumeAccepted(request: string)
    | RepairAccepted(request: string)

  // ---------------------------------------------------------------- parties

  /** `cancel` is set while the latest capture has not been told to stop; `current` while it is alive.
      `strays` counts earlier captures that are still alive. */
  datatype Controller = Controller(cancel: bool, current: bool, strays: nat, pausedFor: string)

  /** The collector's side of a stream: the reconciliation to resume on a break, and the request whose stop
      is waiting for the capture to exit. */
  datatype Client = Client(active: string, stopping: string)

  /** `history` records, per generation, every message ever published. */
  datatype Collector = Collector(
    queue: Q.Durable,
    history: map<string, seq<Message>>,
    ctl: Controller,
    client: Option<Client>
  )

  datatype Mode = Serving | Comparing(request: string) | AwaitRepair(request: string) | AwaitResume(request: string)

  datatype Session = Session(generation: string, next: nat, openBatch: bool, mode: Mode)

  /** `base` and `log` are the replica the stored generation started from and the messages stored since;
      `granted` counts repair authorizations, `switched` the changes from one generation to another. */
  datatype Server = Server(
    store: Database,
    base: Replica,
    log: seq<Message>,
    session: Option<Session>,
    granted: nat,
    switched: nat
  )

  datatype System = System(col: Collector, srv: Server, toServer: seq<CollectorFrame>, toCollector: seq<ServerFrame>)

  function Generation(c: Collector): string {
    c.queue.state.generation
  }

  /** The published log of the queue's current generation. */
  function Log(c: Collector): seq<Message> {
    if Generation(c) in c.history then c.history[Generation(c)] else []
  }

  // ---------------------------------------------------------------- capture

  /** The queue operations a capture performs. A new generation is a fresh random token. */
  predicate CaptureMay(p: Params, c: Collector, op: Q.Op) {
    && (c.ctl.current || c.ctl.strays > 0)
    && match op
       case OpInitialize(st) => st.generation != "" && st.generation !in c.history && st.sourceId == p.source
       case OpAck(_, _, _) => false
       case OpReset => false
       case OpRecover => true
       case _ => Generation(c) != ""
  }

  ghost predicate Traceable(p: Params, c: Collector) {
    Q.TracedValid(p.queue, Q.Traced(c.queue, Log(c)))
  }

  ghost function QueueStep(p: Params, c: Collector, op: Q.Op): Collector {
    var t := Q.TraceStep(p.queue, Q.Traced(c.queue, Log(c)), op);
    c.(queue := t.d,
       history := if t.d.state.generation == "" then c.history else c.history[t.d.state.generation := t.log])
  }

  ghost function Capture(p: Params, s: System, op: Q.Op): System {
    if !CaptureMay(p, s.col, op) || !Traceable(p, s.col) then s else s.(col := QueueStep(p, s.col, op))
  }

  // ---------------------------------------------------------------- controller

  function Start(c: Controller): Controller {
    c.(cancel := true, current := true, strays := if c.current then c.strays + 1 else c.strays)
  }

  function ResumeCapture(c: Controller): Controller {
    var free := c.(pausedFor := "");
    if c.cancel then free else Start(free)
  }

  /** A capture exits: the latest one, told to stop or failing by itself, or a stray one. */
  function CaptureExit(s: System, stray: bool): System {
    var c := s.col.ctl;
    if stray && c.strays > 0 then s.(col := s.col.(ctl := c.(strays := c.strays - 1)))
    else if !stray && c.current then s.(col := s.col.(ctl := c.(current := false)))
    else s
  }

  /** The process dies and restarts: memory is lost, the queue file is not, one capture is started. */
  function CollectorCrash(s: System): System {
    s.(col := s.col.(ctl := Controller(true, true, 0, ""), client := None), toCollector := [])
  }

  // ---------------------------------------------------------------- collector side of the stream

  function Connect(s: System): System {
    if s.col.client.Some? || s.srv.session.Some? || Generation(s.col) == "" then s
    else s.(col := s.col.(client := Some(Client("", ""))), toServer := [Hello(Generation(s.col))], toCollector := [])
  }

  /** The stream breaks on the collector's side; an interrupted reconciliation is resumed. */
  function ClientBreak(s: System): System {
    if s.col.client.None? || s.col.client.value.stopping != "" then s
    else
      var active, c := s.col.client.value.active, s.col.ctl;
      s.(col := s.col.(client := None, ctl := if active != "" && c.pausedFor == active then ResumeCapture(c) else c),
         toCollector := [])
  }

  predicate Receives(s: System) {
    s.col.client.Some? && s.col.client.value.stopping == "" && s.toCollector != []
  }

  ghost function CollectorAck(p: Params, s: System, now: int): System {
    if !Receives(s) || !s.toCollector[0].Ack? || !Traceable(p, s.col) then s
    else
      var ack, st := s.toCollector[0], s.col.queue.state;
      var rest := s.(toCollector := s.toCollector[1..]);
      var op := Q.OpAck(ack.seqNo, ack.id, now);
      if ack.generation != st.generation || ack.seqNo > st.deliveredSeq + 1 then ClientBreak(s)
      else if ack.seqNo <= st.deliveredSeq then rest
      else if Q.Attempt(p.queue, s.col.queue, op).Failure? then ClientBreak(s)
      else rest.(col := QueueStep(p, s.col, op))
  }

  function CollectorPull(s: System): System {
    if !Receives(s) || !s.toCollector[0].Pull? then s
    else
      var pull, rest := s.toCollector[0], s.(toCollector := s.toCollector[1..]);
      if pull.generation != "" && pull.generation != Generation(s.col) then ClientBreak(s)
      else if pull.seqNo < Q.Earliest(s.col.queue.state) then rest.(toServer := s.toServer + [ReplayUnavailable])
      else if pull.seqNo > s.col.queue.state.readySeq then rest.(toServer := s.toServer + [Idle])
      else
        match Q.Get(s.col.queue, pull.seqNo)
        case Failure(_) => ClientBreak(s)
        case Success(message) => rest.(toServer := s.toServer + [Event(message)])
  }

  predicate Drained(st: Q.State) {
    st.nextSeq == st.readySeq == st.deliveredSeq
  }

  /** With the capture stopped: scan the source, or refuse because the queue is not drained. */
  function Compare(s: System, request: string): System {
    if Drained(s.col.queue.state) then s.(toServer := s.toServer + [ReconcileResult(request, true)])
    else s.(col := s.col.(ctl := if s.col.ctl.pausedFor == request then ResumeCapture(s.col.ctl) else s.col.ctl),
            toServer := s.toServer + [ReconcileResult(request, false)])
  }

  function CollectorReconcile(s: System): System {
    if !Receives(s) || !s.toCollector[0].Reconcile? then s
    else
      var request, c := s.toCollector[0].request, s.col.ctl;
      var rest := s.(toCollector := s.toCollector[1..], col := s.col.(client := Some(Client(request, ""))));
      if c.pausedFor != "" && c.pausedFor != request
        then rest.(toServer := s.toServer + [ReconcileResult(request, false)])
      else
        var paused := rest.(col := rest.col.(ctl := c.(pausedFor := request, cancel := false)));
        if c.cancel then paused.(col := paused.col.(client := Some(Client(request, request))))
        else Compare(paused, request)
  }

  /** The stop returns because the capture has exited. */
  function FinishStop(s: System): System {
    if s.col.client.None? || s.col.client.value.stopping == "" || s.col.ctl.current then s
    else
      var request := s.col.client.value.stopping;
      Compare(s.(col := s.col.(client := Some(s.col.client.value.(stopping := "")))), request)
  }

  /** The stop returns because its context expired, with the capture possibly still alive. */
  function StopTimeout(s: System): System {
    if s.col.client.None? || s.col.client.value.stopping == "" then s
    else
      var request := s.col.client.value.stopping;
      s.(col := s.col.(client := Some(s.col.client.value.(stopping := ""))),
         toServer := s.toServer + [ReconcileResult(request, false)])
  }

  function CollectorResume(s: System): System {
    if !Receives(s) || !s.toCollector[0].Resume? then s
    else
      var request := s.toCollector[0].request;
      if s.col.ctl.pausedFor != request then ClientBreak(s)
      else s.(col := s.col.(ctl := ResumeCapture(s.col.ctl), client := Some(Client("", ""))),
              toCollector := s.toCollector[1..], toServer := s.toServer + [ResumeAccepted(request)])
  }

  ghost function CollectorRepair(p: Params, s: System): System {
    if !Receives(s) || !s.toCollector[0].Repair? || !Traceable(p, s.col) then s
    else
      var request, c := s.toCollector[0].request, s.col.ctl;
      if c.pausedFor != request || c.cancel || Q.ResetForSnapshot(s.col.queue).Failure? then ClientBreak(s)
      else s.(col := QueueStep(p, s.col, Q.OpReset).(ctl := Start(c.(pausedFor := "")), client := None),
              toCollector := [], toServer := s.toServer + [RepairAccepted(request)])
  }

  // ---------------------------------------------------------------- server side of the stream

  /** The server's side ends; frames on their way to it are lost, frames it sent may still arrive. */
  function ServerBreak(s: System): System {
    s.(srv := s.srv.(session := None), toServer := [])
  }

  function Open(s: System, store: Database, generation: string, next: nat): System {
    s.(srv := s.srv.(store := store, session := Some(Session(generation, next, false, Serving))),
       toServer := [], toCollector := s.toCollector + [Pull(generation, next)])
  }

  function ServerHello(s: System): System {
    if s.srv.session.Some? || s.toServer == [] || !s.toServer[0].Hello? then s
    else
      var generation, store := s.toServer[0].generation, s.srv.store;
      if store.generation == "" || store.generation == generation then Open(s, store, generation, store.received + 1)
      else if store.repairAuthorized then Open(s, store.(repairAuthorized := false), generation, 1)
      else ServerBreak(s)
  }

  predicate Serves(s: System) {
    s.srv.session.Some? && s.srv.session.value.mode.Serving? && s.toServer != []
  }

  predicate EnvelopeMatches(p: Params, session: Session, m: Message) {
    && m.seqNo == session.next && m.sourceId == p.source && m.generation == session.generation
    && m.id == MessageId(p.source, session.generation, session.next)
  }

  function NextOpenBatch(open: bool, kind: Kind): bool {
    if kind.SnapshotBegin? || kind.TransactionRows? || kind.FileBegin? || kind.FileChunk? then true
    else if kind.SnapshotEnd? || kind.TransactionEnd? || kind.FileEnd? then false
    else open
  }

  /** Does storing m replace one non-empty generation by another? */
  predicate Switches(store: Database, m: Message) {
    store.generation != "" && m.generation != store.generation
  }

  /** An event is stored in one transaction and acknowledged. If the commit fails, only the files written
      inside the transaction remain. */
  ghost function ServerEvent(p: Params, s: System, commits: bool): System {
    if !Serves(s) || !s.toServer[0].Event? then s
    else
      var session, m, store := s.srv.session.value, s.toServer[0].message, s.srv.store;
      if !EnvelopeMatches(p, session, m) || Store(p.target, store, m).Failure? then ServerBreak(s)
      else if !commits then
        ServerBreak(s.(srv := s.srv.(store := store.(files := Store(p.target, store, m).value.files))))
      else
        var served := Offer(p.target, Served(store, s.srv.base, s.srv.log), m);
        System(s.col,
               Server(served.db, served.base, served.log,
                      Some(session.(next := session.next + 1, openBatch := NextOpenBatch(session.openBatch, m.kind))),
                      s.srv.granted, s.srv.switched + if Switches(store, m) then 1 else 0),
               s.toServer[1..],
               s.toCollector + [Ack(session.generation, session.next, m.id),
                                Pull(session.generation, session.next + 1)])
  }

  /** Nothing new: pull again, or start a scheduled reconciliation unless a batch is open. */
  function ServerIdle(s: System, due: Option<string>): System {
    if !Serves(s) || !s.toServer[0].Idle? then s
    else
      var session := s.srv.session.value;
      if due.Some? && due.value != "" && !session.openBatch then
        s.(srv := s.srv.(session := Some(session.(mode := Comparing(due.value)))),
           toServer := s.toServer[1..], toCollector := s.toCollector + [Reconcile(due.value)])
      else s.(toServer := s.toServer[1..], toCollector := s.toCollector + [Pull(session.generation, session.next)])
  }

  function ServerUnavailable(s: System): System {
    if !Serves(s) || !s.toServer[0].ReplayUnavailable? then s else ServerBreak(s)
  }

  /** What the server does with a table's digests: go on, ask for a repair it authorizes, or settle. */
  datatype Decision = NextTable | Grant | Settle

  function ServerResult(s: System, decision: Decision): System {
    if s.srv.session.None? || !s.srv.session.value.mode.Comparing? || s.toServer == []
      || !s.toServer[0].ReconcileResult? then s
    else
      var session, frame := s.srv.session.value, s.toServer[0];
      var request := session.mode.request;
      if frame.request != request || !frame.ok then ServerBreak(s)
      else
        match decision
        case NextTable => s.(toServer := s.toServer[1..], toCollector := s.toCollector + [Reconcile(request)])
        case Grant =>
          s.(srv := s.srv.(session := Some(session.(mode := AwaitRepair(request))), granted := s.srv.granted + 1,
                           store := s.srv.store.(repairAuthorized := true)),
             toServer := s.toServer[1..], toCollector := s.toCollector + [Repair(request)])
        case Settle =>
          s.(srv := s.srv.(session := Some(session.(mode := AwaitResume(request)))),
             toServer := s.toServer[1..], toCollector := s.toCollector + [Resume(request)])
  }

  /** The reply to a repair ends the session; the reply to a resume returns to serving. */
  function ServerReply(s: System): System {
    if s.srv.session.None? || s.toServer == [] then s
    else
      var session := s.srv.session.value;
      match session.mode
      case AwaitRepair(_) => ServerBreak(s)
      case AwaitResume(request) =>
        if s.toServer[0] != ResumeAccepted(request) then ServerBreak(s)
        else s.(srv := s.srv.(session := Some(session.(mode := Serving))),
                toServer := s.toServer[1..], toCollector := s.toCollector + [Pull(session.generation, session.next)])
      case _ => s
  }

  // ---------------------------------------------------------------- runs

  datatype Step =
    | DoCapture(op: Q.Op)
    | DoCaptureExit(stray: bool)
    | DoCollectorCrash
    | DoConnect
    | DoClientBreak
    | DoCollectorAck(now: int)
    | DoCollectorPull
    | DoCollectorReconcile
    | DoFinishStop
    | DoStopTimeout
    | DoCollectorResume
    | DoCollectorRepair
    | DoServerBreak
    | DoServerHello
    | DoServerEvent(commits: bool)
    | DoServerIdle(due: Option<string>)
    | DoServerUnavailable
    | DoServerResult(decision: Decision)
    | DoServerReply

  ghost function Do(p: Params, s: System, step: Step): System {
    match step
    case DoCapture(op) => Capture(p, s, op)
    case DoCaptureExit(stray) => CaptureExit(s, stray)
    case DoCollectorCrash => CollectorCrash(s)
    case DoConnect => Connect(s)
    case DoClientBreak => ClientBreak(s)
    case DoCollectorAck(now) => CollectorAck(p, s, now)
    case DoCollectorPull => CollectorPull(s)
    case DoCollectorReconcile => CollectorReconcile(s)
    case DoFinishStop => FinishStop(s)
    case DoStopTimeout => StopTimeout(s)
    case DoCollectorResume => CollectorResume(s)
    case DoCollectorRepair => CollectorRepair(p, s)
    case DoServerBreak => ServerBreak(s)
    case DoServerHello => ServerHello(s)
    case DoServerEvent(commits) => ServerEvent(p, s, commits)
    case DoServerIdle(due) => ServerIdle(s, due)
    case DoServerUnavailable => ServerUnavailable(s)
    case DoServerResult(decision) => ServerResult(s, decision)
    case DoServerReply => ServerReply(s)
  }

  ghost function Run(p: Params, s: System, steps: seq<Step>): System {
    if steps == [] then s else Do(p, Run(p, s, steps[..|steps| - 1]), steps[|steps| - 1])
  }

  /** A new collector and a freshly migrated server that have never met. */
  ghost predicate Initial(p: Params, s: System) {
    && s.col == Collector(Q.Durable(Q.EmptyState, map[]), map[], Controller(true, true, 0, ""), None)
    && TargetRun.Fresh(s.srv.store)
    && s.srv == Server(s.srv.store, Replica(s.srv.store.tables, s.srv.store.files), [], None, 0, 0)
    && s.toServer == [] && s.toCollector == []
  }
}
