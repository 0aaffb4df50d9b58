/** The whole pipeline with a PostgreSQL collector in it: the state machine of both parties, whose captures are
    the snapshot and the stream of `PgCollector`. A run is any sequence of moves of the capture, the collector, the
    server and the network; the one move left out is a stop that returns before its capture has exited. */
module Pipeline {
  import opened Event
  import Q = Queue
  import opened Target
  import opened TargetRun
  import opened Replay
  import opened Barrier
  import opened System
  import Sys = System
  import opened SystemInv
  import opened Guarantees
  import opened Quiescence
  import opened Mirror
  import opened PgSnapshot
  import CaptureStream
  import Cap = Capture
  import PG = PgCollector
  import U = Units
  import A = Admission

  /** `accounts` records, per generation, what it was published from. */
  datatype Pipe = Pipe(sys: System, agent: PG.Agent, accounts: map<string, PG.Account>)

  datatype Move = Capturing(act: PG.Act) | Other(step: Step)

  function AccountOf(pipe: Pipe): PG.Account {
    var g := Generation(pipe.sys.col);
    if g in pipe.accounts then pipe.accounts[g] else PG.NoAccount
  }

  function Trace(c: Collector): Q.Traced {
    Q.Traced(c.queue, Log(c))
  }

  function View(pipe: Pipe): PG.State {
    PG.State(Trace(pipe.sys.col), pipe.agent, AccountOf(pipe))
  }

  /** A capture is alive, and the pipeline lets it perform its operation. */
  ghost predicate MayAct(p: Params, env: Cap.Env, src: PG.Source, pipe: Pipe, act: PG.Act) {
    && pipe.sys.col.ctl.current && Q.TracedValid(env.queue, Trace(pipe.sys.col))
    && (PG.ActOp(env, src, View(pipe), act).Some? ==>
         CaptureMay(p, pipe.sys.col, PG.ActOp(env, src, View(pipe), act).value))
  }

  /** The step of the state machine a move is. */
  ghost function StepOf(p: Params, env: Cap.Env, src: PG.Source, pipe: Pipe, move: Move): Option<Step> {
    match move
    case Capturing(act) =>
      if !MayAct(p, env, src, pipe, act) || PG.ActOp(env, src, View(pipe), act).None? then None
      else Some(DoCapture(PG.ActOp(env, src, View(pipe), act).value))
    case Other(step) => if step.DoCapture? || Impatient(pipe.sys, step) then None else Some(step)
  }

  ghost function NextSystem(p: Params, env: Cap.Env, src: PG.Source, pipe: Pipe, move: Move): System {
    match StepOf(p, env, src, pipe, move)
    case None => pipe.sys
    case Some(step) => Do(p, pipe.sys, step)
  }

  /** A capture that exits, crashes or is started afresh begins with nothing. */
  ghost function Moved(p: Params, env: Cap.Env, src: PG.Source, pipe: Pipe, move: Move): Pipe {
    var sys := NextSystem(p, env, src, pipe, move);
    match move
    case Capturing(act) =>
      if !MayAct(p, env, src, pipe, act) then pipe
      else
        var next, g := PG.Do(env, src, View(pipe), act), Generation(sys.col);
        Pipe(sys, next.agent, if g == "" then pipe.accounts else pipe.accounts[g := next.account])
    case Other(step) =>
      var goesOn := pipe.sys.col.ctl.current && sys.col.ctl.current && !step.DoCollectorCrash?;
      Pipe(sys, if goesOn then pipe.agent else PG.Resting, pipe.accounts)
  }

  ghost function Run(p: Params, env: Cap.Env, src: PG.Source, pipe: Pipe, moves: seq<Move>): Pipe {
    if moves == [] then pipe else Moved(p, env, src, Run(p, env, src, pipe, Front(moves)), Last(moves))
  }

  /** A new collector and a freshly migrated server that has a target table for every captured table. */
  ghost predicate Initial(p: Params, env: Cap.Env, pipe: Pipe) {
    Sys.Initial(p, pipe.sys) && pipe.agent == PG.Resting && pipe.accounts == map[] && HasTables(env, pipe.sys.srv)
  }

  predicate HasTables(env: Cap.Env, v: Server) {
    forall ref | ref in env.tables :: ref.name in v.store.tables && ref.name in v.base.tables
  }

  /** The deployment: collector and server agree on the captured tables. */
  ghost predicate Deployed(p: Params, env: Cap.Env, src: PG.Source) {
    && PG.Proper(env, src) && env.queue == p.queue
    && ProperTables(p.target.tables) && TableSet(env.tables) == TableSet(p.target.tables)
  }

  // ---------------------------------------------------------------- invariant

  ghost predicate LogFits(p: Params, env: Cap.Env, src: PG.Source, pipe: Pipe, g: string)
    requires g in pipe.sys.col.history
  {
    pipe.sys.col.history[g] != [] ==>
      g in pipe.accounts && PG.LogOk(p.target, env, src, pipe.accounts[g], pipe.sys.col.history[g])
  }

  predicate Controlled(s: System) {
    ControllerOk(s.col) && RequestsNamed(s)
  }

  /** The queue streams only under a generation, and the capture at work is the controller's. */
  predicate AgentFits(c: Collector, agent: PG.Agent) {
    (c.queue.state.phase.Stream? ==> Generation(c) != "") && (!c.ctl.current ==> agent == PG.Resting)
  }

  ghost predicate AccountsFit(p: Params, env: Cap.Env, src: PG.Source, pipe: Pipe) {
    && pipe.accounts.Keys <= pipe.sys.col.history.Keys
    && (Generation(pipe.sys.col) != "" ==> Generation(pipe.sys.col) in pipe.accounts)
    && forall g | g in pipe.sys.col.history && g != Generation(pipe.sys.col) :: LogFits(p, env, src, pipe, g)
  }

  ghost predicate PipeOk(p: Params, env: Cap.Env, src: PG.Source, pipe: Pipe) {
    && Good(p, pipe.sys) && Controlled(pipe.sys) && AgentFits(pipe.sys.col, pipe.agent)
    && PG.Ok(p.target, env, src, View(pipe)) && AccountsFit(p, env, src, pipe) && HasTables(env, pipe.sys.srv)
  }

  /** Every published log of any generation is accounted for. */
  lemma AllLogsFit(p: Params, env: Cap.Env, src: PG.Source, pipe: Pipe, g: string)
    requires PipeOk(p, env, src, pipe) && g in pipe.sys.col.history
    ensures LogFits(p, env, src, pipe, g)
  {
    hide Good, Controlled, PG.LogOk, Cap.Ok, CaptureStream.Speaks, Q.TracedValid;
    if g == Generation(pipe.sys.col) {
      NamedHistory(p, pipe.sys);
    }
  }

  lemma NamedHistory(p: Params, s: System)
    requires Good(p, s)
    ensures "" !in s.col.history && (Generation(s.col) != "" ==> Generation(s.col) in s.col.history)
    ensures CollectorOk(p, s.col) && Traceable(p, s.col)
  {
  }

  // ---------------------------------------------------------------- the queue of the capture

  /** The capture's operation on the queue, seen from both machines. */
  lemma CaptureTrace(p: Params, c: Collector, op: Q.Op)
    requires CollectorOk(p, c) && Allowed(p, c, op)
    ensures var d := QueueStep(p, c, op);
            && Trace(d) == Q.TraceStep(p.queue, Trace(c), op) && d.ctl == c.ctl
            && (forall g | g in c.history && g != Generation(d) :: g in d.history && d.history[g] == c.history[g])
            && (forall g | g in d.history && g != Generation(d) :: g in c.history)
            && (Generation(d) != "" ==> Generation(d) in d.history)
  {
    var d := QueueStep(p, c, op);
    if Q.Restarts(p.queue, c.queue, op) {
      RestartState(p.queue, c.queue, op);
    } else {
      StepKeepsIdentity(p.queue, c.queue, op);
    }
  }

  lemma MayIsAllowed(p: Params, c: Collector, op: Q.Op)
    requires CaptureMay(p, c, op)
    ensures Allowed(p, c, op)
  {
  }

  lemma PhaseNamed(p: Params, c: Collector, op: Q.Op)
    requires CollectorOk(p, c) && Allowed(p, c, op) && (c.queue.state.phase.Stream? ==> Generation(c) != "")
    ensures var d := QueueStep(p, c, op); d.queue.state.phase.Stream? ==> Generation(d) != ""
  {
    hide Q.TracedValid, Q.Size;
  }

  /** A generation the queue leaves behind is accounted for. */
  lemma LeftBehind(p: Params, env: Cap.Env, src: PG.Source, pipe: Pipe, next: Pipe)
    requires PipeOk(p, env, src, pipe)
    requires forall g | g in pipe.sys.col.history && g != Generation(next.sys.col) ::
               g in next.sys.col.history && next.sys.col.history[g] == pipe.sys.col.history[g]
    requires forall g | g in next.sys.col.history && g != Generation(next.sys.col) :: g in pipe.sys.col.history
    requires forall g | g in pipe.accounts && g != Generation(next.sys.col) ::
               g in next.accounts && next.accounts[g] == pipe.accounts[g]
    requires next.accounts.Keys <= next.sys.col.history.Keys
    requires Generation(next.sys.col) != "" ==> Generation(next.sys.col) in next.accounts
    ensures AccountsFit(p, env, src, next)
  {
    hide PipeOk, PG.LogOk;
    forall g | g in next.sys.col.history && g != Generation(next.sys.col) ensures LogFits(p, env, src, next, g) {
      AllLogsFit(p, env, src, pipe, g);
    }
  }

  /** Without a generation the collector's acts leave the account empty. */
  lemma UnnamedAccount(p: Params, env: Cap.Env, src: PG.Source, pipe: Pipe, act: PG.Act)
    requires PG.Ok(p.target, env, src, View(pipe)) && !pipe.sys.col.queue.state.phase.Stream? && !act.Begin?
    requires act.Work? ==> pipe.agent.snap.None? || PG.SnapOp(env, pipe.agent.snap.value, act.free, act.now).None?
    ensures PG.Do(env, src, View(pipe), act).account == AccountOf(pipe)
  {
    hide Q.TracedValid, PG.LogOk, Cap.Ok, CaptureStream.Speaks, PG.SnapOk;
    if PG.IsStream(View(pipe), act) {
      PG.StreamIdle(env, src, View(pipe), PG.StreamStep(act));
    }
  }

  // ---------------------------------------------------------------- moves of the capture

  /** What an act leaves behind in the pipeline is what it leaves behind in the collector. */
  lemma ActView(p: Params, env: Cap.Env, src: PG.Source, pipe: Pipe, act: PG.Act)
    requires Deployed(p, env, src) && PipeOk(p, env, src, pipe) && MayAct(p, env, src, pipe, act)
    ensures View(Moved(p, env, src, pipe, Capturing(act))) == PG.Do(env, src, View(pipe), act)
  {
    hide PG.Ok, Good, Controlled, HasTables, AccountsFit, QueueStep, PG.Do, PG.ActOp, Q.TraceStep, PG.Proper,
         CaptureMay, Q.TracedValid;
    var s, op, sys := View(pipe), PG.ActOp(env, src, View(pipe), act), NextSystem(p, env, src, pipe, Capturing(act));
    NamedHistory(p, pipe.sys);
    PG.ActOpIsAll(p.target, env, src, s, act);
    if op.Some? {
      MayIsAllowed(p, pipe.sys.col, op.value);
      CaptureTrace(p, pipe.sys.col, op.value);
    }
    if Generation(sys.col) == "" {
      UnnamedAct(p, env, src, pipe, act);
    }
  }

  /** Only recovering and waiting is possible before there is a generation. */
  lemma UnnamedAct(p: Params, env: Cap.Env, src: PG.Source, pipe: Pipe, act: PG.Act)
    requires Deployed(p, env, src) && PipeOk(p, env, src, pipe) && MayAct(p, env, src, pipe, act)
    requires Generation(NextSystem(p, env, src, pipe, Capturing(act)).col) == ""
    ensures PG.Do(env, src, View(pipe), act).account == PG.NoAccount == AccountOf(pipe)
            && Generation(pipe.sys.col) == ""
  {
    hide PG.Ok, Good, Controlled, HasTables, PG.Do, PG.Proper, Q.TracedValid, LogFits;
    NamedHistory(p, pipe.sys);
    var op := PG.ActOp(env, src, View(pipe), act);
    if op.Some? {
      UnnamedOp(p, pipe.sys.col, op.value);
    }
    if act.Begin? {
      BeginNothing(env, src, View(pipe), act);
    } else {
      UnnamedAccount(p, env, src, pipe, act);
    }
  }

  lemma BeginNothing(env: Cap.Env, src: PG.Source, s: PG.State, act: PG.Act)
    requires Q.TracedValid(env.queue, s.t) && act.Begin?
    requires PG.ActOp(env, src, s, act).Some? ==> Q.Attempt(env.queue, s.t.d, PG.ActOp(env, src, s, act).value).Failure?
    ensures PG.Do(env, src, s, act) == s
  {
    hide Q.TracedValid, PG.Shows;
  }

  lemma UnnamedOp(p: Params, c: Collector, op: Q.Op)
    requires CollectorOk(p, c) && CaptureMay(p, c, op) && Generation(QueueStep(p, c, op)) == ""
    ensures Generation(c) == "" && (op.OpRecover? || (op.OpInitialize? && Q.Attempt(p.queue, c.queue, op).Failure?))
  {
    if Q.Restarts(p.queue, c.queue, op) {
      RestartState(p.queue, c.queue, op);
    } else {
      StepKeepsIdentity(p.queue, c.queue, op);
    }
  }

  /** The accounts after an act. */
  lemma ActAccounts(p: Params, env: Cap.Env, src: PG.Source, pipe: Pipe, act: PG.Act)
    requires Deployed(p, env, src) && PipeOk(p, env, src, pipe) && MayAct(p, env, src, pipe, act)
    ensures AccountsFit(p, env, src, Moved(p, env, src, pipe, Capturing(act)))
  {
    hide PG.Ok, Good, Controlled, HasTables, QueueStep, PG.Do, PG.ActOp, Q.TraceStep, PG.Proper, CaptureMay,
         Q.TracedValid, LogFits;
    var op, next := PG.ActOp(env, src, View(pipe), act), Moved(p, env, src, pipe, Capturing(act));
    NamedHistory(p, pipe.sys);
    if op.Some? {
      MayIsAllowed(p, pipe.sys.col, op.value);
      CaptureTrace(p, pipe.sys.col, op.value);
    }
    LeftBehind(p, env, src, pipe, next);
  }

  lemma CaptureIsStep(p: Params, s: System, op: Q.Op)
    requires Traceable(p, s.col) && CaptureMay(p, s.col, op)
    ensures Do(p, s, DoCapture(op)) == s.(col := QueueStep(p, s.col, op))
  {
    hide Traceable, QueueStep;
  }

  lemma ActKeeps(p: Params, env: Cap.Env, src: PG.Source, pipe: Pipe, act: PG.Act)
    requires Deployed(p, env, src) && PipeOk(p, env, src, pipe) && MayAct(p, env, src, pipe, act)
    ensures PipeOk(p, env, src, Moved(p, env, src, pipe, Capturing(act)))
  {
    hide PG.Ok, Good, Controlled, QueueStep, PG.Do, PG.ActOp, Q.TraceStep, PG.Proper, CaptureMay, Q.TracedValid,
         LogFits, AccountsFit, Do;
    var op, next := PG.ActOp(env, src, View(pipe), act), Moved(p, env, src, pipe, Capturing(act));
    NamedHistory(p, pipe.sys);
    ActView(p, env, src, pipe, act);
    ActAccounts(p, env, src, pipe, act);
    PG.ActOk(p.target, env, src, View(pipe), act);
    if op.Some? {
      MayIsAllowed(p, pipe.sys.col, op.value);
      PhaseNamed(p, pipe.sys.col, op.value);
      CaptureTrace(p, pipe.sys.col, op.value);
      CaptureIsStep(p, pipe.sys, op.value);
      StepControlled(p, pipe.sys, DoCapture(op.value));
    }
  }

  lemma StepControlled(p: Params, s: System, step: Step)
    requires Good(p, s) && Controlled(s) && !Impatient(s, step)
    ensures Good(p, Do(p, s, step)) && Controlled(Do(p, s, step))
  {
    hide Good, Do, ControllerOk, RequestsNamed;
    StepGood(p, s, step);
    StepKeepsController(p, s, step);
    StepNamesRequests(p, s, step);
  }

  // ---------------------------------------------------------------- other moves

  lemma {:induction false} RowsKeepTables(cfg: Config, columns: Columns, tables: Tables, rows: seq<Row>)
    requires ApplyRows(cfg, columns, tables, rows).Success?
    ensures ApplyRows(cfg, columns, tables, rows).value.Keys == tables.Keys
    decreases |rows|
  {
    if rows != [] {
      RowsKeepTables(cfg, columns, tables, rows[..|rows| - 1]);
    }
  }

  lemma AcceptKeepsTables(cfg: Config, db: Database, m: Message)
    requires Accept(cfg, db, m).Success?
    ensures Accept(cfg, db, m).value.tables.Keys == db.tables.Keys
  {
    if m.kind.SnapshotEnd? {
      RowsKeepTables(cfg, db.columns, Cleared(db.tables, db.scope), AsInserts(InOrder(db.snapshotRows, m.generation)));
    } else if m.kind.TransactionEnd? {
      RowsKeepTables(cfg, db.columns, db.tables, RowsOf(InOrder(db.inbox, m.generation), m.transaction));
    }
  }

  /** No message creates or drops a target table. */
  lemma StoreKeepsTables(cfg: Config, db: Database, m: Message)
    requires Store(cfg, db, m).Success?
    ensures Store(cfg, db, m).value.tables.Keys == db.tables.Keys
  {
    hide Accept;
    var current := if m.generation != db.generation then Restart(db, m) else db;
    if m.seqNo == current.received + 1 {
      AcceptKeepsTables(cfg, current, m);
    }
  }

  lemma StepKeepsTables(p: Params, env: Cap.Env, s: System, step: Step)
    requires HasTables(env, s.srv)
    ensures HasTables(env, Do(p, s, step).srv)
  {
    hide Traceable, QueueStep, Store, HasTables;
    if step.DoServerEvent? {
      EventKeepsTables(p, env, s, step.commits);
    } else {
      SameTables(p, s, step);
      TablesCarried(env, s.srv, Do(p, s, step).srv);
    }
  }

  lemma TablesCarried(env: Cap.Env, v: Server, w: Server)
    requires HasTables(env, v) && w.store.tables.Keys == v.store.tables.Keys
    requires w.base == v.base || w.base.tables == v.store.tables
    ensures HasTables(env, w)
  {
  }

  predicate OfServer(step: Step) {
    || step.DoServerBreak? || step.DoServerHello? || step.DoServerEvent? || step.DoServerIdle?
       || step.DoServerUnavailable?
    || step.DoServerResult? || step.DoServerReply?
  }

  /** The collector's steps leave the server alone. */
  lemma CollectorKeepsServer(p: Params, s: System, step: Step)
    requires !OfServer(step)
    ensures Do(p, s, step).srv == s.srv
  {
    hide Traceable, QueueStep, ResumeCapture, Q.Attempt, Q.Get, Q.Earliest, Q.ResetForSnapshot, Drained, CaptureMay,
         Start;
  }

  lemma SameTables(p: Params, s: System, step: Step)
    requires !step.DoServerEvent?
    ensures var t := Do(p, s, step); t.srv.store.tables == s.srv.store.tables && t.srv.base == s.srv.base
  {
    if OfServer(step) {
      ServerKeepsTables(p, s, step);
    } else {
      hide Do;
      CollectorKeepsServer(p, s, step);
    }
  }

  lemma ServerKeepsTables(p: Params, s: System, step: Step)
    requires OfServer(step) && !step.DoServerEvent?
    ensures var t := Do(p, s, step); t.srv.store.tables == s.srv.store.tables && t.srv.base == s.srv.base
  {
  }

  lemma EventKeepsTables(p: Params, env: Cap.Env, s: System, commits: bool)
    requires HasTables(env, s.srv)
    ensures HasTables(env, ServerEvent(p, s, commits).srv)
  {
    hide Store, HasTables;
    if Serves(s) && s.toServer[0].Event? {
      var m := s.toServer[0].message;
      if Store(p.target, s.srv.store, m).Success? {
        StoreKeepsTables(p.target, s.srv.store, m);
      }
    }
    TablesCarried(env, s.srv, ServerEvent(p, s, commits).srv);
  }

  /** An acknowledgement leaves the account alone. */
  lemma AckOk(cfg: Config, env: Cap.Env, src: PG.Source, s: PG.State, op: Q.Op)
    requires PG.Proper(env, src) && PG.Ok(cfg, env, src, s) && op.OpAck?
    ensures PG.Ok(cfg, env, src, s.(t := Q.TraceStep(env.queue, s.t, op)))
  {
    hide PG.LogOk, Cap.Ok, CaptureStream.Speaks, PG.SnapOk, PG.Proper, Q.TracedValid, Q.TraceStep;
    if s.t.d.state.phase.Stream? {
      PG.StreamOk(cfg, env, src, s, Cap.Deliver(op.seqNo, op.id, op.ackedAt));
    } else {
      AckFails(env.queue, s.t, op);
    }
  }

  lemma AckFails(cfg: Q.Config, t: Q.Traced, op: Q.Op)
    requires Q.TracedValid(cfg, t) && t.log == [] && op.OpAck?
    ensures Q.TraceStep(cfg, t, op) == t
  {
    Cap.FailureKeeps(cfg, t, op);
  }

  lemma ResetEmpties(cfg: Q.Config, t: Q.Traced)
    requires Q.TracedValid(cfg, t) && Q.Attempt(cfg, t.d, Q.OpReset).Success?
    ensures var next := Q.TraceStep(cfg, t, Q.OpReset);
            Q.TracedValid(cfg, next) && next.log == [] && next.d.state.phase.Snapshot? && next.d.state.generation == ""
  {
    Q.TraceStepValid(cfg, t, Q.OpReset);
  }

  /** Moves that do not touch the queue. */
  lemma QuietMove(p: Params, env: Cap.Env, src: PG.Source, pipe: Pipe, step: Step)
    requires Deployed(p, env, src) && PipeOk(p, env, src, pipe)
    requires !step.DoCapture? && !Impatient(pipe.sys, step) && QueueSame(pipe.sys.col, Do(p, pipe.sys, step).col)
    ensures PipeOk(p, env, src, Moved(p, env, src, pipe, Other(step)))
  {
    hide PG.Ok, Good, Controlled, PG.Proper, HasTables, LogFits, Do, Impatient;
    var next := Moved(p, env, src, pipe, Other(step));
    StepControlled(p, pipe.sys, step);
    StepKeepsTables(p, env, pipe.sys, step);
    PG.RestOk(p.target, env, src, View(pipe));
    LeftBehind(p, env, src, pipe, next);
  }

  lemma AckMoves(p: Params, env: Cap.Env, src: PG.Source, pipe: Pipe, step: Step, op: Q.Op)
    requires Deployed(p, env, src) && PipeOk(p, env, src, pipe) && step.DoCollectorAck? && op.OpAck?
    requires Allowed(p, pipe.sys.col, op) && Traceable(p, pipe.sys.col) && Generation(pipe.sys.col) != ""
    requires QueueSame(QueueStep(p, pipe.sys.col, op), Do(p, pipe.sys, step).col)
    ensures PipeOk(p, env, src, Moved(p, env, src, pipe, Other(step)))
  {
    hide PG.Ok, Good, Controlled, PG.Proper, HasTables, LogFits, Do, Q.TracedValid, Q.TraceStep, Allowed, QueueStep,
         AccountsFit;
    var next, s := Moved(p, env, src, pipe, Other(step)), View(pipe);
    StepControlled(p, pipe.sys, step);
    StepKeepsTables(p, env, pipe.sys, step);
    NamedHistory(p, pipe.sys);
    CaptureTrace(p, pipe.sys.col, op);
    PhaseNamed(p, pipe.sys.col, op);
    AckKeepsName(p, pipe.sys.col, op);
    AckOk(p.target, env, src, s, op);
    PG.RestOk(p.target, env, src, s.(t := Q.TraceStep(env.queue, s.t, op)));
    QueueMoveAccounts(p, env, src, pipe, step, op);
  }

  lemma QueueMoveAccounts(p: Params, env: Cap.Env, src: PG.Source, pipe: Pipe, step: Step, op: Q.Op)
    requires PipeOk(p, env, src, pipe) && !step.DoCapture? && !Impatient(pipe.sys, step)
    requires Allowed(p, pipe.sys.col, op) && Traceable(p, pipe.sys.col)
    requires Generation(QueueStep(p, pipe.sys.col, op)) in {"", Generation(pipe.sys.col)}
    requires QueueSame(QueueStep(p, pipe.sys.col, op), Do(p, pipe.sys, step).col)
    ensures AccountsFit(p, env, src, Moved(p, env, src, pipe, Other(step)))
  {
    hide PG.Ok, Good, Controlled, HasTables, LogFits, Do, Q.TracedValid, Q.TraceStep, Allowed, QueueStep, Impatient;
    NamedHistory(p, pipe.sys);
    CaptureTrace(p, pipe.sys.col, op);
    LeftBehind(p, env, src, pipe, Moved(p, env, src, pipe, Other(step)));
  }

  lemma ResetMoves(p: Params, env: Cap.Env, src: PG.Source, pipe: Pipe, step: Step)
    requires Deployed(p, env, src) && PipeOk(p, env, src, pipe) && step.DoCollectorRepair?
    requires Allowed(p, pipe.sys.col, Q.OpReset) && Traceable(p, pipe.sys.col)
    requires QueueSame(QueueStep(p, pipe.sys.col, Q.OpReset), Do(p, pipe.sys, step).col)
    requires Q.Attempt(p.queue, pipe.sys.col.queue, Q.OpReset).Success? && !pipe.sys.col.ctl.current
    ensures PipeOk(p, env, src, Moved(p, env, src, pipe, Other(step)))
  {
    hide PG.Ok, Good, Controlled, PG.Proper, HasTables, LogFits, Do, Q.TracedValid, Q.TraceStep, Allowed, QueueStep,
         AccountsFit, Q.Attempt;
    var next, s := Moved(p, env, src, pipe, Other(step)), View(pipe);
    StepControlled(p, pipe.sys, step);
    StepKeepsTables(p, env, pipe.sys, step);
    NamedHistory(p, pipe.sys);
    CaptureTrace(p, pipe.sys.col, Q.OpReset);
    ResetEmpties(p.queue, s.t);
    EmptyOk(p.target, env, src, Q.TraceStep(p.queue, s.t, Q.OpReset));
    QueueMoveAccounts(p, env, src, pipe, step, Q.OpReset);
    AccountKeys(p, env, src, pipe);
  }

  lemma AccountKeys(p: Params, env: Cap.Env, src: PG.Source, pipe: Pipe)
    requires PipeOk(p, env, src, pipe)
    ensures "" !in pipe.accounts
  {
    hide PG.Ok, Controlled;
    NamedHistory(p, pipe.sys);
  }

  lemma AckKeepsName(p: Params, c: Collector, op: Q.Op)
    requires Traceable(p, c) && op.OpAck?
    ensures Generation(QueueStep(p, c, op)) == Generation(c)
  {
    StepKeepsIdentity(p.queue, c.queue, op);
  }

  lemma EmptyOk(cfg: Config, env: Cap.Env, src: PG.Source, t: Q.Traced)
    requires Q.TracedValid(env.queue, t) && t.log == [] && !t.d.state.phase.Stream?
    ensures PG.Ok(cfg, env, src, PG.State(t, PG.Resting, PG.NoAccount))
  {
  }

  lemma AckShape(p: Params, s: System, now: int)
    requires Good(p, s)
    ensures var d := CollectorAck(p, s, now).col;
            QueueSame(s.col, d) ||
            exists op: Q.Op :: op.OpAck? && Generation(s.col) != "" && Allowed(p, s.col, op) && Traceable(p, s.col)
                               && QueueSame(QueueStep(p, s.col, op), d)
  {
    hide Core, Effect, Store, QueueStep, PublishedLog, FilesOk, GrantsOk, SessionOk, Q.Attempt;
    if Receives(s) && s.toCollector[0].Ack? {
      assert DownFrameOk(p, s.srv, s.toCollector[0]);
      var op := Q.OpAck(s.toCollector[0].seqNo, s.toCollector[0].id, now);
      assert op.OpAck?;
    }
  }

  lemma RepairShape(p: Params, s: System)
    requires Good(p, s) && ControllerOk(s.col)
    ensures var d := CollectorRepair(p, s).col;
            QueueSame(s.col, d) ||
            (&& Allowed(p, s.col, Q.OpReset) && Traceable(p, s.col) && QueueSame(QueueStep(p, s.col, Q.OpReset), d)
             && Q.Attempt(p.queue, s.col.queue, Q.OpReset).Success? && !s.col.ctl.current)
  {
    hide Core, Effect, Store, QueueStep, PublishedLog, FilesOk, GrantsOk, SessionOk, FramesOk, Traceable;
  }

  lemma RepairMove(p: Params, env: Cap.Env, src: PG.Source, pipe: Pipe, step: Step)
    requires Deployed(p, env, src) && PipeOk(p, env, src, pipe) && step.DoCollectorRepair?
    ensures PipeOk(p, env, src, Moved(p, env, src, pipe, Other(step)))
  {
    hide PipeOk, Deployed, Moved, QueueStep, Allowed, QueueSame, CollectorRepair, Good, Traceable, Q.Attempt;
    PipeGood(p, env, src, pipe);
    RepairShape(p, pipe.sys);
    if QueueSame(pipe.sys.col, Do(p, pipe.sys, step).col) {
      QuietMove(p, env, src, pipe, step);
    } else {
      ResetMoves(p, env, src, pipe, step);
    }
  }

  lemma OtherKeeps(p: Params, env: Cap.Env, src: PG.Source, pipe: Pipe, step: Step)
    requires Deployed(p, env, src) && PipeOk(p, env, src, pipe) && !step.DoCapture? && !Impatient(pipe.sys, step)
    ensures PipeOk(p, env, src, Moved(p, env, src, pipe, Other(step)))
  {
    hide PipeOk, Deployed, Moved, Impatient, QueueSame, Do, Good;
    if step.DoCollectorAck? {
      AckMove(p, env, src, pipe, step);
    } else if step.DoCollectorRepair? {
      RepairMove(p, env, src, pipe, step);
    } else {
      PipeGood(p, env, src, pipe);
      QueueUntouched(p, pipe.sys, step);
      QuietMove(p, env, src, pipe, step);
    }
  }

  lemma AckMove(p: Params, env: Cap.Env, src: PG.Source, pipe: Pipe, step: Step)
    requires Deployed(p, env, src) && PipeOk(p, env, src, pipe) && step.DoCollectorAck?
    ensures PipeOk(p, env, src, Moved(p, env, src, pipe, Other(step)))
  {
    hide PipeOk, Deployed, Moved, QueueStep, Allowed, QueueSame, CollectorAck;
    PipeGood(p, env, src, pipe);
    AckShape(p, pipe.sys, step.now);
    if QueueSame(pipe.sys.col, Do(p, pipe.sys, step).col) {
      QuietMove(p, env, src, pipe, step);
    } else {
      var op: Q.Op :| op.OpAck? && Generation(pipe.sys.col) != "" && Allowed(p, pipe.sys.col, op) && Traceable(p,
          pipe.sys.col)
                      && QueueSame(QueueStep(p, pipe.sys.col, op), Do(p, pipe.sys, step).col);
      AckMoves(p, env, src, pipe, step, op);
    }
  }

  lemma PipeGood(p: Params, env: Cap.Env, src: PG.Source, pipe: Pipe)
    requires PipeOk(p, env, src, pipe)
    ensures Good(p, pipe.sys) && ControllerOk(pipe.sys.col)
  {
  }

  /** Every move keeps the invariant. */
  lemma MoveKeeps(p: Params, env: Cap.Env, src: PG.Source, pipe: Pipe, move: Move)
    requires Deployed(p, env, src) && PipeOk(p, env, src, pipe)
    ensures PipeOk(p, env, src, Moved(p, env, src, pipe, move))
  {
    hide PipeOk, Deployed, Do, PG.Do, PG.ActOp, MayAct;
    match move
    case Capturing(act) =>
      if MayAct(p, env, src, pipe, act) {
        ActKeeps(p, env, src, pipe, act);
      }
    case Other(step) =>
      if step.DoCapture? || Impatient(pipe.sys, step) {
        IdleMove(p, env, src, pipe);
      } else {
        OtherKeeps(p, env, src, pipe, step);
      }
  }

  /** A move that is not enabled changes nothing. */
  lemma IdleMove(p: Params, env: Cap.Env, src: PG.Source, pipe: Pipe)
    requires PipeOk(p, env, src, pipe)
    ensures pipe.sys.col.ctl.current || pipe.agent == PG.Resting
  {
  }

  // ---------------------------------------------------------------- runs

  lemma InitialOk(p: Params, env: Cap.Env, src: PG.Source, pipe: Pipe)
    requires Deployed(p, env, src) && Initial(p, env, pipe)
    ensures PipeOk(p, env, src, pipe)
  {
    hide Good, HasTables, PG.Ok, PG.Proper;
    InitialGood(p, pipe.sys);
    NamedHistory(p, pipe.sys);
    EmptyOk(p.target, env, src, Trace(pipe.sys.col));
  }

  lemma {:induction false} RunKeeps(p: Params, env: Cap.Env, src: PG.Source, pipe: Pipe, moves: seq<Move>)
    requires Deployed(p, env, src) && Initial(p, env, pipe)
    ensures PipeOk(p, env, src, Run(p, env, src, pipe, moves))
    decreases |moves|
  {
    hide Deployed, Initial, PipeOk, Moved;
    if moves == [] {
      InitialOk(p, env, src, pipe);
    } else {
      RunKeeps(p, env, src, pipe, Front(moves));
      MoveKeeps(p, env, src, Run(p, env, src, pipe, Front(moves)), Last(moves));
    }
  }

  /** The steps of the state machine a run consists of. */
  ghost function StepsOf(p: Params, env: Cap.Env, src: PG.Source, pipe: Pipe, moves: seq<Move>): seq<Step> {
    if moves == [] then []
    else
      var step := StepOf(p, env, src, Run(p, env, src, pipe, Front(moves)), Last(moves));
      StepsOf(p, env, src, pipe, Front(moves)) + if step.None? then [] else [step.value]
  }

  lemma MoveIsStep(p: Params, env: Cap.Env, src: PG.Source, pipe: Pipe, move: Move)
    ensures Moved(p, env, src, pipe, move).sys == match StepOf(p, env, src, pipe, move)
                                                  case None => pipe.sys
                                                  case Some(step) => Do(p, pipe.sys, step)
  {
    hide Do, PG.Do, PG.ActOp;
  }

  lemma MoveIsOrderly(p: Params, env: Cap.Env, src: PG.Source, pipe: Pipe, move: Move)
    requires PipeOk(p, env, src, pipe) && StepOf(p, env, src, pipe, move).Some?
    ensures OrderlyStep(pipe.sys, StepOf(p, env, src, pipe, move).value)
  {
    hide PG.ActOp, U.Disciplined, Good, Controlled, AccountsFit, PG.Ok, HasTables;
    if move.Capturing? {
      PG.ActDisciplined(p.target, env, src, View(pipe), move.act);
    }
  }

  lemma OrderlyAppends(p: Params, s: System, steps: seq<Step>, step: Step)
    requires Orderly(p, s, steps) && OrderlyStep(Sys.Run(p, s, steps), step)
    ensures Orderly(p, s, steps + [step])
  {
    hide Sys.Run;
    assert (steps + [step])[..|steps|] == steps;
  }

  /** A run of the pipeline is an orderly run of the state machine: its captures publish whole units only. */
  lemma {:induction false} RunIsOrderly(p: Params, env: Cap.Env, src: PG.Source, pipe: Pipe, moves: seq<Move>)
    requires Deployed(p, env, src) && Initial(p, env, pipe)
    ensures var steps := StepsOf(p, env, src, pipe, moves);
            Sys.Run(p, pipe.sys, steps) == Run(p, env, src, pipe, moves).sys && Orderly(p, pipe.sys, steps)
    decreases |moves|
  {
    hide Deployed, Initial, PipeOk, Moved, StepOf, OrderlyStep, Do;
    if moves != [] {
      var front, last := Front(moves), Last(moves);
      var before, steps := Run(p, env, src, pipe, front), StepsOf(p, env, src, pipe, front);
      RunIsOrderly(p, env, src, pipe, front);
      RunKeeps(p, env, src, pipe, front);
      MoveIsStep(p, env, src, before, last);
      var step := StepOf(p, env, src, before, last);
      if step.Some? {
        MoveIsOrderly(p, env, src, before, last);
        RunAppends(p, pipe.sys, steps, step.value);
        OrderlyAppends(p, pipe.sys, steps, step.value);
      } else {
        assert steps + [] == steps;
      }
    }
  }

  /** Whenever the source scan of a PostgreSQL collector runs, no capture is alive and the server has stored and
      applied exactly what was published, with no transaction open and no schema refresh pending. */
  lemma ScanFindsServerLevel(p: Params, env: Cap.Env, src: PG.Source, pipe: Pipe, moves: seq<Move>, step: Step)
    requires Deployed(p, env, src) && Initial(p, env, pipe) && Scans(Run(p, env, src, pipe, moves).sys, step)
    ensures var t := Do(p, Run(p, env, src, pipe, moves).sys, step);
            && Alive(t) == 0 && Stored(t) == |Log(t.col)|
            && (Log(t.col) != [] ==> && t.srv.store.generation == Generation(t.col) && t.srv.log == Log(t.col)
                                     && t.srv.store.applied == t.srv.store.received == |Log(t.col)|
                                     && t.srv.store.openTransaction == "" && t.srv.store.pendingSchema == "")
  {
    hide Deployed, Run, Orderly, Scans, Do, Log;
    RunIsOrderly(p, env, src, pipe, moves);
    ScanIsQuiescent(p, pipe.sys, StepsOf(p, env, src, pipe, moves), step);
  }

  /** What was published for a generation, and from what. */
  function LogOf(pipe: Pipe, g: string): seq<Message> {
    if g in pipe.sys.col.history then pipe.sys.col.history[g] else []
  }

  function Origin(pipe: Pipe, g: string): PG.Account {
    if g in pipe.accounts then pipe.accounts[g] else PG.NoAccount
  }

  /** It, offered to a server. */
  function Given(p: Params, env: Cap.Env, src: PG.Source, pipe: Pipe, g: string, db: Database): A.Offer {
    A.Offer(p.target, env, src, Origin(pipe, g), db, g, LogOf(pipe, g))
  }

  /** It was published by this deployment, and positions are canonical. */
  lemma LogOfFits(p: Params, env: Cap.Env, src: PG.Source, pipe: Pipe, moves: seq<Move>, g: string)
    requires Deployed(p, env, src) && Initial(p, env, pipe)
    ensures var r := Run(p, env, src, pipe, moves);
            var log := LogOf(r, g);
            && (log != [] ==> PG.LogOk(p.target, env, src, Origin(r, g), log))
            && (forall i | 0 <= i < |log| :: log[i].generation == g && log[i].seqNo == i + 1)
            && PG.Proper(env, src) && ProperTables(p.target.tables) && TableSet(env.tables) == TableSet(p.target.tables)
  {
    hide PipeOk, Run, PG.Proper, Initial, PG.LogOk, ProperTables;
    var r := Run(p, env, src, pipe, moves);
    RunKeeps(p, env, src, pipe, moves);
    PipeGood(p, env, src, r);
    if g in r.sys.col.history {
      AllLogsFit(p, env, src, r, g);
      LogCanonical(p, r.sys, g);
    }
  }

  ghost predicate TakesAll(p: Params, db: Database, log: seq<Message>) {
    |log| <= MaxBigint && forall i | 0 <= i < |log| :: Takes(p.target, db.columns, log[i])
  }

  /** The log is stored and the server stands at its end, or only data or a transaction without rows stopped it. */
  ghost predicate AdmitsLog(p: Params, db: Database, g: string, log: seq<Message>, full: bool) {
    match StoreAll(p.target, db, log)
    case Success(next) =>
      log != [] ==>
        var s := SpeakAll(TableSet(p.target.tables), Barrier.Stream.Fresh, log);
        full && s.Some? && Follows(p.target, next, s.value) && next.generation == g && next.received == |log|
    case Failure(e) => e == Inapplicable || (e == Refused && !full)
  }

  /** In every run, whatever a collector has published for a generation is admitted by every server that has not
      seen that generation: it passes the version, phase, contiguity and open-transaction checks and the schema
      barrier, unless a transaction without rows is in it, with which it is never stored; otherwise only data can
      stop it. */
  lemma PublishedIsAdmitted(p: Params, env: Cap.Env, src: PG.Source, pipe: Pipe, moves: seq<Move>, g: string,
                            db: Database)
    requires Deployed(p, env, src) && Initial(p, env, pipe) && db.generation != g
    requires TakesAll(p, db, LogOf(Run(p, env, src, pipe, moves), g))
    ensures var r := Run(p, env, src, pipe, moves); AdmitsLog(p, db, g, LogOf(r, g), A.Full(Origin(r, g)))
  {
    hide Deployed, PipeOk, Run, PG.Proper, Takes, Follows, StoreAll, Initial, SpeakAll, A.Full, HasLoneEnd, PG.LogOk;
    var r := Run(p, env, src, pipe, moves);
    var log := LogOf(r, g);
    LogOfFits(p, env, src, pipe, moves, g);
    if log == [] {
      NothingStored(p.target, db);
    } else {
      A.LoneEndsAreEmpty(Given(p, env, src, r, g, db));
      SpokenLog(p, env, src, Origin(r, g), log);
      Barrier.StreamAdmitted(p.target, db, g, log);
    }
  }

  lemma SpokenLog(p: Params, env: Cap.Env, src: PG.Source, account: PG.Account, log: seq<Message>)
    requires PG.LogOk(p.target, env, src, account, log) && TableSet(env.tables) == TableSet(p.target.tables)
    ensures SpeakAll(TableSet(p.target.tables), Barrier.Stream.Fresh, log).Some?
  {
    hide PG.Shows, PG.Opened, PG.Mirrored, PG.DoneFits, SpeakAll, TableSet;
  }

  /** With a truthful source a server that has not seen the generation, has the captured tables and can take the
      announced schemas stores all of it if and only if every transaction in it has a row, every update sends a column,
      and the columns of the snapshot's rows were there before the snapshot. */
  lemma PublishedIsStored(p: Params, env: Cap.Env, src: PG.Source, pipe: Pipe, moves: seq<Move>, g: string,
                          db: Database)
    requires Deployed(p, env, src) && A.FaithfulHash(env) && Initial(p, env, pipe)
    requires var r := Run(p, env, src, pipe, moves);
             LogOf(r, g) != [] ==> PG.Truthful(src, Origin(r, g)) && A.Ready(Given(p, env, src, r, g, db))
    ensures var r := Run(p, env, src, pipe, moves);
            StoreAll(p.target, db, LogOf(r, g)).Success? <==>
              LogOf(r, g) == [] || A.Storable(env, db.columns, Origin(r, g))
  {
    hide Deployed, Run, Initial, A.Ready, A.Storable, StoreAll, PG.Truthful, PG.LogOk, PG.Proper, A.FaithfulHash;
    var r := Run(p, env, src, pipe, moves);
    var log, o := LogOf(r, g), Given(p, env, src, r, g, db);
    LogOfFits(p, env, src, pipe, moves, g);
    if log == [] {
      NothingStored(p.target, db);
    } else {
      A.TruthfulIsStored(o);
      assert A.Before(o, |log|) == log;
    }
  }

  lemma NothingStored(cfg: Config, db: Database)
    ensures StoreAll(cfg, db, []) == Success(db)
  {
  }

  lemma LogCanonical(p: Params, s: System, g: string)
    requires Good(p, s) && g in s.col.history
    ensures forall i | 0 <= i < |s.col.history[g]| ::
              s.col.history[g][i].generation == g && s.col.history[g][i].seqNo == i + 1
  {
    hide ServerOk, SessionOk, FramesOk, GrantsOk, Traceable;
    assert PublishedLog(p, g, s.col.history[g]);
  }

  // ---------------------------------------------------------------- target and source

  lemma {:induction false} LastCloses(log: seq<Message>)
    ensures LastClosing(log) <= |log| && (LastClosing(log) > 0 ==> Closing(log[LastClosing(log) - 1].kind))
    decreases |log|
  {
    if log != [] && !Closing(Last(log).kind) {
      LastCloses(Front(log));
    }
  }

  /** As soon as anything is applied the whole snapshot is. */
  lemma AppliedCoversSnapshot(cfg: Config, env: Cap.Env, src: PG.Source, account: PG.Account, all: seq<Message>,
                              log: seq<Message>)
    requires PG.LogOk(cfg, env, src, account, all) && log <= all && LastClosing(log) > 0
    ensures |account.first| <= LastClosing(log) <= |log|
  {
    hide ShotLog, SpeakAll, PG.Shows, PG.DoneFits, MirrorsAt;
    LastCloses(log);
    var version := env.hash(account.shot.schemas);
    ShotOpen(env, account.shot, version, account.first);
    assert Mirrors(cfg, Replica(map[], map[]), account.first, all, account.done);
    var i := LastClosing(log) - 1;
    assert i < |account.first| ==> all[i] == account.first[i];
  }

  /** In every run of the pipeline, with whatever crashes, breaks, reconnects, replays, schema refreshes and
      repairs on either side: as soon as the target has applied anything of its generation, each captured table
      holds exactly the rows the source had after a whole number of committed transactions, namely those its
      snapshot covers and as many as the applied messages contain completely. */
  lemma TargetMirrorsSource(p: Params, env: Cap.Env, src: PG.Source, pipe: Pipe, moves: seq<Move>)
    requires Deployed(p, env, src) && Initial(p, env, pipe) && PickWorks(p.target.pick)
    requires var r := Run(p, env, src, pipe, moves); forall g | g in r.accounts :: PG.Truthful(src, r.accounts[g])
    ensures var r := Run(p, env, src, pipe, moves);
            var v := r.sys.srv;
            v.store.applied > 0 ==>
              && v.store.applied <= |v.log| && v.store.generation in r.accounts
              && var k := r.accounts[v.store.generation].shot.past + Ends(v.log[..v.store.applied]);
                 k <= |src.happened| && Agree(PG.Names(env), PG.TablesAfter(src, k), v.store.tables)
  {
    hide PipeOk, Run, Initial, Deployed, PickWorks, PG.Truthful, PG.LogOk, Ends, Agree, PG.TablesAfter, Effect,
         PG.Names, Traceable;
    var r := Run(p, env, src, pipe, moves);
    var v := r.sys.srv;
    RunKeeps(p, env, src, pipe, moves);
    PipeServer(p, env, src, r);
    if v.store.applied > 0 {
      var g := v.store.generation;
      AllLogsFit(p, env, src, r, g);
      var all, account, n := r.sys.col.history[g], r.accounts[g], v.store.applied;
      AppliedCoversSnapshot(p.target, env, src, account, all, v.log);
      assert v.log[..n] == all[..n];
      DeployedProper(p, env, src);
      PG.ReplicaMirrorsSource(p.target, env, src, account, all, v.base, n);
    }
  }

  lemma DeployedProper(p: Params, env: Cap.Env, src: PG.Source)
    requires Deployed(p, env, src)
    ensures PG.Proper(env, src)
  {
  }

  /** What the invariant says about the server. */
  lemma PipeServer(p: Params, env: Cap.Env, src: PG.Source, pipe: Pipe)
    requires PipeOk(p, env, src, pipe)
    ensures var v := pipe.sys.srv;
            && v.store.applied == LastClosing(v.log) <= |v.log|
            && v.store.tables == Effect(p.target, v.base, v.log[..v.store.applied]).tables
            && (v.log != [] ==> && v.store.generation in pipe.sys.col.history
                                && v.log <= pipe.sys.col.history[v.store.generation])
            && forall ref | ref in env.tables :: ref.name in v.base.tables
  {
    hide PG.Ok, AccountsFit, Controlled, CollectorOk, SessionOk, FramesOk, GrantsOk, Effect;
    EffectStopsAtClosing(p.target, pipe.sys.srv.base, pipe.sys.srv.log);
  }
}
