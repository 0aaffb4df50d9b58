/** The PostgreSQL collector from an empty queue on: an attempt recovers the queue, takes a snapshot unless one is
    sealed, and streams. A crash may come at any point; an unsealed snapshot is started over as a new generation. */
module PgCollector {
  import opened Event
  import Q = Queue
  import opened Target
  import opened Replay
  import Capture
  import opened Barrier
  import opened CaptureStream
  import opened Mirror
  import opened PgSnapshot
  import opened Versions
  import U = Units

  // ---------------------------------------------------------------- the source

  /** The transactions in commit order, the captured tables at the start, and what each transaction did to them. */
  datatype Source = Source(txns: seq<Capture.Txn>, start: Tables, happened: seq<seq<Happened>>)

  function Names(env: Capture.Env): set<string> {
    set ref | ref in env.tables :: ref.name
  }

  ghost predicate SourceOk(env: Capture.Env, src: Source) {
    && Capture.Commits(src.txns) && |src.happened| == |src.txns|
    && forall i | 0 <= i < |src.happened| :: Touches(Names(env), src.happened[i])
  }

  /** What the deployment has to provide. */
  ghost predicate Proper(env: Capture.Env, src: Source) {
    Capture.FaithfulLsn(env) && Captures(env) && DistinctNames(env.tables) && SourceOk(env, src)
  }

  /** The captured tables after the first n transactions. */
  function TablesAfter(src: Source, n: nat): Tables
    requires n <= |src.happened|
  {
    SourceAfter(src.start, src.happened, n)
  }

  ghost predicate ShowsAt(env: Capture.Env, src: Source, shot: Shot, i: nat)
    requires i < |env.tables| == |shot.tables| == |shot.rows| && shot.past <= |src.happened|
  {
    var tables, name := TablesAfter(src, shot.past), env.tables[i].name;
    && TableShot(env.tables[i], shot.tables[i], shot.rows[i])
    && name in tables && tables[name] == Images(shot.tables[i], shot.rows[i])
  }

  /** The exported snapshot shows the captured tables as they were after the transactions up to its consistent
      point. */
  ghost predicate Shows(env: Capture.Env, src: Source, shot: Shot) {
    && ShotOf(env, shot) && shot.past <= |src.txns| == |src.happened|
       && Capture.Frontier(src.txns, shot.past, shot.point)
    && forall i | 0 <= i < |env.tables| :: ShowsAt(env, src, shot, i)
  }

  // ---------------------------------------------------------------- the collector

  /** A snapshot under way: what is still to be appended, and whether its position has been recorded. */
  datatype Snap = Snap(shot: Shot, pointed: bool, todo: seq<Message>)

  /** The running capture. */
  datatype Agent = Agent(proc: Capture.Proc, snap: Option<Snap>)

  const Resting := Agent(Capture.Down, None)

  /** What a generation was published from: its snapshot, the messages of that snapshot, the transactions since. */
  datatype Account = Account(shot: Shot, first: seq<Message>, done: seq<Capture.Published>)

  const NoAccount := Account(Shot([], [], [], 0, 0), [], [])

  datatype State = State(t: Q.Traced, agent: Agent, account: Account)

  function World(s: State): Capture.World {
    Capture.World(s.t, s.agent.proc, s.account.done)
  }

  datatype Act =
    | Recover
    | Begin(st: Q.State, shot: Shot)
    | Work(free: nat, now: int)
    | Attach(pos: nat, schemas: seq<TableSchema>, tables: Capture.Catalog)
    | Receive
    | Refresh(schemas: seq<TableSchema>)

  predicate IsStream(s: State, act: Act) {
    !act.Recover? && !act.Begin? && !(act.Work? && s.agent.snap.Some?)
  }

  function StreamStep(act: Act): Capture.Step
    requires !act.Recover? && !act.Begin?
  {
    match act
    case Work(free, now) => Capture.Perform(free, now)
    case Attach(pos, schemas, tables) => Capture.Attach(pos, schemas, tables)
    case Receive => Capture.Receive
    case Refresh(schemas) => Capture.Refresh(schemas)
  }

  /** The next queue operation of a snapshot; None once a row has turned out too large. */
  ghost function SnapOp(env: Capture.Env, snap: Snap, free: nat, now: int): Option<Q.Op> {
    if !snap.pointed then Some(Q.OpSnapshotPoint(env.show(snap.shot.point)))
    else if snap.todo != [] then Some(Q.OpAppend(snap.todo[0], free, now))
    else if ShotOf(env, snap.shot) && ShotMessages(env, snap.shot).Some? then
      Some(Q.OpPublish(env.show(snap.shot.point), true, ""))
    else None
  }

  /** The queue operation an act performs, if it performs one. */
  ghost function ActOp(env: Capture.Env, src: Source, s: State, act: Act): Option<Q.Op> {
    if IsStream(s, act) then Capture.StepOp(env, src.txns, World(s), StreamStep(act))
    else
      match act
      case Recover => if s.agent == Resting then Some(Q.OpRecover) else None
      case Begin(st, shot) =>
        if s.agent == Resting && st.schemaHash == env.hash(shot.schemas) != "" && Shows(env, src, shot)
          then Some(Q.OpInitialize(st)) else None
      case _ => if s.agent.snap.None? then None else SnapOp(env, s.agent.snap.value, act.free, act.now)
  }

  function Snapped(snap: Snap, account: Account, t: Q.Traced): State {
    if !snap.pointed then State(t, Agent(Capture.Down, Some(snap.(pointed := true))), account)
    else if snap.todo != [] then State(t, Agent(Capture.Down, Some(snap.(todo := snap.todo[1..]))), account)
    else State(t, Resting, account.(first := t.log))
  }

  /** A failed append is tried again; other failures end the attempt. */
  ghost function Do(env: Capture.Env, src: Source, s: State, act: Act): State {
    var op := ActOp(env, src, s, act);
    if IsStream(s, act) then
      var w := Capture.Do(env, src.txns, World(s), StreamStep(act));
      State(w.t, s.agent.(proc := w.proc), s.account.(done := w.done))
    else if op.None? then (if act.Work? then s.(agent := Resting) else s)
    else if Q.Attempt(env.queue, s.t.d, op.value).Failure? then s
    else
      var t := Q.TraceStep(env.queue, s.t, op.value);
      match act
      case Begin(_, shot) =>
        if !ShotOf(env, shot) then s
        else State(t, Agent(Capture.Down, Some(Snap(shot, false, Planned(env, shot)))), Account(shot, [], []))
      case Work(_, _) => if s.agent.snap.None? then s else Snapped(s.agent.snap.value, s.account, t)
      case _ => s.(t := t)
  }

  // ---------------------------------------------------------------- invariant

  ghost predicate Mirrored(cfg: Config, account: Account, log: seq<Message>) {
    forall base :: Mirrors(cfg, base, account.first, log, account.done)
  }

  ghost predicate Opened(env: Capture.Env, account: Account) {
    ShotLog(env, account.shot, env.hash(account.shot.schemas), account.first)
  }

  /** The published transactions are those of the source past the snapshot, in order. */
  predicate DoneFits(src: Source, account: Account) {
    && account.shot.past + |account.done| <= |src.txns|
    && forall i | 0 <= i < |account.done| ::
         && account.done[i].tx == src.txns[account.shot.past + i]
         && Capture.ConvertAll(account.done[i].tables, account.done[i].tx.changes).Some?
  }

  /** A published log is a spoken stream, at rest: a snapshot of the source and whole transactions since. */
  ghost predicate LogOk(cfg: Config, env: Capture.Env, src: Source, account: Account, log: seq<Message>) {
    && Shows(env, src, account.shot) && Opened(env, account) && Mirrored(cfg, account, log) && DoneFits(src, account)
    && SpeakAll(TableSet(env.tables), Fresh, log).Some? && Dated(env, account.first, log, account.done)
  }

  ghost predicate SnapOk(env: Capture.Env, src: Source, s: State)
    requires s.agent.snap.Some?
  {
    var snap, staged := s.agent.snap.value, Capture.Staged(env.queue, s.t);
    && snap.shot == s.account.shot && Shows(env, src, snap.shot)
    && Hash(s.t) == env.hash(snap.shot.schemas) != "" && s.t.d.state.phase.Snapshot?
    && Capture.Payloads(staged) + snap.todo == Planned(env, snap.shot)
    && forall i | 0 <= i < |staged| :: staged[i].schemaVersion == Hash(s.t)
  }

  ghost predicate Ok(cfg: Config, env: Capture.Env, src: Source, s: State) {
    && Q.TracedValid(env.queue, s.t)
    && if s.t.d.state.phase.Stream? then
         && s.agent.snap.None? && LogOk(cfg, env, src, s.account, s.t.log)
         && Capture.Ok(env, src.txns, s.account.shot.past, World(s)) && Speaks(env, World(s))
       else
         && s.t.log == [] && s.agent.proc.Down? && s.account.first == [] && s.account.done == []
         && (s.agent.snap.Some? ==> SnapOk(env, src, s))
  }

  // ---------------------------------------------------------------- snapshot

  lemma RestOk(cfg: Config, env: Capture.Env, src: Source, s: State)
    requires Ok(cfg, env, src, s)
    ensures Ok(cfg, env, src, s.(agent := Resting))
  {
    hide LogOk, SnapOk, Q.TracedValid, SpeakAll, Capture.Staged;
    if s.t.d.state.phase.Stream? {
      Capture.CrashOk(env, src.txns, s.account.shot.past, World(s));
    }
  }

  lemma InitializeClears(cfg: Q.Config, t: Q.Traced, st: Q.State)
    requires Q.TracedValid(cfg, t) && Q.Attempt(cfg, t.d, Q.OpInitialize(st)).Success?
    ensures var next := Q.TraceStep(cfg, t, Q.OpInitialize(st));
            && Q.TracedValid(cfg, next) && next.log == [] && next.d.state.phase.Snapshot? && Q.Staged(next.d) == []
            && next.d.state.schemaHash == st.schemaHash && next.d.state.generation == st.generation
  {
    Q.TraceStepValid(cfg, t, Q.OpInitialize(st));
  }

  lemma BeginOk(cfg: Config, env: Capture.Env, src: Source, s: State, st: Q.State, shot: Shot)
    requires Ok(cfg, env, src, s)
    ensures Ok(cfg, env, src, Do(env, src, s, Begin(st, shot)))
  {
    hide LogOk, Q.TracedValid, Q.TraceStep, Q.Attempt, SpeakAll, Speaks, Capture.Ok, Planned, Q.Staged;
    if s.agent == Resting && st.schemaHash == env.hash(shot.schemas) != "" && Shows(env, src, shot) {
      if Q.Attempt(env.queue, s.t.d, Q.OpInitialize(st)).Success? {
        InitializeClears(env.queue, s.t, st);
        assert Capture.Payloads([]) + Planned(env, shot) == Planned(env, shot);
      }
    }
  }

  lemma PointKeeps(cfg: Q.Config, t: Q.Traced, point: string)
    requires Q.TracedValid(cfg, t)
    ensures var next := Q.TraceStep(cfg, t, Q.OpSnapshotPoint(point));
            && Q.TracedValid(cfg, next) && next.log == t.log && next.d.state.phase == t.d.state.phase
            && Hash(next) == Hash(t) && Q.Staged(next.d) == Q.Staged(t.d)
  {
    Q.TraceStepValid(cfg, t, Q.OpSnapshotPoint(point));
  }

  lemma PointOk(cfg: Config, env: Capture.Env, src: Source, s: State, free: nat, now: int)
    requires Ok(cfg, env, src, s) && s.agent.snap.Some? && !s.agent.snap.value.pointed
    ensures Ok(cfg, env, src, Do(env, src, s, Work(free, now)))
  {
    hide LogOk, Q.TracedValid, Q.TraceStep, SpeakAll, Speaks, Capture.Ok, Planned, Shows, Q.Staged;
    PointKeeps(env.queue, s.t, env.show(s.agent.snap.value.shot.point));
  }

  lemma StampedDraft(st: Q.State, m: Message, now: int)
    requires SnapshotDraft(m)
    ensures var stamped := Q.Stamp(st, m, now); Capture.Payload(stamped) == m && stamped.schemaVersion == st.schemaHash
  {
  }

  lemma NextPlanned(env: Capture.Env, src: Source, s: State)
    requires s.agent.snap.Some? && Q.TracedValid(env.queue, s.t) && SnapOk(env, src, s) && s.agent.snap.value.todo != []
    ensures SnapshotDraft(s.agent.snap.value.todo[0])
  {
    hide Q.TracedValid, Capture.Staged, Planned, SnapshotDraft, Shows;
    var snap, n := s.agent.snap.value, |Capture.Payloads(Capture.Staged(env.queue, s.t))|;
    ShowsParts(env, src, snap.shot);
    assert Planned(env, snap.shot)[n] == snap.todo[0];
    PlannedDrafts(env, snap.shot, n);
  }

  lemma ShowsParts(env: Capture.Env, src: Source, shot: Shot)
    requires Shows(env, src, shot)
    ensures ShotOf(env, shot) && shot.past <= |src.txns| && Capture.Frontier(src.txns, shot.past, shot.point)
  {
  }

  lemma SnapAppends(env: Capture.Env, src: Source, s: State, t: Q.Traced, stamped: Message)
    requires s.agent.snap.Some? && Q.TracedValid(env.queue, s.t) && SnapOk(env, src, s) && s.agent.snap.value.todo != []
    requires Q.TracedValid(env.queue, t) && Hash(t) == Hash(s.t) && t.d.state.phase == s.t.d.state.phase
    requires Capture.Staged(env.queue, t) == Capture.Staged(env.queue, s.t) + [stamped]
    requires Capture.Payload(stamped) == s.agent.snap.value.todo[0] && stamped.schemaVersion == Hash(s.t)
    ensures var snap := s.agent.snap.value;
            SnapOk(env, src, State(t, Agent(Capture.Down, Some(snap.(todo := snap.todo[1..]))), s.account))
  {
    hide Q.TracedValid, Capture.Staged, Planned, Shows;
    var snap, staged := s.agent.snap.value, Capture.Staged(env.queue, s.t);
    assert Capture.Payloads(staged + [stamped]) == Capture.Payloads(staged) + [snap.todo[0]];
    assert Capture.Payloads(staged) + [snap.todo[0]] + snap.todo[1..] == Capture.Payloads(staged) + snap.todo;
  }

  lemma SnapAppendOk(cfg: Config, env: Capture.Env, src: Source, s: State, free: nat, now: int)
    requires Ok(cfg, env, src, s) && s.agent.snap.Some? && s.agent.snap.value.pointed && s.agent.snap.value.todo != []
    ensures Ok(cfg, env, src, Do(env, src, s, Work(free, now)))
  {
    hide LogOk, Q.TracedValid, Q.TraceStep, Q.Attempt, SpeakAll, Speaks, Capture.Ok, SnapOk, Capture.Staged;
    var m := s.agent.snap.value.todo[0];
    var op := Q.OpAppend(m, free, now);
    if Q.Attempt(env.queue, s.t.d, op).Success? {
      NextPlanned(env, src, s);
      StampedDraft(s.t.d.state, m, now);
      AppendMoves(env, s.t, m, free, now);
      AppendKeepsPhase(env.queue, s.t, op);
      SnapAppends(env, src, s, Q.TraceStep(env.queue, s.t, op), Q.Stamp(s.t.d.state, m, now));
    }
  }

  lemma AppendKeepsPhase(cfg: Q.Config, t: Q.Traced, op: Q.Op)
    requires Q.TracedValid(cfg, t) && op.OpAppend?
    ensures Q.TraceStep(cfg, t, op).d.state.phase == t.d.state.phase
  {
    hide Q.TracedValid;
  }

  /** Sealing: the published log is exactly the snapshot. */
  lemma SealFacts(cfg: Q.Config, t: Q.Traced, lsn: string)
    requires Q.TracedValid(cfg, t) && t.log == [] && t.d.state.phase.Snapshot?
    ensures Q.Attempt(cfg, t.d, Q.OpPublish(lsn, true, "")).Success?
    ensures var next := Q.TraceStep(cfg, t, Q.OpPublish(lsn, true, ""));
            && Q.TracedValid(cfg, next) && next.log == Q.Staged(t.d) && next.d.state.phase.Stream?
            && next.d.state.durableLsn == lsn && Hash(next) == Hash(t)
  {
    var op := Q.OpPublish(lsn, true, "");
    Q.TraceStepValid(cfg, t, op);
    Q.PublishExposesStaged(cfg, t, op);
    assert [] + Q.Staged(t.d) == Q.Staged(t.d);
  }

  lemma FirstMirrors(cfg: Config, first: seq<Message>)
    requires OpenBatch(first) == []
    ensures forall base :: Mirrors(cfg, base, first, first, [])
  {
    hide OpenBatch, Effect;
    forall base ensures Mirrors(cfg, base, first, first, []) {
      assert first[..|first|] == first;
    }
  }

  lemma SealedOk(cfg: Config, env: Capture.Env, src: Source, shot: Shot, t: Q.Traced)
    requires Capture.FaithfulLsn(env) && Captures(env) && Q.TracedValid(env.queue, t) && t.d.state.phase.Stream?
    requires Shows(env, src, shot) && Hash(t) == env.hash(shot.schemas) != ""
             && t.d.state.durableLsn == env.show(shot.point)
    requires ShotLog(env, shot, Hash(t), t.log)
    ensures Ok(cfg, env, src, State(t, Resting, Account(shot, t.log, [])))
    ensures Capture.Snapshotted(env, src.txns, shot.past, Capture.World(t, Capture.Down, []))
  {
    hide Q.TracedValid, ShotLog, Shows, SpeakAll, OpenBatch, Capture.TxPayloads, Capture.Frontier, Mirrors, Hashed;
    ShowsParts(env, src, shot);
    ShotOpen(env, shot, Hash(t), t.log);
    ShotSpeaks(env, shot, Hash(t), t.log);
    ShotHashed(env, shot, t.log);
    assert Dated(env, t.log, t.log, []);
    FirstMirrors(cfg, t.log);
    assert Capture.Units(env, []) == [];
    assert Opened(env, Account(shot, t.log, []));
  }

  lemma SealOk(cfg: Config, env: Capture.Env, src: Source, s: State, free: nat, now: int)
    requires Capture.FaithfulLsn(env) && Captures(env)
    requires Ok(cfg, env, src, s) && s.agent.snap.Some? && s.agent.snap.value.pointed && s.agent.snap.value.todo == []
    ensures Ok(cfg, env, src, Do(env, src, s, Work(free, now)))
  {
    hide LogOk, Q.TracedValid, Q.TraceStep, SpeakAll, Speaks, Capture.Ok, Q.Staged, ShotMessages, Capture.FaithfulLsn;
    var snap, staged := s.agent.snap.value, Capture.Staged(env.queue, s.t);
    assert Capture.Payloads(staged) + [] == Capture.Payloads(staged);
    if ShotMessages(env, snap.shot).Some? {
      SealFacts(env.queue, s.t, env.show(snap.shot.point));
      SealedOk(cfg, env, src, snap.shot, Q.TraceStep(env.queue, s.t, Q.OpPublish(env.show(snap.shot.point), true, "")));
    } else {
      RestOk(cfg, env, src, s);
    }
  }

  lemma SnapWorkOk(cfg: Config, env: Capture.Env, src: Source, s: State, free: nat, now: int)
    requires Capture.FaithfulLsn(env) && Captures(env) && Ok(cfg, env, src, s) && s.agent.snap.Some?
    ensures Ok(cfg, env, src, Do(env, src, s, Work(free, now)))
  {
    hide Ok, Do, Capture.FaithfulLsn;
    if !s.agent.snap.value.pointed {
      PointOk(cfg, env, src, s, free, now);
    } else if s.agent.snap.value.todo != [] {
      SnapAppendOk(cfg, env, src, s, free, now);
    } else {
      SealOk(cfg, env, src, s, free, now);
    }
  }

  // ---------------------------------------------------------------- stream

  lemma DoneFitsFrom(env: Capture.Env, src: Source, shot: Shot, first: seq<Message>, w: Capture.World)
    requires Capture.Ok(env, src.txns, shot.past, w)
    ensures DoneFits(src, Account(shot, first, w.done))
  {
    hide Q.TracedValid, Capture.ProcOk, Capture.TxPayloads, Capture.Units;
    DoneConverts(env, src.txns, shot.past, w);
  }

  /** Every step of the streaming capture keeps the account of what is published. */
  lemma StreamOk(cfg: Config, env: Capture.Env, src: Source, s: State, step: Capture.Step)
    requires Proper(env, src) && Ok(cfg, env, src, s) && s.t.d.state.phase.Stream?
    ensures var w := Capture.Do(env, src.txns, World(s), step);
            Ok(cfg, env, src, State(w.t, s.agent.(proc := w.proc), s.account.(done := w.done)))
  {
    hide Q.TracedValid, Capture.Ok, Speaks, Capture.Do, Shows, Mirrors, DoneFits, SpeakAll, ShotLog,
         Capture.FaithfulLsn, Captures, Dated;
    var past, w := s.account.shot.past, World(s);
    Capture.StepOk(env, src.txns, past, w, step);
    StepSpeaks(env, src.txns, past, w, step);
    StepDated(env, s.account.first, src.txns, past, w, step);
    var next := Capture.Do(env, src.txns, w, step);
    forall base ensures Mirrors(cfg, base, s.account.first, next.t.log, next.done) {
      assert Mirrors(cfg, base, s.account.first, w.t.log, w.done);
      StepMirrors(env, cfg, base, s.account.first, src.txns, past, w, step);
    }
    DoneFitsFrom(env, src, s.account.shot, s.account.first, next);
    WorldParts(env, src, past, next);
    assert Opened(env, s.account.(done := next.done));
  }

  lemma WorldParts(env: Capture.Env, src: Source, past: nat, w: Capture.World)
    requires Capture.Ok(env, src.txns, past, w) && Speaks(env, w)
    ensures Q.TracedValid(env.queue, w.t) && w.t.d.state.phase.Stream?
            && SpeakAll(TableSet(env.tables), Fresh, w.t.log).Some?
  {
  }

  /** While no snapshot is sealed the streaming steps do nothing. */
  lemma StreamIdle(env: Capture.Env, src: Source, s: State, step: Capture.Step)
    requires Q.TracedValid(env.queue, s.t) && s.agent.proc.Down? && !s.t.d.state.phase.Stream? && !step.Deliver?
    ensures Capture.Do(env, src.txns, World(s), step) == World(s) && Capture.StepOp(env, src.txns, World(s), step).None?
  {
    hide Q.TracedValid;
  }

  lemma RecoverEmpties(cfg: Q.Config, t: Q.Traced)
    requires Q.TracedValid(cfg, t)
    ensures var next := Q.TraceStep(cfg, t, Q.OpRecover);
            && Q.TracedValid(cfg, next) && next.log == t.log && next.d.state.phase == t.d.state.phase
            && Hash(next) == Hash(t) && next.d.state.durableLsn == t.d.state.durableLsn && Q.Staged(next.d) == []
  {
    Q.TraceStepValid(cfg, t, Q.OpRecover);
    Q.RecoverDiscardsStaged(cfg, t.d);
  }

  lemma RecoverOk(cfg: Config, env: Capture.Env, src: Source, s: State)
    requires Ok(cfg, env, src, s)
    ensures Ok(cfg, env, src, Do(env, src, s, Recover))
  {
    hide LogOk, Q.TracedValid, Q.TraceStep, SpeakAll, Capture.DoneOk, Capture.Frontier, Capture.TxPayloads,
         Capture.Staged, SnapOk;
    if s.agent == Resting {
      RecoverEmpties(env.queue, s.t);
    }
  }

  /** Every act of the collector keeps the account of what it published. */
  lemma ActOk(cfg: Config, env: Capture.Env, src: Source, s: State, act: Act)
    requires Proper(env, src) && Ok(cfg, env, src, s)
    ensures Ok(cfg, env, src, Do(env, src, s, act))
  {
    hide LogOk, SnapOk, Q.TracedValid, SpeakAll, Speaks, Capture.Ok, Capture.Do, Capture.FaithfulLsn, Captures,
         SourceOk;
    if IsStream(s, act) {
      if s.t.d.state.phase.Stream? {
        StreamOk(cfg, env, src, s, StreamStep(act));
      } else {
        StreamIdle(env, src, s, StreamStep(act));
        assert Do(env, src, s, act) == s;
      }
    } else {
      match act
      case Recover => RecoverOk(cfg, env, src, s);
      case Begin(st, shot) => BeginOk(cfg, env, src, s, st, shot);
      case Work(free, now) => SnapWorkOk(cfg, env, src, s, free, now);
    }
  }

  /** The operation an act names is all it does to the queue. */
  lemma ActOpIsAll(cfg: Config, env: Capture.Env, src: Source, s: State, act: Act)
    requires Ok(cfg, env, src, s)
    ensures Do(env, src, s, act).t == match ActOp(env, src, s, act)
                                      case None => s.t
                                      case Some(op) => Q.TraceStep(env.queue, s.t, op)
  {
    hide LogOk, SnapOk, Q.TracedValid, Q.TraceStep, Q.Attempt, SpeakAll, Speaks, Capture.Ok, Capture.Do, Capture.StepOp;
    if IsStream(s, act) {
      Capture.StepOpIsAll(env, src.txns, World(s), StreamStep(act));
    } else {
      var op := ActOp(env, src, s, act);
      if op.Some? && Q.Attempt(env.queue, s.t.d, op.value).Failure? {
        Capture.FailureKeeps(env.queue, s.t, op.value);
      }
    }
  }

  // ---------------------------------------------------------------- whole units

  lemma PlannedLast(env: Capture.Env, shot: Shot, staged: seq<Message>)
    requires ShotOf(env, shot) && ShotMessages(env, shot) == Some(Capture.Payloads(staged))
    ensures staged != [] && Last(staged).kind.SnapshotEnd?
  {
    hide Opening, ShotRows, ShotOf, Capture.Payload, SealDraft;
    var all := ShotMessages(env, shot).value;
    SealIsEnd(env, shot.point, Last(all));
    assert |all| == |staged| && all[|all| - 1] == SealDraft(env, shot.point);
    assert Capture.Payloads(staged)[|staged| - 1] == Capture.Payload(Last(staged));
  }

  lemma SealIsEnd(env: Capture.Env, point: nat, m: Message)
    requires m == SealDraft(env, point)
    ensures m.kind.SnapshotEnd? && forall n | Capture.Payload(n) == m :: n.kind.SnapshotEnd?
  {
  }

  lemma SnapDisciplined(cfg: Config, env: Capture.Env, src: Source, s: State, free: nat, now: int)
    requires Ok(cfg, env, src, s) && s.agent.snap.Some? && SnapOp(env, s.agent.snap.value, free, now).Some?
    ensures U.Disciplined(s.t.d, SnapOp(env, s.agent.snap.value, free, now).value)
  {
    hide LogOk, SpeakAll, Speaks, Capture.Ok, ShotMessages, Q.Accounted, Shows;
    var snap, op, staged := s.agent.snap.value, SnapOp(env, s.agent.snap.value, free, now).value,
      Capture.Staged(env.queue, s.t);
    if op.OpAppend? {
      NextPlanned(env, src, s);
    } else if op.OpPublish? {
      assert Capture.Payloads(staged) + [] == Capture.Payloads(staged);
      PlannedLast(env, snap.shot, staged);
      U.PublishDisciplined(s.t.d, op);
    }
  }

  /** Every queue operation of the collector, snapshot and stream alike, publishes whole units only. */
  lemma ActDisciplined(cfg: Config, env: Capture.Env, src: Source, s: State, act: Act)
    requires Ok(cfg, env, src, s) && ActOp(env, src, s, act).Some?
    ensures U.Disciplined(s.t.d, ActOp(env, src, s, act).value)
  {
    hide LogOk, SnapOk, Q.TracedValid, SpeakAll, Speaks, Capture.Ok, Capture.NextOp, SnapOp;
    if IsStream(s, act) && s.t.d.state.phase.Stream? {
      if act.Work? {
        CaptureDisciplined(env, src.txns, s.account.shot.past, World(s), act.free, act.now);
      }
    } else if IsStream(s, act) {
      StreamIdle(env, src, s, StreamStep(act));
    } else if act.Work? {
      SnapDisciplined(cfg, env, src, s, act.free, act.now);
    }
  }

  // ---------------------------------------------------------------- the replica mirrors the source

  /** Each published transaction was logged truthfully by the source, under the catalog it was converted with. */
  ghost predicate Truthful(src: Source, account: Account) {
    var past := account.shot.past;
    && past + |account.done| <= |src.happened|
    && TrueLog(TablesAfter(src, past), account.done, src.happened[past..past + |account.done|])
  }

  /** The snapshot brings the captured tables to where the source was. */
  lemma SnapshotMirrors(cfg: Config, env: Capture.Env, src: Source, account: Account, base: Replica)
    requires Shows(env, src, account.shot) && Opened(env, account) && DistinctNames(env.tables) && PickWorks(cfg.pick)
    requires forall ref | ref in env.tables :: ref.name in base.tables
    ensures Agree(Names(env), TablesAfter(src, account.shot.past), Effect(cfg, base, account.first).tables)
    ensures Ends(account.first) == 0
  {
    hide ShotLog, PickWorks, Effect, TablesAfter, Images, Ends, DistinctNames;
    var version := env.hash(account.shot.schemas);
    ShotOpen(env, account.shot, version, account.first);
    forall name | name in Names(env)
      ensures var there, here := TablesAfter(src, account.shot.past), Effect(cfg, base, account.first).tables;
              name in there && name in here && there[name] == here[name]
    {
      var i :| 0 <= i < |env.tables| && env.tables[i].name == name;
      assert ShowsAt(env, src, account.shot, i);
      ShotEffect(env, cfg, base, account.shot, version, account.first, i);
    }
  }

  /** The replica mirrors the source: applying any prefix of a published log that covers the snapshot, to any
      target that has the captured tables, gives those tables as the source had them after a whole number of
      committed transactions, namely the snapshot's and as many as the prefix contains completely. */
  lemma ReplicaMirrorsSource(cfg: Config, env: Capture.Env, src: Source, account: Account, log: seq<Message>,
                             base: Replica, n: nat)
    requires Proper(env, src) && LogOk(cfg, env, src, account, log) && PickWorks(cfg.pick) && Truthful(src, account)
    requires (forall ref | ref in env.tables :: ref.name in base.tables) && |account.first| <= n <= |log|
    ensures var k := account.shot.past + Ends(log[..n]);
            k <= |src.happened| && Agree(Names(env), TablesAfter(src, k), Effect(cfg, base, log[..n]).tables)
  {
    hide PickWorks, Effect, Ends, Agree, Mirrors, TrueLog, SpeakAll, Shows, Opened, SourceAfter, Captures,
         Capture.FaithfulLsn, DistinctNames, Touches;
    var past, end := account.shot.past, account.shot.past + |account.done|;
    var names, there, here, hs := Names(env), TablesAfter(src, past), Effect(cfg, base, account.first).tables,
      src.happened[past..end];
    SnapshotMirrors(cfg, env, src, account, base);
    TrueLogLocal(names, there, here, account.done, hs);
    assert Mirrors(cfg, base, account.first, log, account.done);
    PrefixIsSource(cfg, base, account.first, log, account.done, hs, n);
    var k := Ends(log[..n]);
    SourceLocal(names, there, here, hs, k);
    SourceSplits(src.start, src.happened, past, k, end);
  }
}
