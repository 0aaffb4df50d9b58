/** The trigger-filled outbox of old SQL Server sources: statements are published to the queue first and deleted
    from the outbox afterwards, with a durable token in between. A run is any sequence of commits, collector
    steps, deliveries and crashes. */
module LegacyOutbox {
  import opened Event
  import Q = Queue
  import B = Batching
  import opened Capture
  import U = Units

  /** A captured change: its number and the statement it belongs to. */
  datatype Entry = Entry(changeId: nat, statement: string)

  /** The rows of a statement that could be read and converted; `whole` if that are all of them. */
  datatype Reading = Reading(rows: seq<Row>, whole: bool)

  datatype Env = Env(queue: Q.Config, limits: B.Limits, read: string -> Reading, position: nat -> string,
                     parse: string -> Option<nat>)

  ghost predicate FaithfulPosition(env: Env) {
    forall n: nat :: env.parse(env.position(n)) == Some(n)
  }

  datatype Pc =
    | Stopped
    | Discarding
    | Cleaning
    | CleanClearing(token: string)
    | Polling
    | Filling(statement: string, drafts: seq<Message>, checkpoint: nat)
    | Deleting(statement: string)
    | Clearing(statement: string)
    | Fault

  /** A published statement and the position it was published at. */
  datatype Done = Done(statement: string, checkpoint: nat)

  /** `committed` holds every statement committed after the snapshot boundary, with its change numbers; `done`
      the published ones, in order. */
  datatype World = World(t: Q.Traced, outbox: set<Entry>, committed: map<string, set<nat>>, boundary: nat, pc: Pc,
                         done: seq<Done>)

  function Name(statement: string): string {
    "legacy-statement:" + statement
  }

  function EntriesOf(outbox: set<Entry>, statement: string): set<Entry> {
    set e | e in outbox && e.statement == statement
  }

  function AtPosition(messages: seq<Message>, lsn: string): seq<Message> {
    seq(|messages|, i requires 0 <= i < |messages| => messages[i].(lsn := lsn))
  }

  /** The messages of a statement: chunks of all its rows and the end marker, at the checkpoint position. */
  function Messages(env: Env, statement: string, checkpoint: nat): Option<seq<Message>> {
    var reading := env.read(statement);
    var unit := B.Encode(env.limits, Name(statement), reading.rows);
    if !reading.whole || unit.None? then None else Some(AtPosition(unit.value, env.position(checkpoint)))
  }

  /** What is appended for a statement: its messages, or the chunks filled before reading or batching fails. */
  function Planned(env: Env, statement: string, checkpoint: nat): seq<Message> {
    var reading := env.read(statement);
    AtPosition(B.Attempted(env.limits, Name(statement), reading.rows, reading.whole), env.position(checkpoint))
  }

  // ---------------------------------------------------------------- steps

  datatype Step =
    | Commit(statement: string, ids: set<nat>)
    | Attach
    | Work(free: nat, now: int)
    | Deliver(seqNo: nat, id: MessageId, ackedAt: int)
    | Crash

  /** A new statement: a fresh identifier, fresh change numbers past the boundary. */
  predicate MayCommit(w: World, statement: string, ids: set<nat>) {
    && statement != "" && statement !in w.committed && ids != {}
    && (forall i | i in ids :: i > w.boundary && forall s | s in w.committed :: i !in w.committed[s])
    && (forall e | e in w.outbox :: e.statement != statement)
  }

  function DoCommit(w: World, statement: string, ids: set<nat>): World {
    if !MayCommit(w, statement, ids) then w
    else w.(committed := w.committed[statement := ids], outbox := w.outbox + set i | i in ids :: Entry(i, statement))
  }

  /** SELECT TOP 1 ... ORDER BY change_id. */
  ghost predicate IsFirst(outbox: set<Entry>, e: Entry) {
    e in outbox && forall f | f in outbox :: e.changeId <= f.changeId
  }

  lemma {:induction false} FirstExists(outbox: set<Entry>)
    requires outbox != {}
    ensures exists e :: IsFirst(outbox, e)
    decreases |outbox|
  {
    var e :| e in outbox;
    if outbox == {e} {
      assert IsFirst(outbox, e);
    } else {
      FirstExists(outbox - {e});
      var f :| IsFirst(outbox - {e}, f);
      assert IsFirst(outbox, if e.changeId <= f.changeId then e else f);
    }
  }

  ghost function First(outbox: set<Entry>): (e: Entry)
    requires outbox != {}
    ensures IsFirst(outbox, e)
  {
    FirstExists(outbox);
    var e :| IsFirst(outbox, e);
    e
  }

  /** The largest change number, or the given one if that is larger. */
  ghost function Maximum(entries: set<Entry>, least: nat): (n: nat)
    ensures n >= least && forall e | e in entries :: e.changeId <= n
    ensures n == least || exists e | e in entries :: e.changeId == n
    decreases |entries|
  {
    if entries == {} then least
    else
      var e :| e in entries;
      var rest := Maximum(entries - {e}, least);
      if rest < e.changeId then e.changeId else rest
  }

  /** Deletes one change the snapshot already covers, or goes on. */
  ghost function DoDiscard(w: World): World {
    if w.outbox == {} || First(w.outbox).changeId > w.boundary then w.(pc := Cleaning)
    else w.(outbox := w.outbox - {First(w.outbox)})
  }

  /** Finishes the deletion a crash interrupted; the statement may already be gone. */
  function DoClean(w: World): World {
    var token := w.t.d.state.sourceCleanup;
    if token == "" then w.(pc := Polling)
    else w.(outbox := w.outbox - EntriesOf(w.outbox, token), pc := CleanClearing(token))
  }

  ghost function DoClear(env: Env, w: World, token: string): World {
    var op := Q.OpClearCleanup(token);
    if Q.Attempt(env.queue, w.t.d, op).Failure? then w.(pc := Fault)
    else w.(t := Q.TraceStep(env.queue, w.t, op), pc := Polling)
  }

  /** Picks the statement of the first change; it is published at the larger of the durable position and its
      largest change number. */
  ghost function DoPoll(env: Env, w: World): World {
    var durable := env.parse(w.t.d.state.durableLsn);
    if durable.None? then w.(pc := Stopped)
    else if w.outbox == {} then w
    else
      var statement := First(w.outbox).statement;
      var checkpoint := Maximum(EntriesOf(w.outbox, statement), durable.value);
      w.(pc := Filling(statement, Planned(env, statement, checkpoint), checkpoint))
  }

  /** Appends the next message; then publishes them all together with the cleanup token, or gives up. */
  ghost function DoFill(env: Env, w: World, free: nat, now: int): World
    requires w.pc.Filling?
  {
    var pc := w.pc;
    if pc.drafts != [] then
      var op := Q.OpAppend(pc.drafts[0], free, now);
      if Q.Attempt(env.queue, w.t.d, op).Failure? then w
      else w.(t := Q.TraceStep(env.queue, w.t, op), pc := pc.(drafts := pc.drafts[1..]))
    else if Messages(env, pc.statement, pc.checkpoint).None? then w.(pc := Stopped)
    else
      w.(t := Q.TraceStep(env.queue, w.t, Q.OpPublish(env.position(pc.checkpoint), false, pc.statement)),
         pc := Deleting(pc.statement), done := w.done + [Done(pc.statement, pc.checkpoint)])
  }

  /** Deletes the published statement, which must still be there. */
  function DoDelete(w: World, statement: string): World {
    if EntriesOf(w.outbox, statement) == {} then w.(pc := Fault)
    else w.(outbox := w.outbox - EntriesOf(w.outbox, statement), pc := Clearing(statement))
  }

  ghost function DoWork(env: Env, w: World, free: nat, now: int): World {
    match w.pc
    case Discarding => DoDiscard(w)
    case Cleaning => DoClean(w)
    case CleanClearing(token) => DoClear(env, w, token)
    case Polling => DoPoll(env, w)
    case Filling(_, _, _) => DoFill(env, w, free, now)
    case Deleting(statement) => DoDelete(w, statement)
    case Clearing(statement) => DoClear(env, w, statement)
    case _ => w
  }

  ghost function Do(env: Env, w: World, step: Step): World {
    match step
    case Commit(statement, ids) => DoCommit(w, statement, ids)
    case Attach => w.(t := Q.TraceStep(env.queue, w.t, Q.OpRecover), pc := Discarding)
    case Work(free, now) => DoWork(env, w, free, now)
    case Deliver(seqNo, id, now) => w.(t := Q.TraceStep(env.queue, w.t, Q.OpAck(seqNo, id, now)))
    case Crash => w.(pc := Stopped)
  }

  // ---------------------------------------------------------------- what is published

  lemma AtPositionBare(messages: seq<Message>, lsn: string)
    requires Bare(messages)
    ensures Bare(AtPosition(messages, lsn))
  {
  }

  /** The unit of a statement: numbered chunks that concatenate to all its rows, and the end marker with their
      number, all under the statement's name and position. */
  predicate Whole(env: Env, d: Done, unit: seq<Message>) {
    var n := |unit| - 1;
    && n >= 0 && env.read(d.statement).whole && B.Concat(unit[..n]) == env.read(d.statement).rows
    && unit[n].kind.TransactionEnd? && unit[n].chunk == n
    && forall k | 0 <= k <= n ::
         && unit[k].transaction == Name(d.statement) && unit[k].lsn == env.position(d.checkpoint)
         && (k < n ==> unit[k].kind.TransactionRows? && unit[k].chunk == k)
  }

  lemma {:induction false} PositionKeepsRows(messages: seq<Message>, lsn: string)
    ensures B.Concat(AtPosition(messages, lsn)) == B.Concat(messages)
    decreases |messages|
  {
    if messages != [] {
      var front, all := messages[..|messages| - 1], AtPosition(messages, lsn);
      PositionKeepsRows(front, lsn);
      assert all[..|all| - 1] == AtPosition(front, lsn);
    }
  }

  /** What is published for a statement is all of it. */
  lemma MessagesWhole(env: Env, d: Done)
    requires Messages(env, d.statement, d.checkpoint).Some?
    ensures Whole(env, d, Messages(env, d.statement, d.checkpoint).value)
  {
    hide B.Encode, B.Within, B.Concat;
    var name, rows, lsn := Name(d.statement), env.read(d.statement).rows, env.position(d.checkpoint);
    var unit, messages := B.Encode(env.limits, name, rows).value, Messages(env, d.statement, d.checkpoint).value;
    B.EncodeChunks(env.limits, name, rows);
    var n := |unit| - 1;
    assert messages[..n] == AtPosition(unit[..n], lsn);
    PositionKeepsRows(unit[..n], lsn);
    forall k | 0 <= k < n ensures unit[k].kind.TransactionRows? && unit[k].chunk == k && unit[k].transaction == name {
      assert unit[..n][k] == unit[k];
    }
  }

  /** Everything appended for a statement is a transaction message without an envelope. */
  lemma PlannedBare(env: Env, statement: string, checkpoint: nat)
    ensures Bare(Planned(env, statement, checkpoint))
  {
    hide B.Attempted, Bare, AtPosition;
    var name, reading := Name(statement), env.read(statement);
    AttemptedBare(env.limits, name, reading.rows, reading.whole);
    AtPositionBare(B.Attempted(env.limits, name, reading.rows, reading.whole), env.position(checkpoint));
  }

  /** The messages of the published statements, each whole, in order. */
  function Units(env: Env, done: seq<Done>): seq<Message> {
    if done == [] then []
    else
      var last := Messages(env, done[|done| - 1].statement, done[|done| - 1].checkpoint);
      Units(env, done[..|done| - 1]) + if last.Some? then last.value else []
  }

  // ---------------------------------------------------------------- invariant

  predicate Published(done: seq<Done>, statement: string) {
    exists i | 0 <= i < |done| :: done[i].statement == statement
  }

  predicate NoRepeats(done: seq<Done>) {
    forall i, j | 0 <= i < j < |done| :: done[i].statement != done[j].statement
  }

  function Entries(s: string, ids: set<nat>): set<Entry> {
    set i | i in ids :: Entry(i, s)
  }

  /** A committed statement is in the outbox whole or not at all; it is published or still there, and in both
      places only while the durable token names it. A published one is at or before the durable position. */
  predicate StatementOk(s: string, ids: set<nat>, entries: set<Entry>, published: bool, token: string, boundary: nat,
                        durable: nat) {
    && s != "" && ids != {} && (forall i | i in ids :: i > boundary)
    && (entries == {} || entries == Entries(s, ids))
    && (published || entries != {})
    && (published && entries != {} ==> token == s)
    && (published ==> forall i | i in ids :: i <= durable)
  }

  predicate KnownEntry(w: World, e: Entry) {
    e.statement in w.committed || e.changeId <= w.boundary
  }

  function Durable(env: Env, w: World): nat {
    var durable := env.parse(w.t.d.state.durableLsn);
    if durable.Some? then durable.value else 0
  }

  predicate Holds(env: Env, w: World, s: string)
    requires s in w.committed
  {
    StatementOk(s, w.committed[s], EntriesOf(w.outbox, s), Published(w.done, s), w.t.d.state.sourceCleanup, w.boundary,
                Durable(env, w))
  }

  /** Conservation: every statement past the boundary is published once or still in the outbox, and one in both
      places is the one the durable token names. */
  ghost predicate Conserved(env: Env, w: World) {
    && NoRepeats(w.done)
    && (forall s | s in w.committed :: Holds(env, w, s))
    && (forall e | e in w.outbox :: KnownEntry(w, e))
    && (forall i | 0 <= i < |w.done| :: w.done[i].statement in w.committed)
    && (w.t.d.state.sourceCleanup != "" ==>
          w.t.d.state.sourceCleanup in w.committed && Published(w.done, w.t.d.state.sourceCleanup))
  }

  /** The published log carries exactly the messages of the published statements. */
  predicate Carries(env: Env, log: seq<Message>, done: seq<Done>) {
    && TxPayloads(log) == Units(env, done)
    && forall i | 0 <= i < |done| :: Messages(env, done[i].statement, done[i].checkpoint).Some?
  }

  /** The snapshot's own changes have been discarded. */
  predicate AllPast(w: World) {
    forall e | e in w.outbox :: e.changeId > w.boundary
  }

  /** A statement that is about to be published: its messages are staged and waiting, and its position covers it. */
  predicate FillOk(env: Env, w: World, staged: seq<Message>, s: string, drafts: seq<Message>, checkpoint: nat) {
    && staged + drafts == Planned(env, s, checkpoint)
    && s in w.committed && !Published(w.done, s)
    && Durable(env, w) <= checkpoint && forall i | i in w.committed[s] :: i <= checkpoint
  }

  /** `staged` are the stored but invisible messages. */
  ghost predicate PcOk(env: Env, w: World, staged: seq<Message>) {
    var token := w.t.d.state.sourceCleanup;
    match w.pc
    case Stopped => true
    case Discarding => staged == []
    case Cleaning => staged == [] && AllPast(w)
    case CleanClearing(s) => staged == [] && AllPast(w) && token == s && EntriesOf(w.outbox, s) == {}
    case Polling => staged == [] && AllPast(w) && token == ""
    case Filling(s, drafts, checkpoint) => AllPast(w) && token == "" && FillOk(env, w, staged, s, drafts, checkpoint)
    case Deleting(s) => staged == [] && AllPast(w) && token == s && EntriesOf(w.outbox, s) != {}
    case Clearing(s) => staged == [] && AllPast(w) && token == s && EntriesOf(w.outbox, s) == {}
    case Fault => false
  }

  function StagedPayloads(env: Env, t: Q.Traced): seq<Message> {
    Payloads(Q.Staged(t.d))
  }

  ghost predicate Ok(env: Env, w: World) {
    && Q.TracedValid(env.queue, w.t) && w.t.d.state.phase.Stream? && env.parse(w.t.d.state.durableLsn).Some?
    && Conserved(env, w) && Carries(env, w.t.log, w.done) && PcOk(env, w, StagedPayloads(env, w.t))
  }

  // ---------------------------------------------------------------- the outbox

  lemma UncommittedUnpublished(env: Env, w: World, s: string)
    requires Conserved(env, w) && s !in w.committed
    ensures !Published(w.done, s)
  {
    hide NoRepeats, Holds;
  }

  lemma CommitEntries(w: World, s: string, ids: set<nat>, x: string)
    requires MayCommit(w, s, ids)
    ensures EntriesOf(DoCommit(w, s, ids).outbox, x) == if x == s then Entries(s, ids) else EntriesOf(w.outbox, x)
    ensures Entries(s, ids) != {}
  {
    var i :| i in ids;
    assert Entry(i, s) in Entries(s, ids);
  }

  lemma CommitHolds(env: Env, w: World, s: string, ids: set<nat>, x: string)
    requires Conserved(env, w) && MayCommit(w, s, ids) && (x == s || x in w.committed)
    ensures Holds(env, DoCommit(w, s, ids), x)
  {
    hide EntriesOf, Entries, Published;
    CommitEntries(w, s, ids, x);
    UncommittedUnpublished(env, w, s);
    assert x != s ==> Holds(env, w, x);
  }

  lemma CommitOk(env: Env, w: World, staged: seq<Message>, s: string, ids: set<nat>)
    requires Conserved(env, w) && PcOk(env, w, staged) && MayCommit(w, s, ids)
    ensures Conserved(env, DoCommit(w, s, ids)) && PcOk(env, DoCommit(w, s, ids), staged)
  {
    hide NoRepeats, Holds, EntriesOf, Published, Planned;
    var next := DoCommit(w, s, ids);
    forall x | x in next.committed ensures Holds(env, next, x) {
      CommitHolds(env, w, s, ids, x);
    }
    forall e | e in next.outbox ensures KnownEntry(next, e) {
      assert e in w.outbox ==> KnownEntry(w, e);
    }
    if w.pc.CleanClearing? || w.pc.Deleting? || w.pc.Clearing? {
      CommitEntries(w, s, ids, w.t.d.state.sourceCleanup);
      UncommittedUnpublished(env, w, s);
    }
  }

  /** Removing entries of nothing committed, or all entries of the published token, keeps conservation. */
  lemma RemovalConserves(env: Env, w: World, gone: set<Entry>, pc: Pc)
    requires Conserved(env, w) && gone <= w.outbox
    requires forall x | x in w.committed ::
               || EntriesOf(w.outbox - gone, x) == EntriesOf(w.outbox, x)
               || (Published(w.done, x) && EntriesOf(w.outbox - gone, x) == {})
    ensures Conserved(env, w.(outbox := w.outbox - gone, pc := pc))
  {
    hide NoRepeats, EntriesOf, Published;
    var next := w.(outbox := w.outbox - gone, pc := pc);
    forall x | x in w.committed ensures Holds(env, next, x) {
      assert Holds(env, w, x);
    }
    forall e | e in next.outbox ensures KnownEntry(next, e) {
      assert KnownEntry(w, e);
    }
  }

  /** Discarding removes only changes the snapshot covers; every statement committed past it stays whole. */
  lemma DiscardOk(env: Env, w: World, staged: seq<Message>)
    requires Conserved(env, w) && PcOk(env, w, staged) && w.pc.Discarding?
    ensures Conserved(env, DoDiscard(w)) && PcOk(env, DoDiscard(w), staged)
    ensures forall x | x in w.committed :: EntriesOf(DoDiscard(w).outbox, x) == EntriesOf(w.outbox, x)
    ensures DoDiscard(w).outbox <= w.outbox && forall e | e in w.outbox - DoDiscard(w).outbox ::
              e.changeId <= w.boundary
    ensures DoDiscard(w).pc.Cleaning? ==> AllPast(DoDiscard(w))
  {
    hide NoRepeats, Published;
    if w.outbox == {} || First(w.outbox).changeId > w.boundary {
      RemovalConserves(env, w, {}, Cleaning);
      assert w.outbox - {} == w.outbox;
      assert AllPast(DoDiscard(w));
    } else {
      var e := First(w.outbox);
      forall x | x in w.committed ensures EntriesOf(w.outbox - {e}, x) == EntriesOf(w.outbox, x) {
        assert Holds(env, w, x);
        assert e.statement == x ==> e in EntriesOf(w.outbox, x);
      }
      RemovalConserves(env, w, {e}, w.pc);
      assert DoDiscard(w) == w.(outbox := w.outbox - {e}, pc := w.pc);
    }
  }

  /** Deleting the statement the token names. */
  lemma DeleteTokenOk(env: Env, w: World, pc: Pc)
    requires Conserved(env, w) && w.t.d.state.sourceCleanup != ""
    ensures var gone := EntriesOf(w.outbox, w.t.d.state.sourceCleanup);
            && Conserved(env, w.(outbox := w.outbox - gone, pc := pc))
            && EntriesOf(w.outbox - gone, w.t.d.state.sourceCleanup) == {}
            && forall e | e in w.outbox && e.statement != w.t.d.state.sourceCleanup :: e in w.outbox - gone
  {
    hide NoRepeats, Holds, Published;
    var gone := EntriesOf(w.outbox, w.t.d.state.sourceCleanup);
    forall x | x in w.committed
      ensures || EntriesOf(w.outbox - gone, x) == EntriesOf(w.outbox, x)
              || (Published(w.done, x) && EntriesOf(w.outbox - gone, x) == {})
    {
      if x == w.t.d.state.sourceCleanup {
        assert EntriesOf(w.outbox - gone, x) == {};
      } else {
        assert EntriesOf(w.outbox - gone, x) == EntriesOf(w.outbox, x);
      }
    }
    RemovalConserves(env, w, gone, pc);
  }

  /** A restart deletes the statement the token names and nothing else. */
  lemma CleanOk(env: Env, w: World, staged: seq<Message>)
    requires Conserved(env, w) && PcOk(env, w, staged) && w.pc.Cleaning?
    ensures Conserved(env, DoClean(w)) && PcOk(env, DoClean(w), staged)
    ensures w.t.d.state.sourceCleanup != "" ==> EntriesOf(DoClean(w).outbox, w.t.d.state.sourceCleanup) == {}
    ensures w.t.d.state.sourceCleanup != "" ==> Published(w.done, w.t.d.state.sourceCleanup)
    ensures forall e | e in w.outbox && (w.t.d.state.sourceCleanup == "" || e.statement != w.t.d.state.sourceCleanup) ::
              e in DoClean(w).outbox
  {
    hide NoRepeats, Holds, Published, EntriesOf;
    var token := w.t.d.state.sourceCleanup;
    if token == "" {
      NothingRemoved(env, w, Polling);
    } else {
      DeleteTokenOk(env, w, CleanClearing(token));
    }
  }

  lemma NothingRemoved(env: Env, w: World, pc: Pc)
    requires Conserved(env, w)
    ensures Conserved(env, w.(pc := pc))
  {
    hide NoRepeats, Published;
    assert w.outbox - {} == w.outbox;
    RemovalConserves(env, w, {}, pc);
    assert w.(outbox := w.outbox - {}, pc := pc) == w.(pc := pc);
  }

  lemma DeleteOk(env: Env, w: World, staged: seq<Message>, s: string)
    requires Conserved(env, w) && PcOk(env, w, staged) && w.pc == Deleting(s)
    ensures Conserved(env, DoDelete(w, s)) && PcOk(env, DoDelete(w, s), staged)
  {
    hide NoRepeats, Holds, Published, EntriesOf;
    assert s != "" by {
      TokenNamed(env, w);
    }
    DeleteTokenOk(env, w, Clearing(s));
  }

  lemma TokenNamed(env: Env, w: World)
    requires Conserved(env, w) && EntriesOf(w.outbox, w.t.d.state.sourceCleanup) != {} && AllPast(w)
    ensures w.t.d.state.sourceCleanup != ""
  {
    hide NoRepeats, Published;
    var e :| e in EntriesOf(w.outbox, w.t.d.state.sourceCleanup);
    assert KnownEntry(w, e);
    assert Holds(env, w, e.statement);
  }

  // ---------------------------------------------------------------- queue operations

  /** Recovering, delivering and clearing the token leave the published log alone. */
  lemma QuietTrace(env: Env, t: Q.Traced, op: Q.Op)
    requires Q.TracedValid(env.queue, t) && (op.OpRecover? || op.OpAck? || op.OpClearCleanup?)
    ensures var next := Q.TraceStep(env.queue, t, op);
            && Q.TracedValid(env.queue, next) && next.log == t.log && SameRecord(t, next)
            && StagedPayloads(env, next) == (if op.OpRecover? then [] else StagedPayloads(env, t))
            && next.d.state.sourceCleanup ==
               (if op.OpClearCleanup? && op.expected == t.d.state.sourceCleanup then "" else t.d.state.sourceCleanup)
  {
    hide B.Flush, Q.Size, Q.Stamped, Q.Earliest, Q.Accounted, Payload;
    Q.TraceStepValid(env.queue, t, op);
    Q.StepKeepsReadable(env.queue, t.d, op);
    var next := Q.TraceStep(env.queue, t, op);
    if op.OpRecover? {
      Q.RecoverDiscardsStaged(env.queue, t.d);
    } else {
      forall k: nat | t.d.state.readySeq < k <= t.d.state.nextSeq
        ensures k in next.d.items && next.d.items[k] == t.d.items[k] {
      }
      assert Q.Staged(next.d) == Q.Staged(t.d);
    }
  }

  predicate SameRecord(t: Q.Traced, next: Q.Traced) {
    next.d.state.phase == t.d.state.phase && next.d.state.durableLsn == t.d.state.durableLsn
  }

  /** The outbox side does not depend on anything else in the queue. */
  lemma SameQueue(env: Env, w: World, t: Q.Traced, pc: Pc)
    requires Conserved(env, w) && SameRecord(w.t, t) && t.d.state.sourceCleanup == w.t.d.state.sourceCleanup
    ensures Conserved(env, w.(t := t, pc := pc))
  {
    hide NoRepeats, EntriesOf, Published;
    var next := w.(t := t, pc := pc);
    forall x | x in w.committed ensures Holds(env, next, x) {
      assert Holds(env, w, x);
    }
    forall e | e in w.outbox ensures KnownEntry(next, e) {
      assert KnownEntry(w, e);
    }
  }

  /** Once the token's statement is gone from the outbox the token may be cleared. */
  lemma ClearedConserves(env: Env, w: World, t: Q.Traced)
    requires Conserved(env, w) && SameRecord(w.t, t) && t.d.state.sourceCleanup == ""
    requires EntriesOf(w.outbox, w.t.d.state.sourceCleanup) == {}
    ensures Conserved(env, w.(t := t, pc := Polling))
  {
    hide NoRepeats, EntriesOf, Published;
    var next := w.(t := t, pc := Polling);
    forall x | x in w.committed ensures Holds(env, next, x) {
      assert Holds(env, w, x);
    }
    forall e | e in w.outbox ensures KnownEntry(next, e) {
      assert KnownEntry(w, e);
    }
  }

  lemma ClearOk(env: Env, w: World, s: string)
    requires Ok(env, w) && (w.pc == CleanClearing(s) || w.pc == Clearing(s))
    ensures Ok(env, DoClear(env, w, s))
  {
    hide Q.TracedValid, Q.TraceStep, StagedPayloads, Holds, EntriesOf, KnownEntry, Carries, NoRepeats, Published;
    var op := Q.OpClearCleanup(s);
    QuietTrace(env, w.t, op);
    ClearedConserves(env, w, Q.TraceStep(env.queue, w.t, op));
  }

  lemma PollOk(env: Env, w: World)
    requires Ok(env, w) && w.pc.Polling?
    ensures Ok(env, DoPoll(env, w))
  {
    hide Q.TracedValid, StagedPayloads, Planned, Carries, NoRepeats, Published;
    var durable := env.parse(w.t.d.state.durableLsn).value;
    if w.outbox != {} {
      var e := First(w.outbox);
      var s := e.statement;
      assert KnownEntry(w, e) && s in w.committed;
      assert Holds(env, w, s);
      assert e in EntriesOf(w.outbox, s);
      var checkpoint := Maximum(EntriesOf(w.outbox, s), durable);
      forall i | i in w.committed[s] ensures i <= checkpoint {
        assert Entry(i, s) in Entries(s, w.committed[s]);
      }
      NothingRemoved(env, w, Filling(s, Planned(env, s, checkpoint), checkpoint));
      assert [] + Planned(env, s, checkpoint) == Planned(env, s, checkpoint);
    }
  }

  lemma AppendTrace(env: Env, t: Q.Traced, m: Message, free: nat, now: int)
    requires Q.TracedValid(env.queue, t) && Q.Attempt(env.queue, t.d, Q.OpAppend(m, free, now)).Success?
             && Payload(m) == m
    ensures var next := Q.TraceStep(env.queue, t, Q.OpAppend(m, free, now));
            && Q.TracedValid(env.queue, next) && next.log == t.log && SameRecord(t, next)
            && next.d.state.sourceCleanup == t.d.state.sourceCleanup
            && StagedPayloads(env, next) == StagedPayloads(env, t) + [m]
  {
    hide Q.Size, Q.Stamped, Q.Earliest, Q.Accounted, Q.Slice;
    var op, stamped := Q.OpAppend(m, free, now), Q.Stamp(t.d.state, m, now);
    Q.TraceStepValid(env.queue, t, op);
    Q.AppendStages(env.queue, t.d, m, free, now);
    StampedPayload(t.d.state, m, now);
    PayloadsNext(Q.Staged(t.d), stamped);
  }

  lemma PayloadsNext(messages: seq<Message>, m: Message)
    ensures Payloads(messages + [m]) == Payloads(messages) + [Payload(m)]
  {
  }

  lemma FillAppendOk(env: Env, w: World, free: nat, now: int)
    requires Ok(env, w) && w.pc.Filling? && w.pc.drafts != []
    ensures Ok(env, DoFill(env, w, free, now))
  {
    hide Q.TracedValid, Q.TraceStep, StagedPayloads, Planned, EntriesOf, NoRepeats, Holds, Q.Attempt, Carries,
         Published, KnownEntry;
    var pc := w.pc;
    var op, m := Q.OpAppend(pc.drafts[0], free, now), pc.drafts[0];
    if Q.Attempt(env.queue, w.t.d, op).Success? {
      PlannedBare(env, pc.statement, pc.checkpoint);
      var staged := StagedPayloads(env, w.t);
      assert Planned(env, pc.statement, pc.checkpoint)[|staged|] == m;
      AppendTrace(env, w.t, m, free, now);
      assert staged + [m] + pc.drafts[1..] == staged + pc.drafts;
      SameQueue(env, w, Q.TraceStep(env.queue, w.t, op), pc.(drafts := pc.drafts[1..]));
    }
  }

  lemma PublishTrace(env: Env, t: Q.Traced, lsn: string, token: string)
    requires Q.TracedValid(env.queue, t) && Bare(StagedPayloads(env, t))
    ensures var next := Q.TraceStep(env.queue, t, Q.OpPublish(lsn, false, token));
            && Q.TracedValid(env.queue, next) && TxPayloads(next.log) == TxPayloads(t.log) + StagedPayloads(env, t)
            && StagedPayloads(env, next) == [] && next.d.state.sourceCleanup == token
            && next.d.state.phase == t.d.state.phase && next.d.state.durableLsn == lsn
  {
    hide TxPayloads, Payload, Bare, Q.Accounted, Q.Stamped;
    var op := Q.OpPublish(lsn, false, token);
    Q.TraceStepValid(env.queue, t, op);
    Q.PublishExposesStaged(env.queue, t, op);
    TxPayloadsConcat(t.log, Q.Staged(t.d));
    BareIsTx(Q.Staged(t.d));
  }

  lemma BareIsTx(messages: seq<Message>)
    requires Bare(Payloads(messages))
    ensures TxPayloads(messages) == Payloads(messages)
  {
    hide TxPayloads;
    forall i | 0 <= i < |messages| ensures IsTx(messages[i]) {
      assert Payloads(messages)[i] == Payload(messages[i]);
    }
    TxPayloadsOfTx(messages);
  }

  lemma PublishedGrows(done: seq<Done>, d: Done, x: string)
    ensures Published(done + [d], x) <==> Published(done, x) || x == d.statement
  {
    if Published(done, x) {
      var i :| 0 <= i < |done| && done[i].statement == x;
      assert (done + [d])[i].statement == x;
    }
    assert (done + [d])[|done|] == d;
  }

  /** Publishing a statement that is whole in the outbox, under its own token. */
  lemma PublishedConserves(env: Env, w: World, t: Q.Traced, d: Done)
    requires Conserved(env, w) && w.t.d.state.sourceCleanup == "" && d.statement in w.committed
             && !Published(w.done, d.statement)
    requires t.d.state.sourceCleanup == d.statement && env.parse(t.d.state.durableLsn) == Some(d.checkpoint)
    requires Durable(env, w) <= d.checkpoint && forall i | i in w.committed[d.statement] :: i <= d.checkpoint
    ensures Conserved(env, w.(t := t, pc := Deleting(d.statement), done := w.done + [d]))
    ensures EntriesOf(w.outbox, d.statement) != {}
  {
    hide EntriesOf;
    var s, next := d.statement, w.(t := t, pc := Deleting(d.statement), done := w.done + [d]);
    assert Holds(env, w, s);
    forall x | x in w.committed ensures Holds(env, next, x) {
      assert Holds(env, w, x);
      PublishedGrows(w.done, d, x);
    }
    forall e | e in w.outbox ensures KnownEntry(next, e) {
      assert KnownEntry(w, e);
    }
    PublishedGrows(w.done, d, s);
  }

  lemma CarriesGrows(env: Env, log: seq<Message>, done: seq<Done>, d: Done, longer: seq<Message>)
    requires Carries(env, log, done) && Messages(env, d.statement, d.checkpoint).Some?
    requires TxPayloads(longer) == TxPayloads(log) + Messages(env, d.statement, d.checkpoint).value
    ensures Carries(env, longer, done + [d])
  {
    hide TxPayloads, Messages;
    assert (done + [d])[..|done|] == done;
  }

  lemma FillPublishOk(env: Env, w: World, free: nat, now: int)
    requires FaithfulPosition(env) && Ok(env, w) && w.pc.Filling? && w.pc.drafts == []
    ensures Ok(env, DoFill(env, w, free, now))
  {
    hide Q.TracedValid, Q.TraceStep, StagedPayloads, NoRepeats, Holds, EntriesOf, KnownEntry, Messages, Published,
         Carries, Bare;
    var pc, staged := w.pc, StagedPayloads(env, w.t);
    assert staged + [] == staged;
    if Messages(env, pc.statement, pc.checkpoint).None? {
      NothingRemoved(env, w, Stopped);
    } else {
      var d, lsn := Done(pc.statement, pc.checkpoint), env.position(pc.checkpoint);
      PlannedBare(env, pc.statement, pc.checkpoint);
      PlannedIsMessages(env, pc.statement, pc.checkpoint);
      PublishTrace(env, w.t, lsn, pc.statement);
      var t := Q.TraceStep(env.queue, w.t, Q.OpPublish(lsn, false, pc.statement));
      CarriesGrows(env, w.t.log, w.done, d, t.log);
      PublishedConserves(env, w, t, d);
    }
  }

  lemma WorkOk(env: Env, w: World, free: nat, now: int)
    requires FaithfulPosition(env) && Ok(env, w)
    ensures Ok(env, DoWork(env, w, free, now))
  {
    hide Q.TracedValid, StagedPayloads, Holds, EntriesOf, DoDiscard, DoClean, DoClear, DoPoll, DoFill, DoDelete,
         Carries, FaithfulPosition, NoRepeats, Published, FillOk;
    var staged := StagedPayloads(env, w.t);
    match w.pc
    case Discarding => DiscardOk(env, w, staged); DiscardKeepsQueue(w);
    case Cleaning => CleanOk(env, w, staged); CleanKeepsQueue(w);
    case CleanClearing(token) => ClearOk(env, w, token);
    case Polling => PollOk(env, w);
    case Filling(_, drafts, _) =>
      if drafts != [] {
        FillAppendOk(env, w, free, now);
      } else {
        FillPublishOk(env, w, free, now);
      }
    case Deleting(s) => DeleteOk(env, w, staged, s); DeleteKeepsQueue(w, s);
    case Clearing(s) => ClearOk(env, w, s);
    case _ =>
  }

  lemma DiscardKeepsQueue(w: World)
    ensures DoDiscard(w).t == w.t && DoDiscard(w).done == w.done
  {
  }

  lemma CleanKeepsQueue(w: World)
    ensures DoClean(w).t == w.t && DoClean(w).done == w.done
  {
  }

  lemma DeleteKeepsQueue(w: World, s: string)
    ensures DoDelete(w, s).t == w.t && DoDelete(w, s).done == w.done
  {
  }

  lemma AttachOk(env: Env, w: World)
    requires Ok(env, w)
    ensures Ok(env, w.(t := Q.TraceStep(env.queue, w.t, Q.OpRecover), pc := Discarding))
  {
    hide Q.TracedValid, Q.TraceStep, StagedPayloads, NoRepeats, Holds, KnownEntry, Carries, Published, FillOk;
    QuietTrace(env, w.t, Q.OpRecover);
    SameQueue(env, w, Q.TraceStep(env.queue, w.t, Q.OpRecover), Discarding);
  }

  lemma DeliverOk(env: Env, w: World, seqNo: nat, id: MessageId, now: int)
    requires Ok(env, w)
    ensures Ok(env, w.(t := Q.TraceStep(env.queue, w.t, Q.OpAck(seqNo, id, now))))
  {
    hide Q.TracedValid, Q.TraceStep, StagedPayloads, NoRepeats, Holds, KnownEntry, Carries, Published, Planned;
    var op := Q.OpAck(seqNo, id, now);
    QuietTrace(env, w.t, op);
    SameQueue(env, w, Q.TraceStep(env.queue, w.t, op), w.pc);
  }

  lemma StepOk(env: Env, w: World, step: Step)
    requires FaithfulPosition(env) && Ok(env, w)
    ensures Ok(env, Do(env, w, step))
  {
    hide Q.TracedValid, Q.TraceStep, StagedPayloads, Holds, EntriesOf, DoCommit, DoWork, Carries, FaithfulPosition,
         NoRepeats, Published;
    match step
    case Commit(s, ids) => CommitStepOk(env, w, s, ids);
    case Attach => AttachOk(env, w);
    case Work(free, now) => WorkOk(env, w, free, now);
    case Deliver(seqNo, id, now) => DeliverOk(env, w, seqNo, id, now);
    case Crash => NothingRemoved(env, w, Stopped);
  }

  lemma CommitStepOk(env: Env, w: World, s: string, ids: set<nat>)
    requires Ok(env, w)
    ensures Ok(env, DoCommit(w, s, ids))
  {
    hide Q.TracedValid, StagedPayloads, PcOk, Conserved, Carries;
    if MayCommit(w, s, ids) {
      CommitOk(env, w, StagedPayloads(env, w.t), s, ids);
    }
  }

  // ---------------------------------------------------------------- whole units

  /** The queue operation a step performs, if it performs one. */
  function StepOp(env: Env, w: World, step: Step): Option<Q.Op> {
    match step
    case Attach => Some(Q.OpRecover)
    case Deliver(seqNo, id, now) => Some(Q.OpAck(seqNo, id, now))
    case Work(free, now) =>
      (match w.pc
       case CleanClearing(token) => Some(Q.OpClearCleanup(token))
       case Clearing(token) => Some(Q.OpClearCleanup(token))
       case Filling(s, drafts, checkpoint) =>
         if drafts != [] then Some(Q.OpAppend(drafts[0], free, now))
         else if Messages(env, s, checkpoint).None? then None
         else Some(Q.OpPublish(env.position(checkpoint), false, s))
       case _ => None)
    case _ => None
  }

  /** That operation is all a step does to the queue. */
  lemma StepOpIsAll(env: Env, w: World, step: Step)
    requires Q.TracedValid(env.queue, w.t)
    ensures Do(env, w, step).t == match StepOp(env, w, step)
                                  case None => w.t
                                  case Some(op) => Q.TraceStep(env.queue, w.t, op)
  {
    hide Q.TracedValid, Messages, Planned;
    var op := StepOp(env, w, step);
    if op.Some? && Q.Attempt(env.queue, w.t.d, op.value).Failure? {
      FailureKeeps(env.queue, w.t, op.value);
    }
  }

  lemma StagedCloses(env: Env, t: Q.Traced, s: string, checkpoint: nat)
    requires Q.TracedValid(env.queue, t) && Messages(env, s, checkpoint) == Some(StagedPayloads(env, t))
    ensures Q.Staged(t.d) != [] && Q.Staged(t.d)[|Q.Staged(t.d)| - 1].kind.TransactionEnd?
  {
    hide Messages, Q.Staged, Q.Accounted;
    var staged := Q.Staged(t.d);
    MessagesWhole(env, Done(s, checkpoint));
    assert |Payloads(staged)| == |staged| && Payloads(staged)[|staged| - 1] == Payload(staged[|staged| - 1]);
  }

  /** Every queue operation of the collector publishes whole statements only. */
  lemma StepDisciplined(env: Env, w: World, step: Step)
    requires Ok(env, w) && StepOp(env, w, step).Some?
    ensures U.Disciplined(w.t.d, StepOp(env, w, step).value)
  {
    hide Conserved, Carries, Messages, Bare, AllPast, StagedPayloads, Q.Accounted;
    if step.Work? && w.pc.Filling? {
      var pc, staged := w.pc, StagedPayloads(env, w.t);
      if pc.drafts != [] {
        PlannedBare(env, pc.statement, pc.checkpoint);
        DraftIsTx(Planned(env, pc.statement, pc.checkpoint), staged, pc.drafts);
      } else {
        assert staged + [] == staged;
        PlannedIsMessages(env, pc.statement, pc.checkpoint);
        StagedCloses(env, w.t, pc.statement, pc.checkpoint);
        U.PublishDisciplined(w.t.d, StepOp(env, w, step).value);
      }
    }
  }

  lemma PlannedIsMessages(env: Env, s: string, checkpoint: nat)
    requires Messages(env, s, checkpoint).Some?
    ensures Planned(env, s, checkpoint) == Messages(env, s, checkpoint).value
  {
  }

  lemma DraftIsTx(all: seq<Message>, staged: seq<Message>, drafts: seq<Message>)
    requires Bare(all) && all == staged + drafts && drafts != []
    ensures IsTx(drafts[0])
  {
    assert all[|staged|] == drafts[0];
  }

  // ---------------------------------------------------------------- every run

  ghost function Run(env: Env, w: World, steps: seq<Step>): World
    requires FaithfulPosition(env) && Ok(env, w)
    ensures Ok(env, Run(env, w, steps))
  {
    if steps == [] then w
    else
      var before := Run(env, w, steps[..|steps| - 1]);
      StepOk(env, before, steps[|steps| - 1]);
      Do(env, before, steps[|steps| - 1])
  }

  /** A queue just sealed by a snapshot: nothing streamed yet, the outbox holds only what the snapshot covers. */
  ghost predicate Snapshotted(env: Env, w: World) {
    && Q.TracedValid(env.queue, w.t) && w.t.d.state.phase.Stream? && env.parse(w.t.d.state.durableLsn).Some?
    && TxPayloads(w.t.log) == [] && w.t.d.state.sourceCleanup == ""
    && w.committed == map[] && w.done == [] && w.pc.Stopped? && forall e | e in w.outbox :: e.changeId <= w.boundary
  }

  lemma SnapshottedOk(env: Env, w: World)
    requires Snapshotted(env, w)
    ensures Ok(env, w)
  {
    hide Q.TracedValid, TxPayloads;
  }

  /** Nothing is lost and nothing published twice: in every run the published log carries exactly the messages of
      the published statements, each whole and once, in order; each statement committed past the boundary is
      published or still whole in the outbox; only the one named by the durable token can be in both places, and
      none is while the collector polls; the collector never finds a statement or a token missing. */
  lemma NothingLostNothingTwice(env: Env, w: World, steps: seq<Step>, s: string)
    requires FaithfulPosition(env) && Ok(env, w) && s in Run(env, w, steps).committed
    ensures var r := Run(env, w, steps);
            && !r.pc.Fault? && NoRepeats(r.done) && TxPayloads(r.t.log) == Units(env, r.done)
            && (forall i | 0 <= i < |r.done| ::
                  && Messages(env, r.done[i].statement, r.done[i].checkpoint).Some?
                  && Whole(env, r.done[i], Messages(env, r.done[i].statement, r.done[i].checkpoint).value))
            && (Published(r.done, s) || EntriesOf(r.outbox, s) == Entries(s, r.committed[s]))
            && (Published(r.done, s) && EntriesOf(r.outbox, s) != {} ==>
                  r.t.d.state.sourceCleanup == s && !r.pc.Polling? && !r.pc.Filling?)
            && (Published(r.done, s) ==> forall i | i in r.committed[s] :: i <= Durable(env, r))
  {
    hide Ok, Run, EntriesOf, Entries, Published, NoRepeats, TxPayloads, Units, Messages, Whole;
    var r := Run(env, w, steps);
    Accounted(env, r, s);
    forall i | 0 <= i < |r.done| ensures Whole(env, r.done[i],
                                               Messages(env, r.done[i].statement, r.done[i].checkpoint).value) {
      MessagesWhole(env, r.done[i]);
    }
  }

  lemma Accounted(env: Env, r: World, s: string)
    requires Ok(env, r) && s in r.committed
    ensures !r.pc.Fault? && NoRepeats(r.done) && Carries(env, r.t.log, r.done)
    ensures Published(r.done, s) || EntriesOf(r.outbox, s) == Entries(s, r.committed[s])
    ensures Published(r.done, s) && EntriesOf(r.outbox, s) != {} ==>
              r.t.d.state.sourceCleanup == s && !r.pc.Polling? && !r.pc.Filling?
    ensures Published(r.done, s) ==> forall i | i in r.committed[s] :: i <= Durable(env, r)
  {
    hide Q.TracedValid, EntriesOf, Entries, Published, NoRepeats, Carries, FillOk, AllPast, StagedPayloads, KnownEntry;
    assert Holds(env, r, s);
  }

  /** Only committed statements are ever published. */
  lemma OnlyCommittedPublished(env: Env, w: World, steps: seq<Step>, i: nat)
    requires FaithfulPosition(env) && Ok(env, w) && i < |Run(env, w, steps).done|
    ensures Run(env, w, steps).done[i].statement in Run(env, w, steps).committed
  {
    hide Q.TracedValid, EntriesOf, Holds, NoRepeats, Carries;
  }
}
