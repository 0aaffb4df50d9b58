/** All collectors together: whatever queue operation the snapshot or the stream of a PostgreSQL, SQL Server, old
    SQL Server or file collector performs next, it publishes whole units only. Reconciliation scans are therefore
    quiescent in every run whose captures are these. */
module Collectors {
  import opened Event
  import Q = Queue
  import B = Batching
  import opened Target
  import opened Replay
  import opened System
  import Sys = System
  import opened SystemInv
  import opened Guarantees
  import opened Quiescence
  import opened Units
  import opened Files
  import Cap = Capture
  import PS = PgSnapshot
  import PG = PgCollector
  import Cdc = CdcPoll
  import L = LegacyOutbox
  import F = FileCapture

  /** A snapshot of a SQL Server, old SQL Server or file collector: the schema of each table and the rows read from it.
      The snapshot of a file collector has no tables. */
  datatype Reading = Reading(lim: B.Limits, schemas: seq<TableSchema>, rows: seq<seq<Row>>)

  function Scope(schemas: seq<TableSchema>): seq<TableRef> {
    seq(|schemas|, i requires 0 <= i < |schemas| => schemas[i].table)
  }

  /** Its messages: the scope, each table's schema and row chunks, and the end marker; None if a row exceeds the hard
      limit. */
  function SnapshotDrafts(reading: Reading): Option<seq<Message>> {
    if |reading.schemas| != |reading.rows| then None
    else
      var tables := TableDrafts(reading.lim, reading.schemas, reading.rows);
      if tables.None? then None
      else Some([Draft(SnapshotBegin).(tables := Scope(reading.schemas))] + tables.value + [Draft(SnapshotEnd)])
  }

  function TableDrafts(lim: B.Limits, schemas: seq<TableSchema>, rows: seq<seq<Row>>): Option<seq<Message>>
    requires |schemas| == |rows|
  {
    if schemas == [] then Some([])
    else
      var front, f := TableDrafts(lim, Front(schemas), Front(rows)), B.AddAll(lim, Draft(SnapshotRows), Last(rows));
      if front.None? || f.None? then None
      else Some(front.value + [PS.SchemaDraft(Last(schemas))] + B.Flush(f.value).out)
  }

  /** What a collector is doing when it performs a queue operation. */
  datatype Work =
    | Restarting
    | Postgres(target: Config, env: Cap.Env, src: PG.Source, state: PG.State, act: PG.Act)
    | Snapshotting(reading: Reading, whole: bool, st: Q.State)
    | Polling(lim: B.Limits, lsn: string, rows: seq<Row>, whole: bool)
    | Skipping(upper: string)
    | Outbox(legacy: L.Env, world: L.World, step: L.Step)
    | Uploading(codec: Codec, transaction: string, change: FileChange, chunkBytes: nat, content: Bytes, fileLsn: string)
    | Removing(removal: FileChange, removalLsn: string)

  /** The next operation of a unit of which a part is staged: its next message, or its publication. */
  predicate WritesUnit(t: Q.Traced, unit: seq<Message>, op: Q.Op) {
    var staged := Cap.Payloads(Q.Staged(t.d));
    && t.d.state.phase.Stream? && staged <= unit
    && if |staged| < |unit| then op.OpAppend? && op.m == unit[|staged|]
       else op.OpPublish? && !op.seal && unit != [] && Closing(Last(unit).kind)
  }

  /** The same for a snapshot, which is sealed at its end; its position is filled in first. A snapshot whose reading
      breaks off appends some of the messages of what was read, but never its end. */
  predicate WritesSnapshot(t: Q.Traced, reading: Reading, whole: bool, st: Q.State, op: Q.Op) {
    var staged, drafts := Q.Staged(t.d), SnapshotDrafts(reading);
    || op == Q.OpInitialize(st)
    || (&& t.d.state.phase.Snapshot? && drafts.Some? && |staged| <= |drafts.value|
        && (forall i | 0 <= i < |staged| :: staged[i].kind == drafts.value[i].kind)
        && if |staged| < |drafts.value| then
             op.OpAppend? && op.m == drafts.value[|staged|] && (!whole ==> !op.m.kind.SnapshotEnd?)
           else whole && (op.OpFinalize? || (op.OpPublish? && op.seal)))
  }

  ghost predicate Performs(cfg: Q.Config, t: Q.Traced, work: Work, op: Q.Op) {
    match work
    case Restarting => op.OpRecover?
    case Postgres(target, env, src, state, act) =>
      env.queue == cfg && state.t == t && PG.Ok(target, env, src, state) && PG.ActOp(env, src, state, act) == Some(op)
    case Snapshotting(reading, whole, st) => WritesSnapshot(t, reading, whole, st, op)
    case Polling(lim, lsn, rows, whole) =>
      && WritesUnit(t, Cdc.UnitOf(lim, lsn, rows, whole), op)
      && (op.OpPublish? ==> Cdc.Complete(lim, lsn, rows, whole))
    case Skipping(upper) => t.d.state.phase.Stream? && Q.Staged(t.d) == [] && op == Q.OpPublish(upper, false, "")
    case Outbox(legacy, world, step) =>
      && legacy.queue == cfg && world.t == t && L.Ok(legacy, world) && !step.Deliver?
      && L.StepOp(legacy, world, step) == Some(op)
    case Uploading(codec, transaction, change, chunkBytes, content, lsn) =>
      WritesUnit(t, F.FileUnit(codec, transaction, change, chunkBytes, content), op)
    case Removing(removal, lsn) => WritesUnit(t, [Draft(FileDelete).(file := Some(removal))], op)
  }

  // ---------------------------------------------------------------- they all publish whole units

  lemma UnitDisciplined(t: Q.Traced, unit: seq<Message>, op: Q.Op)
    requires Q.Windowed(t.d) && WritesUnit(t, unit, op) && forall m | m in unit :: !m.kind.SnapshotEnd?
    ensures Disciplined(t.d, op)
  {
    var staged := Q.Staged(t.d);
    assert |Cap.Payloads(staged)| == |staged|;
    if op.OpPublish? {
      assert Cap.Payloads(staged) == unit;
      assert Cap.Payloads(staged)[|staged| - 1] == Cap.Payload(Last(staged));
      PublishDisciplined(t.d, op);
    }
  }

  lemma {:induction false} TableDraftsAreSnapshot(lim: B.Limits, schemas: seq<TableSchema>, rows: seq<seq<Row>>)
    requires |schemas| == |rows| && TableDrafts(lim, schemas, rows).Some?
    ensures forall m | m in TableDrafts(lim, schemas, rows).value :: PS.IsSnapshot(m.kind) && !m.kind.SnapshotEnd?
    decreases |schemas|
  {
    hide B.AddAll, B.Flush;
    if schemas != [] {
      TableDraftsAreSnapshot(lim, Front(schemas), Front(rows));
      PS.ChunksDrafted(lim, Last(rows));
      var out := B.Flush(B.AddAll(lim, Draft(SnapshotRows), Last(rows)).value).out;
      forall m | m in out ensures PS.IsSnapshot(m.kind) && !m.kind.SnapshotEnd? {
        var i :| 0 <= i < |out| && out[i] == m;
      }
    }
  }

  /** They begin with the scope and end with their only end marker. */
  lemma SnapshotDraftsFit(reading: Reading)
    requires SnapshotDrafts(reading).Some?
    ensures var drafts := SnapshotDrafts(reading).value;
            && |drafts| > 1 && (forall i | 0 <= i < |drafts| :: PS.IsSnapshot(drafts[i].kind))
               && drafts[0].kind.SnapshotBegin?
            && forall i | 0 <= i < |drafts| :: drafts[i].kind.SnapshotEnd? <==> i == |drafts| - 1
  {
    hide TableDrafts;
    TableDraftsAreSnapshot(reading.lim, reading.schemas, reading.rows);
    var tables, drafts := TableDrafts(reading.lim, reading.schemas, reading.rows).value, SnapshotDrafts(reading).value;
    forall i | 0 < i < |drafts| - 1 ensures PS.IsSnapshot(drafts[i].kind) && !drafts[i].kind.SnapshotEnd? {
      assert drafts[i] == tables[i - 1] && tables[i - 1] in tables;
    }
  }

  lemma SnapshotDisciplined(t: Q.Traced, reading: Reading, whole: bool, st: Q.State, op: Q.Op)
    requires Q.Windowed(t.d) && WritesSnapshot(t, reading, whole, st, op)
    ensures Disciplined(t.d, op)
  {
    hide SnapshotDrafts;
    if op != Q.OpInitialize(st) {
      SnapshotDraftsFit(reading);
      if op.OpPublish? {
        PublishDisciplined(t.d, op);
      }
    }
  }

  lemma PollUnit(lim: B.Limits, lsn: string, rows: seq<Row>, whole: bool)
    ensures forall m | m in Cdc.UnitOf(lim, lsn, rows, whole) :: !m.kind.SnapshotEnd?
  {
    hide B.Attempted;
    var unit := Cdc.UnitOf(lim, lsn, rows, whole);
    Cap.AttemptedBare(lim, lsn, rows, whole && rows != []);
    forall m | m in unit ensures !m.kind.SnapshotEnd? {
      var i :| 0 <= i < |unit| && unit[i] == m;
      assert Cap.IsTx(unit[i]);
    }
  }

  lemma FileUnitKinds(codec: Codec, transaction: string, change: FileChange, chunkBytes: nat, content: Bytes)
    ensures forall m | m in F.FileUnit(codec, transaction, change, chunkBytes, content) :: !m.kind.SnapshotEnd?
  {
  }

  /** Whatever a collector does next, it publishes whole units only. */
  lemma WorkDisciplined(cfg: Q.Config, t: Q.Traced, work: Work, op: Q.Op)
    requires Q.TracedValid(cfg, t) && Performs(cfg, t, work, op)
    ensures Disciplined(t.d, op)
  {
    hide Disciplined, WritesUnit, WritesSnapshot, PG.Ok, L.Ok, PG.ActOp, L.StepOp, F.FileUnit, Cdc.UnitOf, Q.Accounted;
    match work
    case Restarting => RestartDisciplined(t.d, op);
    case Postgres(target, env, src, state, act) => PG.ActDisciplined(target, env, src, state, act);
    case Snapshotting(reading, whole, st) => SnapshotDisciplined(t, reading, whole, st, op);
    case Polling(lim, lsn, rows, whole) =>
      PollUnit(lim, lsn, rows, whole);
      UnitDisciplined(t, Cdc.UnitOf(lim, lsn, rows, whole), op);
    case Skipping(upper) => PublishDisciplined(t.d, op);
    case Outbox(legacy, world, step) => L.StepDisciplined(legacy, world, step);
    case Uploading(codec, transaction, change, chunkBytes, content, lsn) =>
      FileUnitKinds(codec, transaction, change, chunkBytes, content);
      UnitDisciplined(t, F.FileUnit(codec, transaction, change, chunkBytes, content), op);
    case Removing(removal, lsn) => UnitDisciplined(t, [Draft(FileDelete).(file := Some(removal))], op);
  }

  lemma RestartDisciplined(d: Q.Durable, op: Q.Op)
    requires op.OpRecover?
    ensures Disciplined(d, op)
  {
  }

  // ---------------------------------------------------------------- runs of any of them

  /** Every stop waits for its capture, and every operation of a capture is one its collector performs. */
  ghost predicate CapturedStep(p: Params, s: System, step: Step) {
    && !Impatient(s, step)
    && (step.DoCapture? && Traceable(p, s.col) ==>
          exists work :: Performs(p.queue, Q.Traced(s.col.queue, Log(s.col)), work, step.op))
  }

  ghost predicate Captured(p: Params, s: System, steps: seq<Step>) {
    steps != [] ==> Captured(p, s, Front(steps)) && CapturedStep(p, Sys.Run(p, s, Front(steps)), Last(steps))
  }

  lemma {:induction false} CapturedIsOrderly(p: Params, s: System, steps: seq<Step>)
    requires Sys.Initial(p, s) && Captured(p, s, steps)
    ensures Orderly(p, s, steps)
    decreases |steps|
  {
    hide Good, Performs, Disciplined, Sys.Run, Impatient;
    if steps != [] {
      var before, step := Sys.Run(p, s, Front(steps)), Last(steps);
      CapturedIsOrderly(p, s, Front(steps));
      InitialGood(p, s);
      RunGood(p, s, Front(steps));
      GoodIsTraceable(p, before);
      if step.DoCapture? {
        var work :| Performs(p.queue, Q.Traced(before.col.queue, Log(before.col)), work, step.op);
        WorkDisciplined(p.queue, Q.Traced(before.col.queue, Log(before.col)), work, step.op);
      }
    }
  }

  lemma GoodIsTraceable(p: Params, s: System)
    requires Good(p, s)
    ensures Traceable(p, s.col)
  {
  }

  /** In every run of the pipeline with these collectors: whenever the source scan runs, no capture is alive and the
      server has stored exactly what was published; if anything was, it has applied all of it, with no transaction
      open and no schema refresh pending. */
  lemma ScanIsAlwaysQuiescent(p: Params, s: System, steps: seq<Step>, step: Step)
    requires Sys.Initial(p, s) && Captured(p, s, steps) && Scans(Sys.Run(p, s, steps), step)
    ensures var t := Do(p, Sys.Run(p, s, steps), step);
            && Alive(t) == 0 && Stored(t) == |Log(t.col)|
            && (Log(t.col) != [] ==> && t.srv.store.generation == Generation(t.col) && t.srv.log == Log(t.col)
                                     && t.srv.store.applied == t.srv.store.received == |Log(t.col)|
                                     && t.srv.store.openTransaction == "" && t.srv.store.pendingSchema == "")
  {
    hide Captured, Orderly, Scans, Sys.Run, Do, Sys.Initial, Log;
    CapturedIsOrderly(p, s, steps);
    ScanIsQuiescent(p, s, steps, step);
  }
}
