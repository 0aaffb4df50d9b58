/** The initial snapshot of a PostgreSQL source: what is read under the exported snapshot becomes one message for
    the scope, one per table schema, batched rows and an end marker. Once stored, each captured table holds
    exactly the rows that were read. */
module PgSnapshot {
  import opened Event
  import opened Batching
  import opened PgRows
  import opened Changes
  import opened Target
  import opened Replay
  import opened Capture
  import opened Barrier
  import opened CaptureStream
  import opened Mirror
  import opened Versions

  // ---------------------------------------------------------------- reading rows

  /** A row as the driver returns it: the text of each column, in catalog order. */
  type Raw = seq<Option<string>>

  const BooleanOid := 16

  function CellText(c: PgColumn, raw: Option<string>): Option<string> {
    if raw.Some? && c.oid == BooleanOid then Some(if raw.value == "t" then "true" else "false") else raw
  }

  function Cells(t: PgTable, raw: Raw): seq<Column>
    requires |raw| == |t.columns|
  {
    seq(|raw|, i requires 0 <= i < |raw| => Column(t.columns[i].name, t.columns[i].typeName,
                                                   CellText(t.columns[i], raw[i])))
  }

  function KeyCells(t: PgTable, raw: Raw, n: nat): seq<Column>
    requires n <= |raw| == |t.columns|
  {
    if n == 0 then [] else KeyCells(t, raw, n - 1) + if t.columns[n - 1].primary then [Cells(t, raw)[n - 1]] else []
  }

  function ReadRow(t: PgTable, raw: Raw, ordinal: nat): Row
    requires |raw| == |t.columns|
  {
    var cells := Cells(t, raw);
    Row(t.fullRow, t.ref, Read, if t.fullRow then cells else KeyCells(t, raw, |raw|), [], cells, ordinal)
  }

  /** The loop over the columns of a row. */
  method ScanRow(t: PgTable, raw: Raw, ordinal: nat) returns (row: Row)
    requires |raw| == |t.columns|
    ensures row == ReadRow(t, raw, ordinal)
  {
    var columns, key: seq<Column> := [], [];
    for i := 0 to |raw|
      invariant columns == Cells(t, raw)[..i] && key == KeyCells(t, raw, i)
    {
      var value := raw[i];
      if value.Some? && t.columns[i].oid == BooleanOid {
        value := Some(if value.value == "t" then "true" else "false");
      }
      var cell := Column(t.columns[i].name, t.columns[i].typeName, value);
      columns := columns + [cell];
      if t.columns[i].primary {
        key := key + [cell];
      }
    }
    row := Row(false, t.ref, Read, key, [], columns, ordinal);
    if t.fullRow {
      row := row.(fullRow := true, key := columns);
    }
  }

  /** The target row with these values. */
  function ImageOf(t: PgTable, raw: Raw): Image
    requires |raw| == |t.columns|
  {
    Assign(map[], Cells(t, raw))
  }

  lemma {:induction false} AssignedListed(image: Image, columns: seq<Column>, name: string)
    requires name in Assign(image, columns)
    ensures name in image || Lists(columns, name)
    decreases |columns|
  {
    if columns != [] {
      var front, last := columns[..|columns| - 1], columns[|columns| - 1];
      assert last in columns && forall c | c in front :: c in columns;
      if name != last.name {
        AssignedListed(image, front, name);
      }
    }
  }

  /** What was read describes the row it was read from. */
  lemma ReadRowTells(t: PgTable, raw: Raw, ordinal: nat)
    requires WellFormed(t) && |raw| == |t.columns|
    ensures Describes(ReadRow(t, raw, ordinal).(operation := Insert), Inserted(ImageOf(t, raw)))
    ensures ReadRow(t, raw, ordinal).table == t.ref
  {
    var cells, image := Cells(t, raw), ImageOf(t, raw);
    assert Distinct(cells);
    forall c | c in cells ensures Lookup(image, c.name) == c.value {
      AssignSets(map[], cells, c.name);
    }
    forall name | name in image ensures Lists(cells, name) {
      AssignedListed(map[], cells, name);
    }
  }

  // ---------------------------------------------------------------- a snapshot

  /** What an exported snapshot shows: it covers the first `past` transactions of the source, up to `point`. */
  datatype Shot = Shot(schemas: seq<TableSchema>, tables: seq<PgTable>, rows: seq<seq<Raw>>, past: nat, point: nat)

  /** The catalog fits the configured tables, and the rows fit the catalog. */
  ghost predicate ShotOf(env: Env, shot: Shot) {
    && CatalogOf(env, shot.schemas) && |shot.tables| == |shot.rows| == |env.tables|
    && (forall i | 0 <= i < |shot.tables| :: TableShot(env.tables[i], shot.tables[i], shot.rows[i]))
    && forall i | 0 <= i < |shot.tables| :: Names(shot.tables[i]) == ColumnNames(shot.schemas[i])
  }

  predicate TableShot(ref: TableRef, t: PgTable, rows: seq<Raw>) {
    t.ref == ref && WellFormed(t) && forall raw | raw in rows :: |raw| == |t.columns|
  }

  /** The rows of one table, numbered from 1. */
  function TableRows(t: PgTable, rows: seq<Raw>): seq<Row>
    requires forall raw | raw in rows :: |raw| == |t.columns|
  {
    seq(|rows|, i requires 0 <= i < |rows| => ReadRow(t, rows[i], i + 1))
  }

  /** The rows of the first n tables. */
  ghost function RowsUpTo(env: Env, shot: Shot, n: nat): seq<Row>
    requires ShotOf(env, shot) && n <= |shot.tables|
  {
    if n == 0 then []
    else
      assert TableShot(env.tables[n - 1], shot.tables[n - 1], shot.rows[n - 1]);
      RowsUpTo(env, shot, n - 1) + TableRows(shot.tables[n - 1], shot.rows[n - 1])
  }

  ghost function ShotRows(env: Env, shot: Shot): seq<Row>
    requires ShotOf(env, shot)
  {
    RowsUpTo(env, shot, |shot.tables|)
  }

  function Images(t: PgTable, rows: seq<Raw>): Table
    requires forall raw | raw in rows :: |raw| == |t.columns|
  {
    if rows == [] then multiset{}
    else
      assert Last(rows) in rows && forall raw | raw in Front(rows) :: raw in rows;
      Images(t, Front(rows)) + multiset{ImageOf(t, Last(rows))}
  }

  function BeginDraft(env: Env, point: nat): Message {
    Draft(SnapshotBegin).(tables := env.tables, lsn := env.show(point))
  }

  function SchemaDraft(schema: TableSchema): Message {
    Draft(SchemaTable).(schema := Some(schema))
  }

  function SealDraft(env: Env, point: nat): Message {
    Draft(SnapshotEnd).(lsn := env.show(point))
  }

  function Opening(env: Env, shot: Shot): seq<Message> {
    [BeginDraft(env, shot.point)] + seq(|shot.schemas|, i requires 0 <= i < |shot.schemas| =>
      SchemaDraft(shot.schemas[i]))
  }

  /** The messages of a snapshot, or None if a row exceeds the hard limit. */
  ghost function ShotMessages(env: Env, shot: Shot): Option<seq<Message>>
    requires ShotOf(env, shot)
  {
    var f := AddAll(env.limits, Draft(SnapshotRows), ShotRows(env, shot));
    if f.None? then None else Some(Opening(env, shot) + Flush(f.value).out + [SealDraft(env, shot.point)])
  }

  /** What a snapshot appends: all of its messages, or those it can build before it fails. */
  ghost function Planned(env: Env, shot: Shot): seq<Message>
    requires ShotOf(env, shot)
  {
    if ShotMessages(env, shot).Some? then ShotMessages(env, shot).value
    else
      AdmissibleAdds(env.limits, Draft(SnapshotRows), ShotRows(env, shot));
      Opening(env, shot)
        + AddAll(env.limits, Draft(SnapshotRows), Admissible(env.limits, ShotRows(env, shot))).value.out
  }

  // ---------------------------------------------------------------- its shape

  predicate IsSnapshot(kind: Kind) {
    kind.SnapshotBegin? || kind.SchemaTable? || kind.SnapshotRows? || kind.SnapshotEnd?
  }

  predicate SnapshotDraft(m: Message) {
    IsSnapshot(m.kind) && Payload(m) == m
  }

  lemma OpeningAt(env: Env, shot: Shot, i: nat)
    requires i <= |shot.schemas|
    ensures |Opening(env, shot)| == 1 + |shot.schemas| && SnapshotDraft(Opening(env, shot)[i])
    ensures Opening(env, shot)[i] == if i == 0 then BeginDraft(env, shot.point) else SchemaDraft(shot.schemas[i - 1])
  {
  }

  lemma ChunksDrafted(lim: Limits, rows: seq<Row>)
    requires AddAll(lim, Draft(SnapshotRows), rows).Some?
    ensures var f := AddAll(lim, Draft(SnapshotRows), rows).value;
            && (forall i | 0 <= i < |f.out| :: SnapshotDraft(f.out[i]))
            && (forall i | 0 <= i < |Flush(f).out| ::
                 SnapshotDraft(Flush(f).out[i]) && Flush(f).out[i].kind.SnapshotRows?)
            && Concat(Flush(f).out) == rows
  {
    hide AddAll, Flush;
    AddAllFilling(lim, Draft(SnapshotRows), rows);
    FlushFilling(lim, Draft(SnapshotRows), AddAll(lim, Draft(SnapshotRows), rows).value);
  }

  lemma PlannedDrafts(env: Env, shot: Shot, i: nat)
    requires ShotOf(env, shot) && i < |Planned(env, shot)|
    ensures SnapshotDraft(Planned(env, shot)[i])
  {
    hide AddAll, Flush, ShotRows, Opening, SnapshotDraft, Admissible;
    var opening, rows := Opening(env, shot), ShotRows(env, shot);
    OpeningCount(env, shot);
    if i < |opening| {
      OpeningAt(env, shot, i);
    } else if ShotMessages(env, shot).Some? {
      ChunksDrafted(env.limits, rows);
      SealDrafted(env, shot.point);
    } else {
      AdmissibleAdds(env.limits, Draft(SnapshotRows), rows);
      ChunksDrafted(env.limits, Admissible(env.limits, rows));
    }
  }

  lemma SealDrafted(env: Env, point: nat)
    ensures SnapshotDraft(SealDraft(env, point))
  {
  }

  // ---------------------------------------------------------------- it is spoken

  /** The stored form of a snapshot's messages. */
  ghost predicate ShotLog(env: Env, shot: Shot, version: string, log: seq<Message>) {
    && ShotOf(env, shot) && ShotMessages(env, shot) == Some(Payloads(log))
    && forall i | 0 <= i < |log| :: log[i].schemaVersion == version
  }

  lemma {:induction false} OpeningSpeaks(env: Env, shot: Shot, version: string, log: seq<Message>)
    requires Captures(env) && CatalogOf(env, shot.schemas) && version != "" && 0 < |log| <= 1 + |shot.schemas|
    requires forall i | 0 <= i < |log| :: log[i].schemaVersion == version && Payload(log[i]) == Opening(env, shot)[i]
    ensures SpeakAll(TableSet(env.tables), Fresh, log) == Some(InSnapshot(version, TableSet(env.tables[..|log| - 1])))
    decreases |log|
  {
    hide Opening, DistinctTables, CatalogOf;
    var front, n := log[..|log| - 1], |log| - 1;
    OpeningAt(env, shot, n);
    assert Payload(log[n]) == Opening(env, shot)[n];
    if n == 0 {
      assert DistinctTables(log[0].tables) && SpeakAll(TableSet(env.tables), Fresh, front) == Some(Fresh);
      assert env.tables[..0] == [] && TableSet([]) == {};
    } else {
      OpeningSpeaks(env, shot, version, front);
      AnnouncedTable(env, shot.schemas, n - 1);
    }
  }

  lemma AnnouncedTable(env: Env, schemas: seq<TableSchema>, i: nat)
    requires Captures(env) && CatalogOf(env, schemas) && i < |schemas|
    ensures schemas[i].table == env.tables[i] && env.tables[i] in TableSet(env.tables) && schemas[i].columns != []
    ensures env.tables[i] !in TableSet(env.tables[..i])
    ensures TableSet(env.tables[..i + 1]) == TableSet(env.tables[..i]) + {env.tables[i]}
  {
    NextTable(env.tables, i);
  }

  lemma {:induction false} RowsSpeak(tables: set<TableRef>, version: string, staged: set<TableRef>, log: seq<Message>)
    requires forall i | 0 <= i < |log| :: log[i].kind.SnapshotRows? && log[i].schemaVersion == version
    ensures SpeakAll(tables, InSnapshot(version, staged), log) == Some(InSnapshot(version, staged))
    decreases |log|
  {
    if log != [] {
      RowsSpeak(tables, version, staged, log[..|log| - 1]);
    }
  }

  /** A stored snapshot is its opening, row chunks that concatenate to its rows, and its end marker. */
  lemma ShotParts(env: Env, shot: Shot, version: string, log: seq<Message>)
    returns (opening: seq<Message>, chunks: seq<Message>, end: Message)
    requires ShotLog(env, shot, version, log)
    ensures log == opening + chunks + [end] && end.kind.SnapshotEnd?
    ensures Payloads(opening) == Opening(env, shot) && |opening| == 1 + |shot.schemas|
    ensures AllRows(chunks) == ShotRows(env, shot) && forall i | 0 <= i < |chunks| :: chunks[i].kind.SnapshotRows?
  {
    hide Opening, ShotRows, AddAll, Flush, SnapshotDraft, Payload, Concat, AllRows;
    var f := AddAll(env.limits, Draft(SnapshotRows), ShotRows(env, shot)).value;
    ChunksDrafted(env.limits, ShotRows(env, shot));
    OpeningCount(env, shot);
    var a, b := |Opening(env, shot)|, |Flush(f).out|;
    PayloadSlices(log, Opening(env, shot), Flush(f).out, SealDraft(env, shot.point));
    opening, chunks, end := log[..a], log[a..a + b], log[a + b];
    PayloadKind(end);
    forall i | 0 <= i < |chunks| ensures chunks[i].kind.SnapshotRows? {
      assert Payloads(chunks)[i] == Payload(chunks[i]);
      PayloadKind(chunks[i]);
    }
    PayloadRows(chunks);
  }

  lemma PayloadKind(m: Message)
    ensures Payload(m).kind == m.kind
  {
  }

  lemma PayloadSlices(log: seq<Message>, x: seq<Message>, y: seq<Message>, z: Message)
    requires Payloads(log) == x + y + [z]
    ensures |log| == |x| + |y| + 1 && log == log[..|x|] + log[|x|..|x| + |y|] + [log[|x| + |y|]]
    ensures Payloads(log[..|x|]) == x && Payloads(log[|x|..|x| + |y|]) == y && Payload(log[|x| + |y|]) == z
  {
    hide Payload;
    var payloads := Payloads(log);
    assert Payloads(log[..|x|]) == payloads[..|x|] == x;
    assert Payloads(log[|x|..|x| + |y|]) == payloads[|x|..|x| + |y|] == y;
    assert payloads[|x| + |y|] == z;
  }

  lemma OpeningCount(env: Env, shot: Shot)
    ensures |Opening(env, shot)| == 1 + |shot.schemas|
  {
  }

  /** A sealed snapshot brings a stream from nothing to rest. */
  lemma ShotSpeaks(env: Env, shot: Shot, version: string, log: seq<Message>)
    requires Captures(env) && version != "" && ShotLog(env, shot, version, log)
    ensures SpeakAll(TableSet(env.tables), Fresh, log) == Some(Idle(version))
  {
    hide Opening, ShotRows, SpeakAll, ShotMessages, DistinctTables;
    var opening, chunks, end := ShotParts(env, shot, version, log);
    var tables := TableSet(env.tables);
    forall i | 0 <= i < |opening| ensures opening[i].schemaVersion == version
      && Payload(opening[i]) == Opening(env, shot)[i] {
      assert opening[i] == log[i] && Payloads(opening)[i] == Payload(opening[i]);
    }
    OpeningSpeaks(env, shot, version, opening);
    forall i | 0 <= i < |chunks| ensures chunks[i].schemaVersion == version {
      assert chunks[i] == log[|opening| + i];
    }
    RowsSpeak(tables, version, tables, chunks);
    assert env.tables[..|env.tables|] == env.tables;
    SpeakAllConcat(tables, Fresh, opening, chunks);
    assert end == log[|log| - 1];
    SealSpeaks(tables, version, opening + chunks, end, log);
  }

  lemma SealSpeaks(tables: set<TableRef>, version: string, front: seq<Message>, end: Message, log: seq<Message>)
    requires SpeakAll(tables, Fresh, front) == Some(InSnapshot(version, tables)) && end.kind.SnapshotEnd?
    requires end.schemaVersion == version && log == front + [end]
    ensures SpeakAll(tables, Fresh, log) == Some(Idle(version))
  {
    assert log[..|log| - 1] == front;
  }

  /** It is closed under the hash of the schemas it announces. */
  lemma ShotHashed(env: Env, shot: Shot, log: seq<Message>)
    requires ShotLog(env, shot, env.hash(shot.schemas), log)
    ensures Hashed(env, log)
  {
    hide Opening, ShotRows, ShotMessages, ShotOf, AllRows, Pending;
    var opening, chunks, end := ShotParts(env, shot, env.hash(shot.schemas), log);
    var front := opening + chunks;
    forall i | 0 <= i < |opening| ensures OpeningKind(shot, opening, i) {
      assert Payloads(opening)[i] == Payload(opening[i]);
      OpeningAt(env, shot, i);
    }
    OpeningPending(shot, opening);
    QuietPending(opening, chunks);
    forall n | 0 <= n < |log| ensures HashedAt(env, log, n) {
      if n == |front| {
        assert log[..n] == front && log[n] == end;
      } else if n < |opening| {
        assert log[n] == opening[n] && OpeningKind(shot, opening, n);
      } else {
        assert log[n] == chunks[n - |opening|];
      }
    }
  }

  predicate OpeningKind(shot: Shot, opening: seq<Message>, i: nat)
    requires i < |opening| == 1 + |shot.schemas|
  {
    if i == 0 then opening[0].kind.SnapshotBegin?
      else opening[i].kind.SchemaTable? && opening[i].schema == Some(shot.schemas[i - 1])
  }

  lemma OpeningPending(shot: Shot, opening: seq<Message>)
    requires |opening| == 1 + |shot.schemas| && forall i | 0 <= i < |opening| :: OpeningKind(shot, opening, i)
    ensures Pending(opening) == shot.schemas
  {
    var announced := opening[1..];
    assert Pending([]) == [] && [opening[0]][..0] == [] && OpeningKind(shot, opening, 0);
    forall i | 0 <= i < |announced| ensures announced[i].kind.SchemaTable?
      && announced[i].schema == Some(shot.schemas[i]) {
      assert OpeningKind(shot, opening, i + 1);
    }
    AnnouncedPending([opening[0]], announced, shot.schemas);
    assert [opening[0]] + announced == opening && shot.schemas[..|shot.schemas|] == shot.schemas;
  }

  // ---------------------------------------------------------------- what it does

  lemma {:induction false} SnapshotQuiet(front: seq<Message>)
    requires forall i | 0 <= i < |front| ::
               front[i].kind.SnapshotBegin? || front[i].kind.SchemaTable? || front[i].kind.SnapshotRows?
    ensures OpenBatch(front) == [] && Ends(front) == 0 && TxPayloads(front) == []
    decreases |front|
  {
    if front != [] {
      SnapshotQuiet(Front(front));
    }
  }

  lemma {:induction false} OpeningScope(env: Env, shot: Shot, opening: seq<Message>)
    requires 0 < |opening| <= 1 + |shot.schemas|
    requires forall i | 0 <= i < |opening| :: Payload(opening[i]) == Opening(env, shot)[i]
    ensures OpenScope(opening) == env.tables && OpenSnapshot(opening) == []
    decreases |opening|
  {
    hide Opening;
    var n := |opening| - 1;
    OpeningAt(env, shot, n);
    assert Payload(opening[n]) == Opening(env, shot)[n];
    if n > 0 {
      OpeningScope(env, shot, Front(opening));
    }
  }

  lemma {:induction false} ChunksOpen(opening: seq<Message>, chunks: seq<Message>)
    requires OpenSnapshot(opening) == [] && forall i | 0 <= i < |chunks| :: chunks[i].kind.SnapshotRows?
    ensures OpenSnapshot(opening + chunks) == AllRows(chunks) && OpenScope(opening + chunks) == OpenScope(opening)
    decreases |chunks|
  {
    if chunks == [] {
      assert opening + chunks == opening;
    } else {
      assert Front(opening + chunks) == opening + Front(chunks);
      ChunksOpen(opening, Front(chunks));
    }
  }

  /** Before its end marker a stored snapshot has opened its scope and rows, and changed nothing. */
  lemma ShotOpen(env: Env, shot: Shot, version: string, log: seq<Message>)
    requires ShotLog(env, shot, version, log)
    ensures log != [] && Last(log).kind.SnapshotEnd?
    ensures OpenScope(Front(log)) == env.tables && OpenSnapshot(Front(log)) == ShotRows(env, shot)
    ensures forall i | 0 <= i < |log| - 1 ::
              log[i].kind.SnapshotBegin? || log[i].kind.SchemaTable? || log[i].kind.SnapshotRows?
    ensures OpenBatch(log) == [] && Ends(log) == 0 && TxPayloads(log) == []
  {
    hide Opening, ShotRows, ShotMessages, AllRows;
    var opening, chunks, end := ShotParts(env, shot, version, log);
    assert Front(log) == opening + chunks;
    forall i | 0 <= i < |opening|
      ensures Payload(opening[i]) == Opening(env, shot)[i]
              && (opening[i].kind.SnapshotBegin? || opening[i].kind.SchemaTable?)
    {
      assert Payloads(opening)[i] == Payload(opening[i]);
      OpeningAt(env, shot, i);
    }
    OpeningScope(env, shot, opening);
    ChunksOpen(opening, chunks);
    SnapshotQuiet(Front(log));
  }

  /** What the snapshot's rows do: insert the images read, table by table. */
  ghost function InsertedUpTo(env: Env, shot: Shot, n: nat): seq<Happened>
    requires ShotOf(env, shot) && n <= |shot.tables|
  {
    if n == 0 then []
    else
      assert TableShot(env.tables[n - 1], shot.tables[n - 1], shot.rows[n - 1]);
      InsertedUpTo(env, shot, n - 1) + TableInserts(shot.tables[n - 1], shot.rows[n - 1])
  }

  ghost function TableInserts(t: PgTable, rows: seq<Raw>): seq<Happened>
    requires forall raw | raw in rows :: |raw| == |t.columns|
  {
    seq(|rows|, i requires 0 <= i < |rows| => Happened(t.ref.name, Inserted(ImageOf(t, rows[i]))))
  }

  lemma {:induction false} HappenKeys(tables: Tables, hs: seq<Happened>)
    ensures HappenAll(tables, hs).Keys == tables.Keys
    decreases |hs|
  {
    if hs != [] {
      HappenKeys(tables, Front(hs));
    }
  }

  lemma ToldNext(tables: Tables, rows: seq<Row>, hs: seq<Happened>, row: Row, image: Image)
    requires Told(tables, rows, hs) && row.table.name in tables && Describes(row, Inserted(image))
    ensures Told(tables, rows + [row], hs + [Happened(row.table.name, Inserted(image))])
  {
    hide Describes, HappenAll;
    HappenKeys(tables, hs);
    assert Front(rows + [row]) == rows && Front(hs + [Happened(row.table.name, Inserted(image))]) == hs;
  }

  lemma {:induction false} TableTold(tables: Tables, rows: seq<Row>, hs: seq<Happened>, t: PgTable, raws: seq<Raw>)
    requires Told(tables, AsInserts(rows), hs) && TableShot(t.ref, t, raws) && t.ref.name in tables
    ensures Told(tables, AsInserts(rows + TableRows(t, raws)), hs + TableInserts(t, raws))
    decreases |raws|
  {
    hide Describes, ReadRow, ImageOf, Told, WellFormed;
    if raws == [] {
      assert rows + TableRows(t, raws) == rows && hs + TableInserts(t, raws) == hs;
    } else {
      var front, last, n := Front(raws), Last(raws), |raws|;
      assert last in raws && forall raw | raw in front :: raw in raws;
      TableTold(tables, rows, hs, t, front);
      ReadRowTells(t, last, n);
      var row, before, told := ReadRow(t, last, n), rows + TableRows(t, front), hs + TableInserts(t, front);
      ToldNext(tables, AsInserts(before), told, row.(operation := Insert), ImageOf(t, last));
      assert rows + TableRows(t, raws) == before + [row];
      assert AsInserts(before + [row]) == AsInserts(before) + [row.(operation := Insert)];
      assert hs + TableInserts(t, raws) == told + [Happened(t.ref.name, Inserted(ImageOf(t, last)))];
    }
  }

  lemma {:induction false} ShotTold(env: Env, shot: Shot, tables: Tables, n: nat)
    requires ShotOf(env, shot) && n <= |shot.tables| && forall ref | ref in env.tables :: ref.name in tables
    ensures Told(tables, AsInserts(RowsUpTo(env, shot, n)), InsertedUpTo(env, shot, n))
    decreases n
  {
    hide TableRows, TableInserts;
    if n > 0 {
      ShotTold(env, shot, tables, n - 1);
      assert TableShot(env.tables[n - 1], shot.tables[n - 1], shot.rows[n - 1]) && env.tables[n - 1] in env.tables;
      TableTold(tables, RowsUpTo(env, shot, n - 1), InsertedUpTo(env, shot, n - 1), shot.tables[n - 1],
                shot.rows[n - 1]);
    }
  }

  lemma {:induction false} LoadedConcat(a: seq<Happened>, b: seq<Happened>, name: string)
    ensures Loaded(a + b, name) == Loaded(a, name) + Loaded(b, name)
    decreases |b|
  {
    if b == [] {
      assert a + b == a;
    } else {
      assert Front(a + b) == a + Front(b) && Last(a + b) == Last(b);
      LoadedConcat(a, Front(b), name);
      var h := Last(b);
      var more := if h.table == name && h.change.Inserted? then multiset{h.change.after} else multiset{};
      assert Loaded(a + b, name) == Loaded(a + Front(b), name) + more;
      assert Loaded(b, name) == Loaded(Front(b), name) + more;
      hide Loaded;
    }
  }

  lemma {:induction false} TableLoads(t: PgTable, rows: seq<Raw>, name: string)
    requires forall raw | raw in rows :: |raw| == |t.columns|
    ensures Loaded(TableInserts(t, rows), name) == if name == t.ref.name then Images(t, rows) else multiset{}
    decreases |rows|
  {
    hide ImageOf, Loaded;
    if rows == [] {
      LoadedNothing(name);
    } else {
      assert Last(rows) in rows && forall raw | raw in Front(rows) :: raw in rows;
      TableLoads(t, Front(rows), name);
      var image := ImageOf(t, Last(rows));
      assert TableInserts(t, rows) == TableInserts(t, Front(rows)) + [Happened(t.ref.name, Inserted(image))];
      LoadedNext(TableInserts(t, Front(rows)), t.ref.name, image, name);
    }
  }

  lemma LoadedNext(hs: seq<Happened>, table: string, image: Image, name: string)
    ensures Loaded(hs + [Happened(table, Inserted(image))], name)
         == if name == table then Loaded(hs, name) + multiset{image} else Loaded(hs, name)
  {
    assert Front(hs + [Happened(table, Inserted(image))]) == hs;
  }

  /** The server maps each captured table to a target table of its own. */
  predicate DistinctNames(tables: seq<TableRef>) {
    forall i, j | 0 <= i < j < |tables| :: tables[i].name != tables[j].name
  }

  lemma {:induction false} ShotLoads(env: Env, shot: Shot, n: nat, i: nat)
    requires ShotOf(env, shot) && DistinctNames(env.tables) && n <= |shot.tables| && i < |shot.tables|
    ensures TableShot(env.tables[i], shot.tables[i], shot.rows[i])
    ensures Loaded(InsertedUpTo(env, shot, n), env.tables[i].name)
            == if i < n then Images(shot.tables[i], shot.rows[i]) else multiset{}
    decreases n
  {
    hide TableInserts, Images, Loaded, WellFormed, InsertedUpTo, CatalogOf;
    assert TableShot(env.tables[i], shot.tables[i], shot.rows[i]);
    InsertedStep(env, shot, n);
    if n == 0 {
      LoadedNothing(env.tables[i].name);
    } else {
      ShotLoads(env, shot, n - 1, i);
      var t, rows, name := shot.tables[n - 1], shot.rows[n - 1], env.tables[i].name;
      assert TableShot(env.tables[n - 1], t, rows);
      LoadedConcat(InsertedUpTo(env, shot, n - 1), TableInserts(t, rows), name);
      TableLoads(t, rows, name);
    }
  }

  lemma LoadedNothing(name: string)
    ensures Loaded([], name) == multiset{}
  {
  }

  lemma InsertedStep(env: Env, shot: Shot, n: nat)
    requires ShotOf(env, shot) && n <= |shot.tables|
    ensures n == 0 ==> InsertedUpTo(env, shot, n) == []
    ensures n > 0 ==>
              && TableShot(env.tables[n - 1], shot.tables[n - 1], shot.rows[n - 1])
              && InsertedUpTo(env, shot, n) == InsertedUpTo(env, shot, n - 1) + TableInserts(shot.tables[n - 1],
                                                                                             shot.rows[n - 1])
  {
    if n > 0 {
      assert TableShot(env.tables[n - 1], shot.tables[n - 1], shot.rows[n - 1]);
    }
  }

  lemma {:induction false} OnlyInserts(env: Env, shot: Shot, n: nat)
    requires ShotOf(env, shot) && n <= |shot.tables|
    ensures forall h | h in InsertedUpTo(env, shot, n) :: h.change.Inserted?
    decreases n
  {
    if n > 0 {
      OnlyInserts(env, shot, n - 1);
      assert TableShot(env.tables[n - 1], shot.tables[n - 1], shot.rows[n - 1]);
    }
  }

  /** Applying a stored snapshot leaves in every captured table exactly the rows that were read, whatever the
      target held before. */
  lemma ShotEffect(env: Env, cfg: Config, base: Replica, shot: Shot, version: string, log: seq<Message>, i: nat)
    requires ShotLog(env, shot, version, log) && DistinctNames(env.tables) && PickWorks(cfg.pick) && i < |env.tables|
    requires forall ref | ref in env.tables :: ref.name in base.tables
    ensures var tables := Effect(cfg, base, log).tables;
            && TableShot(env.tables[i], shot.tables[i], shot.rows[i]) && env.tables[i].name in tables
            && tables[env.tables[i].name] == Images(shot.tables[i], shot.rows[i])
  {
    hide ShotMessages, ShotRows, InsertedUpTo, PickWorks, Told, Loaded, Images, CloseTables, OpenScope, OpenSnapshot;
    ShotOpen(env, shot, version, log);
    var front, n, ref := Front(log), |shot.tables|, env.tables[i];
    QuietEffect(cfg, base, [], front);
    assert [] + front == front && ref in env.tables;
    var cleared := Cleared(base.tables, env.tables);
    RowsAre(env, shot);
    ShotTold(env, shot, cleared, n);
    OnlyInserts(env, shot, n);
    SnapshotLoads(cfg, base.tables, front, Last(log), InsertedUpTo(env, shot, n), ref);
    ShotLoads(env, shot, n, i);
  }

  lemma RowsAre(env: Env, shot: Shot)
    requires ShotOf(env, shot)
    ensures ShotRows(env, shot) == RowsUpTo(env, shot, |shot.tables|)
  {
  }
}
