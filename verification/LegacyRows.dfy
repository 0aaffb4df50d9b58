/** Reading the outbox of old SQL Server sources: what the triggers recorded of a statement is read back, row by row, as
    what the statement did. An update is recorded as deletions followed by insertions. */
module LegacyRows {
  import opened Event
  import opened Target
  import opened Replay
  import opened Changes
  import opened CdcRows
  import opened Mirror
  import B = Batching
  import L = LegacyOutbox

  type Bytes = seq<bv8>

  /** The text of a value that is not NULL; the flag says it was stored as binary. */
  type Render = (MsColumn, Bytes, bool) -> Option<string>

  /** One stored value of a change. */
  datatype Stored = Stored(ordinal: int, isNull: bool, text: Option<Bytes>, unicode: Option<Bytes>,
                           binary: Option<Bytes>)

  /** A captured change with its stored values. */
  datatype Captured = Captured(changeId: nat, objectId: int, operation: string, values: seq<Stored>)

  datatype Source = Source(render: Render, ids: seq<int>, tables: seq<MsTable>)

  // ---------------------------------------------------------------- one change

  function RawOf(v: Stored): Bytes {
    if v.binary.Some? then v.binary.value
    else if v.unicode.Some? then v.unicode.value
    else if v.text.Some? then v.text.value else []
  }

  /** The value of a column; None if it cannot be rendered. */
  function Rendered(src: Source, c: MsColumn, v: Stored): Option<Option<string>> {
    if v.isNull then Some(None)
    else
      var text := src.render(c, RawOf(v), v.binary.Some?);
      if text.None? then None else Some(text)
  }

  /** The columns of stored values that are numbered 1, 2, ... */
  function ReadValues(src: Source, t: MsTable, values: seq<Stored>): Option<seq<Column>> {
    if values == [] then Some([])
    else
      var front, v, n := ReadValues(src, t, values[..|values| - 1]), values[|values| - 1], |values|;
      if front.None? || v.ordinal != n || n > |t.columns| || Rendered(src, t.columns[n - 1], v).None? then None
      else
        var c := t.columns[n - 1];
        Some(front.value + [Column(c.name, c.typeName, Rendered(src, c, v).value)])
  }

  lemma {:induction false} ReadCount(src: Source, t: MsTable, values: seq<Stored>)
    requires ReadValues(src, t, values).Some?
    ensures |ReadValues(src, t, values).value| == |values|
    decreases |values|
  {
    if values != [] {
      ReadCount(src, t, values[..|values| - 1]);
    }
  }

  lemma {:induction false} ReadFails(src: Source, t: MsTable, values: seq<Stored>, i: nat)
    requires i <= |values| && ReadValues(src, t, values[..i]).None?
    ensures ReadValues(src, t, values).None?
    decreases |values|
  {
    if i == |values| {
      assert values[..i] == values;
    } else {
      assert values[..|values| - 1][..i] == values[..i];
      ReadFails(src, t, values[..|values| - 1], i);
    }
  }

  /** The loop over the stored values. */
  method ScanValues(src: Source, t: MsTable, values: seq<Stored>) returns (columns: Option<seq<Column>>)
    ensures columns == ReadValues(src, t, values)
  {
    var out: seq<Column> := [];
    for i := 0 to |values|
      invariant ReadValues(src, t, values[..i]) == Some(out) && |out| == i
    {
      var v := values[i];
      assert values[..i + 1][..i] == values[..i];
      if v.ordinal != |out| + 1 || v.ordinal > |t.columns| {
        ReadFails(src, t, values, i + 1);
        return None;
      }
      var c := t.columns[v.ordinal - 1];
      var value := Rendered(src, c, v);
      if value.None? {
        ReadFails(src, t, values, i + 1);
        return None;
      }
      out := out + [Column(c.name, c.typeName, value.value)];
    }
    assert values[..|values|] == values;
    return Some(out);
  }

  /** The first configured table with this object id. */
  function FindTable(src: Source, id: int): Option<MsTable> {
    FindFrom(src.ids, src.tables, id)
  }

  function FindFrom(ids: seq<int>, tables: seq<MsTable>, id: int): Option<MsTable> {
    if ids == [] || tables == [] then None
    else if ids[0] == id then Some(tables[0])
    else FindFrom(ids[1..], tables[1..], id)
  }

  /** The row event of a change; None if it is malformed. */
  function EventRow(src: Source, e: Captured): Option<Row> {
    var t := FindTable(src, e.objectId);
    if t.None? then None
    else
      var columns := ReadValues(src, t.value, e.values);
      if columns.None? || |columns.value| != |t.value.columns| then None
      else if !KeyPresent(t.value, columns.value, |columns.value|) then None
      else
        var row := Row(t.value.fullRow, t.value.ref, Delete, KeyOf(t.value, columns.value, |columns.value|), [], [], 0);
        if e.operation == "I" then Some(row.(operation := Insert, columns := columns.value))
        else if e.operation == "D" then Some(row)
        else None
  }

  method ReadEvent(src: Source, e: Captured) returns (row: Option<Row>)
    ensures row == EventRow(src, e)
  {
    var t := FindTable(src, e.objectId);
    if t.None? {
      return None;
    }
    var columns := ScanValues(src, t.value, e.values);
    if columns.None? || |columns.value| != |t.value.columns| {
      return None;
    }
    var key := RowKey(t.value, columns.value);
    if key.None? {
      return None;
    }
    var event := Row(t.value.fullRow, t.value.ref, Delete, key.value, [], [], 0);
    if e.operation == "I" {
      return Some(event.(operation := Insert, columns := columns.value));
    } else if e.operation == "D" {
      return Some(event);
    }
    return None;
  }

  // ---------------------------------------------------------------- what the trigger records

  function ImageOf(change: Change): Image {
    match change
    case Inserted(after) => after
    case Updated(_, after) => after
    case Deleted(before) => before
  }

  /** Value i was recorded; a large object of a deleted row is recorded as NULL. */
  predicate RecordsAt(src: Source, t: MsTable, change: Change, values: seq<Stored>, i: nat)
    requires i < |values| == |t.columns|
  {
    && values[i].ordinal == i + 1 && Rendered(src, t.columns[i], values[i]).Some?
    && (change.Inserted? || !t.columns[i].legacyLob ==>
          Rendered(src, t.columns[i], values[i]).value == Lookup(ImageOf(change), t.columns[i].name))
  }

  /** The trigger recorded an inserted or deleted row of this table. */
  predicate Records(src: Source, t: MsTable, change: Change, e: Captured) {
    && FindTable(src, e.objectId) == Some(t) && |e.values| == |t.columns| && ImageOf(change).Keys <= Names(t)
    && ((change.Inserted? && e.operation == "I") || (change.Deleted? && e.operation == "D"))
    && forall i | 0 <= i < |e.values| :: RecordsAt(src, t, change, e.values, i)
  }

  predicate KeysPresent(t: MsTable, image: Image) {
    forall c | c in t.columns && c.primary :: c.name in image
  }

  lemma {:induction false} RecordedValues(src: Source, t: MsTable, change: Change, values: seq<Stored>, n: nat)
    requires n <= |values| == |t.columns| && forall i | 0 <= i < |values| :: RecordsAt(src, t, change, values, i)
    ensures var columns := ReadValues(src, t, values[..n]);
            && columns.Some? && |columns.value| == n
            && forall i | 0 <= i < n ::
                 var c, value := t.columns[i], Rendered(src, t.columns[i], values[i]);
                 value.Some? && columns.value[i] == Column(c.name, c.typeName, value.value)
    decreases n
  {
    if n > 0 {
      RecordedValues(src, t, change, values, n - 1);
      assert values[..n][..n - 1] == values[..n - 1] && RecordsAt(src, t, change, values, n - 1);
    }
  }

  /** What was recorded is read, and tells what happened, exactly if the primary key has no NULL. */
  lemma ReadsBack(src: Source, t: MsTable, change: Change, e: Captured)
    requires WellFormed(t) && Records(src, t, change, e)
    ensures EventRow(src, e).Some? <==> KeysPresent(t, ImageOf(change))
    ensures EventRow(src, e).Some? ==>
              var row := EventRow(src, e).value;
              && row.table == t.ref && Describes(row, change) && KnownTo(Names(t), row)
              && forall name | name in IdentityNames(t) :: Lists(Identity(row), name)
  {
    hide ReadValues, Rendered, KeyOf, Lists, FindTable, IdentityNames;
    var n, image := |e.values|, ImageOf(change);
    RecordedValues(src, t, change, e.values, n);
    assert e.values[..n] == e.values;
    var columns := ReadValues(src, t, e.values).value;
    forall i | 0 <= i < n && (change.Inserted? || !t.columns[i].legacyLob) ensures TellsAt(t, columns, image, i) {
      assert RecordsAt(src, t, change, e.values, i);
    }
    forall i | 0 <= i < n ensures t.columns[i] in t.columns && columns[i].name == t.columns[i].name {
    }
    KeyIsPresent(t, columns, image);
    IdentityTells(t, columns, image);
    KeyOfNames(t, columns, n);
    if change.Inserted? {
      AllTell(t, columns, image);
      ColumnsKnown(t, columns);
    }
  }

  lemma ColumnsKnown(t: MsTable, columns: seq<Column>)
    requires |columns| == |t.columns| && forall i | 0 <= i < |columns| :: columns[i].name == t.columns[i].name
    ensures forall c | c in columns :: c.name in Names(t)
  {
    forall c | c in columns ensures c.name in Names(t) {
      var i :| 0 <= i < |columns| && columns[i] == c;
      NameOf(t, i);
    }
  }

  lemma KeyIsPresent(t: MsTable, columns: seq<Column>, image: Image)
    requires WellFormed(t) && |columns| == |t.columns|
    requires forall i | 0 <= i < |columns| && !t.columns[i].legacyLob :: TellsAt(t, columns, image, i)
    ensures KeyPresent(t, columns, |columns|) <==> KeysPresent(t, image)
  {
    forall i | 0 <= i < |columns| && t.columns[i].primary
      ensures columns[i].value.Some? <==> t.columns[i].name in image {
      assert t.columns[i] in t.columns && TellsAt(t, columns, image, i);
    }
    if KeyPresent(t, columns, |columns|) {
      forall c | c in t.columns && c.primary ensures c.name in image {
        var i :| 0 <= i < |t.columns| && t.columns[i] == c;
      }
    }
  }

  // ---------------------------------------------------------------- a statement

  /** The rows of a statement, numbered from 1, up to the first change that cannot be read. */
  function ReadStatement(src: Source, events: seq<Captured>): L.Reading {
    if events == [] then L.Reading([], true)
    else
      var front, row := ReadStatement(src, Front(events)), EventRow(src, Last(events));
      if !front.whole then front
      else if row.None? then L.Reading(front.rows, false)
      else L.Reading(front.rows + [row.value.(ordinal := |events|)], true)
  }

  /** The triggers recorded one change. */
  ghost predicate RecordsChange(src: Source, table: Table, e: Captured, h: Happened) {
    exists t :: RecordsIn(src, t, table, e, h)
  }

  ghost predicate RecordsIn(src: Source, t: MsTable, table: Table, e: Captured, h: Happened) {
    && WellFormed(t) && t.ref.name == h.table && Records(src, t, h.change, e) && KeysPresent(t, ImageOf(h.change))
    && Distinguishes(t.fullRow, IdentityNames(t), table) && Held(table, h.change)
  }

  /** The triggers recorded all a statement did, in order. */
  ghost predicate RecordsStatement(src: Source, tables: Tables, events: seq<Captured>, hs: seq<Happened>) {
    && |events| == |hs|
    && (events != [] ==>
          var before, h := HappenAll(tables, Front(hs)), Last(hs);
          && RecordsStatement(src, tables, Front(events), Front(hs)) && h.table in before
          && RecordsChange(src, before[h.table], Last(events), h))
  }

  lemma ChangeTold(src: Source, table: Table, e: Captured, h: Happened, n: nat)
    requires RecordsChange(src, table, e, h)
    ensures EventRow(src, e).Some?
    ensures var row := EventRow(src, e).value.(ordinal := n);
            row.table.name == h.table && Describes(row, h.change) && Applicable(table, row, h.change)
  {
    hide EventRow, RecordsAt, KeysPresent, Distinguishes, WellFormed, Pins;
    var t :| RecordsIn(src, t, table, e, h);
    ReadsBack(src, t, h.change, e);
    var row := EventRow(src, e).value;
    NumberingIsFree(row, h.change, n);
    if h.change.Deleted? {
      IdentityPins(t.fullRow, IdentityNames(t), table, Identity(row), h.change.before);
    }
  }

  /** A statement is read whole, and its rows tell what it did. */
  lemma {:induction false} StatementTold(src: Source, tables: Tables, events: seq<Captured>, hs: seq<Happened>)
    requires RecordsStatement(src, tables, events, hs)
    ensures ReadStatement(src, events).whole && Told(tables, ReadStatement(src, events).rows, hs)
    decreases |events|
  {
    hide EventRow, RecordsChange, Describes, Applicable;
    if events != [] {
      StatementTold(src, tables, Front(events), Front(hs));
      var before, h, rows := HappenAll(tables, Front(hs)), Last(hs), ReadStatement(src, events).rows;
      ChangeTold(src, before[h.table], Last(events), h, |events|);
      assert Front(rows) == ReadStatement(src, Front(events)).rows;
    }
  }

  /** What is published for a statement, applied, repeats what the statement did, for every choice of LIMIT 1. */
  lemma PublishedStatementMirrors(env: L.Env, src: Source, pick: (Table, seq<Column>) -> Image, d: L.Done,
                                  tables: Tables,
                                  events: seq<Captured>, hs: seq<Happened>)
    requires PickWorks(pick) && RecordsStatement(src, tables, events, hs)
    requires env.read(d.statement) == ReadStatement(src, events) && L.Messages(env, d.statement, d.checkpoint).Some?
    ensures var unit := L.Messages(env, d.statement, d.checkpoint).value;
            unit != [] && PatchRows(pick, tables, B.Concat(Front(unit))) == HappenAll(tables, hs)
  {
    hide L.Messages, RecordsStatement, ReadStatement, PickWorks, B.Concat, PatchRows, Told;
    L.MessagesWhole(env, d);
    StatementTold(src, tables, events, hs);
    RowsMirror(pick, tables, ReadStatement(src, events).rows, hs);
  }
}
