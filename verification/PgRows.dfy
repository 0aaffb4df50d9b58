/** The PostgreSQL row conversion: a wal2json change record becomes a row event. Unchanged out-of-line (TOAST)
    values are missing from update records; tables without a primary key are identified by the full old row. */
module PgRows {
  import opened Event
  import opened Target
  import opened Changes
  import opened Collections

  datatype PgColumn = PgColumn(name: string, typeName: string, oid: nat, primary: bool)

  datatype PgTable = PgTable(ref: TableRef, columns: seq<PgColumn>, fullRow: bool)

  datatype WireValue = Null | Text(text: string) | Invalid

  datatype WireColumn = WireColumn(name: string, typeName: string, oid: nat, value: WireValue)

  datatype Action = InsertAction | UpdateAction | DeleteAction

  datatype ChangeRecord = ChangeRecord(action: Action, table: TableRef, columns: seq<WireColumn>,
                                       identity: seq<WireColumn>)

  datatype ConvertError = SchemaMismatch | Malformed | NoIdentity

  const Bytea := 17

  /** What the catalog guarantees: distinct columns, and the full-row identity exactly without a primary key. */
  predicate WellFormed(t: PgTable) {
    && t.columns != []
    && (forall i, j | 0 <= i < j < |t.columns| :: t.columns[i].name != t.columns[j].name)
    && (t.fullRow <==> forall c | c in t.columns :: !c.primary)
  }

  function Names(t: PgTable): set<string> {
    set c | c in t.columns :: c.name
  }

  function KeyColumns(columns: seq<PgColumn>): seq<PgColumn> {
    if columns == [] then []
    else
      var last := columns[|columns| - 1];
      KeyColumns(columns[..|columns| - 1]) + (if last.primary then [last] else [])
  }

  // ---------------------------------------------------------------- specification

  /** The catalog's text form of a value: bytea arrives without its prefix. */
  function TextOf(w: WireColumn): Option<string> {
    if !w.value.Text? then None else Some(if w.oid == Bytea then "\\x" + w.value.text else w.value.text)
  }

  predicate Expected(t: PgTable, w: WireColumn) {
    exists c | c in t.columns :: c.name == w.name && c.typeName == w.typeName && c.oid == w.oid
  }

  function Decode(t: PgTable, wires: seq<WireColumn>): Result<seq<Column>, ConvertError> {
    if wires == [] then Success([])
    else
      var last := wires[|wires| - 1];
      var front :- Decode(t, wires[..|wires| - 1]);
      if !Expected(t, last) || Lists(front, last.name) then Failure(SchemaMismatch)
      else if last.value.Invalid? then Failure(Malformed)
      else Success(front + [Column(last.name, last.typeName, TextOf(last))])
  }

  /** A lookup by name that yields the zero column when there is none. */
  function At(columns: seq<Column>, name: string): Column {
    if columns == [] then Column("", "", None)
    else if columns[|columns| - 1].name == name then columns[|columns| - 1]
    else At(columns[..|columns| - 1], name)
  }

  predicate HasKey(columns: seq<Column>, key: seq<PgColumn>) {
    forall c | c in key :: HasValue(columns, c.name)
  }

  function Pick(columns: seq<Column>, wanted: seq<PgColumn>): seq<Column> {
    seq(|wanted|, i requires 0 <= i < |wanted| => At(columns, wanted[i].name))
  }

  function PickEither(columns: seq<Column>, prior: seq<Column>, wanted: seq<PgColumn>): seq<Column> {
    seq(|wanted|, i requires 0 <= i < |wanted| =>
          At(if Lists(columns, wanted[i].name) then columns else prior, wanted[i].name))
  }

  predicate ListsAll(columns: seq<Column>, wanted: seq<PgColumn>) {
    forall c | c in wanted :: Lists(columns, c.name)
  }

  function OperationOf(action: Action): Operation {
    match action
    case InsertAction => Insert
    case UpdateAction => Update
    case DeleteAction => Delete
  }

  function FullRow(t: PgTable, r: ChangeRecord, columns: seq<Column>, prior: seq<Column>): Result<Row, ConvertError> {
    var row := Row(true, r.table, OperationOf(r.action), [], [], columns, 0);
    match r.action
    case DeleteAction => if |prior| != |t.columns| then Failure(NoIdentity) else Success(row.(key := Pick(prior,
                                                                                                          t.columns)))
    case UpdateAction =>
      if |prior| != |t.columns| then Failure(NoIdentity)
      else Success(row.(key := PickEither(columns, prior, t.columns), oldKey := Pick(prior, t.columns)))
    case InsertAction =>
      if !ListsAll(columns, t.columns) then Failure(SchemaMismatch) else Success(row.(key := Pick(columns, t.columns)))
  }

  function KeyedRow(t: PgTable, r: ChangeRecord, columns: seq<Column>, prior: seq<Column>): Result<Row, ConvertError> {
    var row, key := Row(false, r.table, OperationOf(r.action), [], [], columns, 0), KeyColumns(t.columns);
    match r.action
    case DeleteAction => if !HasKey(prior, key) then Failure(NoIdentity) else Success(row.(key := Pick(prior, key)))
    case UpdateAction =>
      if !HasKey(columns, key) || !HasKey(prior, key) then Failure(NoIdentity)
      else Success(row.(key := Pick(columns, key), oldKey := Pick(prior, key)))
    case InsertAction =>
      if !HasKey(columns, key) then Failure(NoIdentity)
      else if |columns| != |t.columns| then Failure(SchemaMismatch)
      else Success(row.(key := Pick(columns, key)))
  }

  function ConvertedRow(t: PgTable, r: ChangeRecord): Result<Row, ConvertError> {
    var columns :- Decode(t, r.columns);
    var prior :- Decode(t, r.identity);
    if t.fullRow then FullRow(t, r, columns, prior) else KeyedRow(t, r, columns, prior)
  }

  lemma {:induction false} DecodedCount(t: PgTable, wires: seq<WireColumn>)
    requires Decode(t, wires).Success?
    ensures |Decode(t, wires).value| == |wires|
    decreases |wires|
  {
    if wires != [] {
      DecodedCount(t, wires[..|wires| - 1]);
    }
  }

  // ---------------------------------------------------------------- conversion

  lemma {:induction false} DecodeFails(t: PgTable, wires: seq<WireColumn>, i: nat)
    requires i <= |wires| && Decode(t, wires[..i]).Failure?
    ensures Decode(t, wires) == Decode(t, wires[..i])
    decreases |wires|
  {
    if i == |wires| {
      assert wires[..i] == wires;
    } else {
      assert wires[..|wires| - 1][..i] == wires[..i];
      DecodeFails(t, wires[..|wires| - 1], i);
    }
  }

  method DecodeColumns(t: PgTable, wires: seq<WireColumn>) returns (result: Result<seq<Column>, ConvertError>)
    ensures result == Decode(t, wires)
  {
    var out: seq<Column>, seen: set<string> := [], {};
    for i := 0 to |wires|
      invariant Decode(t, wires[..i]) == Success(out)
      invariant forall name :: name in seen <==> Lists(out, name)
    {
      var w := wires[i];
      assert wires[..i + 1][..i] == wires[..i];
      if !Expected(t, w) || w.name in seen {
        DecodeFails(t, wires, i + 1);
        return Failure(SchemaMismatch);
      }
      if w.value.Invalid? {
        DecodeFails(t, wires, i + 1);
        return Failure(Malformed);
      }
      var c := Column(w.name, w.typeName, TextOf(w));
      forall name ensures Lists(out + [c], name) <==> Lists(out, name) || c.name == name {
        ListsAppended(out, c, name);
      }
      seen := seen + {w.name};
      out := out + [c];
    }
    assert wires[..|wires|] == wires;
    return Success(out);
  }

  lemma PickGrows(columns: seq<Column>, prior: seq<Column>, wanted: seq<PgColumn>, i: nat)
    requires i < |wanted|
    ensures Pick(columns, wanted[..i + 1]) == Pick(columns, wanted[..i]) + [At(columns, wanted[i].name)]
    ensures PickEither(columns, prior, wanted[..i + 1]) ==
            PickEither(columns, prior, wanted[..i])
            + [At(if Lists(columns, wanted[i].name) then columns else prior, wanted[i].name)]
  {
    hide At, Lists;
  }

  /** Collects the full-row key of every column, the old one beside it for updates. */
  method FullRowKeys(t: PgTable, action: Action, columns: seq<Column>, prior: seq<Column>)
    returns (result: Option<(seq<Column>, seq<Column>)>)
    ensures result == match action
                      case DeleteAction => Some((Pick(prior, t.columns), []))
                      case UpdateAction => Some((PickEither(columns, prior, t.columns), Pick(prior, t.columns)))
                      case InsertAction =>
                        if ListsAll(columns, t.columns) then Some((Pick(columns, t.columns), [])) else None
  {
    hide Decode, At, Lists, Lookup, Names, Assign, Patch, HasKey, ConvertedRow;
    var key: seq<Column>, oldKey: seq<Column> := [], [];
    assert t.columns[..0] == [] && Pick(columns, []) == Pick(prior, []) == PickEither(columns, prior, []) == [];
    hide At, Lists, Pick, PickEither;
    for i := 0 to |t.columns|
      invariant action.InsertAction? ==> ListsAll(columns, t.columns[..i])
      invariant key == match action
                       case DeleteAction => Pick(prior, t.columns[..i])
                       case UpdateAction => PickEither(columns, prior, t.columns[..i])
                       case InsertAction => Pick(columns, t.columns[..i])
      invariant oldKey == if action.UpdateAction? then Pick(prior, t.columns[..i]) else []
    {
      var name := t.columns[i].name;
      PickGrows(columns, prior, t.columns, i);
      PickGrows(prior, prior, t.columns, i);
      var previous := At(prior, name);
      if action.DeleteAction? {
        key := key + [previous];
        continue;
      }
      var value := At(columns, name);
      if !Lists(columns, name) {
        if !action.UpdateAction? {
          assert t.columns[i] in t.columns;
          return None;
        }
        value := previous;
      }
      key := key + [value];
      if action.UpdateAction? {
        oldKey := oldKey + [previous];
      }
    }
    assert t.columns[..|t.columns|] == t.columns;
    return Some((key, oldKey));
  }

  predicate HasValue(columns: seq<Column>, name: string) {
    Lists(columns, name) && At(columns, name).value.Some?
  }

  lemma HasKeyGrows(columns: seq<Column>, wanted: seq<PgColumn>, i: nat)
    requires i < |wanted|
    ensures HasKey(columns, wanted[..i + 1]) <==> HasKey(columns, wanted[..i]) && HasValue(columns, wanted[i].name)
    ensures HasKey(columns, wanted) ==> HasValue(columns, wanted[i].name)
  {
    hide HasValue;
    assert wanted[..i + 1] == wanted[..i] + [wanted[i]];
  }

  /** Collects the primary key, the old one beside it for updates; every key value must be present. */
  method PrimaryKeys(wanted: seq<PgColumn>, action: Action, columns: seq<Column>, prior: seq<Column>)
    returns (result: Option<(seq<Column>, seq<Column>)>)
    ensures result == match action
                      case DeleteAction => if HasKey(prior, wanted) then Some((Pick(prior, wanted), [])) else None
                      case UpdateAction =>
                        if HasKey(columns, wanted) && HasKey(prior, wanted)
                          then Some((Pick(columns, wanted), Pick(prior, wanted)))
                        else None
                      case InsertAction => if HasKey(columns, wanted) then Some((Pick(columns, wanted), [])) else None
  {
    var key: seq<Column>, oldKey: seq<Column> := [], [];
    assert wanted[..0] == [] && Pick(columns, []) == Pick(prior, []) == [] && HasKey(columns, []) && HasKey(prior, []);
    hide Pick, HasKey, HasValue;
    for i := 0 to |wanted|
      invariant action.DeleteAction? || HasKey(columns, wanted[..i])
      invariant action.InsertAction? || HasKey(prior, wanted[..i])
      invariant key == Pick(if action.DeleteAction? then prior else columns, wanted[..i])
      invariant oldKey == if action.UpdateAction? then Pick(prior, wanted[..i]) else []
    {
      var name := wanted[i].name;
      PickGrows(columns, prior, wanted, i);
      PickGrows(prior, prior, wanted, i);
      HasKeyGrows(columns, wanted, i);
      HasKeyGrows(prior, wanted, i);
      var known := if action.DeleteAction? then prior else columns;
      if !HasValue(known, name) {
        return None;
      }
      key := key + [At(known, name)];
      if action.UpdateAction? {
        if !HasValue(prior, name) {
          return None;
        }
        oldKey := oldKey + [At(prior, name)];
      }
    }
    assert wanted[..|wanted|] == wanted;
    return Some((key, oldKey));
  }

  method Convert(t: PgTable, r: ChangeRecord) returns (result: Result<Row, ConvertError>)
    ensures result == ConvertedRow(t, r)
  {
    var columns :- DecodeColumns(t, r.columns);
    var prior :- DecodeColumns(t, r.identity);
    var row := Row(t.fullRow, r.table, OperationOf(r.action), [], [], columns, 0);
    if t.fullRow {
      if !r.action.InsertAction? && |prior| != |t.columns| {
        return Failure(NoIdentity);
      }
      var keys := FullRowKeys(t, r.action, columns, prior);
      if keys.None? {
        return Failure(SchemaMismatch);
      }
      return Success(row.(key := keys.value.0, oldKey := keys.value.1));
    }
    var keys := PrimaryKeys(KeyColumns(t.columns), r.action, columns, prior);
    if keys.None? {
      return Failure(NoIdentity);
    }
    if r.action.InsertAction? && |columns| != |t.columns| {
      return Failure(SchemaMismatch);
    }
    return Success(row.(key := keys.value.0, oldKey := keys.value.1));
  }

  // ---------------------------------------------------------------- meaning

  predicate Truthful(wires: seq<WireColumn>, image: Image) {
    forall w | w in wires :: TextOf(w) == Lookup(image, w.name)
  }

  predicate Sends(wires: seq<WireColumn>, name: string) {
    exists w | w in wires :: w.name == name
  }

  /** What the source sends for a change: the truth, leaving out of an update only what did not change. */
  ghost predicate Emits(t: PgTable, change: Change, r: ChangeRecord) {
    match change
    case Inserted(after) => r.action.InsertAction? && Truthful(r.columns, after) && after.Keys <= Names(t)
    case Updated(before, after) =>
      && r.action.UpdateAction? && Truthful(r.columns, after) && Truthful(r.identity, before)
      && before.Keys <= Names(t) && after.Keys <= Names(t)
      && (forall name | name in Names(t) && !Sends(r.columns, name) :: Lookup(before, name) == Lookup(after, name))
    case Deleted(before) => r.action.DeleteAction? && Truthful(r.identity, before) && before.Keys <= Names(t)
  }

  /** Decoding keeps names and values, and refuses repeated or unknown columns. */
  lemma {:induction false} DecodeTells(t: PgTable, wires: seq<WireColumn>, image: Image)
    requires Decode(t, wires).Success? && Truthful(wires, image)
    ensures var columns := Decode(t, wires).value;
            && |columns| == |wires| && Distinct(columns) && Matches(image, columns)
            && (forall name :: Lists(columns, name) <==> Sends(wires, name))
            && (forall c | c in columns :: c.name in Names(t))
    decreases |wires|
  {
    hide Lookup, Patch, ConvertedRow;
    if wires != [] {
      var front, last := wires[..|wires| - 1], wires[|wires| - 1];
      assert forall w | w in front :: w in wires;
      DecodeTells(t, front, image);
      assert last in wires && wires == front + [last];
      var told := Decode(t, front).value;
      forall name ensures Lists(Decode(t, wires).value, name) <==> Sends(wires, name) {
        ListsAppended(told, Column(last.name, last.typeName, TextOf(last)), name);
        SendsAppended(front, last, name);
      }
    }
  }

  lemma ListsAppended(columns: seq<Column>, c: Column, name: string)
    ensures Lists(columns + [c], name) <==> Lists(columns, name) || c.name == name
  {
    assert c in columns + [c];
    assert forall d | d in columns :: d in columns + [c];
  }

  lemma SendsAppended(wires: seq<WireColumn>, w: WireColumn, name: string)
    ensures Sends(wires + [w], name) <==> Sends(wires, name) || w.name == name
  {
    assert w in wires + [w];
    assert forall d | d in wires :: d in wires + [w];
  }

  lemma {:induction false} AtFinds(columns: seq<Column>, name: string)
    requires Lists(columns, name)
    ensures At(columns, name) in columns && At(columns, name).name == name
    decreases |columns|
  {
    var front, last := columns[..|columns| - 1], columns[|columns| - 1];
    if last.name != name {
      var c :| c in columns && c.name == name;
      assert c in front;
      AtFinds(front, name);
    }
  }

  lemma PickMatches(columns: seq<Column>, wanted: seq<PgColumn>, image: Image)
    requires Matches(image, columns) && ListsAll(columns, wanted)
    ensures Matches(image, Pick(columns, wanted))
    ensures forall c | c in wanted :: Lists(Pick(columns, wanted), c.name)
    ensures forall k | k in Pick(columns, wanted) :: exists c | c in wanted :: c.name == k.name
  {
    var key := Pick(columns, wanted);
    forall k | k in key ensures Lookup(image, k.name) == k.value && exists c | c in wanted :: c.name == k.name {
      var i :| 0 <= i < |key| && key[i] == k;
      assert wanted[i] in wanted;
      AtFinds(columns, wanted[i].name);
    }
    forall c | c in wanted ensures Lists(key, c.name) {
      var i :| 0 <= i < |wanted| && wanted[i] == c;
      AtFinds(columns, c.name);
      assert key[i] in key;
    }
  }

  lemma {:induction false} KeyColumnsAre(columns: seq<PgColumn>)
    ensures forall c :: c in KeyColumns(columns) <==> c in columns && c.primary
    decreases |columns|
  {
    if columns != [] {
      KeyColumnsAre(columns[..|columns| - 1]);
    }
  }

  lemma {:induction false} NamesCount(columns: seq<Column>)
    requires Distinct(columns)
    ensures |set c | c in columns :: c.name| == |columns|
    decreases |columns|
  {
    if columns != [] {
      var front, last := columns[..|columns| - 1], columns[|columns| - 1];
      NamesCount(front);
      assert (set c | c in columns :: c.name) == (set c | c in front :: c.name) + {last.name};
    }
  }

  lemma {:induction false} TableNamesCount(columns: seq<PgColumn>)
    ensures |set c | c in columns :: c.name| <= |columns|
    decreases |columns|
  {
    if columns != [] {
      var front, last := columns[..|columns| - 1], columns[|columns| - 1];
      TableNamesCount(front);
      assert (set c | c in columns :: c.name) == (set c | c in front :: c.name) + {last.name};
    }
  }

  /** As many distinct known columns as the table has are all of its columns. */
  lemma EnoughIsAll(t: PgTable, columns: seq<Column>)
    requires Distinct(columns) && |columns| == |t.columns| && forall c | c in columns :: c.name in Names(t)
    ensures ListsAll(columns, t.columns)
  {
    var sent := set c | c in columns :: c.name;
    NamesCount(columns);
    TableNamesCount(t.columns);
    SubsetOfSize(sent, Names(t));
    forall c | c in t.columns ensures Lists(columns, c.name) {
      assert c.name in Names(t) && c.name in sent;
    }
  }

  function IdentityNames(t: PgTable): set<string> {
    if t.fullRow then Names(t) else set c | c in t.columns && c.primary :: c.name
  }

  lemma IdentityTells(t: PgTable, columns: seq<Column>, image: Image)
    requires WellFormed(t) && Distinct(columns) && Matches(image, columns)
             && forall c | c in columns :: c.name in Names(t)
    requires if t.fullRow then |columns| == |t.columns| else HasKey(columns, KeyColumns(t.columns))
    ensures var identity := Pick(columns, if t.fullRow then t.columns else KeyColumns(t.columns));
            && identity != [] && Matches(image, identity)
               && (forall name | name in IdentityNames(t) :: Lists(identity, name))
            && (forall c | c in identity :: c.name in Names(t))
  {
    if t.fullRow {
      EnoughIsAll(t, columns);
      PickMatches(columns, t.columns, image);
    } else {
      KeyColumnsAre(t.columns);
      PickMatches(columns, KeyColumns(t.columns), image);
      var c :| c in t.columns && c.primary;
      assert c in KeyColumns(t.columns);
    }
  }

  lemma InsertDescribes(t: PgTable, r: ChangeRecord, after: Image)
    requires WellFormed(t) && Emits(t, Inserted(after), r) && ConvertedRow(t, r).Success?
    ensures Describes(ConvertedRow(t, r).value, Inserted(after)) && KnownTo(Names(t), ConvertedRow(t, r).value)
  {
    DecodeTells(t, r.columns, after);
    var columns := Decode(t, r.columns).value;
    if !t.fullRow {
      EnoughIsAll(t, columns);
    }
    assert t.columns[0] in t.columns;
    forall name | name in after ensures Lists(columns, name) {
      assert name in Names(t);
    }
  }

  lemma UpdateDescribes(t: PgTable, r: ChangeRecord, before: Image, after: Image)
    requires WellFormed(t) && Emits(t, Updated(before, after), r) && ConvertedRow(t, r).Success?
    ensures var row := ConvertedRow(t, r).value;
            && Describes(row, Updated(before, after))
            && row.operation.Update? && |row.columns| == |r.columns| && KnownTo(Names(t), row)
            && Matches(before, Identity(row)) && forall name | name in IdentityNames(t) :: Lists(Identity(row), name)
  {
    hide Decode, Lists, Pick, PickEither, Names, Patch, HasKey;
    DecodeTells(t, r.columns, after);
    DecodeTells(t, r.identity, before);
    IdentityTells(t, Decode(t, r.identity).value, before);
    var columns := Decode(t, r.columns).value;
    forall name | !Lists(columns, name) ensures Lookup(before, name) == Lookup(after, name) {
      assert name !in Names(t) ==> name !in before && name !in after;
    }
  }

  lemma DeleteDescribes(t: PgTable, r: ChangeRecord, before: Image)
    requires WellFormed(t) && Emits(t, Deleted(before), r) && ConvertedRow(t, r).Success?
    ensures var row := ConvertedRow(t, r).value;
            && Describes(row, Deleted(before)) && KnownTo(Names(t), row)
            && forall name | name in IdentityNames(t) :: Lists(Identity(row), name)
  {
    DecodeTells(t, r.identity, before);
    IdentityTells(t, Decode(t, r.identity).value, before);
  }

  lemma ConvertedTable(t: PgTable, r: ChangeRecord)
    requires ConvertedRow(t, r).Success?
    ensures ConvertedRow(t, r).value.table == r.table
  {
    hide Decode, Pick, PickEither, KeyColumns, HasKey, ListsAll;
  }

  /** Applying the converted record to a table holding the true old row yields the true new row, even when
      unchanged values were left out, for every choice of LIMIT 1. An update that sends no column at all is the
      one record that is converted but refused. */
  lemma ConvertedChangeApplies(cfg: Config, columns: Columns, tables: Tables, t: PgTable, r: ChangeRecord,
                               change: Change)
    requires WellFormed(t) && Emits(t, change, r) && ConvertedRow(t, r).Success?
    requires PickWorks(cfg.pick) && r.table in cfg.tables && r.table.name in columns && r.table.name in tables
    requires Names(t) <= columns[r.table.name]
    requires Distinguishes(t.fullRow, IdentityNames(t), tables[r.table.name]) && Held(tables[r.table.name], change)
    ensures ApplyRow(cfg, columns, tables, ConvertedRow(t, r).value)
            == if change.Updated? && r.columns == [] then Failure(Inapplicable)
               else Success(tables[r.table.name := ChangeTable(tables[r.table.name], change)])
  {
    hide ConvertedRow, Distinguishes, Patch, PickWorks, Emits, Pins, Describes, WellFormed;
    var row, table := ConvertedRow(t, r).value, tables[r.table.name];
    ConvertedTable(t, r);
    match change {
      case Inserted(after) =>
        InsertDescribes(t, r, after);
      case Updated(before, after) =>
        UpdateDescribes(t, r, before, after);
        IdentityPins(t.fullRow, IdentityNames(t), table, Identity(row), before);
      case Deleted(before) =>
        DeleteDescribes(t, r, before);
        IdentityPins(t.fullRow, IdentityNames(t), table, Identity(row), before);
    }
    DescribedChangeApplies(cfg, columns, tables, row, change);
  }

  /** The refused record does occur: an update of a table without a primary key that changes no stored value
      and whose only column is too large to be sent again. */
  lemma SilentUpdateRefused(cfg: Config, columns: Columns, tables: Tables)
    ensures var t := PgTable(TableRef("public", "notes"), [PgColumn("body", "text", 25, false)], true);
            var image := map["body" := "x"];
            var r := ChangeRecord(UpdateAction, t.ref, [], [WireColumn("body", "text", 25, Text("x"))]);
            && WellFormed(t) && Emits(t, Updated(image, image), r) && ConvertedRow(t, r).Success?
            && Distinguishes(t.fullRow, IdentityNames(t), multiset{image})
               && Held(multiset{image}, Updated(image, image))
            && ApplyRow(cfg, columns, tables, ConvertedRow(t, r).value) == Failure(Inapplicable)
  {
    var body := PgColumn("body", "text", 25, false);
    var t := PgTable(TableRef("public", "notes"), [body], true);
    var wire := WireColumn("body", "text", 25, Text("x"));
    var image: Image := map["body" := "x"];
    assert body in t.columns && Expected(t, wire);
    assert [wire][..0] == [];
    assert Decode(t, [wire]).Success?;
    assert Names(t) == {"body"};
  }
}
