/** What a row event means: a change to one row of a source table, and the conditions under which applying the
    event to the target makes exactly that change, whichever of several equal rows LIMIT 1 returns. */
module Changes {
  import opened Event
  import opened Target

  /** What happened to one row of a source table. */
  datatype Change = Inserted(after: Image) | Updated(before: Image, after: Image) | Deleted(before: Image)

  function ChangeTable(table: Table, change: Change): Table {
    match change
    case Inserted(after) => table + multiset{after}
    case Updated(before, after) => table - multiset{before} + multiset{after}
    case Deleted(before) => table - multiset{before}
  }

  predicate Lists(columns: seq<Column>, name: string) {
    exists c | c in columns :: c.name == name
  }

  /** The event tells the truth about the change, and whatever it leaves out did not change. */
  ghost predicate Describes(row: Row, change: Change) {
    match change
    case Inserted(after) =>
      && row.operation.Insert? && row.columns != [] && Distinct(row.columns) && Matches(after, row.columns)
      && (forall name | name in after :: Lists(row.columns, name))
    case Updated(before, after) =>
      && row.operation.Update? && Distinct(row.columns) && Matches(after, row.columns)
      && (forall name :: !Lists(row.columns, name) ==> Lookup(before, name) == Lookup(after, name))
      && Identity(row) != [] && Matches(before, Identity(row))
    case Deleted(before) => row.operation.Delete? && Identity(row) != [] && Matches(before, Identity(row))
  }

  /** The identity leaves no choice between different rows of the table. */
  ghost predicate Pins(table: Table, identity: seq<Column>, before: Image) {
    before in table && forall image | image in table && Matches(image, identity) :: image == before
  }

  /** The row that changes is there. */
  ghost predicate Held(table: Table, change: Change) {
    match change
    case Inserted(_) => true
    case Updated(before, _) => before in table
    case Deleted(before) => before in table
  }

  ghost predicate Applicable(table: Table, row: Row, change: Change) {
    match change
    case Inserted(_) => true
    case Updated(before, _) => Pins(table, Identity(row), before)
    case Deleted(before) => Pins(table, Identity(row), before)
  }

  lemma {:induction false} AssignSets(image: Image, columns: seq<Column>, name: string)
    requires Distinct(columns)
    ensures !Lists(columns, name) ==> Lookup(Assign(image, columns), name) == Lookup(image, name)
    ensures forall c | c in columns && c.name == name :: Lookup(Assign(image, columns), name) == c.value
    decreases |columns|
  {
    if columns != [] {
      var front, last := columns[..|columns| - 1], columns[|columns| - 1];
      AssignSets(image, front, name);
      forall c | c in columns && c.name == name ensures Lookup(Assign(image, columns), name) == c.value {
        var i :| 0 <= i < |columns| && columns[i] == c;
        assert i < |columns| - 1 ==> c in front;
      }
      if !Lists(columns, name) {
        assert last in columns;
        assert forall c | c in front :: c in columns;
      }
    }
  }

  lemma ImagesEqual(a: Image, b: Image)
    requires forall name :: Lookup(a, name) == Lookup(b, name)
    ensures a == b
  {
    assert forall name :: name in a <==> Lookup(a, name).Some?;
    assert forall name :: name in b <==> Lookup(b, name).Some?;
    forall name | name in a ensures a[name] == b[name] {
      assert Lookup(a, name) == Lookup(b, name);
    }
  }

  /** Assigning truthful columns leads from the old image to the new one. */
  lemma AssignReaches(before: Image, after: Image, columns: seq<Column>)
    requires Distinct(columns) && Matches(after, columns)
    requires forall name :: !Lists(columns, name) ==> Lookup(before, name) == Lookup(after, name)
    ensures Assign(before, columns) == after
  {
    forall name ensures Lookup(Assign(before, columns), name) == Lookup(after, name) {
      AssignSets(before, columns, name);
      if Lists(columns, name) {
        var c :| c in columns && c.name == name;
      }
    }
    ImagesEqual(Assign(before, columns), after);
  }

  lemma PickIsPinned(pick: (Table, seq<Column>) -> Image, table: Table, identity: seq<Column>, before: Image)
    requires PickWorks(pick) && Pins(table, identity, before) && Matches(before, identity)
    ensures pick(table, identity) == before
  {
    assert PickFinds(pick, table, identity);
  }

  lemma DescribedChangePatches(pick: (Table, seq<Column>) -> Image, table: Table, row: Row, change: Change)
    requires PickWorks(pick) && Describes(row, change) && Applicable(table, row, change)
    ensures Patch(pick, table, row) == ChangeTable(table, change)
  {
    match change
    case Inserted(after) =>
      forall name | !Lists(row.columns, name) ensures Lookup(map[], name) == Lookup(after, name) {
      }
      AssignReaches(map[], after, row.columns);
    case Updated(before, after) =>
      PickIsPinned(pick, table, Identity(row), before);
      AssignReaches(before, after, row.columns);
    case Deleted(before) =>
      PickIsPinned(pick, table, Identity(row), before);
  }

  /** Every column the event makes the target look at exists there. */
  predicate KnownTo(known: set<string>, row: Row) {
    && (!row.operation.Delete? ==> forall c | c in row.columns :: c.name in known)
    && (!row.operation.Insert? ==> forall c | c in Identity(row) :: c.name in known)
  }

  /** An update that sends no column. */
  predicate Silent(row: Row) {
    row.operation.Update? && row.columns == []
  }

  /** A truthful event about a configured table makes exactly the described change, for every choice LIMIT 1 may
      make; a silent update is refused, although nothing would have to change. */
  lemma DescribedChangeApplies(cfg: Config, columns: Columns, tables: Tables, row: Row, change: Change)
    requires PickWorks(cfg.pick) && Describes(row, change)
    requires row.table in cfg.tables && row.table.name in columns && row.table.name in tables
    requires KnownTo(columns[row.table.name], row) && Applicable(tables[row.table.name], row, change)
    ensures ApplyRow(cfg, columns, tables, row) ==
            if Silent(row) then Failure(Inapplicable)
            else Success(tables[row.table.name := ChangeTable(tables[row.table.name], change)])
  {
    hide Patch;
    DescribedChangePatches(cfg.pick, tables[row.table.name], row, change);
    if !change.Inserted? {
      PickIsPinned(cfg.pick, tables[row.table.name], Identity(row), change.before);
    }
  }

  /** With further columns on the target side, an update reaches the source's new image on the source's columns
      and leaves the others alone. */
  lemma UpdateKeepsForeignColumns(victim: Image, row: Row, before: Image, after: Image, name: string)
    requires Describes(row, Updated(before, after))
    ensures !Lists(row.columns, name) ==> Lookup(Assign(victim, row.columns), name) == Lookup(victim, name)
    ensures Lists(row.columns, name) || Lookup(victim, name) == Lookup(before, name) ==>
              Lookup(Assign(victim, row.columns), name) == Lookup(after, name)
  {
    AssignSets(victim, row.columns, name);
    if Lists(row.columns, name) {
      var c :| c in row.columns && c.name == name;
    }
  }

  /** An identity that lists every column of the table pins any row. */
  lemma FullIdentityPins(table: Table, identity: seq<Column>, before: Image, names: set<string>)
    requires before in table && Matches(before, identity)
    requires forall image | image in table :: image.Keys <= names
    requires forall name | name in names :: Lists(identity, name)
    ensures Pins(table, identity, before)
  {
    forall image | image in table && Matches(image, identity) ensures image == before {
      forall name ensures Lookup(image, name) == Lookup(before, name) {
        if name in names {
          var c :| c in identity && c.name == name;
        }
      }
      ImagesEqual(image, before);
    }
  }

  /** No two rows of the table agree on all the given columns. */
  ghost predicate UniqueOn(table: Table, names: set<string>) {
    forall a, b | a in table && b in table && (forall name | name in names :: Lookup(a, name) == Lookup(b, name)) ::
      a == b
  }

  /** An identity that lists a unique key pins any row. */
  lemma KeyPins(table: Table, identity: seq<Column>, before: Image, key: set<string>)
    requires before in table && Matches(before, identity) && UniqueOn(table, key)
    requires forall name | name in key :: Lists(identity, name)
    ensures Pins(table, identity, before)
  {
    forall image | image in table && Matches(image, identity) ensures image == before {
      forall name | name in key ensures Lookup(image, name) == Lookup(before, name) {
        var c :| c in identity && c.name == name;
      }
    }
  }

  /** The rows an identity over the given columns can tell apart: equal ones if it is the full row and they have
      no further columns, otherwise those of a unique key. */
  ghost predicate Distinguishes(fullRow: bool, names: set<string>, table: Table) {
    if fullRow then forall image | image in table :: image.Keys <= names else UniqueOn(table, names)
  }

  lemma IdentityPins(fullRow: bool, names: set<string>, table: Table, identity: seq<Column>, before: Image)
    requires Distinguishes(fullRow, names, table) && before in table && Matches(before, identity)
    requires forall name | name in names :: Lists(identity, name)
    ensures Pins(table, identity, before)
  {
    if fullRow {
      FullIdentityPins(table, identity, before, names);
    } else {
      KeyPins(table, identity, before, names);
    }
  }
}
