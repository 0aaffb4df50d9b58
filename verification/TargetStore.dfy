/** The server's store as it runs: step-by-step checks on transaction-local
    variables, keyset pages of at most `pageSize` rows that are applied and deleted
    while paging, and one commit at the end. */
module TargetStore {
  import opened Event
  import opened Staging
  import opened Files
  import opened Target
  import opened TargetRun

  // ---------------------------------------------------------------- loops over rows

  lemma {:induction false} ApplyRowsAppend(cfg: Config, columns: Columns, tables: Tables, a: seq<Row>, b: seq<Row>)
    requires ApplyRows(cfg, columns, tables, a).Success?
    ensures ApplyRows(cfg, columns, tables, a + b)
         == ApplyRows(cfg, columns, ApplyRows(cfg, columns, tables, a).value, b)
    decreases |b|
  {
    hide ApplyRow;
    if b == [] {
      assert a + b == a;
    } else {
      var n := |b| - 1;
      assert (a + b)[..|a| + n] == a + b[..n];
      ApplyRowsAppend(cfg, columns, tables, a, b[..n]);
    }
  }

  lemma {:induction false} ApplyRowsStops(cfg: Config, columns: Columns, tables: Tables, rows: seq<Row>, n: nat)
    requires n <= |rows| && ApplyRows(cfg, columns, tables, rows[..n]).Failure?
    ensures ApplyRows(cfg, columns, tables, rows) == ApplyRows(cfg, columns, tables, rows[..n])
    decreases |rows|
  {
    if n == |rows| {
      assert rows[..n] == rows;
    } else {
      assert rows[..|rows| - 1][..n] == rows[..n];
      ApplyRowsStops(cfg, columns, tables, rows[..|rows| - 1], n);
    }
  }

  /** The inner loop: rows one by one, stopping at the first the target does not admit. */
  method ApplyEach(cfg: Config, columns: Columns, tables: Tables, rows: seq<Row>)
    returns (result: Result<Tables, StoreError>)
    ensures result == ApplyRows(cfg, columns, tables, rows)
  {
    hide ApplyRow;
    var current := tables;
    var i := 0;
    while i < |rows|
      invariant 0 <= i <= |rows|
      invariant ApplyRows(cfg, columns, tables, rows[..i]) == Success(current)
    {
      assert rows[..i + 1][..i] == rows[..i];
      var step := ApplyRow(cfg, columns, current, rows[i]);
      if step.Failure? {
        ApplyRowsStops(cfg, columns, tables, rows, i + 1);
        return step;
      }
      current := step.value;
      i := i + 1;
    }
    assert rows[..i] == rows;
    return Success(current);
  }

  // ---------------------------------------------------------------- transaction pages

  function Values<V>(staged: map<Key, V>, keys: seq<Key>): seq<V>
    requires forall k | k in keys :: k in staged
  {
    seq(|keys|, i requires 0 <= i < |keys| => staged[keys[i]])
  }

  lemma InOrderIsValues<V>(staged: map<Key, V>, generation: string)
    ensures forall k | k in Ordered(InGeneration(staged, generation)) :: k in staged && k.generation == generation
    ensures Sorted(Ordered(InGeneration(staged, generation)))
    ensures InOrder(staged, generation) == Values(staged, Ordered(InGeneration(staged, generation)))
  {
    OrderedSorts(InGeneration(staged, generation));
  }

  lemma {:induction false} RowsOfAppend(a: seq<Message>, b: seq<Message>, transaction: string)
    ensures RowsOf(a + b, transaction) == RowsOf(a, transaction) + RowsOf(b, transaction)
    decreases |b|
  {
    if b == [] {
      assert a + b == a;
    } else {
      var n := |b| - 1;
      assert (a + b)[..|a| + n] == a + b[..n];
      RowsOfAppend(a, b[..n], transaction);
    }
  }

  lemma RowsOfNext(inbox: map<Key, Message>, page: seq<Key>, i: nat, transaction: string)
    requires i < |page| && forall k | k in page :: k in inbox
    ensures var before := RowsOf(Values(inbox, page[..i]), transaction);
            RowsOf(Values(inbox, page[..i + 1]), transaction)
            == if inbox[page[i]].transaction == transaction then before + inbox[page[i]].rows else before
  {
    assert Values(inbox, page[..i + 1])[..i] == Values(inbox, page[..i]);
  }

  lemma LeftNext(inbox: map<Key, Message>, page: seq<Key>, i: nat, transaction: string)
    requires i < |page| && page[i] in inbox
    ensures Left(inbox, page[..i + 1], transaction) ==
            if inbox[page[i]].transaction == transaction then Left(inbox, page[..i], transaction) - {page[i]}
            else Left(inbox, page[..i], transaction)
  {
    assert page[..i + 1] == page[..i] + [page[i]];
  }

  lemma LeftNothing(inbox: map<Key, Message>, page: seq<Key>, transaction: string)
    ensures Left(inbox, page[..0], transaction) == inbox
  {
  }

  /** One page of inbox chunks: apply the rows of the transaction and delete its chunks. */
  method ApplyPage(cfg: Config, columns: Columns, tables: Tables, inbox: map<Key, Message>, page: seq<Key>,
                   transaction: string)
    returns (result: Result<Tables, StoreError>, left: map<Key, Message>)
    requires forall k | k in page :: k in inbox
    requires forall i, j | 0 <= i < j < |page| :: page[i] != page[j]
    ensures result == ApplyRows(cfg, columns, tables, RowsOf(Values(inbox, page), transaction))
    ensures result.Success? ==> left == Left(inbox, page, transaction)
  {
    hide ApplyRows, RowsOf, ApplyRow, Left;
    var current := tables;
    left := inbox;
    var i := 0;
    LeftNothing(inbox, page, transaction);
    EmptyRows(cfg, columns, tables, inbox, page, transaction);
    while i < |page|
      invariant 0 <= i <= |page|
      invariant ApplyRows(cfg, columns, tables, RowsOf(Values(inbox, page[..i]), transaction)) == Success(current)
      invariant left == Left(inbox, page[..i], transaction)
    {
      var item := inbox[page[i]];
      RowsOfNext(inbox, page, i, transaction);
      LeftNext(inbox, page, i, transaction);
      if item.transaction == transaction {
        ApplyRowsAppend(cfg, columns, tables, RowsOf(Values(inbox, page[..i]), transaction), item.rows);
        var step := ApplyEach(cfg, columns, current, item.rows);
        if step.Failure? {
          StopsInPage(cfg, columns, tables, inbox, page, transaction, i + 1);
          return step, left;
        }
        current := step.value;
        left := left - {page[i]};
      }
      i := i + 1;
    }
    assert page[..i] == page;
    return Success(current), left;
  }

  lemma EmptyRows(cfg: Config, columns: Columns, tables: Tables, inbox: map<Key, Message>, keys: seq<Key>,
                  transaction: string)
    requires forall k | k in keys :: k in inbox
    ensures ApplyRows(cfg, columns, tables, RowsOf(Values(inbox, keys[..0]), transaction)) == Success(tables)
  {
  }

  lemma StopsInPage(cfg: Config, columns: Columns, tables: Tables, inbox: map<Key, Message>, page: seq<Key>,
                    transaction: string, n: nat)
    requires n <= |page| && forall k | k in page :: k in inbox
    requires ApplyRows(cfg, columns, tables, RowsOf(Values(inbox, page[..n]), transaction)).Failure?
    ensures ApplyRows(cfg, columns, tables, RowsOf(Values(inbox, page), transaction))
         == ApplyRows(cfg, columns, tables, RowsOf(Values(inbox, page[..n]), transaction))
  {
    var head, tail := Values(inbox, page[..n]), Values(inbox, page[n..]);
    assert Values(inbox, page) == head + tail;
    RowsOfAppend(head, tail, transaction);
    var rows := RowsOf(head, transaction) + RowsOf(tail, transaction);
    assert rows[..|RowsOf(head, transaction)|] == RowsOf(head, transaction);
    ApplyRowsStops(cfg, columns, tables, rows, |RowsOf(head, transaction)|);
  }

  ghost function Chunks(db: Database, generation: string): (keys: seq<Key>)
    ensures forall k | k in keys :: k in db.inbox
  {
    InOrderIsValues(db.inbox, generation);
    Ordered(InGeneration(db.inbox, generation))
  }

  /** After n chunks: their rows are applied, the transaction's chunks among them are deleted, and the cursor
      stands on the last one. */
  ghost predicate Turned(cfg: Config, db: Database, generation: string, transaction: string, n: nat,
                         lastSeq: int, tables: Tables, inbox: map<Key, Message>)
  {
    var all := Chunks(db, generation);
    && n <= |all|
    && lastSeq == (if n == 0 then -1 else all[n - 1].seqNo)
    && inbox == Left(db.inbox, all[..n], transaction)
    && ApplyRows(cfg, db.columns, db.tables, RowsOf(Values(db.inbox, all[..n]), transaction)) == Success(tables)
  }

  /** One round of the page loop. */
  method TurnPage(cfg: Config, pageSize: nat, db: Database, generation: string, transaction: string, ghost n: nat,
                  lastSeq: int, tables: Tables, inbox: map<Key, Message>)
    returns (result: Result<Tables, StoreError>, last: int, left: map<Key, Message>, count: nat)
    requires Turned(cfg, db, generation, transaction, n, lastSeq, tables, inbox)
    requires forall k | k in db.inbox :: k.ordinal == 0
    ensures count == Min(pageSize, |Chunks(db, generation)| - n)
    ensures result.Success? ==> Turned(cfg, db, generation, transaction, n + count, last, result.value, left)
    ensures result.Failure? ==> result == ApplyRows(cfg, db.columns, db.tables,
                                                    RowsOf(Values(db.inbox, Chunks(db, generation)), transaction))
  {
    hide ApplyRows, RowsOf, InOrder, Ordered, Left, Values;
    var page := SelectPage(inbox.Keys, generation, lastSeq, 0, pageSize);
    count := |page|;
    PageFacts(pageSize, db, generation, transaction, n, lastSeq, inbox, page);
    PageEffect(cfg, db, generation, transaction, n, tables, inbox, page);
    result, left := ApplyPage(cfg, db.columns, tables, inbox, page, transaction);
    last := lastSeq;
    if result.Failure? {
      StopsInPage(cfg, db.columns, db.tables, db.inbox, Chunks(db, generation), transaction, n + count);
      return;
    }
    if count > 0 {
      last := page[count - 1].seqNo;
    }
  }

  /** A page holds the next chunks in order, each still stored. */
  lemma PageFacts(pageSize: nat, db: Database, generation: string, transaction: string, n: nat,
                  lastSeq: int, inbox: map<Key, Message>, page: seq<Key>)
    requires n <= |Chunks(db, generation)| && inbox == Left(db.inbox, Chunks(db, generation)[..n], transaction)
    requires lastSeq == if n == 0 then -1 else Chunks(db, generation)[n - 1].seqNo
    requires forall k | k in db.inbox :: k.ordinal == 0
    requires var rows := Ordered(Remaining(inbox.Keys, generation, lastSeq, 0)); page == rows[..Min(pageSize, |rows|)]
    ensures var all := Chunks(db, generation);
            && |page| == Min(pageSize, |all| - n)
            && page == all[n..n + |page|]
            && (forall k | k in page :: k in inbox && inbox[k] == db.inbox[k])
            && (forall i, j | 0 <= i < j < |page| :: page[i] != page[j])
  {
    hide Before, Ordered, Remaining, Left, Values, InGeneration, Uniform, Sorted;
    var all := Chunks(db, generation);
    PageKeys(db.inbox, inbox, all, generation, n, lastSeq, transaction);
    assert page == all[n..n + |page|];
    forall k | k in page ensures k in inbox && inbox[k] == db.inbox[k] {
      assert k in all[n..];
    }
  }

  /** Applying and deleting a page after n chunks amounts to having processed n + |page| chunks. */
  lemma PageEffect(cfg: Config, db: Database, generation: string, transaction: string, n: nat,
                   tables: Tables, inbox: map<Key, Message>, page: seq<Key>)
    requires n + |page| <= |Chunks(db, generation)| && page == Chunks(db, generation)[n..n + |page|]
    requires inbox == Left(db.inbox, Chunks(db, generation)[..n], transaction)
    requires forall k | k in page :: k in inbox && inbox[k] == db.inbox[k]
    requires ApplyRows(cfg, db.columns, db.tables, RowsOf(Values(db.inbox, Chunks(db, generation)[..n]), transaction))
             == Success(tables)
    ensures var all := Chunks(db, generation)[..n + |page|];
            && Left(inbox, page, transaction) == Left(db.inbox, all, transaction)
            && ApplyRows(cfg, db.columns, tables, RowsOf(Values(inbox, page), transaction))
            == ApplyRows(cfg, db.columns, db.tables, RowsOf(Values(db.inbox, all), transaction))
  {
    hide ApplyRows, RowsOf, InOrder, Ordered;
    var all := Chunks(db, generation);
    assert Values(inbox, page) == Values(db.inbox, page);
    RowsOfPage(cfg, db, all, n, page, tables, transaction);
    assert all[..n + |page|] == all[..n] + page;
    LeftSplit(db.inbox, inbox, all[..n], page, transaction);
  }

  /** Publishing a transaction in keyset pages: for any staged contents and any page size it applies every
      chunk of the transaction exactly once in sequence order, although the chunks are deleted between
      pages, and leaves exactly the chunks of other transactions. */
  method PublishTransaction(cfg: Config, pageSize: nat, db: Database, generation: string, transaction: string)
    returns (result: Result<Tables, StoreError>, inbox: map<Key, Message>)
    requires pageSize >= 1 && forall k | k in db.inbox :: k.ordinal == 0
    ensures result == ApplyRows(cfg, db.columns, db.tables, RowsOf(InOrder(db.inbox, generation), transaction))
    ensures result.Success? ==>
              inbox == map k | k in db.inbox && !(k.generation == generation
                && db.inbox[k].transaction == transaction) :: db.inbox[k]
  {
    hide ApplyRows, RowsOf, InOrder, Ordered;
    var tables, lastSeq: int := db.tables, -1;
    inbox := db.inbox;
    ghost var n := 0;
    InOrderIsValues(db.inbox, generation);
    EmptyRows(cfg, db.columns, db.tables, db.inbox, Chunks(db, generation), transaction);
    while true
      invariant Turned(cfg, db, generation, transaction, n, lastSeq, tables, inbox)
      decreases |Chunks(db, generation)| - n
    {
      var step, last, left, count := TurnPage(cfg, pageSize, db, generation, transaction, n, lastSeq, tables, inbox);
      if step.Failure? {
        return step, inbox;
      }
      tables, lastSeq, inbox, n := step.value, last, left, n + count;
      if count < pageSize {
        break;
      }
    }
    assert Chunks(db, generation)[..n] == Chunks(db, generation);
    LeftAll(db.inbox, generation, transaction);
    return Success(tables), inbox;
  }

  /** The inbox without the transaction's chunks among the given keys. */
  function Left(inbox: map<Key, Message>, keys: seq<Key>, transaction: string): map<Key, Message> {
    map k | k in inbox && !(k in keys && inbox[k].transaction == transaction) :: inbox[k]
  }

  lemma LeftAll(inbox: map<Key, Message>, generation: string, transaction: string)
    ensures Left(inbox, Ordered(InGeneration(inbox, generation)), transaction)
         == map k | k in inbox && !(k.generation == generation && inbox[k].transaction == transaction) :: inbox[k]
  {
    OrderedSorts(InGeneration(inbox, generation));
    forall k | k in inbox ensures k in Ordered(InGeneration(inbox, generation)) <==> k.generation == generation {
      assert k in InGeneration(inbox, generation) <==> k.generation == generation;
    }
  }

  lemma LeftSplit(inbox: map<Key, Message>, left: map<Key, Message>, a: seq<Key>, b: seq<Key>, transaction: string)
    requires left == Left(inbox, a, transaction)
    ensures Left(left, b, transaction) == Left(inbox, a + b, transaction)
  {
  }

  lemma RowsOfPage(cfg: Config, db: Database, all: seq<Key>, n: nat, page: seq<Key>, tables: Tables,
                   transaction: string)
    requires n + |page| <= |all| && page == all[n..n + |page|] && forall k | k in all :: k in db.inbox
    requires ApplyRows(cfg, db.columns, db.tables, RowsOf(Values(db.inbox, all[..n]), transaction)) == Success(tables)
    ensures ApplyRows(cfg, db.columns, db.tables, RowsOf(Values(db.inbox, all[..n + |page|]), transaction))
         == ApplyRows(cfg, db.columns, tables, RowsOf(Values(db.inbox, page), transaction))
  {
    hide ApplyRows, RowsOf;
    var head, tail := Values(db.inbox, all[..n]), Values(db.inbox, page);
    assert Values(db.inbox, all[..n + |page|]) == head + tail;
    RowsOfAppend(head, tail, transaction);
    ApplyRowsAppend(cfg, db.columns, db.tables, RowsOf(head, transaction), RowsOf(tail, transaction));
  }

  /** The next page starts right after the chunks already applied. */
  lemma PageKeys(staged: map<Key, Message>, left: map<Key, Message>, all: seq<Key>, generation: string, n: nat,
                 lastSeq: int, transaction: string)
    requires all == Ordered(InGeneration(staged, generation)) && n <= |all|
    requires forall k | k in staged :: k.ordinal == 0
    requires lastSeq == if n == 0 then -1 else all[n - 1].seqNo
    requires left == Left(staged, all[..n], transaction)
    ensures Ordered(Remaining(left.Keys, generation, lastSeq, 0)) == all[n..]
    ensures forall k | k in all[n..] :: k in left && left[k] == staged[k]
    ensures forall i, j | 0 <= i < j < |all| :: all[i] != all[j]
  {
    hide Ordered, Remaining, Values, Uniform;
    OrderedSorts(InGeneration(staged, generation));
    forall i | n <= i < |all| ensures all[i] in left {
      assert all[i] in InGeneration(staged, generation);
      forall j | 0 <= j < n ensures all[j] != all[i] {
        assert Before(all[j], all[i]);
      }
    }
    assert n > 0 ==> all[n - 1] in InGeneration(staged, generation);
    RemainingIsSuffix(all, left.Keys, generation, n, lastSeq, 0);
  }

  // ---------------------------------------------------------------- snapshot pages

  lemma SnapshotPage(db: Database, generation: string, n: nat, lastSeq: int, lastOrdinal: int)
    requires n <= |Ordered(InGeneration(db.snapshotRows, generation))|
    requires var all := Ordered(InGeneration(db.snapshotRows, generation));
             if n == 0 then lastSeq == -1 else lastSeq == all[n - 1].seqNo && lastOrdinal == all[n - 1].ordinal
    ensures Ordered(Remaining(db.snapshotRows.Keys, generation, lastSeq, lastOrdinal))
         == Ordered(InGeneration(db.snapshotRows, generation))[n..]
  {
    var keys := InGeneration(db.snapshotRows, generation);
    var all := Ordered(keys);
    OrderedSorts(keys);
    forall i | n <= i < |all| ensures all[i] in db.snapshotRows.Keys {
      assert all[i] in keys;
    }
    RemainingIsSuffix(all, db.snapshotRows.Keys, generation, n, lastSeq, lastOrdinal);
  }

  ghost function Staged(db: Database, generation: string): (keys: seq<Key>)
    ensures forall k | k in keys :: k in db.snapshotRows
  {
    InOrderIsValues(db.snapshotRows, generation);
    Ordered(InGeneration(db.snapshotRows, generation))
  }

  lemma InsertsPage(cfg: Config, db: Database, cleared: Tables, all: seq<Key>, n: nat, page: seq<Key>, tables: Tables)
    requires n + |page| <= |all| && page == all[n..n + |page|] && forall k | k in all :: k in db.snapshotRows
    requires ApplyRows(cfg, db.columns, cleared, AsInserts(Values(db.snapshotRows, all[..n]))) == Success(tables)
    ensures ApplyRows(cfg, db.columns, cleared, AsInserts(Values(db.snapshotRows, all[..n + |page|])))
         == ApplyRows(cfg, db.columns, tables, AsInserts(Values(db.snapshotRows, page)))
  {
    hide ApplyRows;
    var head, tail := AsInserts(Values(db.snapshotRows, all[..n])), AsInserts(Values(db.snapshotRows, page));
    assert AsInserts(Values(db.snapshotRows, all[..n + |page|])) == head + tail;
    ApplyRowsAppend(cfg, db.columns, cleared, head, tail);
  }

  lemma InsertsStop(cfg: Config, db: Database, cleared: Tables, all: seq<Key>, n: nat)
    requires n <= |all| && forall k | k in all :: k in db.snapshotRows
    requires ApplyRows(cfg, db.columns, cleared, AsInserts(Values(db.snapshotRows, all[..n]))).Failure?
    ensures ApplyRows(cfg, db.columns, cleared, AsInserts(Values(db.snapshotRows, all)))
         == ApplyRows(cfg, db.columns, cleared, AsInserts(Values(db.snapshotRows, all[..n])))
  {
    hide ApplyRows;
    var rows := AsInserts(Values(db.snapshotRows, all));
    assert rows[..n] == AsInserts(Values(db.snapshotRows, all[..n]));
    ApplyRowsStops(cfg, db.columns, cleared, rows, n);
  }

  /** Publishing a snapshot in keyset pages: every staged row of the generation is inserted exactly once, in
      (seq, ordinal) order, for any staged contents and any page size. */
  method PublishSnapshot(cfg: Config, pageSize: nat, db: Database, generation: string, cleared: Tables)
    returns (result: Result<Tables, StoreError>)
    requires pageSize >= 1
    ensures result == ApplyRows(cfg, db.columns, cleared, AsInserts(InOrder(db.snapshotRows, generation)))
  {
    hide ApplyRows, InOrder, Ordered;
    var tables, lastSeq: int, lastOrdinal: int := cleared, -1, -1;
    ghost var all, n := Staged(db, generation), 0;
    InOrderIsValues(db.snapshotRows, generation);
    NoInserts(cfg, db, cleared, all);
    while true
      invariant 0 <= n <= |all|
      invariant if n == 0 then lastSeq == -1 else lastSeq == all[n - 1].seqNo && lastOrdinal == all[n - 1].ordinal
      invariant ApplyRows(cfg, db.columns, cleared, AsInserts(Values(db.snapshotRows, all[..n]))) == Success(tables)
      decreases |all| - n
    {
      SnapshotPage(db, generation, n, lastSeq, lastOrdinal);
      var page := SelectPage(db.snapshotRows.Keys, generation, lastSeq, lastOrdinal, pageSize);
      assert page == all[n..n + |page|];
      InsertsPage(cfg, db, cleared, all, n, page, tables);
      var batch := AsInserts(Values(db.snapshotRows, page));
      var step := ApplyEach(cfg, db.columns, tables, batch);
      if step.Failure? {
        InsertsStop(cfg, db, cleared, all, n + |page|);
        return step;
      }
      tables, n := step.value, n + |page|;
      if |page| > 0 {
        lastSeq, lastOrdinal := page[|page| - 1].seqNo, page[|page| - 1].ordinal;
      }
      if |page| < pageSize {
        break;
      }
    }
    assert all[..n] == all;
    return Success(tables);
  }

  lemma NoInserts(cfg: Config, db: Database, cleared: Tables, all: seq<Key>)
    requires forall k | k in all :: k in db.snapshotRows
    ensures ApplyRows(cfg, db.columns, cleared, AsInserts(Values(db.snapshotRows, all[..0]))) == Success(cleared)
  {
  }

  // ---------------------------------------------------------------- schema activation

  /** Configured source tables map to distinct target tables. */
  predicate DistinctTargets(cfg: Config) {
    forall a, b | a in cfg.tables && b in cfg.tables && a.name == b.name :: a == b
  }

  function NamesUpTo(schema: TableSchema, n: nat): set<string>
    requires n <= |schema.columns|
  {
    set i | 0 <= i < n :: schema.columns[i].name
  }

  lemma NamesUpToAll(schema: TableSchema)
    ensures NamesUpTo(schema, |schema.columns|) == ColumnNames(schema)
  {
    var n := |schema.columns|;
    forall x | x in ColumnNames(schema) ensures x in NamesUpTo(schema, n) {
      var c :| c in schema.columns && c.name == x;
      var i :| 0 <= i < n && schema.columns[i] == c;
      assert schema.columns[i].name == x;
    }
  }

  /** Adds the missing columns of one table, or refuses the first that cannot be added safely. */
  method WidenTable(cfg: Config, known: set<string>, schema: TableSchema) returns (result: Option<set<string>>)
    ensures result.Some? <==> SchemaFits(cfg, map[schema.table.name := known], schema)
    ensures result.Some? ==> result.value == known + ColumnNames(schema)
  {
    var types := known;
    var j := 0;
    while j < |schema.columns|
      invariant 0 <= j <= |schema.columns|
      invariant types == known + NamesUpTo(schema, j)
      invariant forall k | 0 <= k < j :: FitsAt(cfg, known, schema, k)
    {
      var column := schema.columns[j];
      assert FitsAt(cfg, known, schema, j) <==>
               ColumnFits(cfg, known, schema, column) || column.name in NamesUpTo(schema, j);
      if column.name !in types {
        if !cfg.autoAddColumns || !column.nullable || column.primary || !cfg.addable(schema, column) {
          return None;
        }
        types := types + {column.name};
      }
      assert NamesUpTo(schema, j + 1) == NamesUpTo(schema, j) + {column.name};
      j := j + 1;
    }
    NamesUpToAll(schema);
    return Some(types);
  }

  /** The activation loop over the staged schemas, whatever order they are visited in. */
  method WidenEach(cfg: Config, db: Database, keys: set<SchemaKey>, version: string) returns (result: Option<Columns>)
    requires SchemaStageOk(cfg, db) && DistinctTargets(cfg)
    requires forall k | k in keys :: k in db.schemaStage && k.version == version
    ensures result.Some? <==> forall k | k in keys :: SchemaFits(cfg, db.columns, db.schemaStage[k])
    ensures result.Some? ==> result.value == WidenAll(db.columns, db.schemaStage, keys)
  {
    hide WidenAll, SchemaFits;
    var columns, todo := db.columns, keys;
    ghost var done: set<SchemaKey> := {};
    WidenNone(db);
    while todo != {}
      invariant todo !! done && todo + done == keys
      invariant columns == WidenAll(db.columns, db.schemaStage, done)
      invariant forall k | k in done :: SchemaFits(cfg, db.columns, db.schemaStage[k])
      decreases todo
    {
      var k :| k in todo;
      var schema := db.schemaStage[k];
      WidenUntouched(cfg, db, done, k);
      if schema.table.name !in columns {
        return None;
      }
      var types := WidenTable(cfg, columns[schema.table.name], schema);
      if types.None? {
        return None;
      }
      WidenOne(db, done, k);
      columns := columns[schema.table.name := types.value];
      todo, done := todo - {k}, done + {k};
    }
    assert done == keys;
    return Some(columns);
  }

  method ActivateStaged(cfg: Config, db: Database, generation: string, version: string)
    returns (result: Option<Columns>)
    requires SchemaStageOk(cfg, db) && DistinctTargets(cfg)
    ensures result.Some? <==> Activatable(cfg, db, generation, version)
    ensures result.Some? ==> result.value == WidenAll(db.columns, db.schemaStage, StagedFor(db, generation, version))
  {
    hide WidenAll, SchemaFits;
    var keys := StagedFor(db, generation, version);
    if |keys| != |cfg.tables| {
      return None;
    }
    result := WidenEach(cfg, db, keys, version);
  }

  lemma WidenNone(db: Database)
    ensures WidenAll(db.columns, db.schemaStage, {}) == db.columns
  {
    forall t | t in db.columns ensures WidenAll(db.columns, db.schemaStage, {})[t] == db.columns[t] {
    }
  }

  /** Staged tables have distinct target names, so the table of a schema not visited yet is still as it was. */
  lemma WidenUntouched(cfg: Config, db: Database, done: set<SchemaKey>, k: SchemaKey)
    requires SchemaStageOk(cfg, db) && DistinctTargets(cfg)
    requires k in db.schemaStage && k !in done && forall j | j in done :: j in db.schemaStage && j.version == k.version
    ensures var name, columns := db.schemaStage[k].table.name, WidenAll(db.columns, db.schemaStage, done);
            && (name in columns <==> name in db.columns)
            && (name in columns ==> columns[name] == db.columns[name])
            && (SchemaFits(cfg, db.columns, db.schemaStage[k]) <==>
                name in columns && SchemaFits(cfg, map[name := columns[name]], db.schemaStage[k]))
  {
    var name := db.schemaStage[k].table.name;
    forall j | j in done ensures db.schemaStage[j].table.name != name {
      assert j.table in cfg.tables && k.table in cfg.tables && j.generation == k.generation;
    }
  }

  lemma WidenOne(db: Database, done: set<SchemaKey>, k: SchemaKey)
    requires k in db.schemaStage && db.schemaStage[k].table.name in db.columns
    ensures var name, before := db.schemaStage[k].table.name, WidenAll(db.columns, db.schemaStage, done);
            WidenAll(db.columns, db.schemaStage, done + {k})
            == before[name := before[name] + ColumnNames(db.schemaStage[k])]
  {
    hide ColumnFits, NamesUpTo, SchemaFits, ColumnNames, Activatable, StagedFor;
    var name, before := db.schemaStage[k].table.name, WidenAll(db.columns, db.schemaStage, done);
    var after := WidenAll(db.columns, db.schemaStage, done + {k});
    forall t | t in db.columns ensures after[t] == before[name := before[name] + ColumnNames(db.schemaStage[k])][t] {
    }
  }

  // ---------------------------------------------------------------- the store

  /** Commits the outcome of `Store`, or rolls back with its error. */
  ghost predicate Performed(cfg: Config, before: Database, m: Message, error: Option<StoreError>, after: Database) {
    match Store(cfg, before, m)
    case Success(next) => error == None && after == next
    case Failure(e) => error == Some(e) && after == before
  }

  lemma Unfold(cfg: Config, db: Database)
    requires Inv(cfg, db)
    ensures InboxOk(db) && SchemaStageOk(cfg, db)
  {
  }

  class TargetDatabase {
    const cfg: Config
    const pageSize: nat
    var db: Database

    ghost predicate Valid()
      reads this
    {
      Inv(cfg, db) && DistinctTargets(cfg) && pageSize >= 1
    }

    constructor (cfg: Config, pageSize: nat, db: Database)
      requires Fresh(db) && DistinctTargets(cfg) && pageSize >= 1
      ensures Valid() && this.db == db && this.cfg == cfg && this.pageSize == pageSize
    {
      this.cfg, this.pageSize, this.db := cfg, pageSize, db;
      new;
      FreshInv(cfg, db);
    }

    method ApplySnapshotEnd(tx: Database, m: Message) returns (result: Result<Database, StoreError>)
      requires Inv(cfg, tx) && DistinctTargets(cfg) && pageSize >= 1
      requires m.kind.SnapshotEnd? && PhaseAllows(cfg, tx.phase, m)
      ensures result == Change(cfg, tx, m)
    {
      hide ApplyRows, InOrder, RowsOf, StageRows, WidenAll, SchemaFits, Cleared, Inv, Activatable, StagedFor, AsInserts,
           SchemaStageOk, StageableSchema, PutFile, AllowsFile, Complete;
      assert SchemaStageOk(cfg, tx) by { Unfold(cfg, tx); }
      var widened := tx;
      if m.schemaVersion != "" {
        var columns := ActivateStaged(cfg, tx, m.generation, m.schemaVersion);
        if columns.None? {
          return Failure(BadSchema);
        }
        widened := tx.(columns := columns.value,
                       schemaStage := tx.schemaStage - StagedFor(tx, m.generation, m.schemaVersion));
      }
      var tables := PublishSnapshot(cfg, pageSize, tx, m.generation, Cleared(tx.tables, tx.scope));
      if tables.Failure? {
        return Failure(tables.error);
      }
      return Success(widened.(tables := tables.value, snapshotRows := map[], scope := [], phase := Stream));
    }

    method ApplyTransactionEnd(tx: Database, m: Message) returns (result: Result<Database, StoreError>)
      requires Inv(cfg, tx) && pageSize >= 1 && m.kind.TransactionEnd? && PhaseAllows(cfg, tx.phase, m)
      ensures result == Change(cfg, tx, m)
    {
      hide ApplyRows, InOrder, RowsOf, Inv;
      assert InboxOk(tx) by { Unfold(cfg, tx); }
      var tables, inbox := PublishTransaction(cfg, pageSize, tx, m.generation, m.transaction);
      if tables.Failure? {
        return Failure(tables.error);
      }
      return Success(tx.(tables := tables.value, inbox := inbox));
    }

    method ApplySchemaEnd(tx: Database, m: Message) returns (result: Result<Database, StoreError>)
      requires Inv(cfg, tx) && DistinctTargets(cfg) && m.kind.SchemaEnd? && PhaseAllows(cfg, tx.phase, m)
      ensures result == Change(cfg, tx, m)
    {
      hide WidenAll, SchemaFits, Inv;
      assert SchemaStageOk(cfg, tx) by { Unfold(cfg, tx); }
      var columns := ActivateStaged(cfg, tx, m.generation, m.schemaVersion);
      if columns.None? {
        return Failure(BadSchema);
      }
      return Success(tx.(columns := columns.value,
                         schemaStage := tx.schemaStage - StagedFor(tx, m.generation, m.schemaVersion)));
    }

    /** The effect of an admitted message on a transaction-local copy. */
    method ApplyMessage(tx: Database, m: Message) returns (result: Result<Database, StoreError>)
      requires Inv(cfg, tx) && m.generation == tx.generation && DistinctTargets(cfg) && pageSize >= 1
      ensures result == Change(cfg, tx, m)
    {
      if !PhaseAllows(cfg, tx.phase, m) {
        return Failure(Refused);
      }
      hide Change, Inv, PhaseAllows;
      match m.kind {
        case SnapshotEnd => result := ApplySnapshotEnd(tx, m);
        case TransactionEnd => result := ApplyTransactionEnd(tx, m);
        case SchemaEnd => result := ApplySchemaEnd(tx, m);
        case _ => result := ApplySimple(tx, m);
      }
    }

    /** The closing messages of the file protocol. */
    method ApplyFile(tx: Database, m: Message) returns (result: Result<Database, StoreError>)
      requires Inv(cfg, tx) && m.generation == tx.generation && PhaseAllows(cfg, tx.phase, m)
      requires m.kind.FileEnd? || m.kind.FileDelete?
      ensures result == Change(cfg, tx, m)
    {
      hide ApplyRows, Ordered, RowsOf, WidenAll, SchemaFits, Cleared, Activatable, StageRows;
      if m.kind.FileEnd? {
        var batch := ReadBatch(tx.inbox, m.generation);
        var content := Reassemble(cfg.codec, cfg.fileStorage.value.maxFileBytes, batch, m);
        if content.None? {
          return Failure(Inapplicable);
        }
        return Success(tx.(files := PutFile(cfg, tx.files, content.value, m.file.value),
                           inbox := map k | k in tx.inbox && k.generation != m.generation :: tx.inbox[k]));
      }
      if m.file.Some? && AllowsFile(cfg, FileRemove) {
        return Success(tx.(files := tx.files - {m.file.value.path}));
      }
      return Success(tx);
    }

    /** The kinds without a loop over staged rows. */
    method ApplySimple(tx: Database, m: Message) returns (result: Result<Database, StoreError>)
      requires Inv(cfg, tx) && m.generation == tx.generation && PhaseAllows(cfg, tx.phase, m)
      requires !m.kind.SnapshotEnd? && !m.kind.TransactionEnd? && !m.kind.SchemaEnd?
      ensures result == Change(cfg, tx, m)
    {
      hide ApplyRows, Ordered, RowsOf, WidenAll, SchemaFits, Cleared;
      match m.kind {
        case SnapshotBegin =>
          if !DistinctTables(m.tables) || exists t | t in m.tables :: t !in cfg.tables {
            return Failure(BadSchema);
          }
          return Success(tx.(phase := Snapshot, snapshotRows := map[], scope := m.tables));
        case SchemaTable =>
          if m.schemaVersion == "" {
            return Success(tx);
          }
          if !StageableSchema(cfg, tx, m) {
            return Failure(BadSchema);
          }
          return Success(tx.(schemaStage :=
            tx.schemaStage[SchemaKey(m.generation, m.schemaVersion, m.schema.value.table) := m.schema.value]));
        case SnapshotRows =>
          return Success(tx.(snapshotRows := StageRows(tx.snapshotRows, m.generation, m.seqNo, m.rows)));
        case TransactionRows | FileBegin | FileChunk =>
          return Success(tx.(inbox := tx.inbox[Key(m.generation, m.seqNo, 0) := m]));
        case FileEnd | FileDelete =>
          result := ApplyFile(tx, m);
        case _ =>
          return Failure(Refused);
      }
    }

    /** SELECT payload ... ORDER BY seq. */
    method ReadBatch(inbox: map<Key, Message>, generation: string) returns (batch: seq<Message>)
      requires forall k | k in inbox :: k.ordinal == 0
      ensures batch == InOrder(inbox, generation)
    {
      InOrderIsValues(inbox, generation);
      var rows := Remaining(inbox.Keys, generation, -1, 0);
      assert rows == InGeneration(inbox, generation);
      var keys := SelectPage(inbox.Keys, generation, -1, 0, |rows|);
      OrderedSorts(rows);
      batch := Values(inbox, keys);
    }

    /** One message in one database transaction. */
    method Store(m: Message) returns (error: Option<StoreError>)
      requires Valid()
      modifies this
      ensures Valid() && Performed(cfg, old(db), m, error, db)
    {
      hide Change, Inv;
      if m.seqNo > MaxBigint {
        return Some(Refused);
      }
      var current := db;
      if m.generation != current.generation {
        if m.seqNo != 1 || m.kind != SnapshotBegin {
          return Some(Refused);
        }
        current := current.(inbox := map[], snapshotRows := map[], scope := [], hashes := map[], schemaStage := map[]);
        current := current.(generation := m.generation, received := 0, applied := 0, schemaVersion := m.schemaVersion);
        current := current.(phase := Unset, openTransaction := "", pendingSchema := "");
        RestartInv(cfg, db, m);
      }
      if m.seqNo <= current.received {
        var key := Key(m.generation, m.seqNo, 0);
        if key in current.hashes && current.hashes[key] != cfg.payloadHash(m) {
          return Some(Refused);
        }
        return None;
      }
      if m.seqNo != current.received + 1 {
        return Some(Refused);
      }
      if IsFile(m.kind) && !ValidFileMessage(cfg, m) {
        return Some(Refused);
      }
      var pending := VersionGate(current, m);
      if pending.Failure? {
        return Some(pending.error);
      }
      var open := TransactionGate(current, m);
      if open.Failure? {
        return Some(open.error);
      }
      var changed := ApplyMessage(current, m);
      if changed.Failure? {
        return Some(changed.error);
      }
      var tx := changed.value.(
        received := m.seqNo,
        applied := if Closing(m.kind) then m.seqNo else current.applied,
        openTransaction := if ClosesBatch(m.kind) then "" else open.value,
        schemaVersion := if m.kind.SchemaEnd? then pending.value else current.schemaVersion,
        pendingSchema := if m.kind.SchemaEnd? then "" else pending.value,
        hashes := current.hashes[Key(m.generation, m.seqNo, 0) := cfg.payloadHash(m)]);
      AcceptInv(cfg, current, m);
      db := tx;
      return None;
    }
  }
}
