/** Bucketed digests of a table: what the collector and the server compare. They depend only on the multiset of
    rows and, within a row, not on the order of its columns. */
module Reconcile {
  import opened Event
  import opened Files
  import opened Encoding
  import opened Digest
  import opened Collections

  /** The functions the digest is built from: SHA-256, the bytes of a string, value normalization, and the
      library sort by column name. */
  datatype Hashing = Hashing(
    sha: Bytes -> Bytes,
    utf8: string -> Bytes,
    normalize: (string, string) -> string,
    sorted: seq<Column> -> seq<Column>
  )

  predicate Less(a: string, b: string) {
    b != [] && (a == [] || a[0] < b[0] || (a[0] == b[0] && Less(a[1..], b[1..])))
  }

  predicate ByName(columns: seq<Column>) {
    forall i, j | 0 <= i < j < |columns| :: !Less(columns[j].name, columns[i].name)
  }

  ghost predicate Sorts(h: Hashing, columns: seq<Column>) {
    multiset(h.sorted(columns)) == multiset(columns) && ByName(h.sorted(columns))
  }

  ghost predicate Proper(h: Hashing) {
    (forall bytes :: |h.sha(bytes)| == HashSize) && (forall columns :: Sorts(h, columns))
  }

  // ---------------------------------------------------------------- row hashes

  function Cells(h: Hashing, columns: seq<Column>): seq<Cell> {
    seq(|columns|, i requires 0 <= i < |columns| =>
          Cell(h.utf8(columns[i].name),
               if columns[i].value.None? then None
                 else Some(h.utf8(h.normalize(columns[i].typeName, columns[i].value.value)))))
  }

  function RowHash(h: Hashing, row: Row): Bytes {
    h.sha(RowBytes(h.utf8(row.table.schema), h.utf8(row.table.name), Cells(h, h.sorted(row.columns))))
  }

  lemma RowHashSize(h: Hashing, row: Row)
    requires Proper(h)
    ensures |RowHash(h, row)| == HashSize
  {
  }

  function ColumnsHash(h: Hashing, columns: seq<Column>): Bytes {
    h.sha(WriteParts(CellParts(Cells(h, h.sorted(columns)))))
  }

  function IdentityColumns(row: Row): seq<Column> {
    if row.fullRow then row.columns else row.key
  }

  /** The bucket of a row; None without buckets or identity columns. */
  function Bucket(h: Hashing, row: Row, buckets: nat): (r: Option<nat>)
    ensures r.Some? ==> r.value < buckets
  {
    if buckets == 0 || IdentityColumns(row) == [] then None
    else
      var hash := ColumnsHash(h, IdentityColumns(row));
      Some(ReadBigEndian(if |hash| < 8 then hash else hash[..8]) % buckets)
  }

  // ---------------------------------------------------------------- column order

  predicate DistinctNames(columns: seq<Column>) {
    forall i, j | 0 <= i < j < |columns| :: columns[i].name != columns[j].name
  }

  lemma {:induction false} LessIsTotal(a: string, b: string)
    ensures a != b ==> Less(a, b) || Less(b, a)
    ensures !(Less(a, b) && Less(b, a))
    decreases |a|
  {
    if a != [] && b != [] {
      LessIsTotal(a[1..], b[1..]);
      assert a == [a[0]] + a[1..] && b == [b[0]] + b[1..];
    }
  }

  lemma LastIsLast(a: seq<Column>, b: seq<Column>)
    requires a != [] && multiset(a) == multiset(b) && ByName(a) && ByName(b) && DistinctNames(a) && DistinctNames(b)
    ensures |a| == |b| && a[|a| - 1] == b[|b| - 1]
  {
    assert |multiset(a)| == |a| && |multiset(b)| == |b|;
    var x, y := a[|a| - 1], b[|b| - 1];
    assert x in multiset(b) && y in multiset(a);
    var i :| 0 <= i < |b| && b[i] == x;
    var j :| 0 <= j < |a| && a[j] == y;
    LessIsTotal(x.name, y.name);
  }

  /** There is one arrangement by name of distinctly named columns. */
  lemma {:induction false} ByNameUnique(a: seq<Column>, b: seq<Column>)
    requires multiset(a) == multiset(b) && ByName(a) && ByName(b) && DistinctNames(a) && DistinctNames(b)
    ensures a == b
    decreases |a|
  {
    hide Less;
    if a == [] {
      assert |multiset(b)| == 0;
    } else {
      LastIsLast(a, b);
      DropLast(a);
      DropLast(b);
      ByNameUnique(a[..|a| - 1], b[..|b| - 1]);
    }
  }

  lemma PermutedDistinct(a: seq<Column>, b: seq<Column>)
    requires multiset(a) == multiset(b) && DistinctNames(a)
    ensures DistinctNames(b)
  {
    if !DistinctNames(b) {
      var i, j :| 0 <= i < j < |b| && b[i].name == b[j].name;
      SameNameTwice(a, b, i, j);
    }
  }

  lemma SameNameTwice(a: seq<Column>, b: seq<Column>, i: nat, j: nat)
    requires multiset(a) == multiset(b) && i < j < |b| && b[i].name == b[j].name
    ensures !DistinctNames(a)
  {
    assert b[i] in multiset(a) && b[j] in multiset(a);
    var x :| 0 <= x < |a| && a[x] == b[i];
    if b[i] == b[j] {
      TwiceInA(a, b, i, j, x);
    } else {
      var y :| 0 <= y < |a| && a[y] == b[j];
    }
  }

  lemma TwiceInA(a: seq<Column>, b: seq<Column>, i: nat, j: nat, x: nat)
    requires multiset(a) == multiset(b) && i < j < |b| && b[i] == b[j] && x < |a| && a[x] == b[i]
    ensures !DistinctNames(a)
  {
    assert b == b[..i] + [b[i]] + b[i + 1..j] + [b[j]] + b[j + 1..];
    assert multiset(b)[b[i]] >= 2;
    assert a == a[..x] + [a[x]] + a[x + 1..];
    assert b[i] in multiset(a[..x]) + multiset(a[x + 1..]);
    assert b[i] in a[..x] || b[i] in a[x + 1..];
  }

  /** Permuting distinctly named columns changes no hash. */
  lemma ColumnOrderFree(h: Hashing, a: seq<Column>, b: seq<Column>)
    requires Proper(h) && multiset(a) == multiset(b) && DistinctNames(a)
    ensures h.sorted(a) == h.sorted(b)
    ensures ColumnsHash(h, a) == ColumnsHash(h, b)
  {
    assert Sorts(h, a) && Sorts(h, b);
    PermutedDistinct(a, h.sorted(a));
    PermutedDistinct(a, h.sorted(b));
    ByNameUnique(h.sorted(a), h.sorted(b));
  }

  /** Rows that differ only in the order of their columns. */
  predicate SameRow(a: Row, b: Row) {
    && a.table == b.table && a.fullRow == b.fullRow
    && multiset(a.columns) == multiset(b.columns) && multiset(a.key) == multiset(b.key)
    && DistinctNames(a.columns) && DistinctNames(a.key)
  }

  lemma RowOrderFree(h: Hashing, a: Row, b: Row, buckets: nat)
    requires Proper(h) && SameRow(a, b)
    ensures RowHash(h, a) == RowHash(h, b) && Bucket(h, a, buckets) == Bucket(h, b, buckets)
  {
    ColumnOrderFree(h, a.columns, b.columns);
    ColumnOrderFree(h, a.key, b.key);
    assert |multiset(a.columns)| == |a.columns| && |multiset(b.columns)| == |b.columns|;
    assert |multiset(a.key)| == |a.key| && |multiset(b.key)| == |b.key|;
    hide Proper, DistinctNames;
  }

  // ---------------------------------------------------------------- buckets

  predicate Wide(states: seq<Acc>) {
    forall i | 0 <= i < |states| :: |states[i].xor| == HashSize
  }

  /** Adding a row changes the state of its bucket. */
  ghost function AddRow(h: Hashing, states: seq<Acc>, row: Row): (r: Option<seq<Acc>>)
    requires Proper(h) && Wide(states)
    ensures r.Some? ==> Wide(r.value) && |r.value| == |states|
  {
    var bucket := Bucket(h, row, |states|);
    if bucket.None? then None
    else Some(states[bucket.value := Accumulate(states[bucket.value], RowHash(h, row))])
  }

  function Empty(buckets: nat): (r: seq<Acc>)
    ensures Wide(r)
  {
    seq(buckets, _ => Zero)
  }

  /** None as soon as one row has no identity. */
  ghost function AddRows(h: Hashing, buckets: nat, rows: seq<Row>): (r: Option<seq<Acc>>)
    requires Proper(h)
    ensures r.Some? ==> Wide(r.value) && |r.value| == buckets
  {
    if rows == [] then Some(Empty(buckets))
    else
      var before := AddRows(h, buckets, rows[..|rows| - 1]);
      if before.None? then None else AddRow(h, before.value, rows[|rows| - 1])
  }

  ghost function AddAfter(h: Hashing, states: Option<seq<Acc>>, row: Row): (r: Option<seq<Acc>>)
    requires Proper(h) && (states.Some? ==> Wide(states.value))
    ensures r.Some? ==> states.Some? && Wide(r.value) && |r.value| == |states.value|
  {
    if states.None? then None else AddRow(h, states.value, row)
  }

  lemma RowsCommute(h: Hashing, states: seq<Acc>, x: Row, y: Row)
    requires Proper(h) && Wide(states)
    ensures AddAfter(h, AddRow(h, states, x), y) == AddAfter(h, AddRow(h, states, y), x)
  {
    hide Accumulate, Bucket;
    var i, j := Bucket(h, x, |states|), Bucket(h, y, |states|);
    if i.Some? && i == j {
      var k, hx, hy := i.value, RowHash(h, x), RowHash(h, y);
      var a, b := Accumulate(states[k], hx), Accumulate(states[k], hy);
      AccumulateCommutes(states[k], hx, hy);
      assert states[k := a][k := Accumulate(a, hy)] == states[k := b][k := Accumulate(b, hx)];
    } else if i.Some? && j.Some? {
      var a, b := Accumulate(states[i.value], RowHash(h, x)), Accumulate(states[j.value], RowHash(h, y));
      assert states[i.value := a][j.value := b] == states[j.value := b][i.value := a];
    }
  }

  /** Any row could have been added last. */
  lemma {:induction false} RowLast(h: Hashing, buckets: nat, rows: seq<Row>, i: nat)
    requires Proper(h) && i < |rows|
    ensures AddRows(h, buckets, rows) == AddAfter(h, AddRows(h, buckets, rows[..i] + rows[i + 1..]), rows[i])
    decreases |rows|
  {
    hide Proper, AddRow;
    var n := |rows| - 1;
    if i == n {
      assert rows[..i] + rows[i + 1..] == rows[..n];
    } else {
      var front, rest := rows[..n], rows[..i] + rows[i + 1..];
      RowLast(h, buckets, front, i);
      var both := front[..i] + front[i + 1..];
      assert rest[..|rest| - 1] == both && rest[|rest| - 1] == rows[n];
      if AddRows(h, buckets, both).Some? {
        RowsCommute(h, AddRows(h, buckets, both).value, rows[i], rows[n]);
      }
    }
  }

  /** The digests of a table depend only on the multiset of its rows. */
  lemma {:induction false} RowOrderIndependent(h: Hashing, buckets: nat, a: seq<Row>, b: seq<Row>)
    requires Proper(h) && multiset(a) == multiset(b)
    ensures AddRows(h, buckets, a) == AddRows(h, buckets, b)
    decreases |a|
  {
    hide Proper, AddRow;
    if a == [] {
      assert |multiset(b)| == 0;
    } else {
      var n := |a| - 1;
      DropLast(a);
      assert a[n] in multiset(b);
      var i :| 0 <= i < |b| && b[i] == a[n];
      RemoveOne(b, i);
      RowOrderIndependent(h, buckets, a[..n], b[..i] + b[i + 1..]);
      RowLast(h, buckets, b, i);
    }
  }

  function TotalRows(states: seq<Acc>): nat {
    if states == [] then 0 else TotalRows(states[..|states| - 1]) + states[|states| - 1].rows
  }

  lemma {:induction false} TotalUpdated(states: seq<Acc>, i: nat, a: Acc)
    requires i < |states|
    ensures TotalRows(states[i := a]) == TotalRows(states) - states[i].rows + a.rows
    ensures states[i].rows <= TotalRows(states)
    decreases |states|
  {
    var n, next := |states| - 1, states[i := a];
    if i == n {
      assert next[..n] == states[..n];
    } else {
      assert next[..n] == states[..n][i := a];
      TotalUpdated(states[..n], i, a);
    }
  }

  lemma {:induction false} TotalEmpty(buckets: nat)
    ensures TotalRows(Empty(buckets)) == 0
    decreases buckets
  {
    if buckets > 0 {
      assert Empty(buckets)[..buckets - 1] == Empty(buckets - 1);
      TotalEmpty(buckets - 1);
    }
  }

  lemma AccumulateCounts(a: Acc, hash: Bytes)
    requires |a.xor| == |hash|
    ensures a.rows + 1 < CountLimit ==> Accumulate(a, hash).rows == a.rows + 1
  {
    hide ReadBigEndian, Power256, XorByte;
  }

  /** The bucket counts sum to the number of rows, as long as that fits the 64-bit counters. */
  lemma {:induction false} CountsSum(h: Hashing, buckets: nat, rows: seq<Row>)
    requires Proper(h) && AddRows(h, buckets, rows).Some? && |rows| < CountLimit
    ensures TotalRows(AddRows(h, buckets, rows).value) == |rows|
    decreases |rows|
  {
    hide Sorts, Bucket, TotalRows, Accumulate, Empty;
    TotalEmpty(buckets);
    if rows != [] {
      var front, last := rows[..|rows| - 1], rows[|rows| - 1];
      CountsSum(h, buckets, front);
      var before, bucket := AddRows(h, buckets, front).value, Bucket(h, last, buckets).value;
      AccumulateCounts(before[bucket], RowHash(h, last));
      TotalUpdated(before, bucket, Accumulate(before[bucket], RowHash(h, last)));
    }
  }

  // ---------------------------------------------------------------- the builder

  /** Computes all bucket digests of a table with fixed memory. */
  class Builder {
    const h: Hashing
    const states: seq<Accumulator>

    ghost function Repr(): set<object> {
      (set a | a in states :: a as object) + (set a | a in states :: a.xor as object)
        + (set a | a in states :: a.sum as object)
    }

    lemma AllInRepr()
      ensures forall i | 0 <= i < |states| :: {states[i], states[i].xor, states[i].sum} <= Repr()
    {
      forall i | 0 <= i < |states| ensures {states[i], states[i].xor, states[i].sum} <= Repr() {
        assert states[i] in states;
      }
    }

    ghost predicate Apart() {
      && (forall i, j | 0 <= i < j < |states| ::
            states[i] != states[j] && states[i].xor != states[j].xor && states[i].sum != states[j].sum)
      && (forall i, j | 0 <= i < |states| && 0 <= j < |states| :: states[i].xor as object != states[j].sum as object)
    }

    ghost predicate Valid()
      reads Repr()
    {
      AllInRepr();
      Proper(h) && Apart() && forall i | 0 <= i < |states| :: states[i].Valid()
    }

    ghost function Values(): (r: seq<Acc>)
      reads Repr()
      requires Valid()
      ensures Wide(r) && |r| == |states|
    {
      AllInRepr();
      seq(|states|, i requires 0 <= i < |states| reads Repr() => states[i].State())
    }

    constructor (h: Hashing, buckets: nat)
      requires Proper(h)
      ensures Valid() && fresh(Repr()) && this.h == h && Values() == Empty(buckets)
    {
      this.h := h;
      var all: seq<Accumulator> := [];
      for i := 0 to buckets
        invariant |all| == i
        invariant forall j | 0 <= j < i :: fresh(all[j]) && fresh(all[j].xor) && fresh(all[j].sum)
        invariant forall j | 0 <= j < i :: all[j].Valid() && all[j].State() == Zero
        invariant forall j, k | 0 <= j < k < i ::
                    all[j] != all[k] && all[j].xor != all[k].xor && all[j].sum != all[k].sum
        invariant forall j, k | 0 <= j < i && 0 <= k < i :: all[j].xor as object != all[k].sum as object
      {
        var a := new Accumulator();
        all := all + [a];
      }
      this.states := all;
    }

    /** Adds a row to its bucket; a row without identity is refused and changes nothing. */
    method Add(row: Row) returns (ok: bool)
      requires Valid()
      modifies Repr()
      ensures Valid()
      ensures var next := AddRow(h, old(Values()), row);
              ok == next.Some? && Values() == if ok then next.value else old(Values())
    {
      hide Accumulate, Bucket, RowHash, Sorts;
      var bucket := Bucket(h, row, |states|);
      if bucket.None? {
        return false;
      }
      RowHashSize(h, row);
      AllInRepr();
      ghost var before := Values();
      states[bucket.value].Add(RowHash(h, row));
      assert Values() == before[bucket.value := Accumulate(before[bucket.value], RowHash(h, row))];
      return true;
    }
  }

  /** A builder has at least one bucket. */
  method NewBuilder(h: Hashing, buckets: nat) returns (result: Option<Builder>)
    requires Proper(h)
    ensures result.Some? <==> buckets > 0
    ensures result.Some? ==> && result.value.Valid() && fresh(result.value.Repr())
                             && result.value.h == h && result.value.Values() == Empty(buckets)
  {
    if buckets == 0 {
      return None;
    }
    var builder := new Builder(h, buckets);
    return Some(builder);
  }
}
