/** The assembly of one SQL Server transaction from its change-table rows: before and after images of updates
    are paired, anything orphaned, mismatched or ambiguous is refused. */
module CdcStream {
  import opened Event
  import opened CdcRows

  /** A change as it is emitted: its row, and its before image for an update. */
  datatype Emitted = Emitted(current: Cdc, before: Option<Cdc>)

  predicate SamePosition(a: Cdc, b: Cdc) {
    a.table == b.table && a.sequence == b.sequence && a.command == b.command
  }

  // ---------------------------------------------------------------- what a valid transaction is

  function Images(e: Emitted): seq<Cdc> {
    if e.before.Some? then [e.before.value, e.current] else [e.current]
  }

  /** The change-table rows the emitted changes stand for. */
  function Expand(es: seq<Emitted>): seq<Cdc> {
    if es == [] then [] else Expand(es[..|es| - 1]) + Images(es[|es| - 1])
  }

  predicate KnownTable(tables: seq<MsTable>, c: Cdc) {
    0 <= c.table < |tables|
  }

  /** An update pairs images 3 and 4 of one position; every other change stands alone. */
  predicate WellPaired(norm: Normalize, tables: seq<MsTable>, e: Emitted) {
    && KnownTable(tables, e.current)
    && (if e.before.Some? then
          e.before.value.operation == BeforeImage && e.current.operation == AfterImage
            && SamePosition(e.before.value, e.current)
        else e.current.operation != BeforeImage)
    && Converted(norm, tables[e.current.table], e.current, e.before).Some?
  }

  predicate AllPaired(norm: Normalize, tables: seq<MsTable>, es: seq<Emitted>) {
    forall i | 0 <= i < |es| :: WellPaired(norm, tables, es[i])
  }

  predicate Ambiguous(a: Cdc, b: Cdc) {
    SamePosition(a, b) && a.operation == b.operation
  }

  predicate Unambiguous(changes: seq<Cdc>) {
    forall i | 0 < i < |changes| :: !Ambiguous(changes[i - 1], changes[i])
  }

  predicate Assembles(norm: Normalize, tables: seq<MsTable>, changes: seq<Cdc>, es: seq<Emitted>) {
    Expand(es) == changes && AllPaired(norm, tables, es) && Unambiguous(changes)
  }

  /** The rows the changes are converted to, numbered from 1. */
  function Rows(norm: Normalize, tables: seq<MsTable>, es: seq<Emitted>): seq<Row>
    requires AllPaired(norm, tables, es)
  {
    seq(|es|, i requires 0 <= i < |es| =>
          assert WellPaired(norm, tables, es[i]);
          Converted(norm, tables[es[i].current.table], es[i].current, es[i].before).value.(ordinal := i + 1))
  }

  lemma NothingPaired(norm: Normalize, tables: seq<MsTable>)
    ensures AllPaired(norm, tables, []) && Rows(norm, tables, []) == []
  {
  }

  lemma RowsExtend(norm: Normalize, tables: seq<MsTable>, es: seq<Emitted>, e: Emitted)
    requires AllPaired(norm, tables, es) && WellPaired(norm, tables, e)
    ensures AllPaired(norm, tables, es + [e])
    ensures Rows(norm, tables, es + [e]) ==
            Rows(norm, tables, es)
              + [Converted(norm, tables[e.current.table], e.current, e.before).value.(ordinal := |es| + 1)]
  {
    hide Converted, SamePosition;
  }

  // ---------------------------------------------------------------- reading them one by one

  datatype Pairing = Pairing(done: seq<Emitted>, pending: Option<Cdc>)

  function PairNext(norm: Normalize, tables: seq<MsTable>, p: Pairing, r: Cdc): Option<Pairing> {
    if r.operation == BeforeImage then
      if p.pending.Some? then None else Some(p.(pending := Some(r)))
    else if p.pending.Some? && (r.operation != AfterImage || !SamePosition(p.pending.value, r)) then None
    else if !KnownTable(tables, r) || Converted(norm, tables[r.table], r, p.pending).None? then None
    else Some(Pairing(p.done + [Emitted(r, p.pending)], None))
  }

  function Pair(norm: Normalize, tables: seq<MsTable>, changes: seq<Cdc>): Option<Pairing> {
    if changes == [] then Some(Pairing([], None))
    else
      var front, r := changes[..|changes| - 1], changes[|changes| - 1];
      var p := Pair(norm, tables, front);
      if p.None? || !KnownTable(tables, r) || (front != [] && Ambiguous(front[|front| - 1], r)) then None
      else PairNext(norm, tables, p.value, r)
  }

  /** Reading stops after `read` rows: at the first that cannot be paired or converted, or at the end. */
  predicate StopsAt(norm: Normalize, tables: seq<MsTable>, changes: seq<Cdc>, read: nat, es: seq<Emitted>) {
    && read <= |changes| && Pair(norm, tables, changes[..read]).Some?
       && Pair(norm, tables, changes[..read]).value.done == es
    && (read < |changes| ==> Pair(norm, tables, changes[..read + 1]).None?)
  }

  /** The loop over the change-table rows of a transaction: the rows read before it stops, which are all of them
      exactly for a valid transaction. */
  method ReadChanges(norm: Normalize, tables: seq<MsTable>, changes: seq<Cdc>)
    returns (rows: seq<Row>, whole: bool, ghost es: seq<Emitted>, ghost read: nat)
    ensures AllPaired(norm, tables, es) && rows == Rows(norm, tables, es) && StopsAt(norm, tables, changes, read, es)
    ensures whole ==> Assembles(norm, tables, changes, es)
    ensures !whole ==> forall other :: !Assembles(norm, tables, changes, other)
  {
    hide Converted, SamePosition, Expand, Rows, AllPaired;
    var before, previous, count := None, None, 0;
    rows, es, read := [], [], 0;
    NothingPaired(norm, tables);
    for i := 0 to |changes|
      invariant read == i && Pair(norm, tables, changes[..i]) == Some(Pairing(es, before))
      invariant previous == if i == 0 then None else Some(changes[i - 1])
      invariant AllPaired(norm, tables, es)
      invariant before.Some? ==> before.value.operation == BeforeImage
      invariant rows == Rows(norm, tables, es) && count == |es|
    {
      var r := changes[i];
      assert changes[..i + 1][..i] == changes[..i];
      if r.table < 0 || r.table >= |tables| || (previous.Some? && SamePosition(previous.value, r)
        && previous.value.operation == r.operation) {
        PairFails(norm, tables, changes, i + 1);
        return rows, false, es, read;
      }
      previous := Some(r);
      if r.operation == BeforeImage {
        if before.Some? {
          PairFails(norm, tables, changes, i + 1);
          return rows, false, es, read;
        }
        before, read := Some(r), i + 1;
        continue;
      }
      if before.Some? && (r.operation != AfterImage || !SamePosition(before.value, r)) {
        PairFails(norm, tables, changes, i + 1);
        return rows, false, es, read;
      }
      var row := ConvertChange(norm, tables[r.table], r, before);
      if row.None? {
        PairFails(norm, tables, changes, i + 1);
        return rows, false, es, read;
      }
      RowsExtend(norm, tables, es, Emitted(r, before));
      es := es + [Emitted(r, before)];
      before, read := None, i + 1;
      count := count + 1;
      rows := rows + [row.value.(ordinal := count)];
    }
    assert changes[..|changes|] == changes;
    if before.Some? {
      PairDecides(norm, tables, changes);
      return rows, false, es, read;
    }
    PairSound(norm, tables, changes);
    return rows, true, es, read;
  }

  // ---------------------------------------------------------------- reading decides validity

  lemma {:induction false} PairSound(norm: Normalize, tables: seq<MsTable>, changes: seq<Cdc>)
    requires Pair(norm, tables, changes).Some?
    ensures var p := Pair(norm, tables, changes).value;
            && changes == Covered(p)
            && AllPaired(norm, tables, p.done)
            && (p.pending.Some? ==> p.pending.value.operation == BeforeImage)
            && Unambiguous(changes)
    decreases |changes|
  {
    hide Converted, SamePosition, Rows, PairNext;
    if changes != [] {
      var front, r := changes[..|changes| - 1], changes[|changes| - 1];
      PairSound(norm, tables, front);
      PairNextSound(norm, tables, Pair(norm, tables, front).value, r);
      hide PairNext, WellPaired, Expand;
      assert changes == front + [r];
    }
  }

  function Covered(p: Pairing): seq<Cdc> {
    Expand(p.done) + if p.pending.Some? then [p.pending.value] else []
  }

  lemma PairNextSound(norm: Normalize, tables: seq<MsTable>, p: Pairing, r: Cdc)
    requires AllPaired(norm, tables, p.done) && (p.pending.Some? ==> p.pending.value.operation == BeforeImage)
    requires KnownTable(tables, r) && PairNext(norm, tables, p, r).Some?
    ensures var next := PairNext(norm, tables, p, r).value;
            && Covered(next) == Covered(p) + [r] && AllPaired(norm, tables, next.done)
            && (next.pending.Some? ==> next.pending.value.operation == BeforeImage)
  {
    hide Converted;
    var next := PairNext(norm, tables, p, r).value;
    if r.operation != BeforeImage {
      assert next.done[..|next.done| - 1] == p.done;
    }
  }

  /** A valid transaction is read back exactly. */
  lemma {:induction false} PairComplete(norm: Normalize, tables: seq<MsTable>, es: seq<Emitted>)
    requires AllPaired(norm, tables, es) && Unambiguous(Expand(es))
    ensures Pair(norm, tables, Expand(es)) == Some(Pairing(es, None))
    decreases |es|
  {
    hide Converted;
    if es != [] {
      var front, e := es[..|es| - 1], es[|es| - 1];
      var head, all := Expand(front), Expand(es);
      assert es == front + [e];
      assert Unambiguous(head) by {
        assert forall i | 0 <= i < |head| :: head[i] == all[i];
      }
      PairComplete(norm, tables, front);
      PairTwo(norm, tables, head, e);
    }
  }

  lemma PairTwo(norm: Normalize, tables: seq<MsTable>, head: seq<Cdc>, e: Emitted)
    requires WellPaired(norm, tables, e) && Unambiguous(head + Images(e))
    requires Pair(norm, tables, head).Some? && Pair(norm, tables, head).value.pending.None?
    ensures Pair(norm, tables, head + Images(e)) == Some(Pairing(Pair(norm, tables, head).value.done + [e], None))
  {
    hide Converted;
    var all := head + Images(e);
    if e.before.Some? {
      var mid := head + [e.before.value];
      assert mid[..|mid| - 1] == head && all[..|all| - 1] == mid;
      assert head != [] ==> !Ambiguous(all[|head| - 1], all[|head|]);
      assert !Ambiguous(all[|mid| - 1], all[|mid|]);
    } else {
      assert all[..|all| - 1] == head;
      assert head != [] ==> !Ambiguous(all[|head| - 1], all[|head|]);
    }
  }

  /** A transaction is valid exactly when reading it pairs every image. */
  lemma PairDecides(norm: Normalize, tables: seq<MsTable>, changes: seq<Cdc>)
    ensures (exists es :: Assembles(norm, tables, changes, es)) <==>
            Pair(norm, tables, changes).Some? && Pair(norm, tables, changes).value.pending.None?
  {
    forall es | Assembles(norm, tables, changes, es)
      ensures Pair(norm, tables, changes) == Some(Pairing(es, None))
    {
      PairComplete(norm, tables, es);
    }
    if Pair(norm, tables, changes).Some? && Pair(norm, tables, changes).value.pending.None? {
      PairSound(norm, tables, changes);
      assert Assembles(norm, tables, changes, Pair(norm, tables, changes).value.done);
    }
  }

  lemma PairFails(norm: Normalize, tables: seq<MsTable>, changes: seq<Cdc>, i: nat)
    requires i <= |changes| && Pair(norm, tables, changes[..i]).None?
    ensures forall es :: !Assembles(norm, tables, changes, es)
  {
    PairStaysFailed(norm, tables, changes, i);
    PairDecides(norm, tables, changes);
  }

  lemma {:induction false} PairStaysFailed(norm: Normalize, tables: seq<MsTable>, changes: seq<Cdc>, i: nat)
    requires i <= |changes| && Pair(norm, tables, changes[..i]).None?
    ensures Pair(norm, tables, changes).None?
    decreases |changes|
  {
    if i == |changes| {
      assert changes[..i] == changes;
    } else {
      assert changes[..|changes| - 1][..i] == changes[..i];
      PairStaysFailed(norm, tables, changes[..|changes| - 1], i);
    }
  }
}
