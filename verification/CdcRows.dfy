/** The SQL Server row conversion: a change-table row, with its before image for updates, becomes a row event.
    SQL Server leaves out the before image of unchanged MAX values and both images of unchanged text, ntext and
    image values; the update mask says which columns changed. */
module CdcRows {
  import opened Event
  import opened Target
  import opened Changes
  import opened Arithmetic

  datatype MsColumn = MsColumn(name: string, typeName: string, legacyLob: bool, maxLength: int, ordinal: int,
                               primary: bool)

  datatype MsTable = MsTable(ref: TableRef, columns: seq<MsColumn>, fullRow: bool)

  datatype Cdc = Cdc(table: int, sequence: nat, command: int, operation: int, mask: seq<bv8>,
                     values: seq<Option<string>>)

  /** The value conversion of a column type; None when the value is malformed. */
  type Normalize = (MsColumn, string) -> Option<string>

  const DeleteImage := 1
  const InsertImage := 2
  const BeforeImage := 3
  const AfterImage := 4

  /** What the catalog guarantees: distinct columns, the full-row identity exactly without a primary key and
      never with legacy large objects, which cannot be part of a primary key either. */
  predicate WellFormed(t: MsTable) {
    && t.columns != []
    && (forall i, j | 0 <= i < j < |t.columns| :: t.columns[i].name != t.columns[j].name)
    && (t.fullRow <==> forall c | c in t.columns :: !c.primary)
    && (forall c | c in t.columns && (c.primary || t.fullRow) :: !c.legacyLob)
  }

  // ---------------------------------------------------------------- update mask

  function BitOf(k: nat): bv8
    requires k < 8
  {
    1 << k
  }

  /** The mask test: None for an ordinal outside the mask. */
  function Changed(mask: seq<bv8>, ordinal: int): Option<bool> {
    if ordinal < 1 || ordinal > |mask| * 8 then None
    else
      var index := |mask| - 1 - (ordinal - 1) / 8;
      Some(mask[index] & BitOf((ordinal - 1) % 8) != 0)
  }

  /** The mask read as one big-endian number. */
  function MaskValue(mask: seq<bv8>): nat {
    if mask == [] then 0 else MaskValue(mask[..|mask| - 1]) * 256 + mask[|mask| - 1] as nat
  }

  lemma Bit0(b: bv8)
    ensures b & 1 != 0 <==> b as nat % 2 == 1
  {
  }

  lemma Bit1(b: bv8)
    ensures b & 2 != 0 <==> (b as nat / 2) % 2 == 1
  {
  }

  lemma Bit2(b: bv8)
    ensures b & 4 != 0 <==> (b as nat / 4) % 2 == 1
  {
  }

  lemma Bit3(b: bv8)
    ensures b & 8 != 0 <==> (b as nat / 8) % 2 == 1
  {
  }

  lemma HighBits(b: bv8)
    ensures (b & 16 != 0 <==> (b as nat / 16) % 2 == 1) && (b & 32 != 0 <==> (b as nat / 32) % 2 == 1)
    ensures (b & 64 != 0 <==> (b as nat / 64) % 2 == 1) && (b & 128 != 0 <==> (b as nat / 128) % 2 == 1)
  {
  }

  lemma BitConstants(k: nat)
    requires k < 8
    ensures (BitOf(k), Power2(k)) ==
            [(1, 1), (2, 2), (4, 4), (8, 8), (16, 16), (32, 32), (64, 64), (128, 128)][k]
  {
    assert Power2(0) == 1 && Power2(1) == 2 && Power2(2) == 4 && Power2(3) == 8;
    assert Power2(4) == 16 && Power2(5) == 32 && Power2(6) == 64 && Power2(7) == 128;
  }

  lemma ByteBit(b: bv8, k: nat)
    requires k < 8
    ensures b & BitOf(k) != 0 <==> (b as nat / Power2(k)) % 2 == 1
  {
    hide Power2, BitOf;
    Bit0(b);
    Bit1(b);
    Bit2(b);
    Bit3(b);
    HighBits(b);
    BitConstants(k);
    hide BitOf, Power2;
  }

  /** A low bit of a number is a bit of its last byte. */
  lemma LowBitOfConcat(hi: nat, b: nat, k: nat)
    requires k < 8
    ensures ((hi * 256 + b) / Power2(k)) % 2 == (b / Power2(k)) % 2
  {
    PowerAdds(k, 8 - k);
    PowerAdds(1, 7 - k);
    EightBits();
    SplitByte(hi, b, Power2(k), Power2(7 - k));
  }

  lemma SplitByte(hi: nat, b: nat, p: nat, w: nat)
    requires p > 0 && p * (2 * w) == 256
    ensures ((hi * 256 + b) / p) % 2 == (b / p) % 2
  {
    Associate(p, w, hi);
    DivAddsMultiple(p, 2 * (w * hi), b);
    EvenShift(w * hi, b / p);
  }

  /** A higher bit of a number is a bit of what precedes its last byte. */
  lemma HighBitOfConcat(hi: nat, b: nat, k: nat)
    requires b < 256 && k >= 8
    ensures (hi * 256 + b) / Power2(k) == hi / Power2(k - 8)
  {
    PowerAdds(8, k - 8);
    EightBits();
    DivTwice(hi * 256 + b, 256, Power2(k - 8));
  }

  lemma ChangedInFront(mask: seq<bv8>, ordinal: int)
    requires 8 < ordinal <= |mask| * 8
    ensures Changed(mask, ordinal) == Changed(mask[..|mask| - 1], ordinal - 8)
  {
    hide BitOf;
  }

  lemma ChangedInLast(mask: seq<bv8>, ordinal: int)
    requires 1 <= ordinal <= 8 && mask != []
    ensures Changed(mask, ordinal) == Some((mask[|mask| - 1] as nat / Power2(ordinal - 1)) % 2 == 1)
  {
    ByteBit(mask[|mask| - 1], ordinal - 1);
    hide BitOf, Power2;
  }

  /** The mask test reads bit ordinal - 1 of the mask as a big-endian number. */
  lemma {:induction false} MaskBit(mask: seq<bv8>, ordinal: int)
    ensures Changed(mask, ordinal) ==
            if 1 <= ordinal <= |mask| * 8 then Some((MaskValue(mask) / Power2(ordinal - 1)) % 2 == 1) else None
    decreases |mask|
  {
    if 1 <= ordinal <= |mask| * 8 {
      var front, last := mask[..|mask| - 1], mask[|mask| - 1];
      hide Power2, Changed;
      if ordinal <= 8 {
        LowBitOfConcat(MaskValue(front), last as nat, ordinal - 1);
        ChangedInLast(mask, ordinal);
      } else {
        HighBitOfConcat(MaskValue(front), last as nat, ordinal - 1);
        ChangedInFront(mask, ordinal);
        MaskBit(front, ordinal - 8);
      }
    }
  }

  // ---------------------------------------------------------------- specification

  /** A value after conversion; None when it is malformed. */
  function Value(norm: Normalize, c: MsColumn, v: Option<string>): Option<Option<string>> {
    if v.None? then Some(None) else if norm(c, v.value).None? then None else Some(norm(c, v.value))
  }

  predicate Readable(norm: Normalize, t: MsTable, values: seq<Option<string>>) {
    |values| == |t.columns| && forall i | 0 <= i < |values| :: Value(norm, t.columns[i], values[i]).Some?
  }

  function ColumnsOf(norm: Normalize, t: MsTable, values: seq<Option<string>>): seq<Column>
    requires Readable(norm, t, values)
  {
    seq(|values|, i requires 0 <= i < |values| =>
          Column(t.columns[i].name, t.columns[i].typeName, Value(norm, t.columns[i], values[i]).value))
  }

  /** The identity columns among the first n. */
  function KeyOf(t: MsTable, columns: seq<Column>, n: nat): seq<Column>
    requires n <= |t.columns| == |columns|
  {
    if n == 0 then [] else KeyOf(t, columns, n - 1) + (if t.fullRow || t.columns[n - 1].primary then [columns[n - 1]]
      else [])
  }

  predicate KeyPresent(t: MsTable, columns: seq<Column>, n: nat)
    requires n <= |t.columns| == |columns|
  {
    forall i | 0 <= i < n && t.columns[i].primary :: columns[i].value.Some?
  }

  predicate MaskFits(t: MsTable, mask: seq<bv8>, n: nat)
    requires n <= |t.columns|
  {
    forall i | 0 <= i < n :: Changed(mask, t.columns[i].ordinal).Some?
  }

  predicate Unchanged(t: MsTable, mask: seq<bv8>, i: nat)
    requires i < |t.columns|
  {
    Changed(mask, t.columns[i].ordinal) == Some(false)
  }

  /** The new values an update sends: all but unchanged legacy large objects. */
  function Sent(t: MsTable, columns: seq<Column>, mask: seq<bv8>, n: nat): seq<Column>
    requires n <= |t.columns| == |columns|
  {
    if n == 0 then []
    else
      Sent(t, columns, mask, n - 1)
      + (if t.columns[n - 1].legacyLob && Unchanged(t, mask, n - 1) then [] else [columns[n - 1]])
  }

  /** The before image with unchanged MAX values filled in from the after image. */
  function Rebuilt(t: MsTable, columns: seq<Column>, prior: seq<Column>, mask: seq<bv8>): seq<Column>
    requires |t.columns| == |columns| == |prior|
  {
    seq(|prior|, i requires 0 <= i < |prior| =>
          if t.columns[i].maxLength == -1 && Unchanged(t, mask, i) then columns[i] else prior[i])
  }

  function Converted(norm: Normalize, t: MsTable, current: Cdc, before: Option<Cdc>): Option<Row> {
    if !Readable(norm, t, current.values) then None
    else
      var columns, n := ColumnsOf(norm, t, current.values), |t.columns|;
      if !KeyPresent(t, columns, n) then None
      else
        var row := Row(t.fullRow, t.ref, Delete, KeyOf(t, columns, n), [], [], 0);
        if current.operation == DeleteImage then Some(row)
        else if current.operation == InsertImage then Some(row.(operation := Insert, columns := columns))
        else if current.operation != AfterImage || before.None? || !Readable(norm, t, before.value.values) then None
        else if !MaskFits(t, current.mask, n) then None
        else
          var prior := Rebuilt(t, columns, ColumnsOf(norm, t, before.value.values), current.mask);
          if !KeyPresent(t, prior, n) then None
          else Some(row.(operation := Update, columns := Sent(t, columns, current.mask, n),
                         oldKey := KeyOf(t, prior, n)))
  }

  // ---------------------------------------------------------------- conversion

  method ToColumns(norm: Normalize, t: MsTable, values: seq<Option<string>>) returns (result: Option<seq<Column>>)
    ensures result == if Readable(norm, t, values) then Some(ColumnsOf(norm, t, values)) else None
  {
    if |values| != |t.columns| {
      return None;
    }
    var columns: seq<Column> := [];
    for i := 0 to |values|
      invariant |columns| == i
      invariant forall j | 0 <= j < i ::
                  && Value(norm, t.columns[j], values[j]).Some?
                  && columns[j] == Column(t.columns[j].name, t.columns[j].typeName,
                                          Value(norm, t.columns[j], values[j]).value)
    {
      var normalized := Value(norm, t.columns[i], values[i]);
      if normalized.None? {
        return None;
      }
      columns := columns + [Column(t.columns[i].name, t.columns[i].typeName, normalized.value)];
    }
    assert Readable(norm, t, values) && columns == ColumnsOf(norm, t, values);
    return Some(columns);
  }

  method RowKey(t: MsTable, columns: seq<Column>) returns (result: Option<seq<Column>>)
    requires |columns| == |t.columns|
    ensures result == if KeyPresent(t, columns, |columns|) then Some(KeyOf(t, columns, |columns|)) else None
  {
    var key: seq<Column> := [];
    for i := 0 to |t.columns|
      invariant KeyPresent(t, columns, i) && key == KeyOf(t, columns, i)
    {
      if !t.fullRow && !t.columns[i].primary {
        continue;
      }
      if t.columns[i].primary && columns[i].value.None? {
        return None;
      }
      key := key + [columns[i]];
    }
    return Some(key);
  }

  /** Splits an update: the values it sends and the before image it implies. */
  method Reconstruct(t: MsTable, columns: seq<Column>, before: seq<Column>, mask: seq<bv8>)
    returns (result: Option<(seq<Column>, seq<Column>)>)
    requires |columns| == |before| == |t.columns|
    ensures result == if MaskFits(t, mask, |columns|) then
                        Some((Sent(t, columns, mask, |columns|), Rebuilt(t, columns, before, mask)))
                      else None
  {
    var sent: seq<Column>, prior := [], before;
    hide Changed;
    for i := 0 to |t.columns|
      invariant MaskFits(t, mask, i) && sent == Sent(t, columns, mask, i) && |prior| == |before|
      invariant forall j | 0 <= j < |prior| ::
                  prior[j] == if j < i then Rebuilt(t, columns, before, mask)[j] else before[j]
    {
      var isChanged := Changed(mask, t.columns[i].ordinal);
      if isChanged.None? {
        return None;
      }
      if t.columns[i].maxLength == -1 && !isChanged.value {
        prior := prior[i := columns[i]];
      }
      if t.columns[i].legacyLob && !isChanged.value {
        continue;
      }
      sent := sent + [columns[i]];
    }
    assert prior == Rebuilt(t, columns, before, mask);
    return Some((sent, prior));
  }

  method ConvertChange(norm: Normalize, t: MsTable, current: Cdc, before: Option<Cdc>) returns (result: Option<Row>)
    ensures result == Converted(norm, t, current, before)
  {
    var columns := ToColumns(norm, t, current.values);
    if columns.None? {
      return None;
    }
    var key := RowKey(t, columns.value);
    if key.None? {
      return None;
    }
    var row := Row(t.fullRow, t.ref, Delete, key.value, [], [], 0);
    if current.operation == DeleteImage {
      return Some(row);
    } else if current.operation == InsertImage {
      return Some(row.(operation := Insert, columns := columns.value));
    } else if current.operation != AfterImage || before.None? {
      return None;
    }
    var prior := ToColumns(norm, t, before.value.values);
    if prior.None? {
      return None;
    }
    var images := Reconstruct(t, columns.value, prior.value, current.mask);
    if images.None? {
      return None;
    }
    var oldKey := RowKey(t, images.value.1);
    if oldKey.None? {
      return None;
    }
    return Some(row.(operation := Update, columns := images.value.0, oldKey := oldKey.value));
  }

  // ---------------------------------------------------------------- meaning

  function Names(t: MsTable): set<string> {
    set c | c in t.columns :: c.name
  }

  function IdentityNames(t: MsTable): set<string> {
    set c | c in t.columns && (t.fullRow || c.primary) :: c.name
  }

  predicate TruthAt(norm: Normalize, t: MsTable, values: seq<Option<string>>, image: Image, i: nat)
    requires i < |t.columns| == |values|
  {
    Value(norm, t.columns[i], values[i]) == Some(Lookup(image, t.columns[i].name))
  }

  /** What the change tables hold for a change: the truth, except for the values SQL Server suppresses. */
  ghost predicate Records(norm: Normalize, t: MsTable, change: Change, current: Cdc, before: Option<Cdc>) {
    && |current.values| == |t.columns|
    && match change
       case Inserted(after) =>
         && current.operation == InsertImage && after.Keys <= Names(t)
         && (forall i | 0 <= i < |t.columns| :: TruthAt(norm, t, current.values, after, i))
       case Deleted(image) =>
         && current.operation == DeleteImage && image.Keys <= Names(t)
         && (forall i | 0 <= i < |t.columns| && !t.columns[i].legacyLob :: TruthAt(norm, t, current.values, image, i))
       case Updated(image, after) =>
         && current.operation == AfterImage && before.Some? && |before.value.values| == |t.columns|
         && image.Keys <= Names(t) && after.Keys <= Names(t)
         && (forall i | 0 <= i < |t.columns| ::
               && (Unchanged(t, current.mask, i) ==>
                    Lookup(image, t.columns[i].name) == Lookup(after, t.columns[i].name))
               && (!(t.columns[i].legacyLob && Unchanged(t, current.mask, i)) ==>
                    TruthAt(norm, t, current.values, after, i))
               && (!t.columns[i].legacyLob && !(t.columns[i].maxLength == -1 && Unchanged(t, current.mask, i)) ==>
                     TruthAt(norm, t, before.value.values, image, i)))
  }

  predicate TellsAt(t: MsTable, columns: seq<Column>, image: Image, i: nat)
    requires i < |t.columns| == |columns|
  {
    columns[i].name == t.columns[i].name && columns[i].value == Lookup(image, t.columns[i].name)
  }

  lemma {:induction false} KeyTells(t: MsTable, columns: seq<Column>, image: Image, n: nat)
    requires n <= |t.columns| == |columns|
    requires forall i | 0 <= i < n && (t.fullRow || t.columns[i].primary) :: TellsAt(t, columns, image, i)
    ensures Matches(image, KeyOf(t, columns, n))
    ensures forall i | 0 <= i < n && (t.fullRow || t.columns[i].primary) ::
              Lists(KeyOf(t, columns, n), t.columns[i].name)
    decreases n
  {
    if n > 0 {
      KeyTells(t, columns, image, n - 1);
      assert t.fullRow || t.columns[n - 1].primary ==> TellsAt(t, columns, image, n - 1);
      var front, key := KeyOf(t, columns, n - 1), KeyOf(t, columns, n);
      assert forall c | c in front :: c in key;
      forall i | 0 <= i < n && (t.fullRow || t.columns[i].primary) ensures Lists(key, t.columns[i].name) {
        assert i == n - 1 ==> columns[i] in key;
      }
    }
  }

  lemma SomeIdentity(t: MsTable) returns (i: nat)
    requires WellFormed(t)
    ensures i < |t.columns| && (t.fullRow || t.columns[i].primary) && !t.columns[i].legacyLob
  {
    assert t.columns[0] in t.columns;
    var c :| c in t.columns && (t.fullRow || c.primary);
    i :| 0 <= i < |t.columns| && t.columns[i] == c;
  }

  lemma IdentityTells(t: MsTable, columns: seq<Column>, image: Image)
    requires WellFormed(t) && |t.columns| == |columns|
    requires forall i | 0 <= i < |columns| && (t.fullRow || t.columns[i].primary) :: TellsAt(t, columns, image, i)
    ensures var key := KeyOf(t, columns, |columns|);
            key != [] && Matches(image, key) && forall name | name in IdentityNames(t) :: Lists(key, name)
  {
    KeyTells(t, columns, image, |columns|);
    var i := SomeIdentity(t);
    assert Lists(KeyOf(t, columns, |columns|), t.columns[i].name);
    forall name | name in IdentityNames(t) ensures Lists(KeyOf(t, columns, |columns|), name) {
      var d :| d in t.columns && (t.fullRow || d.primary) && d.name == name;
      var j :| 0 <= j < |t.columns| && t.columns[j] == d;
    }
  }

  /** What an update sends is true, free of repetitions, and complete up to unchanged legacy large objects. */
  lemma {:induction false} SentTells(t: MsTable, columns: seq<Column>, mask: seq<bv8>, image: Image, n: nat)
    requires WellFormed(t) && n <= |t.columns| == |columns|
    requires forall i | 0 <= i < n && !(t.columns[i].legacyLob && Unchanged(t, mask, i)) ::
               TellsAt(t, columns, image, i)
    ensures var sent := Sent(t, columns, mask, n);
            && Distinct(sent) && Matches(image, sent)
            && (forall c | c in sent :: exists i | 0 <= i < n :: c.name == t.columns[i].name)
            && (forall i | 0 <= i < n && !(t.columns[i].legacyLob && Unchanged(t, mask, i)) ::
                 Lists(sent, t.columns[i].name))
    decreases n
  {
    hide Changed;
    if n > 0 {
      SentTells(t, columns, mask, image, n - 1);
      var front, sent := Sent(t, columns, mask, n - 1), Sent(t, columns, mask, n);
      assert forall c | c in front :: c in sent;
      if !(t.columns[n - 1].legacyLob && Unchanged(t, mask, n - 1)) {
        forall c | c in front ensures c.name != columns[n - 1].name {
          var i :| 0 <= i < n - 1 && c.name == t.columns[i].name;
        }
        assert columns[n - 1] in sent;
      }
      forall i | 0 <= i < n && !(t.columns[i].legacyLob && Unchanged(t, mask, i))
        ensures Lists(sent, t.columns[i].name) {
        assert i < n - 1 ==> Lists(front, t.columns[i].name);
      }
    }
  }

  /** Without a mask every column is sent. */
  lemma AllTell(t: MsTable, columns: seq<Column>, image: Image)
    requires WellFormed(t) && |t.columns| == |columns| && image.Keys <= Names(t)
    requires forall i | 0 <= i < |columns| :: TellsAt(t, columns, image, i)
    ensures Distinct(columns) && Matches(image, columns) && forall name | name in image :: Lists(columns, name)
  {
    assert forall i | 0 <= i < |columns| :: TellsAt(t, columns, image, i) ==> columns[i].name == t.columns[i].name;
    forall c | c in columns ensures Lookup(image, c.name) == c.value {
      var i :| 0 <= i < |columns| && columns[i] == c;
      assert TellsAt(t, columns, image, i);
    }
    forall name | name in image ensures Lists(columns, name) {
      assert name in Names(t);
      var c :| c in t.columns && c.name == name;
      var i :| 0 <= i < |t.columns| && t.columns[i] == c;
      assert columns[i] in columns;
    }
  }

  lemma UpdateTells(norm: Normalize, t: MsTable, current: Cdc, before: Option<Cdc>, image: Image, after: Image, i: nat)
    requires Records(norm, t, Updated(image, after), current, before) && i < |t.columns|
    requires Readable(norm, t, current.values) && Readable(norm, t, before.value.values)
    ensures var columns := ColumnsOf(norm, t, current.values);
            && (!(t.columns[i].legacyLob && Unchanged(t, current.mask, i)) ==> TellsAt(t, columns, after, i))
            && (!t.columns[i].legacyLob ==>
                  TellsAt(t, Rebuilt(t, columns, ColumnsOf(norm, t, before.value.values), current.mask), image, i))
  {
    hide Changed;
    assert Unchanged(t, current.mask, i) ==> Lookup(image, t.columns[i].name) == Lookup(after, t.columns[i].name);
  }

  lemma UpdateCovers(t: MsTable, sent: seq<Column>, mask: seq<bv8>, image: Image, after: Image, name: string)
    requires !Lists(sent, name) && image.Keys <= Names(t) && after.Keys <= Names(t)
    requires forall i | 0 <= i < |t.columns| ::
               Unchanged(t, mask, i) ==> Lookup(image, t.columns[i].name) == Lookup(after, t.columns[i].name)
    requires forall i | 0 <= i < |t.columns| && !(t.columns[i].legacyLob && Unchanged(t, mask, i)) ::
               Lists(sent, t.columns[i].name)
    ensures Lookup(image, name) == Lookup(after, name)
  {
    hide Changed, Lists;
    if name in Names(t) {
      var c :| c in t.columns && c.name == name;
      var i :| 0 <= i < |t.columns| && t.columns[i] == c;
      assert Unchanged(t, mask, i);
    }
  }

  lemma UpdateDescribes(norm: Normalize, t: MsTable, current: Cdc, before: Option<Cdc>, image: Image, after: Image)
    requires WellFormed(t) && Records(norm, t, Updated(image, after), current, before)
    requires Converted(norm, t, current, before).Some?
    ensures var row := Converted(norm, t, current, before).value;
            && Describes(row, Updated(image, after)) && !Silent(row)
            && forall name | name in IdentityNames(t) :: Lists(Identity(row), name)
  {
    hide Sent, Lookup, Power2, Assign, Patch;
    var columns := ColumnsOf(norm, t, current.values);
    var prior := Rebuilt(t, columns, ColumnsOf(norm, t, before.value.values), current.mask);
    var sent, key := Sent(t, columns, current.mask, |columns|), KeyOf(t, prior, |columns|);
    var row := Converted(norm, t, current, before).value;
    assert row.operation.Update? && row.columns == sent && row.oldKey == key;
    forall i | 0 <= i < |columns|
      ensures !(t.columns[i].legacyLob && Unchanged(t, current.mask, i)) ==> TellsAt(t, columns, after, i)
      ensures !t.columns[i].legacyLob ==> TellsAt(t, prior, image, i)
    {
      UpdateTells(norm, t, current, before, image, after, i);
    }
    hide Converted, Changed, Rebuilt, ColumnsOf;
    SentTells(t, columns, current.mask, after, |columns|);
    IdentityTells(t, prior, image);
    SomethingSent(t, columns, current.mask);
    forall name | !Lists(sent, name) ensures Lookup(image, name) == Lookup(after, name) {
      UpdateCovers(t, sent, current.mask, image, after, name);
    }
  }

  lemma SomethingSent(t: MsTable, columns: seq<Column>, mask: seq<bv8>)
    requires WellFormed(t) && |t.columns| == |columns|
    ensures Sent(t, columns, mask, |columns|) != []
  {
    var i := SomeIdentity(t);
    SentKeeps(t, columns, mask, |columns|, i);
  }

  lemma {:induction false} SentKeeps(t: MsTable, columns: seq<Column>, mask: seq<bv8>, n: nat, i: nat)
    requires i < n <= |t.columns| == |columns| && !t.columns[i].legacyLob
    ensures columns[i] in Sent(t, columns, mask, n)
    decreases n
  {
    if i < n - 1 {
      SentKeeps(t, columns, mask, n - 1, i);
    }
  }

  lemma {:induction false} KeyOfNames(t: MsTable, columns: seq<Column>, n: nat)
    requires n <= |t.columns| == |columns| && forall i | 0 <= i < |columns| :: columns[i].name == t.columns[i].name
    ensures forall c | c in KeyOf(t, columns, n) :: c.name in Names(t)
    decreases n
  {
    if n > 0 {
      KeyOfNames(t, columns, n - 1);
      assert t.columns[n - 1] in t.columns;
    }
  }

  lemma {:induction false} SentNames(t: MsTable, columns: seq<Column>, mask: seq<bv8>, n: nat)
    requires n <= |t.columns| == |columns| && forall i | 0 <= i < |columns| :: columns[i].name == t.columns[i].name
    ensures forall c | c in Sent(t, columns, mask, n) :: c.name in Names(t)
    decreases n
  {
    if n > 0 {
      SentNames(t, columns, mask, n - 1);
      assert t.columns[n - 1] in t.columns;
    }
  }

  /** A converted row names columns of its table only. */
  lemma ConvertedKnown(norm: Normalize, t: MsTable, current: Cdc, before: Option<Cdc>)
    requires Converted(norm, t, current, before).Some?
    ensures Converted(norm, t, current, before).value.table == t.ref
    ensures KnownTo(Names(t), Converted(norm, t, current, before).value)
  {
    hide Value, Sent, KeyOf, MaskFits, KeyPresent, Unchanged, Names;
    var columns := ColumnsOf(norm, t, current.values);
    KeyOfNames(t, columns, |columns|);
    if current.operation == InsertImage {
      forall c | c in columns ensures c.name in Names(t) {
        var i :| 0 <= i < |columns| && columns[i] == c;
        NameOf(t, i);
      }
    } else if current.operation == AfterImage {
      SentNames(t, columns, current.mask, |columns|);
      KeyOfNames(t, Rebuilt(t, columns, ColumnsOf(norm, t, before.value.values), current.mask), |columns|);
    }
  }

  lemma NameOf(t: MsTable, i: nat)
    requires i < |t.columns|
    ensures t.columns[i].name in Names(t)
  {
    assert t.columns[i] in t.columns;
  }

  /** What was converted describes the change and identifies the changed row. */
  lemma ConvertedDescribes(norm: Normalize, t: MsTable, change: Change, current: Cdc, before: Option<Cdc>, table: Table)
    requires WellFormed(t) && Records(norm, t, change, current, before) && Converted(norm, t, current, before).Some?
    requires Distinguishes(t.fullRow, IdentityNames(t), table) && Held(table, change)
    ensures Describes(Converted(norm, t, current, before).value, change)
            && !Silent(Converted(norm, t, current, before).value)
    ensures Applicable(table, Converted(norm, t, current, before).value, change)
  {
    hide Changed, Value, Rebuilt, Sent, KeyOf, Lists, Lookup, Patch, Distinguishes;
    var row, columns := Converted(norm, t, current, before).value, ColumnsOf(norm, t, current.values);
    match change {
      case Inserted(after) =>
        assert forall i | 0 <= i < |columns| :: TruthAt(norm, t, current.values, after, i) ==>
                 TellsAt(t, columns, after, i);
        AllTell(t, columns, after);
      case Deleted(image) =>
        assert forall i | 0 <= i < |columns| && !t.columns[i].legacyLob ::
            TruthAt(norm, t, current.values, image, i) ==> TellsAt(t, columns, image, i);
        IdentityTells(t, columns, image);
        IdentityPins(t.fullRow, IdentityNames(t), table, Identity(row), image);
      case Updated(image, after) =>
        UpdateDescribes(norm, t, current, before, image, after);
        IdentityPins(t.fullRow, IdentityNames(t), table, Identity(row), image);
    }
  }

  /** Every converted change is admitted, and applied to a table holding the true old row it yields the true new
      row, although unchanged MAX and legacy large-object values were suppressed, for every choice of LIMIT 1. */
  lemma ConvertedChangeApplies(cfg: Config, columns: Columns, tables: Tables, norm: Normalize, t: MsTable,
                               change: Change,
                               current: Cdc, before: Option<Cdc>)
    requires WellFormed(t) && Records(norm, t, change, current, before) && Converted(norm, t, current, before).Some?
    requires PickWorks(cfg.pick) && t.ref in cfg.tables && t.ref.name in columns && t.ref.name in tables
    requires Names(t) <= columns[t.ref.name]
    requires Distinguishes(t.fullRow, IdentityNames(t), tables[t.ref.name]) && Held(tables[t.ref.name], change)
    ensures ApplyRow(cfg, columns, tables, Converted(norm, t, current, before).value)
            == Success(tables[t.ref.name := ChangeTable(tables[t.ref.name], change)])
  {
    hide Converted, Records, Distinguishes, Patch, PickWorks, WellFormed, Describes, Applicable, Silent;
    ConvertedDescribes(norm, t, change, current, before, tables[t.ref.name]);
    ConvertedKnown(norm, t, current, before);
    DescribedChangeApplies(cfg, columns, tables, Converted(norm, t, current, before).value, change);
  }
}
