/** The hash preimage of a row: length-prefixed parts, with an all-ones length for NULL. */
module Encoding {
  import opened Event
  import opened Files

  /** A part is a byte string, or NULL. */
  type Part = Option<Bytes>

  /** n as a big-endian number of `width` bytes. */
  function BigEndian(n: nat, width: nat): (r: Bytes)
    ensures |r| == width
  {
    if width == 0 then [] else BigEndian(n / 256, width - 1) + [n % 256]
  }

  function ReadBigEndian(bytes: Bytes): nat {
    if bytes == [] then 0 else ReadBigEndian(bytes[..|bytes| - 1]) * 256 + bytes[|bytes| - 1]
  }

  function Power256(n: nat): (r: nat)
    ensures r > 0
  {
    if n == 0 then 1 else 256 * Power256(n - 1)
  }

  const NullLength := 0xFFFF_FFFF_FFFF_FFFF

  /** Lengths that a 64-bit prefix can tell from NULL. */
  predicate Short(bytes: Bytes) {
    |bytes| < NullLength
  }

  function WritePart(part: Part): Bytes {
    match part
    case None => BigEndian(NullLength, 8)
    case Some(bytes) => BigEndian(|bytes|, 8) + bytes
  }

  function WriteParts(parts: seq<Part>): Bytes {
    if parts == [] then [] else WritePart(parts[0]) + WriteParts(parts[1..])
  }

  // ---------------------------------------------------------------- reading parts back

  function ReadParts(bytes: Bytes): Option<seq<Part>>
    decreases |bytes|
  {
    if bytes == [] then Some([])
    else if |bytes| < 8 then None
    else
      var length, rest := ReadBigEndian(bytes[..8]), bytes[8..];
      if length == NullLength then Prepend(None, ReadParts(rest))
      else if length > |rest| then None
      else Prepend(Some(rest[..length]), ReadParts(rest[length..]))
  }

  function Prepend(part: Part, parts: Option<seq<Part>>): Option<seq<Part>> {
    if parts.None? then None else Some([part] + parts.value)
  }

  lemma {:induction false} BigEndianReads(n: nat, width: nat)
    requires n < Power256(width)
    ensures ReadBigEndian(BigEndian(n, width)) == n
    decreases width
  {
    if width > 0 {
      var bytes := BigEndian(n, width);
      assert bytes[..|bytes| - 1] == BigEndian(n / 256, width - 1);
      BigEndianReads(n / 256, width - 1);
    }
  }

  lemma EightBytes()
    ensures Power256(8) == NullLength + 1
  {
    assert Power256(2) == 0x1_0000 && Power256(4) == 0x1_0000_0000 && Power256(6) == 0x1_0000_0000_0000;
  }

  predicate AllShort(parts: seq<Part>) {
    forall i | 0 <= i < |parts| :: parts[i].Some? ==> Short(parts[i].value)
  }

  lemma LengthReads(n: nat)
    requires n <= NullLength
    ensures ReadBigEndian(BigEndian(n, 8)) == n
  {
    EightBytes();
    hide BigEndian, ReadBigEndian, Power256;
    BigEndianReads(n, 8);
  }

  lemma ReadsNull(tail: Bytes)
    ensures ReadParts(WritePart(None) + tail) == Prepend(None, ReadParts(tail))
  {
    hide BigEndian, ReadBigEndian;
    LengthReads(NullLength);
    var prefix := BigEndian(NullLength, 8);
    assert (prefix + tail)[..8] == prefix && (prefix + tail)[8..] == tail;
  }

  lemma ReadsBytes(bytes: Bytes, tail: Bytes)
    requires Short(bytes)
    ensures ReadParts(WritePart(Some(bytes)) + tail) == Prepend(Some(bytes), ReadParts(tail))
  {
    hide BigEndian, ReadBigEndian;
    LengthReads(|bytes|);
    var prefix := BigEndian(|bytes|, 8);
    var all := prefix + bytes + tail;
    assert all[..8] == prefix && all[8..] == bytes + tail;
    assert (bytes + tail)[..|bytes|] == bytes && (bytes + tail)[|bytes|..] == tail;
  }

  lemma NothingReads()
    ensures ReadParts([]) == Some([])
  {
  }

  /** What is written is read back, so different parts are written differently. */
  lemma {:induction false} PartsRoundTrip(parts: seq<Part>)
    requires AllShort(parts)
    ensures ReadParts(WriteParts(parts)) == Some(parts)
    decreases |parts|
  {
    hide WritePart, ReadParts;
    NothingReads();
    if parts != [] {
      PartsRoundTrip(parts[1..]);
      if parts[0].Some? {
        ReadsBytes(parts[0].value, WriteParts(parts[1..]));
      } else {
        ReadsNull(WriteParts(parts[1..]));
      }
      assert parts == [parts[0]] + parts[1..];
    }
  }

  // ---------------------------------------------------------------- rows

  /** A column as it is hashed: its name and its normalized value. */
  datatype Cell = Cell(name: Bytes, value: Option<Bytes>)

  function CellParts(cells: seq<Cell>): seq<Part> {
    if cells == [] then []
    else
      (if cells[0].value.None? then [Some(cells[0].name), None] else [Some(cells[0].name), Some([1]), cells[0].value])
      + CellParts(cells[1..])
  }

  function ReadCells(parts: seq<Part>): Option<seq<Cell>> {
    if parts == [] then Some([])
    else if |parts| < 2 || parts[0].None? then None
    else if parts[1].None? then PrependCell(Cell(parts[0].value, None), ReadCells(parts[2..]))
    else if |parts| < 3 || parts[1] != Some([1]) then None
    else PrependCell(Cell(parts[0].value, parts[2]), ReadCells(parts[3..]))
  }

  function PrependCell(cell: Cell, cells: Option<seq<Cell>>): Option<seq<Cell>> {
    if cells.None? then None else Some([cell] + cells.value)
  }

  lemma {:induction false} CellsRoundTrip(cells: seq<Cell>)
    ensures ReadCells(CellParts(cells)) == Some(cells)
    decreases |cells|
  {
    if cells != [] {
      CellsRoundTrip(cells[1..]);
      var parts, tail := CellParts(cells), CellParts(cells[1..]);
      assert parts[if cells[0].value.None? then 2 else 3..] == tail;
      assert cells == [cells[0]] + cells[1..];
    }
  }

  /** The preimage of a row hash. */
  function RowBytes(schema: Bytes, table: Bytes, cells: seq<Cell>): Bytes {
    WriteParts([Some(schema), Some(table)] + CellParts(cells))
  }

  predicate ShortCells(cells: seq<Cell>) {
    forall i | 0 <= i < |cells| :: Short(cells[i].name) && (cells[i].value.Some? ==> Short(cells[i].value.value))
  }

  lemma {:induction false} CellPartsShort(cells: seq<Cell>)
    requires ShortCells(cells)
    ensures AllShort(CellParts(cells))
    decreases |cells|
  {
    if cells != [] {
      CellPartsShort(cells[1..]);
    }
  }

  /** Equal preimages come from equal rows: schema, table and columns, with NULL, an empty value and an absent
      column all told apart. */
  lemma RowBytesInjective(schemaA: Bytes, tableA: Bytes, a: seq<Cell>, schemaB: Bytes, tableB: Bytes, b: seq<Cell>)
    requires Short(schemaA) && Short(tableA) && ShortCells(a) && Short(schemaB) && Short(tableB) && ShortCells(b)
    requires RowBytes(schemaA, tableA, a) == RowBytes(schemaB, tableB, b)
    ensures schemaA == schemaB && tableA == tableB && a == b
  {
    hide WriteParts, ReadParts, CellParts, ReadCells, Short;
    var left, right := [Some(schemaA), Some(tableA)] + CellParts(a), [Some(schemaB), Some(tableB)] + CellParts(b);
    CellPartsShort(a);
    CellPartsShort(b);
    PartsRoundTrip(left);
    PartsRoundTrip(right);
    assert left[2..] == CellParts(a) && right[2..] == CellParts(b);
    assert left[0] == right[0] && left[1] == right[1];
    CellsRoundTrip(a);
    CellsRoundTrip(b);
  }

  /** The identity columns alone are told apart as well. */
  lemma CellBytesInjective(a: seq<Cell>, b: seq<Cell>)
    requires ShortCells(a) && ShortCells(b) && WriteParts(CellParts(a)) == WriteParts(CellParts(b))
    ensures a == b
  {
    CellPartsShort(a);
    CellPartsShort(b);
    PartsRoundTrip(CellParts(a));
    PartsRoundTrip(CellParts(b));
    CellsRoundTrip(a);
    CellsRoundTrip(b);
  }
}
