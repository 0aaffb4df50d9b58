/** How captured rows become row chunks: greedy batches under a row and a byte limit, numbered from 0. */
module Batching {
  import opened Event

  /** `sizeOf` is the encoded size of a row. */
  datatype Limits = Limits(rows: int, bytes: int, maxRow: int, sizeOf: Row -> nat)

  /** The chunk being filled and its encoded size. */
  datatype Batch = Batch(draft: Message, size: nat)

  /** A batch together with the chunks it has given up. */
  datatype Flushed = Flushed(batch: Batch, out: seq<Message>)

  function Open(draft: Message): Batch {
    Batch(draft, 0)
  }

  function Flush(f: Flushed): Flushed {
    if f.batch.draft.rows == [] then f
    else Flushed(Batch(f.batch.draft.(rows := [], chunk := f.batch.draft.chunk + 1), 0), f.out + [f.batch.draft])
  }

  predicate Overflows(lim: Limits, b: Batch, row: Row) {
    b.draft.rows != [] && (|b.draft.rows| >= lim.rows || b.size + lim.sizeOf(row) > lim.bytes)
  }

  predicate Fills(lim: Limits, b: Batch) {
    b.size >= lim.bytes || |b.draft.rows| >= lim.rows
  }

  function Put(lim: Limits, f: Flushed, row: Row): Flushed {
    var b := f.batch;
    f.(batch := Batch(b.draft.(rows := b.draft.rows + [row]), b.size + lim.sizeOf(row)))
  }

  /** None if the row exceeds the hard row limit. */
  function Add(lim: Limits, f: Flushed, row: Row): Option<Flushed> {
    if lim.sizeOf(row) > lim.maxRow then None
    else
      var room := if Overflows(lim, f.batch, row) then Flush(f) else f;
      var put := Put(lim, room, row);
      Some(if Fills(lim, put.batch) then Flush(put) else put)
  }

  function AddAll(lim: Limits, draft: Message, rows: seq<Row>): Option<Flushed> {
    if rows == [] then Some(Flushed(Open(draft), []))
    else
      var f := AddAll(lim, draft, rows[..|rows| - 1]);
      if f.None? then None else Add(lim, f.value, rows[|rows| - 1])
  }

  /** The rows before the first one that exceeds the hard limit. */
  function Admissible(lim: Limits, rows: seq<Row>): seq<Row> {
    if rows == [] then []
    else
      var front := Admissible(lim, rows[..|rows| - 1]);
      if front == rows[..|rows| - 1] && lim.sizeOf(rows[|rows| - 1]) <= lim.maxRow then rows else front
  }

  /** Batching fails exactly at a row that exceeds the hard limit. */
  lemma {:induction false} AdmissibleAdds(lim: Limits, draft: Message, rows: seq<Row>)
    ensures AddAll(lim, draft, Admissible(lim, rows)).Some?
    ensures AddAll(lim, draft, rows).Some? <==> Admissible(lim, rows) == rows
    decreases |rows|
  {
    if rows != [] {
      var front := rows[..|rows| - 1];
      AdmissibleAdds(lim, draft, front);
      assert Admissible(lim, rows) == rows ==> Admissible(lim, front) == front;
    }
  }

  // ---------------------------------------------------------------- what the chunks are

  function Size(lim: Limits, rows: seq<Row>): nat {
    if rows == [] then 0 else Size(lim, rows[..|rows| - 1]) + lim.sizeOf(rows[|rows| - 1])
  }

  predicate Within(lim: Limits, rows: seq<Row>) {
    |rows| == 1 || (|rows| <= lim.rows && Size(lim, rows) <= lim.bytes)
  }

  function Concat(chunks: seq<Message>): seq<Row> {
    if chunks == [] then [] else Concat(chunks[..|chunks| - 1]) + chunks[|chunks| - 1].rows
  }

  /** Non-empty chunks of one draft, numbered from 0 and within the limits. */
  predicate Chunked(lim: Limits, draft: Message, out: seq<Message>) {
    forall k | 0 <= k < |out| ::
      out[k] == draft.(rows := out[k].rows, chunk := k) && out[k].rows != [] && Within(lim, out[k].rows)
  }

  predicate Filling(lim: Limits, draft: Message, f: Flushed) {
    var b := f.batch;
    && b.draft == draft.(rows := b.draft.rows, chunk := |f.out|) && b.size == Size(lim, b.draft.rows)
    && (b.draft.rows != [] ==> |b.draft.rows| < lim.rows && b.size < lim.bytes)
    && Chunked(lim, draft, f.out)
  }

  lemma FlushFilling(lim: Limits, draft: Message, f: Flushed)
    requires Chunked(lim, draft, f.out) && f.batch.draft == draft.(rows := f.batch.draft.rows, chunk := |f.out|)
    requires f.batch.draft.rows != [] ==> Within(lim, f.batch.draft.rows)
    requires f.batch.draft.rows == [] ==> f.batch.size == 0
    ensures Filling(lim, draft, Flush(f)) && Flush(f).batch.draft.rows == []
    ensures Concat(Flush(f).out) == Concat(f.out) + f.batch.draft.rows
  {
  }

  lemma PutFilling(lim: Limits, draft: Message, f: Flushed, row: Row)
    requires Filling(lim, draft, f) && !Overflows(lim, f.batch, row)
    ensures var b := Put(lim, f, row).batch;
            && b.draft == draft.(rows := f.batch.draft.rows + [row], chunk := |f.out|)
            && b.size == Size(lim, b.draft.rows) && Within(lim, b.draft.rows)
  {
    assert (f.batch.draft.rows + [row])[..|f.batch.draft.rows|] == f.batch.draft.rows;
  }

  lemma FlushEarly(lim: Limits, draft: Message, f: Flushed)
    requires Filling(lim, draft, f)
    ensures Filling(lim, draft, Flush(f)) && Flush(f).batch.draft.rows == []
    ensures Concat(Flush(f).out) == Concat(f.out) + f.batch.draft.rows
  {
    hide Flush, Concat, Chunked;
    FlushFilling(lim, draft, f);
  }

  lemma AddFilling(lim: Limits, draft: Message, f: Flushed, row: Row)
    requires Filling(lim, draft, f) && Add(lim, f, row).Some?
    ensures var next := Add(lim, f, row).value;
            && Filling(lim, draft, next)
            && Concat(next.out) + next.batch.draft.rows == Concat(f.out) + f.batch.draft.rows + [row]
  {
    hide Flush, Concat, Within, Chunked, Size;
    var room := if Overflows(lim, f.batch, row) then Flush(f) else f;
    FlushEarly(lim, draft, f);
    PutFilling(lim, draft, room, row);
    FlushFilling(lim, draft, Put(lim, room, row));
  }

  lemma OpenFilling(lim: Limits, draft: Message)
    requires draft.rows == [] && draft.chunk == 0
    ensures Filling(lim, draft, Flushed(Open(draft), [])) && Concat([]) == [] && Open(draft).draft.rows == []
  {
  }

  /** The chunks and the batch being filled hold exactly the rows added, in order. */
  lemma {:induction false} AddAllFilling(lim: Limits, draft: Message, rows: seq<Row>)
    requires draft.rows == [] && draft.chunk == 0 && AddAll(lim, draft, rows).Some?
    ensures var f := AddAll(lim, draft, rows).value;
            Filling(lim, draft, f) && Concat(f.out) + f.batch.draft.rows == rows
    decreases |rows|
  {
    hide Flush, Put, Add, Size, Concat, Within, Chunked;
    OpenFilling(lim, draft);
    hide Add, Filling, Concat, Open;
    if rows != [] {
      var front, last := rows[..|rows| - 1], rows[|rows| - 1];
      AddAllFilling(lim, draft, front);
      AddFilling(lim, draft, AddAll(lim, draft, front).value, last);
      assert rows == front + [last];
    }
  }

  // ---------------------------------------------------------------- a whole transaction

  function RowsDraft(lsn: string): Message {
    Draft(TransactionRows).(transaction := lsn, lsn := lsn)
  }

  function EndDraft(lsn: string, chunks: nat): Message {
    Draft(TransactionEnd).(transaction := lsn, lsn := lsn, chunk := chunks)
  }

  /** The messages of a transaction: its row chunks, then the end marker carrying their number. */
  function Encode(lim: Limits, lsn: string, rows: seq<Row>): Option<seq<Message>> {
    var f := AddAll(lim, RowsDraft(lsn), rows);
    if f.None? then None
    else Some(Flush(f.value).out + [EndDraft(lsn, Flush(f.value).batch.draft.chunk)])
  }

  /** The chunks of a transaction concatenate to its rows, keep the limits unless single-row, are numbered 0 to
      n - 1, and the end marker carries n. */
  lemma EncodeChunks(lim: Limits, lsn: string, rows: seq<Row>)
    requires Encode(lim, lsn, rows).Some?
    ensures var unit := Encode(lim, lsn, rows).value;
            var n := |unit| - 1;
            && n >= 0 && unit[n] == EndDraft(lsn, n)
            && Chunked(lim, RowsDraft(lsn), unit[..n]) && Concat(unit[..n]) == rows
            && (n == 0 <==> rows == [])
  {
    AddAllFilling(lim, RowsDraft(lsn), rows);
    var f := AddAll(lim, RowsDraft(lsn), rows).value;
    FlushFilling(lim, RowsDraft(lsn), f);
    var unit := Encode(lim, lsn, rows).value;
    assert unit[..|unit| - 1] == Flush(f).out;
    ChunkedEmpty(lim, RowsDraft(lsn), Flush(f).out);
  }

  lemma ChunkedEmpty(lim: Limits, draft: Message, out: seq<Message>)
    requires Chunked(lim, draft, out)
    ensures Concat(out) == [] <==> out == []
  {
    if out != [] {
      assert out[|out| - 1].rows != [];
    }
  }

  /** The messages a collector appends for a transaction: all of them, or the chunks filled before reading it
      fails or a row turns out too large. */
  function Attempted(lim: Limits, lsn: string, rows: seq<Row>, whole: bool): seq<Message> {
    if whole && Encode(lim, lsn, rows).Some? then Encode(lim, lsn, rows).value
    else
      AdmissibleAdds(lim, RowsDraft(lsn), rows);
      AddAll(lim, RowsDraft(lsn), Admissible(lim, rows)).value.out
  }
}
