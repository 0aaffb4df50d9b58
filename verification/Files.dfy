/** File replication: how the collector cuts a file into begin/chunk/end
    messages and how the server reassembles and checks them. */
module Files {
  import opened Event

  type Byte = x: int | 0 <= x < 256
  type Bytes = seq<Byte>

  /** Base64 and SHA-256 as foreign functions. */
  datatype Codec = Codec(encode: Bytes -> string, decode: string -> Option<Bytes>, sha: Bytes -> string)

  /** Decoding undoes encoding (section 4 of RFC 4648) and a digest is never the empty string. */
  ghost predicate Faithful(codec: Codec) {
    && (forall b: Bytes :: codec.decode(codec.encode(b)) == Some(b))
    && (forall b: Bytes :: codec.sha(b) != "")
  }

  // ---------------------------------------------------------------- server side

  predicate HeaderOk(max: int, end: Message) {
    && end.file.Some?
    && (end.file.value.operation.FileCreate? || end.file.value.operation.FileUpdate?)
    && 0 <= end.file.value.size <= max
    && end.file.value.sha256 != ""
    && end.file.value.chunks != 0
  }

  /** Every message of a batch repeats the metadata of its end marker. */
  predicate SameBatch(m: Message, end: Message)
    requires end.file.Some?
  {
    && m.transaction == end.transaction
    && m.file.Some?
    && m.file.value.path == end.file.value.path
    && m.file.value.operation == end.file.value.operation
    && m.file.value.size == end.file.value.size
    && m.file.value.sha256 == end.file.value.sha256
    && m.file.value.chunks == end.file.value.chunks
  }

  function Decoded(codec: Codec, m: Message): Bytes {
    if m.file.Some? && codec.decode(m.file.value.data).Some? then codec.decode(m.file.value.data).value else []
  }

  function Content(codec: Codec, parts: seq<Message>): Bytes {
    if parts == [] then [] else Content(codec, parts[..|parts| - 1]) + Decoded(codec, parts[|parts| - 1])
  }

  ghost predicate ChunkOk(codec: Codec, m: Message, end: Message, index: nat)
    requires end.file.Some?
  {
    m.kind.FileChunk? && SameBatch(m, end) && m.file.value.chunk == index && codec.decode(m.file.value.data).Some?
  }

  /** A batch the server must accept: one begin, then exactly the announced chunks 0..n-1 in order, whose
      decoded bytes have the announced size and digest. */
  ghost predicate Complete(codec: Codec, max: int, batch: seq<Message>, end: Message) {
    && HeaderOk(max, end)
    && |batch| == end.file.value.chunks + 1
    && batch[0].kind.FileBegin? && SameBatch(batch[0], end)
    && (forall i | 1 <= i < |batch| :: ChunkOk(codec, batch[i], end, i - 1))
    && |Content(codec, batch[1..])| == end.file.value.size
    && codec.sha(Content(codec, batch[1..])) == end.file.value.sha256
  }

  lemma ContentSnoc(codec: Codec, batch: seq<Message>, i: nat)
    requires 1 <= i < |batch|
    ensures Content(codec, batch[1..i + 1]) == Content(codec, batch[1..i]) + Decoded(codec, batch[i])
  {
    assert batch[1..i + 1][..i - 1] == batch[1..i];
  }

  lemma {:induction false} ContentGrows(codec: Codec, batch: seq<Message>, i: nat, j: nat)
    requires 1 <= i <= j <= |batch|
    ensures |Content(codec, batch[1..i])| <= |Content(codec, batch[1..j])|
    decreases j
  {
    if i < j {
      ContentSnoc(codec, batch, j - 1);
      ContentGrows(codec, batch, i, j - 1);
    }
  }

  lemma CompleteAt(codec: Codec, max: int, batch: seq<Message>, end: Message, i: nat)
    requires Complete(codec, max, batch, end) && 1 <= i < |batch|
    ensures ChunkOk(codec, batch[i], end, i - 1) && i - 1 < end.file.value.chunks
    ensures |Content(codec, batch[1..i])| + |Decoded(codec, batch[i])| <= max
  {
    ContentSnoc(codec, batch, i);
    ContentGrows(codec, batch, i + 1, |batch|);
    assert batch[1..|batch|] == batch[1..];
  }

  /** One accepted begin followed by the first i - 1 chunks. */
  ghost predicate Scanned(codec: Codec, max: int, batch: seq<Message>, end: Message, i: nat)
    requires end.file.Some? && i <= |batch|
  {
    && (i > 0 ==> batch[0].kind.FileBegin? && SameBatch(batch[0], end))
    && (forall k | 1 <= k < i :: ChunkOk(codec, batch[k], end, k - 1))
  }

  /** The server's scan over the staged batch, with every early return of the source. It succeeds exactly
      on complete batches and then returns the concatenated bytes. */
  method Reassemble(codec: Codec, max: int, batch: seq<Message>, end: Message) returns (result: Option<Bytes>)
    ensures result.Some? <==> Complete(codec, max, batch, end)
    ensures result.Some? ==> result.value == Content(codec, batch[1..])
  {
    hide ReadAt;
    if !HeaderOk(max, end) {
      return None;
    }
    var file := end.file.value;
    var written: Bytes, expected, seenBegin := [], 0, false;
    var i := 0;
    while i < |batch|
      invariant 0 <= i <= |batch|
      invariant Scanned(codec, max, batch, end, i)
      invariant if i == 0 then !seenBegin && expected == 0 && written == []
                else seenBegin && expected == i - 1 && written == Content(codec, batch[1..i])
    {
      var message := batch[i];
      if Complete(codec, max, batch, end) && i > 0 {
        CompleteAt(codec, max, batch, end, i);
      }
      if !SameBatch(message, end) {
        return None;
      }
      if message.kind.FileBegin? {
        if seenBegin || expected != 0 {
          return None;
        }
        seenBegin := true;
      } else if message.kind.FileChunk? {
        if !seenBegin || message.file.value.chunk != expected || expected >= file.chunks {
          return None;
        }
        var decoded := codec.decode(message.file.value.data);
        if decoded.None? || |decoded.value| + |written| > max {
          return None;
        }
        ContentSnoc(codec, batch, i);
        written := written + decoded.value;
        expected := expected + 1;
      } else {
        return None;
      }
      i := i + 1;
    }
    assert |batch| > 0 ==> batch[1..i] == batch[1..];
    if !seenBegin || expected != file.chunks || |written| != file.size || codec.sha(written) != file.sha256 {
      return None;
    }
    return Some(written);
  }

  // ---------------------------------------------------------------- collector side

  /** What the last scan recorded about a file. */
  datatype FileState = FileState(size: nat, modTime: int, mode: nat, sha256: string)

  function ChunkCount(size: nat, chunkBytes: nat): nat
    requires chunkBytes > 0
  {
    var chunks := (size + chunkBytes - 1) / chunkBytes;
    if chunks == 0 then 1 else chunks
  }

  /** The bytes the k-th buffered read returns; a short or empty read at the end of the file is no error. */
  function ReadAt(content: Bytes, chunkBytes: nat, k: nat): Bytes {
    var from := if k * chunkBytes <= |content| then k * chunkBytes else |content|;
    var to := if (k + 1) * chunkBytes <= |content| then (k + 1) * chunkBytes else |content|;
    if from <= to then content[from..to] else []
  }

  function Header(name: string, operation: FileOperation, state: FileState, chunks: nat): FileChange {
    FileChange(name, operation, state.size, state.modTime, state.mode, state.sha256, 0, chunks, "")
  }

  function FileMessage(kind: Kind, transaction: string, change: FileChange): Message {
    Draft(kind).(transaction := transaction, file := Some(change))
  }

  function ChunkMessage(codec: Codec, transaction: string, change: FileChange, chunkBytes: nat, content: Bytes,
                        k: nat): Message {
    FileMessage(FileChunk, transaction, change.(chunk := k, data := codec.encode(ReadAt(content, chunkBytes, k))))
  }

  function ChunkMessages(codec: Codec, transaction: string, change: FileChange, chunkBytes: nat, content: Bytes,
                         n: nat): seq<Message> {
    seq(n, k requires 0 <= k < n => ChunkMessage(codec, transaction, change, chunkBytes, content, k))
  }

  /** The concatenation of the first n reads. */
  function ReadUpTo(content: Bytes, chunkBytes: nat, n: nat): Bytes {
    if n == 0 then [] else ReadUpTo(content, chunkBytes, n - 1) + ReadAt(content, chunkBytes, n - 1)
  }

  lemma {:induction false} ReadUpToIsPrefix(content: Bytes, chunkBytes: nat, n: nat)
    ensures var end := if n * chunkBytes <= |content| then n * chunkBytes else |content|;
            ReadUpTo(content, chunkBytes, n) == content[..end]
    decreases n
  {
    if n > 0 {
      ReadUpToIsPrefix(content, chunkBytes, n - 1);
      assert n * chunkBytes == (n - 1) * chunkBytes + chunkBytes;
    }
  }

  lemma ChunksCover(size: nat, chunkBytes: nat)
    requires chunkBytes > 0
    ensures ChunkCount(size, chunkBytes) * chunkBytes >= size
  {
    var total := size + chunkBytes - 1;
    assert total == total / chunkBytes * chunkBytes + total % chunkBytes;
  }

  // ---------------------------------------------------------------- round trip

  lemma {:induction false} ChunksDecode(codec: Codec, transaction: string, change: FileChange, chunkBytes: nat,
                                        content: Bytes, n: nat)
    requires Faithful(codec)
    ensures Content(codec, ChunkMessages(codec, transaction, change, chunkBytes, content, n))
            == ReadUpTo(content, chunkBytes, n)
    decreases n
  {
    if n > 0 {
      var parts := ChunkMessages(codec, transaction, change, chunkBytes, content, n);
      assert parts[..n - 1] == ChunkMessages(codec, transaction, change, chunkBytes, content, n - 1);
      ChunksDecode(codec, transaction, change, chunkBytes, content, n - 1);
      assert Decoded(codec, parts[n - 1]) == ReadAt(content, chunkBytes, n - 1);
    }
  }

  lemma ChunksCarryContent(codec: Codec, transaction: string, change: FileChange, chunkBytes: nat, content: Bytes)
    requires Faithful(codec) && chunkBytes > 0
    ensures var n := ChunkCount(|content|, chunkBytes);
            Content(codec, ChunkMessages(codec, transaction, change, chunkBytes, content, n)) == content
  {
    var chunks := ChunkCount(|content|, chunkBytes);
    ChunksDecode(codec, transaction, change, chunkBytes, content, chunks);
    ReadUpToIsPrefix(content, chunkBytes, chunks);
    ChunksCover(|content|, chunkBytes);
  }

  lemma ChunksInOrder(codec: Codec, transaction: string, change: FileChange, chunkBytes: nat, content: Bytes, n: nat,
                      i: nat)
    requires Faithful(codec) && i < n
    ensures ChunkOk(codec, ChunkMessages(codec, transaction, change, chunkBytes, content, n)[i],
                    FileMessage(FileEnd, transaction, change), i)
  {
  }

  /** For every content and every positive chunk size the published batch is complete for the server, and
      reassembles to the same bytes. */
  lemma FileRoundTrip(codec: Codec, max: int, name: string, operation: FileOperation, transaction: string,
                      mode: nat, modTime: int, chunkBytes: nat, content: Bytes)
    requires Faithful(codec) && chunkBytes > 0 && |content| <= max
    requires operation.FileCreate? || operation.FileUpdate?
    ensures var chunks := ChunkCount(|content|, chunkBytes);
            var change := Header(name, operation, FileState(|content|, modTime, mode, codec.sha(content)), chunks);
            var batch := [FileMessage(FileBegin, transaction, change)]
                       + ChunkMessages(codec, transaction, change, chunkBytes, content, chunks);
            && Complete(codec, max, batch, FileMessage(FileEnd, transaction, change))
            && Content(codec, batch[1..]) == content
  {
    var chunks := ChunkCount(|content|, chunkBytes);
    var change := Header(name, operation, FileState(|content|, modTime, mode, codec.sha(content)), chunks);
    var parts := ChunkMessages(codec, transaction, change, chunkBytes, content, chunks);
    ChunksCarryContent(codec, transaction, change, chunkBytes, content);
    forall i | 0 <= i < chunks ensures ChunkOk(codec, parts[i], FileMessage(FileEnd, transaction, change), i) {
      ChunksInOrder(codec, transaction, change, chunkBytes, content, chunks, i);
    }
    BatchCompletes(codec, max, FileMessage(FileBegin, transaction, change), parts,
                   FileMessage(FileEnd, transaction, change));
  }

  lemma BatchCompletes(codec: Codec, max: int, begin: Message, parts: seq<Message>, end: Message)
    requires HeaderOk(max, end) && begin.kind.FileBegin? && SameBatch(begin, end) && |parts| == end.file.value.chunks
    requires forall i | 0 <= i < |parts| :: ChunkOk(codec, parts[i], end, i)
    requires |Content(codec, parts)| == end.file.value.size && codec.sha(Content(codec, parts)) == end.file.value.sha256
    ensures Complete(codec, max, [begin] + parts, end)
    ensures ([begin] + parts)[1..] == parts
  {
    var batch := [begin] + parts;
    assert batch[1..] == parts;
    forall i | 1 <= i < |batch| ensures ChunkOk(codec, batch[i], end, i - 1) {
      assert batch[i] == parts[i - 1];
    }
  }
}
