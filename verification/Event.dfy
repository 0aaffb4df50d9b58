/** The wire format shared by collectors, queue and server, and the small
    result types the other modules use. A message stands for its own JSON
    bytes: encoding and decoding are the identity on these datatypes. */
module Event {

  datatype Option<+T> = None | Some(value: T)

  datatype Result<+T, +E> = Success(value: T) | Failure(error: E) {
    predicate IsFailure() {
      Failure?
    }

    function PropagateFailure<U>(): Result<U, E>
      requires Failure?
    {
      Failure(error)
    }

    function Extract(): T
      requires Success?
    {
      value
    }
  }

  /** The phase string of both the collector state and the server state: "", "snapshot" or "stream". */
  datatype Phase = Unset | Snapshot | Stream

  datatype Kind =
    | SnapshotBegin
    | SchemaTable
    | SnapshotRows
    | SnapshotEnd
    | SchemaEnd
    | TransactionRows
    | TransactionEnd
    | FileBegin
    | FileChunk
    | FileEnd
    | FileDelete
    | OtherKind(name: string)

  datatype Operation = Read | Insert | Update | Delete | OtherOperation

  datatype TableRef = TableRef(schema: string, name: string)

  /** `value` is None for SQL NULL; a column that is not sent at all is simply not listed. */
  datatype Column = Column(name: string, typeName: string, value: Option<string>)

  datatype Row = Row(
    fullRow: bool,
    table: TableRef,
    operation: Operation,
    key: seq<Column>,
    oldKey: seq<Column>,
    columns: seq<Column>,
    ordinal: nat
  )

  datatype ColumnSchema = ColumnSchema(name: string, typeName: string, nullable: bool, primary: bool)

  datatype TableSchema = TableSchema(table: TableRef, columns: seq<ColumnSchema>)

  datatype FileOperation = FileCreate | FileUpdate | FileRemove | OtherFileOperation

  datatype FileChange = FileChange(
    path: string,
    operation: FileOperation,
    size: int,
    modTime: int,
    mode: nat,
    sha256: string,
    chunk: nat,
    chunks: nat,
    data: string
  )

  /** The canonical "source/generation/seq" identifier. */
  datatype MessageId = MessageId(source: string, generation: string, seqNo: nat)

  datatype Message = Message(
    version: string,
    sourceId: string,
    generation: string,
    schemaVersion: string,
    seqNo: nat,
    id: MessageId,
    kind: Kind,
    transaction: string,
    chunk: nat,
    lsn: string,
    tables: seq<TableRef>,
    schema: Option<TableSchema>,
    rows: seq<Row>,
    file: Option<FileChange>,
    createdAt: Option<int>
  )

  /** A message as a capture hands it to the queue, before the queue stamps its envelope. */
  function Draft(kind: Kind): Message {
    Message("", "", "", "", 0, MessageId("", "", 0), kind, "", 0, "", [], None, [], None, None)
  }

  /** The kinds that close a unit: the server applies a unit's effect exactly when it stores one of these. */
  predicate Closing(kind: Kind) {
    kind.SnapshotEnd? || kind.TransactionEnd? || kind.SchemaEnd? || kind.FileEnd? || kind.FileDelete?
  }
}
