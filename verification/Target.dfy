/** The server's per-message transaction (`store`): admission checks, staging,
    and the effect of closing messages on the target tables, files and columns.
    `Store` is the whole transaction as one function; `TargetStore` proves the
    paged imperative form against it. */
module Target {
  import opened Event
  import opened Staging
  import opened Files

  /** A target row; SQL NULL is an absent entry. */
  type Image = map<string, string>
  type Table = multiset<Image>
  type Tables = map<string, Table>
  type Columns = map<string, set<string>>

  datatype FileObject = FileObject(content: Bytes, mode: nat, modTime: int)

  datatype SchemaKey = SchemaKey(generation: string, version: string, table: TableRef)

  datatype FileConfig = FileConfig(maxFileBytes: int, events: set<FileOperation>)

  datatype Config = Config(
    tables: seq<TableRef>,
    autoAddColumns: bool,
    addable: (TableSchema, ColumnSchema) -> bool,   // the type allowlist
    fileStorage: Option<FileConfig>,
    localPath: string -> bool,
    validDigest: string -> bool,
    codec: Codec,
    payloadHash: Message -> int,
    pick: (Table, seq<Column>) -> Image              // the row LIMIT 1 returns
  )

  datatype Database = Database(
    generation: string,
    received: nat,
    applied: nat,
    phase: Phase,
    openTransaction: string,
    schemaVersion: string,
    pendingSchema: string,
    inbox: map<Key, Message>,
    snapshotRows: map<Key, Row>,
    scope: seq<TableRef>,
    hashes: map<Key, int>,
    schemaStage: map<SchemaKey, TableSchema>,
    columns: Columns,
    tables: Tables,
    files: map<string, FileObject>,
    repairAuthorized: bool
  )

  /** Refused: envelope, order, version, phase or open-transaction check. BadSchema: the schema barrier.
      Inapplicable: the target data does not admit the change. */
  datatype StoreError = Refused | BadSchema | Inapplicable

  const MaxBigint := 0x7FFF_FFFF_FFFF_FFFF

  // ---------------------------------------------------------------- rows

  function Lookup(image: Image, name: string): Option<string> {
    if name in image then Some(image[name]) else None
  }

  /** The WHERE clause: every listed column IS NOT DISTINCT FROM the given value. */
  predicate Matches(image: Image, key: seq<Column>) {
    forall c | c in key :: Lookup(image, c.name) == c.value
  }

  function SetColumn(image: Image, c: Column): Image {
    if c.value.Some? then image[c.name := c.value.value] else image - {c.name}
  }

  function Assign(image: Image, columns: seq<Column>): Image {
    if columns == [] then image
    else SetColumn(Assign(image, columns[..|columns| - 1]), columns[|columns| - 1])
  }

  predicate Distinct(columns: seq<Column>) {
    forall i, j | 0 <= i < j < |columns| :: columns[i].name != columns[j].name
  }

  predicate Known(known: set<string>, columns: seq<Column>) {
    columns != [] && forall c | c in columns :: c.name in known
  }

  function Identity(row: Row): seq<Column> {
    if row.operation.Update? && row.oldKey != [] then row.oldKey else row.key
  }

  /** The effect of one row on its table, assuming the target admits it. */
  function Patch(pick: (Table, seq<Column>) -> Image, table: Table, row: Row): Table {
    match row.operation
    case Update =>
      var victim := pick(table, Identity(row));
      table - multiset{victim} + multiset{Assign(victim, row.columns)}
    case Delete => table - multiset{pick(table, Identity(row))}
    case _ => table + multiset{Assign(map[], row.columns)}
  }

  predicate Admits(cfg: Config, columns: Columns, tables: Tables, row: Row) {
    var name := row.table.name;
    && row.table in cfg.tables && name in columns && name in tables
    && (match row.operation
        case Update =>
          var victim := cfg.pick(tables[name], Identity(row));
          && Known(columns[name], row.columns) && Distinct(row.columns) && Known(columns[name], Identity(row))
          && victim in tables[name] && Matches(victim, Identity(row))
        case Delete =>
          var victim := cfg.pick(tables[name], Identity(row));
          && Known(columns[name], Identity(row))
          && victim in tables[name] && Matches(victim, Identity(row))
        case OtherOperation => false
        case _ => Known(columns[name], row.columns) && Distinct(row.columns))
  }

  /** LIMIT 1 returns a matching row whenever there is one. */
  ghost predicate PickFinds(pick: (Table, seq<Column>) -> Image, table: Table, key: seq<Column>) {
    (exists image :: image in table && Matches(image, key)) ==>
      pick(table, key) in table && Matches(pick(table, key), key)
  }

  ghost predicate PickWorks(pick: (Table, seq<Column>) -> Image) {
    forall table, key :: PickFinds(pick, table, key)
  }

  function ApplyRow(cfg: Config, columns: Columns, tables: Tables, row: Row): Result<Tables, StoreError> {
    if !Admits(cfg, columns, tables, row) then Failure(Inapplicable)
    else Success(tables[row.table.name := Patch(cfg.pick, tables[row.table.name], row)])
  }

  function ApplyRows(cfg: Config, columns: Columns, tables: Tables, rows: seq<Row>): Result<Tables, StoreError> {
    if rows == [] then Success(tables)
    else
      var before :- ApplyRows(cfg, columns, tables, rows[..|rows| - 1]);
      ApplyRow(cfg, columns, before, rows[|rows| - 1])
  }

  // ---------------------------------------------------------------- staged contents

  function InGeneration<V>(staged: map<Key, V>, generation: string): set<Key> {
    set k | k in staged && k.generation == generation
  }

  ghost function InOrder<V>(staged: map<Key, V>, generation: string): seq<V> {
    var keys := Ordered(InGeneration(staged, generation));
    OrderedSorts(InGeneration(staged, generation));
    seq(|keys|, i requires 0 <= i < |keys| => assert keys[i] in InGeneration(staged, generation); staged[keys[i]])
  }

  /** The rows of the chunks of one transaction, in order. */
  function RowsOf(chunks: seq<Message>, transaction: string): seq<Row> {
    if chunks == [] then []
    else
      var last := chunks[|chunks| - 1];
      RowsOf(chunks[..|chunks| - 1], transaction) + (if last.transaction == transaction then last.rows else [])
  }

  function AsInserts(rows: seq<Row>): seq<Row> {
    seq(|rows|, i requires 0 <= i < |rows| => rows[i].(operation := Insert))
  }

  function StageRows(staged: map<Key, Row>, generation: string, seqNo: nat, rows: seq<Row>): map<Key, Row> {
    if rows == [] then staged
    else
      var n := |rows| - 1;
      StageRows(staged, generation, seqNo, rows[..n])[Key(generation, seqNo, n) := rows[n]]
  }

  function Cleared(tables: Tables, scope: seq<TableRef>): Tables {
    map t | t in tables :: if exists ref | ref in scope :: ref.name == t then multiset{} else tables[t]
  }

  // ---------------------------------------------------------------- schema barrier

  function StagedFor(db: Database, generation: string, version: string): set<SchemaKey> {
    set k | k in db.schemaStage && k.generation == generation && k.version == version
  }

  predicate ColumnFits(cfg: Config, known: set<string>, schema: TableSchema, c: ColumnSchema) {
    c.name in known || (cfg.autoAddColumns && c.nullable && !c.primary && cfg.addable(schema, c))
  }

  /** Column j exists, may be added, or repeats an earlier one. */
  predicate FitsAt(cfg: Config, known: set<string>, schema: TableSchema, j: nat)
    requires j < |schema.columns|
  {
    || ColumnFits(cfg, known, schema, schema.columns[j])
    || exists i | 0 <= i < j :: schema.columns[i].name == schema.columns[j].name
  }

  predicate SchemaFits(cfg: Config, columns: Columns, schema: TableSchema) {
    && schema.table.name in columns
    && forall j | 0 <= j < |schema.columns| :: FitsAt(cfg, columns[schema.table.name], schema, j)
  }

  function ColumnNames(schema: TableSchema): set<string> {
    set c | c in schema.columns :: c.name
  }

  function WidenAll(columns: Columns, staged: map<SchemaKey, TableSchema>, keys: set<SchemaKey>): Columns {
    map t | t in columns ::
      columns[t] + (set k, c | k in keys && k in staged && staged[k].table.name == t
      && c in ColumnNames(staged[k]) :: c)
  }

  /** A staged set may be activated when it has one entry per configured table and every missing column
      can be added safely. */
  predicate Activatable(cfg: Config, db: Database, generation: string, version: string) {
    var keys := StagedFor(db, generation, version);
    |keys| == |cfg.tables| && forall k | k in keys :: SchemaFits(cfg, db.columns, db.schemaStage[k])
  }

  predicate StageableSchema(cfg: Config, db: Database, m: Message) {
    && m.schema.Some?
    && m.schema.value.table.schema != "" && m.schema.value.table.name != ""
    && m.schema.value.table in cfg.tables
    && m.schema.value.columns != []
    && SchemaKey(m.generation, m.schemaVersion, m.schema.value.table) !in db.schemaStage
  }

  // ---------------------------------------------------------------- admission

  predicate IsFile(kind: Kind) {
    kind.FileBegin? || kind.FileChunk? || kind.FileEnd? || kind.FileDelete?
  }

  predicate ValidFileMessage(cfg: Config, m: Message) {
    && cfg.fileStorage.Some? && m.file.Some? && m.file.value.path != "" && cfg.localPath(m.file.value.path)
    && if m.kind.FileDelete? then
         m.file.value.operation.FileRemove? && m.transaction == "" && m.file.value.data == ""
       else
         && (m.file.value.operation.FileCreate? || m.file.value.operation.FileUpdate?)
         && m.transaction != "" && 0 <= m.file.value.size <= cfg.fileStorage.value.maxFileBytes
            && m.file.value.chunks != 0
         && cfg.validDigest(m.file.value.sha256)
         && (m.kind.FileChunk? || m.file.value.data == "")
  }

  /** A first message of another generation starts from scratch; the target tables and files stay. */
  function Restart(db: Database, m: Message): Database {
    db.(generation := m.generation, received := 0, applied := 0, schemaVersion := m.schemaVersion,
        phase := Unset, openTransaction := "", pendingSchema := "",
        inbox := map[], snapshotRows := map[], scope := [], hashes := map[], schemaStage := map[])
  }

  /** The schema version gate: the pending version after admitting the message. */
  function VersionGate(db: Database, m: Message): Result<string, StoreError> {
    if m.kind.SchemaTable? && db.phase.Stream? then
      if m.schemaVersion == "" then Failure(Refused)
      else if db.pendingSchema == "" || db.pendingSchema == m.schemaVersion then Success(m.schemaVersion)
      else Failure(Refused)
    else if m.kind.SchemaEnd? then
      if !db.phase.Stream? || m.schemaVersion == "" || m.schemaVersion != db.pendingSchema then Failure(Refused)
      else Success(db.pendingSchema)
    else if db.pendingSchema != "" || m.schemaVersion != db.schemaVersion then Failure(Refused)
    else Success("")
  }

  /** The open-transaction gate: the open transaction after admitting the message. */
  function TransactionGate(db: Database, m: Message): Result<string, StoreError> {
    match m.kind
    case TransactionRows | FileBegin | FileChunk =>
      if m.transaction == "" || (db.openTransaction != "" && db.openTransaction != m.transaction) then Failure(Refused)
      else Success(m.transaction)
    case TransactionEnd | FileEnd =>
      if m.transaction == "" || db.openTransaction != m.transaction then Failure(Refused)
        else Success(db.openTransaction)
    case FileDelete | SchemaTable =>
      if db.openTransaction != "" then Failure(Refused) else Success("")
    case _ => Success(db.openTransaction)
  }

  // ---------------------------------------------------------------- effect, component by component

  predicate OpensBatch(kind: Kind) {
    kind.TransactionRows? || kind.FileBegin? || kind.FileChunk?
  }

  predicate ClosesBatch(kind: Kind) {
    kind.TransactionEnd? || kind.FileEnd?
  }

  /** The phase and configuration each kind requires. */
  predicate PhaseAllows(cfg: Config, phase: Phase, m: Message) {
    match m.kind
    case SnapshotBegin => true
    case SchemaTable => !phase.Unset?
    case SnapshotRows => phase.Snapshot?
    case SnapshotEnd => phase.Snapshot?
    case OtherKind(_) => false
    case _ => phase.Stream? && (IsFile(m.kind) ==> cfg.fileStorage.Some?)
  }

  /** Does this message activate the staged schemas of its version? */
  predicate Activates(m: Message) {
    m.kind.SchemaEnd? || (m.kind.SnapshotEnd? && m.schemaVersion != "")
  }

  predicate Stages(m: Message) {
    m.kind.SchemaTable? && m.schemaVersion != ""
  }

  predicate DistinctTables(tables: seq<TableRef>) {
    forall i, j | 0 <= i < j < |tables| :: tables[i] != tables[j]
  }

  predicate SchemaAllows(cfg: Config, db: Database, m: Message) {
    && (m.kind.SnapshotBegin? ==> DistinctTables(m.tables) && forall t | t in m.tables :: t in cfg.tables)
    && (Stages(m) ==> StageableSchema(cfg, db, m))
    && (Activates(m) ==> Activatable(cfg, db, m.generation, m.schemaVersion))
  }

  function NextPhase(phase: Phase, kind: Kind): Phase {
    if kind.SnapshotBegin? then Snapshot else if kind.SnapshotEnd? then Stream else phase
  }

  function NextInbox(inbox: map<Key, Message>, m: Message): map<Key, Message> {
    if OpensBatch(m.kind) then inbox[Key(m.generation, m.seqNo, 0) := m]
    else if m.kind.TransactionEnd? then
      map k | k in inbox && !(k.generation == m.generation && inbox[k].transaction == m.transaction) :: inbox[k]
    else if m.kind.FileEnd? then map k | k in inbox && k.generation != m.generation :: inbox[k]
    else inbox
  }

  function NextStage(staged: map<Key, Row>, m: Message): map<Key, Row> {
    if m.kind.SnapshotRows? then StageRows(staged, m.generation, m.seqNo, m.rows)
    else if m.kind.SnapshotBegin? || m.kind.SnapshotEnd? then map[]
    else staged
  }

  function NextScope(scope: seq<TableRef>, m: Message): seq<TableRef> {
    if m.kind.SnapshotBegin? then m.tables else if m.kind.SnapshotEnd? then [] else scope
  }

  function NextSchemaStage(db: Database, m: Message): map<SchemaKey, TableSchema> {
    if Stages(m) && m.schema.Some? then
      db.schemaStage[SchemaKey(m.generation, m.schemaVersion, m.schema.value.table) := m.schema.value]
    else if Activates(m) then db.schemaStage - StagedFor(db, m.generation, m.schemaVersion)
    else db.schemaStage
  }

  function NextColumns(db: Database, m: Message): Columns {
    if Activates(m) then WidenAll(db.columns, db.schemaStage, StagedFor(db, m.generation, m.schemaVersion))
      else db.columns
  }

  /** The rows a closing message applies, and the tables they apply to. Column types are read outside the
      transaction, so columns that the same snapshot_end adds are not known to its rows. */
  ghost function NextTables(cfg: Config, db: Database, m: Message): Result<Tables, StoreError> {
    if m.kind.SnapshotEnd? then
      ApplyRows(cfg, db.columns, Cleared(db.tables, db.scope), AsInserts(InOrder(db.snapshotRows, m.generation)))
    else if m.kind.TransactionEnd? then
      ApplyRows(cfg, db.columns, db.tables, RowsOf(InOrder(db.inbox, m.generation), m.transaction))
    else Success(db.tables)
  }

  predicate AllowsFile(cfg: Config, operation: FileOperation) {
    cfg.fileStorage.Some? && operation in cfg.fileStorage.value.events
  }

  function PutFile(cfg: Config, files: map<string, FileObject>, content: Bytes, file: FileChange): map<string,
                   FileObject> {
    if AllowsFile(cfg, file.operation) then files[file.path := FileObject(content, file.mode, file.modTime)] else files
  }

  ghost function NextFiles(cfg: Config, db: Database, m: Message): Result<map<string, FileObject>, StoreError> {
    if m.kind.FileEnd? then
      var batch := InOrder(db.inbox, m.generation);
      if cfg.fileStorage.None? || !Complete(cfg.codec, cfg.fileStorage.value.maxFileBytes, batch, m)
        then Failure(Inapplicable)
      else Success(PutFile(cfg, db.files, Content(cfg.codec, batch[1..]), m.file.value))
    else if m.kind.FileDelete? && m.file.Some? && AllowsFile(cfg, FileRemove)
      then Success(db.files - {m.file.value.path})
    else Success(db.files)
  }

  /** The effect of an admitted message, without the progress counters. */
  ghost function Change(cfg: Config, db: Database, m: Message): Result<Database, StoreError> {
    if !PhaseAllows(cfg, db.phase, m) then Failure(Refused)
    else if !SchemaAllows(cfg, db, m) then Failure(BadSchema)
    else
      var tables :- NextTables(cfg, db, m);
      var files :- NextFiles(cfg, db, m);
      Success(db.(
        phase := NextPhase(db.phase, m.kind),
        inbox := NextInbox(db.inbox, m),
        snapshotRows := NextStage(db.snapshotRows, m),
        scope := NextScope(db.scope, m),
        schemaStage := NextSchemaStage(db, m),
        columns := NextColumns(db, m),
        tables := tables,
        files := files))
  }

  /** Admission and effect of the next message of the current generation. */
  ghost function Accept(cfg: Config, db: Database, m: Message): Result<Database, StoreError> {
    if IsFile(m.kind) && !ValidFileMessage(cfg, m) then Failure(Refused)
    else
      var pending :- VersionGate(db, m);
      var open :- TransactionGate(db, m);
      var changed :- Change(cfg, db, m);
      Success(changed.(
        received := m.seqNo,
        applied := if Closing(m.kind) then m.seqNo else db.applied,
        openTransaction := if ClosesBatch(m.kind) then "" else open,
        schemaVersion := if m.kind.SchemaEnd? then pending else db.schemaVersion,
        pendingSchema := if m.kind.SchemaEnd? then "" else pending,
        hashes := db.hashes[Key(m.generation, m.seqNo, 0) := cfg.payloadHash(m)]))
  }

  /** One message, one database transaction. */
  ghost function Store(cfg: Config, db: Database, m: Message): Result<Database, StoreError> {
    if m.seqNo > MaxBigint then Failure(Refused)
    else if m.generation != db.generation && (m.seqNo != 1 || !m.kind.SnapshotBegin?) then Failure(Refused)
    else
      var current := if m.generation != db.generation then Restart(db, m) else db;
      if m.seqNo <= current.received then
        var key := Key(m.generation, m.seqNo, 0);
        if key in current.hashes && current.hashes[key] != cfg.payloadHash(m) then Failure(Refused)
          else Success(current)
      else if m.seqNo != current.received + 1 then Failure(Refused)
      else Accept(cfg, current, m)
  }
}
