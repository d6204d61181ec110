/** File records and the SQL statements of the store, as operations on a map of rows.

    A store call is one atomic step on this map.  A call that returns an error
    changes nothing; callers model that case by not applying the operation. */
module Rows {

  datatype Option<+T> = None | Some(value: T)

  /** The numeric value of the 32 hexadecimal digits of a file ID.  Module `FileNames`
      shows that ordering these numbers is ordering the ID strings. */
  type FileId = nat

  datatype Status = Uploaded | Processing | Processed | Failed

  /** The directory `files/<tenant>/<id>`.  The tenant in it is the one the file was
      created under; it does not follow a later change of the row's tenant. */
  datatype Path = Path(tenant: string, id: FileId)

  datatype Row = Row(
    tenant: string,
    purpose: string,
    status: Status,
    dir: Path,
    manifestPath: Option<Path>,   // the directory of its manifest.json
    errorMessage: Option<string>,
    createdAt: int,
    expiresAt: int,
    deletedAt: Option<int>)

  type Table = map<FileId, Row>

  const SHARED_TENANT: string := "shared"

  predicate IsPending(status: Status) {
    status == Uploaded || status == Processing
  }

  predicate IsTerminal(status: Status) {
    status == Processed || status == Failed
  }

  /** `expires_at > 0 AND expires_at <= now` */
  predicate PastExpiry(row: Row, now: int) {
    0 < row.expiresAt <= now
  }

  /** The `WHERE` clause shared by `Get`, `List` and `Pending`. */
  predicate Visible(row: Row, now: int) {
    row.deletedAt.None? && (row.expiresAt == 0 || row.expiresAt > now)
  }

  /** The `WHERE` clause of `Expired`. */
  predicate Collectable(row: Row, now: int) {
    row.deletedAt.Some? || PastExpiry(row, now)
  }

  /** A row that a status update or a deletion mark can still reach. */
  predicate Live(rows: Table, id: FileId) {
    id in rows && rows[id].deletedAt.None?
  }

  function NullIf(text: string): Option<string> {
    if text == "" then None else Some(text)
  }

  predicate Owned(rows: Table, id: FileId, tenant: string) {
    id in rows && rows[id].tenant == tenant
  }

  function Get(rows: Table, id: FileId, tenant: string, now: int): Option<Row> {
    if Owned(rows, id, tenant) && Visible(rows[id], now) then Some(rows[id]) else None
  }

  function GetInternal(rows: Table, id: FileId): Option<Row> {
    if id in rows then Some(rows[id]) else None
  }

  /** The row count of the statement is one exactly when `Live(rows, id)`. */
  function UpdateStatus(rows: Table, id: FileId, status: Status, manifest: Option<Path>, errorMessage: string): Table {
    if Live(rows, id) then
      rows[id := rows[id].(status := status, manifestPath := manifest, errorMessage := NullIf(errorMessage))]
    else rows
  }

  predicate Markable(rows: Table, id: FileId, tenant: string) {
    Live(rows, id) && rows[id].tenant == tenant
  }

  function MarkDeleted(rows: Table, id: FileId, tenant: string, now: int): Table {
    if Markable(rows, id, tenant) then rows[id := rows[id].(deletedAt := Some(now))] else rows
  }

  function Remove(rows: Table, id: FileId, tenant: string): Table {
    if Owned(rows, id, tenant) then rows - {id} else rows
  }

  function PendingIds(rows: Table, now: int): set<FileId> {
    set id | id in rows && IsPending(rows[id].status) && Visible(rows[id], now)
  }

  function ExpiredIds(rows: Table, now: int): set<FileId> {
    set id | id in rows && Collectable(rows[id], now)
  }

  function ConsolidateTenants(rows: Table): Table {
    map id | id in rows :: rows[id].(tenant := SHARED_TENANT)
  }

  /** The directories named by the `source_path` column. */
  function SourceDirs(rows: Table): set<Path> {
    set id | id in rows :: rows[id].dir
  }
}
