/**
 The server's side of the wire: how PostgreSQL lays out each message (Logical Replication Message Formats,
 section 55.9 of the PostgreSQL 16 documentation), and what each message means to a reader that knows the tables.
 */
module WireFormat {
  import opened Wrappers
  import opened Bytes
  import opened Messages
  import opened Pgoutput

  /** One column value of a tuple as it is sent. */
  datatype Cell = Null | Unchanged | Value(text: Text)

  datatype OldImage = NoImage | KeyImage(cells: seq<Cell>) | FullImage(cells: seq<Cell>)

  datatype RowOp =
    | InsertRow(id: nat, cells: seq<Cell>)
    | UpdateRow(id: nat, image: OldImage, cells: seq<Cell>)
    | DeleteRow(id: nat, image: OldImage)
    | TruncateTables(ids: seq<nat>, cascade: bool, restart: bool)

  datatype Content = Plain(message: Message) | Change(op: RowOp)

  /** One message of the stream; `xid` goes on the wire only inside a streaming bracket. */
  datatype Packet = Packet(content: Content, xid: nat)

  // ---- meaning ----

  /** `row[name] = value`, except that an unchanged column is not assigned. */
  function AssignCell(row: Row, name: Text, c: Cell): Row {
    match c
    case Null => row[name := None]
    case Unchanged => row
    case Value(text) => row[name := Some(text)]
  }

  function Assign(row: Row, columns: seq<Column>, cells: seq<Cell>): Row
    requires |columns| == |cells|
    decreases |columns|
  {
    if columns == [] then row else Assign(AssignCell(row, columns[0].name, cells[0]), columns[1..], cells[1..])
  }

  function RowOf(columns: seq<Column>, cells: seq<Cell>): Row
    requires |columns| == |cells|
  {
    Assign(map[], columns, cells)
  }

  function KeyColumns(columns: seq<Column>): seq<Column> {
    if columns == [] then []
    else (if columns[0].isKey then [columns[0]] else []) + KeyColumns(columns[1..])
  }

  function KeyCells(columns: seq<Column>, cells: seq<Cell>): (r: seq<Cell>)
    requires |columns| == |cells|
    ensures |r| == |KeyColumns(columns)|
  {
    if columns == [] then []
    else (if columns[0].isKey then [cells[0]] else []) + KeyCells(columns[1..], cells[1..])
  }

  /** The row a key tuple stands for: exactly the key columns. */
  function KeyRow(columns: seq<Column>, cells: seq<Cell>): Row
    requires |columns| == |cells|
  {
    RowOf(KeyColumns(columns), KeyCells(columns, cells))
  }

  function ImageRow(columns: seq<Column>, image: OldImage): Option<Row>
    requires image.NoImage? || |image.cells| == |columns|
  {
    match image
    case NoImage => None
    case KeyImage(cells) => Some(KeyRow(columns, cells))
    case FullImage(cells) => Some(RowOf(columns, cells))
  }

  predicate Distinct(columns: seq<Column>) {
    forall i, j :: 0 <= i < j < |columns| ==> columns[i].name != columns[j].name
  }

  predicate CellFits(c: Cell) {
    c.Value? ==> |c.text| < 0x1_0000_0000
  }

  predicate TupleFits(columns: seq<Column>, cells: seq<Cell>) {
    && |cells| == |columns| < 0x1_0000
    && forall i :: 0 <= i < |cells| ==> CellFits(cells[i])
  }

  predicate KeysSent(columns: seq<Column>, cells: seq<Cell>)
    requires |cells| == |columns|
  {
    forall i :: 0 <= i < |columns| && columns[i].isKey ==> !cells[i].Unchanged?
  }

  predicate ImageFits(columns: seq<Column>, image: OldImage) {
    image.NoImage? || (TupleFits(columns, image.cells) && (image.KeyImage? ==> KeysSent(columns, image.cells)))
  }

  predicate Known(catalog: Catalog, id: nat) {
    id < 0x1_0000_0000 && id in catalog && Distinct(catalog[id].columns)
  }

  /** A change the server can send once it has described the tables in `catalog`. */
  predicate OpFits(op: RowOp, catalog: Catalog) {
    match op
    case InsertRow(id, cells) => Known(catalog, id) && TupleFits(catalog[id].columns, cells)
    case UpdateRow(id, image, cells) =>
      Known(catalog, id) && TupleFits(catalog[id].columns, cells) && ImageFits(catalog[id].columns, image)
    case DeleteRow(id, image) => Known(catalog, id) && !image.NoImage? && ImageFits(catalog[id].columns, image)
    case TruncateTables(ids, _, _) => |ids| < 0x1_0000_0000 && forall i :: 0 <= i < |ids| ==> Known(catalog, ids[i])
  }

  /** A table as it is named to handlers: schema, dot, name. */
  function TableName(catalog: Catalog, id: nat): Text
    requires id in catalog
  {
    catalog[id].namespace + [Letter('.')] + catalog[id].name
  }

  function Names(ids: seq<nat>, catalog: Catalog): (names: seq<Text>)
    requires forall i :: 0 <= i < |ids| ==> Known(catalog, ids[i])
    ensures |names| == |ids|
  {
    if ids == [] then []
    else
      assert Known(catalog, ids[0]);
      [TableName(catalog, ids[0])] + Names(ids[1..], catalog)
  }

  /** The decoded message that a change stands for, its table names taken from `catalog`. */
  function OpMessage(op: RowOp, catalog: Catalog, subxid: Option<nat>): (m: Message)
    requires OpFits(op, catalog)
    ensures m.RowChange() && Tag(m) == subxid
  {
    match op
    case InsertRow(id, cells) =>
      Insert(id, TableName(catalog, id), RowOf(catalog[id].columns, cells), subxid)
    case UpdateRow(id, image, cells) =>
      Update(id, TableName(catalog, id), ImageRow(catalog[id].columns, image),
             RowOf(catalog[id].columns, cells), subxid)
    case DeleteRow(id, image) =>
      Delete(id, TableName(catalog, id), ImageRow(catalog[id].columns, image).value, subxid)
    case TruncateTables(ids, cascade, restart) =>
      Truncate(Names(ids, catalog), cascade, restart, subxid)
  }

  /** What a write did, as a list of changes: one per table for a Truncate. */
  function RowChanges(op: RowOp, catalog: Catalog): seq<ChangeEvent>
    requires OpFits(op, catalog)
  {
    match op
    case InsertRow(id, cells) =>
      [ChangeEvent(INSERT, TableName(catalog, id), Some(RowOf(catalog[id].columns, cells)), None)]
    case UpdateRow(id, image, cells) =>
      [ChangeEvent(UPDATE, TableName(catalog, id), Some(RowOf(catalog[id].columns, cells)),
                   ImageRow(catalog[id].columns, image))]
    case DeleteRow(id, image) =>
      [ChangeEvent(DELETE, TableName(catalog, id), None, ImageRow(catalog[id].columns, image))]
    case TruncateTables(ids, _, _) => Truncated(ids, catalog)
  }

  function Truncated(ids: seq<nat>, catalog: Catalog): seq<ChangeEvent>
    requires forall i :: 0 <= i < |ids| ==> Known(catalog, ids[i])
  {
    if ids == [] then []
    else
      assert Known(catalog, ids[0]);
      [ChangeEvent(TRUNCATE, TableName(catalog, ids[0]), None, None)] + Truncated(ids[1..], catalog)
  }

  predicate U32(n: nat) { n < 0x1_0000_0000 }

  predicate U64(n: nat) { n < 0x1_0000_0000_0000_0000 }

  predicate ColumnFits(c: Column) {
    0 !in c.name && U32(c.typeOid) && -0x8000_0000 <= c.typeModifier < 0x8000_0000
  }

  predicate RelationFits(r: Relation) {
    && U32(r.id) && 0 !in r.namespace && 0 !in r.name && |r.columns| < 0x1_0000 && Distinct(r.columns)
    && forall i :: 0 <= i < |r.columns| ==> ColumnFits(r.columns[i])
  }

  predicate PlainFits(m: Message) {
    match m
    case Describe(r) => RelationFits(r)
    case Begin(lsn, time, xid) => U64(lsn) && U64(time) && U32(xid)
    case Commit(_, lsn, end, time) => U64(lsn) && U64(end) && U64(time)
    case TypeName(oid, namespace, name) => U32(oid) && 0 !in namespace && 0 !in name
    case Origin(lsn, name) => U64(lsn) && 0 !in name
    case Emitted(_, lsn, prefix, content) => U64(lsn) && 0 !in prefix && U32(|content|)
    case StreamStart(xid, _) => U32(xid)
    case StreamStop => true
    case StreamCommit(xid, lsn, end, time) => U32(xid) && U64(lsn) && U64(end) && U64(time)
    case StreamAbort(xid, sub) => U32(xid) && U32(sub)
    case _ => false
  }

  predicate Fits(p: Packet, catalog: Catalog) {
    U32(p.xid) && match p.content
                  case Plain(m) => PlainFits(m)
                  case Change(op) => OpFits(op, catalog)
  }

  /** What a reader should make of a packet, given the described tables and whether a bracket is open. */
  function Meaning(p: Packet, catalog: Catalog, streaming: bool): Message
    requires Fits(p, catalog)
  {
    match p.content
    case Plain(m) => m
    case Change(op) => OpMessage(op, catalog, if streaming then Some(p.xid) else None)
  }

  // ---- layout ----

  function EncodeXid(xid: nat, streaming: bool): Text {
    if streaming then ToBig(4, xid) else []
  }

  function EncodeColumn(c: Column): Text
    requires ColumnFits(c)
  {
    [Flag(c.isKey)] + (CString(c.name) + (ToBig(4, c.typeOid) + ToBigSigned(c.typeModifier)))
  }

  function EncodeColumns(columns: seq<Column>): Text
    requires forall i :: 0 <= i < |columns| ==> ColumnFits(columns[i])
  {
    if columns == [] then [] else EncodeColumn(columns[0]) + EncodeColumns(columns[1..])
  }

  function EncodeCell(c: Cell): Text {
    match c
    case Null => [Letter('n')]
    case Unchanged => [Letter('u')]
    case Value(text) => [Letter('t')] + (ToBig(4, |text|) + text)
  }

  function EncodeCells(cells: seq<Cell>): Text {
    if cells == [] then [] else EncodeCell(cells[0]) + EncodeCells(cells[1..])
  }

  function EncodeTuple(cells: seq<Cell>): Text {
    ToBig(2, |cells|) + EncodeCells(cells)
  }

  function EncodeImage(image: OldImage): Text {
    match image
    case NoImage => []
    case KeyImage(cells) => [Letter('K')] + EncodeTuple(cells)
    case FullImage(cells) => [Letter('O')] + EncodeTuple(cells)
  }

  function EncodeIds(ids: seq<nat>): Text {
    if ids == [] then [] else ToBig(4, ids[0]) + EncodeIds(ids[1..])
  }

  function Flag(b: bool): byte {
    if b then 1 else 0
  }

  function TruncateFlags(cascade: bool, restart: bool): byte {
    Flag(cascade) + 2 * Flag(restart)
  }

  function OpTag(op: RowOp): byte {
    match op
    case InsertRow(_, _) => Letter('I')
    case UpdateRow(_, _, _) => Letter('U')
    case DeleteRow(_, _) => Letter('D')
    case TruncateTables(_, _, _) => Letter('T')
  }

  function EncodeOp(op: RowOp, x: Text): Text {
    match op
    case InsertRow(id, cells) => [Letter('I')] + (x + (ToBig(4, id) + ([Letter('N')] + EncodeTuple(cells))))
    case UpdateRow(id, image, cells) =>
      [Letter('U')] + (x + (ToBig(4, id) + (EncodeImage(image) + ([Letter('N')] + EncodeTuple(cells)))))
    case DeleteRow(id, image) => [Letter('D')] + (x + (ToBig(4, id) + EncodeImage(image)))
    case TruncateTables(ids, cascade, restart) =>
      [Letter('T')] + (x + (ToBig(4, |ids|) + ([TruncateFlags(cascade, restart)] + EncodeIds(ids))))
  }

  function PlainTag(m: Message): byte
    requires PlainFits(m)
  {
    match m
    case Describe(_) => Letter('R')
    case Begin(_, _, _) => Letter('B')
    case Commit(_, _, _, _) => Letter('C')
    case TypeName(_, _, _) => Letter('Y')
    case Origin(_, _) => Letter('O')
    case Emitted(_, _, _, _) => Letter('M')
    case StreamStart(_, _) => Letter('S')
    case StreamStop => Letter('E')
    case StreamCommit(_, _, _, _) => Letter('c')
    case StreamAbort(_, _) => Letter('A')
  }

  function EncodePlain(m: Message, x: Text): Text
    requires PlainFits(m)
  {
    match m
    case Describe(r) =>
      [Letter('R')] + (x + (ToBig(4, r.id) + (CString(r.namespace) + (CString(r.name)
        + ([r.replicaIdentity] + (ToBig(2, |r.columns|) + EncodeColumns(r.columns)))))))
    case Begin(lsn, time, xid) => [Letter('B')] + (ToBig(8, lsn) + (ToBig(8, time) + ToBig(4, xid)))
    case Commit(flags, lsn, end, time) =>
      [Letter('C')] + ([flags] + (ToBig(8, lsn) + (ToBig(8, end) + ToBig(8, time))))
    case TypeName(oid, namespace, name) => [Letter('Y')] + (x + (ToBig(4, oid) + (CString(namespace) + CString(name))))
    case Origin(lsn, name) => [Letter('O')] + (ToBig(8, lsn) + CString(name))
    case Emitted(transactional, lsn, prefix, content) =>
      [Letter('M')] + (x + ([Flag(transactional)] + (ToBig(8, lsn) + (CString(prefix)
        + (ToBig(4, |content|) + content)))))
    case StreamStart(xid, first) => [Letter('S')] + (ToBig(4, xid) + [Flag(first)])
    case StreamStop => [Letter('E')]
    case StreamCommit(xid, lsn, end, time) =>
      [Letter('c')] + (ToBig(4, xid) + ([0] + (ToBig(8, lsn) + (ToBig(8, end) + ToBig(8, time)))))
    case StreamAbort(xid, sub) => [Letter('A')] + (ToBig(4, xid) + ToBig(4, sub))
  }

  function Encode(p: Packet, streaming: bool): Text
    requires p.content.Plain? ==> PlainFits(p.content.message)
  {
    var x := EncodeXid(p.xid, streaming);
    match p.content
    case Plain(m) => EncodePlain(m, x)
    case Change(op) => EncodeOp(op, x)
  }
}
