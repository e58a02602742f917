/**
 What each pgoutput decoder computes (pgoutput.py), as functions on the bytes that are still to be read.
 Reading at an offset is reading the front of those bytes, so slices past the end are cut short as in Python,
 and an index past the end is an error.
 */
module Pgoutput {
  import opened Wrappers
  import opened Bytes
  import opened Messages

  const TAG_BEGIN: byte := 66          // B
  const TAG_COMMIT: byte := 67         // C
  const TAG_DELETE: byte := 68         // D
  const TAG_STREAM_STOP: byte := 69    // E
  const TAG_INSERT: byte := 73         // I
  const TAG_MESSAGE: byte := 77        // M
  const TAG_ORIGIN: byte := 79         // O
  const TAG_RELATION: byte := 82       // R
  const TAG_STREAM_START: byte := 83   // S
  const TAG_TRUNCATE: byte := 84       // T
  const TAG_UPDATE: byte := 85         // U
  const TAG_TYPE: byte := 89           // Y
  const TAG_STREAM_ABORT: byte := 65   // A
  const TAG_STREAM_COMMIT: byte := 99  // c

  const NEW_TUPLE: byte := 78          // N
  const KEY_TUPLE: byte := 75          // K
  const OLD_TUPLE: byte := 79          // O
  const CELL_NULL: byte := 110         // n
  const CELL_UNCHANGED: byte := 117    // u
  const CELL_TEXT: byte := 116         // t

  type Catalog = map<nat, Relation>

  /** `RelationCache.get`. */
  function Lookup(relations: Catalog, id: nat): Result<Relation> {
    if id in relations then Ok(relations[id]) else Err(DecodeError)
  }

  function IndexByte(s: Text): Result<byte> {
    if s == [] then Err(IndexError) else Ok(s[0])
  }

  /** The Xid field that leads most messages while a bracket is open. */
  function SkipXid(s: Text, streaming: bool): Text {
    if streaming then Drop(s, 4) else s
  }

  function ReadXid(s: Text, streaming: bool): Option<nat> {
    if streaming then Some(Field(4, s)) else None
  }

  function ReadColumn(s: Text): Result<(Column, Text)> {
    var flags :- IndexByte(s);
    var (name, rest) :- ReadCString(Drop(s, 1));
    Ok((Column(name, Field(4, rest), FromBigSigned(Take(Drop(rest, 4), 4)), flags % 2 == 1), Drop(rest, 8)))
  }

  function Columns(s: Text, n: nat, columns: seq<Column>): Result<seq<Column>>
    decreases n
  {
    if n == 0 then Ok(columns)
    else
      var (column, rest) :- ReadColumn(s);
      Columns(rest, n - 1, columns + [column])
  }

  function DecodeRelation(payload: Text, streaming: bool): Result<Relation> {
    if Take(payload, 1) != [TAG_RELATION] then Err(DecodeError)
    else
      var s := SkipXid(Drop(payload, 1), streaming);
      var (namespace, s1) :- ReadCString(Drop(s, 4));
      var (name, s2) :- ReadCString(s1);
      var identity :- IndexByte(s2);
      var columns :- Columns(Drop(s2, 3), Field(2, Drop(s2, 1)), []);
      Ok(Relation(Field(4, s), namespace, name, identity, columns))
  }

  function Cells(s: Text, columns: seq<Column>, row: Row): Result<(Row, Text)>
    decreases |columns|
  {
    if columns == [] then Ok((row, s))
    else
      var marker, s1, name := Take(s, 1), Drop(s, 1), columns[0].name;
      if marker == [CELL_NULL] then Cells(s1, columns[1..], row[name := None])
      else if marker == [CELL_UNCHANGED] then Cells(s1, columns[1..], row)
      else if marker == [CELL_TEXT] then
        var length, s2 := Field(4, s1), Drop(s1, 4);
        Cells(Drop(s2, length), columns[1..], row[name := Some(Take(s2, length))])
      else Err(DecodeError)
  }

  /** `_decode_tuple_data`: the row, and the bytes after it. */
  function TupleData(s: Text, columns: seq<Column>): Result<(Row, Text)> {
    if Field(2, s) != |columns| then Err(DecodeError) else Cells(Drop(s, 2), columns, map[])
  }

  ghost predicate KeyName(columns: seq<Column>, name: Text) {
    exists c :: c in columns && c.isKey && c.name == name
  }

  function KeyNames(columns: seq<Column>): (names: set<Text>)
    ensures forall n :: n in names <==> KeyName(columns, n)
  {
    set c | c in columns && c.isKey :: c.name
  }

  /** `_restrict_to_key_columns`: a key column missing from the row is a `KeyError`. */
  function RestrictToKeys(row: Row, columns: seq<Column>): Result<Row> {
    if KeyNames(columns) <= row.Keys then Ok(map n | n in KeyNames(columns) :: row[n]) else Err(KeyError)
  }

  function DecodeInsert(payload: Text, relations: Catalog, streaming: bool): Result<Message> {
    if Take(payload, 1) != [TAG_INSERT] then Err(DecodeError)
    else
      var p := Drop(payload, 1);
      var s := SkipXid(p, streaming);
      var id, s1 := Field(4, s), Drop(s, 4);
      if Take(s1, 1) != [NEW_TUPLE] then Err(DecodeError)
      else
        var relation :- Lookup(relations, id);
        var (row, _) :- TupleData(Drop(s1, 1), relation.columns);
        Ok(Insert(id, relation.QualifiedName(), row, ReadXid(p, streaming)))
  }

  /** The old tuple of an Update or Delete, after its marker byte. */
  function OldTuple(s: Text, marker: Text, columns: seq<Column>): Result<(Row, Text)> {
    var (row, rest) :- TupleData(s, columns);
    if marker == [KEY_TUPLE] then
      var keys :- RestrictToKeys(row, columns);
      Ok((keys, rest))
    else Ok((row, rest))
  }

  function OptionalOldTuple(s: Text, columns: seq<Column>): Result<(Option<Row>, Text)> {
    var marker := Take(s, 1);
    if marker == [KEY_TUPLE] || marker == [OLD_TUPLE] then
      var (row, rest) :- OldTuple(Drop(s, 1), marker, columns);
      Ok((Some(row), rest))
    else Ok((None, s))
  }

  function DecodeUpdate(payload: Text, relations: Catalog, streaming: bool): Result<Message> {
    if Take(payload, 1) != [TAG_UPDATE] then Err(DecodeError)
    else
      var p := Drop(payload, 1);
      var s := SkipXid(p, streaming);
      var id := Field(4, s);
      var relation :- Lookup(relations, id);
      var (before, s1) :- OptionalOldTuple(Drop(s, 4), relation.columns);
      if Take(s1, 1) != [NEW_TUPLE] then Err(DecodeError)
      else
        var (row, _) :- TupleData(Drop(s1, 1), relation.columns);
        Ok(Update(id, relation.QualifiedName(), before, row, ReadXid(p, streaming)))
  }

  function DecodeDelete(payload: Text, relations: Catalog, streaming: bool): Result<Message> {
    if Take(payload, 1) != [TAG_DELETE] then Err(DecodeError)
    else
      var p := Drop(payload, 1);
      var s := SkipXid(p, streaming);
      var id, s1 := Field(4, s), Drop(s, 4);
      var relation :- Lookup(relations, id);
      var marker := Take(s1, 1);
      if marker != [KEY_TUPLE] && marker != [OLD_TUPLE] then Err(DecodeError)
      else
        var (before, _) :- OldTuple(Drop(s1, 1), marker, relation.columns);
        Ok(Delete(id, relation.QualifiedName(), before, ReadXid(p, streaming)))
  }

  function TableNames(s: Text, n: nat, relations: Catalog, tables: seq<Text>): Result<seq<Text>>
    decreases n
  {
    if n == 0 then Ok(tables)
    else
      var relation :- Lookup(relations, Field(4, s));
      TableNames(Drop(s, 4), n - 1, relations, tables + [relation.QualifiedName()])
  }

  function DecodeTruncate(payload: Text, relations: Catalog, streaming: bool): Result<Message> {
    if Take(payload, 1) != [TAG_TRUNCATE] then Err(DecodeError)
    else
      var p := Drop(payload, 1);
      var s := SkipXid(p, streaming);
      var flags :- IndexByte(Drop(s, 4));
      var tables :- TableNames(Drop(s, 5), Field(4, s), relations, []);
      Ok(Truncate(tables, flags % 2 == 1, (flags / 2) % 2 == 1, ReadXid(p, streaming)))
  }

  function DecodeBegin(payload: Text): Result<Message> {
    if |payload| != 21 || payload[0] != TAG_BEGIN then Err(DecodeError)
    else
      Ok(Begin(Field(8, Drop(payload, 1)), Field(8, Drop(payload, 9)), Field(4, Drop(payload, 17))))
  }

  function DecodeCommit(payload: Text): Result<Message> {
    if |payload| != 26 || payload[0] != TAG_COMMIT then Err(DecodeError)
    else
      Ok(Commit(payload[1], Field(8, Drop(payload, 2)), Field(8, Drop(payload, 10)), Field(8, Drop(payload, 18))))
  }

  function DecodeType(payload: Text, streaming: bool): Result<Message> {
    if Take(payload, 1) != [TAG_TYPE] then Err(DecodeError)
    else
      var s := SkipXid(Drop(payload, 1), streaming);
      var (namespace, s1) :- ReadCString(Drop(s, 4));
      var (name, _) :- ReadCString(s1);
      Ok(TypeName(Field(4, s), namespace, name))
  }

  function DecodeOrigin(payload: Text): Result<Message> {
    if Take(payload, 1) != [TAG_ORIGIN] then Err(DecodeError)
    else
      var (name, _) :- ReadCString(Drop(payload, 9));
      Ok(Origin(Field(8, Drop(payload, 1)), name))
  }

  function DecodeMessage(payload: Text, streaming: bool): Result<Message> {
    if Take(payload, 1) != [TAG_MESSAGE] then Err(DecodeError)
    else
      var s := SkipXid(Drop(payload, 1), streaming);
      var transactional :- IndexByte(s);
      var (prefix, s1) :- ReadCString(Drop(s, 9));
      Ok(Emitted(transactional != 0, Field(8, Drop(s, 1)), prefix, Take(Drop(s1, 4), Field(4, s1))))
  }

  function DecodeStreamStart(payload: Text): Result<Message> {
    if |payload| != 6 || payload[0] != TAG_STREAM_START then Err(DecodeError)
    else Ok(StreamStart(Field(4, Drop(payload, 1)), payload[5] != 0))
  }

  function DecodeStreamStop(payload: Text): Result<Message> {
    if |payload| != 1 || payload[0] != TAG_STREAM_STOP then Err(DecodeError) else Ok(StreamStop)
  }

  function DecodeStreamCommit(payload: Text): Result<Message> {
    if |payload| != 30 || payload[0] != TAG_STREAM_COMMIT then Err(DecodeError)
    else
      Ok(StreamCommit(Field(4, Drop(payload, 1)),
                      Field(8, Drop(payload, 6)), Field(8, Drop(payload, 14)), Field(8, Drop(payload, 22))))
  }

  function DecodeStreamAbort(payload: Text): Result<Message> {
    if |payload| != 9 || payload[0] != TAG_STREAM_ABORT then Err(DecodeError)
    else Ok(StreamAbort(Field(4, Drop(payload, 1)), Field(4, Drop(payload, 5))))
  }

  /** What a `Decoder` object remembers between payloads. */
  datatype DecoderState = DecoderState(relations: Catalog, streaming: bool)

  const FRESH_DECODER := DecoderState(map[], false)

  /** `Decoder.decode`. A malformed StreamStop still clears the flag: the code clears it first. */
  function Decode(d: DecoderState, payload: Text): (DecoderState, Result<Message>) {
    if payload == [] then (d, Err(DecodeError))
    else if payload[0] == TAG_STREAM_START then
      var r := DecodeStreamStart(payload);
      (if r.Ok? then d.(streaming := true) else d, r)
    else if payload[0] == TAG_STREAM_STOP then (d.(streaming := false), DecodeStreamStop(payload))
    else if payload[0] == TAG_RELATION then
      match DecodeRelation(payload, d.streaming)
      case Err(fault) => (d, Err(fault))
      case Ok(relation) => (d.(relations := d.relations[relation.id := relation]), Ok(Describe(relation)))
    else (d, DecodeByTag(d, payload))
  }

  function DecodeByTag(d: DecoderState, payload: Text): Result<Message>
    requires payload != []
  {
    var tag := payload[0];
    if tag == TAG_TYPE then DecodeType(payload, d.streaming)
    else if tag == TAG_MESSAGE then DecodeMessage(payload, d.streaming)
    else if tag == TAG_INSERT then DecodeInsert(payload, d.relations, d.streaming)
    else if tag == TAG_UPDATE then DecodeUpdate(payload, d.relations, d.streaming)
    else if tag == TAG_DELETE then DecodeDelete(payload, d.relations, d.streaming)
    else if tag == TAG_TRUNCATE then DecodeTruncate(payload, d.relations, d.streaming)
    else if tag == TAG_BEGIN then DecodeBegin(payload)
    else if tag == TAG_COMMIT then DecodeCommit(payload)
    else if tag == TAG_STREAM_COMMIT then DecodeStreamCommit(payload)
    else if tag == TAG_STREAM_ABORT then DecodeStreamAbort(payload)
    else if tag == TAG_ORIGIN then DecodeOrigin(payload)
    else Err(DecodeError)
  }
}
