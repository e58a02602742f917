/** Payloads that no PostgreSQL server sends: what the decoder raises on them, and what it remembers (pgoutput.py). */
module DecodeFaults {
  import opened Wrappers
  import opened Bytes
  import opened Messages
  import opened Pgoutput
  import opened WireFormat
  import opened WireRoundTrip

  const KINDS: string := "BCDEIMORSTUYAc"

  predicate Kind(b: byte) {
    exists i :: 0 <= i < |KINDS| && b == Letter(KINDS[i])
  }

  /** Nothing to read, or a letter of no message. */
  lemma UnknownKind(d: DecoderState, payload: Text)
    requires payload == [] || !Kind(payload[0])
    ensures Decode(d, payload) == (d, Err(DecodeError))
  {
    if payload != [] {
      var b := payload[0];
      assert forall i :: 0 <= i < 14 ==> b != Letter(KINDS[i]);
      assert b != Letter(KINDS[0]) && b != Letter(KINDS[1]) && b != Letter(KINDS[2]) && b != Letter(KINDS[3]);
      assert b != Letter(KINDS[4]) && b != Letter(KINDS[5]) && b != Letter(KINDS[6]) && b != Letter(KINDS[7]);
      assert b != Letter(KINDS[8]) && b != Letter(KINDS[9]) && b != Letter(KINDS[10]) && b != Letter(KINDS[11]);
      assert b != Letter(KINDS[12]) && b != Letter(KINDS[13]);
    }
  }

  /** The length of the messages that have a fixed one. */
  function FixedLength(b: byte): Option<nat> {
    if b == Letter('B') then Some(21)
    else if b == Letter('C') then Some(26)
    else if b == Letter('S') then Some(6)
    else if b == Letter('E') then Some(1)
    else if b == Letter('c') then Some(30)
    else if b == Letter('A') then Some(9)
    else None
  }

  /** A message of fixed length is refused exactly when it is shorter or longer; a StreamStop clears the flag even then. */
  lemma WrongLength(d: DecoderState, payload: Text)
    requires payload != [] && FixedLength(payload[0]).Some?
    ensures Decode(d, payload).1 == Err(DecodeError) <==> |payload| != FixedLength(payload[0]).value
    ensures Decode(d, payload).1.Ok? <==> |payload| == FixedLength(payload[0]).value
    ensures |payload| != FixedLength(payload[0]).value ==>
              Decode(d, payload).0 == if payload[0] == Letter('E') then d.(streaming := false) else d
  {
    hide Field, Take, Drop;
  }

  /** Whatever is raised, no table is learned or forgotten, and only a StreamStop moves the flag. */
  lemma FaultKeeps(d: DecoderState, payload: Text)
    requires Decode(d, payload).1.Err?
    ensures Decode(d, payload).0.relations == d.relations
    ensures payload == [] || payload[0] != Letter('E') ==> Decode(d, payload).0 == d
  {
    hide DecodeRelation, DecodeByTag, DecodeStreamStart, DecodeStreamStop;
  }

  /** Whether every table that a row names has been described. */
  predicate TablesKnown(op: RowOp, relations: Catalog) {
    if op.TruncateTables? then forall i :: 0 <= i < |op.ids| ==> op.ids[i] in relations else op.id in relations
  }

  predicate IdsFit(op: RowOp) {
    if op.TruncateTables? then U32(|op.ids|) && forall i :: 0 <= i < |op.ids| ==> U32(op.ids[i])
    else U32(op.id) && (op.DeleteRow? ==> !op.image.NoImage?)
  }

  lemma {:induction false} UnknownId(ids: seq<nat>, relations: Catalog, tables: seq<Text>)
    requires forall i :: 0 <= i < |ids| ==> U32(ids[i])
    requires exists i :: 0 <= i < |ids| && ids[i] !in relations
    ensures TableNames(EncodeIds(ids), |ids|, relations, tables) == Err(DecodeError)
    decreases |ids|
  {
    Widths();
    FieldOf(4, ids[0], EncodeIds(ids[1..]));
    if ids[0] in relations {
      var i :| 0 <= i < |ids| && ids[i] !in relations;
      assert ids[1..][i - 1] == ids[i];
      UnknownId(ids[1..], relations, tables + [relations[ids[0]].QualifiedName()]);
    }
  }

  /** A row of a table that was never described is refused, in either layout. */
  lemma UnknownTable(d: DecoderState, op: RowOp, xid: nat)
    requires IdsFit(op) && U32(xid) && !TablesKnown(op, d.relations)
    ensures Decode(d, EncodeOp(op, EncodeXid(xid, d.streaming))) == (d, Err(DecodeError))
  {
    hide DecodeInsert, DecodeUpdate, DecodeDelete, DecodeTruncate, EncodeOp, EncodeXid;
    OpLead(op, EncodeXid(xid, d.streaming));
    match op
    case InsertRow(id, cells) => UnknownInsert(id, cells, xid, d.relations, d.streaming);
    case UpdateRow(id, image, cells) => UnknownUpdate(id, image, cells, xid, d.relations, d.streaming);
    case DeleteRow(id, image) => UnknownDelete(id, image, xid, d.relations, d.streaming);
    case TruncateTables(ids, c, r) => UnknownTruncate(ids, c, r, xid, d.relations, d.streaming);
  }

  lemma UnknownInsert(id: nat, cells: seq<Cell>, xid: nat, relations: Catalog, streaming: bool)
    requires U32(id) && U32(xid) && id !in relations
    ensures DecodeInsert(EncodeOp(InsertRow(id, cells), EncodeXid(xid, streaming)), relations, streaming) == Err(DecodeError)
  {
    hide ToBig, Field, EncodeTuple, EncodeXid, SkipXid, ReadXid;
    Widths();
    var tuple := [NEW_TUPLE] + EncodeTuple(cells);
    var body := ToBig(4, id) + tuple;
    TagByte(TAG_INSERT, EncodeXid(xid, streaming) + body);
    XidRoundTrip(xid, streaming, body);
    FieldOf(4, id, tuple);
  }

  lemma UnknownUpdate(id: nat, image: OldImage, cells: seq<Cell>, xid: nat, relations: Catalog, streaming: bool)
    requires U32(id) && U32(xid) && id !in relations
    ensures DecodeUpdate(EncodeOp(UpdateRow(id, image, cells), EncodeXid(xid, streaming)), relations, streaming)
            == Err(DecodeError)
  {
    hide ToBig, Field, EncodeTuple, EncodeXid, EncodeImage, SkipXid, ReadXid;
    Widths();
    var tuple := [NEW_TUPLE] + EncodeTuple(cells);
    var body := ToBig(4, id) + (EncodeImage(image) + tuple);
    TagByte(TAG_UPDATE, EncodeXid(xid, streaming) + body);
    XidRoundTrip(xid, streaming, body);
    FieldOf(4, id, EncodeImage(image) + tuple);
  }

  lemma UnknownDelete(id: nat, image: OldImage, xid: nat, relations: Catalog, streaming: bool)
    requires U32(id) && U32(xid) && id !in relations
    ensures DecodeDelete(EncodeOp(DeleteRow(id, image), EncodeXid(xid, streaming)), relations, streaming) == Err(DecodeError)
  {
    hide ToBig, Field, EncodeXid, EncodeImage, SkipXid, ReadXid;
    Widths();
    var body := ToBig(4, id) + EncodeImage(image);
    TagByte(TAG_DELETE, EncodeXid(xid, streaming) + body);
    XidRoundTrip(xid, streaming, body);
    FieldOf(4, id, EncodeImage(image));
  }

  lemma UnknownTruncate(ids: seq<nat>, cascade: bool, restart: bool, xid: nat, relations: Catalog, streaming: bool)
    requires U32(|ids|) && U32(xid) && forall i :: 0 <= i < |ids| ==> U32(ids[i])
    requires exists i :: 0 <= i < |ids| && ids[i] !in relations
    ensures DecodeTruncate(EncodeOp(TruncateTables(ids, cascade, restart), EncodeXid(xid, streaming)), relations, streaming)
            == Err(DecodeError)
  {
    hide ToBig, Field, EncodeIds, TableNames, EncodeXid, SkipXid, ReadXid;
    Widths();
    var flags := TruncateFlags(cascade, restart);
    var tail := [flags] + EncodeIds(ids);
    var body := ToBig(4, |ids|) + tail;
    TagByte(TAG_TRUNCATE, EncodeXid(xid, streaming) + body);
    XidRoundTrip(xid, streaming, body);
    FieldOf(4, |ids|, tail);
    TagByte(flags, EncodeIds(ids));
    DropDrop(body, 4, 1);
    UnknownId(ids, relations, []);
  }

  /** A tuple with another number of columns than its table is refused. */
  lemma WrongCount(cells: seq<Cell>, columns: seq<Column>, rest: Text)
    requires |cells| < 0x1_0000 && |cells| != |columns|
    ensures TupleData(EncodeTuple(cells) + rest, columns) == Err(DecodeError)
  {
    Widths();
    assert EncodeTuple(cells) + rest == ToBig(2, |cells|) + (EncodeCells(cells) + rest);
    FieldOf(2, |cells|, EncodeCells(cells) + rest);
  }

  /** So is a tuple with a cell that is none of null, unchanged and text, whatever was sent before it. */
  lemma {:induction false} WrongCell(front: seq<Cell>, marker: byte, rest: Text, columns: seq<Column>, row: Row)
    requires |front| < |columns| && forall i :: 0 <= i < |front| ==> CellFits(front[i])
    requires marker != Letter('n') && marker != Letter('u') && marker != Letter('t')
    ensures Cells(EncodeCells(front) + ([marker] + rest), columns, row) == Err(DecodeError)
    decreases |front|
  {
    if front == [] {
      assert EncodeCells(front) + ([marker] + rest) == [marker] + rest;
      TagByte(marker, rest);
    } else {
      var tail := EncodeCells(front[1..]) + ([marker] + rest);
      assert EncodeCells(front) + ([marker] + rest) == EncodeCell(front[0]) + tail;
      hide EncodeCell, EncodeCells, Cells;
      CellStep(front[0], tail, columns, row);
      WrongCell(front[1..], marker, rest, columns[1..], AssignCell(row, columns[0].name, front[0]));
    }
  }

  /** The bytes of a row change up to its first tuple marker. */
  function RowHead(tag: byte, id: nat, xid: nat, streaming: bool, marker: byte, rest: Text): Text {
    [tag] + (EncodeXid(xid, streaming) + (ToBig(4, id) + ([marker] + rest)))
  }

  lemma HeadRead(tag: byte, id: nat, xid: nat, streaming: bool, marker: byte, rest: Text)
    requires U32(id) && U32(xid)
    ensures var payload := RowHead(tag, id, xid, streaming, marker, rest);
            var s := SkipXid(Drop(payload, 1), streaming);
            && payload != [] && payload[0] == tag && Take(payload, 1) == [tag]
            && Field(4, s) == id && Drop(s, 4) == [marker] + rest && Take(Drop(s, 4), 1) == [marker]
  {
    hide ToBig, Field, EncodeXid, SkipXid;
    Widths();
    var body := ToBig(4, id) + ([marker] + rest);
    TagByte(tag, EncodeXid(xid, streaming) + body);
    XidRoundTrip(xid, streaming, body);
    FieldOf(4, id, [marker] + rest);
    TagByte(marker, rest);
  }

  /** An Insert needs its N, an Update its N or one of K and O before it, a Delete one of K and O. */
  lemma MissingMarker(d: DecoderState, id: nat, xid: nat, marker: byte, rest: Text)
    requires U32(id) && U32(xid)
    ensures marker != Letter('N') ==>
              Decode(d, RowHead(Letter('I'), id, xid, d.streaming, marker, rest)) == (d, Err(DecodeError))
    ensures marker != Letter('N') && marker != Letter('K') && marker != Letter('O') ==>
              Decode(d, RowHead(Letter('U'), id, xid, d.streaming, marker, rest)) == (d, Err(DecodeError))
    ensures marker != Letter('K') && marker != Letter('O') ==>
              Decode(d, RowHead(Letter('D'), id, xid, d.streaming, marker, rest)) == (d, Err(DecodeError))
  {
    hide RowHead, Take, Drop, Field, SkipXid, ReadXid, TupleData, OldTuple;
    HeadRead(Letter('I'), id, xid, d.streaming, marker, rest);
    HeadRead(Letter('U'), id, xid, d.streaming, marker, rest);
    HeadRead(Letter('D'), id, xid, d.streaming, marker, rest);
  }

  /** A string is refused exactly when no NUL ends it. */
  lemma Unterminated(s: Text)
    ensures ReadCString(s).Err? <==> 0 !in s
    ensures ReadCString(s).Err? ==> ReadCString(s) == Err(ValueError)
  {
  }

  // ---- bytes that hold flags, whatever else is in them ----

  /** A column is a key column exactly when the lowest bit of its flags is set. */
  lemma KeyBit(flags: byte, c: Column, tail: Text)
    requires ColumnFits(c)
    ensures ReadColumn([flags] + (CString(c.name) + AfterName(c, tail))) == Ok((c.(isKey := flags as int % 2 == 1), tail))
  {
    hide AfterName, FromBigSigned, CString, ReadCString, ReadColumn, Take, Drop, Field;
    ColumnTail(c, tail);
    CStringRoundTrip(c.name, AfterName(c, tail));
    ReadColumnParts(flags, CString(c.name) + AfterName(c, tail), c.name, AfterName(c, tail));
  }

  lemma SecondBit(flags: byte)
    ensures (flags % 2 == 1) == (flags as int % 2 == 1)
    ensures ((flags / 2) % 2 == 1) == (flags as int % 4 >= 2)
  {
  }

  lemma TruncateRead(ids: seq<nat>, flags: byte, xid: nat, catalog: Catalog, streaming: bool)
    requires U32(|ids|) && U32(xid) && forall i :: 0 <= i < |ids| ==> Known(catalog, ids[i])
    ensures DecodeTruncate([TAG_TRUNCATE] + (EncodeXid(xid, streaming) + (ToBig(4, |ids|) + ([flags] + EncodeIds(ids)))),
                           catalog, streaming)
            == Ok(Truncate(Names(ids, catalog), flags % 2 == 1, (flags / 2) % 2 == 1,
                           if streaming then Some(xid) else None))
  {
    hide ToBig, FromBig, EncodeIds, TableNames, Names, Known, EncodeXid, SkipXid, ReadXid;
    Widths();
    var tail := [flags] + EncodeIds(ids);
    var body := ToBig(4, |ids|) + tail;
    TagByte(TAG_TRUNCATE, EncodeXid(xid, streaming) + body);
    XidRoundTrip(xid, streaming, body);
    FieldOf(4, |ids|, tail);
    TagByte(flags, EncodeIds(ids));
    DropDrop(body, 4, 1);
    IdsRoundTrip(ids, catalog, []);
    assert [] + Names(ids, catalog) == Names(ids, catalog);
  }

  lemma TruncateDispatch(d: DecoderState, payload: Text)
    requires payload != [] && payload[0] == Letter('T')
    ensures Decode(d, payload) == (d, DecodeTruncate(payload, d.relations, d.streaming))
  {
    hide DecodeTruncate;
  }

  /** Of a Truncate's flags the lowest bit is CASCADE and the next RESTART IDENTITY. */
  lemma TruncateBits(d: DecoderState, ids: seq<nat>, flags: byte, xid: nat)
    requires U32(|ids|) && U32(xid) && forall i :: 0 <= i < |ids| ==> Known(d.relations, ids[i])
    ensures Decode(d, [Letter('T')] + (EncodeXid(xid, d.streaming) + (ToBig(4, |ids|) + ([flags] + EncodeIds(ids)))))
            == (d, Ok(Truncate(Names(ids, d.relations), flags as int % 2 == 1, flags as int % 4 >= 2,
                               if d.streaming then Some(xid) else None)))
  {
    hide Decode, DecodeTruncate, ToBig, EncodeIds, Names, Known, EncodeXid;
    SecondBit(flags);
    TruncateRead(ids, flags, xid, d.relations, d.streaming);
    var rest := EncodeXid(xid, d.streaming) + (ToBig(4, |ids|) + ([flags] + EncodeIds(ids)));
    TagByte(Letter('T'), rest);
    TruncateDispatch(d, [Letter('T')] + rest);
  }

  /** Any byte but zero marks a first segment. */
  lemma SegmentByte(d: DecoderState, xid: nat, b: byte)
    requires U32(xid)
    ensures Decode(d, [Letter('S')] + (ToBig(4, xid) + [b])) == (d.(streaming := true), Ok(StreamStart(xid, b != 0)))
  {
    hide ToBig, FromBig;
    Widths();
    FieldOf(4, xid, [b]);
    TagByte(Letter('S'), ToBig(4, xid) + [b]);
  }

  /** Any byte but zero marks a transactional message. */
  lemma TransactionalByte(d: DecoderState, m: Message, xid: nat, b: byte)
    requires m.Emitted? && PlainFits(m) && U32(xid)
    ensures Decode(d, [Letter('M')] + (EncodeXid(xid, d.streaming)
                        + ([b] + (ToBig(8, m.lsn) + (CString(m.prefix) + (ToBig(4, |m.content|) + m.content))))))
            == (d, Ok(m.(transactional := b != 0)))
  {
    hide ToBig, Field, CString, ReadCString, Pow256, EncodeXid, ReadXid, SkipXid;
    Widths();
    var s4 := ToBig(4, |m.content|) + m.content;
    var s3 := CString(m.prefix) + s4;
    var s2 := ToBig(8, m.lsn) + s3;
    var s1 := [b] + s2;
    TagByte(TAG_MESSAGE, EncodeXid(xid, d.streaming) + s1);
    XidRoundTrip(xid, d.streaming, s1);
    TagByte(b, s2);
    FieldOf(8, m.lsn, s3);
    DropDrop(s1, 1, 8);
    CStringRoundTrip(m.prefix, s4);
    FieldOf(4, |m.content|, m.content);
    assert m.content[..|m.content|] == m.content;
  }
}
