/** Decoding inverts the server's encoding, for single messages and for whole streams. */
module WireRoundTrip {
  import opened Wrappers
  import opened Bytes
  import opened Messages
  import opened Pgoutput
  import opened WireFormat

  // ---- tuples ----

  lemma TagByte(t: byte, rest: Text)
    ensures Take([t] + rest, 1) == [t] && Drop([t] + rest, 1) == rest && ([t] + rest)[0] == t
  {
  }

  lemma MarkStep(c: Cell, tail: Text, columns: seq<Column>, row: Row)
    requires columns != [] && !c.Value?
    ensures Cells(EncodeCell(c) + tail, columns, row)
            == Cells(tail, columns[1..], AssignCell(row, columns[0].name, c))
  {
    var mark := if c.Null? then CELL_NULL else CELL_UNCHANGED;
    assert EncodeCell(c) == [mark];
    TagByte(mark, tail);
    hide Take, Drop, EncodeCell, Field;
  }

  lemma TextStep(text: Text, tail: Text, columns: seq<Column>, row: Row)
    requires columns != [] && |text| < 0x1_0000_0000
    ensures Cells([CELL_TEXT] + (ToBig(4, |text|) + (text + tail)), columns, row)
            == Cells(tail, columns[1..], row[columns[0].name := Some(text)])
  {
    hide Take, Drop, ToBig, Field, Pow256;
    var s2 := text + tail;
    TagByte(CELL_TEXT, ToBig(4, |text|) + s2);
    Widths();
    FieldOf(4, |text|, s2);
    SplitAt(text, tail);
  }

  /** One cell: its bytes are consumed and its column is assigned. */
  lemma CellStep(c: Cell, tail: Text, columns: seq<Column>, row: Row)
    requires columns != [] && CellFits(c)
    ensures Cells(EncodeCell(c) + tail, columns, row)
            == Cells(tail, columns[1..], AssignCell(row, columns[0].name, c))
  {
    hide Cells, ToBig;
    if c.Value? {
      assert EncodeCell(c) + tail == [CELL_TEXT] + (ToBig(4, |c.text|) + (c.text + tail));
      TextStep(c.text, tail, columns, row);
    } else {
      MarkStep(c, tail, columns, row);
    }
  }

  lemma {:induction false} CellsRoundTrip(cells: seq<Cell>, columns: seq<Column>, row: Row, rest: Text)
    requires |cells| == |columns|
    requires forall i :: 0 <= i < |cells| ==> CellFits(cells[i])
    ensures Cells(EncodeCells(cells) + rest, columns, row) == Ok((Assign(row, columns, cells), rest))
    decreases |cells|
  {
    if cells == [] {
      assert EncodeCells(cells) + rest == rest;
    } else {
      var tail := EncodeCells(cells[1..]) + rest;
      assert EncodeCells(cells) + rest == EncodeCell(cells[0]) + tail;
      CellStep(cells[0], tail, columns, row);
      CellsRoundTrip(cells[1..], columns[1..], AssignCell(row, columns[0].name, cells[0]), rest);
    }
  }

  /** A tuple decodes to the row of its sent columns, and exactly its bytes are consumed. */
  lemma TupleRoundTrip(columns: seq<Column>, cells: seq<Cell>, rest: Text)
    requires TupleFits(columns, cells)
    ensures TupleData(EncodeTuple(cells) + rest, columns) == Ok((RowOf(columns, cells), rest))
  {
    Widths();
    var body := EncodeCells(cells) + rest;
    assert EncodeTuple(cells) + rest == ToBig(2, |cells|) + body;
    FieldOf(2, |cells|, body);
    CellsRoundTrip(cells, columns, map[], rest);
  }

  function CellValue(c: Cell): Option<Text>
    requires !c.Unchanged?
  {
    if c.Value? then Some(c.text) else None
  }

  /** A name that no column has is assigned by no cell. */
  lemma {:induction false} AssignOther(row: Row, columns: seq<Column>, cells: seq<Cell>, name: Text)
    requires |columns| == |cells|
    requires forall i :: 0 <= i < |columns| ==> columns[i].name != name
    ensures name in Assign(row, columns, cells) <==> name in row
    ensures name in row ==> Assign(row, columns, cells)[name] == row[name]
    decreases |columns|
  {
    if columns != [] {
      assert columns[0].name != name;
      AssignOther(AssignCell(row, columns[0].name, cells[0]), columns[1..], cells[1..], name);
    }
  }

  /** A column is assigned by its own cell alone. */
  lemma {:induction false} AssignAt(row: Row, columns: seq<Column>, cells: seq<Cell>, i: nat)
    requires |columns| == |cells| && Distinct(columns) && i < |columns|
    ensures cells[i].Unchanged? ==>
              (columns[i].name in Assign(row, columns, cells) <==> columns[i].name in row)
    ensures !cells[i].Unchanged? ==>
              columns[i].name in Assign(row, columns, cells)
              && Assign(row, columns, cells)[columns[i].name] == CellValue(cells[i])
    decreases |columns|
  {
    var next := AssignCell(row, columns[0].name, cells[0]);
    if i == 0 {
      AssignOther(next, columns[1..], cells[1..], columns[0].name);
    } else {
      assert columns[0].name != columns[i].name;
      AssignAt(next, columns[1..], cells[1..], i - 1);
    }
  }

  /** The row of a tuple: an unchanged column is absent, every other column has the value sent, nothing else is there. */
  lemma RowMeaning(columns: seq<Column>, cells: seq<Cell>)
    requires |columns| == |cells| && Distinct(columns)
    ensures forall i :: 0 <= i < |columns| ==>
                          (columns[i].name in RowOf(columns, cells) <==> !cells[i].Unchanged?)
                          && (!cells[i].Unchanged? ==>
                                RowOf(columns, cells)[columns[i].name] == CellValue(cells[i]))
    ensures forall n :: n in RowOf(columns, cells) ==> exists i :: 0 <= i < |columns| && columns[i].name == n
  {
    hide Assign, Distinct;
    forall i | 0 <= i < |columns|
      ensures columns[i].name in RowOf(columns, cells) <==> !cells[i].Unchanged?
      ensures !cells[i].Unchanged? ==> RowOf(columns, cells)[columns[i].name] == CellValue(cells[i])
    {
      AssignAt(map[], columns, cells, i);
    }
    forall n | n in RowOf(columns, cells)
      ensures exists i :: 0 <= i < |columns| && columns[i].name == n
    {
      if forall i :: 0 <= i < |columns| ==> columns[i].name != n {
        AssignOther(map[], columns, cells, n);
      }
    }
  }

  lemma {:induction false} KeyColumnsAreColumns(columns: seq<Column>, cells: seq<Cell>, j: nat) returns (i: nat)
    requires |columns| == |cells| && j < |KeyColumns(columns)|
    ensures i < |columns| && columns[i].isKey
    ensures columns[i] == KeyColumns(columns)[j] && cells[i] == KeyCells(columns, cells)[j]
    ensures i >= j
  {
    var k := if columns[0].isKey then 1 else 0;
    if j < k {
      i := 0;
    } else {
      i := KeyColumnsAreColumns(columns[1..], cells[1..], j - k);
      i := i + 1;
    }
  }

  lemma {:induction false} KeysAreKeyColumns(columns: seq<Column>, cells: seq<Cell>, i: nat) returns (j: nat)
    requires |columns| == |cells| && i < |columns| && columns[i].isKey
    ensures j < |KeyColumns(columns)|
    ensures columns[i] == KeyColumns(columns)[j] && cells[i] == KeyCells(columns, cells)[j]
  {
    var k := if columns[0].isKey then 1 else 0;
    if i == 0 {
      j := 0;
    } else {
      j := KeysAreKeyColumns(columns[1..], cells[1..], i - 1);
      j := j + k;
    }
  }

  lemma {:induction false} KeyColumnsDistinct(columns: seq<Column>)
    requires Distinct(columns)
    ensures Distinct(KeyColumns(columns))
  {
    if columns != [] {
      var rest := columns[1..];
      assert Distinct(rest);
      KeyColumnsDistinct(rest);
      var nulls := seq(|rest|, _ => Null);
      forall j | 0 <= j < |KeyColumns(rest)|
        ensures KeyColumns(rest)[j].name != columns[0].name
      {
        var i := KeyColumnsAreColumns(rest, nulls, j);
        assert rest[i] == columns[i + 1];
      }
    }
  }

  lemma KeyNameIndex(columns: seq<Column>, name: Text) returns (i: nat)
    requires name in KeyNames(columns)
    ensures i < |columns| && columns[i].isKey && columns[i].name == name
  {
    var c :| c in columns && c.isKey && c.name == name;
    i :| 0 <= i < |columns| && columns[i] == c;
  }

  lemma KeyRowValue(columns: seq<Column>, cells: seq<Cell>, name: Text)
    requires |columns| == |cells| && Distinct(columns) && KeysSent(columns, cells) && name in KeyNames(columns)
    ensures name in RowOf(columns, cells) && name in KeyRow(columns, cells)
    ensures RowOf(columns, cells)[name] == KeyRow(columns, cells)[name]
  {
    RowMeaning(columns, cells);
    KeyColumnsDistinct(columns);
    RowMeaning(KeyColumns(columns), KeyCells(columns, cells));
    var i := KeyNameIndex(columns, name);
    var j := KeysAreKeyColumns(columns, cells, i);
  }

  lemma KeyRowOnlyKeys(columns: seq<Column>, cells: seq<Cell>, name: Text)
    requires |columns| == |cells| && Distinct(columns) && name in KeyRow(columns, cells)
    ensures name in KeyNames(columns)
  {
    var ks := KeyColumns(columns);
    KeyColumnsDistinct(columns);
    RowMeaning(ks, KeyCells(columns, cells));
    var j :| 0 <= j < |ks| && ks[j].name == name;
    var i := KeyColumnsAreColumns(columns, cells, j);
    assert KeyName(columns, name);
  }

  /**
   Cutting a key tuple down to its key columns gives exactly those columns with the values sent,
   and it fails just when some key column was marked unchanged.
   */
  lemma RestrictToKeysMeaning(columns: seq<Column>, cells: seq<Cell>)
    requires |columns| == |cells| && Distinct(columns)
    ensures RestrictToKeys(RowOf(columns, cells), columns)
            == if KeysSent(columns, cells) then Ok(KeyRow(columns, cells)) else Err(KeyError)
  {
    var row, keys := RowOf(columns, cells), KeyRow(columns, cells);
    if KeysSent(columns, cells) {
      forall n | n in KeyNames(columns)
        ensures n in row && n in keys && row[n] == keys[n]
      {
        KeyRowValue(columns, cells, n);
      }
      forall n | n in keys
        ensures n in KeyNames(columns)
      {
        KeyRowOnlyKeys(columns, cells, n);
      }
      assert (map n | n in KeyNames(columns) :: row[n]) == keys;
    } else {
      RowMeaning(columns, cells);
      var i :| 0 <= i < |columns| && columns[i].isKey && cells[i].Unchanged?;
      assert KeyName(columns, columns[i].name);
    }
  }

  lemma ImageRoundTrip(columns: seq<Column>, image: OldImage, rest: Text)
    requires Distinct(columns) && ImageFits(columns, image) && !image.NoImage?
    ensures var s := EncodeImage(image) + rest;
            && (Take(s, 1) == [KEY_TUPLE] || Take(s, 1) == [OLD_TUPLE])
            && OldTuple(Drop(s, 1), Take(s, 1), columns) == Ok((ImageRow(columns, image).value, rest))
  {
    var marker := if image.KeyImage? then KEY_TUPLE else OLD_TUPLE;
    var body := EncodeTuple(image.cells) + rest;
    assert EncodeImage(image) + rest == [marker] + body;
    TagByte(marker, body);
    TupleRoundTrip(columns, image.cells, rest);
    if image.KeyImage? {
      RestrictToKeysMeaning(columns, image.cells);
    }
  }

  // ---- row changes ----

  /** The Xid field is skipped exactly when it was sent. */
  lemma XidRoundTrip(xid: nat, streaming: bool, rest: Text)
    requires U32(xid)
    ensures SkipXid(EncodeXid(xid, streaming) + rest, streaming) == rest
    ensures ReadXid(EncodeXid(xid, streaming) + rest, streaming) == if streaming then Some(xid) else None
  {
    Widths();
    if streaming {
      FieldOf(4, xid, rest);
    } else {
      assert EncodeXid(xid, streaming) + rest == rest;
    }
  }

  lemma InsertRoundTrip(id: nat, cells: seq<Cell>, xid: nat, catalog: Catalog, streaming: bool)
    requires OpFits(InsertRow(id, cells), catalog) && U32(xid)
    ensures DecodeInsert(EncodeOp(InsertRow(id, cells), EncodeXid(xid, streaming)), catalog, streaming)
            == Ok(OpMessage(InsertRow(id, cells), catalog, if streaming then Some(xid) else None))
  {
    Widths();
    var tuple := [NEW_TUPLE] + EncodeTuple(cells);
    var body := ToBig(4, id) + tuple;
    TagByte(TAG_INSERT, EncodeXid(xid, streaming) + body);
    XidRoundTrip(xid, streaming, body);
    FieldOf(4, id, tuple);
    TagByte(NEW_TUPLE, EncodeTuple(cells));
    TupleRoundTrip(catalog[id].columns, cells, []);
    assert EncodeTuple(cells) + [] == EncodeTuple(cells);
  }

  lemma OptionalImage(columns: seq<Column>, image: OldImage, tuple: Text)
    requires Distinct(columns) && ImageFits(columns, image)
    ensures OptionalOldTuple(EncodeImage(image) + ([NEW_TUPLE] + tuple), columns)
            == Ok((ImageRow(columns, image), [NEW_TUPLE] + tuple))
  {
    hide OldTuple, ImageRow;
    var rest := [NEW_TUPLE] + tuple;
    if image.NoImage? {
      assert EncodeImage(image) + rest == rest;
      TagByte(NEW_TUPLE, tuple);
      NoRow(columns);
    } else {
      ImageRoundTrip(columns, image, rest);
      SomeRow(columns, image);
    }
  }

  lemma NoRow(columns: seq<Column>)
    ensures ImageRow(columns, NoImage) == None
  {
  }

  lemma SomeRow(columns: seq<Column>, image: OldImage)
    requires !image.NoImage? && |image.cells| == |columns|
    ensures ImageRow(columns, image).Some?
  {
  }

  lemma UpdateRoundTrip(id: nat, image: OldImage, cells: seq<Cell>, xid: nat, catalog: Catalog, streaming: bool)
    requires OpFits(UpdateRow(id, image, cells), catalog) && U32(xid)
    ensures DecodeUpdate(EncodeOp(UpdateRow(id, image, cells), EncodeXid(xid, streaming)), catalog, streaming)
            == Ok(OpMessage(UpdateRow(id, image, cells), catalog, if streaming then Some(xid) else None))
  {
    hide ToBig, Field, TupleData, EncodeTuple, EncodeXid, EncodeImage, SkipXid, ReadXid, OptionalOldTuple, RowOf, ImageRow;
    Widths();
    var columns := catalog[id].columns;
    var tuple := [NEW_TUPLE] + EncodeTuple(cells);
    var images := EncodeImage(image) + tuple;
    var body := ToBig(4, id) + images;
    TagByte(TAG_UPDATE, EncodeXid(xid, streaming) + body);
    XidRoundTrip(xid, streaming, body);
    FieldOf(4, id, images);
    TagByte(NEW_TUPLE, EncodeTuple(cells));
    OptionalImage(columns, image, EncodeTuple(cells));
    TupleRoundTrip(columns, cells, []);
    assert EncodeTuple(cells) + [] == EncodeTuple(cells);
  }

  lemma DeleteRoundTrip(id: nat, image: OldImage, xid: nat, catalog: Catalog, streaming: bool)
    requires OpFits(DeleteRow(id, image), catalog) && U32(xid)
    ensures DecodeDelete(EncodeOp(DeleteRow(id, image), EncodeXid(xid, streaming)), catalog, streaming)
            == Ok(OpMessage(DeleteRow(id, image), catalog, if streaming then Some(xid) else None))
  {
    Widths();
    var images := EncodeImage(image);
    var body := ToBig(4, id) + images;
    TagByte(TAG_DELETE, EncodeXid(xid, streaming) + body);
    XidRoundTrip(xid, streaming, body);
    FieldOf(4, id, images);
    ImageRoundTrip(catalog[id].columns, image, []);
    assert images + [] == images;
  }

  lemma {:induction false} IdsRoundTrip(ids: seq<nat>, catalog: Catalog, tables: seq<Text>)
    requires forall i :: 0 <= i < |ids| ==> Known(catalog, ids[i])
    ensures TableNames(EncodeIds(ids), |ids|, catalog, tables) == Ok(tables + Names(ids, catalog))
    decreases |ids|
  {
    if ids == [] {
      assert tables + Names(ids, catalog) == tables;
    } else {
      Widths();
      FieldOf(4, ids[0], EncodeIds(ids[1..]));
      var name := catalog[ids[0]].QualifiedName();
      IdsRoundTrip(ids[1..], catalog, tables + [name]);
      assert tables + [name] + Names(ids[1..], catalog) == tables + Names(ids, catalog);
    }
  }

  lemma FlagsRoundTrip(cascade: bool, restart: bool)
    ensures (TruncateFlags(cascade, restart) % 2 == 1) == cascade
    ensures ((TruncateFlags(cascade, restart) / 2) % 2 == 1) == restart
  {
  }

  lemma TruncateRoundTrip(ids: seq<nat>, cascade: bool, restart: bool, xid: nat, catalog: Catalog, streaming: bool)
    requires OpFits(TruncateTables(ids, cascade, restart), catalog) && U32(xid)
    ensures DecodeTruncate(EncodeOp(TruncateTables(ids, cascade, restart), EncodeXid(xid, streaming)), catalog, streaming)
            == Ok(OpMessage(TruncateTables(ids, cascade, restart), catalog, if streaming then Some(xid) else None))
  {
    hide ToBig, FromBig, Pow256, EncodeIds, TableNames, Names, Known;
    Widths();
    var flags := TruncateFlags(cascade, restart);
    var tail := [flags] + EncodeIds(ids);
    var body := ToBig(4, |ids|) + tail;
    TagByte(TAG_TRUNCATE, EncodeXid(xid, streaming) + body);
    XidRoundTrip(xid, streaming, body);
    FieldOf(4, |ids|, tail);
    TagByte(flags, EncodeIds(ids));
    DropDrop(body, 4, 1);
    FlagsRoundTrip(cascade, restart);
    IdsRoundTrip(ids, catalog, []);
    assert [] + Names(ids, catalog) == Names(ids, catalog);
  }

  lemma OpLead(op: RowOp, x: Text)
    ensures EncodeOp(op, x) != [] && EncodeOp(op, x)[0] == OpTag(op)
  {
  }

  lemma OpRoundTrip(op: RowOp, xid: nat, d: DecoderState)
    requires OpFits(op, d.relations) && U32(xid)
    ensures Decode(d, EncodeOp(op, EncodeXid(xid, d.streaming)))
            == (d, Ok(OpMessage(op, d.relations, if d.streaming then Some(xid) else None)))
  {
    hide EncodeOp, EncodeXid, OpMessage, DecodeInsert, DecodeUpdate, DecodeDelete, DecodeTruncate, ToBig, FromBig;
    OpLead(op, EncodeXid(xid, d.streaming));
    match op
    case InsertRow(id, cells) => InsertRoundTrip(id, cells, xid, d.relations, d.streaming);
    case UpdateRow(id, image, cells) => UpdateRoundTrip(id, image, cells, xid, d.relations, d.streaming);
    case DeleteRow(id, image) => DeleteRoundTrip(id, image, xid, d.relations, d.streaming);
    case TruncateTables(ids, cascade, restart) =>
      TruncateRoundTrip(ids, cascade, restart, xid, d.relations, d.streaming);
  }

  // ---- the other messages ----

  /** The bytes of a column after its name. */
  function AfterName(c: Column, tail: Text): Text
    requires ColumnFits(c)
  {
    ToBig(4, c.typeOid) + (ToBigSigned(c.typeModifier) + tail)
  }

  lemma ColumnLayout(c: Column, tail: Text)
    requires ColumnFits(c)
    ensures EncodeColumn(c) + tail == [Flag(c.isKey)] + (CString(c.name) + AfterName(c, tail))
  {
    hide ToBig, ToBigSigned, CString;
  }

  lemma ColumnTail(c: Column, tail: Text)
    requires ColumnFits(c)
    ensures var s := AfterName(c, tail);
            && Field(4, s) == c.typeOid
            && FromBigSigned(Take(Drop(s, 4), 4)) == c.typeModifier
            && Drop(s, 8) == tail
  {
    var modifier := ToBigSigned(c.typeModifier);
    SignedRoundTrip(c.typeModifier);
    hide ToBig, ToBigSigned, FromBig, FromBigSigned, Pow256;
    Widths();
    FieldOf(4, c.typeOid, modifier + tail);
    SplitAt(modifier, tail);
    DropDrop(AfterName(c, tail), 4, 4);
  }

  lemma ReadColumnParts(flags: byte, s1: Text, name: Text, s2: Text)
    requires ReadCString(s1) == Ok((name, s2))
    ensures ReadColumn([flags] + s1)
            == Ok((Column(name, Field(4, s2), FromBigSigned(Take(Drop(s2, 4), 4)), flags % 2 == 1), Drop(s2, 8)))
  {
    hide ReadCString, FromBigSigned, Field;
    TagByte(flags, s1);
  }

  lemma ColumnRoundTrip(c: Column, tail: Text)
    requires ColumnFits(c)
    ensures ReadColumn(EncodeColumn(c) + tail) == Ok((c, tail))
  {
    hide AfterName, FromBigSigned, CString, ReadCString, EncodeColumn, ReadColumn, Take, Drop, Field;
    ColumnLayout(c, tail);
    ColumnTail(c, tail);
    CStringRoundTrip(c.name, AfterName(c, tail));
    ReadColumnParts(Flag(c.isKey), CString(c.name) + AfterName(c, tail), c.name, AfterName(c, tail));
  }

  lemma {:induction false} ColumnsRoundTrip(columns: seq<Column>, before: seq<Column>)
    requires forall i :: 0 <= i < |columns| ==> ColumnFits(columns[i])
    ensures Columns(EncodeColumns(columns), |columns|, before) == Ok(before + columns)
    decreases |columns|
  {
    if columns == [] {
      assert before + columns == before;
    } else {
      ColumnRoundTrip(columns[0], EncodeColumns(columns[1..]));
      ColumnsRoundTrip(columns[1..], before + [columns[0]]);
      assert before + [columns[0]] + columns[1..] == before + columns;
    }
  }

  lemma RelationRoundTrip(r: Relation, xid: nat, streaming: bool)
    requires RelationFits(r) && U32(xid)
    ensures DecodeRelation(EncodePlain(Describe(r), EncodeXid(xid, streaming)), streaming) == Ok(r)
  {
    hide ToBig, Field, CString, ReadCString, Pow256, EncodeXid, ReadXid, SkipXid;
    Widths();
    var s5 := ToBig(2, |r.columns|) + EncodeColumns(r.columns);
    var s4 := [r.replicaIdentity] + s5;
    var s3 := CString(r.name) + s4;
    var s2 := CString(r.namespace) + s3;
    var s1 := ToBig(4, r.id) + s2;
    TagByte(TAG_RELATION, EncodeXid(xid, streaming) + s1);
    XidRoundTrip(xid, streaming, s1);
    FieldOf(4, r.id, s2);
    CStringRoundTrip(r.namespace, s3);
    CStringRoundTrip(r.name, s4);
    TagByte(r.replicaIdentity, s5);
    FieldOf(2, |r.columns|, EncodeColumns(r.columns));
    DropDrop(s4, 1, 2);
    ColumnsRoundTrip(r.columns, []);
    assert [] + r.columns == r.columns;
  }

  lemma TypeRoundTrip(m: Message, xid: nat, streaming: bool)
    requires m.TypeName? && PlainFits(m) && U32(xid)
    ensures DecodeType(EncodePlain(m, EncodeXid(xid, streaming)), streaming) == Ok(m)
  {
    Widths();
    var s3 := CString(m.name);
    var s2 := CString(m.namespace) + s3;
    var s1 := ToBig(4, m.typeOid) + s2;
    TagByte(TAG_TYPE, EncodeXid(xid, streaming) + s1);
    XidRoundTrip(xid, streaming, s1);
    FieldOf(4, m.typeOid, s2);
    CStringRoundTrip(m.namespace, s3);
    CStringRoundTrip(m.name, []);
    assert s3 + [] == s3;
  }

  lemma EmittedRoundTrip(m: Message, xid: nat, streaming: bool)
    requires m.Emitted? && PlainFits(m) && U32(xid)
    ensures DecodeMessage(EncodePlain(m, EncodeXid(xid, streaming)), streaming) == Ok(m)
  {
    hide ToBig, Field, CString, ReadCString, Pow256, EncodeXid, ReadXid, SkipXid;
    Widths();
    var s4 := ToBig(4, |m.content|) + m.content;
    var s3 := CString(m.prefix) + s4;
    var s2 := ToBig(8, m.lsn) + s3;
    var flag := Flag(m.transactional);
    var s1 := [flag] + s2;
    TagByte(TAG_MESSAGE, EncodeXid(xid, streaming) + s1);
    XidRoundTrip(xid, streaming, s1);
    TagByte(flag, s2);
    FieldOf(8, m.lsn, s3);
    DropDrop(s1, 1, 8);
    CStringRoundTrip(m.prefix, s4);
    FieldOf(4, |m.content|, m.content);
    assert m.content[..|m.content|] == m.content;
  }

  lemma OriginRoundTrip(m: Message)
    requires m.Origin? && PlainFits(m)
    ensures DecodeOrigin(EncodePlain(m, [])) == Ok(m)
  {
    Widths();
    var s2 := CString(m.name);
    var s1 := ToBig(8, m.originLsn) + s2;
    TagByte(TAG_ORIGIN, s1);
    FieldOf(8, m.originLsn, s2);
    DropDrop([TAG_ORIGIN] + s1, 1, 8);
    CStringRoundTrip(m.name, []);
    assert s2 + [] == s2;
  }

  lemma BeginRoundTrip(m: Message)
    requires m.Begin? && PlainFits(m)
    ensures DecodeBegin(EncodePlain(m, [])) == Ok(m)
  {
    Widths();
    var s3 := ToBig(4, m.xid);
    var s2 := ToBig(8, m.commitTime) + s3;
    var s1 := ToBig(8, m.finalLsn) + s2;
    TagByte(TAG_BEGIN, s1);
    FieldOf(8, m.finalLsn, s2);
    FieldOf(8, m.commitTime, s3);
    FieldOf(4, m.xid, []);
    assert s3 + [] == s3;
    DropDrop([TAG_BEGIN] + s1, 1, 8);
    DropDrop([TAG_BEGIN] + s1, 9, 8);
  }

  lemma {:induction false} CommitFields(head: Text, lsn: nat, end: nat, time: nat)
    requires U64(lsn) && U64(end) && U64(time)
    ensures var s := head + (ToBig(8, lsn) + (ToBig(8, end) + ToBig(8, time)));
            && Field(8, Drop(s, |head|)) == lsn
            && Field(8, Drop(s, |head| + 8)) == end
            && Field(8, Drop(s, |head| + 16)) == time
  {
    hide ToBig, FromBig, Pow256;
    Widths();
    var s3 := ToBig(8, time);
    var s2 := ToBig(8, end) + s3;
    var s1 := ToBig(8, lsn) + s2;
    SplitAt(head, s1);
    FieldOf(8, lsn, s2);
    FieldOf(8, end, s3);
    FieldOf(8, time, []);
    assert s3 + [] == s3;
    DropDrop(head + s1, |head|, 8);
    DropDrop(head + s1, |head| + 8, 8);
  }

  lemma CommitRoundTrip(m: Message)
    requires m.Commit? && PlainFits(m)
    ensures DecodeCommit(EncodePlain(m, [])) == Ok(m)
  {
    hide ToBig, Field;
    var head := [TAG_COMMIT] + [m.flags];
    var tail := ToBig(8, m.commitLsn) + (ToBig(8, m.endLsn) + ToBig(8, m.commitTime));
    assert EncodePlain(m, []) == head + tail;
    CommitFields(head, m.commitLsn, m.endLsn, m.commitTime);
  }

  lemma StreamCommitRoundTrip(m: Message)
    requires m.StreamCommit? && PlainFits(m)
    ensures DecodeStreamCommit(EncodePlain(m, [])) == Ok(m)
  {
    Widths();
    var head := [TAG_STREAM_COMMIT] + (ToBig(4, m.xid) + [0]);
    var tail := ToBig(8, m.commitLsn) + (ToBig(8, m.endLsn) + ToBig(8, m.commitTime));
    assert EncodePlain(m, []) == head + tail;
    CommitFields(head, m.commitLsn, m.endLsn, m.commitTime);
    TagByte(TAG_STREAM_COMMIT, ToBig(4, m.xid) + ([0] + tail));
    FieldOf(4, m.xid, [0] + tail);
  }

  lemma StreamMarkersRoundTrip(m: Message)
    requires (m.StreamStart? || m.StreamStop? || m.StreamAbort?) && PlainFits(m)
    ensures m.StreamStart? ==> DecodeStreamStart(EncodePlain(m, [])) == Ok(m)
    ensures m.StreamStop? ==> DecodeStreamStop(EncodePlain(m, [])) == Ok(m)
    ensures m.StreamAbort? ==> DecodeStreamAbort(EncodePlain(m, [])) == Ok(m)
  {
    Widths();
    if m.StreamStart? {
      FieldOf(4, m.xid, [Flag(m.firstSegment)]);
      TagByte(TAG_STREAM_START, ToBig(4, m.xid) + [Flag(m.firstSegment)]);
    } else if m.StreamAbort? {
      var sub := ToBig(4, m.abortedXid);
      FieldOf(4, m.xid, sub);
      FieldOf(4, m.abortedXid, []);
      assert sub + [] == sub;
      TagByte(TAG_STREAM_ABORT, ToBig(4, m.xid) + sub);
      DropDrop(EncodePlain(m, []), 1, 4);
    }
  }

  // ---- what a row message stands for ----

  lemma {:induction false} TruncatedTables(ids: seq<nat>, catalog: Catalog)
    requires forall i :: 0 <= i < |ids| ==> Known(catalog, ids[i])
    ensures |Truncated(ids, catalog)| == |ids|
    ensures forall i :: 0 <= i < |ids| ==>
                          Truncated(ids, catalog)[i] == ChangeEvent(TRUNCATE, Names(ids, catalog)[i], None, None)
  {
    if ids != [] {
      TruncatedTables(ids[1..], catalog);
    }
  }

  /** The change events of a decoded row message are what the write did, in every bracket. */
  lemma EventsOfOp(op: RowOp, catalog: Catalog, tag: Option<nat>)
    requires OpFits(op, catalog)
    ensures Events(OpMessage(op, catalog, tag)) == RowChanges(op, catalog)
  {
    hide RowOf, KeyRow, Names, Truncated, TableName;
    if op.TruncateTables? {
      TruncatedTables(op.ids, catalog);
      assert Events(OpMessage(op, catalog, tag)) == Truncated(op.ids, catalog);
    }
  }

  // ---- whole streams ----

  function NextCatalog(p: Packet, catalog: Catalog): Catalog {
    if p.content.Plain? && p.content.message.Describe?
    then catalog[p.content.message.relation.id := p.content.message.relation]
    else catalog
  }

  function NextBracket(p: Packet, streaming: bool): bool {
    if p.content.Plain? && p.content.message.StreamStart? then true
    else if p.content.Plain? && p.content.message.StreamStop? then false
    else streaming
  }

  lemma PlainLead(m: Message, x: Text)
    requires PlainFits(m)
    ensures EncodePlain(m, x) != [] && EncodePlain(m, x)[0] == PlainTag(m)
  {
    hide ToBig;
  }

  lemma Untagged(m: Message, x: Text)
    requires PlainFits(m) && !m.Describe? && !m.TypeName? && !m.Emitted?
    ensures EncodePlain(m, x) == EncodePlain(m, [])
  {
  }

  /** The messages whose layout has no Xid field, whatever the bracket. */
  lemma UntaggedRoundTrip(m: Message, x: Text, d: DecoderState)
    requires PlainFits(m)
    requires m.Begin? || m.Commit? || m.Origin? || m.StreamCommit? || m.StreamAbort?
    ensures Decode(d, EncodePlain(m, x)) == (d, Ok(m))
  {
    hide EncodePlain, DecodeBegin, DecodeCommit, DecodeOrigin, DecodeStreamCommit, DecodeStreamAbort;
    Untagged(m, x);
    PlainLead(m, x);
    match m
    case Begin(_, _, _) => BeginRoundTrip(m);
    case Commit(_, _, _, _) => CommitRoundTrip(m);
    case Origin(_, _) => OriginRoundTrip(m);
    case StreamCommit(_, _, _, _) => StreamCommitRoundTrip(m);
    case StreamAbort(_, _) => StreamMarkersRoundTrip(m);
  }

  lemma MarkerRoundTrip(m: Message, x: Text, d: DecoderState)
    requires PlainFits(m) && (m.StreamStart? || m.StreamStop?)
    ensures Decode(d, EncodePlain(m, x)) == (d.(streaming := m.StreamStart?), Ok(m))
  {
    hide ToBig, FromBig, Pow256;
    assert EncodePlain(m, x) == EncodePlain(m, []);
    StreamMarkersRoundTrip(m);
  }

  lemma TaggedRoundTrip(m: Message, xid: nat, d: DecoderState)
    requires PlainFits(m) && U32(xid) && (m.Describe? || m.TypeName? || m.Emitted?)
    ensures Decode(d, EncodePlain(m, EncodeXid(xid, d.streaming)))
            == (if m.Describe? then d.(relations := d.relations[m.relation.id := m.relation]) else d, Ok(m))
  {
    hide ToBig, FromBig, Pow256, DecodeRelation, DecodeType, DecodeMessage;
    match m
    case Describe(r) => RelationRoundTrip(r, xid, d.streaming);
    case TypeName(_, _, _) => TypeRoundTrip(m, xid, d.streaming);
    case Emitted(_, _, _, _) => EmittedRoundTrip(m, xid, d.streaming);
  }

  /** Decoding one encoded packet gives its meaning; the decoder then knows what the packet taught it. */
  lemma DecodeEncode(p: Packet, d: DecoderState)
    requires Fits(p, d.relations)
    ensures Decode(d, Encode(p, d.streaming))
            == (DecoderState(NextCatalog(p, d.relations), NextBracket(p, d.streaming)),
                Ok(Meaning(p, d.relations, d.streaming)))
  {
    hide Decode, EncodePlain, EncodeOp, EncodeXid, OpMessage;
    match p.content
    case Change(op) => OpRoundTrip(op, p.xid, d);
    case Plain(m) =>
      if m.Describe? || m.TypeName? || m.Emitted? {
        TaggedRoundTrip(m, p.xid, d);
      } else if m.StreamStart? || m.StreamStop? {
        MarkerRoundTrip(m, EncodeXid(p.xid, d.streaming), d);
      } else {
        UntaggedRoundTrip(m, EncodeXid(p.xid, d.streaming), d);
      }
  }

  /** The most recent description of `id` in a stream so far. */
  function LatestRelation(ps: seq<Packet>, id: nat): Option<Relation> {
    if ps == [] then None
    else
      var last := ps[|ps| - 1].content;
      if last.Plain? && last.message.Describe? && last.message.relation.id == id then Some(last.message.relation)
      else LatestRelation(ps[..|ps| - 1], id)
  }

  /** Whether the last bracket marker of a stream so far is a StreamStart. */
  predicate InBracket(ps: seq<Packet>) {
    if ps == [] then false
    else
      var last := ps[|ps| - 1].content;
      if last.Plain? && last.message.StreamStart? then true
      else if last.Plain? && last.message.StreamStop? then false
      else InBracket(ps[..|ps| - 1])
  }

  /** The tables described so far, each as its latest Relation message has it. */
  function Described(ps: seq<Packet>): Catalog {
    if ps == [] then map[] else NextCatalog(ps[|ps| - 1], Described(ps[..|ps| - 1]))
  }

  /** Looking a table up gives its last description in the stream, and an error when there was none. */
  lemma {:induction false} DescribedIsLatest(ps: seq<Packet>, id: nat)
    ensures LatestRelation(ps, id) == if id in Described(ps) then Some(Described(ps)[id]) else None
    ensures Lookup(Described(ps), id) == match LatestRelation(ps, id)
                                         case None => Err(DecodeError)
                                         case Some(r) => Ok(r)
    decreases |ps|
  {
    if ps != [] {
      DescribedIsLatest(ps[..|ps| - 1], id);
    }
  }

  /** Each packet fits the tables described before it. */
  predicate WellFormed(ps: seq<Packet>) {
    forall i :: 0 <= i < |ps| ==> Fits(ps[i], Described(ps[..i]))
  }

  /** The bytes on the wire, one payload per packet. */
  function Sent(ps: seq<Packet>): (payloads: seq<Text>)
    requires WellFormed(ps)
    ensures |payloads| == |ps|
  {
    seq(|ps|, i requires 0 <= i < |ps| => assert Fits(ps[i], Described(ps[..i])); Encode(ps[i], InBracket(ps[..i])))
  }

  function After(payloads: seq<Text>): DecoderState {
    if payloads == [] then FRESH_DECODER
    else Decode(After(payloads[..|payloads| - 1]), payloads[|payloads| - 1]).0
  }

  lemma {:induction false} DecoderTracks(ps: seq<Packet>, n: nat)
    requires WellFormed(ps) && n <= |ps|
    ensures After(Sent(ps)[..n]) == DecoderState(Described(ps[..n]), InBracket(ps[..n]))
  {
    if n > 0 {
      DecoderTracks(ps, n - 1);
      assert Sent(ps)[..n][..n - 1] == Sent(ps)[..n - 1];
      assert ps[..n][..n - 1] == ps[..n - 1];
      assert Fits(ps[n - 1], Described(ps[..n - 1]));
      hide Encode, Decode, Fits, Meaning;
      DecodeEncode(ps[n - 1], After(Sent(ps)[..n - 1]));
    }
  }

  /**
   Any well-formed stream decodes message by message to what it means: rows are read with the latest
   description of their table, and a subtransaction id is present exactly inside brackets.
   */
  lemma StreamRoundTrip(ps: seq<Packet>, i: nat)
    requires WellFormed(ps) && i < |ps|
    ensures Fits(ps[i], Described(ps[..i]))
    ensures Decode(After(Sent(ps)[..i]), Sent(ps)[i]).1
            == Ok(Meaning(ps[i], Described(ps[..i]), InBracket(ps[..i])))
    ensures forall id :: LatestRelation(ps[..i], id)
                         == if id in Described(ps[..i]) then Some(Described(ps[..i])[id]) else None
  {
    DecoderTracks(ps, i);
    DecodeEncode(ps[i], After(Sent(ps)[..i]));
    forall id
      ensures LatestRelation(ps[..i], id) == if id in Described(ps[..i]) then Some(Described(ps[..i])[id]) else None
    {
      DescribedIsLatest(ps[..i], id);
    }
  }
}
