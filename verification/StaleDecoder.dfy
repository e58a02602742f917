/**
 A decoder whose bracket flag was left on by a lost connection, and what it makes of messages that the server
 lays out without an Xid field (pgoutput.py).
 */
module StaleDecoder {
  import opened Wrappers
  import opened Bytes
  import opened Messages
  import opened Pgoutput
  import opened WireFormat
  import opened WireRoundTrip

  /** PostgreSQL keeps every field value below 1 GB. */
  predicate ShortTexts(cells: seq<Cell>) {
    forall i :: 0 <= i < |cells| && cells[i].Value? ==> |cells[i].text| < 0x4000_0000
  }

  /** The second byte of what the tuples send, or nothing. */
  function Second(s: Text): Text {
    Take(Drop(s, 1), 1)
  }

  predicate Marker(s: Text) {
    s == [NEW_TUPLE] || s == [KEY_TUPLE] || s == [OLD_TUPLE]
  }

  lemma LengthLead(n: nat)
    requires n < 0x4000_0000
    ensures ToBig(4, n)[0] < 64
  {
    var a := n / 256;
    var b := a / 256;
    assert ToBig(4, n)[0] == ToBig(3, a)[0] == ToBig(2, b)[0] == ToBig(1, b / 256)[0];
  }

  lemma SecondOfValue(text: Text, others: Text)
    requires |text| < 0x4000_0000
    ensures !Marker(Second(EncodeCell(Value(text)) + others))
  {
    LengthLead(|text|);
    var length := ToBig(4, |text|);
    hide ToBig;
    assert EncodeCell(Value(text)) + others == [CELL_TEXT] + (length + (text + others));
    TagByte(CELL_TEXT, length + (text + others));
    assert Second([CELL_TEXT] + (length + (text + others))) == [length[0]];
  }

  lemma FirstOfCell(c: Cell, others: Text)
    ensures EncodeCell(c) != [] && !Marker(Take(EncodeCell(c) + others, 1))
  {
    assert EncodeCell(c)[0] == CELL_NULL || EncodeCell(c)[0] == CELL_UNCHANGED || EncodeCell(c)[0] == CELL_TEXT;
    hide EncodeCell;
    assert Take(EncodeCell(c) + others, 1) == [EncodeCell(c)[0]];
  }

  lemma SecondOfMark(c: Cell, others: Text)
    requires !c.Value?
    ensures Second(EncodeCell(c) + others) == Take(others, 1)
  {
    TagByte(if c.Null? then CELL_NULL else CELL_UNCHANGED, others);
  }

  lemma CellsFront(cells: seq<Cell>, rest: Text)
    requires cells != []
    ensures EncodeCells(cells) + rest == EncodeCell(cells[0]) + (EncodeCells(cells[1..]) + rest)
  {
    hide EncodeCell;
  }

  /** After one whole tuple the second byte is no marker, except past a lone cell without text. */
  lemma SecondByte(cells: seq<Cell>, rest: Text)
    requires cells != [] && ShortTexts(cells)
    ensures if |cells| == 1 && !cells[0].Value? then Second(EncodeCells(cells) + rest) == Take(rest, 1)
            else !Marker(Second(EncodeCells(cells) + rest))
  {
    hide EncodeCell, EncodeCells, Second, Take;
    var others := EncodeCells(cells[1..]) + rest;
    CellsFront(cells, rest);
    if cells[0].Value? {
      SecondOfValue(cells[0].text, others);
    } else {
      SecondOfMark(cells[0], others);
      if |cells| == 1 {
        NoCells(rest);
      } else {
        CellsFront(cells[1..], rest);
        FirstOfCell(cells[1], EncodeCells(cells[1..][1..]) + rest);
      }
    }
  }

  lemma TupleLayout(marker: byte, cells: seq<Cell>, rest: Text)
    ensures [marker] + (EncodeTuple(cells) + rest) == ([marker] + ToBig(2, |cells|)) + (EncodeCells(cells) + rest)
    ensures |[marker] + ToBig(2, |cells|)| == 3
  {
    hide ToBig, EncodeCells;
  }

  /** A tuple after its marker byte, from the fifth byte of the two together. */
  lemma PastCount(marker: byte, cells: seq<Cell>, rest: Text)
    ensures Drop([marker] + (EncodeTuple(cells) + rest), 4) == Drop(EncodeCells(cells) + rest, 1)
  {
    hide ToBig, EncodeCells, EncodeTuple;
    TupleLayout(marker, cells, rest);
    var t := EncodeCells(cells) + rest;
    var head := [marker] + ToBig(2, |cells|);
    SplitAt(head, t);
    DropDrop(head + t, 3, 1);
  }

  lemma TakeOneMore(head: Text, t: Text)
    requires t != []
    ensures Take(head + t, |head| + 1) == head + [t[0]]
  {
    assert head + t == (head + [t[0]]) + t[1..];
    SplitAt(head + [t[0]], t[1..]);
  }

  lemma UpToCount(marker: byte, cells: seq<Cell>, rest: Text)
    requires cells != []
    ensures EncodeCells(cells) != []
    ensures Take([marker] + (EncodeTuple(cells) + rest), 4) == [marker] + ToBig(2, |cells|) + [EncodeCells(cells)[0]]
  {
    hide ToBig, EncodeCells, EncodeTuple, Take;
    CellsNotEmpty(cells);
    TupleLayout(marker, cells, rest);
    TakeOneMore([marker] + ToBig(2, |cells|), EncodeCells(cells) + rest);
  }

  lemma CellsNotEmpty(cells: seq<Cell>)
    requires cells != []
    ensures EncodeCells(cells) != []
  {
    FirstOfCell(cells[0], []);
  }

  /** What a row change leaves to read once its tag is read and its relation id taken for an Xid field. */
  lemma Shifted(tag: byte, id: nat, s: Text)
    requires U32(id)
    ensures var p := Drop([tag] + ([] + (ToBig(4, id) + s)), 1);
            SkipXid(p, true) == s && ReadXid(p, true) == Some(id)
  {
    Widths();
    var body := ToBig(4, id) + s;
    assert [] + body == body;
    TagByte(tag, body);
    FieldOf(4, id, s);
  }

  lemma NoCells(rest: Text)
    ensures EncodeCells([]) + rest == rest
  {
  }

  /** The fifth byte past the tag is no marker, for the new tuple of an Insert or the old one of a Delete. */
  lemma NoMarker(marker: byte, cells: seq<Cell>)
    requires ShortTexts(cells)
    ensures !Marker(Take(Drop([marker] + EncodeTuple(cells), 4), 1))
  {
    PastCount(marker, cells, []);
    hide EncodeTuple, EncodeCells;
    assert EncodeTuple(cells) + [] == EncodeTuple(cells);
    if cells == [] {
      NoCells([]);
    } else {
      SecondByte(cells, []);
      assert Take([], 1) == [];
    }
  }

  /** An Insert that was laid out without an Xid field is refused. */
  lemma StaleInsert(d: DecoderState, id: nat, cells: seq<Cell>)
    requires d.streaming && U32(id) && ShortTexts(cells)
    ensures Decode(d, EncodeOp(InsertRow(id, cells), [])) == (d, Err(DecodeError))
  {
    hide ToBig, EncodeTuple, Field, TupleData, Take, Drop, SkipXid, ReadXid;
    var s := [NEW_TUPLE] + EncodeTuple(cells);
    TagByte(TAG_INSERT, [] + (ToBig(4, id) + s));
    Shifted(TAG_INSERT, id, s);
    NoMarker(NEW_TUPLE, cells);
  }

  /** So is a Delete. */
  lemma StaleDelete(d: DecoderState, id: nat, image: OldImage)
    requires d.streaming && U32(id) && !image.NoImage? && ShortTexts(image.cells)
    ensures Decode(d, EncodeOp(DeleteRow(id, image), [])) == (d, Err(DecodeError))
  {
    hide ToBig, EncodeTuple, Field, TupleData, OldTuple, Take, Drop, SkipXid, ReadXid;
    var marker := if image.KeyImage? then KEY_TUPLE else OLD_TUPLE;
    var s := [marker] + EncodeTuple(image.cells);
    assert EncodeImage(image) == s;
    TagByte(TAG_DELETE, [] + (ToBig(4, id) + s));
    Shifted(TAG_DELETE, id, s);
    NoMarker(marker, image.cells);
  }

  /** The relation id read from the start of an old tuple with one cell without text. */
  function MisreadId(image: OldImage): nat
    requires !image.NoImage? && |image.cells| == 1
  {
    FromBig([if image.KeyImage? then KEY_TUPLE else OLD_TUPLE] + ToBig(2, 1) + [EncodeCells(image.cells)[0]])
  }

  /** An Update whose old tuple is one cell without text, when the misread id happens to name a table of one column. */
  predicate Misread(image: OldImage, relations: Catalog) {
    && !image.NoImage? && |image.cells| == 1 && !image.cells[0].Value?
    && MisreadId(image) in relations && |relations[MisreadId(image)].columns| == 1
  }

  /** So is an Update, except a misread one, which comes out for the wrong table. */
  lemma StaleUpdate(d: DecoderState, id: nat, image: OldImage, cells: seq<Cell>)
    requires d.streaming && U32(id) && |cells| < 0x1_0000 && ShortTexts(cells)
    requires !image.NoImage? ==> |image.cells| == |cells| && ShortTexts(image.cells)
    ensures Decode(d, EncodeOp(UpdateRow(id, image, cells), []))
            == (d, if Misread(image, d.relations)
                   then
                     var other := d.relations[MisreadId(image)];
                     Ok(Update(MisreadId(image), other.QualifiedName(), None, RowOf(other.columns, cells), Some(id)))
                   else Err(DecodeError))
  {
    hide ToBig, FromBig, EncodeTuple, EncodeCells, TupleData, OldTuple, EncodeImage, Take, Drop, SkipXid, ReadXid, Field,
         MisreadId;
    var tuple := [NEW_TUPLE] + EncodeTuple(cells);
    var s := EncodeImage(image) + tuple;
    TagByte(TAG_UPDATE, [] + (ToBig(4, id) + s));
    Shifted(TAG_UPDATE, id, s);
    if image.NoImage? {
      NoOldTuple(tuple);
      NoMarker(NEW_TUPLE, cells);
    } else {
      StaleUpdateImage(d, image, cells);
      TagByte(NEW_TUPLE, EncodeTuple(cells));
    }
  }

  lemma NoOldTuple(tuple: Text)
    ensures EncodeImage(NoImage) + tuple == tuple
  {
  }

  lemma StaleUpdateImage(d: DecoderState, image: OldImage, cells: seq<Cell>)
    requires !image.NoImage? && |image.cells| == |cells| < 0x1_0000 && ShortTexts(image.cells) && ShortTexts(cells)
    ensures var s := EncodeImage(image) + ([NEW_TUPLE] + EncodeTuple(cells));
            if |image.cells| == 1 && !image.cells[0].Value?
            then
              && Field(4, s) == MisreadId(image) && Drop(s, 4) == [NEW_TUPLE] + EncodeTuple(cells)
              && (forall columns :: TupleData(EncodeTuple(cells), columns)
                                    == if |columns| == 1 then Ok((RowOf(columns, cells), [])) else Err(DecodeError))
            else !Marker(Take(Drop(s, 4), 1))
  {
    hide ToBig, FromBig, EncodeTuple, EncodeCells, TupleData, Take, Drop;
    var marker := if image.KeyImage? then KEY_TUPLE else OLD_TUPLE;
    var tuple := [NEW_TUPLE] + EncodeTuple(cells);
    var s := EncodeImage(image) + tuple;
    assert s == [marker] + (EncodeTuple(image.cells) + tuple);
    PastCount(marker, image.cells, tuple);
    if image.cells == [] {
      NoCells(tuple);
      EmptyTuple(tuple);
    } else {
      SecondByte(image.cells, tuple);
      if |image.cells| == 1 && !image.cells[0].Value? {
        UpToCount(marker, image.cells, tuple);
        LoneCell(image.cells, tuple);
        forall columns
          ensures TupleData(EncodeTuple(cells), columns)
               == if |columns| == 1 then Ok((RowOf(columns, cells), [])) else Err(DecodeError)
        {
          LoneTuple(columns, cells);
        }
      }
    }
  }

  /** Such an id can be one that a table has. */
  lemma MisreadIds()
    ensures MisreadId(FullImage([Null])) == 0x4F00_016E && MisreadId(KeyImage([Null])) == 0x4B00_016E
  {
    assert ToBig(1, 0) == [0] && ToBig(2, 1) == [0, 1];
    assert EncodeCells([Null]) == [CELL_NULL];
    ThreeMore(OLD_TUPLE);
    ThreeMore(KEY_TUPLE);
  }

  lemma ThreeMore(marker: byte)
    ensures FromBig([marker] + [0, 1] + [CELL_NULL]) == marker as nat * 0x100_0000 + 0x16E
  {
    var s := [marker] + [0, 1] + [CELL_NULL];
    assert s[..3] == [marker, 0, 1] && s[..3][..2] == [marker, 0] && [marker, 0][..1] == [marker] && [marker][..0] == [];
    assert FromBig([marker]) == marker as nat;
    assert FromBig([marker, 0]) == marker as nat * 256;
    assert FromBig(s[..3]) == marker as nat * 0x1_0000 + 1;
  }

  lemma EmptyTuple(tuple: Text)
    requires tuple == [NEW_TUPLE] + EncodeTuple([])
    ensures !Marker(Second(tuple))
  {
    assert ToBig(1, 0) == [0] && ToBig(2, 0) == [0, 0];
    assert EncodeTuple([]) == [0, 0];
  }

  lemma LoneCell(cells: seq<Cell>, rest: Text)
    requires |cells| == 1 && !cells[0].Value?
    ensures Drop(EncodeCells(cells) + rest, 1) == rest
  {
    NoCells([]);
    assert EncodeCells(cells) == EncodeCell(cells[0]) + EncodeCells([]);
  }

  lemma LoneTuple(columns: seq<Column>, cells: seq<Cell>)
    requires |cells| == 1 && ShortTexts(cells)
    ensures TupleData(EncodeTuple(cells), columns)
            == if |columns| == 1 then Ok((RowOf(columns, cells), [])) else Err(DecodeError)
  {
    assert EncodeTuple(cells) + [] == EncodeTuple(cells);
    if |columns| == 1 {
      TupleRoundTrip(columns, cells, []);
    } else {
      Widths();
      FieldOf(2, 1, EncodeCells(cells));
    }
  }

  /** A Truncate of no tables runs out of bytes. */
  lemma StaleEmptyTruncate(d: DecoderState, cascade: bool, restart: bool)
    requires d.streaming
    ensures Decode(d, EncodeOp(TruncateTables([], cascade, restart), [])) == (d, Err(IndexError))
  {
    hide ToBig, Field, TableNames;
    Widths();
    var s := [TruncateFlags(cascade, restart)] + EncodeIds([]);
    Shifted(TAG_TRUNCATE, 0, s);
  }

  /** Whatever is read, it is a row change, and nothing is learned from it. */
  lemma StaleKind(d: DecoderState, op: RowOp)
    ensures var (e, r) := Decode(d, EncodeOp(op, []));
            e == d && (r.Ok? ==> r.value.RowChange())
  {
    OpLead(op, []);
    hide EncodeOp;
    match op
    case InsertRow(_, _) =>
    case UpdateRow(_, _, _) =>
    case DeleteRow(_, _) =>
    case TruncateTables(_, _, _) =>
  }

  // ---- a table described again ----

  lemma {:induction false} ToFromBig(s: Text)
    ensures ToBig(|s|, FromBig(s)) == s
  {
    if s != [] {
      ToFromBig(s[..|s| - 1]);
    }
  }

  /** Another table's description inside a bracket with the very same bytes. */
  function Shadow(r: Relation): Relation
    requires |r.namespace| >= 4
  {
    r.(id := FromBig(r.namespace[..4]), namespace := r.namespace[4..])
  }

  lemma ShadowFits(r: Relation)
    requires RelationFits(r) && |r.namespace| >= 4
    ensures RelationFits(Shadow(r))
  {
    Widths();
    BigBound(r.namespace[..4]);
  }

  lemma SameBytes(r: Relation)
    requires RelationFits(r) && |r.namespace| >= 4 && RelationFits(Shadow(r))
    ensures EncodePlain(Describe(r), []) == EncodePlain(Describe(Shadow(r)), EncodeXid(r.id, true))
  {
    ToFromBig(r.namespace[..4]);
    hide ToBig, FromBig;
    var rest := CString(r.name) + ([r.replicaIdentity] + (ToBig(2, |r.columns|) + EncodeColumns(r.columns)));
    assert r.namespace == r.namespace[..4] + r.namespace[4..];
    assert CString(r.namespace) + rest == r.namespace[..4] + (CString(r.namespace[4..]) + rest);
    assert [] + (ToBig(4, r.id) + (CString(r.namespace) + rest)) == ToBig(4, r.id) + (CString(r.namespace) + rest);
  }

  /** A Relation is read as that other table's, its id the first four bytes of the schema name. */
  lemma StaleRelation(d: DecoderState, r: Relation)
    requires d.streaming && RelationFits(r) && |r.namespace| >= 4
    ensures Decode(d, EncodePlain(Describe(r), []))
            == (d.(relations := d.relations[Shadow(r).id := Shadow(r)]), Ok(Describe(Shadow(r))))
  {
    ShadowFits(r);
    SameBytes(r);
    TaggedRoundTrip(Describe(Shadow(r)), r.id, d);
  }

  /** The bytes of a description after the table's id. */
  function AfterId(r: Relation): Text
    requires RelationFits(r)
  {
    CString(r.namespace) + (CString(r.name)
      + ([r.replicaIdentity] + (ToBig(2, |r.columns|) + EncodeColumns(r.columns))))
  }

  /** For a shorter schema name too, what is stored goes under an id read from the bytes after the table's own. */
  lemma StaleRelationId(d: DecoderState, r: Relation)
    requires d.streaming && RelationFits(r)
    ensures var (e, q) := Decode(d, EncodePlain(Describe(r), []));
            q.Ok? ==> q.value.Describe?
                      && q.value.relation.id == Field(4, AfterId(r))
                      && e.relations == d.relations[q.value.relation.id := q.value.relation]
  {
    hide ToBig, Field, ReadCString, Columns, AfterId, SkipXid, Take, Drop;
    LaidOut(r);
    Shifted(TAG_RELATION, r.id, AfterId(r));
    TagByte(TAG_RELATION, [] + (ToBig(4, r.id) + AfterId(r)));
  }

  lemma LaidOut(r: Relation)
    requires RelationFits(r)
    ensures EncodePlain(Describe(r), []) == [TAG_RELATION] + ([] + (ToBig(4, r.id) + AfterId(r)))
  {
  }
}
