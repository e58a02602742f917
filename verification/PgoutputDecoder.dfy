/** The decoder as the code runs it: loops over a moving offset, a relation cache and a bracket flag (pgoutput.py). */
module PgoutputDecoder {
  import opened Wrappers
  import opened Bytes
  import opened Messages
  import Pgoutput

  /** `_read_cstring(buf, offset)`: the string and the offset after its NUL. */
  function ReadCStringAt(buf: Text, offset: nat): (r: Result<(Text, nat)>)
    ensures ReadCString(Drop(buf, offset))
            == if r.Ok? then Ok((r.value.0, Drop(buf, r.value.1))) else Err(r.fault)
  {
    match ReadCString(Drop(buf, offset))
    case Err(fault) => Err(fault)
    case Ok((text, rest)) => Ok((text, |buf| - |rest|))
  }

  method DecodeRelation(payload: Text, streaming: bool) returns (r: Result<Relation>)
    ensures r == Pgoutput.DecodeRelation(payload, streaming)
  {
    hide Drop, Take, FromBig, FromBigSigned, Pow256, ReadCString, ReadCStringAt;
    if Take(payload, 1) != [Pgoutput.TAG_RELATION] {
      return Err(DecodeError);
    }
    var offset := 1;
    if streaming {
      DropDrop(payload, offset, 4);
      offset := offset + 4;
    }
    var id := Field(4, Drop(payload, offset));
    DropDrop(payload, offset, 4);
    offset := offset + 4;
    var namespaceEnd :- ReadCStringAt(payload, offset);
    offset := namespaceEnd.1;
    var nameEnd :- ReadCStringAt(payload, offset);
    offset := nameEnd.1;
    var identity :- Pgoutput.IndexByte(Drop(payload, offset));
    DropDrop(payload, offset, 1);
    DropDrop(payload, offset, 3);
    offset := offset + 1;
    var count := Field(2, Drop(payload, offset));
    DropDrop(payload, offset, 2);
    offset := offset + 2;
    var columns: seq<Column> := [];
    ghost var all := Pgoutput.Columns(Drop(payload, offset), count, []);
    var i := 0;
    while i < count
      invariant i <= count
      invariant all == Pgoutput.Columns(Drop(payload, offset), count - i, columns)
    {
      var flags :- Pgoutput.IndexByte(Drop(payload, offset));
      DropDrop(payload, offset, 1);
      offset := offset + 1;
      var name :- ReadCStringAt(payload, offset);
      offset := name.1;
      var typeOid := Field(4, Drop(payload, offset));
      DropDrop(payload, offset, 4);
      DropDrop(payload, offset, 8);
      offset := offset + 4;
      var typeModifier := FromBigSigned(Take(Drop(payload, offset), 4));
      offset := offset + 4;
      columns := columns + [Column(name.0, typeOid, typeModifier, flags % 2 == 1)];
      i := i + 1;
    }
    return Ok(Relation(id, namespaceEnd.0, nameEnd.0, identity, columns));
  }

  /** The row, and the offset after the tuple. */
  method DecodeTupleData(buf: Text, start: nat, columns: seq<Column>) returns (r: Result<(Row, nat)>)
    ensures Pgoutput.TupleData(Drop(buf, start), columns)
            == if r.Ok? then Ok((r.value.0, Drop(buf, r.value.1))) else Err(r.fault)
  {
    hide Drop, Take, FromBig;
    var offset := start;
    var count := Field(2, Drop(buf, offset));
    DropDrop(buf, offset, 2);
    offset := offset + 2;
    if count != |columns| {
      return Err(DecodeError);
    }
    var row: Row := map[];
    ghost var all := Pgoutput.Cells(Drop(buf, offset), columns, map[]);
    var i := 0;
    while i < |columns|
      invariant i <= |columns|
      invariant all == Pgoutput.Cells(Drop(buf, offset), columns[i..], row)
    {
      assert columns[i..][1..] == columns[i + 1..];
      var marker := Take(Drop(buf, offset), 1);
      DropDrop(buf, offset, 1);
      offset := offset + 1;
      if marker == [Pgoutput.CELL_NULL] {
        row := row[columns[i].name := None];
      } else if marker == [Pgoutput.CELL_UNCHANGED] {
      } else if marker == [Pgoutput.CELL_TEXT] {
        var length := Field(4, Drop(buf, offset));
        DropDrop(buf, offset, 4);
        offset := offset + 4;
        row := row[columns[i].name := Some(Take(Drop(buf, offset), length))];
        DropDrop(buf, offset, length);
        offset := offset + length;
      } else {
        return Err(DecodeError);
      }
      i := i + 1;
    }
    return Ok((row, offset));
  }

  /** `RelationCache`: last write wins. */
  class RelationCache {
    var relations: Pgoutput.Catalog

    constructor ()
      ensures relations == map[]
    {
      relations := map[];
    }

    method Add(relation: Relation)
      modifies this
      ensures relations == old(relations)[relation.id := relation]
    {
      relations := relations[relation.id := relation];
    }

    function Get(id: nat): Result<Relation>
      reads this
    {
      Pgoutput.Lookup(relations, id)
    }
  }

  method DecodeInsert(payload: Text, cache: RelationCache, streaming: bool) returns (r: Result<Message>)
    ensures r == Pgoutput.DecodeInsert(payload, cache.relations, streaming)
  {
    if Take(payload, 1) != [Pgoutput.TAG_INSERT] {
      return Err(DecodeError);
    }
    var offset := 1;
    var subxid := None;
    if streaming {
      subxid := Some(Field(4, Drop(payload, offset)));
      DropDrop(payload, offset, 4);
      offset := offset + 4;
    }
    var id := Field(4, Drop(payload, offset));
    DropDrop(payload, offset, 4);
    offset := offset + 4;
    if Take(Drop(payload, offset), 1) != [Pgoutput.NEW_TUPLE] {
      return Err(DecodeError);
    }
    DropDrop(payload, offset, 1);
    offset := offset + 1;
    var relation :- cache.Get(id);
    var row :- DecodeTupleData(payload, offset, relation.columns);
    return Ok(Insert(id, relation.QualifiedName(), row.0, subxid));
  }

  method DecodeUpdate(payload: Text, cache: RelationCache, streaming: bool) returns (r: Result<Message>)
    ensures r == Pgoutput.DecodeUpdate(payload, cache.relations, streaming)
  {
    if Take(payload, 1) != [Pgoutput.TAG_UPDATE] {
      return Err(DecodeError);
    }
    var offset := 1;
    var subxid := None;
    if streaming {
      subxid := Some(Field(4, Drop(payload, offset)));
      DropDrop(payload, offset, 4);
      offset := offset + 4;
    }
    var id := Field(4, Drop(payload, offset));
    DropDrop(payload, offset, 4);
    offset := offset + 4;
    var relation :- cache.Get(id);
    var before: Option<Row> := None;
    var marker := Take(Drop(payload, offset), 1);
    if marker == [Pgoutput.KEY_TUPLE] || marker == [Pgoutput.OLD_TUPLE] {
      DropDrop(payload, offset, 1);
      offset := offset + 1;
      var image :- DecodeTupleData(payload, offset, relation.columns);
      offset := image.1;
      before := Some(image.0);
      if marker == [Pgoutput.KEY_TUPLE] {
        var keys :- Pgoutput.RestrictToKeys(image.0, relation.columns);
        before := Some(keys);
      }
    }
    if Take(Drop(payload, offset), 1) != [Pgoutput.NEW_TUPLE] {
      return Err(DecodeError);
    }
    DropDrop(payload, offset, 1);
    offset := offset + 1;
    var row :- DecodeTupleData(payload, offset, relation.columns);
    return Ok(Update(id, relation.QualifiedName(), before, row.0, subxid));
  }

  method DecodeDelete(payload: Text, cache: RelationCache, streaming: bool) returns (r: Result<Message>)
    ensures r == Pgoutput.DecodeDelete(payload, cache.relations, streaming)
  {
    if Take(payload, 1) != [Pgoutput.TAG_DELETE] {
      return Err(DecodeError);
    }
    var offset := 1;
    var subxid := None;
    if streaming {
      subxid := Some(Field(4, Drop(payload, offset)));
      DropDrop(payload, offset, 4);
      offset := offset + 4;
    }
    var id := Field(4, Drop(payload, offset));
    DropDrop(payload, offset, 4);
    offset := offset + 4;
    var relation :- cache.Get(id);
    var marker := Take(Drop(payload, offset), 1);
    DropDrop(payload, offset, 1);
    offset := offset + 1;
    if marker != [Pgoutput.KEY_TUPLE] && marker != [Pgoutput.OLD_TUPLE] {
      return Err(DecodeError);
    }
    var image :- DecodeTupleData(payload, offset, relation.columns);
    var before := image.0;
    if marker == [Pgoutput.KEY_TUPLE] {
      before :- Pgoutput.RestrictToKeys(image.0, relation.columns);
    }
    return Ok(Delete(id, relation.QualifiedName(), before, subxid));
  }

  method DecodeTruncate(payload: Text, cache: RelationCache, streaming: bool) returns (r: Result<Message>)
    ensures r == Pgoutput.DecodeTruncate(payload, cache.relations, streaming)
  {
    if Take(payload, 1) != [Pgoutput.TAG_TRUNCATE] {
      return Err(DecodeError);
    }
    var offset := 1;
    var subxid := None;
    if streaming {
      subxid := Some(Field(4, Drop(payload, offset)));
      DropDrop(payload, offset, 4);
      offset := offset + 4;
    }
    var count := Field(4, Drop(payload, offset));
    DropDrop(payload, offset, 4);
    DropDrop(payload, offset, 5);
    offset := offset + 4;
    var flags :- Pgoutput.IndexByte(Drop(payload, offset));
    offset := offset + 1;
    var tables: seq<Text> := [];
    ghost var all := Pgoutput.TableNames(Drop(payload, offset), count, cache.relations, []);
    var i := 0;
    while i < count
      invariant i <= count
      invariant all == Pgoutput.TableNames(Drop(payload, offset), count - i, cache.relations, tables)
    {
      var id := Field(4, Drop(payload, offset));
      DropDrop(payload, offset, 4);
      offset := offset + 4;
      var relation :- cache.Get(id);
      tables := tables + [relation.QualifiedName()];
      i := i + 1;
    }
    return Ok(Truncate(tables, flags % 2 == 1, (flags / 2) % 2 == 1, subxid));
  }

  /** `Decoder`: one relation cache and one bracket flag for the client's lifetime. */
  class Decoder {
    const cache: RelationCache
    var streaming: bool

    ghost function View(): Pgoutput.DecoderState
      reads this, cache
    {
      Pgoutput.DecoderState(cache.relations, streaming)
    }

    constructor ()
      ensures fresh(cache) && View() == Pgoutput.FRESH_DECODER
    {
      cache := new RelationCache();
      streaming := false;
    }

    method Decode(payload: Text) returns (r: Result<Message>)
      modifies this, cache
      ensures (View(), r) == Pgoutput.Decode(old(View()), payload)
    {
      if payload == [] {
        return Err(DecodeError);
      }
      var kind := payload[0];
      if kind == Pgoutput.TAG_STREAM_START {
        var message :- Pgoutput.DecodeStreamStart(payload);
        streaming := true;
        return Ok(message);
      }
      if kind == Pgoutput.TAG_STREAM_STOP {
        streaming := false;
        return Pgoutput.DecodeStreamStop(payload);
      }
      if kind == Pgoutput.TAG_RELATION {
        var relation :- DecodeRelation(payload, streaming);
        cache.Add(relation);
        return Ok(Describe(relation));
      }
      if kind == Pgoutput.TAG_INSERT {
        r := DecodeInsert(payload, cache, streaming);
      } else if kind == Pgoutput.TAG_UPDATE {
        r := DecodeUpdate(payload, cache, streaming);
      } else if kind == Pgoutput.TAG_DELETE {
        r := DecodeDelete(payload, cache, streaming);
      } else if kind == Pgoutput.TAG_TRUNCATE {
        r := DecodeTruncate(payload, cache, streaming);
      } else {
        r := Pgoutput.DecodeByTag(Pgoutput.DecoderState(cache.relations, streaming), payload);
      }
    }
  }
}
