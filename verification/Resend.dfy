/**
 A connection lost in the middle of a transaction, in a process that goes on: decoder and assembler are not
 reset, while the server sends every unfinished transaction again from its beginning.
 */
module Resend {
  import opened Wrappers
  import opened Bytes
  import opened Messages
  import opened Pgoutput
  import opened WireFormat
  import opened Assembler
  import opened Chunking
  import opened Pipeline
  import EndToEnd
  import Isolation
  import StaleDecoder
  import WireRoundTrip

  // ---- payloads laid out for the server's own bracket ----

  function NextDecoder(d: DecoderState, k: Packet): DecoderState {
    EndToEnd.NextDecoder(d, k)
  }

  /** Packets that a decoder in step with the server reads as meant, none of them dropped before the assembler. */
  predicate Readable(ps: seq<Packet>, d: DecoderState)
    decreases |ps|
  {
    ps == [] ||
    (Fits(ps[0], d.relations) && !Meaning(ps[0], d.relations, d.streaming).Ignored()
     && Readable(ps[1..], NextDecoder(d, ps[0])))
  }

  /** What those packets mean. */
  function Meant(ps: seq<Packet>, d: DecoderState): seq<Message>
    requires Readable(ps, d)
    decreases |ps|
  {
    if ps == [] then []
    else [Meaning(ps[0], d.relations, d.streaming)] + Meant(ps[1..], NextDecoder(d, ps[0]))
  }

  /** Their bytes, each laid out for the bracket open before it. */
  function Laid(ps: seq<Packet>, d: DecoderState): seq<Text>
    requires Readable(ps, d)
    decreases |ps|
  {
    if ps == [] then [] else [Encode(ps[0], d.streaming)] + Laid(ps[1..], NextDecoder(d, ps[0]))
  }

  function AfterAll(ps: seq<Packet>, d: DecoderState): DecoderState
    decreases |ps|
  {
    if ps == [] then d else AfterAll(ps[1..], NextDecoder(d, ps[0]))
  }

  /** While decoder and server agree on the bracket, handling the bytes is running the assembler on the messages. */
  lemma {:induction false} HandleMeant(p: Pipe, ps: seq<Packet>)
    requires Readable(ps, p.decoder)
    ensures HandleAll(p, Laid(ps, p.decoder))
            == match Run(p.assembler, Meant(ps, p.decoder))
               case Err(fault) => Err(fault)
               case Ok((s, outs)) => Ok((Pipe(AfterAll(ps, p.decoder), s), outs))
    decreases |ps|
  {
    hide Handle, Feed, Encode, Fits, Meaning, EndToEnd.NextDecoder;
    if ps != [] {
      var d := p.decoder;
      EndToEnd.OnePacket(p, ps[0]);
      NextIs(d, ps[0]);
      var m := Meaning(ps[0], d.relations, d.streaming);
      var rest := Laid(ps[1..], NextDecoder(d, ps[0]));
      assert Laid(ps, d)[1..] == rest;
      assert Meant(ps, d)[1..] == Meant(ps[1..], NextDecoder(d, ps[0]));
      match Feed(p.assembler, m)
      case Reject(_) =>
      case Accept(s, out) => HandleMeant(Pipe(NextDecoder(d, ps[0]), s), ps[1..]);
    }
  }

  lemma NextIs(d: DecoderState, k: Packet)
    ensures NextDecoder(d, k)
            == DecoderState(WireRoundTrip.NextCatalog(k, d.relations), WireRoundTrip.NextBracket(k, d.streaming))
  {
  }

  // ---- an ordinary transaction, sent again ----

  /** What the server sends inside a transaction: a row, or the description of a table before its first row. */
  datatype Item = Row(op: RowOp) | Table(relation: Relation)

  function ItemPacket(i: Item): Packet {
    Packet(if i.Row? then Change(i.op) else Plain(Describe(i.relation)), 0)
  }

  function Knows(catalog: Catalog, i: Item): Catalog {
    if i.Row? then catalog else catalog[i.relation.id := i.relation]
  }

  /** Each row is of a table described before it, in the transaction or earlier. */
  predicate ItemsFit(items: seq<Item>, catalog: Catalog)
    decreases |items|
  {
    items == [] || (Fits(ItemPacket(items[0]), catalog) && ItemsFit(items[1..], Knows(catalog, items[0])))
  }

  /** A table is described only when a row of it follows. */
  predicate RowLast(items: seq<Item>) {
    items == [] || items[|items| - 1].Row?
  }

  /** The items and the commit. */
  function Tail(items: seq<Item>, commit: Message): seq<Packet> {
    if items == [] then [Packet(Plain(commit), 0)] else [ItemPacket(items[0])] + Tail(items[1..], commit)
  }

  function Copy(begin: Message, items: seq<Item>, commit: Message): seq<Packet> {
    [Packet(Plain(begin), 0)] + Tail(items, commit)
  }

  /** The two ends of a transaction as they go on the wire. */
  predicate Ends(begin: Message, commit: Message) {
    begin.Begin? && commit.Commit? && begin.finalLsn == commit.commitLsn && PlainFits(begin) && PlainFits(commit)
  }

  function ItemMessages(items: seq<Item>, catalog: Catalog): seq<Message>
    requires ItemsFit(items, catalog)
    decreases |items|
  {
    if items == [] then []
    else [Meaning(ItemPacket(items[0]), catalog, false)] + ItemMessages(items[1..], Knows(catalog, items[0]))
  }

  function RowMessages(items: seq<Item>, catalog: Catalog): (ms: seq<Message>)
    requires ItemsFit(items, catalog)
    ensures AllRows(ms)
    decreases |items|
  {
    if items == [] then []
    else
      (if items[0].Row? then [OpMessage(items[0].op, catalog, None)] else [])
      + RowMessages(items[1..], Knows(catalog, items[0]))
  }

  lemma ItemKept(i: Item, d: DecoderState)
    requires !d.streaming && Fits(ItemPacket(i), d.relations)
    ensures NextDecoder(d, ItemPacket(i)) == DecoderState(Knows(d.relations, i), false)
    ensures !Meaning(ItemPacket(i), d.relations, false).Ignored()
  {
    hide OpFits, OpMessage, RelationFits;
  }

  lemma OneMeant(k: Packet, d: DecoderState)
    requires Fits(k, d.relations) && !Meaning(k, d.relations, d.streaming).Ignored()
    ensures Readable([k], d) && Meant([k], d) == [Meaning(k, d.relations, d.streaming)]
    ensures AfterAll([k], d) == NextDecoder(d, k)
  {
    hide Fits, Meaning, NextDecoder;
    assert [k][1..] == [];
  }

  lemma {:induction false} TailMeant(items: seq<Item>, commit: Message, d: DecoderState)
    requires ItemsFit(items, d.relations) && commit.Commit? && PlainFits(commit) && !d.streaming
    ensures Readable(Tail(items, commit), d)
    ensures Meant(Tail(items, commit), d) == ItemMessages(items, d.relations) + [commit]
    decreases |items|
  {
    var ps := Tail(items, commit);
    if items == [] {
      OneMeant(Packet(Plain(commit), 0), d);
    } else {
      hide Fits, Meaning, Knows, ItemPacket, NextDecoder;
      var next := DecoderState(Knows(d.relations, items[0]), false);
      ItemKept(items[0], d);
      TailMeant(items[1..], commit, next);
      assert ps[0] == ItemPacket(items[0]) && ps[1..] == Tail(items[1..], commit);
      var m := [Meaning(ps[0], d.relations, false)];
      assert m + ItemMessages(items[1..], next.relations) + [commit] == m + (ItemMessages(items[1..], next.relations) + [commit]);
    }
  }

  lemma CopyMeant(begin: Message, items: seq<Item>, commit: Message, d: DecoderState)
    requires ItemsFit(items, d.relations) && Ends(begin, commit) && !d.streaming
    ensures Readable(Copy(begin, items, commit), d)
    ensures Meant(Copy(begin, items, commit), d) == [begin] + ItemMessages(items, d.relations) + [commit]
  {
    TailMeant(items, commit, d);
    hide Tail, ItemsFit, ItemMessages;
    var ps := Copy(begin, items, commit);
    assert ps[1..] == Tail(items, commit);
    assert NextDecoder(d, ps[0]) == d;
  }

  /** The payloads of the server's second copy; nothing in them carries an Xid field. */
  function Resent(begin: Message, items: seq<Item>, commit: Message, catalog: Catalog): seq<Text>
    requires ItemsFit(items, catalog) && Ends(begin, commit)
  {
    CopyMeant(begin, items, commit, DecoderState(catalog, false));
    Laid(Copy(begin, items, commit), DecoderState(catalog, false))
  }

  /** What the server committed. */
  function Intended(begin: Message, items: seq<Item>, commit: Message, catalog: Catalog): Transaction
    requires ItemsFit(items, catalog) && Ends(begin, commit)
  {
    Build(begin.xid, AllEvents(RowMessages(items, catalog)), commit.endLsn, commit.commitTime)
  }

  function TailBytes(items: seq<Item>, commit: Message, catalog: Catalog): seq<Text>
    requires ItemsFit(items, catalog) && commit.Commit? && PlainFits(commit)
  {
    TailMeant(items, commit, DecoderState(catalog, false));
    Laid(Tail(items, commit), DecoderState(catalog, false))
  }

  function ItemBytes(i: Item): Text
    requires i.Table? ==> RelationFits(i.relation)
  {
    if i.Row? then EncodeOp(i.op, []) else EncodePlain(Describe(i.relation), [])
  }

  lemma ResentFirst(begin: Message, items: seq<Item>, commit: Message, catalog: Catalog)
    requires ItemsFit(items, catalog) && Ends(begin, commit)
    ensures Resent(begin, items, commit, catalog) == [EncodePlain(begin, [])] + TailBytes(items, commit, catalog)
  {
    hide EncodePlain, Tail, ItemsFit, ItemMessages;
    CopyMeant(begin, items, commit, DecoderState(catalog, false));
    TailMeant(items, commit, DecoderState(catalog, false));
    assert Copy(begin, items, commit)[1..] == Tail(items, commit);
    assert NextDecoder(DecoderState(catalog, false), Packet(Plain(begin), 0)) == DecoderState(catalog, false);
  }

  lemma ItemLaid(i: Item, catalog: Catalog)
    requires Fits(ItemPacket(i), catalog)
    ensures i.Table? ==> RelationFits(i.relation)
    ensures Encode(ItemPacket(i), false) == ItemBytes(i)
  {
    hide EncodePlain, EncodeOp, OpFits, RelationFits;
  }

  lemma TailEnd(commit: Message, catalog: Catalog)
    requires commit.Commit? && PlainFits(commit)
    ensures TailBytes([], commit, catalog) == [EncodePlain(commit, [])]
  {
    hide EncodePlain;
    var d := DecoderState(catalog, false);
    TailMeant([], commit, d);
    var ps := Tail([], commit);
    assert ps == [Packet(Plain(commit), 0)] && ps[1..] == [];
    assert Laid([], NextDecoder(d, ps[0])) == [];
  }

  lemma TailFirst(items: seq<Item>, commit: Message, catalog: Catalog)
    requires ItemsFit(items, catalog) && commit.Commit? && PlainFits(commit) && items != []
    ensures Fits(ItemPacket(items[0]), catalog) && (items[0].Table? ==> RelationFits(items[0].relation))
    ensures ItemsFit(items[1..], Knows(catalog, items[0]))
    ensures TailBytes(items, commit, catalog)
            == [ItemBytes(items[0])] + TailBytes(items[1..], commit, Knows(catalog, items[0]))
  {
    hide Encode, ItemPacket, Fits, Knows, ItemBytes, Meaning, NextDecoder;
    var d := DecoderState(catalog, false);
    var ps := Tail(items, commit);
    TailMeant(items, commit, d);
    ItemKept(items[0], d);
    ItemLaid(items[0], catalog);
    TailMeant(items[1..], commit, DecoderState(Knows(catalog, items[0]), false));
    assert ps[0] == ItemPacket(items[0]) && ps[1..] == Tail(items[1..], commit);
  }

  /** Begin and Commit have one layout, so any decoder reads them. */
  lemma EndHandled(p: Pipe, m: Message)
    requires (m.Begin? || m.Commit?) && PlainFits(m)
    ensures Handle(p, EncodePlain(m, []))
            == (var (s, r) := Effect(p.assembler, Feed(p.assembler, m)); (p.(assembler := s), r))
  {
    WireRoundTrip.UntaggedRoundTrip(m, [], p.decoder);
    hide Decode, Feed, EncodePlain;
  }

  lemma HandleFirst(p: Pipe, payload: Text, rest: seq<Text>)
    ensures Handle(p, payload).1.Err? ==> HandleAll(p, [payload] + rest) == Err(Handle(p, payload).1.fault)
    ensures Handle(p, payload).1.Ok? ==>
              HandleAll(p, [payload] + rest) == Follow(Handle(p, payload).1.value, HandleAll(Handle(p, payload).0, rest))
  {
    hide Handle;
    assert ([payload] + rest)[1..] == rest;
  }

  /** What came out of the first payload, before what the rest gave. */
  function Follow(out: Option<Transaction>, r: Result<(Pipe, seq<Transaction>)>): Result<(Pipe, seq<Transaction>)> {
    match r
    case Err(fault) => Err(fault)
    case Ok((q, outs)) => Ok((q, Emits(out) + outs))
  }

  /** What an item that raises nothing leaves as it was while bracket `y` is open. */
  ghost predicate Aside(p: Pipe, q: Pipe, x: nat, y: nat) {
    && q.decoder.streaming == p.decoder.streaming
    && q.assembler.active == p.assembler.active && q.assembler.current == p.assembler.current
    && (x in p.assembler.pending && y in p.assembler.pending ==>
          x in q.assembler.pending && y in q.assembler.pending && q.assembler.pending[x] == p.assembler.pending[x])
  }

  /** A row read under a stale flag is refused, or it lands in the bucket of the open bracket. */
  lemma StaleRow(p: Pipe, op: RowOp, x: nat, y: nat)
    requires p.assembler.active == Some(y) && x != y && x in p.assembler.pending && y in p.assembler.pending
    ensures var (q, r) := Handle(p, EncodeOp(op, []));
            r.Ok? ==> r.value.None? && Aside(p, q, x, y)
  {
    StaleDecoder.StaleKind(p.decoder, op);
    hide Decode, EncodeOp, Events, Append;
  }

  /** A description read under a stale flag changes the decoder's tables at most. */
  lemma StaleTable(p: Pipe, relation: Relation, x: nat, y: nat)
    requires RelationFits(relation) && p.decoder.streaming
    ensures var (q, r) := Handle(p, EncodePlain(Describe(relation), []));
            r.Ok? ==> r.value.None? && Aside(p, q, x, y)
  {
    StaleDecoder.StaleRelationId(p.decoder, relation);
    FlagKept(p.decoder, EncodePlain(Describe(relation), []));
    hide Decode, EncodePlain, Field, RelationFits, StaleDecoder.AfterId;
  }

  lemma FlagKept(d: DecoderState, payload: Text)
    ensures Decode(d, payload).1.Ok? ==>
              Decode(d, payload).0.streaming
              == (Decode(d, payload).1.value.StreamStart? || (d.streaming && !Decode(d, payload).1.value.StreamStop?))
  {
    if Decode(d, payload).1.Ok? {
      Pipeline.DecodedKind(d, payload);
    }
    hide Decode;
  }

  lemma StaleItem(p: Pipe, i: Item, x: nat, y: nat)
    requires i.Table? ==> RelationFits(i.relation)
    requires p.decoder.streaming && p.assembler.active == Some(y) && x != y
    requires x in p.assembler.pending && y in p.assembler.pending
    ensures var (q, r) := Handle(p, ItemBytes(i));
            r.Ok? ==> r.value.None? && Aside(p, q, x, y)
  {
    hide Handle, EncodeOp, EncodePlain, Aside, RelationFits;
    if i.Row? {
      StaleRow(p, i.op, x, y);
    } else {
      StaleTable(p, i.relation, x, y);
    }
  }

  /** A Truncate of no tables. */
  predicate Empty(i: Item) {
    i.Row? && i.op.TruncateTables? && i.op.ids == []
  }

  lemma StaleEmpty(p: Pipe, i: Item)
    requires p.decoder.streaming && Empty(i)
    ensures Handle(p, ItemBytes(i)).1.Err?
  {
    StaleDecoder.StaleEmptyTruncate(p.decoder, i.op.cascade, i.op.restart);
    hide Decode, EncodeOp;
  }

  lemma {:induction false} StaleTail(p: Pipe, items: seq<Item>, commit: Message, catalog: Catalog, x: nat, y: nat)
    requires p.decoder.streaming && p.assembler.current == Some(x) && p.assembler.active == Some(y) && x != y
    requires x in p.assembler.pending && y in p.assembler.pending
    requires ItemsFit(items, catalog) && commit.Commit? && PlainFits(commit)
    ensures var r := HandleAll(p, TailBytes(items, commit, catalog));
            && (r.Ok? ==>
                  && r.value.1 == [Build(x, p.assembler.pending[x].changes, commit.endLsn, commit.commitTime)]
                  && forall i :: 0 <= i < |items| ==> !Empty(items[i]))
            && (items == [] && p.assembler.pending[x].finalLsn == Some(commit.commitLsn) ==> r.Ok?)
    decreases |items|
  {
    hide Handle, HandleAll, Tail, TailBytes, ItemBytes, EncodePlain, Fits, Build, Empty, Knows;
    if items == [] {
      TailEnd(commit, catalog);
      EndHandled(p, commit);
      HandleFirst(p, EncodePlain(commit, []), []);
      assert [EncodePlain(commit, [])] + [] == [EncodePlain(commit, [])];
      NoPayloads(Handle(p, EncodePlain(commit, [])).0);
    } else {
      TailFirst(items, commit, catalog);
      StaleItem(p, items[0], x, y);
      HandleFirst(p, ItemBytes(items[0]), TailBytes(items[1..], commit, Knows(catalog, items[0])));
      var (q, r) := Handle(p, ItemBytes(items[0]));
      if r.Ok? {
        if Empty(items[0]) {
          StaleEmpty(p, items[0]);
        }
        StaleTail(q, items[1..], commit, Knows(catalog, items[0]), x, y);
        assert forall i :: 1 <= i < |items| ==> items[i] == items[1..][i - 1];
      }
    }
  }

  lemma NoPayloads(p: Pipe)
    ensures HandleAll(p, []) == Ok((p, []))
  {
  }

  /**
   While a bracket was left open, a resent transaction that raises nothing comes out without any change, and
   none of its rows was a Truncate of no tables.
   */
  lemma InsideBracket(p: Pipe, begin: Message, items: seq<Item>, commit: Message, catalog: Catalog)
    requires Isolation.Orderly(p.assembler) && p.assembler.active.Some? && p.decoder.streaming
    requires p.assembler.current.None? && begin.Begin? && begin.xid !in p.assembler.pending
    requires ItemsFit(items, catalog) && Ends(begin, commit)
    ensures var r := HandleAll(p, Resent(begin, items, commit, catalog));
            && (r.Ok? ==>
                  && r.value.1 == [Build(begin.xid, [], commit.endLsn, commit.commitTime)]
                  && forall i :: 0 <= i < |items| ==> !Empty(items[i]))
            && (items == [] ==> r.Ok?)
  {
    hide Handle, HandleAll, Resent, TailBytes, EncodePlain, ItemsFit, Build, Empty;
    ResentFirst(begin, items, commit, catalog);
    EndHandled(p, begin);
    HandleFirst(p, EncodePlain(begin, []), TailBytes(items, commit, catalog));
    var q := Handle(p, EncodePlain(begin, [])).0;
    assert q.assembler.pending[begin.xid] == Bucket([], Some(begin.finalLsn), map[]);
    StaleTail(q, items, commit, catalog, begin.xid, p.assembler.active.value);
  }

  lemma Blocked(p: Pipe, begin: Message, items: seq<Item>, commit: Message, catalog: Catalog)
    requires ItemsFit(items, catalog) && Ends(begin, commit)
    requires p.assembler.current.Some? || begin.xid in p.assembler.pending
    ensures HandleAll(p, Resent(begin, items, commit, catalog)) == Err(ProtocolError)
  {
    hide Handle, HandleAll, Resent, TailBytes, EncodePlain, ItemsFit;
    ResentFirst(begin, items, commit, catalog);
    EndHandled(p, begin);
    HandleFirst(p, EncodePlain(begin, []), TailBytes(items, commit, catalog));
  }

  /** Descriptions do not reach the buckets. */
  function Undescribed(ms: seq<Message>): seq<Message> {
    if ms == [] then [] else (if ms[0].Describe? then [] else [ms[0]]) + Undescribed(ms[1..])
  }

  lemma {:induction false} UndescribedRun(s: State, ms: seq<Message>)
    ensures Run(s, ms) == Run(s, Undescribed(ms))
    decreases |ms|
  {
    if ms != [] {
      if ms[0].Describe? {
        RunQuiet(s, ms, s);
        assert Undescribed(ms) == Undescribed(ms[1..]);
        UndescribedRun(s, ms[1..]);
      } else {
        assert Undescribed(ms)[0] == ms[0] && Undescribed(ms)[1..] == Undescribed(ms[1..]);
        hide Feed;
        match Feed(s, ms[0])
        case Accept(t, _) => UndescribedRun(t, ms[1..]);
        case Reject(_) =>
      }
    }
  }

  lemma {:induction false} RowsLeft(items: seq<Item>, catalog: Catalog)
    requires ItemsFit(items, catalog)
    ensures Undescribed(ItemMessages(items, catalog)) == RowMessages(items, catalog)
    decreases |items|
  {
    if items != [] {
      hide Fits, Knows, OpMessage;
      var ms := ItemMessages(items, catalog);
      assert ms[1..] == ItemMessages(items[1..], Knows(catalog, items[0]));
      RowsLeft(items[1..], Knows(catalog, items[0]));
    }
  }

  lemma Outside(p: Pipe, begin: Message, items: seq<Item>, commit: Message)
    requires ItemsFit(items, p.decoder.relations) && Ends(begin, commit) && !p.decoder.streaming
    requires p.assembler.current.None? && p.assembler.active.None? && begin.xid !in p.assembler.pending
    ensures var d := p.decoder;
            HandleAll(p, Resent(begin, items, commit, d.relations))
            == Ok((Pipe(AfterAll(Copy(begin, items, commit), d), p.assembler), [Intended(begin, items, commit, d.relations)]))
  {
    var d, x := p.decoder, begin.xid;
    assert d == DecoderState(d.relations, false);
    hide Fill, Run, Handle, HandleAll, ItemsFit, RowMessages, ItemMessages, Laid, Meant, Readable, Undescribed, AfterAll, Copy;
    var ms, rows := ItemMessages(items, d.relations), RowMessages(items, d.relations);
    CopyMeant(begin, items, commit, d);
    HandleMeant(p, Copy(begin, items, commit));
    UndescribedAround(p.assembler, begin, items, commit, d.relations);
    FillRows(Bucket([], Some(begin.finalLsn), map[]), x, rows);
    assert [] + AllEvents(rows) == AllEvents(rows);
    OrdinaryRun(p.assembler, x, rows, commit.flags, commit.commitLsn, commit.endLsn, begin.commitTime, commit.commitTime);
  }

  lemma UndescribedAround(s: State, begin: Message, items: seq<Item>, commit: Message, catalog: Catalog)
    requires ItemsFit(items, catalog) && begin.Begin? && commit.Commit?
    ensures Run(s, [begin] + ItemMessages(items, catalog) + [commit]) == Run(s, [begin] + RowMessages(items, catalog) + [commit])
  {
    hide Run, ItemsFit, ItemMessages, RowMessages;
    var ms := [begin] + ItemMessages(items, catalog) + [commit];
    UndescribedRun(s, ms);
    RowsLeft(items, catalog);
    UndescribedConcat(ItemMessages(items, catalog), [commit]);
    assert [commit][1..] == [] && Undescribed([]) == [] && Undescribed([commit]) == [commit];
    assert Undescribed(ms) == [begin] + Undescribed(ms[1..]);
    assert ms[1..] == ItemMessages(items, catalog) + [commit];
    assert [begin] + (RowMessages(items, catalog) + [commit]) == [begin] + RowMessages(items, catalog) + [commit];
  }

  lemma {:induction false} RowsCount(items: seq<Item>, catalog: Catalog)
    requires ItemsFit(items, catalog) && items != [] && RowLast(items)
    requires forall i :: 0 <= i < |items| ==> !Empty(items[i])
    ensures AllEvents(RowMessages(items, catalog)) != []
    decreases |items|
  {
    assert !Empty(items[0]);
    if items[0].Row? {
      RowCounts(items[0].op, catalog);
      hide Events, OpMessage, OpFits;
    } else {
      assert items[1..] != [] && items[1..][|items| - 2] == items[|items| - 1];
      RowsCount(items[1..], Knows(catalog, items[0]));
      assert RowMessages(items, catalog) == RowMessages(items[1..], Knows(catalog, items[0]));
    }
  }

  lemma RowCounts(op: RowOp, catalog: Catalog)
    requires OpFits(op, catalog) && !Empty(Row(op))
    ensures Events(OpMessage(op, catalog, None)) != []
  {
    hide RowOf, ImageRow;
  }

  /**
   The resent transaction comes out as committed exactly when no ordinary transaction and no bucket of the same
   xid was left behind, and no bracket was left open, unless nothing but Begin and Commit is sent.
   */
  lemma OrdinaryResendIff(p: Pipe, begin: Message, items: seq<Item>, commit: Message)
    requires Isolation.Orderly(p.assembler) && p.decoder.streaming == p.assembler.active.Some?
    requires ItemsFit(items, p.decoder.relations) && RowLast(items) && Ends(begin, commit)
    ensures var r := HandleAll(p, Resent(begin, items, commit, p.decoder.relations));
            (r.Ok? && r.value.1 == [Intended(begin, items, commit, p.decoder.relations)])
            <==> (p.assembler.current.None? && begin.xid !in p.assembler.pending
                  && (!p.decoder.streaming || items == []))
  {
    hide HandleAll, Resent, ItemsFit, RowLast, Empty, AllEvents, RowMessages;
    var catalog := p.decoder.relations;
    if p.assembler.current.Some? || begin.xid in p.assembler.pending {
      Blocked(p, begin, items, commit, catalog);
    } else if !p.decoder.streaming {
      Outside(p, begin, items, commit);
    } else {
      InsideBracket(p, begin, items, commit, catalog);
      if items == [] {
        NoRows(catalog);
      } else if HandleAll(p, Resent(begin, items, commit, catalog)).Ok? {
        RowsCount(items, catalog);
      }
    }
  }

  lemma NoRows(catalog: Catalog)
    ensures AllEvents(RowMessages([], catalog)) == []
  {
  }

  /**
   A concrete loss: the connection goes inside transaction 2's first bracket, then transaction 1 is sent again with
   the description of its table. Its first Insert is refused, whatever follows, if the description was not.
   */
  lemma LostInsideBracket(relation: Relation, cells: seq<Cell>, rest: seq<Text>)
    requires RelationFits(relation) && StaleDecoder.ShortTexts(cells)
    ensures var before := [EncodePlain(Describe(relation), []), EncodePlain(StreamStart(2, true), [])];
            var again := [EncodePlain(Begin(8, 7, 1), [])] + ([EncodePlain(Describe(relation), [])]
                         + ([EncodeOp(InsertRow(relation.id, cells), [])] + rest));
            && HandleAll(FRESH_PIPE, before).Ok?
            && HandleAll(HandleAll(FRESH_PIPE, before).value.0, again).Err?
            && (|relation.namespace| >= 4 ==>
                  HandleAll(HandleAll(FRESH_PIPE, before).value.0, again) == Err(DecodeError))
  {
    hide HandleAll, Handle, EncodeOp, EncodePlain, RelationFits, Aside;
    var begin, table, row := Begin(8, 7, 1), EncodePlain(Describe(relation), []), EncodeOp(InsertRow(relation.id, cells), []);
    var p := Pipe(DecoderState(map[relation.id := relation], true), State(map[2 := Bucket([], None, map[])], None, Some(2)));
    BracketOpened(relation, p);
    EndHandled(p, begin);
    HandleFirst(p, EncodePlain(begin, []), [table] + ([row] + rest));
    var q := Handle(p, EncodePlain(begin, [])).0;
    TableStored(q, relation);
    HandleFirst(q, table, [row] + rest);
    var t := Handle(q, table).0;
    if Handle(q, table).1.Ok? {
      RefusedInsert(t, relation, cells);
      HandleFirst(t, row, rest);
    }
  }

  lemma RefusedInsert(p: Pipe, relation: Relation, cells: seq<Cell>)
    requires p.decoder.streaming && RelationFits(relation) && StaleDecoder.ShortTexts(cells)
    ensures Handle(p, EncodeOp(InsertRow(relation.id, cells), [])) == (p, Err(DecodeError))
  {
    StaleDecoder.StaleInsert(p.decoder, relation.id, cells);
    hide Decode, EncodeOp;
  }

  /** The description is stored as another table's, or it raises; the bracket flag stays on. */
  lemma TableStored(p: Pipe, relation: Relation)
    requires RelationFits(relation) && p.decoder.streaming
    ensures var (q, r) := Handle(p, EncodePlain(Describe(relation), []));
            && (r.Ok? ==> r.value.None? && q.decoder.streaming)
            && (|relation.namespace| >= 4 ==> r.Ok?)
  {
    StaleTable(p, relation, 0, 0);
    if |relation.namespace| >= 4 {
      StaleDecoder.StaleRelation(p.decoder, relation);
    }
    hide Decode, EncodePlain, RelationFits;
  }

  /** A client without leftovers that knows the tables takes every resent transaction. */
  lemma TakenFresh(begin: Message, items: seq<Item>, commit: Message, known: Catalog)
    requires ItemsFit(items, known) && Ends(begin, commit)
    ensures var r := HandleAll(Pipe(DecoderState(known, false), EMPTY), Resent(begin, items, commit, known));
            r.Ok? && r.value.0.assembler == EMPTY && r.value.1 == [Intended(begin, items, commit, known)]
  {
    hide HandleAll, Resent, Intended, ItemsFit;
    Outside(Pipe(DecoderState(known, false), EMPTY), begin, items, commit);
  }

  lemma TableDescribed(relation: Relation)
    requires RelationFits(relation)
    ensures Handle(FRESH_PIPE, EncodePlain(Describe(relation), []))
            == (Pipe(DecoderState(map[relation.id := relation], false), EMPTY), Ok(None))
  {
    assert EncodeXid(0, false) == [];
    WireRoundTrip.TaggedRoundTrip(Describe(relation), 0, FRESH_DECODER);
    hide Decode, EncodePlain;
    assert FRESH_DECODER.relations[relation.id := relation] == map[relation.id := relation];
  }

  lemma StreamOpened(d: DecoderState, x: nat)
    requires U32(x) && !d.streaming
    ensures Handle(Pipe(d, EMPTY), EncodePlain(StreamStart(x, true), []))
            == (Pipe(d.(streaming := true), State(map[x := Bucket([], None, map[])], None, Some(x))), Ok(None))
  {
    WireRoundTrip.MarkerRoundTrip(StreamStart(x, true), [], d);
    hide Decode, EncodePlain;
    assert EMPTY.pending[x := Bucket([], None, map[])] == map[x := Bucket([], None, map[])];
  }

  lemma BracketOpened(relation: Relation, p: Pipe)
    requires RelationFits(relation)
    requires p == Pipe(DecoderState(map[relation.id := relation], true),
                       State(map[2 := Bucket([], None, map[])], None, Some(2)))
    ensures HandleAll(FRESH_PIPE, [EncodePlain(Describe(relation), []), EncodePlain(StreamStart(2, true), [])])
            == Ok((p, []))
  {
    hide EncodePlain, HandleAll, Handle;
    var one, two := EncodePlain(Describe(relation), []), EncodePlain(StreamStart(2, true), []);
    var mid := Pipe(DecoderState(map[relation.id := relation], false), EMPTY);
    TableDescribed(relation);
    StreamOpened(mid.decoder, 2);
    HandleOne(mid, two);
    HandleFirst(FRESH_PIPE, one, [two]);
    assert [one, two] == [one] + [two];
    assert Follow(None, Ok((p, []))) == Ok((p, []));
  }

  /** On the assembler alone: with a bracket left open rows land in its bucket, and the transaction comes out empty. */
  lemma DivertedResend(s: State, x: nat, rows: seq<Message>, flags: byte, lsn: nat, end: nat, begun: nat, time: nat)
    requires AllRows(rows) && Isolation.Orderly(s) && s.current.None? && x !in s.pending && s.active.Some?
    ensures var y := s.active.value;
            var r := Run(s, [Begin(lsn, begun, x)] + UntagAll(rows) + [Commit(flags, lsn, end, time)]);
            && r.Ok? && r.value.1 == [Build(x, [], end, time)]
            && y in r.value.0.pending && r.value.0.pending[y].changes == s.pending[y].changes + AllEvents(rows)
  {
    var y := s.active.value;
    var head, tail := Begin(lsn, begun, x), Commit(flags, lsn, end, time);
    RunOne(s, head);
    var u := Feed(s, head).state;
    FillUntagged(u.pending[y], y, rows);
    var filled := Fill(u.pending[y], y, UntagAll(rows));
    BodyRun(u, y, UntagAll(rows));
    var t := Put(u, y, filled);
    RunOne(t, tail);
    assert t.pending[x].changes == [];
    assert Feed(t, tail).state.pending[y] == filled;
    hide Fill, Run, Feed;
    RunConcat(s, [head], UntagAll(rows));
    NoOutputs([]);
    RunConcat(s, [head] + UntagAll(rows), [tail]);
    NoOutputs(Emits(Feed(t, tail).out));
  }

  // ---- a streamed transaction, sent again ----

  /** A packet among those of streamed transaction `x`: a row, a savepoint rollback, or a table's description. */
  predicate BodyPacket(x: nat, k: Packet, catalog: Catalog) {
    Fits(k, catalog)
    && (k.content.Change?
        || (var m := k.content.message; m.Describe? || (m.StreamAbort? && m.xid == x && m.abortedXid != x)))
  }

  function CatalogAfter(ps: seq<Packet>, catalog: Catalog): Catalog
    decreases |ps|
  {
    if ps == [] then catalog else CatalogAfter(ps[1..], WireRoundTrip.NextCatalog(ps[0], catalog))
  }

  predicate BodyPackets(x: nat, ps: seq<Packet>, catalog: Catalog)
    decreases |ps|
  {
    ps == [] || (BodyPacket(x, ps[0], catalog) && BodyPackets(x, ps[1..], WireRoundTrip.NextCatalog(ps[0], catalog)))
  }

  predicate ChunkPackets(x: nat, chunks: seq<seq<Packet>>, catalog: Catalog)
    decreases |chunks|
  {
    chunks == [] || (BodyPackets(x, chunks[0], catalog) && ChunkPackets(x, chunks[1..], CatalogAfter(chunks[0], catalog)))
  }

  /** What the packets of one chunk mean inside its bracket, apart from the descriptions. */
  function BodyMessages(x: nat, ps: seq<Packet>, catalog: Catalog): (ms: seq<Message>)
    requires BodyPackets(x, ps, catalog)
    ensures AllBody(x, ms)
    decreases |ps|
  {
    if ps == [] then []
    else
      var m := Meaning(ps[0], catalog, true);
      (if m.Describe? then [] else [m]) + BodyMessages(x, ps[1..], WireRoundTrip.NextCatalog(ps[0], catalog))
  }

  function ChunkMessages(x: nat, chunks: seq<seq<Packet>>, catalog: Catalog): (r: seq<seq<Message>>)
    requires ChunkPackets(x, chunks, catalog)
    ensures |r| == |chunks| && AllChunks(x, r)
    decreases |chunks|
  {
    if chunks == [] then []
    else [BodyMessages(x, chunks[0], catalog)] + ChunkMessages(x, chunks[1..], CatalogAfter(chunks[0], catalog))
  }

  /** The chunks as sent, and what ends the transaction. */
  function Streamed(x: nat, chunks: seq<seq<Packet>>, first: bool, end: Message): seq<Packet>
    decreases |chunks|
  {
    if chunks == [] then [Packet(Plain(end), 0)]
    else
      ([Packet(Plain(StreamStart(x, first)), 0)] + chunks[0] + [Packet(Plain(StreamStop), 0)])
      + Streamed(x, chunks[1..], false, end)
  }

  lemma {:induction false} MeantConcat(a: seq<Packet>, b: seq<Packet>, d: DecoderState)
    requires Readable(a, d) && Readable(b, AfterAll(a, d))
    ensures Readable(a + b, d) && AfterAll(a + b, d) == AfterAll(b, AfterAll(a, d))
    ensures Meant(a + b, d) == Meant(a, d) + Meant(b, AfterAll(a, d))
    decreases |a|
  {
    hide Fits, Meaning, NextDecoder;
    if a == [] {
      assert a + b == b;
    } else {
      assert (a + b)[0] == a[0] && (a + b)[1..] == a[1..] + b;
      MeantConcat(a[1..], b, NextDecoder(d, a[0]));
      var m := [Meaning(a[0], d.relations, d.streaming)];
      var rest := Meant(a[1..], NextDecoder(d, a[0]));
      assert m + rest + Meant(b, AfterAll(a, d)) == m + (rest + Meant(b, AfterAll(a, d)));
    }
  }

  lemma {:induction false} UndescribedConcat(a: seq<Message>, b: seq<Message>)
    ensures Undescribed(a + b) == Undescribed(a) + Undescribed(b)
  {
    if a == [] {
      assert a + b == b;
    } else {
      assert (a + b)[0] == a[0] && (a + b)[1..] == a[1..] + b;
      UndescribedConcat(a[1..], b);
      var head := if a[0].Describe? then [] else [a[0]];
      assert head + Undescribed(a[1..]) + Undescribed(b) == head + (Undescribed(a[1..]) + Undescribed(b));
    }
  }

  /** Packets that one decoder reads, in order, as some messages. */
  ghost predicate Read(ps: seq<Packet>, d: DecoderState, ms: seq<Message>, e: DecoderState) {
    Readable(ps, d) && Undescribed(Meant(ps, d)) == ms && AfterAll(ps, d) == e
  }

  lemma ReadConcat(a: seq<Packet>, b: seq<Packet>, d: DecoderState, ms: seq<Message>, e: DecoderState,
                   ns: seq<Message>, f: DecoderState)
    requires Read(a, d, ms, e) && Read(b, e, ns, f)
    ensures Read(a + b, d, ms + ns, f)
  {
    hide Readable, Meant, AfterAll, Undescribed;
    MeantConcat(a, b, d);
    UndescribedConcat(Meant(a, d), Meant(b, e));
  }

  lemma OneRead(k: Packet, d: DecoderState)
    requires Fits(k, d.relations) && !Meaning(k, d.relations, d.streaming).Ignored()
    ensures var m := Meaning(k, d.relations, d.streaming);
            Read([k], d, if m.Describe? then [] else [m], NextDecoder(d, k))
  {
    OneMeant(k, d);
    hide Fits, Meaning, NextDecoder;
    assert [k][1..] == [];
    assert Undescribed([]) == [];
    var m := Meaning(k, d.relations, d.streaming);
    assert [m][1..] == [];
  }

  lemma BodyOne(x: nat, k: Packet, d: DecoderState)
    requires BodyPacket(x, k, d.relations) && d.streaming
    ensures !Meaning(k, d.relations, true).Ignored()
    ensures NextDecoder(d, k) == DecoderState(WireRoundTrip.NextCatalog(k, d.relations), true)
  {
    hide OpFits, OpMessage, RelationFits;
  }

  lemma {:induction false} BodyRead(x: nat, ps: seq<Packet>, d: DecoderState)
    requires BodyPackets(x, ps, d.relations) && d.streaming
    ensures Read(ps, d, BodyMessages(x, ps, d.relations), DecoderState(CatalogAfter(ps, d.relations), true))
    decreases |ps|
  {
    if ps != [] {
      hide Fits, Meaning, NextDecoder, WireRoundTrip.NextCatalog, Read;
      BodyOne(x, ps[0], d);
      OneRead(ps[0], d);
      var next := NextDecoder(d, ps[0]);
      BodyRead(x, ps[1..], next);
      assert ps == [ps[0]] + ps[1..];
      var m := Meaning(ps[0], d.relations, true);
      ReadConcat([ps[0]], ps[1..], d, if m.Describe? then [] else [m], next,
                 BodyMessages(x, ps[1..], next.relations), DecoderState(CatalogAfter(ps, d.relations), true));
    }
  }

  lemma MarkerRead(m: Message, d: DecoderState)
    requires (m.StreamStart? || m.StreamStop? || m.StreamCommit?) && PlainFits(m)
    ensures Read([Packet(Plain(m), 0)], d, [m],
                 d.(streaming := if m.StreamStart? then true else if m.StreamStop? then false else d.streaming))
  {
    OneRead(Packet(Plain(m), 0), d);
    hide Read;
  }

  lemma ChunkRead(x: nat, ps: seq<Packet>, first: bool, d: DecoderState)
    requires U32(x) && BodyPackets(x, ps, d.relations)
    ensures Read([Packet(Plain(StreamStart(x, first)), 0)] + ps + [Packet(Plain(StreamStop), 0)], d,
                 [StreamStart(x, first)] + BodyMessages(x, ps, d.relations) + [StreamStop],
                 DecoderState(CatalogAfter(ps, d.relations), false))
  {
    hide Read, BodyPackets, CatalogAfter;
    var start, stop := StreamStart(x, first), StreamStop;
    var inside, later := d.(streaming := true), DecoderState(CatalogAfter(ps, d.relations), true);
    var ms := BodyMessages(x, ps, d.relations);
    MarkerRead(start, d);
    BodyRead(x, ps, inside);
    ReadConcat([Packet(Plain(start), 0)], ps, d, [start], inside, ms, later);
    MarkerRead(stop, later);
    ReadConcat([Packet(Plain(start), 0)] + ps, [Packet(Plain(stop), 0)], d, [start] + ms, later, [stop],
               later.(streaming := false));
  }

  /** The decoder after all chunks. */
  function AfterChunks(chunks: seq<seq<Packet>>, d: DecoderState): DecoderState
    decreases |chunks|
  {
    if chunks == [] then d else AfterChunks(chunks[1..], DecoderState(CatalogAfter(chunks[0], d.relations), false))
  }

  lemma {:induction false} StreamedRead(x: nat, chunks: seq<seq<Packet>>, first: bool, end: Message, d: DecoderState)
    requires U32(x) && ChunkPackets(x, chunks, d.relations) && end.StreamCommit? && PlainFits(end)
    ensures Read(Streamed(x, chunks, first, end), d, Chunked(x, ChunkMessages(x, chunks, d.relations), first) + [end],
                 AfterChunks(chunks, d))
    decreases |chunks|
  {
    hide Read, BodyPackets, BodyMessages, CatalogAfter;
    if chunks == [] {
      MarkerRead(end, d);
      assert [] + [end] == [end];
    } else {
      var chunk := [Packet(Plain(StreamStart(x, first)), 0)] + chunks[0] + [Packet(Plain(StreamStop), 0)];
      var out := DecoderState(CatalogAfter(chunks[0], d.relations), false);
      ChunkRead(x, chunks[0], first, d);
      StreamedRead(x, chunks[1..], false, end, out);
      var more := ChunkMessages(x, chunks, d.relations);
      assert more[1..] == ChunkMessages(x, chunks[1..], out.relations);
      var one := [StreamStart(x, first)] + more[0] + [StreamStop];
      var rest := Chunked(x, more[1..], false) + [end];
      ReadConcat(chunk, Streamed(x, chunks[1..], false, end), d, one, out, rest, AfterChunks(chunks, d));
      assert one + rest == one + Chunked(x, more[1..], false) + [end];
    }
  }

  /** The payloads of the server's second copy of a streamed transaction; its own bracket is closed before them. */
  function ResentStream(x: nat, chunks: seq<seq<Packet>>, end: Message, catalog: Catalog): seq<Text>
    requires U32(x) && ChunkPackets(x, chunks, catalog) && end.StreamCommit? && PlainFits(end)
  {
    StreamedRead(x, chunks, true, end, DecoderState(catalog, false));
    Laid(Streamed(x, chunks, true, end), DecoderState(catalog, false))
  }

  /** It starts by opening a bracket, so a flag left on does not matter. */
  lemma AnyFlag(x: nat, chunks: seq<seq<Packet>>, end: Message, d: DecoderState)
    requires U32(x) && ChunkPackets(x, chunks, d.relations) && end.StreamCommit? && PlainFits(end) && chunks != []
    ensures Readable(Streamed(x, chunks, true, end), d)
    ensures Laid(Streamed(x, chunks, true, end), d) == ResentStream(x, chunks, end, d.relations)
  {
    hide ChunkPackets, AfterChunks, ChunkMessages, Chunked;
    var closed := DecoderState(d.relations, false);
    StreamedRead(x, chunks, true, end, d);
    StreamedRead(x, chunks, true, end, closed);
    var ps := Streamed(x, chunks, true, end);
    hide Streamed;
    StreamedFirst(x, chunks, end);
    assert NextDecoder(d, ps[0]) == NextDecoder(closed, ps[0]);
    assert Encode(ps[0], d.streaming) == Encode(ps[0], false);
  }

  lemma StreamedFirst(x: nat, chunks: seq<seq<Packet>>, end: Message)
    requires chunks != []
    ensures Streamed(x, chunks, true, end) != []
    ensures Streamed(x, chunks, true, end)[0] == Packet(Plain(StreamStart(x, true)), 0)
  {
  }

  lemma StreamBlocked(s: State, x: nat, chunks: seq<seq<Message>>, rest: seq<Message>)
    requires chunks != [] && x in s.pending
    ensures Run(s, Chunked(x, chunks, true) + rest) == Err(ProtocolError)
  {
    var ms := Chunked(x, chunks, true) + rest;
    assert ms[0] == StreamStart(x, true);
  }

  lemma CommitRun(t: State, x: nat, lsn: nat, end: nat, time: nat)
    requires x in t.pending
    ensures var r := Run(t, [StreamCommit(x, lsn, end, time)]);
            r.Ok? && r.value.1 == [Build(x, t.pending[x].changes, end, time)]
  {
    RunOne(t, StreamCommit(x, lsn, end, time));
    hide Run;
  }

  /** On the assembler alone. */
  lemma StreamRunIff(s: State, x: nat, chunks: seq<seq<Message>>, lsn: nat, end: nat, time: nat)
    requires AllChunks(x, chunks) && chunks != []
    ensures AllBody(x, Flatten(chunks))
    ensures var r := Run(s, Chunked(x, chunks, true) + [StreamCommit(x, lsn, end, time)]);
            (r.Ok? && r.value.1 == [Build(x, Fill(FRESH_BUCKET, x, Flatten(chunks)).changes, end, time)])
            <==> x !in s.pending
  {
    hide Run, Fill, Chunked, Feed;
    FlattenBody(x, chunks);
    if x in s.pending {
      StreamBlocked(s, x, chunks, [StreamCommit(x, lsn, end, time)]);
    } else {
      ChunksRun(s, x, chunks, true);
      var b := Fill(FRESH_BUCKET, x, Flatten(chunks));
      CommitRun(Put(s, x, b).(active := None), x, lsn, end, time);
      RunConcat(s, Chunked(x, chunks, true), [StreamCommit(x, lsn, end, time)]);
      NoOutputs([Build(x, b.changes, end, time)]);
    }
  }

  /**
   A resent streamed transaction is accepted, and comes out as committed, exactly when none of it was left behind,
   whatever bracket was left open.
   */
  lemma StreamedResendIff(p: Pipe, x: nat, chunks: seq<seq<Packet>>, end: Message)
    requires U32(x) && ChunkPackets(x, chunks, p.decoder.relations) && chunks != []
    requires end.StreamCommit? && end.xid == x && PlainFits(end)
    ensures var ms := Flatten(ChunkMessages(x, chunks, p.decoder.relations));
            var r := HandleAll(p, ResentStream(x, chunks, end, p.decoder.relations));
            && AllBody(x, ms)
            && ((r.Ok? && r.value.1 == [Build(x, Fill(FRESH_BUCKET, x, ms).changes, end.endLsn, end.commitTime)])
                <==> x !in p.assembler.pending)
  {
    hide Run, HandleAll, ResentStream, ChunkPackets, Fill, Readable, Laid, Meant, Chunked, Flatten, Undescribed, AfterAll,
         AfterChunks, Streamed;
    var d := p.decoder;
    var more := ChunkMessages(x, chunks, d.relations);
    var ps := Streamed(x, chunks, true, end);
    AnyFlag(x, chunks, end, d);
    StreamedRead(x, chunks, true, end, d);
    HandleMeant(p, ps);
    UndescribedRun(p.assembler, Meant(ps, d));
    StreamRunIff(p.assembler, x, more, end.commitLsn, end.endLsn, end.commitTime);
  }
}
