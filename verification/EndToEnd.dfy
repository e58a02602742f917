/**
 The whole path: a server history is written as bytes, decoded and assembled, and what comes out is what
 the server committed. The server here is the plain database: catalog, open transactions with savepoint
 stacks, and the list of committed transactions.
 */
module EndToEnd {
  import opened Wrappers
  import opened Bytes
  import opened Messages
  import opened Pgoutput
  import opened WireFormat
  import opened Pipeline
  import Assembler
  import Boundaries
  import Savepoints
  import WireRoundTrip

  datatype Ordinary = Ordinary(xid: nat, finalLsn: nat, changes: seq<ChangeEvent>)

  datatype Server = Server(catalog: Catalog,
                           streams: map<nat, Savepoints.Txn>,
                           open: Option<Ordinary>,
                           bracket: Option<nat>,
                           committed: seq<Transaction>)

  const START := Server(map[], map[], None, None, [])

  datatype Event =
    | Announce(relation: Relation, tag: nat)
    | Aside(message: Message, tag: nat)
    | BeginOrdinary(xid: nat, finalLsn: nat, time: nat)
    | CommitOrdinary(flags: byte, endLsn: nat, time: nat)
    | Write(row: RowOp)
    | OpenChunk(xid: nat)
    | CloseChunk
    | Sub(xid: nat, op: Savepoints.Op)
    | CommitStreamed(xid: nat, commitLsn: nat, endLsn: nat, time: nat)
    | AbortStreamed(xid: nat)

  /**
   What PostgreSQL keeps to: tables are described before use, brackets do not nest or overlap an ordinary
   transaction, and the end of a streamed transaction and its rollbacks are sent outside brackets.
   */
  ghost predicate Possible(db: Server, e: Event) {
    match e
    case Announce(r, tag) => RelationFits(r) && U32(tag)
    case Aside(m, tag) => (m.TypeName? || m.Origin? || m.Emitted?) && PlainFits(m) && U32(tag)
    case BeginOrdinary(xid, lsn, time) =>
      db.open.None? && db.bracket.None? && xid !in db.streams && PlainFits(Begin(lsn, time, xid))
    case CommitOrdinary(flags, end, time) =>
      db.open.Some? && PlainFits(Commit(flags, db.open.value.finalLsn, end, time))
    case Write(op) => (db.open.Some? || db.bracket.Some?) && OpFits(op, db.catalog)
    case OpenChunk(xid) => db.open.None? && db.bracket.None? && U32(xid)
    case CloseChunk => db.bracket.Some?
    case Sub(xid, op) =>
      && xid in db.streams && db.streams[xid].frames != [] && !op.Write? && Savepoints.OpValid(db.streams[xid], op)
      && (op.Savepoint? ==> U32(op.id))
      && (op.RollbackTo? ==> db.bracket.None? && U32(op.id) && forall i :: 0 <= i < |op.aborts| ==> U32(op.aborts[i]))
    case CommitStreamed(xid, lsn, end, time) =>
      xid in db.streams && db.bracket.None? && PlainFits(StreamCommit(xid, lsn, end, time))
    case AbortStreamed(xid) => xid in db.streams && db.bracket.None? && U32(xid)
  }

  /** The change events of a write, its tables named as they are described at that moment. */
  function Written(db: Server, op: RowOp): seq<ChangeEvent>
    requires OpFits(op, db.catalog)
  {
    RowChanges(op, db.catalog)
  }

  function WithStream(db: Server, xid: nat, op: Savepoints.Op): Server
    requires xid in db.streams && db.streams[xid].frames != []
  {
    db.(streams := db.streams[xid := Savepoints.Step(db.streams[xid], op)])
  }

  /** What the event does to the database. */
  ghost function Apply(db: Server, e: Event): Server
    requires Possible(db, e) && Fine(db)
  {
    match e
    case Announce(r, _) => db.(catalog := db.catalog[r.id := r])
    case Aside(_, _) => db
    case BeginOrdinary(xid, lsn, _) => db.(open := Some(Ordinary(xid, lsn, [])))
    case CommitOrdinary(_, end, time) =>
      var tx := db.open.value;
      db.(open := None, committed := db.committed + [Transaction(tx.xid, end - 1, time, tx.changes)])
    case Write(op) =>
      if db.bracket.Some? then WithStream(db, db.bracket.value, Savepoints.Write(Written(db, op)))
      else
        var tx := db.open.value;
        db.(open := Some(tx.(changes := tx.changes + Written(db, op))))
    case OpenChunk(xid) =>
      db.(bracket := Some(xid),
          streams := if xid in db.streams then db.streams else db.streams[xid := Savepoints.Start(xid)])
    case CloseChunk => db.(bracket := None)
    case Sub(xid, op) => WithStream(db, xid, op)
    case CommitStreamed(xid, _, end, time) =>
      db.(streams := db.streams - {xid},
          committed := db.committed + [Transaction(xid, end - 1, time, db.streams[xid].changes)])
    case AbortStreamed(xid) => db.(streams := db.streams - {xid})
  }

  ghost predicate FineStream(x: nat, t: Savepoints.Txn) {
    && Savepoints.Sound(t) && t.frames[0].id == x && U32(x)
    && (forall i :: 0 <= i < |t.frames| ==> U32(t.frames[i].id))
  }

  /** What the server's own rules keep true of it. */
  ghost predicate Fine(db: Server) {
    && (forall x :: x in db.streams ==> FineStream(x, db.streams[x]))
    && (db.open.Some? ==> db.open.value.xid !in db.streams && db.bracket.None?)
    && (db.bracket.Some? ==> db.bracket.value in db.streams)
  }

  /** What the event puts on the wire. */
  ghost function Packets(db: Server, e: Event): (ps: seq<Packet>)
    requires Possible(db, e) && Fine(db)
  {
    match e
    case Announce(r, tag) => [Packet(Plain(Describe(r)), tag)]
    case Aside(m, tag) => [Packet(Plain(m), tag)]
    case BeginOrdinary(xid, lsn, time) => [Packet(Plain(Begin(lsn, time, xid)), 0)]
    case CommitOrdinary(flags, end, time) => [Packet(Plain(Commit(flags, db.open.value.finalLsn, end, time)), 0)]
    case Write(op) => [Packet(Change(op), if db.bracket.Some? then Savepoints.Top(db.streams[db.bracket.value]) else 0)]
    case OpenChunk(xid) => [Packet(Plain(StreamStart(xid, xid !in db.streams)), 0)]
    case CloseChunk => [Packet(Plain(StreamStop), 0)]
    case Sub(xid, op) => if op.RollbackTo? then Aborts(xid, op.aborts) else []
    case CommitStreamed(xid, lsn, end, time) => [Packet(Plain(StreamCommit(xid, lsn, end, time)), 0)]
    case AbortStreamed(xid) => [Packet(Plain(StreamAbort(xid, xid)), 0)]
  }

  /** One StreamAbort per reported subtransaction. */
  function Aborts(xid: nat, aborts: seq<nat>): (ps: seq<Packet>)
    ensures forall i :: 0 <= i < |ps| ==> ps[i].content.Plain? && ps[i].content.message.StreamAbort?
  {
    if aborts == [] then [] else [Packet(Plain(StreamAbort(xid, aborts[0])), 0)] + Aborts(xid, aborts[1..])
  }

  function EncodeAll(ps: seq<Packet>, streaming: bool): seq<Text>
    requires forall i :: 0 <= i < |ps| ==> ps[i].content.Plain? ==> PlainFits(ps[i].content.message)
  {
    if ps == [] then [] else [Encode(ps[0], streaming)] + EncodeAll(ps[1..], streaming)
  }

  lemma {:induction false} AbortsFit(xid: nat, aborts: seq<nat>)
    requires U32(xid) && forall i :: 0 <= i < |aborts| ==> U32(aborts[i])
    ensures forall i :: 0 <= i < |Aborts(xid, aborts)| ==> PlainFits(Aborts(xid, aborts)[i].content.message)
  {
    if aborts != [] {
      AbortsFit(xid, aborts[1..]);
    }
  }

  lemma PacketsFit(db: Server, e: Event)
    requires Possible(db, e) && Fine(db)
    ensures forall i :: 0 <= i < |Packets(db, e)| ==> Fits(Packets(db, e)[i], db.catalog)
  {
    match e
    case Sub(xid, op) =>
      if op.RollbackTo? {
        AbortsFit(xid, op.aborts);
        AbortTags(xid, op.aborts);
      }
    case Write(op) =>
      if db.bracket.Some? {
        var t := db.streams[db.bracket.value];
        assert U32(t.frames[|t.frames| - 1].id);
      }
    case _ =>
  }

  lemma {:induction false} AbortTags(xid: nat, aborts: seq<nat>)
    ensures forall i :: 0 <= i < |Aborts(xid, aborts)| ==> Aborts(xid, aborts)[i].xid == 0
  {
    if aborts != [] {
      AbortTags(xid, aborts[1..]);
    }
  }

  /** The payloads of an event; every packet of one event is laid out for the bracket open before it. */
  ghost function Wire(db: Server, e: Event): seq<Text>
    requires Possible(db, e) && Fine(db)
  {
    PacketsFit(db, e);
    EncodeAll(Packets(db, e), db.bracket.Some?)
  }

  // ---- the simulation ----

  ghost predicate MirroredStream(b: Assembler.Bucket, t: Savepoints.Txn) {
    Savepoints.Mirrors(b, t) && b.finalLsn.None?
  }

  /** What the client holds mirrors the database, bucket by bucket. */
  ghost predicate Mirrored(db: Server, p: Pipe) {
    var s := p.assembler;
    && Fine(db)
    && p.decoder == DecoderState(db.catalog, db.bracket.Some?)
    && s.active == db.bracket
    && s.current == (if db.open.Some? then Some(db.open.value.xid) else None)
    && s.pending.Keys == db.streams.Keys + (if db.open.Some? then {db.open.value.xid} else {})
    && (db.open.Some? ==>
          s.pending[db.open.value.xid] == Assembler.Bucket(db.open.value.changes, Some(db.open.value.finalLsn), map[]))
    && (forall x :: x in db.streams ==> MirroredStream(s.pending[x], db.streams[x]))
  }

  /** The event moved the pipe to a state that mirrors the database after it, emitting what it committed. */
  ghost predicate Tracks(db: Server, e: Event, p: Pipe)
    requires Possible(db, e) && Fine(db)
  {
    var r := HandleAll(p, Wire(db, e));
    && r.Ok? && Mirrored(Apply(db, e), r.value.0)
    && Apply(db, e).committed == db.committed + r.value.1
  }

  /** One packet through decoder, filter and assembler. */
  lemma OnePacket(p: Pipe, k: Packet)
    requires Fits(k, p.decoder.relations)
    ensures var m := Meaning(k, p.decoder.relations, p.decoder.streaming);
            var d := DecoderState(WireRoundTrip.NextCatalog(k, p.decoder.relations),
                                  WireRoundTrip.NextBracket(k, p.decoder.streaming));
            Handle(p, Encode(k, p.decoder.streaming))
            == if m.Ignored() then (Pipe(d, p.assembler), Ok(None))
               else
                 var (s, r) := Assembler.Effect(p.assembler, Assembler.Feed(p.assembler, m));
                 (Pipe(d, s), r)
  {
    hide Decode, Encode, Fits, Meaning, Assembler.Feed;
    WireRoundTrip.DecodeEncode(k, p.decoder);
  }

  /** A Type, Origin or logical Message, in either layout, is read in full and dropped: nothing changes. */
  lemma AsideDropped(p: Pipe, m: Message, tag: nat)
    requires (m.TypeName? || m.Origin? || m.Emitted?) && PlainFits(m) && U32(tag)
    ensures Handle(p, EncodePlain(m, EncodeXid(tag, p.decoder.streaming))) == (p, Ok(None))
  {
    hide Decode, EncodePlain, Assembler.Feed;
    if m.Origin? {
      WireRoundTrip.UntaggedRoundTrip(m, EncodeXid(tag, p.decoder.streaming), p.decoder);
    } else {
      WireRoundTrip.TaggedRoundTrip(m, tag, p.decoder);
    }
  }

  lemma OneWire(db: Server, e: Event, p: Pipe, k: Packet)
    requires Possible(db, e) && Mirrored(db, p) && Packets(db, e) == [k]
    ensures Fits(k, db.catalog) && Wire(db, e) == [Encode(k, p.decoder.streaming)]
  {
    PacketsFit(db, e);
    assert Fits(Packets(db, e)[0], db.catalog);
    hide Packets, Encode;
    assert [k][1..] == [];
    assert EncodeAll([k], db.bracket.Some?) == [Encode(k, db.bracket.Some?)] + EncodeAll([], db.bracket.Some?);
  }

  /** Setting one stream and its bucket to a matching pair keeps the mirror. */
  lemma Replace(db: Server, p: Pipe, x: nat, t: Savepoints.Txn, b: Assembler.Bucket)
    requires Mirrored(db, p) && FineStream(x, t) && MirroredStream(b, t)
    requires db.open.Some? ==> db.open.value.xid != x
    ensures Mirrored(db.(streams := db.streams[x := t]),
                     p.(assembler := p.assembler.(pending := p.assembler.pending[x := b])))
  {
    hide FineStream, MirroredStream;
  }

  lemma StreamStep(x: nat, t: Savepoints.Txn, b: Assembler.Bucket, op: Savepoints.Op)
    requires FineStream(x, t) && MirroredStream(b, t) && Savepoints.OpValid(t, op)
    requires (op.Savepoint? || op.RollbackTo?) ==> U32(op.id)
    ensures FineStream(x, Savepoints.Step(t, op)) && MirroredStream(Savepoints.BucketStep(b, t, op), Savepoints.Step(t, op))
  {
    Savepoints.SoundStep(t, op);
    Savepoints.MirrorStep(b, t, op);
    hide Savepoints.Sound, Savepoints.Mirrors, Savepoints.OpValid;
  }

  function NextDecoder(d: DecoderState, k: Packet): DecoderState {
    DecoderState(WireRoundTrip.NextCatalog(k, d.relations), WireRoundTrip.NextBracket(k, d.streaming))
  }

  /** The client after the one packet of an event, when the assembler has become `s`. */
  ghost predicate Lands(db: Server, e: Event, d: DecoderState, s: Assembler.State, out: Option<Transaction>)
    requires Possible(db, e) && Fine(db)
  {
    Mirrored(Apply(db, e), Pipe(d, s)) && Apply(db, e).committed == db.committed + Assembler.Emits(out)
  }

  lemma Glue(db: Server, e: Event, p: Pipe, k: Packet, s: Assembler.State, out: Option<Transaction>)
    requires Possible(db, e) && Mirrored(db, p) && Packets(db, e) == [k] && Fits(k, p.decoder.relations)
    requires Lands(db, e, NextDecoder(p.decoder, k), s, out)
    requires var m := Meaning(k, p.decoder.relations, p.decoder.streaming);
             if m.Ignored() then s == p.assembler && out == None
             else Assembler.Feed(p.assembler, m) == Assembler.Accept(s, out)
    ensures Tracks(db, e, p)
  {
    OneWire(db, e, p, k);
    OnePacket(p, k);
    hide Encode, Fits, Wire, Mirrored, Possible, Apply, Packets, Meaning, Assembler.Feed;
    HandleOne(p, Encode(k, p.decoder.streaming));
  }

  /** An event that sends one packet: the packet fits, and is the only one. */
  lemma SinglePacket(db: Server, e: Event, p: Pipe) returns (k: Packet)
    requires Possible(db, e) && Mirrored(db, p) && !e.Sub?
    ensures Packets(db, e) == [k] && Fits(k, p.decoder.relations)
  {
    k := Packets(db, e)[0];
    PacketsFit(db, e);
    assert Fits(Packets(db, e)[0], db.catalog);
  }

  // Per event: first the mirror after it, then the packet that gets there.

  lemma LandAside(db: Server, e: Event, p: Pipe)
    requires Possible(db, e) && Mirrored(db, p) && (e.Announce? || e.Aside?)
    ensures Lands(db, e, DecoderState(Apply(db, e).catalog, p.decoder.streaming), p.assembler, None)
  {
    hide FineStream, MirroredStream, RelationFits, PlainFits;
    assert db.committed + [] == db.committed;
  }

  lemma TrackAside(db: Server, e: Event, p: Pipe)
    requires Possible(db, e) && Mirrored(db, p) && (e.Announce? || e.Aside?)
    ensures Tracks(db, e, p)
  {
    LandAside(db, e, p);
    var k := SinglePacket(db, e, p);
    hide Lands, FineStream, MirroredStream, RelationFits, PlainFits;
    Glue(db, e, p, k, p.assembler, None);
  }

  function Begun(s: Assembler.State, xid: nat, lsn: nat): Assembler.State {
    Assembler.State(s.pending[xid := Assembler.Bucket([], Some(lsn), map[])], Some(xid), s.active)
  }

  lemma LandBegin(db: Server, e: Event, p: Pipe)
    requires Possible(db, e) && Mirrored(db, p) && e.BeginOrdinary?
    ensures Lands(db, e, p.decoder, Begun(p.assembler, e.xid, e.finalLsn), None)
  {
    hide FineStream, MirroredStream, PlainFits;
    assert db.committed + [] == db.committed;
  }

  lemma TrackBegin(db: Server, e: Event, p: Pipe)
    requires Possible(db, e) && Mirrored(db, p) && e.BeginOrdinary?
    ensures Tracks(db, e, p)
  {
    LandBegin(db, e, p);
    var k := SinglePacket(db, e, p);
    hide Lands, FineStream, MirroredStream, PlainFits;
    Glue(db, e, p, k, Begun(p.assembler, e.xid, e.finalLsn), None);
  }

  lemma LandCommit(db: Server, e: Event, p: Pipe)
    requires Possible(db, e) && Mirrored(db, p) && e.CommitOrdinary?
    ensures var tx, s := db.open.value, p.assembler;
            Lands(db, e, p.decoder, s.(pending := s.pending - {tx.xid}, current := None),
                  Some(Transaction(tx.xid, e.endLsn - 1, e.time, tx.changes)))
  {
    hide FineStream, MirroredStream, PlainFits;
  }

  lemma CommitFeed(s: Assembler.State, tx: Ordinary, e: Event)
    requires e.CommitOrdinary? && s.current == Some(tx.xid) && tx.xid in s.pending
    requires s.pending[tx.xid] == Assembler.Bucket(tx.changes, Some(tx.finalLsn), map[])
    ensures Assembler.Feed(s, Commit(e.flags, tx.finalLsn, e.endLsn, e.time))
            == Assembler.Accept(s.(pending := s.pending - {tx.xid}, current := None),
                                Some(Transaction(tx.xid, e.endLsn - 1, e.time, tx.changes)))
  {
  }

  lemma TrackCommit(db: Server, e: Event, p: Pipe)
    requires Possible(db, e) && Mirrored(db, p) && e.CommitOrdinary?
    ensures Tracks(db, e, p)
  {
    LandCommit(db, e, p);
    var k := SinglePacket(db, e, p);
    var tx, s := db.open.value, p.assembler;
    CommitFeed(s, tx, e);
    assert NextDecoder(p.decoder, k) == p.decoder;
    assert Meaning(k, p.decoder.relations, p.decoder.streaming) == Commit(e.flags, tx.finalLsn, e.endLsn, e.time);
    hide Lands, Mirrored, Fits, Possible, Packets, Meaning, Assembler.Feed, PlainFits;
    Glue(db, e, p, k, s.(pending := s.pending - {tx.xid}, current := None),
         Some(Transaction(tx.xid, e.endLsn - 1, e.time, tx.changes)));
  }

  function Opened(s: Assembler.State, xid: nat): Assembler.State {
    s.(active := Some(xid),
       pending := if xid in s.pending then s.pending else s.pending[xid := Assembler.Bucket([], None, map[])])
  }

  lemma StartMirrors(x: nat)
    requires U32(x)
    ensures FineStream(x, Savepoints.Start(x))
    ensures MirroredStream(Assembler.Bucket([], None, map[]), Savepoints.Start(x))
  {
    Savepoints.StartSound(x);
  }

  lemma SetBracket(db: Server, p: Pipe, x: nat)
    requires Mirrored(db, p) && x in db.streams && db.open.None?
    ensures Mirrored(db.(bracket := Some(x)),
                     Pipe(DecoderState(db.catalog, true), p.assembler.(active := Some(x))))
  {
    hide FineStream, MirroredStream;
  }

  lemma ApplyOpen(db: Server, e: Event)
    requires Possible(db, e) && Fine(db) && e.OpenChunk?
    ensures Apply(db, e)
            == (if e.xid in db.streams then db else db.(streams := db.streams[e.xid := Savepoints.Start(e.xid)]))
               .(bracket := Some(e.xid))
  {
    hide FineStream, Savepoints.Start;
  }

  lemma {:induction false} LandOpen(db: Server, e: Event, p: Pipe)
    requires Possible(db, e) && Mirrored(db, p) && e.OpenChunk?
    ensures Lands(db, e, DecoderState(db.catalog, true), Opened(p.assembler, e.xid), None)
  {
    var x := e.xid;
    ApplyOpen(db, e);
    StartMirrors(x);
    assert x in p.assembler.pending.Keys <==> x in db.streams.Keys;
    assert db.committed + [] == db.committed;
    hide FineStream, MirroredStream, Possible, Apply, Savepoints.Start;
    if x in db.streams {
      hide Mirrored;
      SetBracket(db, p, x);
    } else {
      var blank := Assembler.Bucket([], None, map[]);
      hide Mirrored;
      Replace(db, p, x, Savepoints.Start(x), blank);
      SetBracket(db.(streams := db.streams[x := Savepoints.Start(x)]),
                 p.(assembler := p.assembler.(pending := p.assembler.pending[x := blank])), x);
    }
  }

  lemma OpenFeed(s: Assembler.State, xid: nat)
    ensures Assembler.Feed(s, StreamStart(xid, xid !in s.pending)) == Assembler.Accept(Opened(s, xid), None)
  {
  }

  lemma OpenFacts(db: Server, e: Event, p: Pipe, k: Packet)
    requires Possible(db, e) && Mirrored(db, p) && e.OpenChunk? && Packets(db, e) == [k] && Fits(k, p.decoder.relations)
    ensures NextDecoder(p.decoder, k) == DecoderState(db.catalog, true)
    ensures Meaning(k, p.decoder.relations, p.decoder.streaming) == StreamStart(e.xid, e.xid !in p.assembler.pending)
  {
    hide FineStream, MirroredStream, Fits;
    assert e.xid in p.assembler.pending.Keys <==> e.xid in db.streams.Keys;
  }

  lemma {:induction false} TrackOpen(db: Server, e: Event, p: Pipe)
    requires Possible(db, e) && Mirrored(db, p) && e.OpenChunk?
    ensures Tracks(db, e, p)
  {
    LandOpen(db, e, p);
    var k := SinglePacket(db, e, p);
    OpenFeed(p.assembler, e.xid);
    OpenFacts(db, e, p, k);
    hide Lands, Mirrored, Fits, Possible, Packets, Meaning, Assembler.Feed, Opened;
    Glue(db, e, p, k, Opened(p.assembler, e.xid), None);
  }

  lemma LandClose(db: Server, e: Event, p: Pipe)
    requires Possible(db, e) && Mirrored(db, p) && e.CloseChunk?
    ensures Lands(db, e, DecoderState(db.catalog, false), p.assembler.(active := None), None)
  {
    hide FineStream, MirroredStream;
    assert db.committed + [] == db.committed;
  }

  lemma {:induction false} TrackClose(db: Server, e: Event, p: Pipe)
    requires Possible(db, e) && Mirrored(db, p) && e.CloseChunk?
    ensures Tracks(db, e, p)
  {
    LandClose(db, e, p);
    var k := SinglePacket(db, e, p);
    assert NextDecoder(p.decoder, k) == DecoderState(db.catalog, false);
    assert Meaning(k, p.decoder.relations, p.decoder.streaming) == StreamStop;
    hide Lands, Mirrored, Fits, Possible, Packets, Meaning, PlainFits;
    Glue(db, e, p, k, p.assembler.(active := None), None);
  }

  function EndOut(db: Server, e: Event): Option<Transaction>
    requires (e.CommitStreamed? || e.AbortStreamed?) && e.xid in db.streams
  {
    if e.CommitStreamed? then Some(Transaction(e.xid, e.endLsn - 1, e.time, db.streams[e.xid].changes)) else None
  }

  lemma {:induction false} LandEnd(db: Server, e: Event, p: Pipe)
    requires Possible(db, e) && Mirrored(db, p) && (e.CommitStreamed? || e.AbortStreamed?)
    ensures Lands(db, e, p.decoder, p.assembler.(pending := p.assembler.pending - {e.xid}), EndOut(db, e))
  {
    hide FineStream, MirroredStream, PlainFits;
    assert db.committed + [] == db.committed;
  }

  lemma EndFeed(db: Server, e: Event, p: Pipe, m: Message)
    requires Possible(db, e) && Mirrored(db, p)
    requires e.CommitStreamed? ==> m == StreamCommit(e.xid, e.commitLsn, e.endLsn, e.time)
    requires e.AbortStreamed? ==> m == StreamAbort(e.xid, e.xid)
    requires e.CommitStreamed? || e.AbortStreamed?
    ensures Assembler.Feed(p.assembler, m)
            == Assembler.Accept(p.assembler.(pending := p.assembler.pending - {e.xid}), EndOut(db, e))
  {
    assert MirroredStream(p.assembler.pending[e.xid], db.streams[e.xid]);
    assert p.assembler.pending[e.xid].changes == db.streams[e.xid].changes;
    assert p.assembler.active.None?;
    hide Fine, FineStream, MirroredStream, PlainFits, Mirrored, Possible;
  }

  lemma EndFacts(db: Server, e: Event, p: Pipe, k: Packet)
    requires Possible(db, e) && Mirrored(db, p) && (e.CommitStreamed? || e.AbortStreamed?)
    requires Packets(db, e) == [k] && Fits(k, p.decoder.relations)
    ensures Fine(db) && e.xid in db.streams && k.content.Plain?
    ensures k.content.message
            == if e.CommitStreamed? then StreamCommit(e.xid, e.commitLsn, e.endLsn, e.time) else StreamAbort(e.xid, e.xid)
    ensures NextDecoder(p.decoder, k) == p.decoder
    ensures Meaning(k, p.decoder.relations, p.decoder.streaming) == k.content.message
  {
    hide FineStream, MirroredStream, Fits;
  }

  lemma TrackEnd(db: Server, e: Event, p: Pipe)
    requires Possible(db, e) && Mirrored(db, p) && (e.CommitStreamed? || e.AbortStreamed?)
    ensures Tracks(db, e, p)
  {
    hide Lands, Mirrored, Fine, Possible, Meaning, Assembler.Feed, Packets, Fits, Apply, Tracks, NextDecoder, EndOut;
    LandEnd(db, e, p);
    var k := SinglePacket(db, e, p);
    EndFacts(db, e, p, k);
    EndFeed(db, e, p, k.content.message);
    Glue(db, e, p, k, p.assembler.(pending := p.assembler.pending - {e.xid}), EndOut(db, e));
  }

  lemma ApplyStreamed(db: Server, op: RowOp)
    requires Possible(db, Write(op)) && Fine(db) && db.bracket.Some?
    ensures var x := db.bracket.value;
            x in db.streams && db.streams[x].frames != []
            && Apply(db, Write(op))
               == db.(streams := db.streams[x := Savepoints.Step(db.streams[x], Savepoints.Write(Written(db, op)))])
  {
    assert FineStream(db.bracket.value, db.streams[db.bracket.value]);
    hide Written, Savepoints.Step, OpFits;
  }

  lemma LandStreamed(db: Server, op: RowOp, p: Pipe, changes: seq<ChangeEvent>)
    requires Possible(db, Write(op)) && Mirrored(db, p) && db.bracket.Some? && changes == Written(db, op)
    ensures var x := db.bracket.value;
            x in p.assembler.pending
            && Lands(db, Write(op), p.decoder,
                     Assembler.Appended(p.assembler, x, changes, Some(Savepoints.Top(db.streams[x]))), None)
  {
    var x := db.bracket.value;
    var t, b := db.streams[x], p.assembler.pending[x];
    assert FineStream(x, t) && MirroredStream(b, t);
    assert db.committed + [] == db.committed;
    var write := Savepoints.Write(changes);
    assert Savepoints.OpValid(t, write);
    var filled := Savepoints.BucketStep(b, t, write);
    assert Assembler.Appended(p.assembler, x, changes, Some(Savepoints.Top(t)))
        == p.assembler.(pending := p.assembler.pending[x := filled]);
    hide FineStream, MirroredStream, OpFits, Written, Possible, Apply, Assembler.Appended,
         Savepoints.Step, Savepoints.BucketStep, Savepoints.OpValid;
    ApplyStreamed(db, op);
    StreamStep(x, t, b, write);
    hide Mirrored;
    Replace(db, p, x, Savepoints.Step(t, write), filled);
  }

  lemma LandOrdinary(db: Server, op: RowOp, p: Pipe, changes: seq<ChangeEvent>)
    requires Possible(db, Write(op)) && Mirrored(db, p) && db.bracket.None? && changes == Written(db, op)
    ensures var x := db.open.value.xid;
            x in p.assembler.pending
            && Lands(db, Write(op), p.decoder, Assembler.Appended(p.assembler, x, changes, None), None)
  {
    hide FineStream, MirroredStream, OpFits, Written;
    assert db.committed + [] == db.committed;
  }

  lemma AppendNothing(s: Assembler.State, x: nat, tag: Option<nat>)
    requires x in s.pending
    ensures Assembler.Appended(s, x, [], tag) == s
  {
    var b := s.pending[x];
    assert b.changes + [] == b.changes;
    assert Assembler.Append(b, [], tag) == b;
    assert s.pending[x := b] == s.pending;
  }

  /** The transaction that a write goes to, and the subtransaction its change events are tagged with. */
  ghost function WriteOwner(db: Server): nat
    requires Fine(db) && (db.open.Some? || db.bracket.Some?)
  {
    if db.bracket.Some? then db.bracket.value else db.open.value.xid
  }

  ghost function WriteTag(db: Server): Option<nat>
    requires Fine(db)
  {
    if db.bracket.Some? then Some(Savepoints.Top(db.streams[db.bracket.value])) else None
  }

  lemma WriteFacts(db: Server, op: RowOp, p: Pipe, k: Packet)
    requires Possible(db, Write(op)) && Mirrored(db, p) && Packets(db, Write(op)) == [k] && Fits(k, p.decoder.relations)
    ensures Fine(db) && (db.open.Some? || db.bracket.Some?) && OpFits(op, db.catalog)
    ensures NextDecoder(p.decoder, k) == p.decoder
    ensures Meaning(k, p.decoder.relations, p.decoder.streaming) == OpMessage(op, db.catalog, WriteTag(db))
  {
    hide FineStream, MirroredStream, OpMessage, OpFits;
  }

  lemma WriteFeed(s: Assembler.State, m: Message, x: nat, changes: seq<ChangeEvent>)
    requires m.RowChange() && changes == Events(m) && Assembler.Target(s) == Some(x) && x in s.pending
    ensures Assembler.Feed(s, m) == Assembler.Accept(Assembler.Appended(s, x, changes, Tag(m)), None)
  {
    if changes == [] {
      AppendNothing(s, x, Tag(m));
    }
    hide Assembler.Appended, Events;
  }

  lemma LandWrite(db: Server, op: RowOp, p: Pipe)
    requires Possible(db, Write(op)) && Mirrored(db, p)
    ensures var x := WriteOwner(db);
            && x in p.assembler.pending && Assembler.Target(p.assembler) == Some(x)
            && Lands(db, Write(op), p.decoder, Assembler.Appended(p.assembler, x, Written(db, op), WriteTag(db)), None)
  {
    hide Lands, FineStream, MirroredStream, Written, OpFits, Apply, Assembler.Appended;
    if db.bracket.Some? {
      LandStreamed(db, op, p, Written(db, op));
    } else {
      LandOrdinary(db, op, p, Written(db, op));
    }
  }

  lemma TrackWrite(db: Server, op: RowOp, p: Pipe)
    requires Possible(db, Write(op)) && Mirrored(db, p)
    ensures Tracks(db, Write(op), p)
  {
    hide Fine, Fits, Lands, Mirrored, Meaning, Assembler.Feed, Assembler.Appended, Possible, Packets, WriteOwner,
         WriteTag, OpMessage, OpFits, Tracks, Apply, NextDecoder;
    var k := SinglePacket(db, Write(op), p);
    WriteFacts(db, op, p, k);
    LandWrite(db, op, p);
    var x, changes, tag := WriteOwner(db), Written(db, op), WriteTag(db);
    var m := OpMessage(op, db.catalog, tag);
    WireRoundTrip.EventsOfOp(op, db.catalog, tag);
    WriteFeed(p.assembler, m, x, changes);
    Glue(db, Write(op), p, k, Assembler.Appended(p.assembler, x, changes, tag), None);
  }

  /** A rollback's StreamAborts cut the bucket one after the other. */
  lemma {:induction false} AbortsRun(p: Pipe, x: nat, aborts: seq<nat>)
    requires U32(x) && forall i :: 0 <= i < |aborts| ==> U32(aborts[i]) && aborts[i] != x
    requires x in p.assembler.pending
    requires forall i :: 0 <= i < |Aborts(x, aborts)| ==> PlainFits(Aborts(x, aborts)[i].content.message)
    ensures HandleAll(p, EncodeAll(Aborts(x, aborts), p.decoder.streaming))
            == Ok((p.(assembler := p.assembler.(pending :=
                      p.assembler.pending[x := Savepoints.CutAll(p.assembler.pending[x], aborts)])), []))
    decreases |aborts|
  {
    var b := p.assembler.pending[x];
    if aborts == [] {
      assert p.assembler.pending[x := b] == p.assembler.pending;
    } else {
      var k := Packet(Plain(StreamAbort(x, aborts[0])), 0);
      var rest := Aborts(x, aborts[1..]);
      assert Aborts(x, aborts)[1..] == rest;
      assert forall i :: 0 <= i < |rest| ==> rest[i] == Aborts(x, aborts)[i + 1];
      OnePacket(p, k);
      var cut := Assembler.Cut(b, aborts[0]);
      var q := p.(assembler := p.assembler.(pending := p.assembler.pending[x := cut]));
      assert Handle(p, Encode(k, p.decoder.streaming)) == (q, Ok(None));
      AbortsRun(q, x, aborts[1..]);
      var payloads := EncodeAll(Aborts(x, aborts), p.decoder.streaming);
      assert payloads == [Encode(k, p.decoder.streaming)] + EncodeAll(rest, p.decoder.streaming);
      assert payloads[1..] == EncodeAll(rest, p.decoder.streaming);
      assert q.assembler.pending[x := Savepoints.CutAll(cut, aborts[1..])]
          == p.assembler.pending[x := Savepoints.CutAll(b, aborts)];
      assert [] + (HandleAll(q, payloads[1..]).value.1) == [];
    }
  }

  lemma RollbackWire(db: Server, x: nat, op: Savepoints.Op, p: Pipe)
    requires Possible(db, Sub(x, op)) && Mirrored(db, p) && op.RollbackTo?
    ensures x in p.assembler.pending
    ensures HandleAll(p, Wire(db, Sub(x, op)))
            == Ok((p.(assembler := p.assembler.(pending :=
                      p.assembler.pending[x := Savepoints.CutAll(p.assembler.pending[x], op.aborts)])), []))
  {
    var t := db.streams[x];
    assert FineStream(x, t);
    forall i | 0 <= i < |op.aborts|
      ensures op.aborts[i] != x
    {
      assert op.aborts[i] in op.aborts;
      assert Savepoints.Within(t.frames, op.depth, op.aborts[i]);
      assert !Savepoints.Within(t.frames, 1, x);
    }
    PacketsFit(db, Sub(x, op));
    AbortsFit(x, op.aborts);
    assert Packets(db, Sub(x, op)) == Aborts(x, op.aborts);
    hide FineStream, MirroredStream, Fits, Encode, Savepoints.OpValid;
    AbortsRun(p, x, op.aborts);
  }

  lemma ApplySub(db: Server, x: nat, op: Savepoints.Op)
    requires Possible(db, Sub(x, op)) && Fine(db)
    ensures Apply(db, Sub(x, op)) == db.(streams := db.streams[x := Savepoints.Step(db.streams[x], op)])
    ensures Savepoints.OpValid(db.streams[x], op)
    ensures (op.Savepoint? || op.RollbackTo?) ==> U32(op.id)
  {
    hide FineStream, Savepoints.OpValid, Savepoints.Step;
  }

  lemma LandSub(db: Server, x: nat, op: Savepoints.Op, p: Pipe)
    requires Possible(db, Sub(x, op)) && Mirrored(db, p)
    ensures x in p.assembler.pending
    ensures Lands(db, Sub(x, op), p.decoder,
                  p.assembler.(pending := p.assembler.pending[x :=
                      Savepoints.BucketStep(p.assembler.pending[x], db.streams[x], op)]), None)
  {
    var t, b := db.streams[x], p.assembler.pending[x];
    assert FineStream(x, t) && MirroredStream(b, t);
    assert db.committed + [] == db.committed;
    hide FineStream, MirroredStream, Savepoints.OpValid, Savepoints.Step, Savepoints.BucketStep, Possible, Apply;
    ApplySub(db, x, op);
    StreamStep(x, t, b, op);
    hide Mirrored;
    Replace(db, p, x, Savepoints.Step(t, op), Savepoints.BucketStep(b, t, op));
  }

  lemma {:induction false} SubWire(db: Server, x: nat, op: Savepoints.Op, p: Pipe)
    requires Possible(db, Sub(x, op)) && Mirrored(db, p)
    ensures x in p.assembler.pending
    ensures HandleAll(p, Wire(db, Sub(x, op)))
            == Ok((p.(assembler := p.assembler.(pending := p.assembler.pending[x :=
                      Savepoints.BucketStep(p.assembler.pending[x], db.streams[x], op)])), []))
  {
    if op.RollbackTo? {
      RollbackWire(db, x, op, p);
    } else {
      hide FineStream, MirroredStream, Savepoints.OpValid;
      assert Packets(db, Sub(x, op)) == [];
      PacketsFit(db, Sub(x, op));
      assert Wire(db, Sub(x, op)) == [];
      assert p.assembler.pending[x := p.assembler.pending[x]] == p.assembler.pending;
    }
  }

  lemma {:induction false} TrackSub(db: Server, x: nat, op: Savepoints.Op, p: Pipe)
    requires Possible(db, Sub(x, op)) && Mirrored(db, p)
    ensures Tracks(db, Sub(x, op), p)
  {
    LandSub(db, x, op, p);
    SubWire(db, x, op, p);
    hide Mirrored, Possible, Apply, Wire, HandleAll, Savepoints.BucketStep;
  }

  /** Every possible event keeps client and database in step. */
  lemma {:induction false} TrackEvent(db: Server, e: Event, p: Pipe)
    requires Possible(db, e) && Mirrored(db, p)
    ensures Tracks(db, e, p)
  {
    hide Tracks, Mirrored, Fits, Encode;
    match e
    case Announce(_, _) => TrackAside(db, e, p);
    case Aside(_, _) => TrackAside(db, e, p);
    case BeginOrdinary(_, _, _) => TrackBegin(db, e, p);
    case CommitOrdinary(_, _, _) => TrackCommit(db, e, p);
    case Write(op) => TrackWrite(db, op, p);
    case OpenChunk(_) => TrackOpen(db, e, p);
    case CloseChunk => TrackClose(db, e, p);
    case Sub(x, op) => TrackSub(db, x, op, p);
    case CommitStreamed(_, _, _, _) => TrackEnd(db, e, p);
    case AbortStreamed(_) => TrackEnd(db, e, p);
  }

  // ---- histories ----

  /** Every event of the history is possible when it happens. */
  ghost predicate History(db: Server, es: seq<Event>)
    requires Fine(db)
    decreases |es|
  {
    es == [] || (Possible(db, es[0]) && Fine(Apply(db, es[0])) && History(Apply(db, es[0]), es[1..]))
  }

  ghost function Final(db: Server, es: seq<Event>): Server
    requires Fine(db) && History(db, es)
    decreases |es|
  {
    if es == [] then db else Final(Apply(db, es[0]), es[1..])
  }

  /** Everything the history puts on the wire. */
  ghost function Payloads(db: Server, es: seq<Event>): seq<Text>
    requires Fine(db) && History(db, es)
    decreases |es|
  {
    if es == [] then [] else Wire(db, es[0]) + Payloads(Apply(db, es[0]), es[1..])
  }

  lemma {:induction false} TrackHistory(db: Server, es: seq<Event>, p: Pipe)
    requires Mirrored(db, p) && History(db, es)
    ensures HandleAll(p, Payloads(db, es)).Ok?
    ensures Mirrored(Final(db, es), HandleAll(p, Payloads(db, es)).value.0)
    ensures Final(db, es).committed == db.committed + HandleAll(p, Payloads(db, es)).value.1
    decreases |es|
  {
    if es == [] {
      assert HandleAll(p, []) == Ok((p, []));
      assert db.committed + [] == db.committed;
    } else {
      assert Fine(db);
      hide Mirrored, Possible, Apply, Wire, HandleAll, Fine;
      var next := Apply(db, es[0]);
      var rest := Payloads(next, es[1..]);
      TrackEvent(db, es[0], p);
      var (q, outs) := HandleAll(p, Wire(db, es[0])).value;
      TrackHistory(next, es[1..], q);
      HandleConcat(p, Wire(db, es[0]), rest);
      JoinOutputs(db.committed, outs, HandleAll(q, rest).value.1);
    }
  }

  lemma JoinOutputs(a: seq<Transaction>, b: seq<Transaction>, c: seq<Transaction>)
    ensures a + b + c == a + (b + c)
  {
  }

  /**
   For every server history, decoding and assembling its bytes raises nothing and yields exactly the
   committed transactions, in commit order; and at the end of any history (so also along the way) the
   decoder's bracket flag is on exactly when the assembler has an active stream.
   */
  lemma {:induction false} CommittedExactly(es: seq<Event>)
    requires History(START, es)
    ensures var r := HandleAll(FRESH_PIPE, Payloads(START, es));
            && r.Ok?
            && r.value.1 == Final(START, es).committed
            && r.value.0.decoder.relations == Final(START, es).catalog
            && r.value.0.decoder.streaming == r.value.0.assembler.active.Some?
  {
    TrackHistory(START, es, FRESH_PIPE);
    assert [] + HandleAll(FRESH_PIPE, Payloads(START, es)).value.1 == HandleAll(FRESH_PIPE, Payloads(START, es)).value.1;
  }

  lemma {:induction false} StreamKeepsFine(db: Server, x: nat, t: Savepoints.Txn, op: Savepoints.Op)
    requires Fine(db) && x in db.streams && t == db.streams[x] && Savepoints.OpValid(t, op)
    requires (op.Savepoint? || op.RollbackTo?) ==> U32(op.id)
    ensures Fine(db.(streams := db.streams[x := Savepoints.Step(t, op)]))
  {
    assert FineStream(x, t);
    Savepoints.SoundStep(t, op);
    assert FineStream(x, Savepoints.Step(t, op)) by {
      hide Savepoints.Sound, Savepoints.OpValid;
    }
    hide FineStream, Savepoints.Step, Savepoints.OpValid;
  }

  /** Any possible event leaves the database fine: a history ends only where an event is impossible. */
  lemma PossibleKeepsFine(db: Server, e: Event)
    requires Fine(db) && Possible(db, e)
    ensures Fine(Apply(db, e))
  {
    hide FineStream, Savepoints.Step, Savepoints.OpValid, Savepoints.Start, Written;
    match e
    case Sub(x, op) =>
      ApplySub(db, x, op);
      StreamKeepsFine(db, x, db.streams[x], op);
    case Write(op) =>
      if db.bracket.Some? {
        WriteKeepsFine(db, op);
      }
    case OpenChunk(x) =>
      StartMirrors(x);
    case _ =>
  }

  lemma WriteKeepsFine(db: Server, op: RowOp)
    requires Fine(db) && Possible(db, Write(op)) && db.bracket.Some?
    ensures Fine(Apply(db, Write(op)))
  {
    ApplyStreamed(db, op);
    var x, write := db.bracket.value, Savepoints.Write(Written(db, op));
    hide FineStream, Apply, OpFits, Written, Savepoints.Step;
    assert Savepoints.OpValid(db.streams[x], write);
    StreamKeepsFine(db, x, db.streams[x], write);
  }
}
