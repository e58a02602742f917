/** The messages around the pgoutput stream (protocol.py; section 55.4 of the PostgreSQL 16 documentation). */
module Protocol {
  import opened Wrappers
  import opened Bytes

  const TAG_XLOG_DATA: byte := 119    // w
  const TAG_KEEPALIVE: byte := 107    // k
  const TAG_STATUS_UPDATE: byte := 114 // r

  datatype Frame =
    | XLogData(walStart: nat, walEnd: nat, sendTime: nat, payload: Text)
    | Keepalive(walEnd: nat, sendTime: nat, replyRequested: bool)

  /** Positions are kept as they are; the wire wants each one plus one. */
  datatype StatusUpdate = StatusUpdate(written: nat, flushed: nat, applied: nat, clientTime: nat, replyRequested: bool)

  function DecodeXLogData(payload: Text): Result<Frame> {
    if |payload| < 25 || payload[0] != TAG_XLOG_DATA then Err(ProtocolError)
    else
      Ok(XLogData(Field(8, Drop(payload, 1)), Field(8, Drop(payload, 9)), Field(8, Drop(payload, 17)), payload[25..]))
  }

  function DecodeKeepalive(payload: Text): Result<Frame> {
    if |payload| != 18 || payload[0] != TAG_KEEPALIVE then Err(ProtocolError)
    else Ok(Keepalive(Field(8, Drop(payload, 1)), Field(8, Drop(payload, 9)), payload[17] != 0))
  }

  function DecodeFrame(payload: Text): Result<Frame> {
    if payload == [] then Err(ProtocolError)
    else if payload[0] == TAG_XLOG_DATA then DecodeXLogData(payload)
    else if payload[0] == TAG_KEEPALIVE then DecodeKeepalive(payload)
    else Err(ProtocolError)
  }

  predicate Lsn(n: nat) {
    n < 0x1_0000_0000_0000_0000
  }

  predicate FrameFits(f: Frame) {
    match f
    case XLogData(s, e, t, _) => Lsn(s) && Lsn(e) && Lsn(t)
    case Keepalive(e, t, _) => Lsn(e) && Lsn(t)
  }

  /** The server's layout of a frame. */
  function EncodeFrame(f: Frame): Text {
    match f
    case XLogData(s, e, t, payload) => [Letter('w')] + (ToBig(8, s) + (ToBig(8, e) + (ToBig(8, t) + payload)))
    case Keepalive(e, t, reply) => [Letter('k')] + (ToBig(8, e) + (ToBig(8, t) + [if reply then 1 else 0]))
  }

  predicate StatusFits(u: StatusUpdate) {
    Lsn(u.written + 1) && Lsn(u.flushed + 1) && Lsn(u.applied + 1) && Lsn(u.clientTime)
  }

  function EncodeStatusUpdate(u: StatusUpdate): (s: Text)
    requires StatusFits(u)
    ensures |s| == 34
  {
    [Letter('r')] + (ToBig(8, u.written + 1) + (ToBig(8, u.flushed + 1) + (ToBig(8, u.applied + 1)
      + (ToBig(8, u.clientTime) + [if u.replyRequested then 1 else 0]))))
  }

  /** `encode_standby_status_update`: the four conversions one after the other. */
  function TryEncodeStatusUpdate(u: StatusUpdate): Result<Text> {
    var written :- ToBytes(8, u.written + 1);
    var flushed :- ToBytes(8, u.flushed + 1);
    var applied :- ToBytes(8, u.applied + 1);
    var time :- ToBytes(8, u.clientTime);
    Ok([TAG_STATUS_UPDATE] + written + flushed + applied + time + [if u.replyRequested then 1 else 0])
  }

  /** Encoding fails just when a position above the last but one, or a time too large, does not fit its eight bytes. */
  lemma EncodingFits(u: StatusUpdate)
    ensures TryEncodeStatusUpdate(u) == if StatusFits(u) then Ok(EncodeStatusUpdate(u)) else Err(OverflowError)
  {
    hide ToBytes, ToBig, Pow256;
    Widths();
    ToBytesFits(8, u.written + 1);
    ToBytesFits(8, u.flushed + 1);
    ToBytesFits(8, u.applied + 1);
    ToBytesFits(8, u.clientTime);
    if StatusFits(u) {
      var a, b, c, d := ToBig(8, u.written + 1), ToBig(8, u.flushed + 1), ToBig(8, u.applied + 1), ToBig(8, u.clientTime);
      var end := [if u.replyRequested then 1 else 0];
      assert [TAG_STATUS_UPDATE] + a + b + c + d + end == [TAG_STATUS_UPDATE] + (a + (b + (c + (d + end))));
    }
  }

  /** What the server reads from a status update: the three positions as they are on the wire. */
  function ServerReads(s: Text): (nat, nat, nat) {
    (Field(8, Drop(s, 1)), Field(8, Drop(s, 9)), Field(8, Drop(s, 17)))
  }

  function ThreeLaid(tag: byte, a: nat, b: nat, c: nat, rest: Text): Text {
    [tag] + (ToBig(8, a) + (ToBig(8, b) + (ToBig(8, c) + rest)))
  }

  lemma LaidAs(u: StatusUpdate)
    requires StatusFits(u)
    ensures EncodeStatusUpdate(u)
            == ThreeLaid(TAG_STATUS_UPDATE, u.written + 1, u.flushed + 1, u.applied + 1,
                         ToBig(8, u.clientTime) + [if u.replyRequested then 1 else 0])
  {
    hide ToBig;
  }

  lemma ByteAfter(s: Text, n: nat, middle: Text, last: Text)
    requires n <= |s| && s[n..] == middle + last && |last| == 1
    ensures n + |middle| < |s| && s[n + |middle|] == last[0]
  {
    assert s[n..][|middle|] == last[0];
  }

  lemma ThreeFields(tag: byte, a: nat, b: nat, c: nat, rest: Text)
    requires Lsn(a) && Lsn(b) && Lsn(c)
    ensures var s := ThreeLaid(tag, a, b, c, rest);
            && s != [] && s[0] == tag && |s| == 25 + |rest|
            && Field(8, Drop(s, 1)) == a && Field(8, Drop(s, 9)) == b && Field(8, Drop(s, 17)) == c
            && s[25..] == rest
  {
    hide ToBig, FromBig, Pow256;
    Widths();
    var s3 := ToBig(8, c) + rest;
    var s2 := ToBig(8, b) + s3;
    var s1 := ToBig(8, a) + s2;
    var s := [tag] + s1;
    SplitAt([tag], s1);
    FieldOf(8, a, s2);
    FieldOf(8, b, s3);
    FieldOf(8, c, rest);
    DropDrop(s, 1, 8);
    DropDrop(s, 9, 8);
    DropDrop(s, 17, 8);
  }

  lemma KeepaliveRoundTrip(f: Frame)
    requires f.Keepalive? && FrameFits(f)
    ensures DecodeFrame(EncodeFrame(f)) == Ok(f)
  {
    hide ToBig, FromBig, Pow256;
    Widths();
    var s3 := [if f.replyRequested then 1 else 0];
    var s2 := ToBig(8, f.sendTime) + s3;
    var s1 := ToBig(8, f.walEnd) + s2;
    var s := [TAG_KEEPALIVE] + s1;
    SplitAt([TAG_KEEPALIVE], s1);
    FieldOf(8, f.walEnd, s2);
    FieldOf(8, f.sendTime, s3);
    DropDrop(s, 1, 8);
  }

  /** Every frame the server sends is read back as sent. */
  lemma FrameRoundTrip(f: Frame)
    requires FrameFits(f)
    ensures DecodeFrame(EncodeFrame(f)) == Ok(f)
  {
    if f.Keepalive? {
      KeepaliveRoundTrip(f);
    } else {
      ThreeFields(TAG_XLOG_DATA, f.walStart, f.walEnd, f.sendTime, f.payload);
    }
  }

  /** The server sees each position one higher than the client tracks it. */
  lemma StatusUpdatePlusOne(u: StatusUpdate)
    requires StatusFits(u)
    ensures ServerReads(EncodeStatusUpdate(u)) == (u.written + 1, u.flushed + 1, u.applied + 1)
  {
    var rest := ToBig(8, u.clientTime) + [if u.replyRequested then 1 else 0];
    ThreeFields(TAG_STATUS_UPDATE, u.written + 1, u.flushed + 1, u.applied + 1, rest);
  }

  /** The rest of a status update: its letter, its length, the client's time and whether it asks for a reply. */
  lemma StatusUpdateRest(u: StatusUpdate)
    requires StatusFits(u)
    ensures var s := EncodeStatusUpdate(u);
            && |s| == 34 && s[0] == Letter('r')
            && Field(8, Drop(s, 25)) == u.clientTime
            && s[33] == if u.replyRequested then 1 else 0
  {
    hide ToBig, Field, Pow256, ThreeLaid;
    Widths();
    var last := [if u.replyRequested then 1 else 0];
    var time := ToBig(8, u.clientTime);
    ThreeFields(TAG_STATUS_UPDATE, u.written + 1, u.flushed + 1, u.applied + 1, time + last);
    FieldOf(8, u.clientTime, last);
    assert EncodeStatusUpdate(u) == ThreeLaid(TAG_STATUS_UPDATE, u.written + 1, u.flushed + 1, u.applied + 1, time + last) by {
      LaidAs(u);
    }
    var s := EncodeStatusUpdate(u);
    ByteAfter(s, 25, time, last);
  }

  /** A frame is accepted exactly when its letter and length are those of its kind; any other is a protocol error. */
  lemma FrameAccepted(s: Text)
    ensures DecodeFrame(s).Ok? <==> (|s| >= 25 && s[0] == Letter('w')) || (|s| == 18 && s[0] == Letter('k'))
    ensures DecodeFrame(s).Err? ==> DecodeFrame(s) == Err(ProtocolError)
    ensures DecodeFrame(s).Ok? ==> (DecodeFrame(s).value.Keepalive? <==> s[0] == Letter('k'))
  {
  }

  /** Any byte but zero asks for a reply. */
  lemma ReplyByte(walEnd: nat, time: nat, b: byte)
    requires Lsn(walEnd) && Lsn(time)
    ensures DecodeFrame([Letter('k')] + (ToBig(8, walEnd) + (ToBig(8, time) + [b]))) == Ok(Keepalive(walEnd, time, b != 0))
  {
    hide ToBig, FromBig, Pow256;
    Widths();
    var s2 := ToBig(8, time) + [b];
    var s1 := ToBig(8, walEnd) + s2;
    SplitAt([Letter('k')], s1);
    FieldOf(8, walEnd, s2);
    FieldOf(8, time, [b]);
    DropDrop([Letter('k')] + s1, 1, 8);
  }
}
