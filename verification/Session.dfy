/**
 One connection seen from both sides: the frames that a history puts on the wire, and the steps of the delivery
 protocol, in which a transaction is just its place in the commit log.
 */
module Session {
  import opened Wrappers
  import opened Bytes
  import opened Messages
  import Client
  import ClientState
  import Delivery
  import EndToEnd
  import Pipeline
  import Protocol
  import Savepoints

  // ---- the commit log of a history ----

  ghost function NewRecord(db: EndToEnd.Server, e: EndToEnd.Event): seq<Delivery.Record>
    requires EndToEnd.Possible(db, e)
  {
    match e
    case CommitOrdinary(_, end, _) => [Delivery.Record(db.open.value.finalLsn, end)]
    case CommitStreamed(_, start, end, _) => [Delivery.Record(start, end)]
    case _ => []
  }

  /** The commit records that a history writes. */
  ghost function Records(db: EndToEnd.Server, es: seq<EndToEnd.Event>): seq<Delivery.Record>
    requires EndToEnd.Fine(db) && EndToEnd.History(db, es)
    decreases |es|
  {
    if es == [] then [] else NewRecord(db, es[0]) + Records(EndToEnd.Apply(db, es[0]), es[1..])
  }

  /** Each transaction carries the position that a handler may save for its record. */
  ghost predicate Matches(txs: seq<Transaction>, log: seq<Delivery.Record>) {
    |txs| == |log| && forall j :: 0 <= j < |txs| ==> txs[j].commitLsn == log[j].end - 1
  }

  lemma MatchesMore(a: seq<Transaction>, l: seq<Delivery.Record>, b: seq<Transaction>, m: seq<Delivery.Record>)
    requires Matches(a, l) && Matches(b, m)
    ensures Matches(a + b, l + m)
  {
  }

  /** One event commits what it writes a record for. */
  lemma NewMatches(db: EndToEnd.Server, e: EndToEnd.Event) returns (new_: seq<Transaction>)
    requires EndToEnd.Fine(db) && EndToEnd.Possible(db, e)
    ensures EndToEnd.Apply(db, e).committed == db.committed + new_ && Matches(new_, NewRecord(db, e))
  {
    hide EndToEnd.FineStream, EndToEnd.Written, Savepoints.Step;
    var t := EndToEnd.Apply(db, e);
    match e
    case CommitOrdinary(_, _, _) => new_ := t.committed[|db.committed|..];
    case CommitStreamed(_, _, _, _) => new_ := t.committed[|db.committed|..];
    case _ =>
      new_ := [];
      assert db.committed + [] == db.committed;
  }

  lemma {:induction false} CommittedMatch(db: EndToEnd.Server, es: seq<EndToEnd.Event>, log: seq<Delivery.Record>)
    requires EndToEnd.Fine(db) && EndToEnd.History(db, es) && Matches(db.committed, log)
    ensures Matches(EndToEnd.Final(db, es).committed, log + Records(db, es))
    decreases |es|
  {
    hide EndToEnd.Possible, EndToEnd.Apply, EndToEnd.Fine, NewRecord, Matches;
    if es == [] {
      assert log + [] == log;
    } else {
      var e, next := es[0], EndToEnd.Apply(db, es[0]);
      var added := NewMatches(db, e);
      MatchesMore(db.committed, log, added, NewRecord(db, e));
      CommittedMatch(next, es[1..], log + NewRecord(db, e));
      assert log + NewRecord(db, e) + Records(next, es[1..]) == log + (NewRecord(db, e) + Records(next, es[1..]));
    }
  }

  // ---- the frames of a connection ----

  /** The payloads that a run of frames carries; keepalives carry none. */
  function Carried(frames: seq<Protocol.Frame>): seq<Text> {
    if frames == [] then []
    else (if frames[0].XLogData? then [frames[0].payload] else []) + Carried(frames[1..])
  }

  predicate Position(n: nat) {
    Protocol.Lsn(n + 1)
  }

  /** What a frame of the server looks like; positions leave room for the one that is added on the way back. */
  predicate Regular(f: Protocol.Frame) {
    Protocol.FrameFits(f) && match f
                             case XLogData(start, _, _, _) => Position(start)
                             case Keepalive(end, _, _) => Position(end)
  }

  predicate AllRegular(frames: seq<Protocol.Frame>) {
    forall i :: 0 <= i < |frames| ==> Regular(frames[i])
  }

  predicate Reads(arrivals: seq<Client.Arrival>, frames: seq<Protocol.Frame>) {
    && |arrivals| == |frames|
    && forall i :: 0 <= i < |frames| ==>
                     arrivals[i].frame == Protocol.EncodeFrame(frames[i]) && Protocol.Lsn(arrivals[i].now)
  }

  predicate Running(c: ClientState.Client<Transaction>) {
    !c.closing && Position(c.written) && Position(c.durable)
  }

  /** A payload's outcome is its frame's outcome. */
  lemma ReactXLog(s: Client.Receiver, a: Client.Arrival, f: Protocol.Frame)
    requires f.XLogData? && Regular(f) && a.frame == Protocol.EncodeFrame(f) && Running(s.client)
    requires Pipeline.Handle(s.pipe, f.payload).1.Ok?
    ensures var (q, out) := Pipeline.Handle(s.pipe, f.payload);
            Client.React(s, a)
            == (Client.Receiver(ClientState.SawWal(s.client, f.walStart), q),
                Ok(if out.value.Some? then Client.Completed(out.value.value) else Client.Nothing))
    ensures Running(ClientState.SawWal(s.client, f.walStart))
  {
    Protocol.FrameRoundTrip(f);
    hide Protocol.EncodeFrame, Protocol.DecodeFrame, Pipeline.Handle, Protocol.TryEncodeStatusUpdate;
  }

  /** A keepalive completes nothing. */
  lemma ReactKeepalive(s: Client.Receiver, a: Client.Arrival, f: Protocol.Frame)
    requires f.Keepalive? && Regular(f) && a.frame == Protocol.EncodeFrame(f) && Running(s.client)
    requires Protocol.Lsn(a.now)
    ensures var (t, r) := Client.React(s, a);
            r.Ok? && !r.value.Completed? && t == Client.Receiver(ClientState.SawWal(s.client, f.walEnd), s.pipe)
    ensures Running(ClientState.SawWal(s.client, f.walEnd))
  {
    Protocol.FrameRoundTrip(f);
    Protocol.EncodingFits(ClientState.Status(ClientState.SawWal(s.client, f.walEnd), a.now));
    hide Protocol.EncodeFrame, Protocol.DecodeFrame, Pipeline.Handle, Protocol.TryEncodeStatusUpdate,
         Protocol.EncodeStatusUpdate;
  }

  /** A keepalive is answered exactly when it asks for it, with the position it has just raised. */
  lemma KeepaliveReply(s: Client.Receiver, a: Client.Arrival, f: Protocol.Frame)
    requires f.Keepalive? && Regular(f) && a.frame == Protocol.EncodeFrame(f) && Running(s.client)
    requires Protocol.Lsn(a.now)
    ensures var r := Client.React(s, a).1;
            && r.Ok? && (r.value.Reply? <==> f.replyRequested) && (r.value.Nothing? <==> !f.replyRequested)
            && (f.replyRequested ==>
                  var written := if s.client.written < f.walEnd then f.walEnd else s.client.written;
                  var bytes := r.value.payload;
                  && Protocol.ServerReads(bytes) == (written + 1, s.client.durable + 1, s.client.durable + 1)
                  && |bytes| == 34 && bytes[0] == Letter('r') && Field(8, Drop(bytes, 25)) == a.now && bytes[33] == 0)
  {
    Protocol.FrameRoundTrip(f);
    var u := ClientState.Status(ClientState.SawWal(s.client, f.walEnd), a.now);
    assert Protocol.StatusFits(u);
    Protocol.EncodingFits(u);
    Protocol.StatusUpdatePlusOne(u);
    Protocol.StatusUpdateRest(u);
    hide Protocol.EncodeFrame, Protocol.DecodeFrame, Pipeline.Handle, Protocol.TryEncodeStatusUpdate,
         Protocol.EncodeStatusUpdate, Protocol.ServerReads, Field, Drop;
  }

  lemma CarriedFirst(frames: seq<Protocol.Frame>)
    requires frames != [] && frames[0].XLogData?
    ensures Carried(frames) != [] && Carried(frames)[0] == frames[0].payload
    ensures Carried(frames)[1..] == Carried(frames[1..])
  {
  }

  lemma HandleAllFirst(p: Pipeline.Pipe, payloads: seq<Text>)
    requires payloads != [] && Pipeline.HandleAll(p, payloads).Ok?
    ensures Pipeline.Handle(p, payloads[0]).1.Ok?
    ensures var (q, out) := Pipeline.Handle(p, payloads[0]);
            var rest := Pipeline.HandleAll(q, payloads[1..]);
            && rest.Ok? && Pipeline.HandleAll(p, payloads).value
                           == (rest.value.0, (if out.value.Some? then [out.value.value] else []) + rest.value.1)
  {
    hide Pipeline.Handle;
  }

  lemma ReactAllFirst(s: Client.Receiver, arrivals: seq<Client.Arrival>, done: seq<Transaction>, t: Client.Receiver,
                      reaction: Client.Reaction)
    requires arrivals != [] && !s.client.closing && Client.React(s, arrivals[0]) == (t, Ok(reaction))
    ensures Client.ReactAll(s, arrivals, done)
            == Client.ReactAll(t, arrivals[1..], if reaction.Completed? then done + [reaction.transaction] else done)
  {
    hide Client.React;
  }

  lemma ReadsFirst(arrivals: seq<Client.Arrival>, frames: seq<Protocol.Frame>)
    requires AllRegular(frames) && Reads(arrivals, frames) && frames != []
    ensures arrivals != [] && Regular(frames[0])
    ensures arrivals[0].frame == Protocol.EncodeFrame(frames[0]) && Protocol.Lsn(arrivals[0].now)
    ensures AllRegular(frames[1..]) && Reads(arrivals[1..], frames[1..])
  {
    hide Regular, Protocol.EncodeFrame;
  }

  /** The receiver completes what the payloads make the pipeline emit, however keepalives are strewn among them. */
  lemma {:induction false} FramesComplete(s: Client.Receiver, arrivals: seq<Client.Arrival>, frames: seq<Protocol.Frame>,
                                          done: seq<Transaction>)
    requires Running(s.client) && AllRegular(frames) && Reads(arrivals, frames)
    requires Pipeline.HandleAll(s.pipe, Carried(frames)).Ok?
    ensures var (t, r) := Client.ReactAll(s, arrivals, done);
            && t.pipe == Pipeline.HandleAll(s.pipe, Carried(frames)).value.0
            && r == Ok(done + Pipeline.HandleAll(s.pipe, Carried(frames)).value.1)
    decreases |frames|
  {
    if frames == [] {
      NoFrames(s, arrivals, done);
    } else {
      ReadsFirst(arrivals, frames);
      RunningOpen(s.client);
      if frames[0].XLogData? {
        XLogComplete(s, arrivals, frames, done);
      } else {
        hide Client.React, Client.ReactAll, Pipeline.HandleAll, Regular, AllRegular, Reads, Protocol.EncodeFrame, Running;
        var f, a := frames[0], arrivals[0];
        ReactKeepalive(s, a, f);
        var (t, reaction) := Client.React(s, a);
        assert Carried(frames) == Carried(frames[1..]);
        ReactAllFirst(s, arrivals, done, t, reaction.value);
        FramesComplete(t, arrivals[1..], frames[1..], done);
      }
    }
  }

  lemma NoFrames(s: Client.Receiver, arrivals: seq<Client.Arrival>, done: seq<Transaction>)
    requires Reads(arrivals, [])
    ensures Client.ReactAll(s, arrivals, done) == (s, Ok(done))
    ensures Pipeline.HandleAll(s.pipe, Carried([])) == Ok((s.pipe, []))
    ensures done + [] == done
  {
  }

  lemma {:induction false} XLogComplete(s: Client.Receiver, arrivals: seq<Client.Arrival>, frames: seq<Protocol.Frame>,
                                        done: seq<Transaction>)
    requires Running(s.client) && AllRegular(frames) && Reads(arrivals, frames) && frames != [] && frames[0].XLogData?
    requires Pipeline.HandleAll(s.pipe, Carried(frames)).Ok?
    ensures var (t, r) := Client.ReactAll(s, arrivals, done);
            && t.pipe == Pipeline.HandleAll(s.pipe, Carried(frames)).value.0
            && r == Ok(done + Pipeline.HandleAll(s.pipe, Carried(frames)).value.1)
    decreases |frames|, 0
  {
    hide Client.React, Client.ReactAll, Pipeline.Handle, Pipeline.HandleAll, Regular, AllRegular, Reads,
         Protocol.EncodeFrame, Running, Carried, ClientState.SawWal;
    ReadsFirst(arrivals, frames);
    RunningOpen(s.client);
    var f, a := frames[0], arrivals[0];
    CarriedFirst(frames);
    HandleAllFirst(s.pipe, Carried(frames));
    ReactXLog(s, a, f);
    var (q, out) := Pipeline.Handle(s.pipe, f.payload);
    var t := Client.Receiver(ClientState.SawWal(s.client, f.walStart), q);
    var more := if out.value.Some? then [out.value.value] else [];
    ReactAllFirst(s, arrivals, done, t, if out.value.Some? then Client.Completed(out.value.value) else Client.Nothing);
    assert done + [] == done;
    FramesComplete(t, arrivals[1..], frames[1..], done + more);
    var rest := Pipeline.HandleAll(q, Carried(frames[1..])).value.1;
    assert done + more + rest == done + (more + rest);
  }

  lemma RunningOpen(c: ClientState.Client<Transaction>)
    requires Running(c)
    ensures !c.closing
  {
  }

  /** The position of the server that a frame tells. */
  function Told(f: Protocol.Frame): nat {
    match f
    case XLogData(start, _, _, _) => start
    case Keepalive(end, _, _) => end
  }

  function Seen(c: ClientState.Client<Transaction>, frames: seq<Protocol.Frame>): ClientState.Client<Transaction>
    decreases |frames|
  {
    if frames == [] then c else Seen(ClientState.SawWal(c, Told(frames[0])), frames[1..])
  }

  lemma {:induction false} ClientSeen(s: Client.Receiver, arrivals: seq<Client.Arrival>, frames: seq<Protocol.Frame>,
                                      done: seq<Transaction>)
    requires Running(s.client) && AllRegular(frames) && Reads(arrivals, frames)
    requires Pipeline.HandleAll(s.pipe, Carried(frames)).Ok?
    ensures Client.ReactAll(s, arrivals, done).0.client == Seen(s.client, frames)
    decreases |frames|
  {
    if frames == [] {
      NoFrames(s, arrivals, done);
    } else {
      hide Client.React, Client.ReactAll, Pipeline.Handle, Pipeline.HandleAll, Regular, AllRegular, Reads,
           Protocol.EncodeFrame, Running, ClientState.SawWal;
      ReadsFirst(arrivals, frames);
      RunningOpen(s.client);
      var f, a := frames[0], arrivals[0];
      if f.XLogData? {
        CarriedFirst(frames);
        HandleAllFirst(s.pipe, Carried(frames));
        ReactXLog(s, a, f);
      } else {
        ReactKeepalive(s, a, f);
        assert Carried(frames) == Carried(frames[1..]);
      }
      var (t, reaction) := Client.React(s, a);
      ReactAllFirst(s, arrivals, done, t, reaction.value);
      ClientSeen(t, arrivals[1..], frames[1..],
                 if reaction.value.Completed? then done + [reaction.value.transaction] else done);
    }
  }

  lemma {:induction false} SeenHighest(c: ClientState.Client<Transaction>, frames: seq<Protocol.Frame>)
    ensures Seen(c, frames) == c.(written := Seen(c, frames).written)
    ensures c.written <= Seen(c, frames).written
    ensures forall i :: 0 <= i < |frames| ==> Told(frames[i]) <= Seen(c, frames).written
    ensures Seen(c, frames).written == c.written
            || exists i :: 0 <= i < |frames| && Told(frames[i]) == Seen(c, frames).written
    decreases |frames|
  {
    if frames != [] {
      var d, rest := ClientState.SawWal(c, Told(frames[0])), frames[1..];
      SeenHighest(d, rest);
      assert forall i :: 1 <= i < |frames| ==> frames[i] == rest[i - 1];
      if Seen(d, rest).written != d.written {
        var i :| 0 <= i < |rest| && Told(rest[i]) == Seen(d, rest).written;
        assert frames[i + 1] == rest[i];
      } else if d.written != c.written {
        assert Told(frames[0]) == d.written;
      }
    }
  }

  /** After any frames the written position is the highest of those told and the one before; nothing else is touched. */
  lemma WrittenHighest(s: Client.Receiver, arrivals: seq<Client.Arrival>, frames: seq<Protocol.Frame>)
    requires Running(s.client) && AllRegular(frames) && Reads(arrivals, frames)
    requires Pipeline.HandleAll(s.pipe, Carried(frames)).Ok?
    ensures var c := Client.ReactAll(s, arrivals, []).0.client;
            && c == s.client.(written := c.written) && s.client.written <= c.written
            && (forall i :: 0 <= i < |frames| ==> Told(frames[i]) <= c.written)
            && (c.written == s.client.written || exists i :: 0 <= i < |frames| && Told(frames[i]) == c.written)
  {
    hide Client.ReactAll, Pipeline.HandleAll, Carried, Reads, AllRegular, Running, Seen;
    ClientSeen(s, arrivals, frames, []);
    SeenHighest(s.client, frames);
  }

  /** A client that is closing reads nothing and completes nothing. */
  lemma ClosedReadsNothing(s: Client.Receiver, arrivals: seq<Client.Arrival>, done: seq<Transaction>)
    requires s.client.closing
    ensures Client.ReactAll(s, arrivals, done) == (s, Ok(done))
  {
  }

  // ---- the steps of a connection ----

  /** No step opens or ends a connection. */
  ghost predicate Connected(steps: seq<Delivery.Step>) {
    forall i :: 0 <= i < |steps| ==> Delivery.Session(steps[i]) ==> steps[i].Close?
  }

  /** What was emitted is what the server sent, from `first` on; after a close the rest is lost. */
  ghost predicate InSequence(first: nat, s: Delivery.State) {
    && (forall j :: 0 <= j < |s.emitted| ==> s.emitted[j] == first + j)
    && (if s.client.closing then first + |s.emitted| <= s.cursor else first + |s.emitted| == s.cursor)
  }

  lemma InSequenceStep(log: Delivery.Log, capacity: nat, first: nat, s: Delivery.State, a: Delivery.Step)
    requires InSequence(first, s) && Delivery.Enabled(log, capacity, s, a) && (Delivery.Session(a) ==> a.Close?)
    ensures InSequence(first, Delivery.Next(log, capacity, s, a))
  {
  }

  lemma {:induction false} InSequenceRun(log: Delivery.Log, capacity: nat, first: nat, s: Delivery.State,
                                         steps: seq<Delivery.Step>)
    requires InSequence(first, s) && Delivery.Runs(log, capacity, s, steps) && Connected(steps)
    ensures InSequence(first, Delivery.After(log, capacity, s, steps))
    decreases |steps|
  {
    hide InSequence, Delivery.Next, Delivery.Enabled, Delivery.Session;
    if steps != [] {
      InSequenceStep(log, capacity, first, s, steps[0]);
      assert Connected(steps[1..]);
      InSequenceRun(log, capacity, first, Delivery.Next(log, capacity, s, steps[0]), steps[1..]);
    }
  }

  // ---- both sides together ----

  /** The frames of a history, read by a fresh client, complete exactly what the history committed. */
  lemma HistoryCompletes(c: ClientState.Client<Transaction>, es: seq<EndToEnd.Event>, frames: seq<Protocol.Frame>,
                         arrivals: seq<Client.Arrival>)
    requires EndToEnd.History(EndToEnd.START, es) && Carried(frames) == EndToEnd.Payloads(EndToEnd.START, es)
    requires Running(c) && AllRegular(frames) && Reads(arrivals, frames)
    ensures Client.ReactAll(Client.Receiver(c, Pipeline.FRESH_PIPE), arrivals, []).1
            == Ok(EndToEnd.Final(EndToEnd.START, es).committed)
    ensures Matches(EndToEnd.Final(EndToEnd.START, es).committed, Records(EndToEnd.START, es))
  {
    EndToEnd.CommittedExactly(es);
    CommittedMatch(EndToEnd.START, es, []);
    assert [] + Records(EndToEnd.START, es) == Records(EndToEnd.START, es);
    hide Client.ReactAll, Pipeline.HandleAll, EndToEnd.Payloads, EndToEnd.History, Carried, Reads, AllRegular, Running;
    FramesComplete(Client.Receiver(c, Pipeline.FRESH_PIPE), arrivals, frames, []);
    var outs := EndToEnd.Final(EndToEnd.START, es).committed;
    assert [] + outs == outs;
  }

  lemma EmittedFrom(log: Delivery.Log, capacity: nat, s: Delivery.State, steps: seq<Delivery.Step>)
    requires Delivery.Runs(log, capacity, Delivery.Next(log, capacity, s, Delivery.Connect), steps) && Connected(steps)
    ensures var begun := Delivery.Next(log, capacity, s, Delivery.Connect);
            InSequence(begun.cursor, Delivery.After(log, capacity, begun, steps))
  {
    var begun := Delivery.Next(log, capacity, s, Delivery.Connect);
    assert InSequence(begun.cursor, begun);
    InSequenceRun(log, capacity, begun.cursor, begun, steps);
  }

  lemma PlacesInLog(log: Delivery.Log, first: nat, places: seq<nat>, txs: seq<Transaction>, records: seq<Delivery.Record>)
    requires Delivery.Ordered(log) && first + |places| <= |log| && records == log[first..first + |places|]
    requires Matches(txs, records) && forall j :: 0 <= j < |places| ==> places[j] == first + j
    ensures |txs| == |places|
    ensures forall j :: 0 <= j < |txs| ==>
                          places[j] < |log| && log[places[j]].end > 0
                          && txs[j].commitLsn == Delivery.CommitLsn(log, places[j])
  {
    assert forall j :: 0 <= j < |places| ==> records[j] == log[places[j]];
  }

  /**
   Over one connection of a fresh client: when the frames read so far carry a history whose commit records are the
   part of the log sent so far, the transactions that the client completes from them are the ones that the delivery
   protocol says it emitted, in that order, and each carries the commit LSN of its place in the log.
   */
  lemma SessionDelivers(log: Delivery.Log, capacity: nat, s: Delivery.State, steps: seq<Delivery.Step>,
                        c: ClientState.Client<Transaction>, es: seq<EndToEnd.Event>, frames: seq<Protocol.Frame>,
                        arrivals: seq<Client.Arrival>)
    requires Delivery.Ordered(log) && Delivery.Enabled(log, capacity, s, Delivery.Connect)
    requires Delivery.Runs(log, capacity, Delivery.Next(log, capacity, s, Delivery.Connect), steps) && Connected(steps)
    requires EndToEnd.History(EndToEnd.START, es) && Carried(frames) == EndToEnd.Payloads(EndToEnd.START, es)
    requires Running(c) && AllRegular(frames) && Reads(arrivals, frames)
    requires var begun := Delivery.Next(log, capacity, s, Delivery.Connect);
             var t := Delivery.After(log, capacity, begun, steps);
             begun.cursor + |t.emitted| <= |log|
             && Records(EndToEnd.START, es) == log[begun.cursor..begun.cursor + |t.emitted|]
    ensures var t := Delivery.After(log, capacity, Delivery.Next(log, capacity, s, Delivery.Connect), steps);
            var r := Client.ReactAll(Client.Receiver(c, Pipeline.FRESH_PIPE), arrivals, []).1;
            && r.Ok? && |r.value| == |t.emitted|
            && forall j :: 0 <= j < |r.value| ==>
                             && t.emitted[j] < |log| && log[t.emitted[j]].end > 0
                             && r.value[j].commitLsn == Delivery.CommitLsn(log, t.emitted[j])
  {
    hide Client.ReactAll, EndToEnd.Payloads, EndToEnd.History, EndToEnd.Final, Carried, Reads, AllRegular, Running, Matches,
         Delivery.Runs, Delivery.After, Delivery.Next, Delivery.Enabled, Delivery.Ordered, Records, Connected;
    var begun := Delivery.Next(log, capacity, s, Delivery.Connect);
    EmittedFrom(log, capacity, s, steps);
    HistoryCompletes(c, es, frames, arrivals);
    PlacesInLog(log, begun.cursor, Delivery.After(log, capacity, begun, steps).emitted,
                EndToEnd.Final(EndToEnd.START, es).committed, Records(EndToEnd.START, es));
  }
}
