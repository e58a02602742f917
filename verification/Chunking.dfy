/** How a streamed transaction is cut into chunks does not matter. */
module Chunking {
  import opened Wrappers
  import opened Bytes
  import opened Messages
  import opened Assembler

  const FRESH_BUCKET := Bucket([], None, map[])

  /** A message that may occur among the messages of streamed transaction `x`. */
  predicate Body(x: nat, m: Message) {
    m.RowChange() || (m.StreamAbort? && m.xid == x && m.abortedXid != x)
  }

  predicate AllBody(x: nat, body: seq<Message>) {
    forall i :: 0 <= i < |body| ==> Body(x, body[i])
  }

  function FillOne(b: Bucket, m: Message): Bucket
    requires m.RowChange() || m.StreamAbort?
  {
    if m.StreamAbort? then Cut(b, m.abortedXid) else Append(b, Events(m), Tag(m))
  }

  /** What the messages of one transaction make of its bucket. */
  function Fill(b: Bucket, x: nat, body: seq<Message>): Bucket
    requires AllBody(x, body)
    decreases |body|
  {
    if body == [] then b else Fill(FillOne(b, body[0]), x, body[1..])
  }

  function Put(s: State, x: nat, b: Bucket): State {
    s.(pending := s.pending[x := b])
  }

  lemma PutPut(s: State, x: nat, b: Bucket, c: Bucket)
    ensures Put(Put(s, x, b), x, c) == Put(s, x, c)
  {
  }

  lemma PutSame(s: State, x: nat)
    requires x in s.pending
    ensures Put(s, x, s.pending[x]) == s
  {
    assert s.pending[x := s.pending[x]] == s.pending;
  }

  lemma BodyStep(s: State, x: nat, m: Message)
    requires Body(x, m) && x in s.pending && Target(s) == Some(x)
    ensures Feed(s, m) == Accept(Put(s, x, FillOne(s.pending[x], m)), None)
  {
    if m.RowChange() && Events(m) == [] {
      assert s.pending[x].changes + [] == s.pending[x].changes;
      PutSame(s, x);
    }
  }

  lemma {:induction false} BodyRun(s: State, x: nat, body: seq<Message>)
    requires AllBody(x, body) && x in s.pending && Target(s) == Some(x)
    ensures Run(s, body) == Ok((Put(s, x, Fill(s.pending[x], x, body)), []))
    decreases |body|
  {
    if body == [] {
      PutSame(s, x);
    } else {
      assert Body(x, body[0]);
      BodyStep(s, x, body[0]);
      hide Feed, FillOne;
      var b := FillOne(s.pending[x], body[0]);
      var t := Put(s, x, b);
      RunQuiet(s, body, t);
      BodyRun(t, x, body[1..]);
      PutPut(s, x, b, Fill(b, x, body[1..]));
    }
  }

  /** The chunks as sent: each between its own StreamStart and StreamStop. */
  function Chunked(x: nat, chunks: seq<seq<Message>>, first: bool): seq<Message>
    decreases |chunks|
  {
    if chunks == [] then []
    else ([StreamStart(x, first)] + chunks[0] + [StreamStop]) + Chunked(x, chunks[1..], false)
  }

  function Flatten(chunks: seq<seq<Message>>): seq<Message> {
    if chunks == [] then [] else chunks[0] + Flatten(chunks[1..])
  }

  ghost predicate AllChunks(x: nat, chunks: seq<seq<Message>>) {
    forall i :: 0 <= i < |chunks| ==> AllBody(x, chunks[i])
  }

  lemma {:induction false} FlattenBody(x: nat, chunks: seq<seq<Message>>)
    requires AllChunks(x, chunks)
    ensures AllBody(x, Flatten(chunks))
  {
    if chunks != [] {
      FlattenBody(x, chunks[1..]);
    }
  }

  lemma {:induction false} FillConcat(b: Bucket, x: nat, a: seq<Message>, c: seq<Message>)
    requires AllBody(x, a) && AllBody(x, c)
    ensures AllBody(x, a + c) && Fill(b, x, a + c) == Fill(Fill(b, x, a), x, c)
    decreases |a|
  {
    if a == [] {
      assert a + c == c;
    } else {
      assert (a + c)[1..] == a[1..] + c;
      FillConcat(FillOne(b, a[0]), x, a[1..], c);
    }
  }

  lemma StartRun(s: State, x: nat, first: bool)
    requires first == (x !in s.pending)
    ensures Run(s, [StreamStart(x, first)])
            == Ok((Put(s, x, if first then FRESH_BUCKET else s.pending[x]).(active := Some(x)), []))
  {
    if !first {
      PutSame(s, x);
    }
    RunOne(s, StreamStart(x, first));
  }

  lemma StopRun(t: State, x: nat)
    ensures Run(t, [StreamStop]) == Ok((t.(active := None), []))
  {
    RunOne(t, StreamStop);
  }

  /** A chunk leaves no bracket open, whatever was open before it. */
  lemma ChunkRun(s: State, x: nat, body: seq<Message>, first: bool)
    requires AllBody(x, body) && first == (x !in s.pending)
    ensures Run(s, [StreamStart(x, first)] + body + [StreamStop])
            == Ok((Put(s, x, Fill(if first then FRESH_BUCKET else s.pending[x], x, body)).(active := None), []))
  {
    var b := if first then FRESH_BUCKET else s.pending[x];
    var t := Put(s, x, b).(active := Some(x));
    var head := [StreamStart(x, first)];
    hide Feed, Fill, Run;
    StartRun(s, x, first);
    BodyRun(t, x, body);
    RunConcat(s, head, body);
    var u := Put(t, x, Fill(b, x, body));
    StopRun(u, x);
    RunConcat(s, head + body, [StreamStop]);
    assert u.(active := None) == Put(s, x, Fill(b, x, body)).(active := None);
    NoOutputs([]);
  }

  lemma NoOutputs(outs: seq<Transaction>)
    ensures [] + outs == outs
  {
  }

  lemma {:induction false} ChunksRun(s: State, x: nat, chunks: seq<seq<Message>>, first: bool)
    requires AllChunks(x, chunks) && chunks != [] && first == (x !in s.pending)
    ensures AllBody(x, Flatten(chunks))
    ensures Run(s, Chunked(x, chunks, first))
            == Ok((Put(s, x, Fill(if first then FRESH_BUCKET else s.pending[x], x, Flatten(chunks))).(active := None), []))
    decreases |chunks|
  {
    FlattenBody(x, chunks);
    FlattenBody(x, chunks[1..]);
    var b := if first then FRESH_BUCKET else s.pending[x];
    var one := [StreamStart(x, first)] + chunks[0] + [StreamStop];
    ChunkRun(s, x, chunks[0], first);
    var c := Fill(b, x, chunks[0]);
    var t := Put(s, x, c).(active := None);
    var rest := Flatten(chunks[1..]);
    FillConcat(b, x, chunks[0], rest);
    if |chunks| == 1 {
      assert Flatten(chunks) == chunks[0];
      assert Chunked(x, chunks, first) == one;
    } else {
      ChunksRun(t, x, chunks[1..], false);
      hide Feed, Fill, Run;
      RunConcat(s, one, Chunked(x, chunks[1..], false));
      assert Put(t, x, Fill(c, x, rest)).(active := None) == Put(s, x, Fill(c, x, rest)).(active := None);
    }
  }

  /** The emitted transaction depends on the concatenated chunks only, not on where they were cut. */
  lemma CutsInvisible(x: nat, chunks: seq<seq<Message>>, commitLsn: nat, endLsn: nat, time: nat)
    requires AllChunks(x, chunks) && chunks != []
    ensures AllBody(x, Flatten(chunks))
    ensures Run(EMPTY, Chunked(x, chunks, true) + [StreamCommit(x, commitLsn, endLsn, time)])
            == Ok((EMPTY, [Build(x, Fill(FRESH_BUCKET, x, Flatten(chunks)).changes, endLsn, time)]))
  {
    ChunksRun(EMPTY, x, chunks, true);
    CommitOnly(x, Fill(FRESH_BUCKET, x, Flatten(chunks)), commitLsn, endLsn, time);
    hide Feed, Fill, Run, Chunked;
    RunConcat(EMPTY, Chunked(x, chunks, true), [StreamCommit(x, commitLsn, endLsn, time)]);
    NoOutputs([Build(x, Fill(FRESH_BUCKET, x, Flatten(chunks)).changes, endLsn, time)]);
  }

  lemma CommitOnly(x: nat, b: Bucket, commitLsn: nat, endLsn: nat, time: nat)
    ensures Run(Put(EMPTY, x, b), [StreamCommit(x, commitLsn, endLsn, time)])
            == Ok((EMPTY, [Build(x, b.changes, endLsn, time)]))
  {
    var s := Put(EMPTY, x, b);
    RunOne(s, StreamCommit(x, commitLsn, endLsn, time));
    assert s.pending - {x} == map[];
  }

  // ---- without aborts a streamed transaction is an ordinary one ----

  predicate AllRows(rows: seq<Message>) {
    forall i :: 0 <= i < |rows| ==> rows[i].RowChange()
  }

  function Untagged(m: Message): Message
    requires m.RowChange()
  {
    match m
    case Insert(id, table, n, _) => Insert(id, table, n, None)
    case Update(id, table, o, n, _) => Update(id, table, o, n, None)
    case Delete(id, table, o, _) => Delete(id, table, o, None)
    case Truncate(tables, c, r, _) => Truncate(tables, c, r, None)
  }

  function UntagAll(rows: seq<Message>): (r: seq<Message>)
    requires AllRows(rows)
    ensures AllRows(r)
  {
    if rows == [] then [] else [Untagged(rows[0])] + UntagAll(rows[1..])
  }

  function AllEvents(rows: seq<Message>): seq<ChangeEvent>
    requires AllRows(rows)
  {
    if rows == [] then [] else Events(rows[0]) + AllEvents(rows[1..])
  }

  lemma JoinChanges(a: seq<ChangeEvent>, b: seq<ChangeEvent>, c: seq<ChangeEvent>)
    ensures a + b + c == a + (b + c)
  {
  }

  lemma FillOneRow(b: Bucket, m: Message)
    requires m.RowChange()
    ensures FillOne(b, m).changes == b.changes + Events(m)
  {
  }

  lemma FillOneUntagged(b: Bucket, m: Message)
    requires m.RowChange()
    ensures FillOne(b, Untagged(m)) == b.(changes := b.changes + Events(m))
  {
    assert Events(Untagged(m)) == Events(m);
  }

  lemma {:induction false} FillRows(b: Bucket, x: nat, rows: seq<Message>)
    requires AllRows(rows)
    ensures AllBody(x, rows) && Fill(b, x, rows).changes == b.changes + AllEvents(rows)
    decreases |rows|
  {
    hide Events, FillOne;
    if rows == [] {
      assert b.changes + [] == b.changes;
    } else {
      assert rows[0].RowChange();
      FillOneRow(b, rows[0]);
      FillRows(FillOne(b, rows[0]), x, rows[1..]);
      JoinChanges(b.changes, Events(rows[0]), AllEvents(rows[1..]));
    }
  }

  lemma {:induction false} FillUntagged(b: Bucket, x: nat, rows: seq<Message>)
    requires AllRows(rows)
    ensures AllBody(x, UntagAll(rows))
    ensures Fill(b, x, UntagAll(rows)) == b.(changes := b.changes + AllEvents(rows))
    decreases |rows|
  {
    hide Events, FillOne, Untagged;
    if rows == [] {
      assert b.changes + [] == b.changes;
    } else {
      assert rows[0].RowChange();
      var m, rest := Untagged(rows[0]), UntagAll(rows[1..]);
      assert UntagAll(rows)[0] == m && UntagAll(rows)[1..] == rest;
      FillOneUntagged(b, rows[0]);
      FillUntagged(FillOne(b, m), x, rows[1..]);
      JoinChanges(b.changes, Events(rows[0]), AllEvents(rows[1..]));
    }
  }

  lemma OrdinaryRun(s: State, x: nat, body: seq<Message>, flags: byte, commitLsn: nat, endLsn: nat, begun: nat, time: nat)
    requires AllBody(x, body) && s.current.None? && s.active.None? && x !in s.pending
    ensures Run(s, [Begin(commitLsn, begun, x)] + body + [Commit(flags, commitLsn, endLsn, time)])
            == Ok((s, [Build(x, Fill(Bucket([], Some(commitLsn), map[]), x, body).changes, endLsn, time)]))
  {
    var head, end := Begin(commitLsn, begun, x), Commit(flags, commitLsn, endLsn, time);
    RunOne(s, head);
    var u := Feed(s, head).state;
    BodyRun(u, x, body);
    FillKeepsLsn(u.pending[x], x, body);
    var t := Put(u, x, Fill(u.pending[x], x, body));
    RunOne(t, end);
    assert t.pending - {x} == s.pending;
    hide Fill, Run;
    RunConcat(s, [head], body);
    NoOutputs([]);
    RunConcat(s, [head] + body, [end]);
    NoOutputs(Emits(Feed(t, end).out));
  }

  /** A transaction is emitted exactly when its Commit names the position that its Begin announced. */
  lemma CommitMatchesBegin(s: State, x: nat, body: seq<Message>, flags: byte, finalLsn: nat, commitLsn: nat, endLsn: nat,
                           begun: nat, time: nat)
    requires AllBody(x, body) && s.current.None? && s.active.None? && x !in s.pending
    ensures var r := Run(s, [Begin(finalLsn, begun, x)] + body + [Commit(flags, commitLsn, endLsn, time)]);
            if commitLsn == finalLsn then r.Ok? && |r.value.1| == 1 else r == Err(ProtocolError)
  {
    if commitLsn == finalLsn {
      hide Run, Fill;
      OrdinaryRun(s, x, body, flags, commitLsn, endLsn, begun, time);
    } else {
      var head, end := Begin(finalLsn, begun, x), Commit(flags, commitLsn, endLsn, time);
      RunOne(s, head);
      var u := Feed(s, head).state;
      BodyRun(u, x, body);
      FillKeepsLsn(u.pending[x], x, body);
      var t := Put(u, x, Fill(u.pending[x], x, body));
      assert Run(t, [end]) == Err(ProtocolError);
      hide Fill, Run;
      RunConcat(s, [head], body);
      RunConcat(s, [head] + body, [end]);
    }
  }

  lemma {:induction false} FillKeepsLsn(b: Bucket, x: nat, body: seq<Message>)
    requires AllBody(x, body)
    ensures Fill(b, x, body).finalLsn == b.finalLsn
    decreases |body|
  {
    if body != [] {
      FillKeepsLsn(FillOne(b, body[0]), x, body[1..]);
    }
  }

  /** A chunked transaction with no rollback gives the transaction that the same rows give as Begin .. Commit. */
  lemma StreamedEqualsOrdinary(x: nat, chunks: seq<seq<Message>>, flags: byte, commitLsn: nat, endLsn: nat,
                               begun: nat, time: nat)
    requires chunks != [] && AllRows(Flatten(chunks)) && AllChunks(x, chunks)
    ensures Run(EMPTY, Chunked(x, chunks, true) + [StreamCommit(x, commitLsn, endLsn, time)])
            == Run(EMPTY, [Begin(commitLsn, begun, x)] + UntagAll(Flatten(chunks))
                          + [Commit(flags, commitLsn, endLsn, time)])
  {
    var rows := Flatten(chunks);
    CutsInvisible(x, chunks, commitLsn, endLsn, time);
    FillRows(FRESH_BUCKET, x, rows);
    FillUntagged(Bucket([], Some(commitLsn), map[]), x, rows);
    hide Fill, Run, Chunked;
    OrdinaryRun(EMPTY, x, UntagAll(rows), flags, commitLsn, endLsn, begun, time);
  }
}
