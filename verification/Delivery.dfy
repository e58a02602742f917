/**
 The delivery protocol as steps: a client (client.py), its checkpoint cell and a server that sends every
 transaction whose commit record starts at or after both the requested position and the confirmed flush.
 Transactions are named by their index in the server's commit log.
 */
module Delivery {
  import opened Wrappers
  import opened ClientState
  import Protocol

  /** A commit record: where it starts, and the position after it. */
  datatype Record = Record(start: nat, end: nat)

  type Log = seq<Record>

  /** Commit records are non-empty, do not overlap, and lie in commit order after the invalid position 0. */
  ghost predicate Ordered(log: Log) {
    && (forall i :: 0 <= i < |log| ==> 0 < log[i].start < log[i].end)
    && (forall i, j :: 0 <= i < j < |log| ==> log[i].end <= log[j].start)
  }

  /** The LSN that the assembler gives transaction `k`. */
  function CommitLsn(log: Log, k: nat): nat
    requires k < |log| && log[k].end > 0
  {
    log[k].end - 1
  }

  /** The first transaction the server sends from a position. */
  function FirstSent(log: Log, from: nat): (k: nat)
    ensures k <= |log|
    ensures forall i :: 0 <= i < k ==> log[i].start < from
    ensures k < |log| ==> log[k].start >= from
  {
    if log == [] || log[0].start >= from then 0 else 1 + FirstSent(log[1..], from)
  }

  datatype State = State(
    stored: Option<nat>,           // the checkpoint cell
    confirmed: nat,                // the server's confirmed flush position
    sent: seq<Protocol.StatusUpdate>,
    up: bool,                      // a connection is open and both loops run
    cursor: nat,                   // what the server sends next on it
    client: Client<nat>,
    held: Option<nat>,             // the receiver waits for room with this one
    inflight: Option<nat>,         // its handler is running
    unnotified: Option<nat>,       // saved, but the client has not been told yet
    // history
    handed: set<nat>, returned: set<nat>, selfSaved: set<nat>, high: nat,
    base: nat, loaded: nat, saves: seq<nat>, leftover: seq<nat>, emitted: seq<nat>, dispatched: seq<nat>)

  function Init(confirmed: nat): State {
    State(None, confirmed, [], false, 0, Fresh(), None, None, None, {}, {}, {}, 0, 0, 0, [], [], [], [])
  }

  datatype Step =
    | Connect
    | Wal(lsn: nat)
    | Keepalive(walEnd: nat, reply: bool)
    | Receive
    | Unblock
    | Dispatch
    | Write(lsn: nat)
    | Notify
    | Return
    | Report
    | Confirm(i: nat)
    | Close
    | Finish
    | Drop
    | Crash

  ghost predicate Enabled(log: Log, capacity: nat, s: State, a: Step) {
    match a
    case Connect => !s.up && !s.client.closing
    case Wal(_) => s.up
    case Keepalive(_, _) => s.up
    case Receive => s.up && s.cursor < |log| && s.held.None?
    case Unblock => s.up && s.held.Some? && Enqueue(s.client, capacity, s.held.value).Queued?
    case Dispatch => s.up && s.inflight.None? && Dequeue(s.client).Item?
    case Write(lsn) =>
      && s.inflight.Some? && s.unnotified.None?
      && s.inflight.value < |log| && log[s.inflight.value].end > 0
      && MaySave(Some(CommitLsn(log, s.inflight.value)), lsn)
    case Notify => s.unnotified.Some?
    case Return => s.inflight.Some? && s.unnotified.None?
    case Report => s.up
    case Confirm(i) => i < |s.sent|
    case Close => s.up
    case Finish => s.up && s.client.closing && s.inflight.None? && s.held.None?
    case Drop => s.up
    case Crash => true
  }

  function Tell(s: State): State {
    s.(sent := s.sent + [Status(s.client, 0)])
  }

  /** The receiver has assembled `x`: queue it, wait with it when the queue is full, or lose it once the client closes. */
  function Emit(s: State, capacity: nat, x: nat): State {
    match Enqueue(s.client, capacity, x)
    case Queued(c) => s.(client := c, emitted := s.emitted + [x])
    case Full => s.(held := Some(x), emitted := s.emitted + [x])
    case ShutDown => s
  }

  function Next(log: Log, capacity: nat, s: State, a: Step): State {
    match a
    case Connect =>
      var c := Loaded(s.client, s.stored);
      s.(client := c, up := true, cursor := FirstSent(log, Max(StartLsn(s.stored), s.confirmed)),
         base := |s.sent|, loaded := c.durable, saves := [], leftover := s.client.queue, emitted := [], dispatched := [])
    case Wal(lsn) => s.(client := SawWal(s.client, lsn))
    case Keepalive(lsn, reply) =>
      var t := s.(client := SawWal(s.client, lsn));
      if reply then Tell(t) else t
    case Receive => Emit(s, capacity, s.cursor).(cursor := s.cursor + 1)
    case Unblock =>
      if s.held.Some? && Enqueue(s.client, capacity, s.held.value).Queued?
      then s.(client := Enqueue(s.client, capacity, s.held.value).client, held := None) else s
    case Dispatch =>
      (match Dequeue(s.client)
       case Item(c, x) =>
         s.(client := c, inflight := Some(x), handed := s.handed + {x}, dispatched := s.dispatched + [x])
       case _ => s)
    case Write(lsn) =>
      if s.inflight.None? || s.inflight.value >= |log| then s
      else
        var k := s.inflight.value;
        s.(stored := Some(lsn), unnotified := Some(lsn), high := Max(s.high, lsn), saves := s.saves + [lsn],
           selfSaved := if log[k].start <= lsn then s.selfSaved + {k} else s.selfSaved)
    case Notify => if s.unnotified.None? then s else s.(client := Saved(s.client, s.unnotified.value), unnotified := None)
    case Return => if s.inflight.None? then s else s.(returned := s.returned + {s.inflight.value}, inflight := None)
    case Report => Tell(s)
    case Confirm(i) => if i < |s.sent| then s.(confirmed := Max(s.confirmed, s.sent[i].flushed + 1)) else s
    case Close => s.(client := Closed(s.client), held := None)
    case Finish => Tell(s).(up := false)
    case Drop => s.(up := false, held := None, inflight := None, unnotified := None)
    case Crash => s.(up := false, held := None, inflight := None, unnotified := None, client := Fresh())
  }

  /** Steps that open or end a session. */
  predicate Session(a: Step) {
    a.Connect? || a.Close? || a.Finish? || a.Drop? || a.Crash?
  }

  /** Steps that exchange positions with the server. */
  predicate Talk(a: Step) {
    a.Wal? || a.Keepalive? || a.Report? || a.Confirm?
  }

  /** Steps that move a transaction towards the handler. */
  predicate Move(a: Step) {
    a.Receive? || a.Unblock? || a.Dispatch?
  }

  /** Steps of the handler. */
  predicate Handling(a: Step) {
    a.Write? || a.Notify? || a.Return?
  }

  ghost predicate Runs(log: Log, capacity: nat, s: State, steps: seq<Step>)
    decreases |steps|
  {
    steps == [] || (Enabled(log, capacity, s, steps[0]) && Runs(log, capacity, Next(log, capacity, s, steps[0]), steps[1..]))
  }

  function After(log: Log, capacity: nat, s: State, steps: seq<Step>): State
    decreases |steps|
  {
    if steps == [] then s else After(log, capacity, Next(log, capacity, s, steps[0]), steps[1..])
  }

  // ---- what must not happen ----

  /** The handler returned normally, or it made a save that covers its own transaction. */
  function Done(s: State): set<nat> {
    s.returned + s.selfSaved
  }

  /** Nothing at or below the checkpoint, or below the position the server may forget, was left undone. */
  ghost predicate NoLoss(log: Log, s: State) {
    forall i :: 0 <= i < |log|
                && ((s.stored.Some? && log[i].start <= s.stored.value) || log[i].start < s.confirmed)
                ==> i in Done(s)
  }

  /** Every item is preceded by all earlier transactions that are not in `ok`. */
  ghost predicate Chain(ok: set<nat>, items: seq<nat>) {
    forall p, i :: 0 <= p < |items| && 0 <= i < items[p] ==> i in ok || i in items[..p]
  }

  function Opt(o: Option<nat>): seq<nat> {
    if o.Some? then [o.value] else []
  }

  /** What is still to be handed over, in order, ending with what the server sends next; nothing after a close. */
  function Ahead(s: State): seq<nat> {
    if s.client.closing then [] else s.client.queue + Opt(s.held) + (if s.up then [s.cursor] else [])
  }

  lemma ChainMore(ok: set<nat>, more: set<nat>, items: seq<nat>)
    requires Chain(ok, items) && ok <= more
    ensures Chain(more, items)
  {
  }

  lemma ChainPrefix(ok: set<nat>, items: seq<nat>, n: nat)
    requires Chain(ok, items) && n <= |items|
    ensures Chain(ok, items[..n])
  {
    assert forall p :: 0 <= p < n ==> items[..n][..p] == items[..p];
  }

  /** Taking the head off is safe once the head itself is accounted for. */
  lemma ChainTail(ok: set<nat>, items: seq<nat>)
    requires items != [] && Chain(ok, items) && items[0] in ok
    ensures Chain(ok, items[1..])
  {
    forall p, i | 0 <= p < |items[1..]| && 0 <= i < items[1..][p]
      ensures i in ok || i in items[1..][..p]
    {
      assert items[..p + 1] == [items[0]] + items[1..][..p];
    }
  }

  /** The server sends on: the item it sent is followed by the next. */
  lemma ChainNext(ok: set<nat>, items: seq<nat>, c: nat)
    requires Chain(ok, items + [c])
    ensures Chain(ok, items + [c] + [c + 1])
  {
    var more := items + [c] + [c + 1];
    forall p, i | 0 <= p < |more| && 0 <= i < more[p]
      ensures i in ok || i in more[..p]
    {
      if p <= |items| {
        assert more[..p] == (items + [c])[..p];
        assert more[p] == (items + [c])[p];
      } else {
        assert more[..p] == items + [c];
        if i < c {
          assert (items + [c])[..|items|] == items;
          assert (items + [c])[|items|] == c;
          assert i in ok || i in items;
        } else {
          assert (items + [c])[|items|] == i;
        }
      }
    }
  }

  lemma ChainResume(ok: set<nat>, items: seq<nat>, c: nat)
    requires Chain(ok, items) && forall i :: 0 <= i < c ==> i in ok
    ensures Chain(ok, items + [c])
  {
    var more := items + [c];
    forall p, i | 0 <= p < |more| && 0 <= i < more[p]
      ensures i in ok || i in more[..p]
    {
      if p < |items| {
        assert more[..p] == items[..p];
      }
    }
  }

  lemma ChainConcat(ok: set<nat>, a: seq<nat>, b: seq<nat>)
    requires Chain(ok, a + b)
    ensures Chain(ok, a)
  {
    ChainPrefix(ok, a + b, |a|);
    assert (a + b)[..|a|] == a;
  }
}
