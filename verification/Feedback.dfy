/** What the client tells the server, and how transactions move through the bounded queue. */
module Feedback {
  import opened Wrappers
  import opened ClientState
  import opened Delivery
  import opened Bytes
  import Protocol
  import Restarts

  function StoredOrZero(s: State): nat {
    if s.stored.Some? then s.stored.value else 0
  }

  // ---- flushed never runs ahead of the checkpoint ----

  ghost predicate Honest(s: State) {
    && s.client.durable <= StoredOrZero(s)
    && (s.unnotified.Some? ==> s.unnotified.value <= StoredOrZero(s))
    && (forall i :: 0 <= i < |s.sent| ==> s.sent[i].applied == s.sent[i].flushed <= StoredOrZero(s))
  }

  /** Handlers never save below what is stored. */
  ghost predicate RisingSaves(log: Log, capacity: nat, s: State, steps: seq<Step>)
    decreases |steps|
  {
    steps == [] ||
    ((steps[0].Write? ==> steps[0].lsn >= StoredOrZero(s)) && RisingSaves(log, capacity, Next(log, capacity, s, steps[0]), steps[1..]))
  }

  lemma HonestStepSession(log: Log, capacity: nat, s: State, a: Step)
    requires Honest(s) && Restarts.Shape(log, s) && Enabled(log, capacity, s, a)
    requires a.Write? ==> a.lsn >= StoredOrZero(s)
    requires Session(a)
    ensures Honest(Next(log, capacity, s, a))
  {
  }

  lemma HonestStepTalk(log: Log, capacity: nat, s: State, a: Step)
    requires Honest(s) && Restarts.Shape(log, s) && Enabled(log, capacity, s, a)
    requires a.Write? ==> a.lsn >= StoredOrZero(s)
    requires Talk(a)
    ensures Honest(Next(log, capacity, s, a))
  {
  }

  lemma HonestStepMove(log: Log, capacity: nat, s: State, a: Step)
    requires Honest(s) && Restarts.Shape(log, s) && Enabled(log, capacity, s, a)
    requires a.Write? ==> a.lsn >= StoredOrZero(s)
    requires Move(a)
    ensures Honest(Next(log, capacity, s, a))
  {
  }

  lemma HonestStepHandling(log: Log, capacity: nat, s: State, a: Step)
    requires Honest(s) && Restarts.Shape(log, s) && Enabled(log, capacity, s, a)
    requires a.Write? ==> a.lsn >= StoredOrZero(s)
    requires Handling(a)
    ensures Honest(Next(log, capacity, s, a))
  {
  }

  lemma HonestStep(log: Log, capacity: nat, s: State, a: Step)
    requires Honest(s) && Restarts.Shape(log, s) && Enabled(log, capacity, s, a)
    requires a.Write? ==> a.lsn >= StoredOrZero(s)
    ensures Honest(Next(log, capacity, s, a))
  {
    hide Enabled, Next;
    if Session(a) {
      HonestStepSession(log, capacity, s, a);
    } else if Talk(a) {
      HonestStepTalk(log, capacity, s, a);
    } else if Move(a) {
      HonestStepMove(log, capacity, s, a);
    } else {
      HonestStepHandling(log, capacity, s, a);
    }
  }

  /**
   With saves that never go down every status update ever sent, as the server reads it, is at most one above
   the stored checkpoint.
   */
  lemma {:induction false} HonestRun(log: Log, capacity: nat, s: State, steps: seq<Step>)
    requires Honest(s) && Restarts.Shape(log, s)
    requires Runs(log, capacity, s, steps) && RisingSaves(log, capacity, s, steps)
    ensures Honest(Delivery.After(log, capacity, s, steps))
    decreases |steps|
  {
    if steps != [] {
      HonestStep(log, capacity, s, steps[0]);
      Restarts.ShapeStep(log, capacity, s, steps[0]);
      HonestRun(log, capacity, Next(log, capacity, s, steps[0]), steps[1..]);
    }
  }

  /** One save is all it takes: the next status runs ahead of the checkpoint exactly when it went below the durable position. */
  lemma LowSaveOverstates(log: Log, capacity: nat, s: State, lsn: nat)
    requires Honest(s) && s.up && Enabled(log, capacity, s, Write(lsn))
    ensures var t := Next(log, capacity, Next(log, capacity, s, Write(lsn)), Report);
            t.sent[|t.sent| - 1].flushed <= StoredOrZero(t) <==> lsn >= s.client.durable
  {
  }

  /** The positions a status update carries on the wire. */
  lemma StatusOnWire(s: State, now: nat)
    requires Protocol.Lsn(s.client.written + 1) && Protocol.Lsn(s.client.durable + 1) && Protocol.Lsn(now)
    ensures Protocol.ServerReads(Protocol.EncodeStatusUpdate(Status(s.client, now)))
            == (s.client.written + 1, s.client.durable + 1, s.client.durable + 1)
  {
    Protocol.StatusUpdatePlusOne(Status(s.client, now));
  }

  /** Whether the step sends a status update: on request, at any wait, and at the end of a clean shutdown. */
  predicate Tells(a: Step) {
    a.Report? || a.Finish? || (a.Keepalive? && a.reply)
  }

  /** The position that a step learns from the server. */
  function Learns(a: Step): nat {
    match a
    case Wal(lsn) => lsn
    case Keepalive(walEnd, _) => walEnd
    case _ => 0
  }

  /**
   Those steps and no others send one update, which carries the written position after the step and the durable
   one; the written position rises to what the step learned, and falls only with the process.
   */
  lemma StepSends(log: Log, capacity: nat, s: State, a: Step)
    requires Enabled(log, capacity, s, a)
    ensures var t := Next(log, capacity, s, a);
            && |t.sent| == |s.sent| + (if Tells(a) then 1 else 0) && s.sent <= t.sent
            && (Tells(a) ==>
                  var u := t.sent[|s.sent|];
                  u.written == t.client.written && u.flushed == u.applied == s.client.durable && !u.replyRequested)
            && (!a.Crash? ==> t.client.written == if s.client.written < Learns(a) then Learns(a) else s.client.written)
  {
  }

  /** The server confirms what it reads in an update, or stays where it was. */
  lemma ConfirmsWhatIsRead(log: Log, capacity: nat, s: State, i: nat)
    requires Enabled(log, capacity, s, Confirm(i)) && Protocol.StatusFits(s.sent[i])
    ensures var read := Protocol.ServerReads(Protocol.EncodeStatusUpdate(s.sent[i])).1;
            Next(log, capacity, s, Confirm(i)).confirmed == if s.confirmed < read then read else s.confirmed
  {
    Protocol.StatusUpdatePlusOne(s.sent[i]);
    hide Protocol.ServerReads, Protocol.EncodeStatusUpdate;
  }

  // ---- within one connection nothing goes down ----

  ghost predicate Rising(s: State) {
    && s.base <= |s.sent|
    && (forall i, j :: s.base <= i <= j < |s.sent| ==>
                         s.sent[i].written <= s.sent[j].written && s.sent[i].flushed <= s.sent[j].flushed)
    && (s.up ==> forall i :: s.base <= i < |s.sent| ==>
                               s.sent[i].written <= s.client.written && s.sent[i].flushed <= s.client.durable)
  }

  lemma RisingStepSession(log: Log, capacity: nat, s: State, a: Step)
    requires Rising(s) && Restarts.Shape(log, s) && Enabled(log, capacity, s, a)
    requires Session(a)
    ensures Rising(Next(log, capacity, s, a))
  {
  }

  lemma RisingTell(s: State, c: Client<nat>)
    requires Rising(s) && s.up && s.client.written <= c.written && s.client.durable <= c.durable
    ensures Rising(Tell(s.(client := c)))
  {
  }

  lemma RisingSame(s: State, t: State)
    requires Rising(s) && t.base == s.base && t.sent == s.sent && (t.up ==> s.up)
    requires t.up ==> s.client.written <= t.client.written && s.client.durable <= t.client.durable
    ensures Rising(t)
  {
  }

  lemma RisingStepTalk(log: Log, capacity: nat, s: State, a: Step)
    requires Rising(s) && Restarts.Shape(log, s) && Enabled(log, capacity, s, a)
    requires Talk(a)
    ensures Rising(Next(log, capacity, s, a))
  {
    hide Rising, Restarts.Shape, Tell;
    match a
    case Keepalive(lsn, reply) =>
      if reply {
        RisingTell(s, SawWal(s.client, lsn));
      } else {
        RisingSame(s, Next(log, capacity, s, a));
      }
    case Report => RisingTell(s, s.client);
    case _ => RisingSame(s, Next(log, capacity, s, a));
  }

  lemma RisingStepMove(log: Log, capacity: nat, s: State, a: Step)
    requires Rising(s) && Restarts.Shape(log, s) && Enabled(log, capacity, s, a)
    requires Move(a)
    ensures Rising(Next(log, capacity, s, a))
  {
  }

  lemma RisingStepHandling(log: Log, capacity: nat, s: State, a: Step)
    requires Rising(s) && Restarts.Shape(log, s) && Enabled(log, capacity, s, a)
    requires Handling(a)
    ensures Rising(Next(log, capacity, s, a))
  {
  }

  lemma RisingStep(log: Log, capacity: nat, s: State, a: Step)
    requires Rising(s) && Restarts.Shape(log, s) && Enabled(log, capacity, s, a)
    ensures Rising(Next(log, capacity, s, a))
  {
    hide Enabled, Next;
    if Session(a) {
      RisingStepSession(log, capacity, s, a);
    } else if Talk(a) {
      RisingStepTalk(log, capacity, s, a);
    } else if Move(a) {
      RisingStepMove(log, capacity, s, a);
    } else {
      RisingStepHandling(log, capacity, s, a);
    }
  }

  /** In every run, the written and flushed positions sent on one connection never go down. */
  lemma {:induction false} RisingRun(log: Log, capacity: nat, s: State, steps: seq<Step>)
    requires Rising(s) && Restarts.Shape(log, s) && Runs(log, capacity, s, steps)
    ensures Rising(Delivery.After(log, capacity, s, steps))
    decreases |steps|
  {
    if steps != [] {
      RisingStep(log, capacity, s, steps[0]);
      Restarts.ShapeStep(log, capacity, s, steps[0]);
      RisingRun(log, capacity, Next(log, capacity, s, steps[0]), steps[1..]);
    }
  }

  // ---- bounded, in order ----

  function Peak(floor: nat, saves: seq<nat>): nat
    decreases |saves|
  {
    if saves == [] then floor else Max(saves[|saves| - 1], Peak(floor, saves[..|saves| - 1]))
  }

  lemma {:induction false} PeakBounds(floor: nat, saves: seq<nat>, i: nat)
    requires i < |saves|
    ensures saves[i] <= Peak(floor, saves) && floor <= Peak(floor, saves)
    decreases |saves|
  {
    if i < |saves| - 1 {
      PeakBounds(floor, saves[..|saves| - 1], i);
    } else if |saves| > 1 {
      PeakBounds(floor, saves[..|saves| - 1], 0);
    }
  }

  /** The saves of this connection that the client has been told of. */
  function Told(s: State): seq<nat> {
    if s.unnotified.Some? && s.saves != [] then s.saves[..|s.saves| - 1] else s.saves
  }

  ghost predicate InOrder(capacity: nat, s: State) {
    && |s.client.queue| <= capacity
    && (s.up && !s.client.closing ==> s.dispatched + s.client.queue + Opt(s.held) == s.leftover + s.emitted)
    && (s.up && s.client.closing ==> s.dispatched <= s.leftover + s.emitted)
    && (s.held.Some? && !s.client.closing ==> s.emitted != [])
    && (s.up ==> s.client.durable == Peak(s.loaded, Told(s)))
    && (s.unnotified.Some? ==> s.saves != [] && s.saves[|s.saves| - 1] == s.unnotified.value)
  }

  lemma OrderConnect(log: Log, capacity: nat, s: State)
    requires InOrder(capacity, s) && Restarts.Shape(log, s) && Enabled(log, capacity, s, Connect)
    ensures InOrder(capacity, Next(log, capacity, s, Connect))
  {
    var t := Next(log, capacity, s, Connect);
    assert Told(t) == [];
    assert [] + t.client.queue + [] == t.leftover + [];
  }

  lemma Shift(a: seq<nat>, b: seq<nat>, c: seq<nat>)
    ensures a + b + c == a + (b + c) && a + [] == a
  {
  }

  lemma OrderReceive(log: Log, capacity: nat, s: State)
    requires InOrder(capacity, s) && Restarts.Shape(log, s) && Enabled(log, capacity, s, Receive)
    ensures InOrder(capacity, Next(log, capacity, s, Receive))
  {
    var t := Next(log, capacity, s, Receive);
    assert Told(t) == Told(s);
    hide Restarts.Shape, Peak, Told;
    var c := [s.cursor];
    Shift(s.dispatched, s.client.queue, c);
    Shift(s.leftover, s.emitted, c);
    Shift(s.dispatched + s.client.queue, [], []);
    Shift(s.dispatched + (s.client.queue + c), [], []);
  }

  lemma OrderUnblock(log: Log, capacity: nat, s: State)
    requires InOrder(capacity, s) && Restarts.Shape(log, s) && Enabled(log, capacity, s, Unblock)
    ensures InOrder(capacity, Next(log, capacity, s, Unblock))
  {
    var t := Next(log, capacity, s, Unblock);
    assert Told(t) == Told(s);
    hide Restarts.Shape, Peak, Told;
    Shift(s.dispatched, s.client.queue, [s.held.value]);
    Shift(s.dispatched + (s.client.queue + [s.held.value]), [], []);
  }

  lemma OrderDispatch(log: Log, capacity: nat, s: State)
    requires InOrder(capacity, s) && Restarts.Shape(log, s) && Enabled(log, capacity, s, Dispatch)
    ensures InOrder(capacity, Next(log, capacity, s, Dispatch))
  {
    var t := Next(log, capacity, s, Dispatch);
    assert Told(t) == Told(s);
    hide Peak, Told;
    assert s.client.queue == [s.client.queue[0]] + s.client.queue[1..];
    Shift(s.dispatched, [s.client.queue[0]], s.client.queue[1..]);
  }

  lemma OrderClose(log: Log, capacity: nat, s: State)
    requires InOrder(capacity, s) && Restarts.Shape(log, s) && Enabled(log, capacity, s, Close)
    ensures InOrder(capacity, Next(log, capacity, s, Close))
  {
    var t := Next(log, capacity, s, Close);
    assert Told(t) == Told(s);
    hide Peak, Told;
    Shift(s.dispatched, s.client.queue, Opt(s.held));
  }

  lemma OrderSaves(log: Log, capacity: nat, s: State, a: Step)
    requires InOrder(capacity, s) && Restarts.Shape(log, s) && Enabled(log, capacity, s, a)
    requires a.Write? || a.Notify?
    ensures InOrder(capacity, Next(log, capacity, s, a))
  {
    var t := Next(log, capacity, s, a);
    if a.Write? {
      assert t.saves[..|t.saves| - 1] == s.saves;
    } else {
      assert Told(t) == t.saves;
    }
  }

  lemma OrderElse(log: Log, capacity: nat, s: State, a: Step)
    requires InOrder(capacity, s) && Restarts.Shape(log, s) && Enabled(log, capacity, s, a)
    requires Talk(a) || a.Return? || a.Finish? || a.Drop? || a.Crash?
    ensures InOrder(capacity, Next(log, capacity, s, a))
  {
    var t := Next(log, capacity, s, a);
    assert t.up ==> Told(t) == Told(s);
    hide Peak, Told;
  }

  lemma OrderStep(log: Log, capacity: nat, s: State, a: Step)
    requires InOrder(capacity, s) && Restarts.Shape(log, s) && Enabled(log, capacity, s, a)
    ensures InOrder(capacity, Next(log, capacity, s, a))
  {
    hide InOrder, Restarts.Shape, Enabled, Next;
    match a
    case Receive => OrderReceive(log, capacity, s);
    case Unblock => OrderUnblock(log, capacity, s);
    case Dispatch => OrderDispatch(log, capacity, s);
    case Close => OrderClose(log, capacity, s);
    case Connect => OrderConnect(log, capacity, s);
    case Write(_) => OrderSaves(log, capacity, s, a);
    case Notify => OrderSaves(log, capacity, s, a);
    case _ => OrderElse(log, capacity, s, a);
  }

  /**
   In every run and at every moment of a connection: the queue is within its bound, at most two more are
   unfinished, and what was dispatched, then queued, then held is what was left over, then emitted.
   */
  lemma {:induction false} BoundedInOrder(log: Log, capacity: nat, s: State, steps: seq<Step>)
    requires InOrder(capacity, s) && Restarts.Shape(log, s) && Runs(log, capacity, s, steps)
    ensures InOrder(capacity, Delivery.After(log, capacity, s, steps))
    ensures var t := Delivery.After(log, capacity, s, steps);
            |Opt(t.inflight)| + |t.client.queue| + |Opt(t.held)| <= capacity + 2
    decreases |steps|
  {
    if steps != [] {
      OrderStep(log, capacity, s, steps[0]);
      Restarts.ShapeStep(log, capacity, s, steps[0]);
      BoundedInOrder(log, capacity, Next(log, capacity, s, steps[0]), steps[1..]);
    }
  }

  /** The receiver starts to wait only when as many transactions as allowed are queued, and goes on only when fewer are. */
  lemma WaitsOnlyWhenFull(log: Log, capacity: nat, s: State, a: Step)
    requires InOrder(capacity, s) && Restarts.Shape(log, s) && Enabled(log, capacity, s, a)
    ensures var t := Next(log, capacity, s, a);
            && (s.held.None? && t.held.Some? ==> |s.client.queue| == |t.client.queue| == capacity)
            && (a.Receive? && !s.client.closing && |s.client.queue| < capacity ==>
                  t.client.queue == s.client.queue + [s.cursor] && t.held.None?)
            && (a.Unblock? ==> |s.client.queue| < capacity && t.client.queue == s.client.queue + [s.held.value])
  {
    hide Peak, Told;
  }

  lemma InitInOrder(capacity: nat, confirmed: nat)
    ensures InOrder(capacity, Init(confirmed)) && Honest(Init(confirmed)) && Rising(Init(confirmed))
    ensures forall log: Log :: Restarts.Shape(log, Init(confirmed))
  {
  }

  /**
   In every run with saves that never go down, the flushed and applied positions of every status update, as the
   server reads them, are at most one above the stored checkpoint; cutting the run after an update shows it for
   the moment of sending. Later updates on the connection carry no lower positions.
   */
  lemma FeedbackSafe(log: Log, capacity: nat, confirmed: nat, steps: seq<Step>, i: nat)
    requires Runs(log, capacity, Init(confirmed), steps) && RisingSaves(log, capacity, Init(confirmed), steps)
    requires i < |Delivery.After(log, capacity, Init(confirmed), steps).sent|
    requires Protocol.StatusFits(Delivery.After(log, capacity, Init(confirmed), steps).sent[i])
    ensures var t := Delivery.After(log, capacity, Init(confirmed), steps);
            var (written, flushed, applied) := Protocol.ServerReads(Protocol.EncodeStatusUpdate(t.sent[i]));
            && applied == flushed <= StoredOrZero(t) + 1
            && written == t.sent[i].written + 1
            && (forall j :: t.base <= i <= j < |t.sent| ==>
                              t.sent[i].written <= t.sent[j].written && t.sent[i].flushed <= t.sent[j].flushed)
  {
    InitInOrder(capacity, confirmed);
    HonestRun(log, capacity, Init(confirmed), steps);
    RisingRun(log, capacity, Init(confirmed), steps);
    hide Runs, RisingSaves, Protocol.ServerReads, Protocol.EncodeStatusUpdate;
    Protocol.StatusUpdatePlusOne(Delivery.After(log, capacity, Init(confirmed), steps).sent[i]);
  }

  /** The client stays closed until its process ends. */
  ghost predicate NoCrash(steps: seq<Step>) {
    forall i :: 0 <= i < |steps| ==> !steps[i].Crash?
  }

  /** After close this client never dispatches anything new and never connects again. */
  lemma {:induction false} NoDispatchAfterClose(log: Log, capacity: nat, s: State, steps: seq<Step>)
    requires Restarts.Shape(log, s) && s.client.closing && Runs(log, capacity, s, steps) && NoCrash(steps)
    ensures Delivery.After(log, capacity, s, steps).handed == s.handed
    ensures Delivery.After(log, capacity, s, steps).client.closing
    ensures Delivery.After(log, capacity, s, steps).up ==> s.up
    decreases |steps|
  {
    if steps != [] {
      Restarts.ShapeStep(log, capacity, s, steps[0]);
      assert !steps[0].Crash?;
      assert NoCrash(steps[1..]);
      NoDispatchAfterClose(log, capacity, Next(log, capacity, s, steps[0]), steps[1..]);
    }
  }

  /** The last status update of a clean shutdown covers every save made on the connection, the in-flight handler's too. */
  lemma FinalStatusCoversSaves(log: Log, capacity: nat, s: State, i: nat)
    requires InOrder(capacity, s) && Restarts.Shape(log, s) && Enabled(log, capacity, s, Finish) && i < |s.saves|
    ensures var t := Next(log, capacity, s, Finish);
            t.sent == s.sent + [Status(s.client, 0)]
            && t.sent[|t.sent| - 1].flushed == Peak(s.loaded, s.saves) >= s.saves[i]
  {
    PeakBounds(s.loaded, s.saves, i);
  }

  // ---- resume arithmetic ----

  lemma FirstSentIs(log: Log, from: nat, k: nat)
    requires Ordered(log) && k <= |log|
    requires forall i :: 0 <= i < k ==> log[i].start < from
    requires k < |log| ==> log[k].start >= from
    ensures FirstSent(log, from) == k
  {
    var n := FirstSent(log, from);
  }

  /** The server's confirmed flush is where it was at first, or at most one above the checkpoint. */
  ghost predicate ConfirmedBehind(first: nat, s: State) {
    s.confirmed <= Max(first, StoredOrZero(s) + 1)
  }

  lemma ConfirmedStep(log: Log, capacity: nat, first: nat, s: State, a: Step)
    requires ConfirmedBehind(first, s) && Honest(s) && Enabled(log, capacity, s, a)
    requires a.Write? ==> a.lsn >= StoredOrZero(s)
    ensures ConfirmedBehind(first, Next(log, capacity, s, a))
  {
  }

  lemma {:induction false} ConfirmedRun(log: Log, capacity: nat, first: nat, s: State, steps: seq<Step>)
    requires ConfirmedBehind(first, s) && Honest(s) && Restarts.Shape(log, s)
    requires Runs(log, capacity, s, steps) && RisingSaves(log, capacity, s, steps)
    ensures ConfirmedBehind(first, Delivery.After(log, capacity, s, steps))
    decreases |steps|
  {
    hide Honest, ConfirmedBehind, Enabled, Next, Restarts.Shape;
    if steps != [] {
      ConfirmedStep(log, capacity, first, s, steps[0]);
      HonestStep(log, capacity, s, steps[0]);
      Restarts.ShapeStep(log, capacity, s, steps[0]);
      ConfirmedRun(log, capacity, first, Next(log, capacity, s, steps[0]), steps[1..]);
    }
  }

  lemma ResumeFrom(log: Log, s: State, k: nat)
    requires Ordered(log) && k < |log| && s.stored == Some(CommitLsn(log, k)) && s.confirmed <= log[k].end
    ensures StartLsn(s.stored) == log[k].end
    ensures FirstSent(log, Max(StartLsn(s.stored), s.confirmed)) == k + 1
  {
    forall i | 0 <= i < k + 1
      ensures log[i].start < log[k].end
    {
      assert log[i].start < log[i].end;
      assert log[k].start < log[k].end;
    }
    FirstSentIs(log, log[k].end, k + 1);
  }

  /**
   In every run with saves that never go down: whenever the checkpoint is the commit LSN of transaction `k`, a new
   connection asks for exactly its end position, the flushed position on the wire is that same number, and the
   server sends exactly from `k + 1` on.
   */
  lemma ResumeExactly(log: Log, capacity: nat, confirmed: nat, steps: seq<Step>, k: nat, now: nat)
    requires Ordered(log) && k < |log| && confirmed <= log[0].start
    requires Runs(log, capacity, Init(confirmed), steps) && RisingSaves(log, capacity, Init(confirmed), steps)
    requires var s := Delivery.After(log, capacity, Init(confirmed), steps);
             && Enabled(log, capacity, s, Connect) && s.stored == Some(CommitLsn(log, k))
             && Protocol.Lsn(log[k].end) && Protocol.Lsn(s.client.written + 1) && Protocol.Lsn(now)
    ensures var s := Delivery.After(log, capacity, Init(confirmed), steps);
            var t := Next(log, capacity, s, Connect);
            && StartLsn(s.stored) == log[k].end
            && Protocol.ServerReads(Protocol.EncodeStatusUpdate(Status(t.client, now))).1 == log[k].end
            && t.cursor == k + 1
  {
    hide Runs, RisingSaves, Delivery.After;
    InitInOrder(capacity, confirmed);
    HonestRun(log, capacity, Init(confirmed), steps);
    ConfirmedRun(log, capacity, confirmed, Init(confirmed), steps);
    var s := Delivery.After(log, capacity, Init(confirmed), steps);
    assert confirmed <= log[0].start < log[0].end <= log[k].end;
    ResumeFrom(log, s, k);
    StatusOnWire(Next(log, capacity, s, Connect), now);
  }
}
