/** No committed transaction is skipped: what holds over restarts, and what a lost connection can break. */
module Restarts {
  import opened Wrappers
  import opened ClientState
  import opened Delivery

  /** Positions that were ever made durable bound everything the client or the server goes by. */
  ghost predicate Positions(s: State) {
    && (s.stored.Some? ==> s.stored.value <= s.high)
    && (s.unnotified.Some? ==> s.unnotified.value <= s.high)
    && s.client.durable <= s.high
    && (forall i :: 0 <= i < |s.sent| ==> s.sent[i].flushed <= s.high)
  }

  /** Everything at or below a durable or confirmed position is in `ok`. */
  ghost predicate Covered(log: Log, ok: set<nat>, s: State) {
    && (forall i :: 0 <= i < |log| && log[i].start <= s.high ==> i in ok)
    && (forall i :: 0 <= i < |log| && log[i].start < s.confirmed ==> i in ok)
  }

  ghost predicate Shape(log: Log, s: State) {
    && (s.inflight.Some? ==> s.up && s.inflight.value < |log|)
    && (s.held.Some? ==> s.up && s.held.value < |log|)
    && (s.unnotified.Some? ==> s.inflight.Some?)
    && s.cursor <= |log|
    && (forall x :: x in s.client.queue ==> x < |log|)
    && (s.client.closing ==> s.client.queue == [] && s.held.None?)
  }

  lemma PositionsStepSession(log: Log, capacity: nat, s: State, a: Step)
    requires Positions(s) && Enabled(log, capacity, s, a)
    requires Session(a)
    ensures Positions(Next(log, capacity, s, a))
  {
  }

  lemma PositionsStepTalk(log: Log, capacity: nat, s: State, a: Step)
    requires Positions(s) && Enabled(log, capacity, s, a)
    requires Talk(a)
    ensures Positions(Next(log, capacity, s, a))
  {
  }

  lemma PositionsStepMove(log: Log, capacity: nat, s: State, a: Step)
    requires Positions(s) && Enabled(log, capacity, s, a)
    requires Move(a)
    ensures Positions(Next(log, capacity, s, a))
  {
  }

  lemma PositionsStepHandling(log: Log, capacity: nat, s: State, a: Step)
    requires Positions(s) && Enabled(log, capacity, s, a)
    requires Handling(a)
    ensures Positions(Next(log, capacity, s, a))
  {
  }

  lemma PositionsStep(log: Log, capacity: nat, s: State, a: Step)
    requires Positions(s) && Enabled(log, capacity, s, a)
    ensures Positions(Next(log, capacity, s, a))
  {
    hide Enabled, Next;
    if Session(a) {
      PositionsStepSession(log, capacity, s, a);
    } else if Talk(a) {
      PositionsStepTalk(log, capacity, s, a);
    } else if Move(a) {
      PositionsStepMove(log, capacity, s, a);
    } else {
      PositionsStepHandling(log, capacity, s, a);
    }
  }

  lemma ShapeStepSession(log: Log, capacity: nat, s: State, a: Step)
    requires Shape(log, s) && Enabled(log, capacity, s, a)
    requires Session(a)
    ensures Shape(log, Next(log, capacity, s, a))
  {
  }

  lemma ShapeStepTalk(log: Log, capacity: nat, s: State, a: Step)
    requires Shape(log, s) && Enabled(log, capacity, s, a)
    requires Talk(a)
    ensures Shape(log, Next(log, capacity, s, a))
  {
  }

  lemma ShapeStepMove(log: Log, capacity: nat, s: State, a: Step)
    requires Shape(log, s) && Enabled(log, capacity, s, a)
    requires Move(a)
    ensures Shape(log, Next(log, capacity, s, a))
  {
    var q, t := s.client.queue, Next(log, capacity, s, a).client.queue;
    if a.Dispatch? {
      assert q[0] in q && forall x :: x in q[1..] ==> x in q;
    } else if a.Receive? {
      assert forall x :: x in t ==> x in q || x == s.cursor;
    } else {
      assert forall x :: x in t ==> x in q || x == s.held.value;
    }
  }

  lemma ShapeStepHandling(log: Log, capacity: nat, s: State, a: Step)
    requires Shape(log, s) && Enabled(log, capacity, s, a)
    requires Handling(a)
    ensures Shape(log, Next(log, capacity, s, a))
  {
  }

  lemma ShapeStep(log: Log, capacity: nat, s: State, a: Step)
    requires Shape(log, s) && Enabled(log, capacity, s, a)
    ensures Shape(log, Next(log, capacity, s, a))
  {
    hide Enabled, Next;
    if Session(a) {
      ShapeStepSession(log, capacity, s, a);
    } else if Talk(a) {
      ShapeStepTalk(log, capacity, s, a);
    } else if Move(a) {
      ShapeStepMove(log, capacity, s, a);
    } else {
      ShapeStepHandling(log, capacity, s, a);
    }
  }

  /** Saving a position only covers transactions up to the one whose handler saved it. */
  lemma WriteReaches(log: Log, k: nat, lsn: nat, i: nat)
    requires Ordered(log) && k < |log| && i < |log| && lsn <= CommitLsn(log, k) && log[i].start <= lsn
    ensures i <= k
  {
    assert log[k].start < log[k].end;
  }

  lemma CoveredStep(log: Log, capacity: nat, ok: set<nat>, more: set<nat>, s: State, a: Step)
    requires Ordered(log) && Shape(log, s) && Positions(s) && Covered(log, ok, s) && Enabled(log, capacity, s, a)
    requires ok <= more
    requires a.Write? ==> forall i :: 0 <= i < s.inflight.value ==> i in more
    requires a.Write? && log[s.inflight.value].start <= a.lsn ==> s.inflight.value in more
    ensures Covered(log, more, Next(log, capacity, s, a))
  {
    hide Shape;
    if a.Write? {
      forall i | 0 <= i < |log| && log[i].start <= Max(s.high, a.lsn)
        ensures i in more
      {
        if log[i].start > s.high {
          WriteReaches(log, s.inflight.value, a.lsn, i);
        }
      }
    }
  }

  /** A new connection skips only what is covered. */
  lemma ResumeCovered(log: Log, ok: set<nat>, s: State, i: nat)
    requires Positions(s) && Covered(log, ok, s)
    requires i < FirstSent(log, Max(StartLsn(s.stored), s.confirmed))
    ensures i in ok
  {
    assert log[i].start < Max(StartLsn(s.stored), s.confirmed);
  }

  // ---- what is ahead, step by step ----

  /** How a step changes what is ahead. */
  lemma AheadStep(log: Log, capacity: nat, s: State, a: Step)
    requires Shape(log, s) && Enabled(log, capacity, s, a)
    ensures var t := Next(log, capacity, s, a);
            match a
            case Connect => Ahead(t) == s.client.queue + [t.cursor]
            case Receive => Ahead(t) == if s.client.closing then [] else Ahead(s) + [s.cursor + 1]
            case Dispatch => Ahead(s) == [s.client.queue[0]] + Ahead(t)
            case Close => Ahead(t) == []
            case Finish => Ahead(t) == []
            case Drop => Ahead(t) == s.client.queue
            case Crash => Ahead(t) == []
            case _ => Ahead(t) == Ahead(s)
  {
    var t := Next(log, capacity, s, a);
    match a
    case Connect =>
    case Receive =>
      assert !s.client.closing ==> Ahead(s) == s.client.queue + [] + [s.cursor];
    case Dispatch =>
      assert s.client.queue == [s.client.queue[0]] + t.client.queue;
    case Unblock =>
      assert s.client.queue + [s.held.value] + [s.cursor] == s.client.queue + [s.held.value] + [] + [s.cursor];
    case Drop =>
    case _ =>
  }

  // ---- strong: the handler finished, or saved for itself ----

  function Pipeline(s: State): seq<nat> {
    Opt(s.inflight) + Ahead(s)
  }

  ghost predicate Strong(log: Log, s: State) {
    Shape(log, s) && Positions(s) && Covered(log, Done(s), s) && Chain(Done(s), Pipeline(s))
  }

  /**
   The condition on losing a connection in mid-handler: every later transaction still in the queue is
   preceded there by another copy of the one whose handler is cancelled.
   */
  ghost predicate DropSafe(s: State) {
    s.inflight.Some? && s.inflight.value !in Done(s) ==>
      forall p :: 0 <= p < |s.client.queue| && s.client.queue[p] > s.inflight.value ==>
                    s.inflight.value in s.client.queue[..p]
  }

  lemma DropSafeChain(log: Log, s: State)
    requires Strong(log, s)
    ensures DropSafe(s) <==> Chain(Done(s), s.client.queue)
  {
    var q, pipe := s.client.queue, Pipeline(s);
    if s.inflight.Some? {
      var k := s.inflight.value;
      assert forall p :: 0 <= p < |q| ==> pipe[p + 1] == q[p] && pipe[..p + 1] == [k] + q[..p];
      if DropSafe(s) {
        forall p, i | 0 <= p < |q| && 0 <= i < q[p]
          ensures i in Done(s) || i in q[..p]
        {
          assert pipe[p + 1] == q[p];
          assert i in Done(s) || i in pipe[..p + 1];
        }
      }
    } else if !s.client.closing {
      assert pipe == q + (Opt(s.held) + (if s.up then [s.cursor] else []));
      ChainConcat(Done(s), q, Opt(s.held) + (if s.up then [s.cursor] else []));
    }
  }

  lemma DoneGrows(log: Log, capacity: nat, s: State, a: Step)
    requires Enabled(log, capacity, s, a)
    ensures Done(s) <= Done(Next(log, capacity, s, a))
  {
  }

  lemma StrongConnect(log: Log, capacity: nat, s: State)
    requires Strong(log, s) && Enabled(log, capacity, s, Connect)
    ensures var t := Next(log, capacity, s, Connect); Chain(Done(s), Pipeline(t))
  {
    var t := Next(log, capacity, s, Connect);
    AheadStep(log, capacity, s, Connect);
    forall i | 0 <= i < t.cursor
      ensures i in Done(s)
    {
      ResumeCovered(log, Done(s), s, i);
    }
    assert Pipeline(s) == s.client.queue && Pipeline(t) == s.client.queue + [t.cursor];
    hide Chain;
    ChainResume(Done(s), s.client.queue, t.cursor);
  }

  lemma StrongMove(log: Log, capacity: nat, s: State, a: Step)
    requires Strong(log, s) && Enabled(log, capacity, s, a) && Move(a)
    ensures var t := Next(log, capacity, s, a); Chain(Done(s), Pipeline(t))
  {
    var t := Next(log, capacity, s, a);
    AheadStep(log, capacity, s, a);
    hide Chain, Positions, Covered;
    if a.Receive? && !s.client.closing {
      var front := Opt(s.inflight) + s.client.queue;
      assert Pipeline(s) == front + [s.cursor];
      assert Pipeline(t) == front + [s.cursor] + [s.cursor + 1];
      ChainNext(Done(s), front, s.cursor);
    } else {
      assert Pipeline(t) == Pipeline(s);
    }
  }

  lemma StrongSession(log: Log, capacity: nat, s: State, a: Step)
    requires Strong(log, s) && Enabled(log, capacity, s, a) && Session(a)
    requires a.Drop? ==> DropSafe(s)
    ensures var t := Next(log, capacity, s, a); Chain(Done(s), Pipeline(t))
  {
    var t := Next(log, capacity, s, a);
    if a.Connect? {
      StrongConnect(log, capacity, s);
    } else {
      AheadStep(log, capacity, s, a);
      if a.Close? {
        assert Pipeline(t) == Opt(s.inflight);
        ChainConcat(Done(s), Opt(s.inflight), Ahead(s));
      } else if a.Drop? {
        DropSafeChain(log, s);
        assert Pipeline(t) == s.client.queue;
      } else {
        assert Pipeline(t) == [];
      }
    }
  }

  lemma StrongReturn(log: Log, capacity: nat, s: State)
    requires Strong(log, s) && Enabled(log, capacity, s, Return)
    ensures var t := Next(log, capacity, s, Return); Chain(Done(t), Pipeline(t))
  {
    var t := Next(log, capacity, s, Return);
    AheadStep(log, capacity, s, Return);
    assert Pipeline(t) == Pipeline(s)[1..];
    ChainMore(Done(s), Done(t), Pipeline(s));
    hide Chain;
    ChainTail(Done(t), Pipeline(s));
  }

  lemma StrongElse(log: Log, capacity: nat, s: State, a: Step)
    requires Strong(log, s) && Enabled(log, capacity, s, a) && (Talk(a) || a.Write? || a.Notify?)
    ensures Pipeline(Next(log, capacity, s, a)) == Pipeline(s)
  {
    AheadStep(log, capacity, s, a);
    hide Chain, Positions, Covered;
  }

  lemma StrongChain(log: Log, capacity: nat, s: State, a: Step)
    requires Strong(log, s) && Enabled(log, capacity, s, a)
    requires a.Drop? ==> DropSafe(s)
    ensures Chain(Done(Next(log, capacity, s, a)), Pipeline(Next(log, capacity, s, a)))
  {
    DoneGrows(log, capacity, s, a);
    assert Chain(Done(s), Pipeline(s));
    hide Chain, Enabled, Next, Strong, Pipeline, Done, DropSafe;
    var t := Next(log, capacity, s, a);
    if Session(a) {
      StrongSession(log, capacity, s, a);
      ChainMore(Done(s), Done(t), Pipeline(t));
    } else if Move(a) {
      StrongMove(log, capacity, s, a);
      ChainMore(Done(s), Done(t), Pipeline(t));
    } else if a.Return? {
      StrongReturn(log, capacity, s);
    } else {
      StrongElse(log, capacity, s, a);
      ChainMore(Done(s), Done(t), Pipeline(t));
    }
  }

  /** The one whose handler is running is first, so everything before it is done. */
  lemma BeforeInflight(log: Log, s: State, i: nat)
    requires Strong(log, s) && s.inflight.Some? && i < s.inflight.value
    ensures i in Done(s)
  {
    assert Pipeline(s)[0] == s.inflight.value && Pipeline(s)[..0] == [];
  }

  lemma StrongCovered(log: Log, capacity: nat, s: State, a: Step)
    requires Ordered(log) && Strong(log, s) && Enabled(log, capacity, s, a)
    ensures Covered(log, Done(Next(log, capacity, s, a)), Next(log, capacity, s, a))
  {
    DoneGrows(log, capacity, s, a);
    if a.Write? {
      forall i | 0 <= i < s.inflight.value
        ensures i in Done(s)
      {
        BeforeInflight(log, s, i);
      }
    }
    hide Covered, Chain, Positions, Ordered;
    CoveredStep(log, capacity, Done(s), Done(Next(log, capacity, s, a)), s, a);
  }

  lemma StrongStep(log: Log, capacity: nat, s: State, a: Step)
    requires Ordered(log) && Strong(log, s) && Enabled(log, capacity, s, a)
    requires a.Drop? ==> DropSafe(s)
    ensures Strong(log, Next(log, capacity, s, a))
  {
    assert Positions(s) && Shape(log, s);
    hide Enabled, Next, Ordered, Covered, Chain, Positions, Shape, Pipeline, Done, DropSafe;
    PositionsStep(log, capacity, s, a);
    ShapeStep(log, capacity, s, a);
    StrongChain(log, capacity, s, a);
    StrongCovered(log, capacity, s, a);
  }

  lemma StrongNoLoss(log: Log, s: State)
    requires Strong(log, s)
    ensures NoLoss(log, s)
  {
  }

  lemma InitStrong(log: Log, confirmed: nat)
    requires Ordered(log) && (log != [] ==> confirmed <= log[0].start)
    ensures Strong(log, Init(confirmed))
  {
    assert forall i :: 0 < i < |log| ==> log[0].start < log[0].end <= log[i].start;
  }

  /** Connections may be lost in the run only where that is safe. */
  ghost predicate SafeDrops(log: Log, capacity: nat, s: State, steps: seq<Step>)
    decreases |steps|
  {
    steps == [] || ((steps[0].Drop? ==> DropSafe(s)) && SafeDrops(log, capacity, Next(log, capacity, s, steps[0]), steps[1..]))
  }

  lemma {:induction false} StrongRun(log: Log, capacity: nat, s: State, steps: seq<Step>)
    requires Ordered(log) && Strong(log, s) && Runs(log, capacity, s, steps) && SafeDrops(log, capacity, s, steps)
    ensures Strong(log, Delivery.After(log, capacity, s, steps))
    decreases |steps|
  {
    if steps != [] {
      StrongStep(log, capacity, s, steps[0]);
      StrongRun(log, capacity, Next(log, capacity, s, steps[0]), steps[1..]);
    }
  }

  /** Whether a process only ever loses its connection by ending. */
  predicate FreshSessions(steps: seq<Step>) {
    forall i :: 0 <= i < |steps| ==> !steps[i].Drop?
  }

  lemma {:induction false} FreshIsSafe(log: Log, capacity: nat, s: State, steps: seq<Step>)
    requires FreshSessions(steps)
    ensures SafeDrops(log, capacity, s, steps)
    decreases |steps|
  {
    if steps != [] {
      assert FreshSessions(steps[1..]);
      FreshIsSafe(log, capacity, Next(log, capacity, s, steps[0]), steps[1..]);
    }
  }

  /**
   Over any run of sessions with crashes anywhere, each started by a fresh client: whatever positions the
   handlers chose to save, every transaction at or below the stored checkpoint or the confirmed flush had its
   handler return or made a save that covers itself.
   */
  lemma NoLossOverRestarts(log: Log, capacity: nat, confirmed: nat, steps: seq<Step>)
    requires Ordered(log) && (log != [] ==> confirmed <= log[0].start)
    requires Runs(log, capacity, Init(confirmed), steps) && FreshSessions(steps)
    ensures NoLoss(log, Delivery.After(log, capacity, Init(confirmed), steps))
  {
    InitStrong(log, confirmed);
    FreshIsSafe(log, capacity, Init(confirmed), steps);
    StrongRun(log, capacity, Init(confirmed), steps);
    StrongNoLoss(log, Delivery.After(log, capacity, Init(confirmed), steps));
  }

  // ---- a lost connection in the same process ----

  /** The queue is worked off by handlers that return without saving. */
  function WorkOff(n: nat): seq<Step> {
    if n == 0 then [] else [Dispatch, Return] + WorkOff(n - 1)
  }

  ghost predicate Idle(s: State) {
    s.up && s.inflight.None? && s.unnotified.None?
  }

  function Members(q: seq<nat>): set<nat> {
    set x | x in q
  }

  lemma WorkOffOne(log: Log, capacity: nat, s: State)
    requires Idle(s) && s.client.queue != []
    ensures Enabled(log, capacity, s, Dispatch) && Enabled(log, capacity, Next(log, capacity, s, Dispatch), Return)
    ensures var t := Next(log, capacity, Next(log, capacity, s, Dispatch), Return);
            && Idle(t) && t.client.queue == s.client.queue[1..]
            && t.selfSaved == s.selfSaved && t.returned == s.returned + {s.client.queue[0]}
  {
  }

  lemma MembersSplit(a: set<nat>, q: seq<nat>, n: nat)
    requires 0 < n <= |q|
    ensures a + {q[0]} + Members(q[1..][..n - 1]) == a + Members(q[..n])
  {
    assert q[..n] == [q[0]] + q[1..][..n - 1];
    assert Members(q[..n]) == {q[0]} + Members(q[1..][..n - 1]);
  }

  lemma {:induction false} WorkOffRun(log: Log, capacity: nat, s: State, n: nat)
    requires Idle(s) && n <= |s.client.queue|
    ensures Runs(log, capacity, s, WorkOff(n))
    ensures var t := Delivery.After(log, capacity, s, WorkOff(n));
            && Idle(t) && t.client.queue == s.client.queue[n..]
            && t.selfSaved == s.selfSaved && t.returned == s.returned + Members(s.client.queue[..n])
    decreases n
  {
    if n == 0 {
      assert s.returned == s.returned + Members(s.client.queue[..0]);
    } else {
      WorkOffOne(log, capacity, s);
      hide Enabled, Next, Idle, Members;
      var q := s.client.queue;
      var a := Next(log, capacity, s, Dispatch);
      var b := Next(log, capacity, a, Return);
      assert WorkOff(n)[1..] == [Return] + WorkOff(n - 1);
      assert WorkOff(n)[1..][1..] == WorkOff(n - 1);
      WorkOffRun(log, capacity, b, n - 1);
      assert q[1..][n - 1..] == q[n..];
      MembersSplit(s.returned, q, n);
    }
  }

  lemma {:induction false} RunsConcat(log: Log, capacity: nat, s: State, a: seq<Step>, b: seq<Step>)
    requires Runs(log, capacity, s, a) && Runs(log, capacity, Delivery.After(log, capacity, s, a), b)
    ensures Runs(log, capacity, s, a + b)
    ensures Delivery.After(log, capacity, s, a + b)
            == Delivery.After(log, capacity, Delivery.After(log, capacity, s, a), b)
    decreases |a|
  {
    if a == [] {
      assert a + b == b;
    } else {
      assert (a + b)[1..] == a[1..] + b;
      RunsConcat(log, capacity, Next(log, capacity, s, a[0]), a[1..], b);
    }
  }

  /** A handler that at once saves its own commit position. */
  lemma SaveAtOnce(log: Log, capacity: nat, s: State, x: nat)
    requires Ordered(log) && Idle(s) && s.client.queue != [] && s.client.queue[0] == x && x < |log|
    ensures log[x].end > 0
    ensures var steps := [Dispatch, Write(CommitLsn(log, x))];
            && Runs(log, capacity, s, steps)
            && Delivery.After(log, capacity, s, steps).stored == Some(CommitLsn(log, x))
            && Done(Delivery.After(log, capacity, s, steps)) <= Done(s) + {x}
  {
    var lsn := CommitLsn(log, x);
    var steps := [Dispatch, Write(lsn)];
    var begun := Next(log, capacity, s, Dispatch);
    var saved := Next(log, capacity, begun, Write(lsn));
    assert steps[1..] == [Write(lsn)] && steps[1..][1..] == [];
    assert Enabled(log, capacity, begun, Write(lsn));
    assert Delivery.After(log, capacity, begun, [Write(lsn)]) == saved;
  }

  /** Reconnect, work off the first `p` queued transactions, then let the next one save its own position. */
  lemma Overtake(log: Log, capacity: nat, s: State, p: nat) returns (steps: seq<Step>)
    requires Ordered(log) && !s.up && !s.client.closing && s.inflight.None? && s.unnotified.None?
    requires p < |s.client.queue| && s.client.queue[p] < |log|
    ensures FreshSessions(steps) && Runs(log, capacity, s, steps)
    ensures var x, t := s.client.queue[p], Delivery.After(log, capacity, s, steps);
            && log[x].end > 0 && t.stored == Some(CommitLsn(log, x))
            && Done(t) <= Done(s) + Members(s.client.queue[..p]) + {x}
  {
    var q := s.client.queue;
    var up := Next(log, capacity, s, Connect);
    assert Idle(up) && up.client.queue == q && Done(up) == Done(s);
    WorkOffRun(log, capacity, up, p);
    WorkOffNoDrops(p);
    var worked := Delivery.After(log, capacity, up, WorkOff(p));
    assert worked.client.queue[0] == q[p];
    SaveAtOnce(log, capacity, worked, q[p]);
    var end := [Dispatch, Write(CommitLsn(log, q[p]))];
    RunsConcat(log, capacity, up, WorkOff(p), end);
    steps := [Connect] + (WorkOff(p) + end);
    assert steps[1..] == WorkOff(p) + end;
  }

  /** A connection lost where that is not safe can lose a transaction: reconnect, and let a later one save. */
  lemma UnsafeDropLoses(log: Log, capacity: nat, s: State) returns (steps: seq<Step>)
    requires Ordered(log) && Strong(log, s) && s.up && !DropSafe(s)
    ensures FreshSessions(steps)
    ensures Runs(log, capacity, Next(log, capacity, s, Drop), steps)
    ensures !NoLoss(log, Delivery.After(log, capacity, Next(log, capacity, s, Drop), steps))
  {
    var k, q := s.inflight.value, s.client.queue;
    var p :| 0 <= p < |q| && q[p] > k && k !in q[..p];
    assert q[p] in q;
    var dropped := Next(log, capacity, s, Drop);
    assert Done(dropped) == Done(s) && dropped.client == s.client;
    steps := Overtake(log, capacity, dropped, p);
    var t := Delivery.After(log, capacity, dropped, steps);
    assert log[k].start < log[k].end <= log[q[p]].start < log[q[p]].end;
    assert k !in Done(t);
    assert log[k].start <= t.stored.value;
  }

  lemma {:induction false} WorkOffNoDrops(n: nat)
    ensures FreshSessions(WorkOff(n))
  {
    if n > 0 {
      WorkOffNoDrops(n - 1);
    }
  }

  /**
   Losing the connection is harmless, whatever sessions follow, exactly when it is safe in the sense above:
   no handler is cancelled, or it had saved for itself, or its transaction is queued again before any later one.
   */
  lemma DropHarmlessIff(log: Log, capacity: nat, s: State)
    requires Ordered(log) && Strong(log, s) && s.up
    ensures DropSafe(s) <==>
            forall steps :: FreshSessions(steps) && Runs(log, capacity, Next(log, capacity, s, Drop), steps) ==>
                              NoLoss(log, Delivery.After(log, capacity, Next(log, capacity, s, Drop), steps))
  {
    var t := Next(log, capacity, s, Drop);
    if DropSafe(s) {
      StrongStep(log, capacity, s, Drop);
      forall steps | FreshSessions(steps) && Runs(log, capacity, t, steps)
        ensures NoLoss(log, Delivery.After(log, capacity, t, steps))
      {
        FreshIsSafe(log, capacity, t, steps);
        StrongRun(log, capacity, t, steps);
        StrongNoLoss(log, Delivery.After(log, capacity, t, steps));
      }
    } else {
      var steps := UnsafeDropLoses(log, capacity, s);
    }
  }

  // ---- weak: whatever connections are lost, nothing is skipped ----

  ghost predicate Weak(log: Log, s: State) {
    && Shape(log, s) && Positions(s) && Covered(log, s.handed, s) && Chain(s.handed, Ahead(s))
    && (s.inflight.Some? ==> s.inflight.value in s.handed)
    && Prefix(s.handed)
  }

  ghost predicate Prefix(handed: set<nat>) {
    forall i, j :: 0 <= i <= j && j in handed ==> i in handed
  }

  lemma WeakDispatch(ok: set<nat>, x: nat, rest: seq<nat>)
    requires Chain(ok, [x] + rest) && Prefix(ok)
    ensures Chain(ok + {x}, rest) && Prefix(ok + {x})
  {
    var items := [x] + rest;
    forall i | 0 <= i < x
      ensures i in ok
    {
      assert items[0] == x && items[..0] == [];
    }
    ChainMore(ok, ok + {x}, items);
    ChainTail(ok + {x}, items);
    assert items[1..] == rest;
  }

  lemma WeakConnect(log: Log, capacity: nat, s: State)
    requires Weak(log, s) && Enabled(log, capacity, s, Connect)
    ensures Chain(s.handed, Ahead(Next(log, capacity, s, Connect)))
  {
    var t := Next(log, capacity, s, Connect);
    AheadStep(log, capacity, s, Connect);
    forall i | 0 <= i < t.cursor
      ensures i in s.handed
    {
      ResumeCovered(log, s.handed, s, i);
    }
    hide Chain, Prefix;
    assert Ahead(s) == s.client.queue;
    ChainResume(s.handed, s.client.queue, t.cursor);
  }

  lemma WeakReceive(log: Log, capacity: nat, s: State)
    requires Weak(log, s) && Enabled(log, capacity, s, Receive)
    ensures Chain(s.handed, Ahead(Next(log, capacity, s, Receive)))
  {
    hide Chain, Prefix, Positions, Covered;
    AheadStep(log, capacity, s, Receive);
    if s.client.closing {
      assert Ahead(s) == [];
    } else {
      assert Ahead(s) == s.client.queue + [s.cursor];
      ChainNext(s.handed, s.client.queue, s.cursor);
    }
  }

  lemma WeakDrop(log: Log, capacity: nat, s: State)
    requires Weak(log, s) && Enabled(log, capacity, s, Drop)
    ensures Chain(s.handed, Ahead(Next(log, capacity, s, Drop)))
  {
    AheadStep(log, capacity, s, Drop);
    if !s.client.closing {
      hide Chain, Prefix, Positions, Covered;
      var rest := Opt(s.held) + (if s.up then [s.cursor] else []);
      assert Ahead(s) == s.client.queue + rest;
      ChainConcat(s.handed, s.client.queue, rest);
    }
  }

  lemma WeakElse(log: Log, capacity: nat, s: State, a: Step)
    requires Weak(log, s) && Enabled(log, capacity, s, a)
    requires !a.Connect? && !a.Receive? && !a.Drop? && !a.Dispatch?
    ensures var t := Next(log, capacity, s, a); Ahead(t) == Ahead(s) || Ahead(t) == []
  {
    AheadStep(log, capacity, s, a);
    hide Chain, Prefix, Positions, Covered;
  }

  lemma HandedSame(log: Log, capacity: nat, s: State, a: Step)
    requires Enabled(log, capacity, s, a)
    ensures Next(log, capacity, s, a).handed == s.handed + (if a.Dispatch? then {s.client.queue[0]} else {})
  {
  }

  lemma WeakChain(log: Log, capacity: nat, s: State, a: Step)
    requires Weak(log, s) && Enabled(log, capacity, s, a)
    ensures Chain(Next(log, capacity, s, a).handed, Ahead(Next(log, capacity, s, a)))
    ensures Prefix(Next(log, capacity, s, a).handed)
  {
    HandedSame(log, capacity, s, a);
    if a.Dispatch? {
      AheadStep(log, capacity, s, a);
      hide Chain, Prefix;
      WeakDispatch(s.handed, s.client.queue[0], Ahead(Next(log, capacity, s, a)));
    } else {
      assert Chain(s.handed, Ahead(s)) && Prefix(s.handed);
      assert Chain(s.handed, []);
      hide Chain, Prefix, Enabled, Next, Weak, Ahead;
      if a.Connect? {
        WeakConnect(log, capacity, s);
      } else if a.Receive? {
        WeakReceive(log, capacity, s);
      } else if a.Drop? {
        WeakDrop(log, capacity, s);
      } else {
        WeakElse(log, capacity, s, a);
      }
    }
  }

  lemma WeakInflight(log: Log, capacity: nat, s: State, a: Step)
    requires Weak(log, s) && Enabled(log, capacity, s, a)
    ensures var t := Next(log, capacity, s, a); t.inflight.Some? ==> t.inflight.value in t.handed
  {
    hide Chain, Prefix, Positions, Covered, Shape;
  }

  lemma WeakCovered(log: Log, capacity: nat, s: State, a: Step)
    requires Ordered(log) && Weak(log, s) && Enabled(log, capacity, s, a)
    ensures Covered(log, Next(log, capacity, s, a).handed, Next(log, capacity, s, a))
  {
    HandedSame(log, capacity, s, a);
    assert a.Write? ==> forall i :: 0 <= i < s.inflight.value ==> i in s.handed;
    hide Covered, Chain, Positions, Ordered, Prefix;
    CoveredStep(log, capacity, s.handed, Next(log, capacity, s, a).handed, s, a);
  }

  lemma WeakStep(log: Log, capacity: nat, s: State, a: Step)
    requires Ordered(log) && Weak(log, s) && Enabled(log, capacity, s, a)
    ensures Weak(log, Next(log, capacity, s, a))
  {
    assert Positions(s) && Shape(log, s);
    hide Enabled, Next, Ordered, Covered, Chain, Positions, Shape, Prefix, Ahead;
    PositionsStep(log, capacity, s, a);
    ShapeStep(log, capacity, s, a);
    WeakChain(log, capacity, s, a);
    WeakInflight(log, capacity, s, a);
    WeakCovered(log, capacity, s, a);
  }

  lemma {:induction false} WeakRun(log: Log, capacity: nat, s: State, steps: seq<Step>)
    requires Ordered(log) && Weak(log, s) && Runs(log, capacity, s, steps)
    ensures Weak(log, Delivery.After(log, capacity, s, steps))
    decreases |steps|
  {
    if steps != [] {
      WeakStep(log, capacity, s, steps[0]);
      WeakRun(log, capacity, Next(log, capacity, s, steps[0]), steps[1..]);
    }
  }

  /**
   Over any run, connections lost at any moment between transactions and stale queue entries dispatched before
   resent ones included: what was handed to the handler is a prefix of the commit order, and nothing at or below the checkpoint or the
   confirmed flush was never handed over.
   */
  lemma HandedIsPrefix(log: Log, capacity: nat, confirmed: nat, steps: seq<Step>)
    requires Ordered(log) && (log != [] ==> confirmed <= log[0].start)
    requires Runs(log, capacity, Init(confirmed), steps)
    ensures var t := Delivery.After(log, capacity, Init(confirmed), steps);
            && Prefix(t.handed)
            && (forall i :: 0 <= i < |log| && t.stored.Some? && log[i].start <= t.stored.value ==> i in t.handed)
            && (forall i :: 0 <= i < |log| && log[i].start < t.confirmed ==> i in t.handed)
  {
    InitStrong(log, confirmed);
    WeakRun(log, capacity, Init(confirmed), steps);
  }
}
