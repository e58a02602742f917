/** What every message keeps, and why interleaved transactions do not disturb each other. */
module Isolation {
  import opened Wrappers
  import opened Messages
  import opened Assembler

  /** The open ordinary transaction alone has a final LSN; an open bracket belongs to another, streamed bucket. */
  ghost predicate Orderly(s: State) {
    && (s.current.Some? ==> s.current.value in s.pending && s.pending[s.current.value].finalLsn.Some?)
    && (forall x :: x in s.pending && s.current != Some(x) ==> s.pending[x].finalLsn.None?)
    && (s.active.Some? ==> s.active.value in s.pending && s.active != s.current)
  }

  /** A stream message that acts on the open ordinary transaction, which the code does not check for. */
  predicate NamesOpen(s: State, m: Message) {
    match m
    case StreamStart(xid, _) => s.current == Some(xid)
    case StreamCommit(xid, _, _, _) => s.current == Some(xid)
    case StreamAbort(xid, sub) => sub == xid && s.current == Some(xid)
    case _ => false
  }

  /** An accepted message keeps the invariant exactly when it does not name the open ordinary transaction. */
  lemma OrderlyStep(s: State, m: Message)
    requires Orderly(s) && Feed(s, m).Accept?
    ensures Orderly(Feed(s, m).state) <==> !NamesOpen(s, m)
  {
  }

  /** While the invariant holds the two guards of the code that should be dead are dead. */
  lemma OrderlyGuards(s: State, m: Message)
    requires Orderly(s)
    ensures Feed(s, m) != Reject(KeyError)
    ensures m.RowChange() ==> (Feed(s, m).Accept? <==> Target(s).Some?)
  {
  }

  /** When a message that is no row is accepted. */
  predicate ControlAccepted(s: State, m: Message) {
    match m
    case Begin(_, _, xid) => s.current.None? && xid !in s.pending
    case Commit(_, lsn, _, _) =>
      s.current.Some? && s.current.value in s.pending && s.pending[s.current.value].finalLsn == Some(lsn)
    case StreamStart(xid, first) => if first then xid !in s.pending else xid in s.pending
    case StreamCommit(xid, _, _, _) => xid in s.pending
    case TypeName(_, _, _) => false
    case Origin(_, _) => false
    case Emitted(_, _, _, _) => false
    case _ => true
  }

  /**
   Which messages are accepted in any state, and what the others raise: a second Begin or one for a taken xid, a
   Commit without Begin or for another position, a first segment for a taken xid, a continuation or a commit of
   an unknown stream, and a row with nothing open are protocol errors.
   */
  lemma Acceptance(s: State, m: Message)
    ensures m.RowChange() ==>
              (Feed(s, m).Accept? <==>
               || (s.active.Some? && (Events(m) == [] || s.active.value in s.pending))
               || (s.active.None? && s.current.Some? && (Events(m) == [] || s.current.value in s.pending)))
    ensures !m.RowChange() ==>
              (Feed(s, m).Accept? <==> ControlAccepted(s, m))
    ensures Feed(s, m).Reject? ==>
              Feed(s, m).fault == if m.TypeName? || m.Origin? || m.Emitted? then AssertionError
                                  else if m.Commit? && s.current.Some? && s.current.value !in s.pending then KeyError
                                  else ProtocolError
  {
  }

  /** Ending or rolling back a stream that is not known changes nothing. */
  lemma UnknownAbort(s: State, x: nat, sub: nat)
    requires x !in s.pending && s.active != Some(x)
    ensures Feed(s, StreamAbort(x, sub)) == Accept(s, None)
  {
    assert s.pending - {x} == s.pending;
  }

  /** Through messages the public entry point accepts, both guards are reached. */
  lemma GuardsReached(row: Message)
    requires row.RowChange() && Events(row) != []
    ensures var stale := [Begin(5, 0, 1), StreamStart(1, false), Commit(0, 5, 6, 0)];
            Run(EMPTY, stale).Ok? && Target(Run(EMPTY, stale).value.0) == Some(1)
            && Feed(Run(EMPTY, stale).value.0, row) == Reject(ProtocolError)
    ensures Run(EMPTY, [Begin(5, 0, 1), StreamCommit(1, 5, 6, 0), Commit(0, 5, 6, 0)]) == Err(KeyError)
  {
    var a, b, c := Begin(5, 0, 1), StreamStart(1, false), Commit(0, 5, 6, 0);
    var s1 := Feed(EMPTY, a).state;
    var s2 := Feed(s1, b).state;
    var s3 := Feed(s2, c).state;
    assert s3 == State(map[], None, Some(1));
    assert [a, b, c][1..] == [b, c] && [b, c][1..] == [c] && [c][1..] == [];
    var d := StreamCommit(1, 5, 6, 0);
    assert [a, d, c][1..] == [d, c] && [d, c][1..] == [c];
    assert Run(Feed(s1, d).state, [c]) == Err(KeyError);
  }

  /** Brackets do not nest, and no stream message names the open ordinary transaction. */
  ghost predicate Polite(s: State, m: Message) {
    !NamesOpen(s, m) && (m.StreamStart? ==> s.active.None?)
  }

  ghost predicate PoliteRun(s: State, ms: seq<Message>)
    decreases |ms|
  {
    ms == [] || (Polite(s, ms[0]) && (Feed(s, ms[0]).Accept? ==> PoliteRun(Feed(s, ms[0]).state, ms[1..])))
  }

  lemma {:induction false} OrderlyRun(s: State, ms: seq<Message>)
    requires Orderly(s) && PoliteRun(s, ms) && Run(s, ms).Ok?
    ensures Orderly(Run(s, ms).value.0)
    decreases |ms|
  {
    if ms != [] {
      OrderlyStep(s, ms[0]);
      OrderlyRun(Feed(s, ms[0]).state, ms[1..]);
    }
  }

  /** The transaction that a message belongs to. */
  function Owner(s: State, m: Message): Option<nat> {
    match m
    case Begin(_, _, xid) => Some(xid)
    case Commit(_, _, _, _) => s.current
    case StreamStart(xid, _) => Some(xid)
    case StreamStop => s.active
    case StreamCommit(xid, _, _, _) => Some(xid)
    case StreamAbort(xid, _) => Some(xid)
    case _ => if m.RowChange() then Target(s) else None
  }

  /** The messages of one transaction, picked out of an interleaving. */
  function Own(s: State, ms: seq<Message>, x: nat): seq<Message>
    decreases |ms|
  {
    if ms == [] || Feed(s, ms[0]).Reject? then []
    else (if Owner(s, ms[0]) == Some(x) then [ms[0]] else []) + Own(Feed(s, ms[0]).state, ms[1..], x)
  }

  function Only(outs: seq<Transaction>, x: nat): seq<Transaction> {
    if outs == [] then []
    else (if outs[0].xid == x then [outs[0]] else []) + Only(outs[1..], x)
  }

  /** What an assembler that had seen only transaction `x` would hold. */
  function Restrict(s: State, x: nat): State {
    State(map k | k in s.pending && k == x :: s.pending[k],
          if s.current == Some(x) then s.current else None,
          if s.active == Some(x) then s.active else None)
  }

  lemma ForeignStep(s: State, m: Message, x: nat)
    requires Orderly(s) && Polite(s, m) && Feed(s, m).Accept? && Owner(s, m) != Some(x)
    ensures Restrict(Feed(s, m).state, x) == Restrict(s, x)
    ensures Feed(s, m).out.Some? ==> Feed(s, m).out.value.xid != x
  {
    var t := Feed(s, m).state;
    assert Restrict(t, x).pending == Restrict(s, x).pending;
  }

  lemma OwnChange(s: State, changes: seq<ChangeEvent>, tag: Option<nat>, x: nat)
    requires Orderly(s) && Target(s) == Some(x) && FeedChange(s, changes, tag).Accept?
    ensures FeedChange(Restrict(s, x), changes, tag)
            == Accept(Restrict(FeedChange(s, changes, tag).state, x), FeedChange(s, changes, tag).out)
    ensures FeedChange(s, changes, tag).out.None?
  {
    hide Append;
    if changes != [] {
      assert Appended(Restrict(s, x), x, changes, tag).pending == Restrict(Appended(s, x, changes, tag), x).pending;
    }
  }

  lemma OwnControl(s: State, m: Message, x: nat)
    requires Orderly(s) && Polite(s, m) && Feed(s, m).Accept? && Owner(s, m) == Some(x) && !m.RowChange()
    ensures Feed(Restrict(s, x), m) == Accept(Restrict(Feed(s, m).state, x), Feed(s, m).out)
    ensures Feed(s, m).out.Some? ==> Feed(s, m).out.value.xid == x
  {
    hide Cut;
    var alone := Feed(Restrict(s, x), m);
    assert alone.Accept?;
    assert alone.state.pending == Restrict(Feed(s, m).state, x).pending;
  }

  lemma OwnStep(s: State, m: Message, x: nat)
    requires Orderly(s) && Polite(s, m) && Feed(s, m).Accept? && Owner(s, m) == Some(x)
    ensures Feed(Restrict(s, x), m) == Accept(Restrict(Feed(s, m).state, x), Feed(s, m).out)
    ensures Feed(s, m).out.Some? ==> Feed(s, m).out.value.xid == x
  {
    if m.RowChange() {
      OwnChange(s, Events(m), Tag(m), x);
    } else {
      OwnControl(s, m, x);
    }
  }

  /**
   On any polite interleaving, an assembler fed only the messages of `x` accepts them, emits exactly the
   transactions that the full run emits for `x`, and ends with exactly what the full run holds for `x`.
   */
  lemma {:induction false} NonInterference(s: State, ms: seq<Message>, x: nat)
    requires Orderly(s) && PoliteRun(s, ms) && Run(s, ms).Ok?
    ensures Run(Restrict(s, x), Own(s, ms, x))
            == Ok((Restrict(Run(s, ms).value.0, x), Only(Run(s, ms).value.1, x)))
    decreases |ms|
  {
    if ms != [] {
      var m := ms[0];
      OrderlyStep(s, m);
      assert !NamesOpen(s, m);
      hide Feed, Restrict, Orderly, Polite, Owner;
      var Accept(t, out) := Feed(s, m);
      NonInterference(t, ms[1..], x);
      var outs := Run(t, ms[1..]).value.1;
      OnlyConcat(Emits(out), outs, x);
      if Owner(s, m) == Some(x) {
        OwnStep(s, m, x);
        assert Own(s, ms, x)[1..] == Own(t, ms[1..], x);
        assert Only(Emits(out), x) == Emits(out);
      } else {
        ForeignStep(s, m, x);
        assert Own(s, ms, x) == Own(t, ms[1..], x);
        assert Only(Emits(out), x) == [];
        assert [] + Only(outs, x) == Only(outs, x);
      }
    }
  }

  lemma {:induction false} OnlyConcat(a: seq<Transaction>, b: seq<Transaction>, x: nat)
    ensures Only(a + b, x) == Only(a, x) + Only(b, x)
  {
    if a == [] {
      assert a + b == b;
    } else {
      assert (a + b)[0] == a[0] && (a + b)[1..] == a[1..] + b;
      OnlyConcat(a[1..], b, x);
      var head := if a[0].xid == x then [a[0]] else [];
      assert head + (Only(a[1..], x) + Only(b, x)) == head + Only(a[1..], x) + Only(b, x);
    }
  }

  /** The emitted transactions of `x` are those of a fresh assembler fed only the messages of `x`. */
  lemma FreshAssemblerAgrees(ms: seq<Message>, x: nat)
    requires PoliteRun(EMPTY, ms) && Run(EMPTY, ms).Ok?
    ensures Run(EMPTY, Own(EMPTY, ms, x)).Ok?
    ensures Run(EMPTY, Own(EMPTY, ms, x)).value.1 == Only(Run(EMPTY, ms).value.1, x)
  {
    NonInterference(EMPTY, ms, x);
    assert Restrict(EMPTY, x) == EMPTY;
  }
}
