/** No change event is lost or duplicated: it is buffered, emitted, or dropped by a rollback. */
module Conservation {
  import opened Wrappers
  import opened Messages
  import opened Assembler

  ghost function Held(pending: map<nat, Bucket>): multiset<ChangeEvent>
    decreases |pending|
  {
    if pending == map[] then multiset{}
    else
      var x :| x in pending;
      multiset(pending[x].changes) + Held(pending - {x})
  }

  /** The sum over the buckets does not depend on the order. */
  lemma {:induction false} HeldSplit(pending: map<nat, Bucket>, x: nat)
    requires x in pending
    ensures Held(pending) == multiset(pending[x].changes) + Held(pending - {x})
    decreases |pending|
  {
    var y :| y in pending && Held(pending) == multiset(pending[y].changes) + Held(pending - {y});
    if y != x {
      HeldSplit(pending - {y}, x);
      HeldSplit(pending - {x}, y);
      assert pending - {x} - {y} == pending - {y} - {x};
    }
  }

  lemma HeldUpdate(pending: map<nat, Bucket>, x: nat, b: Bucket)
    ensures Held(pending[x := b])
            == Held(pending - {x}) + multiset(b.changes)
  {
    HeldSplit(pending[x := b], x);
    assert pending[x := b] - {x} == pending - {x};
  }

  function Fed(m: Message): multiset<ChangeEvent> {
    if m.RowChange() then multiset(Events(m)) else multiset{}
  }

  function Given(out: Option<Transaction>): multiset<ChangeEvent> {
    if out.Some? then multiset(out.value.changes) else multiset{}
  }

  /** What a rollback drops: the whole bucket, or everything from the subtransaction's boundary on. */
  function Dropped(s: State, m: Message): multiset<ChangeEvent> {
    if !m.StreamAbort? || m.xid !in s.pending then multiset{}
    else
      var b := s.pending[m.xid];
      if m.abortedXid == m.xid then multiset(b.changes)
      else if m.abortedXid in b.bounds && b.bounds[m.abortedXid] <= |b.changes|
      then multiset(b.changes[b.bounds[m.abortedXid]..])
      else multiset{}
  }

  lemma AppendKeeps(s: State, x: nat, changes: seq<ChangeEvent>, tag: Option<nat>)
    requires x in s.pending
    ensures Held(Appended(s, x, changes, tag).pending) == Held(s.pending) + multiset(changes)
  {
    HeldUpdate(s.pending, x, Append(s.pending[x], changes, tag));
    HeldSplit(s.pending, x);
  }

  lemma CutKeeps(pending: map<nat, Bucket>, x: nat, sub: nat)
    requires x in pending
    ensures Held(pending)
            == Held(pending[x := Cut(pending[x], sub)])
               + if sub in pending[x].bounds && pending[x].bounds[sub] <= |pending[x].changes|
                 then multiset(pending[x].changes[pending[x].bounds[sub]..]) else multiset{}
  {
    var b := pending[x];
    HeldSplit(pending, x);
    HeldUpdate(pending, x, Cut(b, sub));
    if sub in b.bounds && b.bounds[sub] <= |b.changes| {
      assert b.changes == b.changes[..b.bounds[sub]] + b.changes[b.bounds[sub]..];
    }
  }

  lemma RemoveKeeps(pending: map<nat, Bucket>, x: nat)
    ensures Held(pending) == Held(pending - {x}) + if x in pending then multiset(pending[x].changes) else multiset{}
  {
    if x in pending {
      HeldSplit(pending, x);
    } else {
      assert pending - {x} == pending;
    }
  }

  lemma FreshKeeps(pending: map<nat, Bucket>, x: nat, b: Bucket)
    requires x !in pending && b.changes == []
    ensures Held(pending[x := b]) == Held(pending)
  {
    HeldUpdate(pending, x, b);
    assert pending - {x} == pending;
  }

  ghost predicate Conserves(s: State, m: Message)
    requires Feed(s, m).Accept?
  {
    Held(s.pending) + Fed(m) == Held(Feed(s, m).state.pending) + Given(Feed(s, m).out) + Dropped(s, m)
  }

  lemma ConserveChange(s: State, m: Message)
    requires m.RowChange() && Feed(s, m).Accept?
    ensures Conserves(s, m)
  {
    var changes, tag := Events(m), Tag(m);
    assert Feed(s, m) == FeedChange(s, changes, tag);
    assert Fed(m) == multiset(changes) && Dropped(s, m) == multiset{};
    hide Held, Feed, Fed, Dropped, Events, Tag, Append, Appended;
    if changes != [] {
      AppendKeeps(s, Target(s).value, changes, tag);
    }
  }

  lemma ConserveAbort(s: State, m: Message)
    requires m.StreamAbort? && Feed(s, m).Accept?
    ensures Conserves(s, m)
  {
    hide Held, Cut;
    if m.abortedXid == m.xid {
      RemoveKeeps(s.pending, m.xid);
    } else if m.xid in s.pending {
      CutKeeps(s.pending, m.xid, m.abortedXid);
    }
  }

  lemma ConserveStep(s: State, m: Message)
    requires Feed(s, m).Accept?
    ensures Conserves(s, m)
  {
    if m.RowChange() {
      ConserveChange(s, m);
    } else if m.StreamAbort? {
      ConserveAbort(s, m);
    } else {
      hide Held;
      match m
      case Begin(finalLsn, _, xid) => FreshKeeps(s.pending, xid, Bucket([], Some(finalLsn), map[]));
      case StreamStart(xid, first) =>
        if first {
          FreshKeeps(s.pending, xid, Bucket([], None, map[]));
        }
      case Commit(_, _, _, _) => RemoveKeeps(s.pending, s.current.value);
      case StreamCommit(xid, _, _, _) => RemoveKeeps(s.pending, xid);
      case _ =>
    }
  }

  function AllFed(ms: seq<Message>): multiset<ChangeEvent> {
    if ms == [] then multiset{} else Fed(ms[0]) + AllFed(ms[1..])
  }

  function AllGiven(outs: seq<Transaction>): multiset<ChangeEvent> {
    if outs == [] then multiset{} else multiset(outs[0].changes) + AllGiven(outs[1..])
  }

  function AllDropped(s: State, ms: seq<Message>): multiset<ChangeEvent>
    decreases |ms|
  {
    if ms == [] || Feed(s, ms[0]).Reject? then multiset{}
    else Dropped(s, ms[0]) + AllDropped(Feed(s, ms[0]).state, ms[1..])
  }

  lemma GivenFirst(out: Option<Transaction>, outs: seq<Transaction>)
    ensures AllGiven(Emits(out) + outs) == Given(out) + AllGiven(outs)
  {
    assert out.Some? ==> (Emits(out) + outs)[1..] == outs;
    assert out.None? ==> Emits(out) + outs == outs;
  }

  lemma Glue(h: multiset<ChangeEvent>, f: multiset<ChangeEvent>, mid: multiset<ChangeEvent>, g: multiset<ChangeEvent>,
             d: multiset<ChangeEvent>, f2: multiset<ChangeEvent>, end: multiset<ChangeEvent>, g2: multiset<ChangeEvent>,
             d2: multiset<ChangeEvent>)
    requires h + f == mid + g + d && mid + f2 == end + g2 + d2
    ensures h + (f + f2) == end + (g + g2) + (d + d2)
  {
    forall e: ChangeEvent
      ensures (h + (f + f2))[e] == (end + (g + g2) + (d + d2))[e]
    {
      assert (h + f)[e] == (mid + g + d)[e];
      assert (mid + f2)[e] == (end + g2 + d2)[e];
    }
  }

  /** Over every accepted run each event fed is still buffered, in one emitted transaction, or rolled back. */
  lemma {:induction false} ConserveRun(s: State, ms: seq<Message>)
    requires Run(s, ms).Ok?
    ensures Held(s.pending) + AllFed(ms)
            == Held(Run(s, ms).value.0.pending) + AllGiven(Run(s, ms).value.1) + AllDropped(s, ms)
    decreases |ms|
  {
    if ms != [] {
      ConserveStep(s, ms[0]);
      hide Feed, Fed, Dropped, Held, Given;
      var Accept(t, out) := Feed(s, ms[0]);
      ConserveRun(t, ms[1..]);
      var outs := Run(t, ms[1..]).value.1;
      GivenFirst(out, outs);
      Glue(Held(s.pending), Fed(ms[0]), Held(t.pending), Given(out), Dropped(s, ms[0]),
           AllFed(ms[1..]), Held(Run(t, ms[1..]).value.0.pending), AllGiven(outs), AllDropped(t, ms[1..]));
    }
  }
}
