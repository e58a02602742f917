/** What feeding one message to the assembler does (transaction.py), as a function on its whole state. */
module Assembler {
  import opened Wrappers
  import opened Messages

  /** One open transaction; `bounds` maps a subtransaction id to the index of its first buffered change. */
  datatype Bucket = Bucket(changes: seq<ChangeEvent>, finalLsn: Option<nat>, bounds: map<nat, nat>)

  datatype State = State(pending: map<nat, Bucket>, current: Option<nat>, active: Option<nat>)

  const EMPTY := State(map[], None, None)

  /** A rejected message leaves the state as it was. */
  datatype Outcome = Accept(state: State, out: Option<Transaction>) | Reject(fault: Fault)

  /** Where a bare change goes: the open bracket first, then the ordinary transaction. */
  function Target(s: State): Option<nat> {
    if s.active.Some? then s.active else s.current
  }

  function Append(b: Bucket, changes: seq<ChangeEvent>, tag: Option<nat>): Bucket {
    Bucket(b.changes + changes, b.finalLsn,
           if changes != [] && tag.Some? && tag.value !in b.bounds
           then b.bounds[tag.value := |b.changes|] else b.bounds)
  }

  /** `del changes[n:]`, and the boundaries that lay in the deleted region. */
  function Truncated(b: Bucket, n: nat): Bucket {
    Bucket(if n <= |b.changes| then b.changes[..n] else b.changes, b.finalLsn,
           map s | s in b.bounds && b.bounds[s] < n :: b.bounds[s])
  }

  /** A rollback of subtransaction `sub`. */
  function Cut(b: Bucket, sub: nat): Bucket {
    if sub in b.bounds then Truncated(b, b.bounds[sub]) else b
  }

  function Build(xid: nat, changes: seq<ChangeEvent>, endLsn: nat, commitTime: nat): Transaction {
    Transaction(xid, endLsn - 1, commitTime, changes)
  }

  function Appended(s: State, xid: nat, changes: seq<ChangeEvent>, tag: Option<nat>): State
    requires xid in s.pending
  {
    s.(pending := s.pending[xid := Append(s.pending[xid], changes, tag)])
  }

  function FeedChange(s: State, changes: seq<ChangeEvent>, tag: Option<nat>): Outcome {
    match Target(s)
    case None => Reject(ProtocolError)
    case Some(xid) =>
      if changes == [] then Accept(s, None)
      else if xid !in s.pending then Reject(ProtocolError)
      else Accept(Appended(s, xid, changes, tag), None)
  }

  function FeedCommit(s: State, commitLsn: nat, endLsn: nat, commitTime: nat): Outcome {
    match s.current
    case None => Reject(ProtocolError)
    case Some(xid) =>
      if xid !in s.pending then Reject(KeyError)
      else if s.pending[xid].finalLsn != Some(commitLsn) then Reject(ProtocolError)
      else
        Accept(s.(pending := s.pending - {xid}, current := None),
               Some(Build(xid, s.pending[xid].changes, endLsn, commitTime)))
  }

  function FeedStreamStart(s: State, xid: nat, first: bool): Outcome {
    if first == (xid in s.pending) then Reject(ProtocolError)
    else
      Accept(s.(pending := if first then s.pending[xid := Bucket([], None, map[])] else s.pending,
                active := Some(xid)), None)
  }

  function Close(s: State, xid: nat): State {
    s.(pending := s.pending - {xid}, active := if s.active == Some(xid) then None else s.active)
  }

  function FeedStreamAbort(s: State, xid: nat, sub: nat): Outcome {
    if sub == xid then Accept(Close(s, xid), None)
    else if xid !in s.pending then Accept(s, None)
    else Accept(s.(pending := s.pending[xid := Cut(s.pending[xid], sub)]), None)
  }

  function Feed(s: State, m: Message): Outcome {
    match m
    case Begin(finalLsn, _, xid) =>
      if s.current.Some? || xid in s.pending then Reject(ProtocolError)
      else
        Accept(s.(pending := s.pending[xid := Bucket([], Some(finalLsn), map[])], current := Some(xid)), None)
    case Commit(_, commitLsn, endLsn, commitTime) => FeedCommit(s, commitLsn, endLsn, commitTime)
    case Describe(_) => Accept(s, None)
    case StreamStart(xid, first) => FeedStreamStart(s, xid, first)
    case StreamStop => Accept(s.(active := None), None)
    case StreamCommit(xid, _, endLsn, commitTime) =>
      if xid !in s.pending then Reject(ProtocolError)
      else Accept(Close(s, xid), Some(Build(xid, s.pending[xid].changes, endLsn, commitTime)))
    case StreamAbort(xid, sub) => FeedStreamAbort(s, xid, sub)
    case TypeName(_, _, _) => Reject(AssertionError)
    case Origin(_, _) => Reject(AssertionError)
    case Emitted(_, _, _, _) => Reject(AssertionError)
    case _ => FeedChange(s, Events(m), Tag(m))
  }

  /** The state after a message, and what the caller of `feed` gets. */
  function Effect(s: State, outcome: Outcome): (State, Result<Option<Transaction>>) {
    match outcome
    case Accept(t, out) => (t, Ok(out))
    case Reject(fault) => (s, Err(fault))
  }

  /** Appending change by change is appending all at once. */
  lemma AppendedTwice(s: State, xid: nat, a: seq<ChangeEvent>, c: seq<ChangeEvent>, tag: Option<nat>)
    requires xid in s.pending && a != []
    ensures Appended(Appended(s, xid, a, tag), xid, c, tag) == Appended(s, xid, a + c, tag)
  {
    var b := s.pending[xid];
    assert b.changes + a + c == b.changes + (a + c);
    assert Append(Append(b, a, tag), c, tag) == Append(b, a + c, tag);
  }

  function Emits(out: Option<Transaction>): seq<Transaction> {
    if out.Some? then [out.value] else []
  }

  /** Feeding messages in order: the final state and everything emitted, or the first failure. */
  function Run(s: State, ms: seq<Message>): Result<(State, seq<Transaction>)>
    decreases |ms|
  {
    if ms == [] then Ok((s, []))
    else
      match Feed(s, ms[0])
      case Reject(fault) => Err(fault)
      case Accept(s1, out) =>
        var (s2, outs) :- Run(s1, ms[1..]);
        Ok((s2, Emits(out) + outs))
  }

  lemma {:induction false} RunConcat(s: State, a: seq<Message>, b: seq<Message>)
    requires Run(s, a).Ok?
    ensures Run(s, a + b) == match Run(Run(s, a).value.0, b)
                             case Err(fault) => Err(fault)
                             case Ok((t, outs)) => Ok((t, Run(s, a).value.1 + outs))
    decreases |a|
  {
    hide Feed;
    if a == [] {
      assert a + b == b;
      assert Run(s, b).Ok? ==> [] + Run(s, b).value.1 == Run(s, b).value.1;
    } else {
      assert (a + b)[1..] == a[1..] + b;
      var outcome := Feed(s, a[0]);
      RunConcat(outcome.state, a[1..], b);
      var (m, outs) := Run(outcome.state, a[1..]).value;
      if Run(m, b).Ok? {
        var more := Run(m, b).value.1;
        assert Emits(outcome.out) + (outs + more) == Emits(outcome.out) + outs + more;
      }
    }
  }

  /** A message that emits nothing just moves the run on. */
  lemma RunQuiet(s: State, ms: seq<Message>, t: State)
    requires ms != [] && Feed(s, ms[0]) == Accept(t, None)
    ensures Run(s, ms) == Run(t, ms[1..])
  {
    hide Feed;
    var rest := Run(t, ms[1..]);
    if rest.Ok? {
      assert [] + rest.value.1 == rest.value.1;
    }
  }

  lemma RunOne(s: State, m: Message)
    requires Feed(s, m).Accept?
    ensures Run(s, [m]) == Ok((Feed(s, m).state, Emits(Feed(s, m).out)))
  {
    hide Feed;
    var Accept(t, out) := Feed(s, m);
    assert [m][1..] == [];
    assert Run(t, []) == Ok((t, []));
    assert Emits(out) + [] == Emits(out);
  }
}
