/** The assembler as the code runs it: mutable buckets in a dictionary (transaction.py). */
module TransactionAssembler {
  import opened Wrappers
  import opened Messages
  import Assembler

  /** `_Pending`. */
  class Pending {
    var changes: seq<ChangeEvent>
    const finalLsn: Option<nat>
    var bounds: map<nat, nat>

    constructor (finalLsn: Option<nat>)
      ensures View() == Assembler.Bucket([], finalLsn, map[])
    {
      changes, this.finalLsn, bounds := [], finalLsn, map[];
    }

    ghost function View(): Assembler.Bucket
      reads this
    {
      Assembler.Bucket(changes, finalLsn, bounds)
    }

    method Append(change: ChangeEvent, subxid: Option<nat>)
      modifies this
      ensures View() == Assembler.Append(old(View()), [change], subxid)
    {
      if subxid.Some? && subxid.value !in bounds {
        bounds := bounds[subxid.value := |changes|];
      }
      changes := changes + [change];
    }

    method Cut(sub: nat)
      modifies this
      ensures View() == Assembler.Cut(old(View()), sub)
    {
      if sub !in bounds {
        return;
      }
      var boundary := bounds[sub];
      bounds := bounds - {sub};
      if boundary <= |changes| {  // a slice bound past the end deletes nothing
        changes := changes[..boundary];
      }
      var stale := set s | s in bounds && bounds[s] >= boundary;
      ghost var kept := changes;
      while stale != {}
        invariant changes == kept
        invariant forall s :: s in stale ==> s in bounds && old(bounds[s]) >= boundary
        invariant forall s :: s in bounds ==> s in old(bounds) && bounds[s] == old(bounds[s])
        invariant forall s :: s in old(bounds) && old(bounds[s]) < boundary ==> s in bounds
        invariant forall s :: s in bounds && s !in stale ==> old(bounds[s]) < boundary
        decreases stale
      {
        var s :| s in stale;
        stale := stale - {s};
        bounds := bounds - {s};
      }
      assert bounds == Assembler.Truncated(old(View()), boundary).bounds;
    }
  }

  class TransactionAssembler {
    var pending: map<nat, Pending>
    var current: Option<nat>
    var active: Option<nat>

    /** No two xids share a bucket. */
    ghost predicate Valid()
      reads this
    {
      forall x, y :: x in pending && y in pending && x != y ==> pending[x] != pending[y]
    }

    ghost function View(): Assembler.State
      reads this, pending.Values
    {
      Assembler.State(map x | x in pending :: pending[x].View(), current, active)
    }

    constructor ()
      ensures Valid() && pending == map[] && View() == Assembler.EMPTY
    {
      pending, current, active := map[], None, None;
    }

    method Feed(m: Message) returns (r: Result<Option<Transaction>>)
      requires Valid()
      modifies this, pending.Values
      ensures Valid() && fresh(pending.Values - old(pending.Values))
      ensures (View(), r) == Assembler.Effect(old(View()), Assembler.Feed(old(View()), m))
    {
      match m
      case Begin(finalLsn, _, xid) => r := BeginTransaction(finalLsn, xid);
      case Commit(_, commitLsn, endLsn, commitTime) => r := Finish(commitLsn, endLsn, commitTime);
      case Describe(_) => r := Ok(None);
      case StreamStart(xid, first) => r := StartStream(xid, first);
      case StreamStop =>
        active := None;
        assert View().pending == old(View()).pending;
        r := Ok(None);
      case StreamCommit(xid, _, endLsn, commitTime) => r := CommitStream(xid, endLsn, commitTime);
      case StreamAbort(xid, sub) => r := AbortStream(xid, sub);
      case TypeName(_, _, _) => r := Err(AssertionError);
      case Origin(_, _) => r := Err(AssertionError);
      case Emitted(_, _, _, _) => r := Err(AssertionError);
      case Insert(_, table, n, tag) => r := AppendChanges([ChangeEvent(INSERT, table, Some(n), None)], tag);
      case Update(_, table, o, n, tag) => r := AppendChanges([ChangeEvent(UPDATE, table, Some(n), o)], tag);
      case Delete(_, table, o, tag) => r := AppendChanges([ChangeEvent(DELETE, table, None, Some(o))], tag);
      case Truncate(tables, _, _, tag) => r := AppendChanges(Events(m), tag);
    }

    method BeginTransaction(finalLsn: nat, xid: nat) returns (r: Result<Option<Transaction>>)
      requires Valid()
      modifies this
      ensures Valid() && fresh(pending.Values - old(pending.Values))
      ensures forall t :: (View(), r) == Assembler.Effect(old(View()), Assembler.Feed(old(View()), Begin(finalLsn, t, xid)))
    {
      if current.Some? || xid in pending {
        return Err(ProtocolError);
      }
      current := Some(xid);
      var bucket := new Pending(Some(finalLsn));
      pending := pending[xid := bucket];
      assert View().pending == old(View()).pending[xid := bucket.View()];
      return Ok(None);
    }

    /** One change per table for a Truncate, one change otherwise; the bucket is looked up for each. */
    method AppendChanges(changes: seq<ChangeEvent>, tag: Option<nat>) returns (r: Result<Option<Transaction>>)
      requires Valid()
      modifies pending.Values
      ensures Valid()
      ensures (View(), r) == Assembler.Effect(old(View()), Assembler.FeedChange(old(View()), changes, tag))
    {
      var xid: nat;
      if active.Some? {
        xid := active.value;
      } else if current.Some? {
        xid := current.value;
      } else {
        return Err(ProtocolError);
      }
      ghost var before := View();
      hide Assembler.Append, Assembler.Appended;
      for i := 0 to |changes|
        invariant Valid()
        invariant i == 0 ==> View() == before
        invariant i > 0 ==> xid in before.pending && View() == Assembler.Appended(before, xid, changes[..i], tag)
      {
        if xid !in pending {
          return Err(ProtocolError);
        }
        AppendChange(xid, changes[i], tag);
        assert changes[..i + 1] == changes[..i] + [changes[i]];
        assert i == 0 ==> changes[..i + 1] == [changes[i]];
        if i > 0 {
          Assembler.AppendedTwice(before, xid, changes[..i], [changes[i]], tag);
        }
      }
      assert changes[..|changes|] == changes;
      return Ok(None);
    }

    method AppendChange(xid: nat, change: ChangeEvent, tag: Option<nat>)
      requires Valid() && xid in pending
      modifies pending.Values
      ensures Valid() && View() == Assembler.Appended(old(View()), xid, [change], tag)
    {
      pending[xid].Append(change, tag);
      assert View().pending == Assembler.Appended(old(View()), xid, [change], tag).pending;
    }

    method Finish(commitLsn: nat, endLsn: nat, commitTime: nat) returns (r: Result<Option<Transaction>>)
      requires Valid()
      modifies this
      ensures Valid() && pending.Values <= old(pending.Values)
      ensures (View(), r) == Assembler.Effect(old(View()), Assembler.FeedCommit(old(View()), commitLsn, endLsn, commitTime))
    {
      if current.None? {
        return Err(ProtocolError);
      }
      var xid := current.value;
      if xid !in pending {
        return Err(KeyError);
      }
      var bucket := pending[xid];
      if bucket.finalLsn != Some(commitLsn) {
        return Err(ProtocolError);
      }
      r := Ok(Some(Assembler.Build(xid, bucket.changes, endLsn, commitTime)));
      pending := pending - {xid};
      current := None;
      assert View().pending == old(View()).pending - {xid};
    }

    method StartStream(xid: nat, first: bool) returns (r: Result<Option<Transaction>>)
      requires Valid()
      modifies this
      ensures Valid() && fresh(pending.Values - old(pending.Values))
      ensures (View(), r) == Assembler.Effect(old(View()), Assembler.FeedStreamStart(old(View()), xid, first))
    {
      if first {
        if xid in pending {
          return Err(ProtocolError);
        }
        var bucket := new Pending(None);
        pending := pending[xid := bucket];
      } else if xid !in pending {
        return Err(ProtocolError);
      }
      active := Some(xid);
      assert View().pending == if first then old(View()).pending[xid := pending[xid].View()] else old(View()).pending;
      return Ok(None);
    }

    method CommitStream(xid: nat, endLsn: nat, commitTime: nat) returns (r: Result<Option<Transaction>>)
      requires Valid()
      modifies this
      ensures Valid() && pending.Values <= old(pending.Values)
      ensures forall l ::
                (View(), r) == Assembler.Effect(old(View()), Assembler.Feed(old(View()), StreamCommit(xid, l, endLsn, commitTime)))
    {
      if xid !in pending {
        return Err(ProtocolError);
      }
      var bucket := pending[xid];
      pending := pending - {xid};
      if active == Some(xid) {
        active := None;
      }
      assert View().pending == old(View()).pending - {xid};
      return Ok(Some(Assembler.Build(xid, bucket.changes, endLsn, commitTime)));
    }

    method AbortStream(xid: nat, sub: nat) returns (r: Result<Option<Transaction>>)
      requires Valid()
      modifies this, pending.Values
      ensures Valid() && pending.Values <= old(pending.Values)
      ensures (View(), r) == Assembler.Effect(old(View()), Assembler.FeedStreamAbort(old(View()), xid, sub))
    {
      if sub == xid {
        pending := pending - {xid};
        if active == Some(xid) {
          active := None;
        }
        assert View().pending == old(View()).pending - {xid};
        return Ok(None);
      }
      if xid in pending {
        pending[xid].Cut(sub);
        assert View().pending == old(View()).pending[xid := pending[xid].View()];
      }
      return Ok(None);
    }
  }
}
