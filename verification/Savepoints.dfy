/**
 A PostgreSQL transaction with savepoints, the rollbacks its server reports, and what they do to a bucket.
 `Undo` is the plain meaning: a stack of saved lengths. `Txn` is the server, which also gives every savepoint
 a subtransaction id, tags each change with the innermost open one, and reports aborted ids one by one.
 */
module Savepoints {
  import opened Wrappers
  import opened Messages
  import opened Assembler
  import opened Boundaries

  datatype Op =
    | Write(changes: seq<ChangeEvent>)
    | Savepoint(id: nat)
    | Release(depth: nat)
    | RollbackTo(depth: nat, id: nat, aborts: seq<nat>)

  // ---- plain undo-stack meaning ----

  /** `marks[d]` is the number of changes when savepoint `d` began; savepoint 0 is the transaction itself. */
  datatype Undo = Undo(marks: seq<nat>, changes: seq<ChangeEvent>)

  function UndoStep(u: Undo, op: Op): Undo {
    match op
    case Write(changes) => u.(changes := u.changes + changes)
    case Savepoint(_) => u.(marks := u.marks + [|u.changes|])
    case Release(d) => if d < |u.marks| then u.(marks := u.marks[..d]) else u
    case RollbackTo(d, _, _) =>
      if d < |u.marks| && u.marks[d] <= |u.changes|
      then Undo(u.marks[..d + 1], u.changes[..u.marks[d]]) else u
  }

  function UndoRun(u: Undo, ops: seq<Op>): Undo
    decreases |ops|
  {
    if ops == [] then u else UndoRun(UndoStep(u, ops[0]), ops[1..])
  }

  // ---- the server ----

  /** An open savepoint: its own id, and with it the ids of all savepoints released into it. */
  datatype Frame = Frame(id: nat, mark: nat, members: set<nat>)

  datatype Txn = Txn(frames: seq<Frame>, tags: Tags, changes: seq<ChangeEvent>)

  function Start(xid: nat): Txn {
    Txn([Frame(xid, 0, {xid})], [], [])
  }

  /** `id` belongs to savepoint `d` or to one nested in it. */
  ghost predicate Within(frames: seq<Frame>, d: nat, id: nat) {
    exists i :: d <= i < |frames| && id in frames[i].members
  }

  /**
   The reported ids, in any order and with any repeats: only aborted ones, and every aborted one that
   has a buffered change.
   */
  ghost predicate Covers(t: Txn, d: nat, aborts: seq<nat>)
    requires d < |t.frames|
  {
    && (forall a :: a in aborts ==> Within(t.frames, d, a))
    && (forall p :: t.frames[d].mark <= p < |t.tags| && t.tags[p].Some? ==> t.tags[p].value in aborts)
  }

  ghost predicate OpValid(t: Txn, op: Op) {
    match op
    case Write(_) => true
    case Savepoint(id) => !Within(t.frames, 0, id)
    case Release(d) => 0 < d < |t.frames|
    case RollbackTo(d, id, aborts) => 0 < d < |t.frames| && !Within(t.frames, 0, id) && Covers(t, d, aborts)
  }

  function AllMembers(frames: seq<Frame>): set<nat> {
    if frames == [] then {} else frames[0].members + AllMembers(frames[1..])
  }

  function Top(t: Txn): nat
    requires t.frames != []
  {
    t.frames[|t.frames| - 1].id
  }

  /** ROLLBACK TO ends the savepoint and opens it again under a new id. */
  function Step(t: Txn, op: Op): Txn
    requires t.frames != []
  {
    match op
    case Write(changes) => t.(tags := t.tags + Repeat(Some(Top(t)), |changes|), changes := t.changes + changes)
    case Savepoint(id) => t.(frames := t.frames + [Frame(id, |t.changes|, {id})])
    case Release(d) =>
      if 0 < d < |t.frames| then
        var parent := t.frames[d - 1];
        t.(frames := t.frames[..d - 1] + [parent.(members := parent.members + AllMembers(t.frames[d..]))])
      else t
    case RollbackTo(d, id, _) =>
      if 0 < d < |t.frames| && t.frames[d].mark <= |t.changes| && t.frames[d].mark <= |t.tags| then
        var n := t.frames[d].mark;
        Txn(t.frames[..d] + [Frame(id, n, {id})], t.tags[..n], t.changes[..n])
      else t
  }

  /** The changes made since a savepoint began are exactly those tagged within it. */
  ghost predicate Sound(t: Txn) {
    && t.frames != [] && t.frames[0].mark == 0
    && |t.tags| == |t.changes|
    && (forall i :: 0 <= i < |t.frames| ==> t.frames[i].id in t.frames[i].members && t.frames[i].mark <= |t.changes|)
    && (forall i, j :: 0 <= i <= j < |t.frames| ==> t.frames[i].mark <= t.frames[j].mark)
    && (forall p :: 0 <= p < |t.tags| ==> t.tags[p].Some?)
    && (forall d, p :: 0 <= d < |t.frames| && 0 <= p < |t.tags| ==>
                         (Within(t.frames, d, t.tags[p].value) <==> t.frames[d].mark <= p))
    && !Within(t.frames, 1, t.frames[0].id)
  }

  lemma {:induction false} AllMembersWithin(frames: seq<Frame>, id: nat)
    ensures id in AllMembers(frames) <==> Within(frames, 0, id)
  {
    if frames != [] {
      AllMembersWithin(frames[1..], id);
      assert forall i :: 1 <= i < |frames| ==> frames[i] == frames[1..][i - 1];
      assert forall i :: 0 <= i < |frames[1..]| ==> frames[1..][i] == frames[i + 1];
    }
  }

  lemma WithinPush(frames: seq<Frame>, f: Frame, d: nat, id: nat)
    ensures d <= |frames| ==> (Within(frames + [f], d, id) <==> Within(frames, d, id) || id in f.members)
  {
    var more := frames + [f];
    assert more[|frames|] == f;
    assert forall i :: 0 <= i < |frames| ==> more[i] == frames[i];
  }

  lemma WithinSplit(frames: seq<Frame>, d: nat, e: nat, id: nat)
    requires d <= e <= |frames|
    ensures Within(frames, d, id) <==> Within(frames[..e], d, id) || Within(frames, e, id)
  {
    var front := frames[..e];
    assert forall i :: 0 <= i < e ==> front[i] == frames[i];
    if Within(frames, d, id) {
      var i :| d <= i < |frames| && id in frames[i].members;
      assert i < e ==> id in front[i].members;
    }
  }

  lemma SoundWrite(t: Txn, changes: seq<ChangeEvent>)
    requires Sound(t)
    ensures Sound(Step(t, Write(changes)))
  {
    var u := Step(t, Write(changes));
    var top := |t.frames| - 1;
    assert forall p :: 0 <= p < |t.tags| ==> u.tags[p] == t.tags[p];
    forall d, p | 0 <= d < |u.frames| && |t.tags| <= p < |u.tags|
      ensures Within(u.frames, d, u.tags[p].value) && u.frames[d].mark <= p
    {
      assert u.tags[p] == Some(Top(t));
      assert u.frames[top].id in u.frames[top].members;
    }
  }

  lemma SoundSavepoint(t: Txn, id: nat)
    requires Sound(t) && !Within(t.frames, 0, id)
    ensures Sound(Step(t, Savepoint(id)))
  {
    var u := Step(t, Savepoint(id));
    var f := Frame(id, |t.changes|, {id});
    forall d, p | 0 <= d < |u.frames| && 0 <= p < |u.tags|
      ensures Within(u.frames, d, u.tags[p].value) <==> u.frames[d].mark <= p
    {
      WithinPush(t.frames, f, d, u.tags[p].value);
      assert Within(t.frames, 0, t.tags[p].value);
    }
    assert t.frames[0].id in t.frames[0].members;
    WithinPush(t.frames, f, 1, t.frames[0].id);
  }

  lemma ReleaseWithin(t: Txn, d: nat, e: nat, id: nat)
    requires 0 < d < |t.frames| && e < d
    ensures Within(Step(t, Release(d)).frames, e, id) <==> Within(t.frames, e, id)
  {
    var parent := t.frames[d - 1];
    var merged := parent.(members := parent.members + AllMembers(t.frames[d..]));
    WithinPush(t.frames[..d - 1], merged, e, id);
    AllMembersWithin(t.frames[d..], id);
    assert forall i :: 0 <= i < |t.frames[d..]| ==> t.frames[d..][i] == t.frames[d + i];
    assert forall i :: d <= i < |t.frames| ==> t.frames[i] == t.frames[d..][i - d];
    WithinSplit(t.frames, e, d - 1, id);
  }

  lemma NoneWithin(frames: seq<Frame>, d: nat, id: nat)
    requires |frames| <= d
    ensures !Within(frames, d, id)
  {
  }

  lemma SoundRelease(t: Txn, d: nat)
    requires Sound(t) && 0 < d < |t.frames|
    ensures Sound(Step(t, Release(d)))
  {
    hide Within, AllMembers;
    var u := Step(t, Release(d));
    assert forall i :: 0 <= i < d ==> u.frames[i].mark == t.frames[i].mark && u.frames[i].id == t.frames[i].id;
    assert forall i :: 0 <= i < d ==> t.frames[i].members <= u.frames[i].members;
    forall e, p | 0 <= e < |u.frames| && 0 <= p < |u.tags|
      ensures Within(u.frames, e, u.tags[p].value) <==> u.frames[e].mark <= p
    {
      ReleaseWithin(t, d, e, u.tags[p].value);
    }
    if d > 1 {
      ReleaseWithin(t, d, 1, t.frames[0].id);
    } else {
      NoneWithin(u.frames, 1, t.frames[0].id);
    }
  }

  lemma SoundRollback(t: Txn, d: nat, id: nat, aborts: seq<nat>)
    requires Sound(t) && 0 < d < |t.frames| && !Within(t.frames, 0, id)
    ensures Sound(Step(t, RollbackTo(d, id, aborts)))
  {
    var u := Step(t, RollbackTo(d, id, aborts));
    var n := t.frames[d].mark;
    var f := Frame(id, n, {id});
    assert forall i :: 0 <= i < d ==> u.frames[i] == t.frames[i];
    forall e, p | 0 <= e < |u.frames| && 0 <= p < |u.tags|
      ensures Within(u.frames, e, u.tags[p].value) <==> u.frames[e].mark <= p
    {
      var v := t.tags[p].value;
      assert u.tags[p] == t.tags[p];
      WithinPush(t.frames[..d], f, e, v);
      assert Within(t.frames, 0, v);
      assert !Within(t.frames, d, v);
      WithinSplit(t.frames, e, d, v);
    }
    var x := t.frames[0].id;
    assert x in t.frames[0].members;
    WithinPush(t.frames[..d], f, 1, x);
    WithinSplit(t.frames, 1, d, x);
  }

  /** Every operation keeps the server's view of a transaction sound. */
  lemma {:induction false} SoundStep(t: Txn, op: Op)
    requires Sound(t) && OpValid(t, op)
    ensures Sound(Step(t, op)) && Step(t, op).frames[0].id == t.frames[0].id
  {
    match op
    case Write(changes) => SoundWrite(t, changes);
    case Savepoint(id) => SoundSavepoint(t, id);
    case Release(d) => SoundRelease(t, d);
    case RollbackTo(d, id, aborts) => SoundRollback(t, d, id, aborts);
  }

  // ---- the bucket ----

  function CutAll(b: Bucket, aborts: seq<nat>): Bucket
    decreases |aborts|
  {
    if aborts == [] then b else CutAll(Cut(b, aborts[0]), aborts[1..])
  }

  /** The ids reported are those of the changes from `n` on. */
  ghost predicate Reports(tags: Tags, n: nat, aborts: seq<nat>) {
    && (forall p :: 0 <= p < n && p < |tags| && tags[p].Some? ==> tags[p].value !in aborts)
    && (forall p :: n <= p < |tags| ==> tags[p].Some? && tags[p].value in aborts)
  }

  lemma ReportsNext(tags: Tags, n: nat, aborts: seq<nat>)
    requires n <= |tags| && Reports(tags, n, aborts) && aborts != []
    ensures FirstTag(tags, aborts[0]) >= n
    ensures Reports(tags[..FirstTag(tags, aborts[0])], n, aborts[1..])
  {
    var a := aborts[0];
    var f := FirstTag(tags, a);
    assert aborts == [a] + aborts[1..];
    assert forall p :: 0 <= p < n && p < |tags| ==> tags[p] != Some(a);
    var kept := tags[..f];
    forall p | n <= p < |kept|
      ensures kept[p].Some? && kept[p].value in aborts[1..]
    {
      assert kept[p] == tags[p] && tags[p] != Some(a);
    }
  }

  lemma ReportsSome(tags: Tags, n: nat, aborts: seq<nat>)
    requires n <= |tags| && Reports(tags, n, aborts)
    ensures n < |tags| ==> aborts != []
  {
    if n < |tags| {
      assert tags[n].value in aborts;
    }
  }

  /** Cutting at every reported id, in any order, truncates to the length saved when the savepoint began. */
  lemma {:induction false} CutAllTruncates(b: Bucket, tags: Tags, n: nat, aborts: seq<nat>)
    requires Exact(b, tags) && n <= |tags| && Reports(tags, n, aborts)
    ensures CutAll(b, aborts).changes == b.changes[..n]
    ensures Exact(CutAll(b, aborts), tags[..n])
    ensures CutAll(b, aborts).finalLsn == b.finalLsn
    decreases |aborts|
  {
    if aborts == [] {
      ReportsSome(tags, n, aborts);
      assert tags[..n] == tags && b.changes[..n] == b.changes;
    } else {
      var f := FirstTag(tags, aborts[0]);
      ExactCut(b, tags, aborts[0]);
      ReportsNext(tags, n, aborts);
      assert |b.changes| == |tags|;
      hide Exact, Reports;
      CutAllTruncates(Cut(b, aborts[0]), tags[..f], n, aborts[1..]);
      assert tags[..f][..n] == tags[..n];
      assert b.changes[..f][..n] == b.changes[..n];
    }
  }

  /** What the reported messages of one operation make of the bucket. */
  function BucketStep(b: Bucket, t: Txn, op: Op): Bucket
    requires t.frames != []
  {
    match op
    case Write(changes) => Append(b, changes, Some(Top(t)))
    case Savepoint(_) => b
    case Release(_) => b
    case RollbackTo(_, _, aborts) => CutAll(b, aborts)
  }

  ghost predicate Mirrors(b: Bucket, t: Txn) {
    b.changes == t.changes && Exact(b, t.tags)
  }

  lemma {:induction false} RollbackMirrors(b: Bucket, t: Txn, d: nat, id: nat, aborts: seq<nat>)
    requires Sound(t) && Mirrors(b, t) && OpValid(t, RollbackTo(d, id, aborts))
    ensures Mirrors(CutAll(b, aborts), Step(t, RollbackTo(d, id, aborts)))
    ensures CutAll(b, aborts).finalLsn == b.finalLsn
  {
    var n := t.frames[d].mark;
    forall p | 0 <= p < n && t.tags[p].Some?
      ensures t.tags[p].value !in aborts
    {
      assert !Within(t.frames, d, t.tags[p].value);
    }
    CutAllTruncates(b, t.tags, n, aborts);
  }

  /** One operation: the bucket keeps mirroring the server, and the server keeps agreeing with the undo stack. */
  lemma MirrorStep(b: Bucket, t: Txn, op: Op)
    requires Sound(t) && Mirrors(b, t) && OpValid(t, op)
    ensures Mirrors(BucketStep(b, t, op), Step(t, op))
    ensures BucketStep(b, t, op).finalLsn == b.finalLsn
  {
    match op
    case Write(changes) => ExactAppend(b, t.tags, changes, Some(Top(t)));
    case Savepoint(_) =>
    case Release(_) =>
    case RollbackTo(d, id, aborts) => RollbackMirrors(b, t, d, id, aborts);
  }

  function Marks(frames: seq<Frame>): (marks: seq<nat>)
    ensures |marks| == |frames|
    ensures forall i :: 0 <= i < |frames| ==> marks[i] == frames[i].mark
  {
    seq(|frames|, i requires 0 <= i < |frames| => frames[i].mark)
  }

  function UndoOf(t: Txn): Undo {
    Undo(Marks(t.frames), t.changes)
  }

  lemma UndoAgrees(t: Txn, op: Op)
    requires Sound(t) && OpValid(t, op)
    ensures UndoOf(Step(t, op)) == UndoStep(UndoOf(t), op)
  {
    assert Marks(Step(t, op).frames) == UndoStep(UndoOf(t), op).marks;
  }

  ghost predicate AllValid(t: Txn, ops: seq<Op>)
    requires t.frames != []
    decreases |ops|
  {
    ops == [] || (OpValid(t, ops[0]) && Step(t, ops[0]).frames != [] && AllValid(Step(t, ops[0]), ops[1..]))
  }

  function BucketRun(b: Bucket, t: Txn, ops: seq<Op>): Bucket
    requires t.frames != []
    decreases |ops|
  {
    if ops == [] || Step(t, ops[0]).frames == [] then b
    else BucketRun(BucketStep(b, t, ops[0]), Step(t, ops[0]), ops[1..])
  }

  /**
   For every sequence of writes, savepoints, releases and rollbacks, the bucket holds exactly the changes
   that the plain undo stack keeps.
   */
  lemma {:induction false} SavepointMeaning(b: Bucket, t: Txn, ops: seq<Op>)
    requires Sound(t) && Mirrors(b, t) && AllValid(t, ops)
    ensures BucketRun(b, t, ops).changes == UndoRun(UndoOf(t), ops).changes
    decreases |ops|
  {
    if ops != [] {
      SoundStep(t, ops[0]);
      MirrorStep(b, t, ops[0]);
      UndoAgrees(t, ops[0]);
      SavepointMeaning(BucketStep(b, t, ops[0]), Step(t, ops[0]), ops[1..]);
    }
  }

  lemma StartSound(xid: nat)
    ensures Sound(Start(xid)) && Mirrors(Bucket([], None, map[]), Start(xid))
  {
    assert xid in Start(xid).frames[0].members;
  }

  // ---- when only the outermost aborted id is reported ----

  /** A savepoint's own id tags no change from before it. */
  lemma OwnIdLate(t: Txn, d: nat)
    requires Sound(t) && 0 < d < |t.frames|
    ensures t.frames[d].mark <= |t.tags| == |t.changes|
    ensures t.frames[d].mark <= FirstTag(t.tags, t.frames[d].id)
  {
    assert Within(t.frames, d, t.frames[d].id);
    assert forall p :: 0 <= p < t.frames[d].mark ==> !Within(t.frames, d, t.tags[p].value);
    hide Within;
  }

  /**
   Reporting just the savepoint's own id is enough exactly when nothing was written since it began, or
   the first such change carries that very id: a nested savepoint that wrote first would survive.
   */
  lemma OutermostOnly(b: Bucket, t: Txn, d: nat)
    requires Sound(t) && Mirrors(b, t) && 0 < d < |t.frames|
    ensures var n, id := t.frames[d].mark, t.frames[d].id;
            Cut(b, id).changes == t.changes[..n] <==> (n == |t.tags| || t.tags[n] == Some(id))
  {
    var n, id := t.frames[d].mark, t.frames[d].id;
    ExactCut(b, t.tags, id);
    hide Sound, Exact, Within, Cut;
    OwnIdLate(t, d);
    var f := FirstTag(t.tags, id);
    assert |t.changes[..f]| == f && |t.changes[..n]| == n;
  }

  /** The failing case: savepoint 2, nested savepoint 3 that writes, a release, a write; then 2 alone is reported. */
  lemma OutermostOnlyFails(c: ChangeEvent)
    ensures var t := Step(Step(Step(Step(Step(Start(1), Savepoint(2)), Savepoint(3)), Write([c])), Release(2)), Write([c]));
            && t.frames[1].id == 2 && t.changes[..t.frames[1].mark] == []
            && forall b :: Mirrors(b, t) ==> Cut(b, 2).changes == [c]
  {
    var t1 := Step(Step(Start(1), Savepoint(2)), Savepoint(3));
    assert t1.frames == [Frame(1, 0, {1}), Frame(2, 0, {2}), Frame(3, 0, {3})];
    var t2 := Step(t1, Write([c]));
    assert t2.tags == [Some(3)] && t2.changes == [c];
    var t3 := Step(t2, Release(2));
    assert t3.frames[1].id == 2 && |t3.frames| == 2;
    var t := Step(t3, Write([c]));
    assert t.tags == [Some(3), Some(2)];
    forall b | Mirrors(b, t)
      ensures Cut(b, 2).changes == [c]
    {
      ExactCut(b, t.tags, 2);
      var f := FirstTag(t.tags, 2);
      assert t.tags[0] == Some(3) && t.tags[1] == Some(2);
      assert f == 1;
      assert t.changes[..1] == [c];
    }
  }
}
