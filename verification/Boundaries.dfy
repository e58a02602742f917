/** The boundary map is exactly a first-occurrence index of the subtransaction ids that tag the buffered changes. */
module Boundaries {
  import opened Wrappers
  import opened Messages
  import opened Assembler

  type Tags = seq<Option<nat>>

  /** Searching for the first change of a subtransaction; the length when there is none. */
  function FirstTag(tags: Tags, sub: nat): (i: nat)
    ensures i <= |tags|
    ensures i < |tags| ==> tags[i] == Some(sub)
    ensures forall j :: 0 <= j < i ==> tags[j] != Some(sub)
  {
    if tags == [] || tags[0] == Some(sub) then 0 else 1 + FirstTag(tags[1..], sub)
  }

  ghost predicate Exact(b: Bucket, tags: Tags) {
    && |tags| == |b.changes|
    && (forall s :: s in b.bounds <==> Some(s) in tags)
    && (forall s :: s in b.bounds ==> b.bounds[s] == FirstTag(tags, s))
  }

  function Repeat(tag: Option<nat>, n: nat): (r: Tags)
    ensures |r| == n && forall i :: 0 <= i < n ==> r[i] == tag
  {
    seq(n, _ => tag)
  }

  lemma ExactAppend(b: Bucket, tags: Tags, changes: seq<ChangeEvent>, tag: Option<nat>)
    requires Exact(b, tags)
    ensures Exact(Append(b, changes, tag), tags + Repeat(tag, |changes|))
  {
    var extra := Repeat(tag, |changes|);
    var more := tags + extra;
    assert changes != [] ==> more[|tags|] == tag;
    assert forall j :: 0 <= j < |tags| ==> more[j] == tags[j];
    assert forall t :: t in extra ==> t == tag && changes != [];
    assert forall s :: Some(s) in more <==> Some(s) in tags || (changes != [] && tag == Some(s));
    forall s | Some(s) in more
      ensures FirstTag(more, s) == if Some(s) in tags then FirstTag(tags, s) else |tags|
    {
      var i := FirstTag(more, s);
      if Some(s) in tags {
        assert more[FirstTag(tags, s)] == Some(s);
        assert i <= FirstTag(tags, s);
        assert tags[i] == more[i];
      } else {
        assert changes != [] && tag == Some(s);
        assert more[|tags|] == Some(s);
      }
    }
  }

  /** Truncating at the recorded boundary is truncating at the first change of the subtransaction. */
  lemma {:induction false} ExactCut(b: Bucket, tags: Tags, sub: nat)
    requires Exact(b, tags)
    ensures Cut(b, sub).changes == b.changes[..FirstTag(tags, sub)]
    ensures Exact(Cut(b, sub), tags[..FirstTag(tags, sub)])
  {
    var n := FirstTag(tags, sub);
    if sub in b.bounds {
      ExactTruncated(b, tags, n);
    } else {
      assert n == |tags|;
      assert tags[..n] == tags && b.changes[..n] == b.changes;
    }
  }

  lemma ExactTruncated(b: Bucket, tags: Tags, n: nat)
    requires Exact(b, tags) && n <= |tags|
    ensures Exact(Truncated(b, n), tags[..n])
  {
    var kept := tags[..n];
    forall s | Some(s) in tags
      ensures Some(s) in kept <==> FirstTag(tags, s) < n
      ensures Some(s) in kept ==> FirstTag(kept, s) == FirstTag(tags, s)
    {
      var i := FirstTag(tags, s);
      if i < n {
        assert kept[i] == Some(s);
      }
      if Some(s) in kept {
        var j := FirstTag(kept, s);
        assert tags[j] == Some(s);
        assert i <= j;
      }
    }
  }

  /** Rollbacks of one bucket commute, and repeating one changes nothing. */
  lemma CutsCommute(b: Bucket, a: nat, c: nat)
    ensures Cut(Cut(b, a), c) == Cut(Cut(b, c), a)
    ensures Cut(Cut(b, a), a) == Cut(b, a)
  {
    assert Cut(Cut(b, a), c).bounds == Cut(Cut(b, c), a).bounds;
  }

  // ---- over runs ----

  /** The tags of every open bucket, kept beside a run by searching and never by a boundary map. */
  function NextTags(s: State, tags: map<nat, Tags>, m: Message): map<nat, Tags> {
    match m
    case Begin(_, _, xid) => tags[xid := []]
    case StreamStart(xid, first) => if first then tags[xid := []] else tags
    case Commit(_, _, _, _) => if s.current.Some? then tags - {s.current.value} else tags
    case StreamCommit(xid, _, _, _) => tags - {xid}
    case StreamAbort(xid, sub) =>
      if sub == xid then tags - {xid}
      else if xid in tags then tags[xid := tags[xid][..FirstTag(tags[xid], sub)]]
      else tags
    case _ =>
      if m.RowChange() && Target(s).Some? && Target(s).value in tags
      then tags[Target(s).value := tags[Target(s).value] + Repeat(Tag(m), |Events(m)|)] else tags
  }

  function RunTags(s: State, tags: map<nat, Tags>, ms: seq<Message>): map<nat, Tags>
    decreases |ms|
  {
    if ms == [] || Feed(s, ms[0]).Reject? then tags
    else RunTags(Feed(s, ms[0]).state, NextTags(s, tags, ms[0]), ms[1..])
  }

  ghost predicate AllExact(s: State, tags: map<nat, Tags>) {
    tags.Keys == s.pending.Keys && forall x :: x in s.pending ==> Exact(s.pending[x], tags[x])
  }

  lemma FreshExact(lsn: Option<nat>)
    ensures Exact(Bucket([], lsn, map[]), [])
  {
  }

  lemma {:induction false} ExactStep(s: State, tags: map<nat, Tags>, m: Message)
    requires AllExact(s, tags) && Feed(s, m).Accept?
    ensures AllExact(Feed(s, m).state, NextTags(s, tags, m))
  {
    hide Exact, Cut, Append;
    FreshExact(if m.Begin? then Some(m.finalLsn) else None);
    if m.RowChange() {
      var x := Target(s).value;
      if x in s.pending {
        ExactAppend(s.pending[x], tags[x], Events(m), Tag(m));
        if Events(m) == [] {
          assert tags[x] + Repeat(Tag(m), 0) == tags[x];
        }
      }
    } else if m.StreamAbort? && m.abortedXid != m.xid && m.xid in s.pending {
      ExactCut(s.pending[m.xid], tags[m.xid], m.abortedXid);
    }
  }

  /** In every reachable state every bucket's boundary map is the first-occurrence index of its tags. */
  lemma {:induction false} ExactRun(s: State, tags: map<nat, Tags>, ms: seq<Message>)
    requires AllExact(s, tags) && Run(s, ms).Ok?
    ensures AllExact(Run(s, ms).value.0, RunTags(s, tags, ms))
    decreases |ms|
  {
    if ms != [] {
      ExactStep(s, tags, ms[0]);
      ExactRun(Feed(s, ms[0]).state, NextTags(s, tags, ms[0]), ms[1..]);
    }
  }

  /** Hence boundaries are in range, point at a change of their own subtransaction, and are pairwise different. */
  lemma BoundariesInRange(ms: seq<Message>, x: nat, a: nat, c: nat)
    requires Run(EMPTY, ms).Ok? && x in Run(EMPTY, ms).value.0.pending
    requires var b := Run(EMPTY, ms).value.0.pending[x]; a in b.bounds && c in b.bounds && a != c
    ensures var b := Run(EMPTY, ms).value.0.pending[x];
            b.bounds[a] < |b.changes| && b.bounds[c] < |b.changes| && b.bounds[a] != b.bounds[c]
  {
    ExactRun(EMPTY, map[], ms);
    var tags := RunTags(EMPTY, map[], ms)[x];
    assert Some(a) in tags && Some(c) in tags;
  }
}
