/**
 The sharded handler (examples/concurrency.py) as interleaved steps: one coroutine feeds a transaction's inserts
 to bounded shard queues and waits for them; one worker per shard takes payloads one at a time.
 */
module Sharding {
  import opened Wrappers
  import opened Bytes
  import opened Messages
  import WireFormat
  import WireRoundTrip

  function Ascii(s: string): (t: Text)
    requires forall i :: 0 <= i < |s| ==> s[i] < 128 as char
    ensures |t| == |s| && forall i :: 0 <= i < |s| ==> t[i] == Letter(s[i])
  {
    seq(|s|, i requires 0 <= i < |s| => s[i] as int as byte)
  }

  const TABLE := Ascii("public.published_table")
  const ENTITY_ID := Ascii("entity_id")

  /** `shardOf` stands for the hash; a bound of 0 means no bound. */
  datatype Config = Config(count: nat, bound: nat, shardOf: Text -> nat)

  ghost predicate Sound(c: Config) {
    forall e :: c.shardOf(e) < c.count
  }

  predicate Relevant(change: ChangeEvent) {
    change.table == TABLE && change.kind == INSERT && change.newRow.Some?
  }

  function Entity(payload: Row): Option<Text> {
    if ENTITY_ID in payload then payload[ENTITY_ID] else None
  }

  /** The shard of a payload that has an entity. */
  function ShardOf(c: Config, payload: Row): nat {
    if Entity(payload).Some? then c.shardOf(Entity(payload).value) else 0
  }

  function Inserts(changes: seq<ChangeEvent>): seq<Row> {
    if changes == [] then []
    else
      var last := changes[|changes| - 1];
      Inserts(changes[..|changes| - 1]) + (if Relevant(last) then [last.newRow.value] else [])
  }

  function AllInserts(txs: seq<Transaction>): seq<Row> {
    if txs == [] then [] else AllInserts(txs[..|txs| - 1]) + Inserts(txs[|txs| - 1].changes)
  }

  /** What the handler object holds. */
  datatype Shards = Shards(queues: seq<seq<Row>>, busy: seq<Option<Row>>, failures: nat)

  function NoWork(count: nat): Shards {
    Shards(seq(count, _ => []), seq(count, _ => None), 0)
  }

  datatype Phase = Waiting | Feeding(i: nat) | Joining(todo: set<nat>) | Raised

  datatype Outcome = Outcome(payload: Row, ok: bool)

  /** A save, with how many payloads were finished when it was made. */
  datatype Save = Save(tx: nat, finished: nat)

  datatype State = State(shards: Shards, tx: nat, phase: Phase, touched: set<nat>,
                         finished: seq<Outcome>, fed: seq<Row>, saves: seq<Save>)

  function Init(c: Config): State {
    State(NoWork(c.count), 0, Waiting, {}, [], [], [])
  }

  datatype Step = Begin | Feed | Fed | Joined(shard: nat) | Settle | Take(shard: nat) | End(shard: nat, ok: bool)

  predicate HasRoom(c: Config, h: Shards, shard: nat) {
    shard < |h.queues| && (c.bound == 0 || |h.queues[shard]| < c.bound)
  }

  predicate Drained(h: Shards, shard: nat) {
    shard < |h.queues| && shard < |h.busy| && h.queues[shard] == [] && h.busy[shard].None?
  }

  predicate Enabled(c: Config, txs: seq<Transaction>, s: State, a: Step) {
    match a
    case Begin => s.phase.Waiting? && s.tx < |txs|
    case Feed =>
      && s.tx < |txs| && s.phase.Feeding? && s.phase.i < |txs[s.tx].changes|
      && (Relevant(txs[s.tx].changes[s.phase.i]) && Entity(txs[s.tx].changes[s.phase.i].newRow.value).Some? ==>
            HasRoom(c, s.shards, ShardOf(c, txs[s.tx].changes[s.phase.i].newRow.value)))
    case Fed => s.tx < |txs| && s.phase == Feeding(|txs[s.tx].changes|)
    case Joined(shard) => s.phase.Joining? && shard in s.phase.todo && Drained(s.shards, shard)
    case Settle => s.phase == Joining({})
    case Take(shard) =>
      shard < |s.shards.queues| && shard < |s.shards.busy| && s.shards.queues[shard] != [] && s.shards.busy[shard].None?
    case End(shard, _) => shard < |s.shards.busy| && s.shards.busy[shard].Some?
  }

  function PutOn(h: Shards, shard: nat, payload: Row): Shards
    requires shard < |h.queues|
  {
    h.(queues := h.queues[shard := h.queues[shard] + [payload]])
  }

  function TakeFrom(h: Shards, shard: nat): Shards
    requires shard < |h.queues| && shard < |h.busy| && h.queues[shard] != []
  {
    h.(queues := h.queues[shard := h.queues[shard][1..]], busy := h.busy[shard := Some(h.queues[shard][0])])
  }

  function EndOn(h: Shards, shard: nat, ok: bool): Shards
    requires shard < |h.busy|
  {
    h.(busy := h.busy[shard := None], failures := if ok then h.failures else h.failures + 1)
  }

  /** One change of the transaction: skipped, put on its shard, or an exception for want of an entity. */
  function FeedOne(c: Config, s: State, change: ChangeEvent): State {
    if !Relevant(change) then s.(phase := Feeding(if s.phase.Feeding? then s.phase.i + 1 else 0))
    else
      var payload := change.newRow.value;
      var shard := ShardOf(c, payload);
      if Entity(payload).None? || shard >= |s.shards.queues| then s.(phase := Raised)
      else
        s.(shards := PutOn(s.shards, shard, payload), touched := s.touched + {shard}, fed := s.fed + [payload],
           phase := Feeding(if s.phase.Feeding? then s.phase.i + 1 else 0))
  }

  function Next(c: Config, txs: seq<Transaction>, s: State, a: Step): State
    requires Enabled(c, txs, s, a)
  {
    match a
    case Begin => s.(phase := Feeding(0), touched := {})
    case Feed => FeedOne(c, s, txs[s.tx].changes[s.phase.i])
    case Fed => s.(phase := Joining(s.touched))
    case Joined(shard) => s.(phase := Joining(s.phase.todo - {shard}))
    case Settle =>
      if s.shards.failures > 0 then s.(phase := Raised, shards := s.shards.(failures := 0))
      else s.(phase := Waiting, tx := s.tx + 1, saves := s.saves + [Save(s.tx, |s.finished|)])
    case Take(shard) => s.(shards := TakeFrom(s.shards, shard))
    case End(shard, ok) =>
      s.(shards := EndOn(s.shards, shard, ok), finished := s.finished + [Outcome(s.shards.busy[shard].value, ok)])
  }

  ghost predicate Runs(c: Config, txs: seq<Transaction>, s: State, steps: seq<Step>)
    decreases |steps|
  {
    steps == [] || (Enabled(c, txs, s, steps[0]) && Runs(c, txs, Next(c, txs, s, steps[0]), steps[1..]))
  }

  function After(c: Config, txs: seq<Transaction>, s: State, steps: seq<Step>): State
    decreases |steps|
  {
    if steps == [] || !Enabled(c, txs, s, steps[0]) then s
    else After(c, txs, Next(c, txs, s, steps[0]), steps[1..])
  }

  // ---- what is where ----

  function Payloads(finished: seq<Outcome>): (ps: seq<Row>)
    ensures |ps| == |finished|
    ensures forall i :: 0 <= i < |ps| ==> ps[i] == finished[i].payload
  {
    seq(|finished|, i requires 0 <= i < |finished| => finished[i].payload)
  }

  function OnShard(c: Config, ps: seq<Row>, shard: nat): seq<Row> {
    if ps == [] then []
    else
      OnShard(c, ps[..|ps| - 1], shard) + (if ShardOf(c, ps[|ps| - 1]) == shard then [ps[|ps| - 1]] else [])
  }

  function OfEntity(ps: seq<Row>, e: Text): seq<Row> {
    if ps == [] then []
    else OfEntity(ps[..|ps| - 1], e) + (if Entity(ps[|ps| - 1]) == Some(e) then [ps[|ps| - 1]] else [])
  }

  function Opt(o: Option<Row>): seq<Row> {
    if o.Some? then [o.value] else []
  }

  /** A shard has finished, in order, what was fed to it, apart from what it is at and what it has queued. */
  ghost predicate Flow(c: Config, s: State, shard: nat)
    requires shard < |s.shards.queues| && shard < |s.shards.busy|
  {
    OnShard(c, Payloads(s.finished), shard) + Opt(s.shards.busy[shard]) + s.shards.queues[shard]
    == OnShard(c, s.fed, shard)
  }

  ghost predicate Routed(c: Config, s: State) {
    && |s.shards.queues| == |s.shards.busy| == c.count
    && (forall p :: p in s.fed ==> Entity(p).Some?)
    && (forall k, i :: 0 <= k < c.count && 0 <= i < |s.shards.queues[k]| ==> ShardOf(c, s.shards.queues[k][i]) == k)
    && (forall k :: 0 <= k < c.count && s.shards.busy[k].Some? ==> ShardOf(c, s.shards.busy[k].value) == k)
    && (forall k :: 0 <= k < c.count ==> Flow(c, s, k))
  }

  /** What has been fed is what the transactions so far contain. */
  ghost predicate FedSoFar(txs: seq<Transaction>, s: State) {
    && (s.phase.Waiting? ==> s.tx <= |txs| && s.fed == AllInserts(txs[..s.tx]))
    && (s.phase.Feeding? ==>
          s.tx < |txs| && s.phase.i <= |txs[s.tx].changes|
          && s.fed == AllInserts(txs[..s.tx]) + Inserts(txs[s.tx].changes[..s.phase.i]))
    && (s.phase.Joining? ==> s.tx < |txs| && s.fed == AllInserts(txs[..s.tx + 1]))
  }

  /** The shards that may still hold work. */
  function Working(s: State): set<nat> {
    if s.phase.Feeding? then s.touched else if s.phase.Joining? then s.phase.todo else {}
  }

  /** Shards that this transaction does not wait for hold nothing. */
  ghost predicate Quiet(c: Config, s: State) {
    !s.phase.Raised? ==> forall k :: 0 <= k < c.count && k !in Working(s) ==> Drained(s.shards, k)
  }

  ghost predicate NoFailure(s: State) {
    !s.phase.Raised? && s.shards.failures == 0 ==> forall i :: 0 <= i < |s.finished| ==> s.finished[i].ok
  }

  /** When the save was made everything of the transactions up to it had finished, without an exception. */
  ghost predicate Gated(txs: seq<Transaction>, finished: seq<Outcome>, v: Save) {
    && v.tx < |txs| && v.finished <= |finished|
    && (forall j :: 0 <= j < v.finished ==> finished[j].ok)
    && multiset(Payloads(finished[..v.finished])) == multiset(AllInserts(txs[..v.tx + 1]))
  }

  ghost predicate SavesGated(txs: seq<Transaction>, s: State) {
    forall i :: 0 <= i < |s.saves| ==> Gated(txs, s.finished, s.saves[i])
  }

  ghost predicate Inv(c: Config, txs: seq<Transaction>, s: State) {
    Routed(c, s) && FedSoFar(txs, s) && Quiet(c, s) && NoFailure(s) && SavesGated(txs, s)
  }

  lemma OnShardPush(c: Config, ps: seq<Row>, p: Row, shard: nat)
    ensures OnShard(c, ps + [p], shard) == OnShard(c, ps, shard) + (if ShardOf(c, p) == shard then [p] else [])
  {
    assert (ps + [p])[..|ps|] == ps;
  }

  lemma PayloadsPush(finished: seq<Outcome>, o: Outcome)
    ensures Payloads(finished + [o]) == Payloads(finished) + [o.payload]
  {
  }

  lemma RoutedFeed(c: Config, s: State, t: State, p: Row)
    requires Sound(c) && Routed(c, s) && Entity(p).Some?
    requires t.finished == s.finished && t.fed == s.fed + [p] && t.shards == PutOn(s.shards, ShardOf(c, p), p)
    ensures Routed(c, t)
  {
    forall k | 0 <= k < c.count
      ensures Flow(c, t, k)
    {
      assert Flow(c, s, k);
      OnShardPush(c, s.fed, p, k);
      if k == ShardOf(c, p) {
        var done := OnShard(c, Payloads(s.finished), k) + Opt(s.shards.busy[k]);
        assert done + s.shards.queues[k] + [p] == done + (s.shards.queues[k] + [p]);
      }
    }
  }

  lemma RoutedTake(c: Config, s: State, shard: nat)
    requires Routed(c, s) && shard < c.count && s.shards.queues[shard] != [] && s.shards.busy[shard].None?
    ensures Routed(c, s.(shards := TakeFrom(s.shards, shard)))
  {
    hide OnShard;
    var t := s.(shards := TakeFrom(s.shards, shard));
    assert forall i :: 0 <= i < |t.shards.queues[shard]| ==> t.shards.queues[shard][i] == s.shards.queues[shard][i + 1];
    forall k | 0 <= k < c.count
      ensures Flow(c, t, k)
    {
      assert Flow(c, s, k);
      if k == shard {
        var q, done := s.shards.queues[k], OnShard(c, Payloads(s.finished), k);
        assert q == [q[0]] + q[1..];
        assert done + [] + q == done + [q[0]] + q[1..];
      }
    }
  }

  lemma RoutedEnd(c: Config, s: State, t: State, shard: nat, ok: bool)
    requires Routed(c, s) && shard < c.count && s.shards.busy[shard].Some?
    requires t == s.(shards := EndOn(s.shards, shard, ok), finished := s.finished + [Outcome(s.shards.busy[shard].value, ok)])
    ensures Routed(c, t)
  {
    var p := s.shards.busy[shard].value;
    PayloadsPush(s.finished, Outcome(p, ok));
    forall k | 0 <= k < c.count
      ensures Flow(c, t, k)
    {
      assert Flow(c, s, k);
      OnShardPush(c, Payloads(s.finished), p, k);
      var done := OnShard(c, Payloads(s.finished), k);
      if k == shard {
        assert done + [p] + [] + s.shards.queues[k] == done + [p] + s.shards.queues[k];
      } else {
        assert done + [] == done;
      }
    }
  }

  lemma RoutedStep(c: Config, txs: seq<Transaction>, s: State, a: Step)
    requires Sound(c) && Routed(c, s) && Enabled(c, txs, s, a)
    ensures Routed(c, Next(c, txs, s, a))
  {
    var t := Next(c, txs, s, a);
    match a
    case Feed =>
      var change := txs[s.tx].changes[s.phase.i];
      if Relevant(change) && Entity(change.newRow.value).Some? {
        RoutedFeed(c, s, t, change.newRow.value);
      } else {
        assert forall k :: 0 <= k < c.count ==> Flow(c, s, k) == Flow(c, t, k);
      }
    case Take(shard) => RoutedTake(c, s, shard);
    case End(shard, ok) => RoutedEnd(c, s, t, shard, ok);
    case _ =>
      assert forall k :: 0 <= k < c.count ==> Flow(c, s, k) == Flow(c, t, k);
  }

  lemma FedStep(c: Config, txs: seq<Transaction>, s: State, a: Step)
    requires Sound(c) && Routed(c, s) && FedSoFar(txs, s) && Enabled(c, txs, s, a)
    ensures FedSoFar(txs, Next(c, txs, s, a))
  {
    match a
    case Begin =>
      assert txs[s.tx].changes[..0] == [];
      assert s.fed + [] == s.fed;
    case Feed =>
      var changes, i := txs[s.tx].changes, s.phase.i;
      assert changes[..i + 1][..i] == changes[..i] && changes[..i + 1][i] == changes[i];
      var before, now := AllInserts(txs[..s.tx]), Inserts(changes[..i]);
      if Relevant(changes[i]) {
        assert before + now + [changes[i].newRow.value] == before + (now + [changes[i].newRow.value]);
      } else {
        assert now + [] == now;
      }
    case Fed =>
      var changes := txs[s.tx].changes;
      assert changes[..|changes|] == changes;
      assert txs[..s.tx + 1][..s.tx] == txs[..s.tx];
    case _ =>
  }

  lemma QuietStep(c: Config, txs: seq<Transaction>, s: State, a: Step)
    requires Sound(c) && Routed(c, s) && Quiet(c, s) && NoFailure(s) && Enabled(c, txs, s, a)
    ensures Quiet(c, Next(c, txs, s, a)) && NoFailure(Next(c, txs, s, a))
  {
    assert |s.shards.queues| == |s.shards.busy| == c.count;
    hide Routed, ShardOf, Relevant;
    var t := Next(c, txs, s, a);
    if !t.phase.Raised? {
      forall k | 0 <= k < c.count && k !in Working(t)
        ensures Drained(t.shards, k)
      {
        assert k !in Working(s) ==> Drained(s.shards, k);
      }
    }
  }

  // ---- what the handler may conclude ----

  lemma {:induction false} CountOnShard(c: Config, ps: seq<Row>, p: Row)
    ensures multiset(ps)[p] == multiset(OnShard(c, ps, ShardOf(c, p)))[p]
    decreases |ps|
  {
    if ps != [] {
      var n := |ps| - 1;
      CountOnShard(c, ps[..n], p);
      assert ps == ps[..n] + [ps[n]];
    }
  }

  /** Once every shard is drained, what is finished is what was fed. */
  lemma DrainedIsFinished(c: Config, s: State)
    requires Sound(c) && Routed(c, s) && forall k :: 0 <= k < c.count ==> Drained(s.shards, k)
    requires c.count > 0
    ensures multiset(Payloads(s.finished)) == multiset(s.fed)
  {
    forall p: Row
      ensures multiset(Payloads(s.finished))[p] == multiset(s.fed)[p]
    {
      var k := ShardOf(c, p);
      CountOnShard(c, Payloads(s.finished), p);
      CountOnShard(c, s.fed, p);
      assert k < c.count;
      assert Flow(c, s, k) && Drained(s.shards, k);
      var done := OnShard(c, Payloads(s.finished), k);
      assert done + [] + [] == done;
    }
  }

  lemma SettleReached(c: Config, txs: seq<Transaction>, s: State)
    requires Sound(c) && c.count > 0 && Inv(c, txs, s) && s.phase == Joining({}) && s.shards.failures == 0
    ensures Gated(txs, s.finished, Save(s.tx, |s.finished|))
  {
    assert s.finished[..|s.finished|] == s.finished;
    DrainedIsFinished(c, s);
  }

  lemma GatedLater(txs: seq<Transaction>, finished: seq<Outcome>, o: Outcome, v: Save)
    requires Gated(txs, finished, v)
    ensures Gated(txs, finished + [o], v)
  {
    assert (finished + [o])[..v.finished] == finished[..v.finished];
  }

  lemma GatedStep(c: Config, txs: seq<Transaction>, s: State, a: Step)
    requires Sound(c) && c.count > 0 && Inv(c, txs, s) && Enabled(c, txs, s, a)
    ensures SavesGated(txs, Next(c, txs, s, a))
  {
    if a.Settle? && s.shards.failures == 0 {
      SettleReached(c, txs, s);
    }
    hide Gated, Routed, FedSoFar, Quiet, NoFailure;
    var t := Next(c, txs, s, a);
    forall i | 0 <= i < |t.saves|
      ensures Gated(txs, t.finished, t.saves[i])
    {
      assert i < |s.saves| ==> Gated(txs, s.finished, s.saves[i]) && t.saves[i] == s.saves[i];
      if a.End? {
        GatedLater(txs, s.finished, Outcome(s.shards.busy[a.shard].value, a.ok), t.saves[i]);
      }
    }
  }

  lemma InvStep(c: Config, txs: seq<Transaction>, s: State, a: Step)
    requires Sound(c) && c.count > 0 && Inv(c, txs, s) && Enabled(c, txs, s, a)
    ensures Inv(c, txs, Next(c, txs, s, a))
  {
    RoutedStep(c, txs, s, a);
    FedStep(c, txs, s, a);
    QuietStep(c, txs, s, a);
    GatedStep(c, txs, s, a);
  }

  lemma {:induction false} InvRun(c: Config, txs: seq<Transaction>, s: State, steps: seq<Step>)
    requires Sound(c) && c.count > 0 && Inv(c, txs, s) && Runs(c, txs, s, steps)
    ensures Inv(c, txs, After(c, txs, s, steps))
    decreases |steps|
  {
    if steps != [] {
      InvStep(c, txs, s, steps[0]);
      InvRun(c, txs, Next(c, txs, s, steps[0]), steps[1..]);
    }
  }

  lemma InitInv(c: Config, txs: seq<Transaction>)
    ensures Inv(c, txs, Init(c))
  {
    assert txs[..0] == [];
  }

  /**
   For every schedule: `checkpoint.save` is reached for a transaction only when every insert of it and of all
   before it had been finished, none with an exception.
   */
  lemma SaveAfterAll(c: Config, txs: seq<Transaction>, steps: seq<Step>, i: nat)
    requires Sound(c) && c.count > 0 && Runs(c, txs, Init(c), steps)
    requires i < |After(c, txs, Init(c), steps).saves|
    ensures var t := After(c, txs, Init(c), steps);
            Gated(txs, t.finished, t.saves[i])
  {
    InitInv(c, txs);
    InvRun(c, txs, Init(c), steps);
  }

  lemma {:induction false} EntityOnShard(c: Config, ps: seq<Row>, e: Text)
    ensures OfEntity(OnShard(c, ps, c.shardOf(e)), e) == OfEntity(ps, e)
    decreases |ps|
  {
    if ps != [] {
      var n := |ps| - 1;
      var front := OnShard(c, ps[..n], c.shardOf(e));
      EntityOnShard(c, ps[..n], e);
      assert (front + [ps[n]])[..|front|] == front;
      assert front + [] == front;
      assert OfEntity(ps[..n], e) + [] == OfEntity(ps[..n], e);
    }
  }

  lemma {:induction false} OfEntityConcat(a: seq<Row>, b: seq<Row>, e: Text)
    ensures OfEntity(a + b, e) == OfEntity(a, e) + OfEntity(b, e)
    decreases |b|
  {
    if b == [] {
      assert a + b == a && OfEntity(a, e) + [] == OfEntity(a, e);
    } else {
      var n := |b| - 1;
      assert (a + b)[..|a + b| - 1] == a + b[..n];
      OfEntityConcat(a, b[..n], e);
    }
  }

  /** In a reachable state an entity's finished events are the first of its fed events, in order. */
  lemma EntityPrefix(c: Config, s: State, e: Text)
    requires Sound(c) && Routed(c, s)
    ensures OfEntity(Payloads(s.finished), e) <= OfEntity(s.fed, e)
  {
    var k := c.shardOf(e);
    assert k < c.count && Flow(c, s, k);
    EntityOnShard(c, Payloads(s.finished), e);
    EntityOnShard(c, s.fed, e);
    var done := OnShard(c, Payloads(s.finished), k);
    var rest := Opt(s.shards.busy[k]) + s.shards.queues[k];
    assert done + Opt(s.shards.busy[k]) + s.shards.queues[k] == done + rest;
    OfEntityConcat(done, rest, e);
  }

  lemma {:induction false} InsertsPrefix(changes: seq<ChangeEvent>, n: nat)
    requires n <= |changes|
    ensures Inserts(changes[..n]) <= Inserts(changes)
    decreases |changes|
  {
    if n < |changes| {
      InsertsPrefix(changes[..|changes| - 1], n);
      assert changes[..|changes| - 1][..n] == changes[..n];
    } else {
      assert changes[..n] == changes;
    }
  }

  lemma {:induction false} AllInsertsPrefix(txs: seq<Transaction>, n: nat)
    requires n <= |txs|
    ensures AllInserts(txs[..n]) <= AllInserts(txs)
    decreases |txs|
  {
    if n < |txs| {
      AllInsertsPrefix(txs[..|txs| - 1], n);
      assert txs[..|txs| - 1][..n] == txs[..n];
    } else {
      assert txs[..n] == txs;
    }
  }

  /** What has been fed is always an initial part of all inserts. */
  ghost predicate FedPrefix(txs: seq<Transaction>, s: State) {
    s.fed <= AllInserts(txs)
  }

  lemma FedIsPrefix(txs: seq<Transaction>, s: State)
    requires FedSoFar(txs, s) && !s.phase.Raised?
    ensures FedPrefix(txs, s)
  {
    if s.phase.Feeding? {
      InsertsPrefix(txs[s.tx].changes, s.phase.i);
      assert txs[..s.tx + 1][..s.tx] == txs[..s.tx];
      AllInsertsPrefix(txs, s.tx + 1);
    } else if s.phase.Joining? {
      AllInsertsPrefix(txs, s.tx + 1);
    } else {
      AllInsertsPrefix(txs, s.tx);
    }
  }

  lemma {:induction false} FedPrefixRun(c: Config, txs: seq<Transaction>, s: State, steps: seq<Step>)
    requires Sound(c) && c.count > 0 && Inv(c, txs, s) && FedPrefix(txs, s) && Runs(c, txs, s, steps)
    ensures FedPrefix(txs, After(c, txs, s, steps))
    decreases |steps|
  {
    if steps != [] {
      var t := Next(c, txs, s, steps[0]);
      InvStep(c, txs, s, steps[0]);
      if !t.phase.Raised? {
        FedIsPrefix(txs, t);
      } else {
        assert t.fed == s.fed;
      }
      FedPrefixRun(c, txs, t, steps[1..]);
    }
  }

  lemma OfEntityPrefix(a: seq<Row>, b: seq<Row>, e: Text)
    requires a <= b
    ensures OfEntity(a, e) <= OfEntity(b, e)
  {
    assert b == a + b[|a|..];
    OfEntityConcat(a, b[|a|..], e);
  }

  /**
   For every schedule of feeder and workers, the events finished for an entity are the first of its events in
   the input, in input order, across all transactions.
   */
  lemma EntityOrder(c: Config, txs: seq<Transaction>, steps: seq<Step>, e: Text)
    requires Sound(c) && c.count > 0 && Runs(c, txs, Init(c), steps)
    ensures OfEntity(Payloads(After(c, txs, Init(c), steps).finished), e) <= OfEntity(AllInserts(txs), e)
  {
    var t := After(c, txs, Init(c), steps);
    InitInv(c, txs);
    InvRun(c, txs, Init(c), steps);
    FedPrefixRun(c, txs, Init(c), steps);
    EntityPrefix(c, t, e);
    OfEntityPrefix(t.fed, AllInserts(txs), e);
  }

  // ---- what a save certifies ----

  lemma {:induction false} CountOfEntity(ps: seq<Row>, e: Text, p: Row)
    ensures multiset(OfEntity(ps, e))[p] == if Entity(p) == Some(e) then multiset(ps)[p] else 0
    decreases |ps|
  {
    if ps != [] {
      var n := |ps| - 1;
      CountOfEntity(ps[..n], e, p);
      assert ps == ps[..n] + [ps[n]];
    }
  }

  lemma SameCount(a: seq<Row>, b: seq<Row>, e: Text)
    requires multiset(a) == multiset(b)
    ensures |OfEntity(a, e)| == |OfEntity(b, e)|
  {
    var x, y := OfEntity(a, e), OfEntity(b, e);
    forall p: Row
      ensures multiset(x)[p] == multiset(y)[p]
    {
      CountOfEntity(a, e, p);
      CountOfEntity(b, e, p);
    }
    assert multiset(x) == multiset(y);
    assert |multiset(x)| == |x| && |multiset(y)| == |y|;
  }

  lemma SamePrefix(a: seq<Row>, b: seq<Row>, whole: seq<Row>)
    requires a <= whole && b <= whole && |a| == |b|
    ensures a == b
  {
    assert a == whole[..|a|] && b == whole[..|b|];
  }

  /**
   For every schedule: when a transaction is saved, the events finished for each entity are exactly those of
   the transactions up to it, in input order.
   */
  lemma SavedComplete(c: Config, txs: seq<Transaction>, steps: seq<Step>, i: nat, e: Text)
    requires Sound(c) && c.count > 0 && Runs(c, txs, Init(c), steps)
    requires i < |After(c, txs, Init(c), steps).saves|
    ensures var t := After(c, txs, Init(c), steps);
            var v := t.saves[i];
            && v.tx < |txs| && v.finished <= |t.finished|
            && OfEntity(Payloads(t.finished[..v.finished]), e) == OfEntity(AllInserts(txs[..v.tx + 1]), e)
  {
    SaveAfterAll(c, txs, steps, i);
    EntityOrder(c, txs, steps, e);
    hide Runs, After, OfEntity, AllInserts;
    var t := After(c, txs, Init(c), steps);
    var v := t.saves[i];
    var done, input := Payloads(t.finished[..v.finished]), AllInserts(txs[..v.tx + 1]);
    assert done == Payloads(t.finished)[..v.finished];
    OfEntityPrefix(done, Payloads(t.finished), e);
    AllInsertsPrefix(txs, v.tx + 1);
    OfEntityPrefix(input, AllInserts(txs), e);
    SameCount(done, input, e);
    SamePrefix(OfEntity(done, e), OfEntity(input, e), OfEntity(AllInserts(txs), e));
  }

  // ---- which rows they are ----

  const SCHEMA: Text := [112, 117, 98, 108, 105, 99]  // public
  const NAME: Text := [112, 117, 98, 108, 105, 115, 104, 101, 100, 95, 116, 97, 98, 108, 101]  // published_table
  const COLUMN: Text := [101, 110, 116, 105, 116, 121, 95, 105, 100]  // entity_id

  /** The one dot of the published table's name tells its schema from its name. */
  lemma TableSplits(schema: Text, name: Text)
    ensures schema + [Letter('.')] + name == TABLE <==> schema == SCHEMA && name == NAME
  {
    assert TABLE == SCHEMA + [Letter('.')] + NAME;
    var whole := schema + [Letter('.')] + name;
    if whole == TABLE {
      assert whole[|schema|] == Letter('.');
      assert |schema| == |SCHEMA|;
      assert schema == whole[..6] && name == whole[7..];
      assert SCHEMA == TABLE[..6] && NAME == TABLE[7..];
    }
  }

  lemma {:induction false} NoInserts(changes: seq<ChangeEvent>)
    requires forall i :: 0 <= i < |changes| ==> changes[i].kind != INSERT
    ensures Inserts(changes) == []
    decreases |changes|
  {
    if changes != [] {
      NoInserts(changes[..|changes| - 1]);
    }
  }

  lemma {:induction false} InsertsConcat(a: seq<ChangeEvent>, b: seq<ChangeEvent>)
    ensures Inserts(a + b) == Inserts(a) + Inserts(b)
    decreases |b|
  {
    if b == [] {
      assert a + b == a && Inserts(a) + [] == Inserts(a);
    } else {
      var n := |b| - 1;
      assert (a + b)[..|a + b| - 1] == a + b[..n];
      InsertsConcat(a, b[..n]);
    }
  }

  /** Of the rows written, the handler publishes exactly those inserted into public.published_table. */
  lemma PublishedRows(op: WireFormat.RowOp, catalog: map<nat, Relation>)
    requires WireFormat.OpFits(op, catalog)
    ensures Inserts(WireFormat.RowChanges(op, catalog))
            == if op.InsertRow? && catalog[op.id].namespace == SCHEMA && catalog[op.id].name == NAME
               then [WireFormat.RowOf(catalog[op.id].columns, op.cells)] else []
  {
    var changes := WireFormat.RowChanges(op, catalog);
    hide WireFormat.RowOf;
    match op
    case InsertRow(id, _) =>
      TableSplits(catalog[id].namespace, catalog[id].name);
      assert changes[..0] == [] && Inserts([]) == [];
    case TruncateTables(ids, _, _) =>
      WireRoundTrip.TruncatedTables(ids, catalog);
      NoInserts(changes);
    case _ => NoInserts(changes);
  }

  /** Its entity is the text of the column entity_id; there is none when that column is missing, NULL or not sent. */
  lemma EntityRead(columns: seq<Column>, cells: seq<WireFormat.Cell>)
    requires |columns| == |cells| && WireFormat.Distinct(columns)
    ensures forall i :: 0 <= i < |columns| && columns[i].name == COLUMN ==>
                          Entity(WireFormat.RowOf(columns, cells)) == if cells[i].Value? then Some(cells[i].text) else None
    ensures (forall i :: 0 <= i < |columns| ==> columns[i].name != COLUMN) ==>
              Entity(WireFormat.RowOf(columns, cells)) == None
  {
    assert ENTITY_ID == COLUMN;
    WireRoundTrip.RowMeaning(columns, cells);
    hide WireFormat.RowOf, WireFormat.Distinct;
  }

  // ---- bounded ----

  ghost predicate WithinBound(c: Config, s: State) {
    c.bound > 0 ==> forall k :: 0 <= k < |s.shards.queues| ==> |s.shards.queues[k]| <= c.bound
  }

  lemma BoundStep(c: Config, txs: seq<Transaction>, s: State, a: Step)
    requires WithinBound(c, s) && Enabled(c, txs, s, a)
    ensures WithinBound(c, Next(c, txs, s, a))
  {
    hide Relevant, Entity, ShardOf;
  }

  /** For every schedule no shard's queue ever holds more than its bound. */
  lemma {:induction false} BoundedShards(c: Config, txs: seq<Transaction>, s: State, steps: seq<Step>)
    requires WithinBound(c, s) && Runs(c, txs, s, steps)
    ensures WithinBound(c, After(c, txs, s, steps))
    decreases |steps|
  {
    hide WithinBound, Enabled, Next;
    if steps != [] {
      BoundStep(c, txs, s, steps[0]);
      BoundedShards(c, txs, Next(c, txs, s, steps[0]), steps[1..]);
    }
  }
}
