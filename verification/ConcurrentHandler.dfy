/** The sharded handler as an object: the pieces of examples/concurrency.py that run between awaits. */
module ConcurrentHandler {
  import opened Wrappers
  import opened Bytes
  import opened Messages
  import Sharding

  /** What became of one change of the transaction being fed. */
  datatype Routing = Skipped | PutOn(shard: nat) | Blocked(on: nat) | NoEntity

  class ConcurrentHandler {
    const config: Sharding.Config
    var queues: seq<seq<Row>>
    var busy: seq<Option<Row>>
    var failures: nat

    ghost predicate Valid()
      reads this
    {
      Sharding.Sound(config) && |queues| == |busy| == config.count
    }

    ghost function View(): Sharding.Shards
      reads this
    {
      Sharding.Shards(queues, busy, failures)
    }

    constructor (config: Sharding.Config)
      requires Sharding.Sound(config)
      ensures this.config == config && Valid() && View() == Sharding.NoWork(config.count)
    {
      this.config := config;
      queues := seq(config.count, _ => []);
      busy := seq(config.count, _ => None);
      failures := 0;
    }

    /** One turn of the feeding loop; a full shard leaves everything as it is until there is room. */
    method Route(change: ChangeEvent) returns (r: Routing)
      requires Valid()
      modifies `queues
      ensures Valid()
      ensures r == if !Sharding.Relevant(change) then Skipped
                   else if Sharding.Entity(change.newRow.value).None? then NoEntity
                   else
                     var shard := Sharding.ShardOf(config, change.newRow.value);
                     if Sharding.HasRoom(config, old(View()), shard) then PutOn(shard) else Blocked(shard)
      ensures View() == match r
                        case PutOn(shard) => Sharding.PutOn(old(View()), shard, change.newRow.value)
                        case _ => old(View())
      ensures r.Skipped? <==>
              change.table != Sharding.Ascii("public.published_table") || change.kind != INSERT || change.newRow.None?
      ensures !r.Skipped? ==>
                (r.NoEntity? <==> Sharding.Entity(change.newRow.value).None?)
                && (r.PutOn? ==> config.bound == 0 || |old(queues)[r.shard]| < config.bound)
                && (r.Blocked? ==> config.bound > 0 && |old(queues)[r.on]| >= config.bound)
                && (r.PutOn? ==> r.shard == config.shardOf(Sharding.Entity(change.newRow.value).value)
                                 && queues == old(queues)[r.shard := old(queues)[r.shard] + [change.newRow.value]])
                && (!r.PutOn? ==> queues == old(queues))
      ensures forall s: Sharding.State :: s.phase.Feeding? && s.shards == old(View()) && !r.Blocked? ==>
                var t := Sharding.FeedOne(config, s, change);
                t.shards == View() && (t.phase.Raised? <==> r.NoEntity?)
                && t.touched == s.touched + (if r.PutOn? then {r.shard} else {})
    {
      if !Sharding.Relevant(change) {
        return Skipped;
      }
      var payload := change.newRow.value;
      var entity := Sharding.Entity(payload);
      if entity.None? {
        return NoEntity;
      }
      var shard := config.shardOf(entity.value);
      if config.bound > 0 && |queues[shard]| >= config.bound {
        return Blocked(shard);
      }
      queues := queues[shard := queues[shard] + [payload]];
      return PutOn(shard);
    }

    /** A worker takes the next payload of its shard. */
    method TakeNext(shard: nat)
      requires Valid() && shard < config.count && queues[shard] != [] && busy[shard].None?
      modifies `queues, `busy
      ensures Valid() && View() == Sharding.TakeFrom(old(View()), shard)
    {
      busy := busy[shard := Some(queues[shard][0])];
      queues := queues[shard := queues[shard][1..]];
    }

    /** A worker is done with its payload; an exception is recorded and does not end the worker. */
    method TaskDone(shard: nat, ok: bool)
      requires Valid() && shard < config.count && busy[shard].Some?
      modifies `busy, `failures
      ensures Valid() && View() == Sharding.EndOn(old(View()), shard, ok)
    {
      if !ok {
        failures := failures + 1;
      }
      busy := busy[shard := None];
    }

    /** After the joins: raise with the failures, or go on to save. */
    method CollectFailures() returns (raised: nat)
      requires Valid()
      modifies `failures
      ensures Valid() && raised == old(failures) && View() == old(View()).(failures := 0)
    {
      raised := failures;
      failures := 0;
    }
  }
}
