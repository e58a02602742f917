/** The client, its checkpoint handle and store as objects: the pieces of code that run between awaits. */
module Client {
  import opened Wrappers
  import opened Bytes
  import opened Messages
  import ClientState
  import Pgoutput
  import PgoutputDecoder
  import Pipeline
  import Protocol
  import TransactionAssembler

  /** The checkpoint row: `save` overwrites, it does not take a maximum. */
  class CheckpointStore {
    var cell: Option<int>

    constructor ()
      ensures cell == None
    {
      cell := None;
    }

    method Load() returns (r: Result<Option<nat>>)
      ensures r == match cell
                   case None => Ok(None)
                   case Some(lsn) => if lsn < 0 then Err(CheckpointError) else Ok(Some(lsn))
    {
      if cell.Some? && cell.value < 0 {
        return Err(CheckpointError);
      }
      r := Ok(if cell.Some? then Some(cell.value) else None);
    }

    method Save(lsn: int)
      modifies this
      ensures cell == Some(lsn)
    {
      cell := Some(lsn);
    }
  }

  /** What a handler gets: the store, the client to notify, and the highest position it may save. */
  class CheckpointHandle {
    const store: CheckpointStore
    const client: Client
    const maxLsn: Option<int>

    constructor (store: CheckpointStore, client: Client, maxLsn: Option<int>)
      ensures this.store == store && this.client == client && this.maxLsn == maxLsn
    {
      this.store, this.client, this.maxLsn := store, client, maxLsn;
    }

    /** A refused save changes nothing; an accepted one is durable before the client hears of it. */
    method Save(lsn: int) returns (r: Result<()>)
      modifies store, client`durable
      ensures r == if ClientState.MaySave(maxLsn, lsn) then Ok(()) else Err(CheckpointError)
      ensures r.Err? <==> maxLsn.Some? && lsn > maxLsn.value
      ensures r.Ok? ==> store.cell == Some(lsn) && client.View() == ClientState.Saved(old(client.View()), lsn)
      ensures r.Err? ==> store.cell == old(store.cell) && client.View() == old(client.View())
    {
      if maxLsn.Some? && lsn > maxLsn.value {
        return Err(CheckpointError);
      }
      store.Save(lsn);
      client.RecordDurableProgress(lsn);
      return Ok(());
    }
  }

  /** What the receiver has to do after a frame. */
  datatype Reaction = Nothing | Completed(transaction: Transaction) | Reply(payload: Text)

  datatype PutOutcome = Accepted | QueueFull | PutShutDown

  datatype GetOutcome = Taken(transaction: Transaction) | QueueEmpty | GetShutDown

  /** What the receiver works on. */
  datatype Receiver = Receiver(client: ClientState.Client<Transaction>, pipe: Pipeline.Pipe)

  /** A frame as it was read, and the time of its reply if it asks for one. */
  datatype Arrival = Arrival(frame: Text, now: nat)

  function React(s: Receiver, a: Arrival): (Receiver, Result<Reaction>) {
    match Protocol.DecodeFrame(a.frame)
    case Err(fault) => (s, Err(fault))
    case Ok(XLogData(walStart, _, _, payload)) =>
      var (pipe, r) := Pipeline.Handle(s.pipe, payload);
      (Receiver(ClientState.SawWal(s.client, walStart), pipe),
       match r
       case Err(fault) => Err(fault)
       case Ok(None) => Ok(Nothing)
       case Ok(Some(t)) => Ok(Completed(t)))
    case Ok(Keepalive(walEnd, _, reply)) =>
      var client := ClientState.SawWal(s.client, walEnd);
      (s.(client := client),
       if !reply then Ok(Nothing)
       else match Protocol.TryEncodeStatusUpdate(ClientState.Status(client, a.now))
         case Err(fault) => Err(fault)
         case Ok(bytes) => Ok(Reply(bytes)))
  }

  /** Frame after frame until one raises: the transactions completed, after those completed before. */
  function ReactAll(s: Receiver, arrivals: seq<Arrival>, done: seq<Transaction>): (Receiver, Result<seq<Transaction>>)
    decreases |arrivals|
  {
    if s.client.closing || arrivals == [] then (s, Ok(done))
    else
      match React(s, arrivals[0])
      case (t, Err(fault)) => (t, Err(fault))
      case (t, Ok(reaction)) =>
        ReactAll(t, arrivals[1..], if reaction.Completed? then done + [reaction.transaction] else done)
  }

  class Client {
    const capacity: nat
    const decoder: PgoutputDecoder.Decoder
    const assembler: TransactionAssembler.TransactionAssembler
    var written: nat
    var durable: nat
    var queue: seq<Transaction>
    var closing: bool

    ghost function View(): ClientState.Client<Transaction>
      reads this
    {
      ClientState.Client(written, durable, queue, closing)
    }

    /** Decoder and assembler live as long as the client: a new connection does not reset them. */
    ghost function Pipe(): Pipeline.Pipe
      reads decoder, decoder.cache, assembler, assembler.pending.Values
    {
      Pipeline.Pipe(decoder.View(), assembler.View())
    }

    constructor (capacity: nat)
      requires capacity > 0
      ensures this.capacity == capacity && View() == ClientState.Fresh()
      ensures fresh(decoder) && fresh(decoder.cache) && fresh(assembler) && fresh(assembler.pending.Values)
      ensures assembler.Valid() && Pipe() == Pipeline.FRESH_PIPE
    {
      this.capacity := capacity;
      decoder := new PgoutputDecoder.Decoder();
      assembler := new TransactionAssembler.TransactionAssembler();
      written, durable, queue, closing := 0, 0, [], false;
    }

    /** The start of `_run_once`: where to resume from. */
    method Resume(store: CheckpointStore) returns (r: Result<nat>)
      modifies `durable
      ensures match store.cell
              case None => r == Ok(0) && View() == ClientState.Loaded(old(View()), None) && durable == 0
              case Some(lsn) =>
                if lsn < 0 then r == Err(CheckpointError) && View() == old(View())
                else r == Ok(lsn + 1) && View() == ClientState.Loaded(old(View()), Some(lsn)) && durable == lsn
    {
      var checkpoint :- store.Load();
      if checkpoint.None? {
        durable := 0;
        return Ok(0);
      }
      durable := checkpoint.value;
      return Ok(checkpoint.value + 1);
    }

    method HandleXLogData(walStart: nat, payload: Text) returns (r: Result<Option<Transaction>>)
      requires assembler.Valid()
      modifies `written, decoder, decoder.cache, assembler, assembler.pending.Values
      ensures assembler.Valid() && fresh(assembler.pending.Values - old(assembler.pending.Values))
      ensures View() == ClientState.SawWal(old(View()), walStart)
      ensures written == if old(written) < walStart then walStart else old(written)
      ensures (Pipe(), r) == Pipeline.Handle(old(Pipe()), payload)
    {
      written := Max(written, walStart);
      ghost var before := assembler.View();
      var decoded := decoder.Decode(payload);
      assert assembler.View() == before;
      if decoded.Err? {
        return Err(decoded.fault);
      }
      var message := decoded.value;
      if message.Ignored() {
        return Ok(None);
      }
      ghost var d := decoder.View();
      r := assembler.Feed(message);
      assert decoder.View() == d;
    }

    /** One inner message of the replication stream. */
    method HandleFrame(frame: Text, now: nat) returns (r: Result<Reaction>)
      requires assembler.Valid()
      modifies `written, decoder, decoder.cache, assembler, assembler.pending.Values
      ensures assembler.Valid() && fresh(assembler.pending.Values - old(assembler.pending.Values))
      ensures (Receiver(View(), Pipe()), r) == React(Receiver(old(View()), old(Pipe())), Arrival(frame, now))
    {
      var decoded := Protocol.DecodeFrame(frame);
      if decoded.Err? {
        return Err(decoded.fault);
      }
      match decoded.value
      case XLogData(walStart, _, _, payload) =>
        var out := HandleXLogData(walStart, payload);
        if out.Err? {
          return Err(out.fault);
        }
        return Ok(if out.value.Some? then Completed(out.value.value) else Nothing);
      case Keepalive(walEnd, _, reply) =>
        ghost var p := Pipe();
        written := Max(written, walEnd);
        assert Pipe() == p;
        if !reply {
          return Ok(Nothing);
        }
        var bytes :- StatusUpdate(now);
        return Ok(Reply(bytes));
    }

    /** The receiver's loop, up to the queue: `arrivals` are the frames that its reads return. */
    method ReceiveAll(arrivals: seq<Arrival>) returns (r: Result<seq<Transaction>>)
      requires assembler.Valid()
      modifies `written, decoder, decoder.cache, assembler, assembler.pending.Values
      ensures assembler.Valid() && fresh(assembler.pending.Values - old(assembler.pending.Values))
      ensures (Receiver(View(), Pipe()), r) == ReactAll(Receiver(old(View()), old(Pipe())), arrivals, [])
      ensures old(closing) ==> r == Ok([]) && View() == old(View()) && Pipe() == old(Pipe())
    {
      hide React;
      ghost var all := ReactAll(Receiver(View(), Pipe()), arrivals, []);
      var completed: seq<Transaction> := [];
      var i := 0;
      while !closing && i < |arrivals|
        invariant i <= |arrivals| && assembler.Valid()
        invariant fresh(assembler.pending.Values - old(assembler.pending.Values))
        invariant ReactAll(Receiver(View(), Pipe()), arrivals[i..], completed) == all
      {
        assert arrivals[i..][1..] == arrivals[i + 1..];
        var reaction :- HandleFrame(arrivals[i].frame, arrivals[i].now);
        if reaction.Completed? {
          completed := completed + [reaction.transaction];
        }
        i := i + 1;
      }
      return Ok(completed);
    }

    /** `put_nowait` on the bounded queue: the receiver goes on, waits for room, or ends. */
    method PutNowait(transaction: Transaction) returns (r: PutOutcome)
      modifies `queue
      ensures match ClientState.Enqueue(old(View()), capacity, transaction)
              case Queued(c) => r == Accepted && View() == c
              case Full => r == QueueFull && View() == old(View())
              case ShutDown => r == PutShutDown && View() == old(View())
      ensures r == Accepted <==> !old(closing) && |old(queue)| < capacity
      ensures r == Accepted ==> queue == old(queue) + [transaction]
      ensures r == PutShutDown <==> old(closing)
    {
      if closing {
        return PutShutDown;
      }
      if |queue| >= capacity {
        return QueueFull;
      }
      queue := queue + [transaction];
      return Accepted;
    }

    /** The consumer's `get`: it has the head, waits on an empty queue, or ends when that queue is shut down. */
    method Get() returns (r: GetOutcome)
      modifies `queue
      ensures match ClientState.Dequeue(old(View()))
              case Item(c, x) => r == Taken(x) && View() == c
              case Empty => r == QueueEmpty && View() == old(View())
              case Ended => r == GetShutDown && View() == old(View())
      ensures old(queue) != [] ==> r == Taken(old(queue)[0]) && queue == old(queue)[1..]
      ensures old(queue) == [] ==> r == if old(closing) then GetShutDown else QueueEmpty
    {
      if queue == [] {
        return if closing then GetShutDown else QueueEmpty;
      }
      r := Taken(queue[0]);
      queue := queue[1..];
    }

    method RecordDurableProgress(lsn: int)
      modifies `durable
      ensures View() == ClientState.Saved(old(View()), lsn)
      ensures durable == if old(durable) < lsn then lsn else old(durable)
    {
      durable := Max(durable, lsn);
    }

    method StatusUpdate(now: nat) returns (r: Result<Text>)
      ensures r == Protocol.TryEncodeStatusUpdate(ClientState.Status(View(), now))
      ensures r.Ok? ==> Protocol.ServerReads(r.value) == (written + 1, durable + 1, durable + 1)
    {
      ghost var u := Protocol.StatusUpdate(written, durable, durable, now, false);
      Protocol.EncodingFits(u);
      if Protocol.StatusFits(u) {
        Protocol.StatusUpdatePlusOne(u);
      }
      r := Protocol.TryEncodeStatusUpdate(Protocol.StatusUpdate(written, durable, durable, now, false));
    }

    method Close()
      modifies `closing, `queue
      ensures View() == ClientState.Closed(old(View())) && closing && queue == []
    {
      closing := true;
      queue := [];
    }
  }
}
