/** The client's own state between awaits, and what each piece of client.py does to it. `T` is a queued transaction. */
module ClientState {
  import opened Wrappers
  import Protocol

  datatype Client<T> = Client(written: nat, durable: nat, queue: seq<T>, closing: bool)

  function Fresh<T>(): Client<T> {
    Client(0, 0, [], false)
  }

  /** The first position asked for: one past the checkpoint. */
  function StartLsn(checkpoint: Option<nat>): nat {
    if checkpoint.Some? then checkpoint.value + 1 else 0
  }

  function Loaded<T>(c: Client<T>, checkpoint: Option<nat>): Client<T> {
    c.(durable := if checkpoint.Some? then checkpoint.value else 0)
  }

  function SawWal<T>(c: Client<T>, lsn: nat): Client<T> {
    c.(written := Max(c.written, lsn))
  }

  /** Outcome of putting a transaction on the bounded queue. */
  datatype Put<T> = Queued(client: Client<T>) | Full | ShutDown

  function Enqueue<T>(c: Client<T>, capacity: nat, x: T): Put<T> {
    if c.closing then ShutDown
    else if |c.queue| >= capacity then Full
    else Queued(c.(queue := c.queue + [x]))
  }

  /** Outcome of taking a transaction off the queue. */
  datatype Dequeued<T> = Item(client: Client<T>, item: T) | Empty | Ended

  function Dequeue<T>(c: Client<T>): Dequeued<T> {
    if c.queue != [] then Item(c.(queue := c.queue[1..]), c.queue[0])
    else if c.closing then Ended
    else Empty
  }

  /** What a handle accepts: nothing above the position of its own transaction. */
  predicate MaySave(maxLsn: Option<int>, lsn: int) {
    maxLsn.Some? ==> lsn <= maxLsn.value
  }

  function Saved<T>(c: Client<T>, lsn: int): Client<T> {
    c.(durable := Max(c.durable, lsn))
  }

  /** Closing drops whatever is queued. */
  function Closed<T>(c: Client<T>): Client<T> {
    c.(closing := true, queue := [])
  }

  function Status<T>(c: Client<T>, now: nat): Protocol.StatusUpdate {
    Protocol.StatusUpdate(c.written, c.durable, c.durable, now, false)
  }

  /** A transaction is queued exactly when the client is open and there is room; it goes last, and nothing else changes. */
  lemma PutAccepted<T>(c: Client<T>, capacity: nat, x: T)
    ensures Enqueue(c, capacity, x).Queued? <==> !c.closing && |c.queue| < capacity
    ensures Enqueue(c, capacity, x).Full? <==> !c.closing && |c.queue| >= capacity
    ensures Enqueue(c, capacity, x).Queued? ==>
              var d := Enqueue(c, capacity, x).client;
              d.queue == c.queue + [x] && d.written == c.written && d.durable == c.durable && !d.closing
  {
  }
}
