/** The broadcast registry of app.py: the global `sse_clients` set of per-client queues and
    broadcast_to_clients, which fans one frame out to every registered queue. */
module Registry {
  import opened Wrappers
  import opened Json
  import opened Frames
  import Sse

  /** One client's queue.Queue: an unbounded FIFO of frame texts, oldest first. */
  class ClientQueue {
    var items: seq<string>
    /** Every frame ever put into this queue. */
    ghost var received: seq<string>
    /** Every frame handed to the consumer by Get. */
    ghost var taken: seq<string>

    /** Nothing is lost or duplicated between put and get, and the queue only ever holds
        event frames, never the keepalive comment. */
    ghost predicate Valid()
      reads this
    {
      && received == taken + items
      && forall i :: 0 <= i < |received| ==> received[i] != Sse.Keepalive
    }

    constructor ()
      ensures Valid() && items == [] && received == [] && taken == []
    {
      items, received, taken := [], [], [];
    }

    /** `put`: the frame goes to the tail; what was queued before stays as it was. */
    method Put(m: string)
      requires Valid() && m != Sse.Keepalive
      modifies this
      ensures Valid()
      ensures items == old(items) + [m] && received == old(received) + [m] && taken == old(taken)
    {
      items := items + [m];
      received := received + [m];
    }

    /** `get(timeout=30)`: the oldest frame, or None when the wait times out. Read
        sequentially, nothing can arrive during the wait, so it times out exactly when empty. */
    method Get() returns (m: Option<string>)
      requires Valid()
      modifies this
      ensures Valid() && received == old(received)
      ensures old(items) == [] ==> m == None && items == [] && taken == old(taken)
      ensures old(items) != [] ==>
        && m == Some(old(items)[0])
        && items == old(items)[1..]
        && taken == old(taken) + [old(items)[0]]
    {
      if items == [] {
        m := None;
      } else {
        m := Some(items[0]);
        taken := taken + [items[0]];
        items := items[1..];
      }
    }
  }

  /** What broadcast_to_clients logs: the early return, or the registry size after pruning. */
  datatype Report = NoClients | Broadcasted(count: nat)

  /** Removing the failed queues from a snapshot leaves the others. */
  lemma PrunedCount<T>(snapshot: set<T>, failing: set<T>)
    ensures |snapshot - failing| == |snapshot| - |snapshot * failing|
  {
    var kept, dead := snapshot - failing, snapshot * failing;
    assert kept + dead == snapshot;
    assert kept * dead == {};
  }

  /** The loop over `sse_clients.copy()`: try `put` on every queue of the snapshot and collect
      the ones that failed, without touching the registry itself. */
  method PutAll(snapshot: set<ClientQueue>, message: string, failing: set<ClientQueue>)
    returns (dead: set<ClientQueue>)
    requires message != Sse.Keepalive
    requires forall q :: q in snapshot ==> q.Valid()
    modifies snapshot
    ensures dead == snapshot * failing
    ensures forall q :: q in snapshot ==> q.Valid()
    ensures forall q :: q in snapshot && q !in failing ==>
      && q.items == old(q.items) + [message]
      && q.received == old(q.received) + [message]
      && q.taken == old(q.taken)
    ensures forall q :: q in snapshot && q in failing ==>
      q.items == old(q.items) && q.received == old(q.received) && q.taken == old(q.taken)
  {
    var pending := snapshot;
    dead := {};
    while pending != {}
      invariant pending <= snapshot
      invariant dead == (snapshot - pending) * failing
      invariant forall q :: q in snapshot ==> q.Valid()
      invariant forall q :: q in snapshot - pending && q !in failing ==>
        && q.items == old(q.items) + [message]
        && q.received == old(q.received) + [message]
        && q.taken == old(q.taken)
      invariant forall q :: q in snapshot && (q in pending || q in failing) ==>
        q.items == old(q.items) && q.received == old(q.received) && q.taken == old(q.taken)
      decreases pending
    {
      var q :| q in pending;
      if q in failing {
        dead := dead + {q};
      } else {
        q.Put(message);
      }
      pending := pending - {q};
    }
  }

  /** The registry: the set of queues of the connected clients. */
  class Hub {
    var clients: set<ClientQueue>

    ghost predicate Valid()
      reads this, clients
    {
      forall q :: q in clients ==> q.Valid()
    }

    constructor ()
      ensures Valid() && clients == {}
    {
      clients := {};
    }

    /** `client_queue = queue.Queue(); sse_clients.add(client_queue)`. */
    method Subscribe() returns (q: ClientQueue)
      requires Valid()
      modifies this
      ensures Valid() && fresh(q)
      ensures q.items == [] && q.received == [] && q.taken == []
      ensures clients == old(clients) + {q} && |clients| == |old(clients)| + 1
    {
      q := new ClientQueue();
      clients := clients + {q};
    }

    /** `sse_clients.discard(client_queue)`: removes the queue if present, else does nothing. */
    method Unsubscribe(q: ClientQueue)
      requires Valid()
      modifies this
      ensures Valid() && clients == old(clients) - {q}
      ensures q !in old(clients) ==> clients == old(clients)
      ensures q in old(clients) ==> |clients| == |old(clients)| - 1
    {
      clients := clients - {q};
    }

    /** broadcast_to_clients(event_type, data). `failing` is the set of queues whose `put` raises
        during this pass (an outcome of the environment). Each queue of the snapshot that does
        not fail gets the frame appended once; the failed ones are pruned after the pass. */
    method Broadcast(eventType: string, data: Value, codec: Codec, failing: set<ClientQueue>)
      returns (report: Report)
      requires Valid()
      modifies this, clients
      ensures Valid()
      ensures old(clients) == {} ==> report == NoClients && clients == {}
      ensures old(clients) != {} ==> report == Broadcasted(|clients|)
      ensures clients == old(clients) - failing
      ensures |clients| == |old(clients)| - |old(clients) * failing|
      ensures forall q :: q in old(clients) && q !in failing ==>
        && q.items == old(q.items) + [BroadcastMessage(codec, eventType, data)]
        && q.received == old(q.received) + [BroadcastMessage(codec, eventType, data)]
        && q.taken == old(q.taken)
      ensures forall q :: q in old(clients) && q in failing ==>
        q.items == old(q.items) && q.received == old(q.received) && q.taken == old(q.taken)
    {
      if clients == {} {
        return NoClients;
      }
      var message := BroadcastMessage(codec, eventType, data);
      FrameIsNotKeepalive(codec, BroadcastPayload(eventType, data, codec.render));
      var snapshot := clients;
      var dead := PutAll(snapshot, message, failing);
      clients := clients - dead;
      assert clients == snapshot - failing;
      PrunedCount(snapshot, failing);
      report := Broadcasted(|clients|);
    }
  }
}
