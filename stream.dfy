/** The per-connection generator `event_stream` of the `/events` endpoint, as a state machine:
    construction subscribes and emits the first frame, each Step emits the oldest queued frame
    or a keepalive, and Disconnect is the `finally` clause that discards the queue. */
module Stream {
  import opened Wrappers
  import opened Json
  import opened Frames
  import Sse
  import opened Registry

  datatype Phase = Streaming | Closed

  /** The frames of a stream with the keepalive comments left out. */
  function Messages(frames: seq<string>): (messages: seq<string>) {
    if frames == [] then []
    else (if frames[0] == Sse.Keepalive then [] else [frames[0]]) + Messages(frames[1..])
  }

  /** Writing one more frame extends the messages by that frame, unless it is a keepalive. */
  lemma {:induction false} MessagesAppend(frames: seq<string>, f: string)
    ensures Messages(frames + [f]) == Messages(frames) + (if f == Sse.Keepalive then [] else [f])
  {
    if frames == [] {
      assert [] + [f] == [f];
    } else {
      assert (frames + [f])[1..] == frames[1..] + [f];
      MessagesAppend(frames[1..], f);
    }
  }

  class EventStream {
    const hub: Hub
    const queue: ClientQueue
    var phase: Phase
    /** The frames yielded to the client so far. */
    var sent: seq<string>

    /** The stream starts with one payload frame, and apart from keepalives it has written
        exactly the frames taken from its queue, in queue order. */
    ghost predicate Valid()
      reads this, queue
    {
      && queue.Valid()
      && sent != []
      && sent[0] != Sse.Keepalive
      && Messages(sent) == [sent[0]] + queue.taken
    }

    /** What the receiver has seen, plus what is still queued, is the first frame followed by
        every frame ever put into the queue: each exactly once and in order. */
    lemma Delivered()
      requires Valid()
      ensures Messages(sent) + queue.items == [sent[0]] + queue.received
    {
    }

    /** The start of `event_stream`: subscribe, load the record, yield the first frame. */
    constructor (hub: Hub, stored: Option<Value>, codec: Codec)
      requires hub.Valid()
      modifies hub
      ensures Valid() && hub.Valid() && phase == Streaming && this.hub == hub
      ensures fresh(queue) && queue.items == [] && queue.received == []
      ensures hub.clients == old(hub.clients) + {queue}
      ensures sent == [InitialMessage(codec, stored)]
    {
      var q := hub.Subscribe();
      FrameIsNotKeepalive(codec, InitialPayload(stored, codec.render));
      this.hub := hub;
      queue := q;
      phase := Streaming;
      sent := [InitialMessage(codec, stored)];
      new;
      MessagesAppend([], InitialMessage(codec, stored));
    }

    /** One turn of the `while True` loop: the oldest queued frame, or a keepalive on timeout. */
    method Step()
      requires Valid() && hub.Valid() && phase == Streaming
      modifies this, queue
      ensures Valid() && hub.Valid() && phase == Streaming
      ensures old(queue.items) != [] ==>
        sent == old(sent) + [old(queue.items)[0]] && queue.items == old(queue.items)[1..]
      ensures old(queue.items) == [] ==> sent == old(sent) + [Sse.Keepalive] && queue.items == []
      ensures queue.received == old(queue.received)
    {
      var m := queue.Get();
      match m
      case Some(frame) =>
        assert frame in queue.received;
        MessagesAppend(sent, frame);
        sent := sent + [frame];
      case None =>
        MessagesAppend(sent, Sse.Keepalive);
        sent := sent + [Sse.Keepalive];
    }

    /** The client went away: `finally: sse_clients.discard(client_queue)`. Closing an already
        closed generator does nothing. */
    method Disconnect()
      requires Valid() && hub.Valid()
      modifies this, hub
      ensures Valid() && hub.Valid() && phase == Closed && sent == old(sent)
      ensures old(phase) == Streaming ==> hub.clients == old(hub.clients) - {queue}
      ensures old(phase) == Closed ==> hub.clients == old(hub.clients)
    {
      if phase == Streaming {
        hub.Unsubscribe(queue);
      }
      phase := Closed;
    }
  }

  /** A client connected before an update receives the update frame as its next frame, before
      any keepalive. */
  method UpdateBeforeKeepalive(codec: Codec, stored: Option<Value>, record: Value)
    returns (report: Report, wire: seq<string>)
    ensures report == Broadcasted(1)
    ensures wire == [InitialMessage(codec, stored), BroadcastMessage(codec, "quiz_update", record), Sse.Keepalive]
  {
    var hub := new Hub();
    var s := new EventStream(hub, stored, codec);
    report := hub.Broadcast("quiz_update", record, codec, {});
    s.Step();
    s.Step();
    wire := s.sent;
  }

  /** A client whose put fails is pruned while a second client in the same pass still gets the
      frame. */
  method DeadClientIsPruned(codec: Codec, stored: Option<Value>)
    returns (report: Report, liveQueued: seq<string>, deadQueued: seq<string>, remaining: nat,
             liveRegistered: bool, deadRegistered: bool)
    ensures report == Broadcasted(1) && remaining == 1
    ensures liveRegistered && !deadRegistered
    ensures liveQueued == [BroadcastMessage(codec, "quiz_reset", Null)]
    ensures deadQueued == []
  {
    var hub := new Hub();
    var live := new EventStream(hub, stored, codec);
    var dead := new EventStream(hub, stored, codec);
    report := hub.Broadcast("quiz_reset", Null, codec, {dead.queue});
    liveQueued, deadQueued := live.queue.items, dead.queue.items;
    remaining := |hub.clients|;
    liveRegistered, deadRegistered := live.queue in hub.clients, dead.queue in hub.clients;
  }

  /** A pruned stream keeps running on keepalives only, and its final discard is the no-op case. */
  method PrunedStreamCloses(codec: Codec, stored: Option<Value>)
    returns (wire: seq<string>, remaining: nat)
    ensures wire == [InitialMessage(codec, stored), Sse.Keepalive]
    ensures remaining == 0
  {
    var hub := new Hub();
    var s := new EventStream(hub, stored, codec);
    var report := hub.Broadcast("quiz_update", Null, codec, {s.queue});
    s.Step();
    s.Disconnect();
    wire, remaining := s.sent, |hub.clients|;
  }
}
