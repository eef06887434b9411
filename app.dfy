/** The two request handlers that publish through the registry: `/questionize` (capture, extract,
    parse, save, broadcast an update) and `/reset` (remove the stored record, broadcast a reset),
    and the connection of a new `/events` client. */
module App {
  import opened Wrappers
  import opened Json
  import opened Frames
  import Sse
  import opened Registry
  import opened Stream

  /** The contents of quiz_data.json. `Corrupt` is a file that is valid UTF-8 but not valid JSON
      (or cannot be opened); a file that is not valid UTF-8 is not modelled. */
  datatype FileState = Absent | Corrupt | Holds(content: Value)

  /** load_quiz_data: an absent file, or one whose read raises a JSON decoding or I/O error,
      reads as None. */
  function Load(f: FileState): (r: Option<Value>) {
    match f
    case Holds(v) => Some(v)
    case _ => None
  }

  /** A camera frame, and the PNG bytes cv2.imencode makes of it. */
  type Pixels = seq<int>
  type Bytes = seq<bv8>

  /** The collaborators of a capture request after the camera: the PNG encoder (None when
      imencode reports failure), the language-model call (None when it raises) and json.loads
      (None on a JSONDecodeError). */
  datatype Pipeline = Pipeline(
    encode: Pixels -> Option<Bytes>,
    extract: Bytes -> Option<string>,
    parse: string -> Option<Value>)

  /** Why a request failed. Only MalformedJson is reported as a JSON error; app.py reports every
      other capture-side failure as an image-processing error, and a failed remove as a reset error. */
  datatype ErrorKind = CaptureUnavailable | EncodeFailed | ExtractionFailed | MalformedJson | SaveFailed | RemoveFailed

  datatype Reply = Ok | Error(kind: ErrorKind)

  /** The steps of `questionize` before anything is stored: capture, encode, extract, parse.
      `captured` is the camera's outcome (None when video_capture raises). */
  function Extracted(captured: Option<Pixels>, pipe: Pipeline): (r: Result<Value, ErrorKind>) {
    if captured.None? then Failure(CaptureUnavailable)
    else
      var png := pipe.encode(captured.value);
      if png.None? then Failure(EncodeFailed)
      else
        var text := pipe.extract(png.value);
        if text.None? then Failure(ExtractionFailed)
        else
          var parsed := pipe.parse(text.value);
          if parsed.None? then Failure(MalformedJson) else Success(parsed.value)
  }

  /** The record is published only when every step up to parsing succeeded, and it is then the
      parser's output for the model's answer; malformed output is the MalformedJson failure. */
  lemma ExtractedMeans(captured: Option<Pixels>, pipe: Pipeline)
    ensures Extracted(captured, pipe).Success? <==>
      && captured.Some?
      && pipe.encode(captured.value).Some?
      && pipe.extract(pipe.encode(captured.value).value).Some?
      && pipe.parse(pipe.extract(pipe.encode(captured.value).value).value).Some?
    ensures Extracted(captured, pipe).Success? ==>
      Some(Extracted(captured, pipe).value) == pipe.parse(pipe.extract(pipe.encode(captured.value).value).value)
    ensures Extracted(captured, pipe) == Failure(MalformedJson) <==>
      && captured.Some?
      && pipe.encode(captured.value).Some?
      && pipe.extract(pipe.encode(captured.value).value).Some?
      && pipe.parse(pipe.extract(pipe.encode(captured.value).value).value).None?
  {
  }

  /** The Flask application's state: the registry and the stored record. */
  class Server {
    const hub: Hub
    const codec: Codec
    var file: FileState

    constructor (codec: Codec, file: FileState)
      ensures hub.Valid() && fresh(hub) && hub.clients == {}
      ensures this.codec == codec && this.file == file
    {
      hub := new Hub();
      this.codec := codec;
      this.file := file;
    }

    /** POST /questionize. Parsing comes before save_quiz_data, which comes before the broadcast:
        a failure at any step leaves the file, the registry and every queue as they were.
        `saveOk` is whether writing quiz_data.json succeeds. */
    method Questionize(captured: Option<Pixels>, pipe: Pipeline, saveOk: bool, failing: set<ClientQueue>)
      returns (reply: Reply)
      requires hub.Valid()
      modifies this, hub, hub.clients
      ensures hub.Valid()
      ensures Extracted(captured, pipe).Failure? ==>
        && reply == Error(Extracted(captured, pipe).error)
        && file == old(file)
        && unchanged(hub) && unchanged(old(hub.clients))
      ensures Extracted(captured, pipe).Success? && !saveOk ==>
        && reply == Error(SaveFailed)
        && file == old(file)
        && unchanged(hub) && unchanged(old(hub.clients))
      ensures Extracted(captured, pipe).Success? && saveOk ==>
        && reply == Ok
        && file == Holds(Extracted(captured, pipe).value)
        && hub.clients == old(hub.clients) - failing
        && (forall q :: q in old(hub.clients) && q !in failing ==>
              && q.items == old(q.items) + [BroadcastMessage(codec, "quiz_update", Extracted(captured, pipe).value)]
              && q.received == old(q.received) + [BroadcastMessage(codec, "quiz_update", Extracted(captured, pipe).value)]
              && q.taken == old(q.taken))
        && (forall q :: q in old(hub.clients) && q in failing ==>
              q.items == old(q.items) && q.received == old(q.received) && q.taken == old(q.taken))
    {
      var extracted := Extracted(captured, pipe);
      if extracted.Failure? {
        return Error(extracted.error);
      }
      if !saveOk {
        return Error(SaveFailed);
      }
      file := Holds(extracted.value);
      var report := hub.Broadcast("quiz_update", extracted.value, codec, failing);
      reply := Ok;
    }

    /** POST /reset. The file is removed if it exists (a corrupt one too), then a reset is
        broadcast; when the removal fails nothing is broadcast. `removeOk` is whether os.remove
        succeeds. */
    method Reset(removeOk: bool, failing: set<ClientQueue>) returns (reply: Reply)
      requires hub.Valid()
      modifies this, hub, hub.clients
      ensures hub.Valid()
      ensures old(file) != Absent && !removeOk ==>
        && reply == Error(RemoveFailed)
        && file == old(file)
        && unchanged(hub) && unchanged(old(hub.clients))
      ensures old(file) == Absent || removeOk ==>
        && reply == Ok
        && file == Absent
        && hub.clients == old(hub.clients) - failing
        && (forall q :: q in old(hub.clients) && q !in failing ==>
              && q.items == old(q.items) + [BroadcastMessage(codec, "quiz_reset", Null)]
              && q.received == old(q.received) + [BroadcastMessage(codec, "quiz_reset", Null)]
              && q.taken == old(q.taken))
        && (forall q :: q in old(hub.clients) && q in failing ==>
              q.items == old(q.items) && q.received == old(q.received) && q.taken == old(q.taken))
    {
      if file != Absent {
        if !removeOk {
          return Error(RemoveFailed);
        }
        file := Absent;
      }
      var report := hub.Broadcast("quiz_reset", Null, codec, failing);
      reply := Ok;
    }

    /** GET /events: a new stream whose first frame reflects the record stored at this instant. */
    method Connect() returns (s: EventStream)
      requires hub.Valid()
      modifies hub
      ensures hub.Valid() && s.Valid() && fresh(s) && s.phase == Streaming && s.hub == hub
      ensures fresh(s.queue) && s.queue.items == [] && s.queue.received == []
      ensures hub.clients == old(hub.clients) + {s.queue}
      ensures s.sent == [InitialMessage(codec, Load(file))]
    {
      s := new EventStream(hub, Load(file), codec);
    }
  }

  /** After a reset, a newly connected client starts with the reset frame. */
  method ResetThenConnect(codec: Codec, file: FileState, removeOk: bool)
    returns (reply: Reply, first: string)
    ensures file == Absent || removeOk ==> reply == Ok && first == FrameOf(codec, ResetPayload)
    ensures file != Absent && !removeOk ==> reply == Error(RemoveFailed)
  {
    var server := new Server(codec, file);
    reply := server.Reset(removeOk, {});
    var s := server.Connect();
    first := s.sent[0];
  }

  /** After a successful capture, a newly connected client starts with an `initial` frame carrying
      the record just stored (or the reset frame if that record is falsy). */
  method QuestionizeThenConnect(codec: Codec, file: FileState, captured: Option<Pixels>, pipe: Pipeline)
    returns (reply: Reply, first: string)
    ensures var r := Extracted(captured, pipe);
      && (r.Success? && Truthy(r.value) ==>
            reply == Ok && first == FrameOf(codec, Initial(codec.render(r.value), r.value)))
      && (r.Success? && !Truthy(r.value) ==> reply == Ok && first == FrameOf(codec, ResetPayload))
      && (r.Failure? ==> reply == Error(r.error) && first == InitialMessage(codec, Load(file)))
  {
    var server := new Server(codec, file);
    reply := server.Questionize(captured, pipe, true, {});
    var s := server.Connect();
    first := s.sent[0];
  }

  /** A client connected before a successful capture receives its first frame, then the update
      frame, then a keepalive; when the capture fails it receives only keepalives. */
  method ConnectThenQuestionize(codec: Codec, file: FileState, captured: Option<Pixels>, pipe: Pipeline)
    returns (reply: Reply, wire: seq<string>)
    ensures var r := Extracted(captured, pipe);
      && (r.Success? ==>
            && reply == Ok
            && wire == [InitialMessage(codec, Load(file)),
                        BroadcastMessage(codec, "quiz_update", r.value),
                        Sse.Keepalive])
      && (r.Failure? ==>
            reply == Error(r.error) && wire == [InitialMessage(codec, Load(file)), Sse.Keepalive, Sse.Keepalive])
  {
    var server := new Server(codec, file);
    var s := server.Connect();
    reply := server.Questionize(captured, pipe, true, {});
    s.Step();
    s.Step();
    wire := s.sent;
  }

  /** A client connecting after a reset was broadcast has nothing queued: its next frame is a
      keepalive. */
  method ResetThenConnectIdle(codec: Codec, file: FileState)
    returns (reply: Reply, wire: seq<string>)
    ensures reply == Ok
    ensures wire == [FrameOf(codec, ResetPayload), Sse.Keepalive]
  {
    var server := new Server(codec, file);
    var early := server.Connect();
    reply := server.Reset(true, {});
    var s := server.Connect();
    s.Step();
    wire := s.sent;
  }
}
