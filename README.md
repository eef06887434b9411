# Quiz questionizer: the server-sent events broadcast registry

The quiz questionizer photographs a quiz-book page, has a language model extract the question
as JSON, stores it in `quiz_data.json` and pushes it to every browser connected to `/events`.
This project models the push side of `app.py` in Dafny:

- the registry `sse_clients`, a set of per-client FIFO queues (`Registry.Hub`, `Registry.ClientQueue`);
- `broadcast_to_clients`: snapshot the set, `put` one frame into every queue, collect the queues
  whose `put` failed, prune them after the pass (`Registry.Hub.Broadcast`, `Registry.PutAll`);
- frame selection: the update, reset or generic dictionary chosen from the event type, and the
  initial or reset dictionary sent on connect (`Frames.BroadcastPayload`, `Frames.InitialPayload`);
- the text framing of events on the wire, `data: <json>` or the `: keepalive` comment followed by a
  blank line, with a reader that splits a stream back into events (`Sse`);
- the generator `event_stream` as a state machine: subscribe and send the first frame, then send
  either the oldest queued frame or a keepalive, and discard the queue when the client goes away
  (`Stream.EventStream`);
- the two publishing requests: `questionize` parses the model's answer before it saves the record,
  and saves it before it broadcasts; `reset` removes the file and then broadcasts (`App.Server`).

Everything outside the registry is a parameter. The camera's result is an `Option`. PNG encoding,
the language-model call and `json.loads` are the three partial functions of `App.Pipeline`.
`render_template` and `json.dumps` are the two total functions of `Frames.Codec`. The file is the
single slot `App.FileState`, which is absent, corrupt (valid UTF-8 that is not valid JSON) or holds
a value; `App.Load` reads absent and corrupt alike as `None`. Whether a `put` raises is the set `failing` given to each broadcast.
Whether writing or removing the file succeeds is a boolean parameter.

The JSON values themselves are `Json.Value`. `Json.Truthy` is Python truthiness, which decides
`if data` in a broadcast and `if current_quiz` on connect. A record such as `{}` counts as absent
there.

Three points about what the code does:
- The code takes no lock: `threading` is imported and never used. The registry is read sequentially,
  one operation at a time.
- On connect with no stored record the code sends the `reset` dictionary. It does not send an
  `initial` event carrying "none".
- With an empty registry the code returns before it formats a frame and reports no count
  (`Report.NoClients`). Otherwise it reports the registry size after pruning.

## Model

| member | source | states |
|---|---|---|
| Sse.KeepaliveIsComment | app.py:142 | the keepalive text is the encoding of the single-line SSE comment ` keepalive`, followed by a blank line |
| Sse.CommentDecodes | app.py:142 | a reader decodes a single-line comment, the keepalive among them, as exactly that comment and never as a data event |
| Sse.DataIsNotKeepalive | app.py:138-142 | a `data:` frame is never equal to the keepalive text, so a reader can tell them apart |
| Sse.DecodeEncodeAll | app.py:132-142 | a reader that splits the stream at blank lines gets back exactly the events written, in order, when each event fits on one line |
| Frames.FromJsonToJson | app.py:89-95 | the update, initial, reset and generic dictionaries never collide: each is read back as the payload it was built from |
| Frames.FrameDecodes | app.py:91 | every payload frame reads back as a single data event carrying `json.dumps` of the dictionary |
| Frames.FrameIsNotKeepalive | app.py:138-142 | no payload frame equals the keepalive comment |
| Frames.BroadcastSelection | app.py:88-95 | the broadcast frame is one `data:` event. It is an update exactly for `quiz_update`, carrying the data, with empty html when the data is falsy and rendered html otherwise. It is a reset exactly for `quiz_reset`. Any other type gives a generic frame carrying the type and the data |
| Frames.InitialSelection | app.py:126-132 | the first frame is one `data:` event. It is `initial` with the stored record and its html exactly when a truthy record is stored, and `reset` otherwise |
| Registry.ClientQueue.constructor | app.py:121 | a new queue is empty |
| Registry.ClientQueue.Put | app.py:101 | `put` appends the frame at the tail and leaves earlier entries unchanged |
| Registry.ClientQueue.Get | app.py:138-142 | `get` returns and removes the oldest frame; when the queue is empty the wait times out with nothing, so the queue stays FIFO and loses nothing |
| Registry.PrunedCount | app.py:106-107 | the count after pruning is the snapshot size minus the number of failed puts |
| Registry.PutAll | app.py:98-103 | over the snapshot, every queue whose put succeeds gets exactly one new frame at its tail; failed queues are untouched and are exactly the ones collected as dead |
| Registry.Hub.constructor | app.py:17 | the registry starts empty |
| Registry.Hub.Subscribe | app.py:121-122 | a fresh empty queue is added and the registry grows by one |
| Registry.Hub.Unsubscribe | app.py:147-148 | `discard` removes the queue; on a queue that is not registered it changes nothing |
| Registry.Hub.Broadcast | app.py:82-107 | with an empty registry nothing changes and `NoClients` is reported. Otherwise each snapshot queue whose put succeeds gets the selected frame once at its tail, and failed queues are unchanged. Exactly the failed queues leave the registry and none is added. The reported count is the size after pruning |
| Stream.MessagesAppend | app.py:135-142 | writing a frame adds it to the client's message sequence unless it is a keepalive |
| Stream.EventStream.Delivered | app.py:135-142 | what the client has received, apart from keepalives, followed by what is still queued, is the first frame followed by every frame ever put into its queue: each exactly once, in order |
| Stream.EventStream.constructor | app.py:120-132 | connecting registers a fresh empty queue and emits exactly the initial-or-reset frame for the record loaded at that instant |
| Stream.EventStream.Step | app.py:135-142 | each later frame is the oldest queued frame, which is dequeued, or exactly `: keepalive` when the queue is empty; the stream keeps its delivery invariant |
| Stream.EventStream.Disconnect | app.py:144-148 | on exit the queue is discarded from the registry, and closing twice is a no-op |
| Stream.UpdateBeforeKeepalive | app.py:99-142 | a client connected before an update receives the initial frame, then the update frame, then a keepalive |
| Stream.DeadClientIsPruned | app.py:98-106 | the client whose put fails is the one removed from the registry and gets nothing queued; the other client in the same pass stays registered and gets the frame |
| Stream.PrunedStreamCloses | app.py:135-148 | a pruned stream only sees keepalives, and its final discard leaves the registry empty |
| App.ExtractedMeans | app.py:162-171 | a record is produced exactly when capture, encoding, extraction and parsing all succeed, and it is the parser's output. The JSON error arises exactly when parsing was reached and failed |
| App.Server.constructor | app.py:14-17 | the application starts with an empty registry and the given file |
| App.Server.Questionize | app.py:157-190 | any failure up to parsing, or a failed save, returns that error and leaves the file, the registry and every queue unchanged. On success the record is stored, then the update frame goes once to the tail of every live queue (its delivery history grows by that frame, nothing is consumed), and the failed queues are pruned untouched |
| App.Server.Reset | app.py:193-206 | an existing file, corrupt or not, is removed, then the reset frame goes once to the tail of every live queue and the failed queues are pruned untouched. A failed removal returns an error and broadcasts nothing |
| App.Server.Connect | app.py:116-132 | a new stream has a fresh, empty queue with no history, so it receives nothing broadcast before it connected; its first frame reflects the record stored at the moment of connecting |
| App.ResetThenConnect | app.py:193-200 | after a successful reset, a new client's first frame is the reset frame |
| App.QuestionizeThenConnect | app.py:171-178 | after a successful capture, a new client's first frame is `initial` carrying the record just stored, or the reset frame if that record is falsy |
| App.ConnectThenQuestionize | app.py:171-178 | a client connected before a successful capture receives its first frame, then the update frame for the parsed record, then a keepalive; after a failed capture it receives only keepalives |
| App.ResetThenConnectIdle | app.py:196-200 | a client connecting after a reset was broadcast starts with the reset frame and has nothing queued, so its next frame is a keepalive |

## Left out

- camera.py: the webcam wrapper is a parameter. The camera either yields a frame or fails.
- Flask routing, response headers, `jsonify` bodies and HTTP status codes. Every `Reply.Error` stands for a 500 response.
- The `/` page handler (`index`): it only renders the stored record.
- The prompt text and the language-model call: the call is the partial function `Pipeline.extract`.
- `json.dumps`, `json.loads` and `render_template`: these are parameters. The framing lemmas assume that `json.dumps` writes no newline, which holds without `indent`.
- `render_template` and `json.dumps` are assumed never to raise. Two paths of the source are therefore not modelled: a render or dump error during the broadcast of `questionize` (app.py:175-178), which returns an error after the new record has been stored and before anything is broadcast; and a render error on connect (app.py:126-128), which ends the stream through the `finally` discard without a first frame.
- App.Load: a quiz_data.json that is not valid UTF-8 is not modelled. There `json.load` raises `UnicodeDecodeError`, which neither except clause of `load_quiz_data` catches (app.py:68); on connect it escapes after the subscribe, the `finally` discards the queue, and the client gets no first frame. `Corrupt` stands only for valid UTF-8 that is not valid JSON, or a file that cannot be opened.
- File I/O: the file is one slot. A failed save is modelled as a failed `open`, which leaves the file as it was. A write that fails half way and leaves a truncated file behind is not modelled.
- Registry.ClientQueue.Get: `queue.Queue` blocking and the 30-second timeout are not modelled. Read sequentially, nothing can arrive during the wait, so the wait times out exactly when the queue is empty. A broadcast that would arrive during the wait is modelled as coming before the step.
- Real concurrency (threads, interleaving inside one operation) and `GeneratorExit`: a disconnect is the call to `Disconnect`.
- Registry.Hub.Broadcast: the order in which the snapshot is visited is a free choice. This is unobservable, since each queue gets at most one frame.
- Why a `put` raises: an unbounded `queue.Queue` does not raise, so the failing queues are an outside choice (`failing`).
- `print` logging: only the reported count is kept, as `Report`.
- JSON numbers are reals, so the difference between Python's `int` and `float` is not modelled. It does not change truthiness.
