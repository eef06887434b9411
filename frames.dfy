/** Frame selection: which dictionary app.py serialises for a broadcast or for a new connection,
    and the text of the resulting server-sent event. */
module Frames {
  import opened Wrappers
  import opened Json
  import Sse

  /** The two text-producing collaborators: the quiz template (render_template) and json.dumps. */
  datatype Codec = Codec(render: Value -> string, dumps: Value -> string)

  /** json.dumps writes no newline when called without indentation; html and data are escaped. */
  ghost predicate OneLine(codec: Codec) {
    forall v :: '\n' !in codec.dumps(v)
  }

  /** The dictionaries that app.py puts into frames, one constructor per literal. */
  datatype Payload =
    | Update(html: string, quizData: Value)
    | Initial(html: string, quizData: Value)
    | ResetPayload
    | Generic(eventType: string, data: Value)

  /** The dictionary as JSON, with the keys in the order app.py writes them. */
  function ToJson(p: Payload): (v: Value) {
    match p
    case Update(html, q) => Object([("type", Str("update")), ("html", Str(html)), ("quiz_data", q)])
    case Initial(html, q) => Object([("type", Str("initial")), ("html", Str(html)), ("quiz_data", q)])
    case ResetPayload => Object([("type", Str("reset"))])
    case Generic(t, d) => Object([("type", Str(t)), ("data", d)])
  }

  /** How a receiver tells the dictionaries apart: by their key sets and the `type` field. */
  function FromJson(v: Value): (p: Option<Payload>) {
    match v
    case Object(ms) =>
      if |ms| == 3 && ms[0].0 == "type" && ms[1].0 == "html" && ms[1].1.Str? && ms[2].0 == "quiz_data" then
        if ms[0].1 == Str("update") then Some(Update(ms[1].1.s, ms[2].1))
        else if ms[0].1 == Str("initial") then Some(Initial(ms[1].1.s, ms[2].1))
        else None
      else if |ms| == 1 && ms[0] == ("type", Str("reset")) then Some(ResetPayload)
      else if |ms| == 2 && ms[0].0 == "type" && ms[0].1.Str? && ms[1].0 == "data" then
        Some(Generic(ms[0].1.s, ms[1].1))
      else None
    case _ => None
  }

  /** No two payloads serialise to the same dictionary. */
  lemma FromJsonToJson(p: Payload)
    ensures FromJson(ToJson(p)) == Some(p)
  {
  }

  /** The if/elif on the event type in broadcast_to_clients. */
  function BroadcastPayload(eventType: string, data: Value, render: Value -> string): (p: Payload) {
    if eventType == "quiz_update" then Update(if Truthy(data) then render(data) else "", data)
    else if eventType == "quiz_reset" then ResetPayload
    else Generic(eventType, data)
  }

  /** The choice of the first frame of a stream from the stored record. */
  function InitialPayload(stored: Option<Value>, render: Value -> string): (p: Payload) {
    if stored.Some? && Truthy(stored.value) then Initial(render(stored.value), stored.value)
    else ResetPayload
  }

  /** The text of the event carrying a payload: `data: <json>` and a blank line. */
  function FrameOf(codec: Codec, p: Payload): (frame: string) {
    Sse.Encode(Sse.Data(codec.dumps(ToJson(p))))
  }

  function BroadcastMessage(codec: Codec, eventType: string, data: Value): (frame: string) {
    FrameOf(codec, BroadcastPayload(eventType, data, codec.render))
  }

  function InitialMessage(codec: Codec, stored: Option<Value>): (frame: string) {
    FrameOf(codec, InitialPayload(stored, codec.render))
  }

  /** What a receiver decodes from a broadcast frame, by event type: an update carrying the data
      (with empty html when the data is falsy, and the rendered template otherwise), a reset,
      or a generic frame carrying the type and the data. */
  lemma BroadcastSelection(codec: Codec, eventType: string, data: Value)
    requires OneLine(codec)
    ensures Sse.Decode(BroadcastMessage(codec, eventType, data))
            == Some([Sse.Data(codec.dumps(ToJson(BroadcastPayload(eventType, data, codec.render))))])
    ensures var p := FromJson(ToJson(BroadcastPayload(eventType, data, codec.render)));
      && p.Some?
      && (p.value.Update? <==> eventType == "quiz_update")
      && (p.value.ResetPayload? <==> eventType == "quiz_reset")
      && (p.value.Generic? <==> eventType != "quiz_update" && eventType != "quiz_reset")
      && !p.value.Initial?
      && (p.value.Update? ==> p.value.quizData == data)
      && (p.value.Update? && !Truthy(data) ==> p.value.html == "")
      && (p.value.Update? && Truthy(data) ==> p.value.html == codec.render(data))
      && (p.value.Generic? ==> p.value.eventType == eventType && p.value.data == data)
  {
    var p := BroadcastPayload(eventType, data, codec.render);
    FromJsonToJson(p);
    FrameDecodes(codec, p);
  }

  /** The first frame of a stream is `initial` with the stored record when that record is present
      and truthy, and `reset` otherwise; it is never an update or a generic frame. */
  lemma InitialSelection(codec: Codec, stored: Option<Value>)
    requires OneLine(codec)
    ensures Sse.Decode(InitialMessage(codec, stored))
            == Some([Sse.Data(codec.dumps(ToJson(InitialPayload(stored, codec.render))))])
    ensures var p := FromJson(ToJson(InitialPayload(stored, codec.render)));
      && p.Some?
      && (p.value.ResetPayload? <==> stored.None? || !Truthy(stored.value))
      && (p.value.Initial? <==> stored.Some? && Truthy(stored.value))
      && (p.value.Initial? ==> p.value.quizData == stored.value && p.value.html == codec.render(stored.value))
  {
    var p := InitialPayload(stored, codec.render);
    FromJsonToJson(p);
    FrameDecodes(codec, p);
  }

  /** A payload frame is read back as exactly one data event carrying the serialised payload. */
  lemma FrameDecodes(codec: Codec, p: Payload)
    requires OneLine(codec)
    ensures Sse.Decode(FrameOf(codec, p)) == Some([Sse.Data(codec.dumps(ToJson(p)))])
  {
    var e := Sse.Data(codec.dumps(ToJson(p)));
    assert Sse.SingleLine(e);
    Sse.DecodeEncodeAll([e]);
    assert Sse.EncodeAll([e]) == Sse.Encode(e) + Sse.EncodeAll([]);
    assert Sse.EncodeAll([e]) == FrameOf(codec, p);
  }

  /** No payload frame can be mistaken for the keepalive comment. */
  lemma FrameIsNotKeepalive(codec: Codec, p: Payload)
    ensures FrameOf(codec, p) != Sse.Keepalive
  {
    Sse.DataIsNotKeepalive(codec.dumps(ToJson(p)));
  }
}
