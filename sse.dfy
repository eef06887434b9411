/** The wire framing of the server-sent events stream: every message app.py writes is one
    line followed by a blank line, either a `data: ` field or a `:` comment (the keepalive). */
module Sse {
  import opened Wrappers

  datatype Event = Data(payload: string) | Comment(text: string)

  /** The single line that carries an event, without its terminating blank line. */
  function Line(e: Event): (line: string) {
    match e
    case Data(p) => "data: " + p
    case Comment(t) => ":" + t
  }

  /** The text written to the wire for one event: its line, then an empty line. */
  function Encode(e: Event): (text: string) {
    Line(e) + "\n\n"
  }

  /** The heartbeat written when the queue wait times out. */
  const Keepalive: string := ": keepalive\n\n"

  /** The keepalive is the encoding of the single-line comment ` keepalive`. */
  lemma KeepaliveIsComment()
    ensures Keepalive == Encode(Comment(" keepalive"))
    ensures SingleLine(Comment(" keepalive"))
  {
  }

  /** A reader decodes a single-line comment, such as the keepalive, as that comment alone,
      never as a data event. */
  lemma CommentDecodes(t: string)
    requires '\n' !in t
    ensures Decode(Encode(Comment(t))) == Some([Comment(t)])
  {
    var e := Comment(t);
    assert SingleLine(e);
    assert EncodeAll([e]) == Encode(e) + EncodeAll([]);
    DecodeEncodeAll([e]);
  }

  /** A data frame is never the keepalive text: they differ in their first character. */
  lemma DataIsNotKeepalive(p: string)
    ensures Encode(Data(p)) != Keepalive
  {
    assert Encode(Data(p))[0] == 'd';
  }

  /** An event whose text fits on one line, as json.dumps without indentation guarantees. */
  predicate SingleLine(e: Event) {
    match e
    case Data(p) => '\n' !in p
    case Comment(t) => '\n' !in t
  }

  /** The concatenation of the frames of a stream. */
  function EncodeAll(es: seq<Event>): (text: string) {
    if es == [] then "" else Encode(es[0]) + EncodeAll(es[1..])
  }

  /** Position of the first newline of `s`, or |s| when there is none. */
  function NewlineAt(s: string): (i: nat)
    ensures i <= |s|
    ensures i < |s| ==> s[i] == '\n'
    ensures forall k :: 0 <= k < i ==> s[k] != '\n'
  {
    if s == [] || s[0] == '\n' then 0 else 1 + NewlineAt(s[1..])
  }

  /** How a receiver reads one line: a `data: ` field or a comment. */
  function DecodeLine(line: string): (e: Option<Event>) {
    if |line| >= 6 && line[..6] == "data: " then Some(Data(line[6..]))
    else if |line| >= 1 && line[0] == ':' then Some(Comment(line[1..]))
    else None
  }

  /** How a receiver splits a stream into events: one line, then an empty line, repeated. */
  function Decode(s: string): (es: Option<seq<Event>>)
    decreases |s|
  {
    if s == [] then Some([])
    else
      var i := NewlineAt(s);
      if i + 1 < |s| && s[i + 1] == '\n' then
        match DecodeLine(s[..i])
        case None => None
        case Some(e) =>
          match Decode(s[i + 2..])
          case None => None
          case Some(rest) => Some([e] + rest)
      else None
  }

  lemma {:induction false} NewlineAfterLine(line: string, rest: string)
    requires '\n' !in line
    requires rest != [] && rest[0] == '\n'
    ensures NewlineAt(line + rest) == |line|
  {
    if line != [] {
      assert (line + rest)[1..] == line[1..] + rest;
      NewlineAfterLine(line[1..], rest);
    }
  }

  lemma DecodeLineOfLine(e: Event)
    ensures DecodeLine(Line(e)) == Some(e)
  {
    match e
    case Data(p) =>
      assert Line(e)[..6] == "data: ";
      assert Line(e)[6..] == p;
    case Comment(t) =>
      assert Line(e)[0] == ':';
      assert Line(e)[1..] == t;
  }

  /** A receiver recovers exactly the events that were written, in order. */
  lemma {:induction false} DecodeEncodeAll(es: seq<Event>)
    requires forall k :: 0 <= k < |es| ==> SingleLine(es[k])
    ensures Decode(EncodeAll(es)) == Some(es)
  {
    if es != [] {
      var line := Line(es[0]);
      var rest := EncodeAll(es[1..]);
      var s := EncodeAll(es);
      assert s == line + ("\n\n" + rest);
      assert SingleLine(es[0]);
      assert '\n' !in line by {
        match es[0]
        case Data(p) => assert line == "data: " + p;
        case Comment(t) => assert line == ":" + t;
      }
      NewlineAfterLine(line, "\n\n" + rest);
      var i := NewlineAt(s);
      assert s[..i] == line;
      assert s[i + 1] == '\n';
      assert s[i + 2..] == rest;
      DecodeLineOfLine(es[0]);
      DecodeEncodeAll(es[1..]);
      assert [es[0]] + es[1..] == es;
    }
  }
}
