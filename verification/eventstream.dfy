/** Turning AWS event stream frames into server-sent events, chunk by chunk. */
module EventStream {
  import opened Options
  import opened Bytes

  datatype HeaderValue = Text(text: seq<Byte>) | Other

  datatype Header = Header(name: seq<Byte>, value: HeaderValue)

  /** A decoded frame; the payload is already text. */
  datatype Message = Message(headers: seq<Header>, payload: seq<Byte>)

  datatype Error = Malformed | Upstream(kind: seq<Byte>, message: seq<Byte>)

  /** Frame decoding behind the prelude (both checksums and the headers), and
      the message found in an error body. */
  datatype Codec = Codec(parse: seq<Byte> -> Option<Message>, messageIn: seq<Byte> -> Option<seq<Byte>>)

  /** Total length, header length and their checksum. */
  const PRELUDE := 12

  /** The total length a prelude announces: four bytes, big end first. */
  function Total(prelude: seq<Byte>): nat
    requires |prelude| >= 4
  {
    ((Value(prelude[0]) * 256 + Value(prelude[1])) * 256 + Value(prelude[2])) * 256 + Value(prelude[3])
  }

  /** What each of the four bytes is worth. */
  lemma TotalIsBigEnd(prelude: seq<Byte>)
    requires |prelude| >= 4
    ensures Total(prelude) == Value(prelude[0]) * 0x100_0000 + Value(prelude[1]) * 0x1_0000
                            + Value(prelude[2]) * 0x100 + Value(prelude[3])
  {
  }

  // ----------------------------------------------------------- one message

  /** The first header of that name, if it holds text. */
  function Find(headers: seq<Header>, name: seq<Byte>): Option<seq<Byte>> {
    if headers == [] then None
    else if headers[0].name == name then
      if headers[0].value.Text? then Some(headers[0].value.text) else None
    else Find(headers[1..], name)
  }

  function OrElse<T>(o: Option<T>, t: T): T {
    if o.Some? then o.value else t
  }

  datatype Event = Event(name: seq<Byte>, payload: seq<Byte>)

  datatype Outcome<T> = Ok(value: T) | Err(error: Error)

  function Meaning(c: Codec, m: Message): Outcome<Event> {
    match Find(m.headers, ":message-type")
    case None => Ok(Event(OrElse(Find(m.headers, ":event-type"), []), m.payload))
    case Some(kind) =>
      if kind == "event" then
        Ok(Event(OrElse(Find(m.headers, ":event-type"), []), m.payload))
      else if kind == "exception" then
        Err(Upstream(OrElse(Find(m.headers, ":exception-type"), []), OrElse(c.messageIn(m.payload), m.payload)))
      else
        Err(Upstream(OrElse(Find(m.headers, ":error-code"), kind), OrElse(Find(m.headers, ":error-message"), [])))
  }

  /** The first header of that name stands at `k`. */
  predicate FirstAt(headers: seq<Header>, name: seq<Byte>, k: int) {
    0 <= k < |headers| && headers[k].name == name && forall i :: 0 <= i < k ==> headers[i].name != name
  }

  /** ...and holds this text. */
  ghost predicate Reads(headers: seq<Header>, name: seq<Byte>, t: seq<Byte>) {
    exists k :: FirstAt(headers, name, k) && headers[k].value == Text(t)
  }

  /** It is missing, or holds no text. */
  ghost predicate Silent(headers: seq<Header>, name: seq<Byte>) {
    forall k :: FirstAt(headers, name, k) ==> headers[k].value.Other?
  }

  ghost predicate ReadsOr(headers: seq<Header>, name: seq<Byte>, otherwise: seq<Byte>, t: seq<Byte>) {
    if Silent(headers, name) then t == otherwise else Reads(headers, name, t)
  }

  lemma FirstIsLater(headers: seq<Header>, name: seq<Byte>, k: int)
    requires headers != [] && headers[0].name != name
    ensures FirstAt(headers, name, k) <==> FirstAt(headers[1..], name, k - 1)
  {
    if FirstAt(headers[1..], name, k - 1) {
      assert forall i :: 0 < i < k ==> headers[i] == headers[1..][i - 1];
    }
  }

  lemma {:induction false} FindReads(headers: seq<Header>, name: seq<Byte>)
    ensures var f := Find(headers, name);
      && (f.None? <==> Silent(headers, name))
      && (f.Some? ==> forall t :: Reads(headers, name, t) <==> t == f.value)
    decreases |headers|
  {
    if headers != [] {
      if headers[0].name == name {
        assert FirstAt(headers, name, 0);
        assert forall k :: FirstAt(headers, name, k) ==> k == 0;
      } else {
        var more := headers[1..];
        FindReads(more, name);
        forall k ensures FirstAt(headers, name, k) <==> FirstAt(more, name, k - 1) {
          FirstIsLater(headers, name, k);
        }
        forall k | FirstAt(more, name, k) ensures FirstAt(headers, name, k + 1) {
          FirstIsLater(headers, name, k + 1);
        }
        forall t ensures Reads(headers, name, t) <==> Reads(more, name, t) {
          if Reads(more, name, t) {
            var k :| FirstAt(more, name, k) && more[k].value == Text(t);
            assert FirstAt(headers, name, k + 1);
          }
        }
      }
    }
  }

  lemma FindReadsOr(headers: seq<Header>, name: seq<Byte>, otherwise: seq<Byte>)
    ensures ReadsOr(headers, name, otherwise, OrElse(Find(headers, name), otherwise))
  {
    FindReads(headers, name);
  }

  /** A frame is an event exactly when its type is missing, holds no text, or is
      `event`; it is named by its event type. */
  lemma EventExactlyWhen(c: Codec, m: Message)
    ensures Meaning(c, m).Ok? <==> Silent(m.headers, ":message-type") || Reads(m.headers, ":message-type", "event")
    ensures Meaning(c, m).Ok? ==>
      var e := Meaning(c, m).value;
      e.payload == m.payload && ReadsOr(m.headers, ":event-type", [], e.name)
  {
    FindReads(m.headers, ":message-type");
    FindReadsOr(m.headers, ":event-type", []);
  }

  /** An exception says its type and the message found in its body. */
  lemma ExceptionSays(c: Codec, m: Message) returns (kind: seq<Byte>)
    requires Reads(m.headers, ":message-type", "exception")
    ensures ReadsOr(m.headers, ":exception-type", [], kind)
    ensures Meaning(c, m) == Err(Upstream(kind, OrElse(c.messageIn(m.payload), m.payload)))
  {
    assert |"exception"| == 9 && |"event"| == 5;
    FindReads(m.headers, ":message-type");
    FindReadsOr(m.headers, ":exception-type", []);
    kind := OrElse(Find(m.headers, ":exception-type"), []);
  }

  /** Any other type says its code, or else itself, and its message. */
  lemma OtherTypeSays(c: Codec, m: Message, t: seq<Byte>) returns (kind: seq<Byte>, message: seq<Byte>)
    requires Reads(m.headers, ":message-type", t) && t != "event" && t != "exception"
    ensures ReadsOr(m.headers, ":error-code", t, kind) && ReadsOr(m.headers, ":error-message", [], message)
    ensures Meaning(c, m) == Err(Upstream(kind, message))
  {
    FindReads(m.headers, ":message-type");
    FindReadsOr(m.headers, ":error-code", t);
    FindReadsOr(m.headers, ":error-message", []);
    kind := OrElse(Find(m.headers, ":error-code"), t);
    message := OrElse(Find(m.headers, ":error-message"), []);
  }

  /** What a whole frame says. */
  function FrameMeaning(c: Codec, frame: seq<Byte>): Outcome<Event> {
    match c.parse(frame)
    case None => Err(Malformed)
    case Some(m) => Meaning(c, m)
  }

  // ------------------------------------------------------ writing one frame

  function DataLines(lines: seq<seq<Byte>>): seq<Byte> {
    if lines == [] then [] else "data: " + lines[0] + [LF] + DataLines(lines[1..])
  }

  function Written(e: Event): seq<Byte> {
    "event: " + e.name + [LF] + DataLines(Split(e.payload, LF)) + [LF]
  }

  function AllWritten(es: seq<Event>): seq<Byte> {
    if es == [] then [] else Written(es[0]) + AllWritten(es[1..])
  }

  lemma RowAppended(out: seq<Byte>, field: seq<Byte>, line: seq<Byte>, rest: seq<Byte>)
    ensures out + field + line + [LF] + rest == out + (field + line + [LF] + rest)
  {
  }

  lemma FrameAppended(out: seq<Byte>, field: seq<Byte>, name: seq<Byte>, data: seq<Byte>)
    ensures out + field + name + [LF] + data + [LF] == out + (field + name + [LF] + data + [LF])
  {
  }

  method WriteFrame(out: seq<Byte>, event: seq<Byte>, payload: seq<Byte>) returns (r: seq<Byte>)
    ensures r == out + Written(Event(event, payload))
  {
    r := out + "event: ";
    r := r + event;
    r := r + [LF];
    ghost var head := r;
    var lines := Split(payload, LF);
    for i := 0 to |lines|
      invariant r + DataLines(lines[i..]) == head + DataLines(lines)
    {
      ghost var before, rest := r, DataLines(lines[i + 1..]);
      assert lines[i..][1..] == lines[i + 1..];
      r := r + "data: ";
      r := r + lines[i];
      r := r + [LF];
      RowAppended(before, "data: ", lines[i], rest);
    }
    assert DataLines(lines[|lines|..]) == [];
    assert r == head + DataLines(lines);
    r := r + [LF];
    FrameAppended(out, "event: ", event, DataLines(lines));
  }

  // ------------------------------------------------------ the whole stream

  datatype End = Waiting(tail: seq<Byte>) | Failed(error: Error)

  /** What a stretch of the stream turns into, and where that leaves it. */
  datatype Reading = Reading(out: seq<Byte>, end: End)

  datatype Taken = Short | Bad(error: Error) | Took(event: Event, rest: seq<Byte>)

  /** The first frame of a stretch and what follows it. */
  function Take(c: Codec, s: seq<Byte>): (t: Taken)
    ensures t.Took? ==> |t.rest| < |s|
  {
    if |s| < PRELUDE then Short
    else
      var total := Total(s[..PRELUDE]);
      if total < PRELUDE then Bad(Malformed)
      else if |s| < total then Short
      else
        match FrameMeaning(c, s[..total])
        case Err(e) => Bad(e)
        case Ok(e) => Took(e, s[total..])
  }

  function Then(out: seq<Byte>, r: Reading): Reading {
    Reading(out + r.out, r.end)
  }

  lemma ThenThen(a: seq<Byte>, b: seq<Byte>, r: Reading)
    ensures Then(a, Then(b, r)) == Then(a + b, r)
  {
    assert a + (b + r.out) == a + b + r.out;
  }

  function Decode(c: Codec, s: seq<Byte>): Reading
    decreases |s|
  {
    match Take(c, s)
    case Short => Reading([], Waiting(s))
    case Bad(e) => Reading([], Failed(e))
    case Took(e, rest) => Then(Written(e), Decode(c, rest))
  }

  datatype Decoded = Complete(message: Message) | Incomplete | Broken

  class Transcoder {
    const codec: Codec
    var buf: seq<Byte>
    // The prelude of the frame being collected, once it has been read.
    var prelude: Option<seq<Byte>>

    ghost predicate Valid()
      reads this
    {
      prelude.Some? ==> |prelude.value| == PRELUDE && Total(prelude.value) >= PRELUDE
    }

    /** Every byte taken in and not yet part of a frame that was handed on. */
    ghost function Pending(): seq<Byte>
      reads this
    {
      (if prelude.Some? then prelude.value else []) + buf
    }

    constructor (codec: Codec)
      ensures Valid() && Pending() == [] && this.codec == codec
    {
      this.codec := codec;
      buf := [];
      prelude := None;
    }

    /** Reads the prelude once there are enough bytes for it, and the rest of
        the frame once there are enough bytes for that. */
    method DecodeFrame() returns (d: Decoded)
      requires Valid()
      modifies this
      ensures d.Broken? || Valid()
      ensures d.Incomplete? ==> (|buf| == |old(buf)| <==> prelude == old(prelude))
      ensures d.Incomplete? ==> prelude == old(prelude) || (old(prelude).None? && prelude.Some?)
      ensures var t := Take(codec, old(Pending()));
        match d
        case Incomplete => Pending() == old(Pending()) && t.Short?
        case Broken => t == Bad(Malformed)
        case Complete(m) =>
          match Meaning(codec, m)
          case Ok(e) => t == Took(e, Pending())
          case Err(e) => t == Bad(e)
    {
      ghost var s := Pending();
      if prelude.None? && |buf| >= PRELUDE {
        prelude := Some(buf[..PRELUDE]);
        buf := buf[PRELUDE..];
      }
      assert Pending() == s;
      if prelude.Some? {
        var total := Total(prelude.value);
        assert s[..PRELUDE] == prelude.value;
        if total < PRELUDE {
          return Broken;
        }
        if |buf| >= total - PRELUDE {
          var frame := prelude.value + buf[..total - PRELUDE];
          assert frame == s[..total];
          buf := buf[total - PRELUDE..];
          prelude := None;
          assert Pending() == s[total..];
          match codec.parse(frame) {
            case None => return Broken;
            case Some(m) => return Complete(m);
          }
        }
      }
      return Incomplete;
    }

    /** Takes one more chunk; answers with every frame it completed, written out.
        After an error the transcoder is of no further use. */
    method Feed(chunk: seq<Byte>) returns (r: Outcome<seq<Byte>>)
      requires Valid()
      modifies this
      ensures r.Ok? ==> Valid() && Decode(codec, old(Pending()) + chunk) == Reading(r.value, Waiting(Pending()))
      ensures r.Err? ==> Decode(codec, old(Pending()) + chunk).end == Failed(r.error)
    {
      ghost var s := Pending() + chunk;
      buf := buf + chunk;
      var out := [];
      assert Pending() == s;
      while true
        invariant Valid()
        invariant Decode(codec, s) == Then(out, Decode(codec, Pending()))
        decreases |Pending()|, prelude.None?
      {
        var before := |buf|;
        ghost var pending := Pending();
        var frame := DecodeFrame();
        match frame {
          case Broken =>
            return Err(Malformed);
          case Complete(m) =>
            match Meaning(codec, m) {
              case Ok(e) =>
                ThenThen(out, Written(e), Decode(codec, Pending()));
                out := WriteFrame(out, e.name, e.payload);
              case Err(error) =>
                return Err(error);
            }
          case Incomplete =>
            if |buf| == before {
              return Ok(out);
            }
        }
      }
    }
  }

  // ------------------------------------------------- any chunking will do

  /** What successive calls answer, up to the first error. */
  function Feeds(c: Codec, chunks: seq<seq<Byte>>): Reading {
    if chunks == [] then Reading([], Waiting([]))
    else
      var f := Feeds(c, chunks[..|chunks| - 1]);
      if f.end.Failed? then f
      else
        var d := Decode(c, f.end.tail + chunks[|chunks| - 1]);
        if d.end.Failed? then Reading(f.out, d.end) else Then(f.out, d)
  }

  lemma TakeMore(c: Codec, s: seq<Byte>, t: seq<Byte>)
    ensures match Take(c, s)
      case Short => true
      case Bad(e) => Take(c, s + t) == Bad(e)
      case Took(e, rest) => Take(c, s + t) == Took(e, rest + t)
  {
    if |s| >= PRELUDE {
      assert (s + t)[..PRELUDE] == s[..PRELUDE];
      var total := Total(s[..PRELUDE]);
      if PRELUDE <= total <= |s| {
        assert (s + t)[..total] == s[..total];
        assert (s + t)[total..] == s[total..] + t;
      }
    }
  }

  lemma {:induction false} DecodeMore(c: Codec, s: seq<Byte>, t: seq<Byte>)
    ensures var d := Decode(c, s);
      Decode(c, s + t) ==
      if d.end.Failed? then d else Then(d.out, Decode(c, d.end.tail + t))
    decreases |s|
  {
    TakeMore(c, s, t);
    match Take(c, s) {
      case Short =>
      case Bad(_) =>
      case Took(e, rest) =>
        DecodeMore(c, rest, t);
        var d := Decode(c, rest);
        if d.end.Waiting? {
          ThenThen(Written(e), d.out, Decode(c, d.end.tail + t));
        }
    }
  }

  /** The chunks before the first one that completes a bad frame. */
  function Good(c: Codec, chunks: seq<seq<Byte>>): seq<seq<Byte>> {
    if chunks == [] || Decode(c, Concat(chunks)).end.Waiting? then chunks
    else Good(c, chunks[..|chunks| - 1])
  }

  /** However the stream is cut up, the calls end the same way. They hand out
      all of it when every frame is good, and otherwise what came before the
      chunk with the bad frame: a prefix of what the good frames make. */
  lemma {:induction false} AnyChunking(c: Codec, chunks: seq<seq<Byte>>)
    ensures var f, whole := Feeds(c, chunks), Decode(c, Concat(chunks));
      && f.end == whole.end
      && f.out <= whole.out
      && (whole.end.Waiting? ==> f.out == whole.out)
      && f.out == Decode(c, Concat(Good(c, chunks))).out
    decreases |chunks|
  {
    if chunks != [] {
      var init, last := chunks[..|chunks| - 1], chunks[|chunks| - 1];
      AnyChunking(c, init);
      DecodeMore(c, Concat(init), last);
    }
  }

  // ------------------------------------------------ from frames to events

  /** A frame that says `e`. */
  ghost predicate Says(c: Codec, frame: seq<Byte>, e: Event) {
    && |frame| >= PRELUDE && Total(frame[..PRELUDE]) == |frame|
    && c.parse(frame).Some? && Meaning(c, c.parse(frame).value) == Ok(e)
  }

  ghost predicate AllSay(c: Codec, frames: seq<seq<Byte>>, es: seq<Event>) {
    |frames| == |es| && forall i :: 0 <= i < |es| ==> Says(c, frames[i], es[i])
  }

  lemma {:induction false} FramesComeThrough(c: Codec, frames: seq<seq<Byte>>, es: seq<Event>)
    requires AllSay(c, frames, es)
    ensures Decode(c, Concat(frames)) == Reading(AllWritten(es), Waiting([]))
    decreases |frames|
  {
    if frames != [] {
      var f, rest := frames[0], Concat(frames[1..]);
      ConcatHead(frames);
      FramesComeThrough(c, frames[1..], es[1..]);
      assert (f + rest)[..PRELUDE] == f[..PRELUDE];
      assert (f + rest)[..|f|] == f;
      assert (f + rest)[|f|..] == rest;
    }
  }

  /** A frame that is no event: too short for its own prelude, not readable, or an
      error. */
  ghost predicate Fails(c: Codec, frame: seq<Byte>, e: Error) {
    && |frame| >= PRELUDE
    && var total := Total(frame[..PRELUDE]);
       || (total < PRELUDE && e == Malformed)
       || (total == |frame| && c.parse(frame).None? && e == Malformed)
       || (total == |frame| && c.parse(frame).Some? && Meaning(c, c.parse(frame).value) == Err(e))
  }

  /** Good frames and then a bad one, in any chunks and whatever follows: the calls
      end in its error, and hand out no more than the good frames make. */
  lemma BadFrameEndsIt(
      c: Codec, frames: seq<seq<Byte>>, es: seq<Event>, bad: seq<Byte>, e: Error, rest: seq<Byte>,
      chunks: seq<seq<Byte>>)
    requires AllSay(c, frames, es) && Fails(c, bad, e) && Concat(chunks) == Concat(frames) + (bad + rest)
    ensures Feeds(c, chunks).end == Failed(e) && Feeds(c, chunks).out <= AllWritten(es)
  {
    FramesComeThrough(c, frames, es);
    DecodeMore(c, Concat(frames), bad + rest);
    assert [] + (bad + rest) == bad + rest;
    assert (bad + rest)[..PRELUDE] == bad[..PRELUDE];
    assert (bad + rest)[..|bad|] == bad;
    assert Decode(c, bad + rest) == Reading([], Failed(e));
    assert AllWritten(es) + [] == AllWritten(es);
    AnyChunking(c, chunks);
  }

  /** An exception is never handed out as an event: the calls end in it, with its
      own type and the message found in its body. */
  lemma ExceptionEndsIt(
      c: Codec, frames: seq<seq<Byte>>, es: seq<Event>, bad: seq<Byte>, rest: seq<Byte>,
      chunks: seq<seq<Byte>>, m: Message)
    returns (kind: seq<Byte>)
    requires AllSay(c, frames, es) && Concat(chunks) == Concat(frames) + (bad + rest)
    requires |bad| >= PRELUDE && Total(bad[..PRELUDE]) == |bad| && c.parse(bad) == Some(m)
    requires Reads(m.headers, ":message-type", "exception")
    ensures ReadsOr(m.headers, ":exception-type", [], kind)
    ensures Feeds(c, chunks).end == Failed(Upstream(kind, OrElse(c.messageIn(m.payload), m.payload)))
    ensures Feeds(c, chunks).out <= AllWritten(es)
  {
    kind := ExceptionSays(c, m);
    BadFrameEndsIt(c, frames, es, bad, Upstream(kind, OrElse(c.messageIn(m.payload), m.payload)), rest, chunks);
  }
}
