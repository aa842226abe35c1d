/** Reading server-sent events, by section 9.2.6 of the WHATWG HTML Living
    Standard, and what of the written frames survives it. */
module EventSource {
  import opened Bytes
  import opened Seqs
  import opened EventStream

  predicate OneLine(s: seq<Byte>) {
    CR !in s && LF !in s
  }

  /** The first CR or LF, or the length when there is none. */
  function Eol(s: seq<Byte>): (i: nat)
    ensures i <= |s| && forall j :: 0 <= j < i ==> s[j] != CR && s[j] != LF
    ensures i < |s| ==> s[i] == CR || s[i] == LF
  {
    if s == [] || s[0] == CR || s[0] == LF then 0
    else
      Eol(s[1..]) + 1
  }

  /** The lines of a stream, ended by CR LF, LF or CR; an unended one is not
      a line yet. */
  function Lines(s: seq<Byte>): seq<seq<Byte>>
    decreases |s|
  {
    var i := Eol(s);
    if i == |s| then []
    else
      var next := if s[i] == CR && i + 1 < |s| && s[i + 1] == LF then i + 2 else i + 1;
      [s[..i]] + Lines(s[next..])
  }

  /** What follows a field's colon, less one leading space. */
  function Trimmed(v: seq<Byte>): seq<Byte> {
    if v != [] && v[0] == ' ' then v[1..] else v
  }

  datatype Field = Field(name: seq<Byte>, value: seq<Byte>)

  function FieldOf(line: seq<Byte>): Field {
    var i := Index(line, ':');
    if i == |line| then Field(line, []) else Field(line[..i], Trimmed(line[i + 1..]))
  }

  /** The event handed out at an empty line, if there is any data. */
  function Dispatched(name: seq<Byte>, data: seq<Byte>): seq<Event> {
    if data == [] then []
    else
      var text := if data[|data| - 1] == LF then data[..|data| - 1] else data;
      [Event(if name == [] then "message" else name, text)]
  }

  /** Reads on with the given event type and data buffers. */
  function ReadFrom(lines: seq<seq<Byte>>, name: seq<Byte>, data: seq<Byte>): seq<Event> {
    if lines == [] then []
    else if lines[0] == [] then Dispatched(name, data) + ReadFrom(lines[1..], [], [])
    else
      var f := FieldOf(lines[0]);
      if f.name == "event" then ReadFrom(lines[1..], f.value, data)
      else if f.name == "data" then ReadFrom(lines[1..], name, data + f.value + [LF])
      else ReadFrom(lines[1..], name, data)
  }

  function Read(s: seq<Byte>): seq<Event> {
    ReadFrom(Lines(s), [], [])
  }

  // ---------------------------------------------------- lines of one frame

  lemma {:induction false} EolAt(l: seq<Byte>, t: seq<Byte>)
    requires OneLine(l)
    ensures Eol(l + [LF] + t) == |l|
    decreases |l|
  {
    if l != [] {
      assert (l + [LF] + t)[1..] == l[1..] + [LF] + t;
      EolAt(l[1..], t);
    }
  }

  lemma LineFirst(l: seq<Byte>, t: seq<Byte>)
    requires OneLine(l)
    ensures Lines(l + [LF] + t) == [l] + Lines(t)
  {
    var s := l + [LF] + t;
    EolAt(l, t);
    assert s[..|l|] == l;
    assert s[|l|] == LF;
    assert s[|l| + 1..] == t;
  }

  /** The data lines of a frame, without their ends. */
  function Rows(lines: seq<seq<Byte>>): seq<seq<Byte>> {
    if lines == [] then [] else ["data: " + lines[0]] + Rows(lines[1..])
  }

  lemma DataRowIsOneLine(l: seq<Byte>)
    requires OneLine(l)
    ensures OneLine("data: " + l)
  {
  }

  /** One data line in front of more of them. */
  lemma DataLineFirst(row: seq<Byte>, data: seq<Byte>, t: seq<Byte>, rows: seq<seq<Byte>>)
    requires OneLine(row) && Lines(data + t) == rows + Lines(t)
    ensures Lines(row + [LF] + data + t) == [row] + rows + Lines(t)
  {
    LineFirst(row, data + t);
    Regroup(row + [LF], data, t);
    Regroup([row], rows, Lines(t));
  }

  lemma {:induction false} LinesOfData(lines: seq<seq<Byte>>, t: seq<Byte>)
    requires forall l :: l in lines ==> OneLine(l)
    ensures Lines(DataLines(lines) + t) == Rows(lines) + Lines(t)
    decreases |lines|
  {
    if lines == [] {
      assert DataLines(lines) + t == t;
    } else {
      LinesOfData(lines[1..], t);
      DataRowIsOneLine(lines[0]);
      DataLineFirst("data: " + lines[0], DataLines(lines[1..]), t, Rows(lines[1..]));
    }
  }

  lemma {:induction false} SplitIsClean(p: seq<Byte>)
    requires CR !in p
    ensures forall l :: l in Split(p, LF) ==> OneLine(l)
    decreases |p|
  {
    var i := Index(p, LF);
    if i < |p| {
      SplitIsClean(p[i + 1..]);
    }
  }

  // ------------------------------------------------- reading one frame

  function Joined(lines: seq<seq<Byte>>): seq<Byte> {
    if lines == [] then [] else lines[0] + [LF] + Joined(lines[1..])
  }

  lemma JoinedHead(l: seq<Byte>, lines: seq<seq<Byte>>)
    ensures Joined([l] + lines) == l + [LF] + Joined(lines)
  {
    assert ([l] + lines)[1..] == lines;
  }

  lemma {:induction false} SplitJoins(p: seq<Byte>)
    ensures Joined(Split(p, LF)) == p + [LF]
    decreases |p|
  {
    var i := Index(p, LF);
    if i == |p| {
      JoinedHead(p, []);
    } else {
      var first, rest := p[..i], p[i + 1..];
      SplitJoins(rest);
      JoinedHead(first, Split(rest, LF));
      Regroup(first + [LF], rest, [LF]);
      assert p == first + [LF] + rest;
    }
  }

  lemma FieldFirst(field: seq<Byte>, value: seq<Byte>)
    requires ':' !in field
    ensures FieldOf(field + ": " + value) == Field(field, value)
  {
    var s := field + ": " + value;
    assert s == field + [':'] + ([' '] + value);
    IndexAt(field, ':', [' '] + value);
    assert s[|field| + 1..] == [' '] + value;
  }

  /** A data line adds its value and an LF. */
  lemma DataLineReads(l: seq<Byte>, rest: seq<seq<Byte>>, name: seq<Byte>, data: seq<Byte>)
    ensures ReadFrom(["data: " + l] + rest, name, data) == ReadFrom(rest, name, data + l + [LF])
  {
    var row := "data: " + l;
    FieldFirst("data", l);
    assert "data" + ": " + l == row;
    assert ([row] + rest)[1..] == rest;
  }

  lemma {:induction false} RowsGather(lines: seq<seq<Byte>>, rest: seq<seq<Byte>>, name: seq<Byte>, data: seq<Byte>)
    ensures ReadFrom(Rows(lines) + rest, name, data) == ReadFrom(rest, name, data + Joined(lines))
    decreases |lines|
  {
    if lines == [] {
      assert Rows(lines) + rest == rest;
      assert data + [] == data;
    } else {
      var l, more := lines[0], lines[1..];
      Regroup(["data: " + l], Rows(more), rest);
      DataLineReads(l, Rows(more) + rest, name, data);
      RowsGather(more, rest, name, data + l + [LF]);
      Regroup(data, l + [LF], Joined(more));
      Regroup(data, l, [LF]);
    }
  }

  /** As a reader sees it: an event without a name is a message. */
  function Named(e: Event): Event {
    if e.name == [] then e.(name := "message") else e
  }

  function AllNamed(es: seq<Event>): (r: seq<Event>)
    ensures |r| == |es| && forall i :: 0 <= i < |es| ==> r[i] == Named(es[i])
  {
    if es == [] then [] else [Named(es[0])] + AllNamed(es[1..])
  }

  predicate Clean(e: Event) {
    OneLine(e.name) && CR !in e.payload
  }

  predicate AllClean(es: seq<Event>) {
    forall i :: 0 <= i < |es| ==> Clean(es[i])
  }

  lemma LinesOfFrame(e: Event, t: seq<Byte>)
    requires Clean(e)
    ensures Lines(Written(e) + t) == ["event: " + e.name] + (Rows(Split(e.payload, LF)) + ([[]] + Lines(t)))
  {
    var first, data := "event: " + e.name, DataLines(Split(e.payload, LF));
    assert Written(e) + t == first + [LF] + (data + ([LF] + t));
    LineFirst(first, data + ([LF] + t));
    SplitIsClean(e.payload);
    LinesOfData(Split(e.payload, LF), [LF] + t);
    LineFirst([], t);
    assert [] + [LF] + t == [LF] + t;
  }

  /** A closing empty line hands out what was gathered. */
  lemma EmptyLineHandsOut(name: seq<Byte>, p: seq<Byte>, more: seq<seq<Byte>>)
    ensures ReadFrom([[]] + more, name, p + [LF]) == [Named(Event(name, p))] + ReadFrom(more, [], [])
  {
    assert ([[]] + more)[1..] == more;
    assert (p + [LF])[..|p|] == p;
  }

  /** The name line sets the type. */
  lemma NameLineReads(name: seq<Byte>, rest: seq<seq<Byte>>)
    ensures ReadFrom(["event: " + name] + rest, [], []) == ReadFrom(rest, name, [])
  {
    var row := "event: " + name;
    FieldFirst("event", name);
    assert "event" + ": " + name == row;
    assert ([row] + rest)[1..] == rest;
  }

  lemma FrameLinesRead(e: Event, more: seq<seq<Byte>>)
    ensures ReadFrom(["event: " + e.name] + (Rows(Split(e.payload, LF)) + ([[]] + more)), [], []) ==
      [Named(e)] + ReadFrom(more, [], [])
  {
    var lines := Split(e.payload, LF);
    NameLineReads(e.name, Rows(lines) + ([[]] + more));
    RowsGather(lines, [[]] + more, e.name, []);
    SplitJoins(e.payload);
    assert [] + Joined(lines) == Joined(lines);
    EmptyLineHandsOut(e.name, e.payload, more);
  }

  lemma FrameReads(e: Event, t: seq<Byte>)
    requires Clean(e)
    ensures Read(Written(e) + t) == [Named(e)] + Read(t)
  {
    LinesOfFrame(e, t);
    FrameLinesRead(e, Lines(t));
  }

  lemma {:induction false} WrittenReads(es: seq<Event>)
    requires AllClean(es)
    ensures Read(AllWritten(es)) == AllNamed(es)
    decreases |es|
  {
    if es == [] {
      assert Lines([]) == [];
    } else {
      WrittenReads(es[1..]);
      FrameReads(es[0], AllWritten(es[1..]));
    }
  }

  // ----------------------------------------------- what can be read at all

  lemma {:induction false} LinesAreLines(s: seq<Byte>)
    ensures forall i :: 0 <= i < |Lines(s)| ==> OneLine(Lines(s)[i])
    decreases |s|
  {
    var i := Eol(s);
    if i < |s| {
      LinesAreLines(s[if s[i] == CR && i + 1 < |s| && s[i + 1] == LF then i + 2 else i + 1..]);
    }
  }

  lemma {:induction false} OnlyCleanIsRead(lines: seq<seq<Byte>>, name: seq<Byte>, data: seq<Byte>)
    requires forall i :: 0 <= i < |lines| ==> OneLine(lines[i])
    requires OneLine(name) && CR !in data
    ensures forall e :: e in ReadFrom(lines, name, data) ==> Clean(e) && e.name != []
    decreases |lines|
  {
    if lines == [] {
    } else if lines[0] == [] {
      OnlyCleanIsRead(lines[1..], [], []);
    } else {
      var f := FieldOf(lines[0]);
      assert OneLine(f.value);
      if f.name == "event" {
        OnlyCleanIsRead(lines[1..], f.value, data);
      } else if f.name == "data" {
        OnlyCleanIsRead(lines[1..], name, data + f.value + [LF]);
      } else {
        OnlyCleanIsRead(lines[1..], name, data);
      }
    }
  }

  /** Written frames read back as the same list of events exactly when every
      event has a name, no name has a CR or LF, and no payload has a CR. */
  lemma {:induction false} RoundTripsExactlyWhen(es: seq<Event>)
    ensures Read(AllWritten(es)) == es <==> forall i :: 0 <= i < |es| ==> Clean(es[i]) && es[i].name != []
  {
    if forall i :: 0 <= i < |es| ==> Clean(es[i]) && es[i].name != [] {
      WrittenReads(es);
      assert AllNamed(es) == es;
    }
    if Read(AllWritten(es)) == es {
      LinesAreLines(AllWritten(es));
      OnlyCleanIsRead(Lines(AllWritten(es)), [], []);
      assert forall i :: 0 <= i < |es| ==> es[i] in es;
    }
  }

  /** From frames to events: however the frames are cut into chunks, what the
      transcoder hands out reads back as the events the frames said. */
  lemma FramesReadAsEvents(c: Codec, frames: seq<seq<Byte>>, es: seq<Event>, chunks: seq<seq<Byte>>)
    requires AllSay(c, frames, es) && AllClean(es)
    requires Concat(chunks) == Concat(frames)
    ensures Feeds(c, chunks).end == Waiting([])
    ensures Read(Feeds(c, chunks).out) == AllNamed(es)
  {
    FramesComeThrough(c, frames, es);
    AnyChunking(c, chunks);
    WrittenReads(es);
  }
}
