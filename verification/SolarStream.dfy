/** From response bytes to events: frame payloads, chunk parsing and the event pump. */
module SolarStream {
  import opened Prelude
  import opened Framing
  import opened ChatStream
  import opened StreamRefinement

  // ----- the data payload of one frame

  function TrimStart(s: string): string {
    if s != "" && IsSpace(s[0]) then TrimStart(s[1..]) else s
  }

  function TrimEnd(s: string): string {
    if s != "" && IsSpace(s[|s| - 1]) then TrimEnd(s[..|s| - 1]) else s
  }

  function FirstLf(s: string): (p: nat)
    ensures p <= |s| && (forall k :: 0 <= k < p ==> s[k] != '\n') && (p < |s| ==> s[p] == '\n')
  {
    if s == "" || s[0] == '\n' then 0 else 1 + FirstLf(s[1..])
  }

  function StripCr(line: string): string {
    if line != "" && line[|line| - 1] == '\r' then line[..|line| - 1] else line
  }

  /** `str::lines`: split after each LF, dropping it and a CR before it. */
  function Lines(s: string): seq<string>
    decreases |s|
  {
    if s == "" then []
    else
      var p := FirstLf(s);
      if p == |s| then [s] else [StripCr(s[..p])] + Lines(s[p + 1..])
  }

  /** The value of each `data:` line; comments and other fields are skipped. */
  function DataLines(lines: seq<string>): seq<string> {
    if lines == [] then []
    else
      var line := lines[|lines| - 1];
      DataLines(lines[..|lines| - 1])
      + (if StartsWith(line, ":") || !StartsWith(line, "data:") then [] else [TrimStart(line[5..])])
  }

  function Payload(frame: string): Option<string> {
    var data := DataLines(Lines(TrimStart(TrimEnd(frame))));
    if data == [] || Join(data, "\n") == "[DONE]" then None else Some(Join(data, "\n"))
  }

  method ExtractDataPayload(frame: string) returns (payload: Option<string>)
    ensures payload == Payload(frame)
  {
    var trimmed := TrimStart(TrimEnd(frame));
    if trimmed == "" {
      return None;
    }
    var lines, dataLines := Lines(trimmed), [];
    var i := 0;
    while i < |lines|
      invariant 0 <= i <= |lines|
      invariant dataLines == DataLines(lines[..i])
    {
      var line := lines[i];
      assert lines[..i + 1][..i] == lines[..i];
      if !StartsWith(line, ":") && StartsWith(line, "data:") {
        dataLines := dataLines + [TrimStart(line[5..])];
      }
      i := i + 1;
    }
    assert lines[..i] == lines;
    if dataLines == [] {
      return None;
    }
    var joined := Join(dataLines, "\n");
    if joined == "[DONE]" {
      return None;
    }
    return Some(joined);
  }

  /** The frame an event source writes for a payload of these lines (section 9.2.6 of the HTML Standard). */
  function Written(lines: seq<string>): string
    requires lines != []
  {
    if |lines| == 1 then "data: " + lines[0] else "data: " + lines[0] + "\n" + Written(lines[1..])
  }

  /** A line the reader gives back unchanged: one line, no blank at its start, no CR at its end. */
  predicate Plain(line: string) {
    '\n' !in line && (line != "" ==> !IsSpace(line[0]) && line[|line| - 1] != '\r')
  }

  function Fields(lines: seq<string>): seq<string> {
    if lines == [] then [] else ["data: " + lines[0]] + Fields(lines[1..])
  }

  lemma FirstLfAt(head: string, rest: string)
    requires '\n' !in head
    ensures FirstLf(head) == |head| && FirstLf(head + "\n" + rest) == |head|
  {
    var s := head + "\n" + rest;
    assert s[|head|] == '\n';
    assert forall k :: 0 <= k < |head| ==> s[k] == head[k];
  }

  lemma LinesCons(head: string, rest: string)
    requires '\n' !in head && head != "" && head[|head| - 1] != '\r'
    ensures Lines(head) == [head]
    ensures Lines(head + "\n" + rest) == [head] + Lines(rest)
  {
    var s := head + "\n" + rest;
    FirstLfAt(head, rest);
    assert s[..|head|] == head && s[|head| + 1..] == rest;
  }

  lemma {:induction false} WrittenLines(lines: seq<string>)
    requires lines != [] && forall k :: 0 <= k < |lines| ==> Plain(lines[k])
    ensures Lines(Written(lines)) == Fields(lines)
    decreases |lines|
  {
    hide Lines, IsSpace;
    var head := "data: " + lines[0];
    assert head[|head| - 1] == if lines[0] == "" then ' ' else lines[0][|lines[0]| - 1];
    if |lines| == 1 {
      LinesCons(head, "");
      assert Fields(lines[1..]) == [];
    } else {
      LinesCons(head, Written(lines[1..]));
      WrittenLines(lines[1..]);
    }
  }

  lemma DataOfField(line: string)
    requires Plain(line)
    ensures !StartsWith("data: " + line, ":") && StartsWith("data: " + line, "data:")
    ensures TrimStart(("data: " + line)[5..]) == line
  {
    var field := "data: " + line;
    assert field[..5] == "data:" && field[5..] == " " + line && (" " + line)[1..] == line;
    assert field[0] == 'd';
  }

  lemma {:induction false} FieldsSnoc(lines: seq<string>)
    requires lines != []
    ensures Fields(lines) == Fields(lines[..|lines| - 1]) + ["data: " + lines[|lines| - 1]]
    decreases |lines|
  {
    if |lines| > 1 {
      FieldsSnoc(lines[1..]);
      assert lines[1..][..|lines| - 2] == lines[..|lines| - 1][1..];
    } else {
      assert lines[1..] == [] && lines[..0] == [];
    }
  }

  lemma {:induction false} DataOfWritten(lines: seq<string>)
    requires forall k :: 0 <= k < |lines| ==> Plain(lines[k])
    ensures DataLines(Fields(lines)) == lines
    decreases |lines|
  {
    hide Fields, TrimStart;
    if lines == [] {
      assert Fields(lines) == [] by {
        NoFields();
      }
    } else {
      var front, last := lines[..|lines| - 1], lines[|lines| - 1];
      DataOfWritten(front);
      DataOfField(last);
      FieldsSnoc(lines);
      assert Fields(lines)[..|Fields(lines)| - 1] == Fields(front);
    }
  }

  lemma NoFields()
    ensures Fields([]) == []
  {
  }

  lemma {:induction false} WrittenEnds(lines: seq<string>)
    requires lines != [] && lines[|lines| - 1] != ""
    ensures var w := Written(lines);
            |w| >= 6 && w[0] == 'd' && w[|w| - 1] == lines[|lines| - 1][|lines[|lines| - 1]| - 1]
    decreases |lines|
  {
    if |lines| > 1 {
      WrittenEnds(lines[1..]);
    }
  }

  /** Payload lines survive being written as `data:` lines and read back; only the end marker is swallowed. */
  lemma PayloadRoundTrip(lines: seq<string>)
    requires lines != [] && forall k :: 0 <= k < |lines| ==> Plain(lines[k])
    requires var last := lines[|lines| - 1]; last != "" && !IsSpace(last[|last| - 1])
    ensures Payload(Written(lines)) == if Join(lines, "\n") == "[DONE]" then None else Some(Join(lines, "\n"))
  {
    WrittenLines(lines);
    DataOfWritten(lines);
    WrittenEnds(lines);
  }

  // ----- chunks

  /** Decoding bytes to text and reading a chunk from a payload are given. */
  datatype Reader = Reader(decode: seq<byte> -> string, read: string -> Result<Chunk, string>)
  {
    function FrameChunk(frame: seq<byte>): Result<Option<Chunk>, string> {
      var payload := Payload(decode(frame));
      if payload.None? then Ok(None)
      else
        match read(payload.value)
        case Ok(chunk) => Ok(Some(chunk))
        case Err(e) => Err(e)
    }
  }

  /** The chunks of some frames; the first frame that does not read decides the error. */
  function ReadFrames(reader: Reader, frames: seq<seq<byte>>): Result<seq<Chunk>, string> {
    if frames == [] then Ok([])
    else
      match reader.FrameChunk(frames[0])
      case Err(e) => Err(e)
      case Ok(c) =>
        match ReadFrames(reader, frames[1..])
        case Err(e) => Err(e)
        case Ok(more) => Ok((if c.Some? then [c.value] else []) + more)
  }

  /** What a push leaves in the buffer: the rest behind its last frame, or behind the first frame that does not read. */
  function LeftBy(reader: Reader, b: seq<byte>): seq<byte>
    decreases |b|
  {
    var next := NextFrame(b);
    if next.None? then b
    else if reader.FrameChunk(next.value.bytes).Err? then next.value.rest
    else LeftBy(reader, next.value.rest)
  }

  lemma LeftStep(reader: Reader, b: seq<byte>)
    ensures NextFrame(b).None? ==> LeftBy(reader, b) == b
    ensures NextFrame(b).Some? ==>
              var next := NextFrame(b).value;
              LeftBy(reader, b) == if reader.FrameChunk(next.bytes).Err? then next.rest else LeftBy(reader, next.rest)
  {
  }

  class OpenAiSseParser {
    const reader: Reader
    const frames: FrameBuffer

    constructor (reader: Reader)
      ensures this.reader == reader && fresh(frames) && frames.buffer == []
    {
      this.reader := reader;
      frames := new FrameBuffer();
    }

    method Push(piece: seq<byte>) returns (chunks: Result<seq<Chunk>, string>)
      modifies frames
      ensures chunks == ReadFrames(reader, Drain(old(frames.buffer) + piece).0)
      ensures frames.buffer == LeftBy(reader, old(frames.buffer) + piece)
      ensures chunks.Ok? ==> frames.buffer == Drain(old(frames.buffer) + piece).1
    {
      hide Drain, NextFrame, Prepend, LeftBy;
      frames.buffer := frames.buffer + piece;
      ghost var whole := frames.buffer;
      var events: seq<Chunk> := [];
      PrependNone(ReadFrames(reader, Drain(whole).0));
      while true
        invariant Drain(whole).1 == Drain(frames.buffer).1
        invariant LeftBy(reader, whole) == LeftBy(reader, frames.buffer)
        invariant ReadFrames(reader, Drain(whole).0) == Prepend(events, ReadFrames(reader, Drain(frames.buffer).0))
        decreases |frames.buffer|
      {
        ghost var before := frames.buffer;
        var frame := frames.TakeFrame();
        LeftStep(reader, before);
        if frame.None? {
          DrainedBuffer(before);
          PrependOk(events, []);
          return Ok(events);
        }
        FirstDrain(before);
        ReadFirst(reader, frame.value, Drain(frames.buffer).0);
        match reader.FrameChunk(frame.value) {
          case Err(e) =>
            PrependErr(events, e);
            return Err(e);
          case Ok(None) =>
            assert events + [] == events;
            PrependTwice(events, [], ReadFrames(reader, Drain(frames.buffer).0));
          case Ok(Some(chunk)) =>
            PrependTwice(events, [chunk], ReadFrames(reader, Drain(frames.buffer).0));
            events := events + [chunk];
        }
      }
    }
  }

  ghost function Prepend(done: seq<Chunk>, rest: Result<seq<Chunk>, string>): Result<seq<Chunk>, string> {
    match rest
    case Err(e) => Err(e)
    case Ok(more) => Ok(done + more)
  }

  lemma PrependNone(rest: Result<seq<Chunk>, string>)
    ensures Prepend([], rest) == rest
  {
    if rest.Ok? {
      assert [] + rest.value == rest.value;
    }
  }

  lemma PrependOk(a: seq<Chunk>, b: seq<Chunk>)
    ensures Prepend(a, Ok(b)) == Ok(a + b) && a + [] == a
  {
  }

  lemma PrependErr(a: seq<Chunk>, e: string)
    ensures Prepend(a, Err(e)) == Err(e)
  {
  }

  lemma ReadFirst(reader: Reader, frame: seq<byte>, rest: seq<seq<byte>>)
    ensures ReadFrames(reader, []) == Ok([])
    ensures ReadFrames(reader, [frame] + rest)
            == match reader.FrameChunk(frame)
               case Err(e) => Err(e)
               case Ok(c) => Prepend(if c.Some? then [c.value] else [], ReadFrames(reader, rest))
  {
    assert ([frame] + rest)[1..] == rest;
  }

  lemma DrainedBuffer(b: seq<byte>)
    requires NextFrame(b).None?
    ensures Drain(b) == ([], b)
  {
  }

  lemma PrependTwice(a: seq<Chunk>, b: seq<Chunk>, rest: Result<seq<Chunk>, string>)
    ensures Prepend(a, Prepend(b, rest)) == Prepend(a + b, rest)
  {
    if rest.Ok? {
      assert a + (b + rest.value) == (a + b) + rest.value;
    }
  }

  // ----- the event pump

  /** The events still to come from `pieces`, and the error that cuts them off, if any. */
  ghost function Deliver(reader: Reader, b: seq<byte>, pieces: seq<seq<byte>>, st: State): (seq<Event>, Option<string>)
    decreases |pieces|
  {
    if pieces == [] then (Finish(st).1, None)
    else
      match ReadFrames(reader, Drain(b + pieces[0]).0)
      case Err(e) => ([], Some(e))
      case Ok(chunks) =>
        var (mid, events) := Perform(st, Actions(chunks));
        var (more, error) := Deliver(reader, Drain(b + pieces[0]).1, pieces[1..], mid);
        (events + more, error)
  }

  class EventPump {
    var pieces: seq<seq<byte>>  // what the response body still has to give
    const parser: OpenAiSseParser
    const state: StreamState
    var pending: seq<Event>
    var done: bool

    /** What the caller will still see. */
    ghost function Left(): (seq<Event>, Option<string>)
      reads this, parser.frames, state
    {
      var (events, error) := if done then (Finish(state.Value()).1, None)
                             else Deliver(parser.reader, parser.frames.buffer, pieces, state.Value());
      (pending + events, error)
    }

    constructor (model: string, reader: Reader, pieces: seq<seq<byte>>)
      ensures fresh(parser.frames) && fresh(state) && parser.reader == reader
      ensures Left().0 == Deliver(reader, [], pieces, Fresh(model)).0
      ensures Left().1 == Deliver(reader, [], pieces, Fresh(model)).1
    {
      hide Deliver, Drain, Finish;
      this.pieces := pieces;
      parser := new OpenAiSseParser(reader);
      state := new StreamState(model);
      pending := [];
      done := false;
    }

    /** One event, the end of the stream, or an error, with exactly the rest left to come. */
    method NextEvent() returns (r: Result<Option<Event>, string>)
      modifies this, parser.frames, state
      ensures match r
              case Ok(Some(e)) => old(Left()).0 == [e] + Left().0 && old(Left()).1 == Left().1
              case Ok(None) => old(Left()).0 == Left().0 == [] && old(Left()).1 == Left().1 == None
              case Err(e) => old(Left()) == ([], Some(e))
    {
      hide Drain, ReadFrames, Actions, Perform, Finish;
      while true
        invariant Left().0 == old(Left()).0 && Left().1 == old(Left()).1
        decreases |pieces|, !done
      {
        if pending != [] {
          r := Ok(Some(pending[0]));
          pending := pending[1..];
          return;
        }
        if done {
          ghost var before := state.Value();
          var last := state.FinishStream();
          FinishedStaysFinished(before);
          pending := last;
          if pending != [] {
            r := Ok(Some(pending[0]));
            pending := pending[1..];
            return;
          }
          return Ok(None);
        }
        if pieces == [] {
          done := true;
        } else {
          var piece := pieces[0];
          pieces := pieces[1..];
          var chunks := parser.Push(piece);
          if chunks.Err? {
            return Err(chunks.error);
          }
          pending := IngestAll(chunks.value);
        }
      }
    }

    method IngestAll(chunks: seq<Chunk>) returns (events: seq<Event>)
      modifies state
      ensures state.Value() == Perform(old(state.Value()), Actions(chunks)).0
      ensures events == Perform(old(state.Value()), Actions(chunks)).1
    {
      hide ChunkActions, Act;
      events := [];
      var i := 0;
      while i < |chunks|
        invariant 0 <= i <= |chunks|
        invariant state.Value() == Perform(old(state.Value()), Actions(chunks[..i])).0
        invariant events == Perform(old(state.Value()), Actions(chunks[..i])).1
      {
        var more := state.IngestChunk(chunks[i]);
        events := events + more;
        assert chunks[..i + 1][..i] == chunks[..i];
        PerformAppend(old(state.Value()), Actions(chunks[..i]), ChunkActions(chunks[i]));
        i := i + 1;
      }
      assert chunks[..i] == chunks;
    }
  }

  lemma FinishedStaysFinished(st: State)
    ensures Finish(Finish(st).0) == (Finish(st).0, [])
  {
    hide SweepAll;
  }

  // ----- bytes to reply

  lemma {:induction false} ReadAppend(reader: Reader, a: seq<seq<byte>>, b: seq<seq<byte>>)
    ensures ReadFrames(reader, a + b)
            == match ReadFrames(reader, a)
               case Err(e) => Err(e)
               case Ok(chunks) => Prepend(chunks, ReadFrames(reader, b))
  {
    hide ReadFrames, Prepend;
    if a == [] {
      assert a + b == b;
      ReadFirst(reader, [], []);
      PrependNone(ReadFrames(reader, b));
    } else {
      ReadAppend(reader, a[1..], b);
      assert a + b == [a[0]] + (a[1..] + b) && a == [a[0]] + a[1..];
      ReadFirst(reader, a[0], a[1..] + b);
      ReadFirst(reader, a[0], a[1..]);
      if reader.FrameChunk(a[0]).Ok? {
        var c := reader.FrameChunk(a[0]).value;
        var head := if c.Some? then [c.value] else [];
        match ReadFrames(reader, a[1..]) {
          case Err(e) =>
            PrependErr(head, e);
          case Ok(chunks) =>
            PrependOk(head, chunks);
            PrependTwice(head, chunks, ReadFrames(reader, b));
        }
      }
    }
  }

  /**
   * When all frames read, the pump's events are the state machine's events for all their chunks; otherwise the first
   * frame that does not read decides the error.
   */
  lemma {:induction false} DeliverIsRun(reader: Reader, b: seq<byte>, pieces: seq<seq<byte>>, st: State)
    ensures match ReadFrames(reader, PushAll(b, pieces).0)
            case Err(e) => Deliver(reader, b, pieces, st).1 == Some(e)
            case Ok(chunks) =>
              var (end, events) := Perform(st, Actions(chunks));
              Deliver(reader, b, pieces, st).0 == events + Finish(end).1 && Deliver(reader, b, pieces, st).1 == None
    decreases |pieces|
  {
    hide Drain, Finish, Perform, ReadFrames, Actions;
    if pieces == [] {
      ReadFirst(reader, [], []);
      NoChunks(st);
      assert [] + Finish(st).1 == Finish(st).1;
    } else {
      var (frames, rest) := Drain(b + pieces[0]);
      var later := PushAll(rest, pieces[1..]).0;
      ReadAppend(reader, frames, later);
      if ReadFrames(reader, frames).Ok? {
        var first := ReadFrames(reader, frames).value;
        DeliverIsRun(reader, rest, pieces[1..], Perform(st, Actions(first)).0);
        if ReadFrames(reader, later).Ok? {
          var second := ReadFrames(reader, later).value;
          ActionsAppend(first, second);
          PerformAppend(st, Actions(first), Actions(second));
        }
      }
    }
  }

  lemma PushFirst(b: seq<byte>, pieces: seq<seq<byte>>, k: nat)
    requires k < |pieces|
    ensures var (frames, rest) := Drain(b + pieces[0]);
            PushAll(b, pieces[..k + 1]).0 == frames + PushAll(rest, pieces[1..][..k]).0
  {
    hide Drain;
    assert pieces[..k + 1][1..] == pieces[1..][..k];
  }

  /**
   * When some frame does not read, the pump stops at one piece `k`: the frames the pieces before it complete all read,
   * and exactly the events of their chunks are delivered before the error.
   */
  lemma {:induction false} DeliverStops(reader: Reader, b: seq<byte>, pieces: seq<seq<byte>>, st: State)
    returns (k: nat)
    requires ReadFrames(reader, PushAll(b, pieces).0).Err?
    ensures k < |pieces| && ReadFrames(reader, PushAll(b, pieces[..k + 1]).0).Err?
    ensures var read := ReadFrames(reader, PushAll(b, pieces[..k]).0);
            read.Ok? && Deliver(reader, b, pieces, st).0 == Perform(st, Actions(read.value)).1
    decreases |pieces|
  {
    hide Drain, Perform, ReadFrames, Actions;
    ReadFirst(reader, [], []);
    var (frames, rest) := Drain(b + pieces[0]);
    PushFirst(b, pieces, 0);
    assert pieces[1..][..0] == [] && frames + [] == frames;
    if ReadFrames(reader, frames).Err? {
      k := 0;
      assert pieces[..0] == [];
      NoChunks(st);
    } else {
      var first := ReadFrames(reader, frames).value;
      var mid := Perform(st, Actions(first)).0;
      ReadAppend(reader, frames, PushAll(rest, pieces[1..]).0);
      var j := DeliverStops(reader, rest, pieces[1..], mid);
      k := j + 1;
      PushFirst(b, pieces, j);
      PushFirst(b, pieces, k);
      ReadAppend(reader, frames, PushAll(rest, pieces[1..][..j]).0);
      ReadAppend(reader, frames, PushAll(rest, pieces[1..][..k]).0);
      var second := ReadFrames(reader, PushAll(rest, pieces[1..][..j]).0).value;
      ActionsAppend(first, second);
      PerformAppend(st, Actions(first), Actions(second));
    }
  }

  /**
   * What is delivered before an error depends on the cut: of bytes whose frames read followed by bytes whose frames do
   * not, two pieces deliver the first one's events and a single piece delivers none.
   */
  lemma CutDecidesEvents(reader: Reader, a: seq<byte>, c: seq<byte>, st: State)
    requires NoLfAfterCrlf(a + c)
    requires ReadFrames(reader, Drain(a).0).Ok? && ReadFrames(reader, Drain(a + c).0).Err?
    ensures Deliver(reader, [], [a, c], st).0 == Perform(st, Actions(ReadFrames(reader, Drain(a).0).value)).1
    ensures Deliver(reader, [], [a + c], st).0 == []
    ensures Deliver(reader, [], [a, c], st).1 == Deliver(reader, [], [a + c], st).1
  {
    hide Drain, Perform, ReadFrames, Actions, PushAll, Deliver;
    CutsAgreeExactlyWithoutLateLf(a + c);
    var pieces := [a, c];
    assert pieces[1..] == [c] && [c][1..] == [];
    assert Flatten([c]) == c + [] == c;
    assert Flatten(pieces) == a + c;
    assert PushAll([], pieces) == Drain(a + c);
    DeliverIsRun(reader, [], pieces, st);
    OnePiece(reader, a + c, st);
    TwoPieces(reader, a, c, st);
  }

  lemma OnePiece(reader: Reader, w: seq<byte>, st: State)
    requires ReadFrames(reader, Drain(w).0).Err?
    ensures Deliver(reader, [], [w], st) == ([], Some(ReadFrames(reader, Drain(w).0).error))
  {
    hide Drain, ReadFrames;
    assert [] + w == w;
  }

  lemma TwoPieces(reader: Reader, a: seq<byte>, c: seq<byte>, st: State)
    requires ReadFrames(reader, Drain(a).0).Ok? && ReadFrames(reader, PushAll([], [a, c]).0).Err?
    ensures Deliver(reader, [], [a, c], st).0 == Perform(st, Actions(ReadFrames(reader, Drain(a).0).value)).1
  {
    hide Drain, Perform, ReadFrames, Actions;
    var pieces := [a, c];
    var k := DeliverStops(reader, [], pieces, st);
    assert [] + a == a;
    PushFirst([], pieces, 0);
    assert pieces[1..][..0] == [] && Drain(a).0 + [] == Drain(a).0;
    assert PushAll([], pieces[..1]).0 == Drain(a).0;
    assert k == 1;
  }

  lemma NoChunks(st: State)
    ensures Perform(st, Actions([])) == (st, [])
  {
  }

  /**
   * Bytes to reply: however a body is cut into pieces, if no blank LF line follows a blank CRLF line and its frames
   * read as chunks that deliver a response without blank arguments, the pump's events leave the reply that the
   * whole response leaves.
   */
  lemma BytesRefineWholeResponse(reader: Reader, parse: string -> Option<Json>, model: string,
                                 pieces: seq<seq<byte>>, r: ChatResponse)
    requires NoLfAfterCrlf(Flatten(pieces))
    requires var read := ReadFrames(reader, Drain(Flatten(pieces)).0);
             read.Ok? && Delivers(r, read.value) && !SomeBlank(r)
    ensures NormalizeResponse(parse, model, r).Ok?
    ensures var (events, error) := Deliver(reader, [], pieces, Fresh(model));
            && error.None?
            && StreamReply(parse, events) == ReplyOf(NormalizeResponse(parse, model, r).value)
  {
    hide Drain, PushAll, ReadFrames, Finish, Perform, Delivers, StreamReply, ReplyOf, NormalizeResponse, SomeBlank;
    var w := Flatten(pieces);
    CutsAgreeExactlyWithoutLateLf(w);
    DeliverIsRun(reader, [], pieces, Fresh(model));
    ChoicesPresent(r, ReadFrames(reader, Drain(w).0).value);
    StreamingRefinesWholeResponse(parse, model, r, ReadFrames(reader, Drain(w).0).value);
  }

  lemma ChoicesPresent(r: ChatResponse, chunks: seq<Chunk>)
    requires Delivers(r, chunks)
    ensures r.choices != []
  {
  }

  // ----- the stand-alone payload parser

  class SseParser {
    const decode: seq<byte> -> string
    const frames: FrameBuffer

    constructor (decode: seq<byte> -> string)
      ensures this.decode == decode && fresh(frames) && frames.buffer == []
    {
      this.decode := decode;
      frames := new FrameBuffer();
    }

    method Push(piece: seq<byte>) returns (payloads: seq<string>)
      modifies frames
      ensures payloads == Payloads(decode, Drain(old(frames.buffer) + piece).0)
      ensures frames.buffer == Drain(old(frames.buffer) + piece).1
    {
      hide Drain, Payload;
      var complete := frames.Push(piece);
      payloads := [];
      var i := 0;
      while i < |complete|
        invariant 0 <= i <= |complete|
        invariant payloads == Payloads(decode, complete[..i])
        invariant frames.buffer == Drain(old(frames.buffer) + piece).1
      {
        var payload := ExtractDataPayload(decode(complete[i]));
        assert complete[..i + 1][..i] == complete[..i];
        if payload.Some? {
          payloads := payloads + [payload.value];
        }
        i := i + 1;
      }
      assert complete[..i] == complete;
    }

    /** The trailing bytes are one last frame. */
    method Finish() returns (payloads: seq<string>)
      modifies frames
      ensures frames.buffer == []
      ensures payloads == if old(frames.buffer) == [] then [] else TrailingPayload(decode, old(frames.buffer))
    {
      if frames.buffer == [] {
        return [];
      }
      var trailing := frames.buffer;
      frames.buffer := [];
      var payload := ExtractDataPayload(TrimStart(TrimEnd(decode(trailing))));
      payloads := if payload.Some? then [payload.value] else [];
    }
  }

  function Payloads(decode: seq<byte> -> string, frames: seq<seq<byte>>): seq<string> {
    if frames == [] then []
    else
      var payload := Payload(decode(frames[|frames| - 1]));
      Payloads(decode, frames[..|frames| - 1]) + (if payload.Some? then [payload.value] else [])
  }

  function TrailingPayload(decode: seq<byte> -> string, trailing: seq<byte>): seq<string> {
    var payload := Payload(TrimStart(TrimEnd(decode(trailing))));
    if payload.Some? then [payload.value] else []
  }

  // ----- payloads and chunks, exactly

  lemma {:induction false} DataAppend(a: seq<string>, b: seq<string>)
    ensures DataLines(a + b) == DataLines(a) + DataLines(b)
  {
    if b == [] {
      assert a + b == a;
    } else {
      DataAppend(a, b[..|b| - 1]);
      assert (a + b)[..|a + b| - 1] == a + b[..|b| - 1];
    }
  }

  /** A data line gives its value, its leading whitespace dropped; comments, and other fields, give nothing. */
  lemma DataExactly(before: seq<string>, line: string, after: seq<string>)
    ensures DataLines(before + [line] + after)
            == DataLines(before) + (if "data:" <= line then [TrimStart(line[5..])] else []) + DataLines(after)
  {
    DataAppend(before + [line], after);
    DataAppend(before, [line]);
    assert [line][..0] == [] && DataLines([]) == [];
    if "data:" <= line {
      assert line[0] == 'd';
    }
  }

  lemma {:induction false} TrimStartMeans(s: string) returns (left: string)
    ensures s == left + TrimStart(s) && forall i :: 0 <= i < |left| ==> IsSpace(left[i])
    ensures TrimStart(s) != "" ==> !IsSpace(TrimStart(s)[0])
  {
    hide IsSpace;
    if s != "" && IsSpace(s[0]) {
      left := TrimStartMeans(s[1..]);
      left := [s[0]] + left;
      assert s == [s[0]] + s[1..];
    } else {
      left := "";
    }
  }

  lemma {:induction false} TrimEndMeans(s: string) returns (right: string)
    ensures s == TrimEnd(s) + right && forall i :: 0 <= i < |right| ==> IsSpace(right[i])
    ensures TrimEnd(s) != "" ==> !IsSpace(TrimEnd(s)[|TrimEnd(s)| - 1])
  {
    hide IsSpace;
    if s != "" && IsSpace(s[|s| - 1]) {
      right := TrimEndMeans(s[..|s| - 1]);
      right := right + [s[|s| - 1]];
      assert s == s[..|s| - 1] + [s[|s| - 1]];
    } else {
      right := "";
    }
  }

  /** Lines end at LF, a CR before it dropped with it; a last line without LF is kept as it is. */
  lemma LinesExactly(head: string, rest: string)
    requires '\n' !in head
    ensures Lines("") == [] && (head != "" ==> Lines(head) == [head])
    ensures Lines(head + "\r\n" + rest) == [head] + Lines(rest)
    ensures head == "" || head[|head| - 1] != '\r' ==> Lines(head + "\n" + rest) == [head] + Lines(rest)
  {
    FirstLfAt(head, rest);
    var s, t := head + "\n" + rest, head + "\r\n" + rest;
    assert s[..|head|] == head && s[|head| + 1..] == rest;
    FirstLfAt(head + "\r", rest);
    assert t == (head + "\r") + "\n" + rest;
    assert t[..|head| + 1] == head + "\r" && t[|head| + 2..] == rest;
    assert (head + "\r")[..|head|] == head;
  }

  /** Whitespace around a frame, blank lines included, changes nothing. */
  lemma PayloadExactly(frame: string) returns (left: string, core: string, right: string)
    ensures frame == left + core + right
    ensures (forall i :: 0 <= i < |left| ==> IsSpace(left[i])) && forall i :: 0 <= i < |right| ==> IsSpace(right[i])
    ensures core != "" ==> !IsSpace(core[0]) && !IsSpace(core[|core| - 1])
    ensures var data := DataLines(Lines(core));
            Payload(frame) == if data == [] || Join(data, "\n") == "[DONE]" then None else Some(Join(data, "\n"))
  {
    hide IsSpace, Lines, DataLines, TrimStart, TrimEnd;
    right := TrimEndMeans(frame);
    left := TrimStartMeans(TrimEnd(frame));
    core := TrimStart(TrimEnd(frame));
    assert core != "" ==> core[|core| - 1] == TrimEnd(frame)[|TrimEnd(frame)| - 1];
  }

  /** Frames read in order: each readable one gives its chunk or nothing, and the first unreadable one ends it. */
  lemma {:induction false} ReadsExactly(reader: Reader, frames: seq<seq<byte>>)
    ensures match ReadFrames(reader, frames)
            case Ok(chunks) =>
              && (forall k :: 0 <= k < |frames| ==> reader.FrameChunk(frames[k]).Ok?)
              && chunks == ChunksOf(reader, frames)
            case Err(e) =>
              exists k :: 0 <= k < |frames| && reader.FrameChunk(frames[k]) == Err(e)
                          && forall j :: 0 <= j < k ==> reader.FrameChunk(frames[j]).Ok?
  {
    if frames != [] {
      ReadsExactly(reader, frames[1..]);
      if reader.FrameChunk(frames[0]).Ok? {
        ChunksCons(reader, frames);
        if ReadFrames(reader, frames[1..]).Err? {
          var e := ReadFrames(reader, frames[1..]).error;
          var k :| 0 <= k < |frames[1..]| && reader.FrameChunk(frames[1..][k]) == Err(e)
                   && forall j :: 0 <= j < k ==> reader.FrameChunk(frames[1..][j]).Ok?;
          assert reader.FrameChunk(frames[k + 1]) == Err(e);
          forall j | 0 <= j < k + 1 ensures reader.FrameChunk(frames[j]).Ok? {
            assert j > 0 ==> frames[j] == frames[1..][j - 1];
          }
        }
      } else {
        assert reader.FrameChunk(frames[0]) == Err(reader.FrameChunk(frames[0]).error);
      }
    }
  }

  /** The chunks that readable frames give, in order. */
  function ChunksOf(reader: Reader, frames: seq<seq<byte>>): seq<Chunk> {
    Flatten(seq(|frames|, k requires 0 <= k < |frames| => ChunkOr(reader.FrameChunk(frames[k]))))
  }

  function ChunkOr(read: Result<Option<Chunk>, string>): seq<Chunk> {
    if read.Ok? && read.value.Some? then [read.value.value] else []
  }

  lemma ChunksCons(reader: Reader, frames: seq<seq<byte>>)
    requires frames != []
    ensures ChunksOf(reader, frames) == ChunkOr(reader.FrameChunk(frames[0])) + ChunksOf(reader, frames[1..])
  {
    var all := seq(|frames|, k requires 0 <= k < |frames| => ChunkOr(reader.FrameChunk(frames[k])));
    var rest := frames[1..];
    assert all[1..] == seq(|rest|, k requires 0 <= k < |rest| => ChunkOr(reader.FrameChunk(rest[k])));
  }

  /** A frame without a payload gives no chunk; a payload gives the chunk it reads as, or its error. */
  lemma FrameExactly(reader: Reader, frame: seq<byte>)
    ensures var payload, read := Payload(reader.decode(frame)), reader.FrameChunk(frame);
            && (payload.None? ==> read == Ok(None))
            && (payload.Some? && reader.read(payload.value).Ok? ==>
                  read == Ok(Some(reader.read(payload.value).value)))
            && (payload.Some? && reader.read(payload.value).Err? ==> read == Err(reader.read(payload.value).error))
  {
  }

  function PayloadOr(payload: Option<string>): seq<string> {
    if payload.Some? then [payload.value] else []
  }

  /** A push gives the payloads of its frames in order; the end gives that of the trailing bytes, trimmed or not. */
  lemma {:induction false} PayloadsExactly(decode: seq<byte> -> string, frames: seq<seq<byte>>, last: seq<byte>)
    ensures Payloads(decode, []) == []
    ensures Payloads(decode, frames + [last]) == Payloads(decode, frames) + PayloadOr(Payload(decode(last)))
    ensures TrailingPayload(decode, last) == PayloadOr(Payload(decode(last)))
  {
    hide Payload;
    assert (frames + [last])[..|frames|] == frames;
    TrimTwice(decode(last));
  }

  lemma TrimTwice(frame: string)
    ensures Payload(TrimStart(TrimEnd(frame))) == Payload(frame)
  {
    hide DataLines, Lines, TrimStart, TrimEnd, IsSpace;
    var core := TrimStart(TrimEnd(frame));
    var left, mid, right := PayloadExactly(frame);
    TrimIdle(core);
    var l := TrimStartMeans(TrimEnd(frame));
    var r := TrimEndMeans(frame);
    assert core != "" ==> core[|core| - 1] == TrimEnd(frame)[|TrimEnd(frame)| - 1];
  }

  lemma TrimIdle(core: string)
    ensures core == "" || !IsSpace(core[|core| - 1]) ==> TrimEnd(core) == core
    ensures core == "" || !IsSpace(core[0]) ==> TrimStart(core) == core
  {
  }
}
