/** The stream state machine: chat-completion chunks in, block events out. */
module ChatStream {
  import opened Prelude

  const U32_LIMIT: nat := 0x1_0000_0000
  type U32 = n: nat | n < U32_LIMIT

  datatype Usage = Usage(promptTokens: nat, completionTokens: nat)

  /** One `delta.tool_calls` entry. */
  datatype Fragment = Fragment(index: U32, id: Option<string>, name: Option<string>, arguments: Option<string>)
  datatype Choice = Choice(content: Option<string>, toolCalls: seq<Fragment>, finishReason: Option<string>)
  datatype Chunk = Chunk(id: string, model: Option<string>, choices: seq<Choice>, usage: Option<Usage>)

  datatype Block = Text | ToolUse(id: string, name: string)

  datatype Event =
    | MessageStart(id: string, model: string)
    | BlockStart(index: U32, block: Block)
    | TextDelta(index: U32, text: string)
    | JsonDelta(index: U32, json: string)
    | BlockStop(index: U32)
    | MessageDelta(stopReason: string, usage: Usage)
    | MessageStop
  {
    predicate In(b: U32) {
      (BlockStart? || TextDelta? || JsonDelta? || BlockStop?) && index == b
    }
  }

  /** Block 0 is the text; tool `i` is block `i + 1`, in 32-bit arithmetic. */
  function BlockIndex(toolIndex: U32): U32 {
    (toolIndex + 1) % U32_LIMIT
  }

  datatype ToolCall = ToolCall(index: U32, id: Option<string>, name: Option<string>, arguments: string,
                               emittedLen: nat, started: bool, stopped: bool)
  {
    function Apply(f: Fragment): ToolCall {
      this.(index := f.index,
            id := if f.id.Some? then f.id else id,
            name := if f.name.Some? then f.name else name,
            arguments := arguments + f.arguments.GetOr(""))
    }

    function StartEvent(): Option<Event> {
      if name.None? then None
      else Some(BlockStart(BlockIndex(index), ToolUse(id.GetOr("tool_call_" + Digits(index)), name.value)))
    }

    function Pending(): seq<Event> {
      if emittedLen >= |arguments| then [] else [JsonDelta(BlockIndex(index), arguments[emittedLen..])]
    }

    function Emitted(): ToolCall {
      if emittedLen >= |arguments| then this else this.(emittedLen := |arguments|)
    }
  }

  const NEW_TOOL := ToolCall(0, None, None, "", 0, false, false)

  datatype State = State(model: string, messageStarted: bool, textStarted: bool, textFinished: bool, finished: bool,
                         stopReason: Option<string>, usage: Option<Usage>, tools: map<U32, ToolCall>)

  function Fresh(model: string): State {
    State(model, false, false, false, false, None, None, map[])
  }

  function NormalizeFinishReason(reason: string): string {
    if reason == "stop" then "end_turn" else if reason == "tool_calls" then "tool_use" else reason
  }

  // ----- specification: a chunk is a sequence of actions, each with its own events

  datatype Action =
    | Open(id: string, model: Option<string>)
    | Bill(usage: Usage)
    | Say(text: string)
    | Feed(fragment: Fragment, closing: bool)
    | Conclude(reason: string)

  function Feeds(fragments: seq<Fragment>, closing: bool): seq<Action> {
    if fragments == [] then []
    else Feeds(fragments[..|fragments| - 1], closing) + [Feed(fragments[|fragments| - 1], closing)]
  }

  function SayActions(content: Option<string>): seq<Action> {
    if NonEmpty(content).Some? then [Say(content.value)] else []
  }

  function ChoiceActions(c: Choice): seq<Action> {
    SayActions(c.content)
    + Feeds(c.toolCalls, c.finishReason == Some("tool_calls"))
    + (if c.finishReason.Some? then [Conclude(c.finishReason.value)] else [])
  }

  function ChoicesActions(choices: seq<Choice>): seq<Action> {
    if choices == [] then []
    else ChoicesActions(choices[..|choices| - 1]) + ChoiceActions(choices[|choices| - 1])
  }

  function ChunkHeader(c: Chunk): seq<Action> {
    [Open(c.id, c.model)] + (if c.usage.Some? then [Bill(c.usage.value)] else [])
  }

  function ChunkActions(c: Chunk): seq<Action> {
    ChunkHeader(c) + ChoicesActions(c.choices)
  }

  function Actions(chunks: seq<Chunk>): seq<Action> {
    if chunks == [] then []
    else Actions(chunks[..|chunks| - 1]) + ChunkActions(chunks[|chunks| - 1])
  }

  function FeedTool(tool: ToolCall, f: Fragment, closing: bool): (ToolCall, seq<Event>) {
    var t := tool.Apply(f);
    if !t.started && t.name.None? then (t, [])
    else
      var begin := if t.started then [] else [t.StartEvent().value];
      var closed := if closing && !t.stopped then [BlockStop(BlockIndex(t.index))] else [];
      (t.Emitted().(started := true, stopped := t.stopped || closing), begin + t.Pending() + closed)
  }

  /** Stops an open tool block; with `late`, first starts one that never started but has a name. */
  function FlushTool(t: ToolCall, late: bool): (ToolCall, seq<Event>) {
    var opens := late && !t.started && t.name.Some?;
    var begin := if opens then [t.StartEvent().value] + t.Pending() else [];
    var u := if opens then t.Emitted().(started := true) else t;
    if u.started && !u.stopped then (u.(stopped := true), begin + [BlockStop(BlockIndex(u.index))])
    else (u, begin)
  }

  function Sweep(tools: map<U32, ToolCall>, keys: seq<nat>, late: bool): (map<U32, ToolCall>, seq<Event>)
    requires forall j :: 0 <= j < |keys| ==> keys[j] in tools
  {
    if keys == [] then (tools, [])
    else
      var last := keys[|keys| - 1];
      var (m, events) := Sweep(tools, keys[..|keys| - 1], late);
      var (t, more) := FlushTool(tools[last], late);
      (m[last := t], events + more)
  }

  function SweepAll(tools: map<U32, ToolCall>, late: bool): (map<U32, ToolCall>, seq<Event>) {
    Sweep(tools, Ascending(tools.Keys), late)
  }

  function Act(st: State, a: Action): (State, seq<Event>) {
    match a
    case Open(id, model) =>
      if st.messageStarted then (st, [])
      else (st.(messageStarted := true), [MessageStart(id, model.GetOr(st.model))])
    case Bill(usage) => (st.(usage := Some(usage)), [])
    case Say(text) =>
      (st.(textStarted := true), (if st.textStarted then [] else [BlockStart(0, Text)]) + [TextDelta(0, text)])
    case Feed(f, closing) =>
      var (t, events) := FeedTool(if f.index in st.tools then st.tools[f.index] else NEW_TOOL, f, closing);
      (st.(tools := st.tools[f.index := t]), events)
    case Conclude(reason) =>
      var named := st.(stopReason := Some(NormalizeFinishReason(reason)));
      if reason != "tool_calls" then (named, [])
      else
        var (tools, events) := SweepAll(st.tools, false);
        (named.(tools := tools), events)
  }

  function Perform(st: State, actions: seq<Action>): (State, seq<Event>) {
    if actions == [] then (st, [])
    else
      var (mid, events) := Perform(st, actions[..|actions| - 1]);
      var (end, more) := Act(mid, actions[|actions| - 1]);
      (end, events + more)
  }

  function Finish(st: State): (State, seq<Event>) {
    if st.finished then (st, [])
    else
      var text := if st.textStarted && !st.textFinished then [BlockStop(0)] else [];
      var (tools, stops) := SweepAll(st.tools, true);
      var closing := if !st.messageStarted then []
                     else [MessageDelta(st.stopReason.GetOr("end_turn"), st.usage.GetOr(Usage(0, 0))), MessageStop];
      (st.(finished := true, textFinished := st.textFinished || st.textStarted, tools := tools), text + stops + closing)
  }

  /** Every event of a stream that delivers `chunks` and then ends. */
  function Run(model: string, chunks: seq<Chunk>): (State, seq<Event>) {
    var (st, events) := Perform(Fresh(model), Actions(chunks));
    var (end, more) := Finish(st);
    (end, events + more)
  }

  /** What one choice sends: its text when it has any, its fragments, and its finish reason. */
  lemma ChoiceMeans(c: Choice)
    ensures var closing := c.finishReason == Some("tool_calls");
            ChoiceActions(c)
            == (if c.content.Some? && c.content.value != "" then [Say(c.content.value)] else [])
               + seq(|c.toolCalls|, i requires 0 <= i < |c.toolCalls| => Feed(c.toolCalls[i], closing))
               + if c.finishReason.Some? then [Conclude(c.finishReason.value)] else []
  {
    FeedsMean(c.toolCalls, c.finishReason == Some("tool_calls"));
  }

  lemma {:induction false} FeedsMean(fragments: seq<Fragment>, closing: bool)
    ensures Feeds(fragments, closing)
            == seq(|fragments|, i requires 0 <= i < |fragments| => Feed(fragments[i], closing))
  {
    if fragments != [] {
      FeedsMean(fragments[..|fragments| - 1], closing);
    }
  }

  /** What one more chunk sends: its id and model, its usage when it has one, and its choices in order. */
  lemma ChunkMeans(chunks: seq<Chunk>, chunk: Chunk)
    ensures Actions([]) == []
    ensures Actions(chunks + [chunk])
            == Actions(chunks) + ([Open(chunk.id, chunk.model)]
               + (if chunk.usage.Some? then [Bill(chunk.usage.value)] else [])
               + Flatten(EachChoice(chunk.choices)))
  {
    hide ChoiceActions;
    assert (chunks + [chunk])[..|chunks|] == chunks;
    assert Actions(chunks + [chunk]) == Actions(chunks) + ChunkActions(chunk);
    ChoicesMean(chunk.choices);
  }

  /** The actions of each choice. */
  function EachChoice(choices: seq<Choice>): seq<seq<Action>> {
    seq(|choices|, i requires 0 <= i < |choices| => ChoiceActions(choices[i]))
  }

  lemma {:induction false} ChoicesMean(choices: seq<Choice>)
    ensures ChoicesActions(choices) == Flatten(EachChoice(choices))
  {
    hide ChoiceActions;
    if choices != [] {
      var front, n := choices[..|choices| - 1], |choices| - 1;
      ChoicesMean(front);
      FlattenSnoc(EachChoice(front), ChoiceActions(choices[n]));
      assert EachChoice(choices) == EachChoice(front) + [ChoiceActions(choices[n])];
    }
  }

  /** The two reasons with a name of their own, and all others. */
  lemma ReasonsExactly(reason: string)
    ensures NormalizeFinishReason("stop") == "end_turn" && NormalizeFinishReason("tool_calls") == "tool_use"
    ensures reason != "stop" && reason != "tool_calls" ==> NormalizeFinishReason(reason) == reason
  {
  }

  lemma PerformNone(st: State)
    ensures Perform(st, []) == (st, [])
  {
  }

  lemma PerformSnoc(st: State, actions: seq<Action>, a: Action)
    ensures Perform(st, actions + [a]).0 == Act(Perform(st, actions).0, a).0
    ensures Perform(st, actions + [a]).1 == Perform(st, actions).1 + Act(Perform(st, actions).0, a).1
  {
    assert (actions + [a])[..|actions + [a]| - 1] == actions;
  }

  lemma {:induction false} PerformAppend(st: State, a: seq<Action>, b: seq<Action>)
    ensures Perform(st, a + b).0 == Perform(Perform(st, a).0, b).0
    ensures Perform(st, a + b).1 == Perform(st, a).1 + Perform(Perform(st, a).0, b).1
  {
    hide Act;
    if b == [] {
      assert a + b == a;
    } else {
      var front, last := b[..|b| - 1], b[|b| - 1];
      PerformAppend(st, a, front);
      assert a + b == (a + front) + [last];
      PerformSnoc(st, a + front, last);
    }
  }

  lemma {:induction false} ActionsAppend(a: seq<Chunk>, b: seq<Chunk>)
    ensures Actions(a + b) == Actions(a) + Actions(b)
  {
    hide ChunkActions;
    if b == [] {
      assert a + b == a;
    } else {
      ActionsAppend(a, b[..|b| - 1]);
      assert (a + b)[..|a + b| - 1] == a + b[..|b| - 1];
    }
  }

  lemma SweepNone(tools: map<U32, ToolCall>, late: bool)
    ensures Sweep(tools, [], late) == (tools, [])
  {
  }

  lemma SweepStep(tools: map<U32, ToolCall>, keys: seq<nat>, i: nat, late: bool)
    requires i < |keys| && forall j :: 0 <= j < |keys| ==> keys[j] in tools
    ensures var before := Sweep(tools, keys[..i], late);
            var flushed := FlushTool(tools[keys[i]], late);
            && Sweep(tools, keys[..i + 1], late).0 == before.0[keys[i] := flushed.0]
            && Sweep(tools, keys[..i + 1], late).1 == before.1 + flushed.1
  {
    assert keys[..i + 1][..i] == keys[..i];
  }

  // ----- the state machine as the client keeps it

  class StreamState {
    var model: string
    var messageStarted: bool
    var textStarted: bool
    var textFinished: bool
    var finished: bool
    var stopReason: Option<string>
    var usage: Option<Usage>
    var toolCalls: map<U32, ToolCall>

    ghost function Value(): State
      reads this
    {
      State(model, messageStarted, textStarted, textFinished, finished, stopReason, usage, toolCalls)
    }

    constructor (model: string)
      ensures Value() == Fresh(model)
    {
      this.model := model;
      messageStarted, textStarted, textFinished, finished := false, false, false, false;
      stopReason, usage, toolCalls := None, None, map[];
    }

    /** One tool block at the end of a sweep: a late start when asked for, then the stop. */
    static method CloseTool(tool: ToolCall, late: bool) returns (t: ToolCall, events: seq<Event>)
      ensures t == FlushTool(tool, late).0 && events == FlushTool(tool, late).1
    {
      t, events := tool, [];
      if late && !t.started {
        var start := t.StartEvent();
        if start.Some? {
          events := [start.value] + t.Pending();
          t := t.Emitted().(started := true);
        }
      }
      if t.started && !t.stopped {
        t := t.(stopped := true);
        events := events + [BlockStop(BlockIndex(t.index))];
      }
    }

    /** `values_mut()` over the ordered map, closing (and with `late` opening) every tool block. */
    method CloseTools(late: bool) returns (events: seq<Event>)
      modifies this`toolCalls
      ensures toolCalls == SweepAll(old(toolCalls), late).0 && events == SweepAll(old(toolCalls), late).1
    {
      hide Ascending, FlushTool, Sweep;
      SweepNone(toolCalls, late);
      ghost var was := toolCalls;
      events := [];
      var keys := Ascending(toolCalls.Keys);
      var i := 0;
      while i < |keys|
        invariant 0 <= i <= |keys|
        invariant toolCalls.Keys == was.Keys
        invariant forall j :: i <= j < |keys| ==> toolCalls[keys[j]] == was[keys[j]]
        invariant toolCalls == Sweep(was, keys[..i], late).0
        invariant events == Sweep(was, keys[..i], late).1
      {
        var key := keys[i];
        var t, more := CloseTool(toolCalls[key], late);
        events := events + more;
        toolCalls := toolCalls[key := t];
        SweepStep(was, keys, i, late);
        i := i + 1;
      }
      assert keys[..i] == keys;
    }

    method FeedFragment(tc: Fragment, closing: bool) returns (events: seq<Event>)
      modifies this`toolCalls
      ensures Value() == Act(old(Value()), Feed(tc, closing)).0 && events == Act(old(Value()), Feed(tc, closing)).1
    {
      events := [];
      var state := if tc.index in toolCalls then toolCalls[tc.index] else NEW_TOOL;
      state := state.Apply(tc);
      toolCalls := toolCalls[tc.index := state];
      if !state.started {
        var start := state.StartEvent();
        if start.None? {
          return;
        }
        state := state.(started := true);
        events := [start.value];
      }
      events := events + state.Pending();
      state := state.Emitted();
      if closing && !state.stopped {
        state := state.(stopped := true);
        events := events + [BlockStop(BlockIndex(state.index))];
      }
      toolCalls := toolCalls[tc.index := state];
    }

    method IngestContent(content: Option<string>) returns (events: seq<Event>)
      modifies this`textStarted
      ensures Value() == Perform(old(Value()), SayActions(content)).0
      ensures events == Perform(old(Value()), SayActions(content)).1
    {
      events := [];
      if NonEmpty(content).Some? {
        PerformSnoc(Value(), [], Say(content.value));
        if !textStarted {
          textStarted := true;
          events := [BlockStart(0, Text)];
        }
        events := events + [TextDelta(0, content.value)];
      }
    }

    method NoteFinishReason(reason: string) returns (events: seq<Event>)
      modifies this`stopReason, this`toolCalls
      ensures Value() == Act(old(Value()), Conclude(reason)).0 && events == Act(old(Value()), Conclude(reason)).1
    {
      hide SweepAll;
      events := [];
      stopReason := Some(NormalizeFinishReason(reason));
      if reason == "tool_calls" {
        events := CloseTools(false);
      }
    }

    method IngestChoice(choice: Choice) returns (events: seq<Event>)
      modifies this
      ensures Value() == Perform(old(Value()), ChoiceActions(choice)).0
      ensures events == Perform(old(Value()), ChoiceActions(choice)).1
    {
      hide Act, SayActions;
      events := IngestContent(choice.content);
      ghost var done := SayActions(choice.content);
      var closing := choice.finishReason == Some("tool_calls");
      var j := 0;
      while j < |choice.toolCalls|
        invariant 0 <= j <= |choice.toolCalls|
        invariant done == SayActions(choice.content) + Feeds(choice.toolCalls[..j], closing)
        invariant Value() == Perform(old(Value()), done).0 && events == Perform(old(Value()), done).1
      {
        var more := FeedFragment(choice.toolCalls[j], closing);
        events := events + more;
        assert choice.toolCalls[..j + 1][..j] == choice.toolCalls[..j];
        PerformSnoc(old(Value()), done, Feed(choice.toolCalls[j], closing));
        done := done + [Feed(choice.toolCalls[j], closing)];
        j := j + 1;
      }
      assert choice.toolCalls[..j] == choice.toolCalls;
      if choice.finishReason.Some? {
        PerformSnoc(old(Value()), done, Conclude(choice.finishReason.value));
        var more := NoteFinishReason(choice.finishReason.value);
        events := events + more;
      } else {
        assert done + [] == done;
      }
    }

    method BeginChunk(chunk: Chunk) returns (events: seq<Event>)
      modifies this`messageStarted, this`usage
      ensures Value() == Perform(old(Value()), ChunkHeader(chunk)).0
      ensures events == Perform(old(Value()), ChunkHeader(chunk)).1
    {
      hide SweepAll, FeedTool, Perform;
      PerformNone(Value());
      events := [];
      var header := [Open(chunk.id, chunk.model)];
      PerformSnoc(Value(), [], header[0]);
      assert [] + [header[0]] == header;
      if !messageStarted {
        messageStarted := true;
        events := [MessageStart(chunk.id, chunk.model.GetOr(model))];
      }
      if chunk.usage.Some? {
        PerformSnoc(old(Value()), header, Bill(chunk.usage.value));
        usage := chunk.usage;
      } else {
        assert header + [] == header;
      }
    }

    method IngestChunk(chunk: Chunk) returns (events: seq<Event>)
      modifies this
      ensures Value() == Perform(old(Value()), ChunkActions(chunk)).0
      ensures events == Perform(old(Value()), ChunkActions(chunk)).1
    {
      hide Act, ChunkHeader, ChoiceActions;
      events := BeginChunk(chunk);
      ghost var done := ChunkHeader(chunk);
      var i := 0;
      while i < |chunk.choices|
        invariant 0 <= i <= |chunk.choices|
        invariant done == ChunkHeader(chunk) + ChoicesActions(chunk.choices[..i])
        invariant Value() == Perform(old(Value()), done).0 && events == Perform(old(Value()), done).1
      {
        var more := IngestChoice(chunk.choices[i]);
        events := events + more;
        assert chunk.choices[..i + 1][..i] == chunk.choices[..i];
        PerformAppend(old(Value()), done, ChoiceActions(chunk.choices[i]));
        done := done + ChoiceActions(chunk.choices[i]);
        i := i + 1;
      }
      assert chunk.choices[..i] == chunk.choices;
    }

    method FinishStream() returns (events: seq<Event>)
      modifies this
      ensures Value() == Finish(old(Value())).0 && events == Finish(old(Value())).1
    {
      events := [];
      if finished {
        return;
      }
      finished := true;
      if textStarted && !textFinished {
        textFinished := true;
        events := [BlockStop(0)];
      }
      var stops := CloseTools(true);
      events := events + stops;
      if messageStarted {
        events := events + [MessageDelta(stopReason.GetOr("end_turn"), usage.GetOr(Usage(0, 0))), MessageStop];
      }
    }
  }
}
