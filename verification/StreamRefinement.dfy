/**
 * The two ways a turn reads a model reply: a whole response, or a stream of events.
 * Both end in the same reply.
 */
module StreamRefinement {
  import opened Prelude
  import opened ChatStream
  import opened StreamLaws
  import opened StreamGrammar

  /** JSON values; reading text into one and writing one out are parameters of the model. */
  datatype Json =
    | Null
    | Bool(value: bool)
    | Number(digits: string)
    | Str(text: string)
    | Array(items: seq<Json>)
    | Object(fields: seq<(string, Json)>)

  function Raw(arguments: string): Json {
    Object([("raw", Str(arguments))])
  }

  datatype Call = Call(id: string, name: string, input: Json)

  /** What a turn keeps of one model reply. */
  datatype Reply = Reply(text: string, calls: seq<Call>, usage: Usage)

  // ----- the whole response

  datatype ResponseCall = ResponseCall(id: string, name: string, arguments: string)
  datatype ResponseChoice = ResponseChoice(role: string, content: Option<string>, toolCalls: seq<ResponseCall>,
                                           finishReason: Option<string>)
  datatype ChatResponse = ChatResponse(id: string, model: string, choices: seq<ResponseChoice>, usage: Option<Usage>)

  datatype OutputBlock = OutText(text: string) | OutCall(call: Call)
  datatype MessageResponse = MessageResponse(id: string, role: string, content: seq<OutputBlock>, model: string,
                                             stopReason: Option<string>, usage: Usage)

  function ParseArguments(parse: string -> Option<Json>, arguments: string): Json {
    parse(arguments).GetOr(Raw(arguments))
  }

  function NormalizeResponse(parse: string -> Option<Json>, model: string, r: ChatResponse)
    : Result<MessageResponse, string>
  {
    if r.choices == [] then Err("response missing choices")
    else
      var c := r.choices[0];
      var text := if NonEmpty(c.content).Some? then [OutText(c.content.value)] else [];
      var calls := seq(|c.toolCalls|, i requires 0 <= i < |c.toolCalls| =>
        OutCall(Call(c.toolCalls[i].id, c.toolCalls[i].name, ParseArguments(parse, c.toolCalls[i].arguments))));
      Ok(MessageResponse(r.id, c.role, text + calls, if r.model == "" then model else r.model,
                         if c.finishReason.None? then None else Some(NormalizeFinishReason(c.finishReason.value)),
                         r.usage.GetOr(Usage(0, 0))))
  }

  /** The texts of the blocks, one per line. */
  function BlockText(blocks: seq<OutputBlock>): string {
    if blocks == [] then ""
    else
      var before := BlockText(blocks[..|blocks| - 1]);
      var last := blocks[|blocks| - 1];
      if last.OutCall? then before
      else if before == "" then last.text
      else before + "\n" + last.text
  }

  function BlockCalls(blocks: seq<OutputBlock>): seq<Call> {
    if blocks == [] then []
    else
      var last := blocks[|blocks| - 1];
      BlockCalls(blocks[..|blocks| - 1]) + (if last.OutCall? then [last.call] else [])
  }

  function ReplyOf(m: MessageResponse): Reply {
    Reply(BlockText(m.content), BlockCalls(m.content), m.usage)
  }

  method CollectBlocks(response: MessageResponse) returns (reply: Reply)
    ensures reply == ReplyOf(response)
  {
    var content, toolUses := "", [];
    var i := 0;
    while i < |response.content|
      invariant 0 <= i <= |response.content|
      invariant content == BlockText(response.content[..i])
      invariant toolUses == BlockCalls(response.content[..i])
    {
      match response.content[i] {
        case OutText(text) =>
          if content != "" {
            content := content + "\n";
          }
          content := content + text;
        case OutCall(call) =>
          toolUses := toolUses + [call];
      }
      assert response.content[..i + 1][..i] == response.content[..i];
      i := i + 1;
    }
    assert response.content[..i] == response.content;
    reply := Reply(content, toolUses, response.usage);
  }

  // ----- the stream

  datatype StreamingToolUse = StreamingToolUse(id: string, name: string, inputJson: string)
  datatype Assembly = Assembly(content: string, tools: map<U32, StreamingToolUse>, usage: Usage)

  function ParseStreamingInput(parse: string -> Option<Json>, inputJson: string): Json {
    if Blank(inputJson) then Object([]) else parse(inputJson).GetOr(Raw(inputJson))
  }

  function Absorb(a: Assembly, e: Event): Assembly {
    match e
    case BlockStart(index, ToolUse(id, name)) => a.(tools := a.tools[index := StreamingToolUse(id, name, "")])
    case TextDelta(_, text) => a.(content := a.content + text)
    case JsonDelta(index, json) =>
      if index !in a.tools then a
      else a.(tools := a.tools[index := a.tools[index].(inputJson := a.tools[index].inputJson + json)])
    case MessageDelta(_, usage) =>
      a.(usage := Usage(a.usage.promptTokens + usage.promptTokens, a.usage.completionTokens + usage.completionTokens))
    case _ => a
  }

  const NOTHING_YET := Assembly("", map[], Usage(0, 0))

  function Assemble(log: seq<Event>): Assembly {
    if log == [] then NOTHING_YET else Absorb(Assemble(log[..|log| - 1]), log[|log| - 1])
  }

  function ToCall(parse: string -> Option<Json>, t: StreamingToolUse): Call {
    Call(t.id, t.name, ParseStreamingInput(parse, t.inputJson))
  }

  function CallsInOrder(parse: string -> Option<Json>, tools: map<U32, StreamingToolUse>, keys: seq<nat>): seq<Call>
    requires forall j :: 0 <= j < |keys| ==> keys[j] in tools
  {
    seq(|keys|, j requires 0 <= j < |keys| => ToCall(parse, tools[keys[j]]))
  }

  function StreamReply(parse: string -> Option<Json>, log: seq<Event>): Reply {
    var a := Assemble(log);
    Reply(a.content, CallsInOrder(parse, a.tools, Ascending(a.tools.Keys)), a.usage)
  }

  method CollectEvents(parse: string -> Option<Json>, events: seq<Event>) returns (reply: Reply)
    ensures reply == StreamReply(parse, events)
  {
    hide Assemble, Ascending, CallsInOrder, ParseStreamingInput;
    var content := "";
    var toolUses: map<U32, StreamingToolUse> := map[];
    var usage := Usage(0, 0);
    AssembleNone();
    var i := 0;
    while i < |events|
      invariant 0 <= i <= |events|
      invariant Assembly(content, toolUses, usage) == Assemble(events[..i])
    {
      AssembleSnoc(events, i);
      match events[i] {
        case BlockStart(index, ToolUse(id, name)) =>
          toolUses := toolUses[index := StreamingToolUse(id, name, "")];
        case TextDelta(_, text) =>
          content := content + text;
        case JsonDelta(index, json) =>
          if index in toolUses {
            var t := toolUses[index];
            toolUses := toolUses[index := t.(inputJson := t.inputJson + json)];
          }
        case MessageDelta(_, u) =>
          usage := Usage(usage.promptTokens + u.promptTokens, usage.completionTokens + u.completionTokens);
        case _ =>
      }
      i := i + 1;
    }
    assert events[..i] == events;
    var calls := CollectCalls(parse, toolUses);
    reply := Reply(content, calls, usage);
  }

  lemma AssembleNone()
    ensures Assemble([]) == NOTHING_YET
  {
  }

  lemma AssembleSnoc(events: seq<Event>, i: nat)
    requires i < |events|
    ensures Assemble(events[..i + 1]) == Absorb(Assemble(events[..i]), events[i])
  {
    hide Absorb;
    assert events[..i + 1][..i] == events[..i];
  }

  /** The collected tool uses, read off the ordered map. */
  method CollectCalls(parse: string -> Option<Json>, toolUses: map<U32, StreamingToolUse>) returns (calls: seq<Call>)
    ensures calls == CallsInOrder(parse, toolUses, Ascending(toolUses.Keys))
  {
    hide Ascending;
    var keys := Ascending(toolUses.Keys);
    calls := [];
    var k := 0;
    while k < |keys|
      invariant 0 <= k <= |keys|
      invariant calls == CallsInOrder(parse, toolUses, keys)[..k]
    {
      calls := calls + [ToCall(parse, toolUses[keys[k]])];
      k := k + 1;
    }
  }

  // ----- reading an assembly block by block

  /** The tool use the events of one block describe. */
  function ToolView(es: seq<Event>): Option<StreamingToolUse> {
    if es == [] then None else ViewStep(ToolView(es[..|es| - 1]), es[|es| - 1])
  }

  function UsageOf(log: seq<Event>): Usage {
    if log == [] then Usage(0, 0)
    else
      var before, last := UsageOf(log[..|log| - 1]), log[|log| - 1];
      if last.MessageDelta? then
        Usage(before.promptTokens + last.usage.promptTokens, before.completionTokens + last.usage.completionTokens)
      else before
  }

  function ViewStep(before: Option<StreamingToolUse>, e: Event): Option<StreamingToolUse> {
    if e.BlockStart? && e.block.ToolUse? then Some(StreamingToolUse(e.block.id, e.block.name, ""))
    else if e.JsonDelta? && before.Some? then Some(before.value.(inputJson := before.value.inputJson + e.json))
    else before
  }

  function Lookup(a: Assembly, b: U32): Option<StreamingToolUse> {
    if b in a.tools then Some(a.tools[b]) else None
  }

  lemma AbsorbView(a: Assembly, e: Event, b: U32)
    ensures Lookup(Absorb(a, e), b) == if e.In(b) then ViewStep(Lookup(a, b), e) else Lookup(a, b)
  {
  }

  lemma NothingYet(b: U32)
    ensures Lookup(NOTHING_YET, b) == None
  {
  }

  lemma {:induction false} AssembleReads(log: seq<Event>, b: U32)
    ensures Assemble(log).content == TextOf(log) && Assemble(log).usage == UsageOf(log)
    ensures ToolView(BlockLog(log, b)) == Lookup(Assemble(log), b)
  {
    hide Lookup;
    if log == [] {
      assert Lookup(NOTHING_YET, b) == None by {
        NothingYet(b);
      }
    } else {
      var front, last := log[..|log| - 1], log[|log| - 1];
      AssembleReads(front, b);
      AbsorbView(Assemble(front), last, b);
      assert BlockLog(log, b) == BlockLog(front, b) + (if last.In(b) then [last] else []);
      assert (BlockLog(front, b) + [last])[..|BlockLog(front, b)|] == BlockLog(front, b);
      assert BlockLog(front, b) + [] == BlockLog(front, b);
    }
  }

  /** A tool block of the grammar reads as its start event with all its argument text. */
  lemma {:induction false} GrammarView(es: seq<Event>)
    requires es != [] && es[0].BlockStart? && es[0].block.ToolUse?
    requires forall k :: 1 <= k < |es| ==> es[k].JsonDelta? || es[k].BlockStop?
    ensures ToolView(es) == Some(StreamingToolUse(es[0].block.id, es[0].block.name, JsonText(es)))
  {
    var front := es[..|es| - 1];
    if |es| == 1 {
      assert front == [];
      ReadOne(es[0]);
      assert es == [es[0]];
    } else {
      GrammarView(front);
      assert JsonText(front) + "" == JsonText(front);
    }
  }

  lemma {:induction false} NoToolView(es: seq<Event>)
    requires forall k :: 0 <= k < |es| ==> !(es[k].BlockStart? && es[k].block.ToolUse?)
    ensures ToolView(es).None?
  {
    if es != [] {
      NoToolView(es[..|es| - 1]);
    }
  }

  lemma {:induction false} NoUsage(log: seq<Event>)
    requires forall k :: 0 <= k < |log| ==> !log[k].MessageDelta?
    ensures UsageOf(log) == Usage(0, 0)
  {
    if log != [] {
      NoUsage(log[..|log| - 1]);
    }
  }

  lemma GrammarUsage(log: seq<Event>)
    requires Grammar(log)
    ensures UsageOf(log) == log[|log| - 2].usage
  {
    hide BlockLog;
    var n := |log|;
    NoUsage(log[..n - 2]);
    assert log[..n - 1][..n - 2] == log[..n - 2];
  }

  // ----- a response and the chunks that deliver it

  /**
   * Content cut anywhere; tool `i` under index `i`, its id and name whole in its first fragment, its arguments
   * cut anywhere; the last usage sent is the response's. Chunks may carry any number of choices.
   */
  ghost predicate Delivers(r: ChatResponse, chunks: seq<Chunk>) {
    r.choices != [] &&
    var c, acts := r.choices[0], Actions(chunks);
    && |c.toolCalls| < U32_LIMIT
    && ContentOf(acts) == c.content.GetOr("")
    && LastBill(acts) == r.usage
    && (forall k :: 0 <= k < |acts| && acts[k].Feed? ==> acts[k].fragment.index < |c.toolCalls|)
    && (forall i: U32 :: i < |c.toolCalls| ==> DeliversCall(acts, i, c.toolCalls[i]))
  }

  ghost predicate DeliversCall(acts: seq<Action>, i: U32, call: ResponseCall) {
    && ArgumentsOf(acts, i) == call.arguments
    && var f := FirstFragment(acts, i);
       f.Some? && f.value.id == Some(call.id) && f.value.name == Some(call.name)
  }

  ghost predicate SomeBlank(r: ChatResponse)
    requires r.choices != []
  {
    exists i :: 0 <= i < |r.choices[0].toolCalls| && Blank(r.choices[0].toolCalls[i].arguments)
  }

  lemma DeliveredNames(r: ChatResponse, chunks: seq<Chunk>, i: U32)
    requires Delivers(r, chunks) && i >= |r.choices[0].toolCalls|
    ensures !NameSent(Actions(chunks), i)
  {
    hide Actions, ContentOf, LastBill, DeliversCall;
  }

  lemma DeliveredCall(r: ChatResponse, chunks: seq<Chunk>, i: U32)
    requires Delivers(r, chunks) && i < |r.choices[0].toolCalls|
    ensures DeliversCall(Actions(chunks), i, r.choices[0].toolCalls[i])
  {
    hide Actions, ContentOf, LastBill, DeliversCall;
  }

  /** Block `b` of a delivered response reads as call `b - 1`, or as no call. */
  lemma DeliveredView(model: string, r: ChatResponse, chunks: seq<Chunk>, b: U32)
    requires Delivers(r, chunks) && b > 0
    ensures var calls, es := r.choices[0].toolCalls, BlockLog(Run(model, chunks).1, b);
            ToolView(es) == if b - 1 < |calls| then
                              Some(StreamingToolUse(calls[b - 1].id, calls[b - 1].name, calls[b - 1].arguments))
                            else None
  {
    hide Perform, BlockLog, Late, NameSent, ArgumentsOf, FirstFragment, Actions, ContentOf, LastBill;
    hide Finish, ToolView, Stops, JsonText;
    var acts, calls := Actions(chunks), r.choices[0].toolCalls;
    ToolAtEnd(model, acts, b - 1);
    var es := BlockLog(Run(model, chunks).1, b);
    if b - 1 < |calls| {
      DeliveredCall(r, chunks, b - 1);
      GrammarView(es);
    } else {
      DeliveredNames(r, chunks, b - 1);
      NoToolView(es);
    }
  }

  /** Once the stream is over, block `i + 1` holds call `i` and no other block holds a call. */
  lemma DeliveredTools(model: string, r: ChatResponse, chunks: seq<Chunk>, b: U32)
    requires Delivers(r, chunks)
    ensures var calls, tools := r.choices[0].toolCalls, Assemble(Run(model, chunks).1).tools;
            && (b in tools <==> 1 <= b <= |calls|)
            && (b in tools ==> tools[b] == StreamingToolUse(calls[b - 1].id, calls[b - 1].name, calls[b - 1].arguments))
  {
    hide Perform, Run, Assemble, ToolView, BlockLog, Actions, ContentOf, LastBill, DeliversCall, Stops;
    var log := Run(model, chunks).1;
    AssembleReads(log, b);
    DeliveredNames(r, chunks, LAST_INDEX);
    StreamsFollowTheGrammar(model, chunks);
    if b > 0 {
      DeliveredView(model, r, chunks, b);
    } else {
      if chunks == [] {
        BlockLogNone(log, 0);
      }
      NoToolView(BlockLog(log, 0));
    }
  }

  lemma DeliveredText(model: string, r: ChatResponse, chunks: seq<Chunk>)
    requires Delivers(r, chunks)
    ensures var a := Assemble(Run(model, chunks).1);
            a.content == r.choices[0].content.GetOr("") && a.usage == r.usage.GetOr(Usage(0, 0))
  {
    hide Perform, Act, BlockLog, Late, SweepAll, ArgumentsOf, FirstFragment, NameSent;
    var log, acts := Run(model, chunks).1, Actions(chunks);
    AssembleReads(log, 0);
    DeliveredNames(r, chunks, LAST_INDEX);
    StreamsFollowTheGrammar(model, chunks);
    if chunks != [] {
      ChunksOpen(chunks);
      FramedInvariant(model, acts);
      StateInvariant(model, acts);
      QuietExactly(model, acts);
      TextAtEnd(Perform(Fresh(model), acts).0, Perform(Fresh(model), acts).1, acts);
      GrammarUsage(log);
    }
  }

  lemma {:induction false} NormalizedBlocks(text: seq<OutputBlock>, calls: seq<OutputBlock>)
    requires text == [] || (|text| == 1 && text[0].OutText?)
    requires forall i :: 0 <= i < |calls| ==> calls[i].OutCall?
    ensures BlockText(text + calls) == if text == [] then "" else text[0].text
    ensures BlockCalls(text + calls) == seq(|calls|, i requires 0 <= i < |calls| => calls[i].call)
    decreases |calls|
  {
    if calls == [] {
      assert text + calls == text;
      assert text != [] ==> text[..0] == [];
    } else {
      var front := calls[..|calls| - 1];
      NormalizedBlocks(text, front);
      assert (text + calls)[..|text + calls| - 1] == text + front;
    }
  }

  /** What the whole-response path keeps. */
  lemma NormalizedReply(parse: string -> Option<Json>, model: string, r: ChatResponse)
    requires r.choices != []
    ensures NormalizeResponse(parse, model, r).Ok?
    ensures var reply, c := ReplyOf(NormalizeResponse(parse, model, r).value), r.choices[0];
            && reply.text == c.content.GetOr("") && reply.usage == r.usage.GetOr(Usage(0, 0))
            && |reply.calls| == |c.toolCalls|
            && forall i :: 0 <= i < |c.toolCalls| ==>
                 reply.calls[i] == Call(c.toolCalls[i].id, c.toolCalls[i].name,
                                        ParseArguments(parse, c.toolCalls[i].arguments))
  {
    hide BlockText, BlockCalls;
    var m := NormalizeResponse(parse, model, r).value;
    var text := if NonEmpty(r.choices[0].content).Some? then [OutText(r.choices[0].content.value)] else [];
    assert m.content == text + m.content[|text|..];
    NormalizedBlocks(text, m.content[|text|..]);
  }

  /** Blank streamed arguments read as no fields; text that is no JSON is kept whole under `raw`. */
  lemma ArgumentsReadExactly(parse: string -> Option<Json>, text: string)
    ensures (forall k :: 0 <= k < |text| ==> IsSpace(text[k])) ==> ParseStreamingInput(parse, text) == Object([])
    ensures !(forall k :: 0 <= k < |text| ==> IsSpace(text[k])) ==>
              ParseStreamingInput(parse, text) == ParseArguments(parse, text)
    ensures ParseArguments(parse, text)
            == if parse(text).Some? then parse(text).value else Object([("raw", Str(text))])
  {
  }

  /** A response's texts stand on lines of their own, in order, and its calls in order. */
  lemma BlocksExactly(blocks: seq<OutputBlock>, b: OutputBlock)
    ensures BlockText([]) == "" && BlockCalls([]) == []
    ensures BlockText(blocks + [b])
            == (if b.OutCall? then BlockText(blocks)
                else if BlockText(blocks) == "" then b.text
                else BlockText(blocks) + "\n" + b.text)
    ensures BlockCalls(blocks + [b]) == BlockCalls(blocks) + if b.OutCall? then [b.call] else []
  {
    assert (blocks + [b])[..|blocks|] == blocks;
  }

  /** The whole response's other fields: its id, its role, a model to show, and its finish reason by its other name. */
  lemma NormalizedFields(parse: string -> Option<Json>, model: string, r: ChatResponse)
    ensures NormalizeResponse(parse, model, r).Err? <==> r.choices == []
    ensures r.choices != [] ==>
              var m, c := NormalizeResponse(parse, model, r).value, r.choices[0];
              && m.id == r.id && m.role == c.role && m.model == (if r.model == "" then model else r.model)
              && m.stopReason == (if c.finishReason.None? then None else Some(Ending(c.finishReason)))
              && m.usage == if r.usage.Some? then r.usage.value else Usage(0, 0)
  {
  }

  /** What the streaming path keeps of a delivered response. */
  lemma StreamedReply(parse: string -> Option<Json>, model: string, r: ChatResponse, chunks: seq<Chunk>)
    requires Delivers(r, chunks)
    ensures var reply, c := StreamReply(parse, Run(model, chunks).1), r.choices[0];
            && reply.text == c.content.GetOr("") && reply.usage == r.usage.GetOr(Usage(0, 0))
            && |reply.calls| == |c.toolCalls|
            && forall i :: 0 <= i < |c.toolCalls| ==>
                 reply.calls[i] == Call(c.toolCalls[i].id, c.toolCalls[i].name,
                                        ParseStreamingInput(parse, c.toolCalls[i].arguments))
  {
    hide Run, Assemble, ContentOf, LastBill, DeliversCall, ParseStreamingInput, CallsInOrder, Ascending, ListsCalls;
    var a := Assemble(Run(model, chunks).1);
    DeliveredText(model, r, chunks);
    StreamedCalls(model, r, chunks);
    CallsRead(parse, a.tools, Ascending(a.tools.Keys), r.choices[0].toolCalls);
  }

  /** The tool uses listed by `keys` are the calls, in order. */
  ghost predicate ListsCalls(tools: map<U32, StreamingToolUse>, keys: seq<nat>, calls: seq<ResponseCall>) {
    && |keys| == |calls| < U32_LIMIT
    && forall i :: 0 <= i < |calls| ==>
         && keys[i] in tools
         && tools[keys[i]] == StreamingToolUse(calls[i].id, calls[i].name, calls[i].arguments)
  }

  /** The collected tool uses of a delivered response are its calls, in order. */
  lemma StreamedCalls(model: string, r: ChatResponse, chunks: seq<Chunk>)
    requires Delivers(r, chunks)
    ensures var tools, calls := Assemble(Run(model, chunks).1).tools, r.choices[0].toolCalls;
            ListsCalls(tools, Ascending(tools.Keys), calls)
  {
    hide Run, Assemble, ContentOf, LastBill, DeliversCall, Ascending;
    var tools, calls := Assemble(Run(model, chunks).1).tools, r.choices[0].toolCalls;
    forall b: U32
      ensures b in tools.Keys <==> 1 <= b <= |calls|
      ensures b in tools ==> tools[b] == StreamingToolUse(calls[b - 1].id, calls[b - 1].name, calls[b - 1].arguments)
    {
      DeliveredTools(model, r, chunks, b);
    }
    DeliveredKeys(tools.Keys, r, chunks);
    var keys := Ascending(tools.Keys);
    forall i | 0 <= i < |calls|
      ensures keys[i] in tools && tools[keys[i]] == StreamingToolUse(calls[i].id, calls[i].name, calls[i].arguments)
    {
      var b: U32 := keys[i];
      assert b == i + 1 && b in tools.Keys;
    }
  }

  lemma CallsRead(parse: string -> Option<Json>, tools: map<U32, StreamingToolUse>, keys: seq<nat>,
                  calls: seq<ResponseCall>)
    requires ListsCalls(tools, keys, calls)
    ensures |CallsInOrder(parse, tools, keys)| == |calls|
    ensures forall i :: 0 <= i < |calls| ==>
              CallsInOrder(parse, tools, keys)[i]
              == Call(calls[i].id, calls[i].name, ParseStreamingInput(parse, calls[i].arguments))
  {
    hide ParseStreamingInput;
  }

  lemma DeliveredKeys(keys: set<U32>, r: ChatResponse, chunks: seq<Chunk>)
    requires Delivers(r, chunks)
    requires forall b: U32 :: b in keys <==> 1 <= b <= |r.choices[0].toolCalls|
    ensures |Ascending(keys)| == |r.choices[0].toolCalls|
    ensures forall i :: 0 <= i < |r.choices[0].toolCalls| ==> Ascending(keys)[i] == i + 1
  {
    hide Ascending;
    var n := |r.choices[0].toolCalls|;
    var listed := seq(n, i => i + 1);
    forall k: nat ensures k in listed <==> k in Ascending(keys) {
      if k in keys {
        assert listed[k - 1] == k;
      }
    }
    AscendingUnique(listed, Ascending(keys));
  }

  ghost predicate RejectsBlank(parse: string -> Option<Json>) {
    forall s :: Blank(s) ==> parse(s).None?
  }

  /**
   * Streaming refines non-streaming: for a parser that reads no value from blank text, any chunks delivering a
   * response leave the same text, calls and usage as the whole response if and only if no call has blank arguments.
   */
  lemma StreamingRefinesWholeResponse(parse: string -> Option<Json>, model: string, r: ChatResponse, chunks: seq<Chunk>)
    requires Delivers(r, chunks)
    ensures NormalizeResponse(parse, model, r).Ok?
    ensures !SomeBlank(r) ==>
              StreamReply(parse, Run(model, chunks).1) == ReplyOf(NormalizeResponse(parse, model, r).value)
    ensures RejectsBlank(parse) && SomeBlank(r) ==>
              StreamReply(parse, Run(model, chunks).1) != ReplyOf(NormalizeResponse(parse, model, r).value)
  {
    hide Run, StreamReply, ReplyOf, NormalizeResponse, ContentOf, LastBill, DeliversCall;
    NormalizedReply(parse, model, r);
    StreamedReply(parse, model, r, chunks);
    var whole, streamed := ReplyOf(NormalizeResponse(parse, model, r).value), StreamReply(parse, Run(model, chunks).1);
    if SomeBlank(r) {
      var i :| 0 <= i < |r.choices[0].toolCalls| && Blank(r.choices[0].toolCalls[i].arguments);
      if RejectsBlank(parse) {
        assert whole.calls[i].input == Raw(r.choices[0].toolCalls[i].arguments);
        assert streamed.calls[i].input == Object([]);
      }
    } else {
      assert whole.calls == streamed.calls;
    }
  }
}
