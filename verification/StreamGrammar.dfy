/** The grammar of whole streams: message frame, text block and tool blocks. */
module StreamGrammar {
  import opened Prelude
  import opened ChatStream
  import opened StreamLaws

  /** The text deltas of some events, joined. */
  function TextOf(log: seq<Event>): string {
    if log == [] then ""
    else
      var last := log[|log| - 1];
      TextOf(log[..|log| - 1]) + (if last.TextDelta? then last.text else "")
  }

  predicate Framing(e: Event) {
    e.MessageStart? || e.MessageDelta? || e.MessageStop?
  }

  /** Text block: one start, then deltas, then one stop. */
  predicate TextGrammar(es: seq<Event>) {
    es == [] ||
    (|es| >= 2 && es[0] == BlockStart(0, Text) && es[|es| - 1] == BlockStop(0)
     && forall k :: 1 <= k < |es| - 1 ==> es[k].TextDelta?)
  }

  /** Tool block: one start, which comes first, and one stop among the deltas. */
  predicate ToolGrammar(es: seq<Event>, b: U32) {
    es == [] ||
    (es[0].BlockStart? && es[0].block.ToolUse? && Stops(es) == 1
     && forall k :: 1 <= k < |es| ==> es[k].JsonDelta? || es[k].BlockStop?)
  }

  ghost predicate Grammar(log: seq<Event>) {
    && |log| >= 3
    && log[0].MessageStart? && log[|log| - 2].MessageDelta? && log[|log| - 1].MessageStop?
    && (forall k :: 1 <= k < |log| - 2 ==> !Framing(log[k]))
    && TextGrammar(BlockLog(log, 0))
    && (forall b: U32 :: 1 <= b ==> ToolGrammar(BlockLog(log, b), b))
  }

  lemma {:induction false} TextOfAppend(a: seq<Event>, c: seq<Event>)
    ensures TextOf(a + c) == TextOf(a) + TextOf(c)
  {
    if c == [] {
      assert a + c == a;
    } else {
      TextOfAppend(a, c[..|c| - 1]);
      assert (a + c)[..|a + c| - 1] == a + c[..|c| - 1];
    }
  }

  lemma {:induction false} NoText(log: seq<Event>)
    requires forall k :: 0 <= k < |log| ==> !log[k].TextDelta?
    ensures TextOf(log) == ""
  {
    if log != [] {
      NoText(log[..|log| - 1]);
    }
  }

  // ----- the message frame and the text block over every run

  ghost predicate TextLogged(es: seq<Event>, started: bool) {
    if !started then es == []
    else |es| > 0 && es[0] == BlockStart(0, Text) && forall k :: 1 <= k < |es| ==> es[k].TextDelta?
  }

  ghost predicate Framed(st: State, log: seq<Event>, actions: seq<Action>) {
    && st.messageStarted && !st.finished && !st.textFinished
    && |log| > 0 && log[0].MessageStart? && (forall k :: 1 <= k < |log| ==> !Framing(log[k]))
    && TextLogged(BlockLog(log, 0), st.textStarted)
    && TextOf(log) == ContentOf(actions)
    && st.usage == LastBill(actions)
  }

  /** What an action other than `Open` logs: tool events only, or the text block's start and delta. */
  lemma ActEvents(mid: State, a: Action)
    requires Steady(mid.tools) && Quiet(mid.tools) && mid.messageStarted
    requires Sends(a, LAST_INDEX) ==> a.fragment.name.None?
    ensures var (end, more) := Act(mid, a);
            && (if a.Say? then more == (if mid.textStarted then [] else [BlockStart(0, Text)]) + [TextDelta(0, a.text)]
                else OfTools(more))
            && end.messageStarted && end.finished == mid.finished && end.textFinished == mid.textFinished
            && end.textStarted == (mid.textStarted || a.Say?)
            && end.usage == if a.Bill? then Some(a.usage) else mid.usage
  {
    hide FeedTool, FlushTool, SweepAll, Digits;
    if a.Feed? {
      var tool := if a.fragment.index in mid.tools then mid.tools[a.fragment.index] else NEW_TOOL;
      FeedElsewhere(tool, a.fragment, a.closing, if a.fragment.index == 0 then 1 else 0);
    } else if a.Conclude? && a.reason == "tool_calls" {
      SweepAllBlocks(mid.tools, false, 0);
    }
  }

  lemma ToolEventsRead(log: seq<Event>)
    requires OfTools(log)
    ensures BlockLog(log, 0) == [] && TextOf(log) == ""
    ensures forall k :: 0 <= k < |log| ==> !Framing(log[k])
  {
    BlockLogNone(log, 0);
    NoText(log);
  }

  lemma SayRead(begin: seq<Event>, text: string)
    requires begin == [] || begin == [BlockStart(0, Text)]
    ensures BlockLog(begin + [TextDelta(0, text)], 0) == begin + [TextDelta(0, text)]
    ensures TextOf(begin + [TextDelta(0, text)]) == text
  {
    BlockLogAll(begin + [TextDelta(0, text)], 0);
    NoText(begin);
    assert (begin + [TextDelta(0, text)])[..|begin|] == begin;
  }

  lemma SayLogged(es: seq<Event>, started: bool, text: string)
    requires TextLogged(es, started)
    ensures TextLogged(es + ((if started then [] else [BlockStart(0, Text)]) + [TextDelta(0, text)]), true)
  {
  }

  lemma FramedStep(mid: State, log: seq<Event>, actions: seq<Action>, a: Action)
    requires Framed(mid, log, actions) && Steady(mid.tools) && Quiet(mid.tools)
    requires Sends(a, LAST_INDEX) ==> a.fragment.name.None?
    ensures Framed(Act(mid, a).0, log + Act(mid, a).1, actions + [a])
  {
    hide Act, BlockLog, TextOf, ContentOf, LastBill, Steady, Quiet, OfTools, TextLogged;
    var more := Act(mid, a).1;
    ActEvents(mid, a);
    ReadSnoc(actions, a, 0);
    BlockLogAppend(log, more, 0);
    TextOfAppend(log, more);
    if a.Say? {
      SayRead(if mid.textStarted then [] else [BlockStart(0, Text)], a.text);
      SayLogged(BlockLog(log, 0), mid.textStarted, a.text);
    } else {
      ToolEventsRead(more);
      assert BlockLog(log, 0) + [] == BlockLog(log, 0);
      assert TextOf(log) + "" == TextOf(log);
      assert ContentOf(actions) + "" == ContentOf(actions);
    }
  }

  lemma OpenFramed(model: string, a: Action)
    requires a.Open?
    ensures Framed(Act(Fresh(model), a).0, Act(Fresh(model), a).1, [a])
  {
    var log := Act(Fresh(model), a).1;
    BlockLogNone(log, 0);
    NoText(log);
    ReadSnoc([], a, 0);
    assert [] + [a] == [a];
  }

  ghost predicate Opened(actions: seq<Action>) {
    actions != [] && actions[0].Open?
  }

  lemma {:induction false} FramedInvariant(model: string, actions: seq<Action>)
    requires Opened(actions) && !NameSent(actions, LAST_INDEX)
    ensures Framed(Perform(Fresh(model), actions).0, Perform(Fresh(model), actions).1, actions)
  {
    hide Perform, Act, Framed, Steady, Quiet, NameSent;
    var front, last := actions[..|actions| - 1], actions[|actions| - 1];
    assert actions == front + [last];
    PerformSnoc(Fresh(model), front, last);
    ReadSnoc(front, last, LAST_INDEX);
    if front == [] {
      PerformNone(Fresh(model));
      OpenFramed(model, last);
      assert [] + Act(Fresh(model), last).1 == Act(Fresh(model), last).1;
    } else {
      FramedInvariant(model, front);
      StateInvariant(model, front);
      QuietExactly(model, front);
      FramedStep(Perform(Fresh(model), front).0, Perform(Fresh(model), front).1, front, last);
    }
  }

  // ----- chunks always open the message first

  lemma {:induction false} ChunksOpen(chunks: seq<Chunk>)
    requires chunks != []
    ensures Opened(Actions(chunks)) && Actions(chunks)[0] == Open(chunks[0].id, chunks[0].model)
  {
    hide ChoicesActions;
    if |chunks| == 1 {
      assert Actions(chunks[..0]) == [];
      assert Actions(chunks) == [] + ChunkActions(chunks[0]);
    } else {
      ChunksOpen(chunks[..|chunks| - 1]);
    }
  }

  // ----- the frame's contents

  /** The last finish reason sent. */
  function LastReason(actions: seq<Action>): Option<string> {
    if actions == [] then None
    else if actions[|actions| - 1].Conclude? then Some(actions[|actions| - 1].reason)
    else LastReason(actions[..|actions| - 1])
  }

  /** The reason a message ends with: that of its last finish reason, and the end of its turn without one. */
  function Ending(reason: Option<string>): string {
    if reason.None? || reason.value == "stop" then "end_turn"
    else if reason.value == "tool_calls" then "tool_use"
    else reason.value
  }

  /** The message frame: what opened it, and what its closing events will say. */
  ghost predicate FrameKept(model: string, st: State, log: seq<Event>, actions: seq<Action>) {
    && st.messageStarted && !st.textFinished && st.model == model
    && log != [] && actions != [] && actions[0].Open?
    && log[0] == MessageStart(actions[0].id, actions[0].model.GetOr(model))
    && st.usage == LastBill(actions) && st.stopReason.GetOr("end_turn") == Ending(LastReason(actions))
  }

  lemma FrameStep(model: string, st: State, log: seq<Event>, actions: seq<Action>, a: Action)
    requires FrameKept(model, st, log, actions)
    ensures FrameKept(model, Act(st, a).0, log + Act(st, a).1, actions + [a])
  {
    hide FeedTool, SweepAll, Digits;
    ReadSnoc(actions, a, 0);
    assert (actions + [a])[..|actions|] == actions;
  }

  lemma {:induction false} FrameInvariant(model: string, actions: seq<Action>)
    requires Opened(actions)
    ensures FrameKept(model, Perform(Fresh(model), actions).0, Perform(Fresh(model), actions).1, actions)
  {
    hide Perform, Act, FrameKept;
    var front, last := actions[..|actions| - 1], actions[|actions| - 1];
    assert actions == front + [last];
    PerformSnoc(Fresh(model), front, last);
    if front == [] {
      PerformNone(Fresh(model));
      FrameOpens(model, last);
      assert [] + Act(Fresh(model), last).1 == Act(Fresh(model), last).1;
    } else {
      FrameInvariant(model, front);
      FrameStep(model, Perform(Fresh(model), front).0, Perform(Fresh(model), front).1, front, last);
    }
  }

  lemma FrameOpens(model: string, a: Action)
    requires a.Open?
    ensures FrameKept(model, Act(Fresh(model), a).0, Act(Fresh(model), a).1, [a])
  {
    assert [a][..0] == [];
  }

  /**
   * Every finished stream of at least one chunk opens with the first chunk's id and model, and closes with the last
   * finish reason and the last usage sent.
   */
  lemma FrameMeans(model: string, chunks: seq<Chunk>)
    requires chunks != []
    ensures var log, actions := Run(model, chunks).1, Actions(chunks);
            && |log| >= 3
            && log[0] == MessageStart(chunks[0].id,
                                      if chunks[0].model.Some? then chunks[0].model.value else model)
            && log[|log| - 2] == MessageDelta(Ending(LastReason(actions)), LastBill(actions).GetOr(Usage(0, 0)))
            && log[|log| - 1] == MessageStop
  {
    hide Perform, Finish, Actions, SweepAll;
    ChunksOpen(chunks);
    FrameInvariant(model, Actions(chunks));
    StateInvariant(model, Actions(chunks));
    FinishEvents(Perform(Fresh(model), Actions(chunks)).0);
  }

  // ----- the end of the stream

  /** The log of one tool block once the stream is over. */
  lemma ToolAtEnd(model: string, actions: seq<Action>, i: U32)
    requires i != LAST_INDEX
    ensures var (st, log) := Perform(Fresh(model), actions);
            var es := BlockLog(log + Finish(st).1, BlockIndex(i));
            && ToolGrammar(es, BlockIndex(i))
            && (es != [] <==> NameSent(actions, i))
            && JsonText(es) == (if NameSent(actions, i) then ArgumentsOf(actions, i) else "")
            && (es != [] ==> (es[|es| - 1].BlockStop? <==> !Late(actions, i)))
            && (FirstFragment(actions, i).Some? ==> StartMatches(es, FirstFragment(actions, i).value))
            && StartIs(es, actions, i)
  {
    hide Perform, Late, BlockLog, SweepAll, Digits, FlushTool, ArgumentsOf, NameSent, StopSent;
    hide IdWhenNamed, FirstName, LastId;
    var (st, log) := Perform(Fresh(model), actions);
    var late := Late(actions, i);
    StateInvariant(model, actions);
    ToolInvariant(model, actions, i);
    StartInvariant(model, actions, i);
    SweepAllBlocks(st.tools, true, i);
    OnlyTheLastIndexWraps(i, i);
    FinishBlocks(st, BlockIndex(i));
    BlockLogAppend(log, Finish(st).1, BlockIndex(i));
    var es := BlockLog(log, BlockIndex(i));
    assert es + [] == es;
    NoJson();
    if i in st.tools {
      FlushKeepsLogged(es, st.tools[i], true, late);
      assert FlushTool(st.tools[i], true).1 != [] ==> Last(es + FlushTool(st.tools[i], true).1).BlockStop?;
    }
  }

  lemma NoJson()
    ensures JsonText([]) == ""
  {
  }

  function Last(es: seq<Event>): Event
    requires es != []
  {
    es[|es| - 1]
  }

  /** Of the closing events only the sweep speaks about tool blocks. */
  lemma FinishBlocks(st: State, b: U32)
    requires b != 0 && !st.finished
    ensures BlockLog(Finish(st).1, b) == BlockLog(SweepAll(st.tools, true).1, b)
  {
    hide SweepAll, BlockLog;
    var text := if st.textStarted && !st.textFinished then [BlockStop(0)] else [];
    var stops := SweepAll(st.tools, true).1;
    var closing := Finish(st).1[|text + stops|..];
    assert Finish(st).1 == text + stops + closing;
    BlockLogAppend(text + stops, closing, b);
    BlockLogAppend(text, stops, b);
    BlockLogNone(text, b);
    BlockLogNone(closing, b);
  }

  lemma TextAtEnd(st: State, log: seq<Event>, actions: seq<Action>)
    requires Framed(st, log, actions) && Steady(st.tools) && Quiet(st.tools)
    ensures var all := log + Finish(st).1;
            && TextGrammar(BlockLog(all, 0))
            && TextOf(all) == ContentOf(actions)
            && |all| >= 3 && all[0].MessageStart?
            && all[|all| - 2].MessageDelta? && all[|all| - 2].usage == LastBill(actions).GetOr(Usage(0, 0))
            && all[|all| - 1].MessageStop?
            && (forall k :: 1 <= k < |all| - 2 ==> !Framing(all[k]))
  {
    hide SweepAll, BlockLog, TextOf, ContentOf, LastBill, Finish, OfTools, Quiet, Steady;
    var text := if st.textStarted then [BlockStop(0)] else [];
    var stops := SweepAll(st.tools, true).1;
    var closing := [MessageDelta(st.stopReason.GetOr("end_turn"), st.usage.GetOr(Usage(0, 0))), MessageStop];
    SweepAllBlocks(st.tools, true, 0);
    FinishEvents(st);
    ToolEventsRead(stops);
    ClosingRead(log, text, stops, closing);
  }

  lemma FinishEvents(st: State)
    requires st.messageStarted && !st.finished && !st.textFinished
    ensures Finish(st).1 == (if st.textStarted then [BlockStop(0)] else []) + SweepAll(st.tools, true).1
                            + [MessageDelta(st.stopReason.GetOr("end_turn"), st.usage.GetOr(Usage(0, 0))), MessageStop]
  {
    hide SweepAll;
  }

  lemma ClosingRead(log: seq<Event>, text: seq<Event>, stops: seq<Event>, closing: seq<Event>)
    requires text == [] || text == [BlockStop(0)]
    requires BlockLog(stops, 0) == [] && TextOf(stops) == ""
    requires |closing| == 2 && closing[0].MessageDelta? && closing[1].MessageStop?
    ensures BlockLog(log + (text + stops + closing), 0) == BlockLog(log, 0) + text
    ensures TextOf(log + (text + stops + closing)) == TextOf(log)
  {
    hide BlockLog, TextOf;
    BlockLogNone(closing, 0);
    BlockLogAll(text, 0);
    NoText(text);
    NoText(closing);
    BlockLogAppend(log, text + stops + closing, 0);
    BlockLogAppend(text + stops, closing, 0);
    BlockLogAppend(text, stops, 0);
    TextOfAppend(log, text + stops + closing);
    TextOfAppend(text + stops, closing);
    TextOfAppend(text, stops);
  }

  // ----- a name under the last index breaks the text block

  ghost predicate StraysIntoText(e: Event) {
    e.BlockStart? && e.block.ToolUse? && e.index == 0
  }

  lemma NamedFeedStrays(mid: State, a: Action)
    requires Steady(mid.tools) && Quiet(mid.tools) && Sends(a, LAST_INDEX) && a.fragment.name.Some?
    ensures Act(mid, a).1 != [] && StraysIntoText(Act(mid, a).1[0])
  {
    hide Digits;
    OnlyTheLastIndexWraps(LAST_INDEX, LAST_INDEX);
  }

  lemma {:induction false} LastNameStrays(model: string, actions: seq<Action>)
    requires NameSent(actions, LAST_INDEX)
    ensures var log := Perform(Fresh(model), actions).1;
            exists k :: 0 <= k < |log| && StraysIntoText(log[k])
  {
    hide Perform, Act, Steady, Quiet, StraysIntoText;
    var front, last := actions[..|actions| - 1], actions[|actions| - 1];
    assert actions == front + [last];
    PerformSnoc(Fresh(model), front, last);
    ReadSnoc(front, last, LAST_INDEX);
    var (mid, log) := Perform(Fresh(model), front);
    var all := log + Act(mid, last).1;
    if NameSent(front, LAST_INDEX) {
      LastNameStrays(model, front);
      var k :| 0 <= k < |log| && StraysIntoText(log[k]);
      assert all[k] == log[k];
    } else {
      StateInvariant(model, front);
      QuietExactly(model, front);
      NamedFeedStrays(mid, last);
      assert all[|log|] == Act(mid, last).1[0];
    }
  }

  lemma StrayBreaksText(log: seq<Event>, k: nat)
    requires k < |log| && StraysIntoText(log[k])
    ensures !TextGrammar(BlockLog(log, 0))
  {
    hide BlockLog;
    var before, after := log[..k], log[k + 1..];
    assert log == before + [log[k]] + after;
    BlockLogAppend(before + [log[k]], after, 0);
    BlockLogAppend(before, [log[k]], 0);
    BlockLogAll([log[k]], 0);
    assert BlockLog(log, 0)[|BlockLog(before, 0)|] == log[k];
  }

  /** Any tool named under the largest index breaks the grammar: its block is the text block. */
  lemma LargestIndexBreaksTheGrammar(model: string, chunks: seq<Chunk>)
    requires NameSent(Actions(chunks), LAST_INDEX)
    ensures !Grammar(Run(model, chunks).1)
  {
    hide Perform, Actions, BlockLog, TextGrammar, Finish, StraysIntoText;
    var (st, log) := Perform(Fresh(model), Actions(chunks));
    LastNameStrays(model, Actions(chunks));
    var k :| 0 <= k < |log| && StraysIntoText(log[k]);
    assert (log + Finish(st).1)[k] == log[k];
    StrayBreaksText(log + Finish(st).1, k);
  }

  /**
   * A stream that delivers at least one chunk obeys the grammar if and only if it names no tool under the largest
   * index. Finishing twice adds nothing, and without chunks nothing is logged.
   */
  lemma StreamsFollowTheGrammar(model: string, chunks: seq<Chunk>)
    ensures chunks == [] ==> Run(model, chunks).1 == []
    ensures chunks != [] ==> (Grammar(Run(model, chunks).1) <==> !NameSent(Actions(chunks), LAST_INDEX))
    ensures Finish(Run(model, chunks).0).1 == []
  {
    hide Perform, Act, BlockLog, SweepAll, ContentOf, TextOf, NameSent, ToolGrammar, TextGrammar, Steady, Quiet;
    var actions := Actions(chunks);
    if chunks == [] {
      PerformNone(Fresh(model));
      SweepNothing();
    } else if NameSent(actions, LAST_INDEX) {
      LargestIndexBreaksTheGrammar(model, chunks);
    } else {
      ChunksOpen(chunks);
      FramedInvariant(model, actions);
      StateInvariant(model, actions);
      QuietExactly(model, actions);
      var (st, log) := Perform(Fresh(model), actions);
      TextAtEnd(st, log, actions);
      forall b: U32 | 1 <= b ensures ToolGrammar(BlockLog(log + Finish(st).1, b), b) {
        ToolGrammarAtEnd(model, actions, b);
      }
    }
  }

  lemma ToolGrammarAtEnd(model: string, actions: seq<Action>, b: U32)
    requires 1 <= b
    ensures var (st, log) := Perform(Fresh(model), actions); ToolGrammar(BlockLog(log + Finish(st).1, b), b)
  {
    hide Perform, BlockLog, Late, Finish, NameSent, ToolGrammar, JsonText, FirstFragment, StartMatches;
    ToolAtEnd(model, actions, b - 1);
  }

  lemma SweepNothing()
    ensures SweepAll(map[], true).1 == []
  {
    var none: map<U32, ToolCall> := map[];
    assert none.Keys == {};
    assert Ascending(none.Keys) == [];
  }

  /**
   * Tool arguments are neither lost nor invented: a block's input-JSON deltas join to exactly that index's
   * argument fragments once a name was sent, and there is no block otherwise. The stop is the block's last
   * event if and only if no argument text arrived after it.
   */
  lemma ArgumentsAreConserved(model: string, chunks: seq<Chunk>, i: U32)
    requires i != LAST_INDEX
    ensures var es := BlockLog(Run(model, chunks).1, BlockIndex(i));
            && (es != [] <==> NameSent(Actions(chunks), i))
            && JsonText(es) == (if NameSent(Actions(chunks), i) then ArgumentsOf(Actions(chunks), i) else "")
            && (es != [] ==> (Last(es).BlockStop? <==> !Late(Actions(chunks), i)))
            && StartIs(es, Actions(chunks), i)
  {
    hide Perform, Act, BlockLog, Late, Finish, ArgumentsOf, NameSent, StartIs;
    ToolAtEnd(model, Actions(chunks), i);
  }

  /**
   * After any actions a tool is started iff its name is known, and a started one has emitted all its arguments, so
   * `finish` never starts one late.
   */
  lemma NothingStartsLate(model: string, actions: seq<Action>, i: U32)
    requires i in Perform(Fresh(model), actions).0.tools
    ensures var t := Perform(Fresh(model), actions).0.tools[i];
            && (t.started <==> t.name.Some?) && (t.name.Some? <==> NameSent(actions, i))
            && (t.stopped <==> StopSent(actions, i))
            && t.arguments == ArgumentsOf(actions, i)
            && (t.started ==> t.emittedLen == |t.arguments|)
            && FlushTool(t, true) == FlushTool(t, false)
  {
    hide Perform, ArgumentsOf, NameSent, StopSent, FirstFragment, FlushTool;
    StateInvariant(model, actions);
    assert Holds(Perform(Fresh(model), actions).0.tools, actions, i);
    FlushState(Perform(Fresh(model), actions).0.tools[i], true);
  }
}
