/** What every stream of events satisfies: the block grammar and the conservation of tool arguments. */
module StreamLaws {
  import opened Prelude
  import opened ChatStream

  // ----- reading a log block by block

  function BlockLog(log: seq<Event>, b: U32): seq<Event> {
    if log == [] then []
    else
      var last := log[|log| - 1];
      BlockLog(log[..|log| - 1], b) + (if last.In(b) then [last] else [])
  }

  /** The input-JSON deltas of some events, joined. */
  function JsonText(log: seq<Event>): string {
    if log == [] then ""
    else
      var last := log[|log| - 1];
      JsonText(log[..|log| - 1]) + (if last.JsonDelta? then last.json else "")
  }

  function Stops(log: seq<Event>): nat {
    if log == [] then 0
    else Stops(log[..|log| - 1]) + (if log[|log| - 1].BlockStop? then 1 else 0)
  }

  lemma {:induction false} BlockLogAppend(a: seq<Event>, c: seq<Event>, b: U32)
    ensures BlockLog(a + c, b) == BlockLog(a, b) + BlockLog(c, b)
  {
    if c == [] {
      assert a + c == a;
    } else {
      BlockLogAppend(a, c[..|c| - 1], b);
      assert (a + c)[..|a + c| - 1] == a + c[..|c| - 1];
    }
  }

  lemma {:induction false} JsonTextAppend(a: seq<Event>, c: seq<Event>)
    ensures JsonText(a + c) == JsonText(a) + JsonText(c)
  {
    if c == [] {
      assert a + c == a;
    } else {
      JsonTextAppend(a, c[..|c| - 1]);
      assert (a + c)[..|a + c| - 1] == a + c[..|c| - 1];
    }
  }

  lemma {:induction false} StopsAppend(a: seq<Event>, c: seq<Event>)
    ensures Stops(a + c) == Stops(a) + Stops(c)
  {
    if c == [] {
      assert a + c == a;
    } else {
      StopsAppend(a, c[..|c| - 1]);
      assert (a + c)[..|a + c| - 1] == a + c[..|c| - 1];
    }
  }

  lemma {:induction false} BlockLogAll(log: seq<Event>, b: U32)
    requires forall k :: 0 <= k < |log| ==> log[k].In(b)
    ensures BlockLog(log, b) == log
  {
    if log != [] {
      BlockLogAll(log[..|log| - 1], b);
      assert log == log[..|log| - 1] + [log[|log| - 1]];
    }
  }

  lemma {:induction false} BlockLogNone(log: seq<Event>, b: U32)
    requires forall k :: 0 <= k < |log| ==> !log[k].In(b)
    ensures BlockLog(log, b) == []
  {
    if log != [] {
      BlockLogNone(log[..|log| - 1], b);
    }
  }

  // ----- reading the actions

  ghost predicate Sends(a: Action, i: U32) {
    a.Feed? && a.fragment.index == i
  }

  /** The argument fragments sent for tool `i`, in order, joined. */
  function ArgumentsOf(actions: seq<Action>, i: U32): string {
    if actions == [] then ""
    else
      var last := actions[|actions| - 1];
      ArgumentsOf(actions[..|actions| - 1], i)
      + (if last.Feed? && last.fragment.index == i then last.fragment.arguments.GetOr("") else "")
  }

  function FirstFragment(actions: seq<Action>, i: U32): Option<Fragment> {
    if actions == [] then None
    else
      var before := FirstFragment(actions[..|actions| - 1], i);
      var last := actions[|actions| - 1];
      if before.Some? then before
      else if last.Feed? && last.fragment.index == i then Some(last.fragment) else None
  }

  predicate NameSent(actions: seq<Action>, i: U32) {
    exists k ::
      0 <= k < |actions| && actions[k].Feed? && actions[k].fragment.index == i && actions[k].fragment.name.Some?
  }

  function ContentOf(actions: seq<Action>): string {
    if actions == [] then ""
    else
      var last := actions[|actions| - 1];
      ContentOf(actions[..|actions| - 1]) + (if last.Say? then last.text else "")
  }

  function LastBill(actions: seq<Action>): Option<Usage> {
    if actions == [] then None
    else if actions[|actions| - 1].Bill? then Some(actions[|actions| - 1].usage)
    else LastBill(actions[..|actions| - 1])
  }

  /** An action that stops tool `i` if that tool has a name by then. */
  predicate Closes(a: Action, i: U32) {
    (a.Conclude? && a.reason == "tool_calls") || (a.Feed? && a.fragment.index == i && a.closing)
  }

  /** Some closing action came when the name of tool `i` had been sent. */
  predicate StopSent(actions: seq<Action>, i: U32) {
    exists c :: 0 <= c < |actions| && Closes(actions[c], i) && NameSent(actions[..c + 1], i)
  }

  /** Some argument text for tool `i` is sent after that tool's stop. */
  predicate Late(actions: seq<Action>, i: U32) {
    exists k :: 0 <= k < |actions| && LateAt(actions, i, k)
  }

  predicate LateAt(actions: seq<Action>, i: U32, k: nat)
    requires k < |actions|
  {
    && actions[k].Feed? && actions[k].fragment.index == i
    && actions[k].fragment.arguments.GetOr("") != ""
    && StopSent(actions[..k], i)
  }

  // ----- the invariant of one tool block

  ghost predicate Opens(e: Event, b: U32) {
    e.BlockStart? && e.index == b && e.block.ToolUse?
  }

  ghost predicate Continues(e: Event, b: U32) {
    (e.JsonDelta? || e.BlockStop?) && e.index == b
  }

  /** `es` is what tool block `b` has logged so far, `t` its state, `late` whether text came after its stop. */
  ghost predicate Logged(es: seq<Event>, t: ToolCall, b: U32, late: bool) {
    && (t.started <==> t.name.Some?)
    && (t.stopped ==> t.started)
    && t.emittedLen <= |t.arguments|
    && (!t.started ==> es == [] && t.emittedLen == 0 && !late)
    && (t.started ==>
          && |es| > 0 && Opens(es[0], b) && (forall k :: 1 <= k < |es| ==> Continues(es[k], b))
          && t.emittedLen == |t.arguments|
          && JsonText(es) == t.arguments
          && Stops(es) == (if t.stopped then 1 else 0)
          && (t.stopped ==> (es[|es| - 1].BlockStop? <==> !late))
          && (!t.stopped ==> !late))
  }

  /** The last id sent for tool `i`. */
  function LastId(actions: seq<Action>, i: U32): Option<string> {
    if actions == [] then None
    else
      var last := actions[|actions| - 1];
      if last.Feed? && last.fragment.index == i && last.fragment.id.Some? then last.fragment.id
      else LastId(actions[..|actions| - 1], i)
  }

  /** The first name sent for tool `i`. */
  function FirstName(actions: seq<Action>, i: U32): Option<string> {
    if actions == [] then None
    else
      var before, last := FirstName(actions[..|actions| - 1], i), actions[|actions| - 1];
      if before.Some? then before
      else if last.Feed? && last.fragment.index == i then last.fragment.name
      else None
  }

  /** The last id sent for tool `i` up to the fragment that first named it. */
  function IdWhenNamed(actions: seq<Action>, i: U32): Option<string> {
    if actions == [] then None
    else if FirstName(actions[..|actions| - 1], i).Some? then IdWhenNamed(actions[..|actions| - 1], i)
    else LastId(actions, i)
  }

  /** A block starts with the first name, and the id known by then or one made up from the index. */
  ghost predicate StartIs(es: seq<Event>, actions: seq<Action>, i: U32) {
    es != [] ==>
      && FirstName(actions, i).Some?
      && es[0] == BlockStart(BlockIndex(i), ToolUse(IdWhenNamed(actions, i).GetOr("tool_call_" + Digits(i)),
                                                    FirstName(actions, i).value))
  }

  lemma NameSnoc(actions: seq<Action>, a: Action, i: U32)
    ensures LastId(actions + [a], i)
            == if Sends(a, i) && a.fragment.id.Some? then a.fragment.id else LastId(actions, i)
    ensures FirstName(actions + [a], i)
            == if FirstName(actions, i).Some? || !Sends(a, i) then FirstName(actions, i) else a.fragment.name
    ensures IdWhenNamed(actions + [a], i)
            == if FirstName(actions, i).Some? then IdWhenNamed(actions, i) else LastId(actions + [a], i)
  {
    assert (actions + [a])[..|actions|] == actions;
  }

  /** The state of tool `i` says exactly what was sent for it; a started tool has emitted all its arguments. */
  ghost predicate Kept(t: ToolCall, actions: seq<Action>, i: U32) {
    && t.index == i && t.arguments == ArgumentsOf(actions, i)
    && (t.name.Some? <==> NameSent(actions, i)) && (t.name.Some? <==> FirstName(actions, i).Some?)
    && t.id == LastId(actions, i)
    && (t.started <==> t.name.Some?)
    && (t.stopped <==> StopSent(actions, i))
    && t.emittedLen == if t.started then |t.arguments| else 0
  }

  ghost predicate Unsent(actions: seq<Action>, i: U32) {
    && ArgumentsOf(actions, i) == "" && FirstFragment(actions, i).None? && !NameSent(actions, i)
    && !StopSent(actions, i) && LastId(actions, i).None? && FirstName(actions, i).None?
  }

  ghost predicate Holds(tools: map<U32, ToolCall>, actions: seq<Action>, i: U32) {
    if i in tools then Kept(tools[i], actions, i) else Unsent(actions, i)
  }

  ghost predicate Tracks(t: ToolCall, es: seq<Event>, actions: seq<Action>, i: U32, late: bool) {
    && Logged(es, t, BlockIndex(i), late)
    && FirstFragment(actions, i).Some?
    && StartMatches(es, FirstFragment(actions, i).value)
  }

  ghost predicate ToolInv(model: string, actions: seq<Action>, i: U32) {
    var (st, log) := Perform(Fresh(model), actions);
    var es := BlockLog(log, BlockIndex(i));
    && Holds(st.tools, actions, i)
    && (i in st.tools ==> Tracks(st.tools[i], es, actions, i, Late(actions, i)))
    && (i !in st.tools ==> es == [] && !Late(actions, i))
  }

  /** A first fragment with a whole id and name fixes the start event, whatever comes later. */
  ghost predicate StartMatches(es: seq<Event>, f: Fragment) {
    f.id.Some? && f.name.Some? ==> |es| > 0 && es[0].BlockStart? && es[0].block == ToolUse(f.id.value, f.name.value)
  }

  lemma LateSnoc(actions: seq<Action>, a: Action, i: U32)
    ensures Late(actions + [a], i) <==>
            Late(actions, i) || (Sends(a, i) && a.fragment.arguments.GetOr("") != "" && StopSent(actions, i))
  {
    hide StopSent;
    var all := actions + [a];
    assert all[..|actions|] == actions && all[|actions|] == a;
    assert forall k :: 0 <= k < |actions| ==> all[..k] == actions[..k] && all[k] == actions[k];
    if Late(actions, i) {
      var k :| 0 <= k < |actions| && LateAt(actions, i, k);
      assert LateAt(all, i, k);
    }
    if Late(all, i) {
      var k :| 0 <= k < |all| && LateAt(all, i, k);
      assert k < |actions| ==> LateAt(actions, i, k);
    } else {
      assert !LateAt(all, i, |actions|);
    }
  }

  lemma StopSnoc(actions: seq<Action>, a: Action, i: U32)
    ensures StopSent(actions + [a], i) <==> StopSent(actions, i) || (Closes(a, i) && NameSent(actions + [a], i))
  {
    hide NameSent, Closes;
    var all := actions + [a];
    assert all[..|all|] == all && all[|actions|] == a;
    assert forall c :: 0 <= c < |actions| ==> all[..c + 1] == actions[..c + 1] && all[c] == actions[c];
    if StopSent(actions, i) {
      var c :| 0 <= c < |actions| && Closes(actions[c], i) && NameSent(actions[..c + 1], i);
      assert Closes(all[c], i) && NameSent(all[..c + 1], i);
    }
  }

  lemma StopNeedsName(actions: seq<Action>, i: U32)
    ensures StopSent(actions, i) ==> NameSent(actions, i)
  {
    if StopSent(actions, i) {
      var c :| 0 <= c < |actions| && Closes(actions[c], i) && NameSent(actions[..c + 1], i);
    }
  }

  lemma ReadSnoc(actions: seq<Action>, a: Action, i: U32)
    ensures ArgumentsOf(actions + [a], i)
            == ArgumentsOf(actions, i) + (if Sends(a, i) then a.fragment.arguments.GetOr("") else "")
    ensures FirstFragment(actions + [a], i)
            == if FirstFragment(actions, i).Some? || !Sends(a, i) then FirstFragment(actions, i) else Some(a.fragment)
    ensures NameSent(actions + [a], i) <==> NameSent(actions, i) || (Sends(a, i) && a.fragment.name.Some?)
    ensures ContentOf(actions + [a]) == ContentOf(actions) + (if a.Say? then a.text else "")
    ensures LastBill(actions + [a]) == if a.Bill? then Some(a.usage) else LastBill(actions)
  {
    var all := actions + [a];
    assert all[..|all| - 1] == actions;
    assert forall k :: 0 <= k < |actions| ==> all[k] == actions[k];
    assert all[|actions|] == a;
  }

  lemma ReadOne(e: Event)
    ensures JsonText([e]) == if e.JsonDelta? then e.json else ""
    ensures Stops([e]) == if e.BlockStop? then 1 else 0
    ensures JsonText([]) == "" && Stops([]) == 0
  {
    assert [e][..0] == [];
  }

  /** What one fragment logs: an opening iff the block had none, the unsent text, at most one stop. */
  lemma FeedReads(tool: ToolCall, f: Fragment, closing: bool, begin: seq<Event>, closed: seq<Event>)
    requires tool.emittedLen <= |tool.arguments|
    requires var u := tool.Apply(f);
             && (u.started || u.name.Some?)
             && begin == (if u.started then [] else [u.StartEvent().value])
             && closed == (if closing && !u.stopped then [BlockStop(BlockIndex(u.index))] else [])
    ensures var u := tool.Apply(f);
            var more := FeedTool(tool, f, closing).1;
            && more == begin + u.Pending() + closed
            && JsonText(more) == u.arguments[u.emittedLen..]
            && Stops(more) == |closed|
  {
    hide Digits, BlockIndex, JsonText, Stops;
    var u := tool.Apply(f);
    ReadThree(begin, u.Pending(), closed);
    ReadOne(if begin != [] then begin[0] else MessageStop);
    ReadOne(BlockStop(BlockIndex(u.index)));
    ReadOne(JsonDelta(BlockIndex(u.index), u.arguments[u.emittedLen..]));
  }

  lemma ReadThree(a: seq<Event>, b: seq<Event>, c: seq<Event>)
    ensures JsonText(a + b + c) == JsonText(a) + JsonText(b) + JsonText(c)
    ensures Stops(a + b + c) == Stops(a) + Stops(b) + Stops(c)
  {
    hide JsonText, Stops;
    JsonTextAppend(a + b, c);
    JsonTextAppend(a, b);
    StopsAppend(a + b, c);
    StopsAppend(a, b);
  }

  /** The events of one fragment all belong to its block and extend the block's log as `Logged` wants. */
  lemma FeedKeepsLogged(es: seq<Event>, tool: ToolCall, f: Fragment, closing: bool, late: bool)
    requires Logged(es, tool, BlockIndex(f.index), late)
    ensures Logged(es + FeedTool(tool, f, closing).1, FeedTool(tool, f, closing).0, BlockIndex(f.index),
                   late || (tool.stopped && f.arguments.GetOr("") != ""))
  {
    hide Digits, FeedTool, BlockIndex, JsonText, Stops;
    ReadOne(MessageStop);
    var more := FeedTool(tool, f, closing).1;
    var u := tool.Apply(f);
    FeedState(tool, f, closing);
    if u.started || u.name.Some? {
      var begin := if u.started then [] else [u.StartEvent().value];
      var closed := if closing && !u.stopped then [BlockStop(BlockIndex(u.index))] else [];
      FeedReads(tool, f, closing, begin, closed);
      JsonTextAppend(es, more);
      StopsAppend(es, more);
      assert more == [] ==> es + more == es;
    }
  }

  lemma FeedState(tool: ToolCall, f: Fragment, closing: bool)
    requires tool.emittedLen <= |tool.arguments|
    ensures var t := FeedTool(tool, f, closing).0;
            && t.index == f.index && t.arguments == tool.arguments + f.arguments.GetOr("")
            && t.id == tool.Apply(f).id && t.name == tool.Apply(f).name
            && t.started == (tool.started || t.name.Some?)
            && t.stopped == (tool.stopped || (closing && t.started))
            && t.emittedLen == if t.started then |t.arguments| else tool.emittedLen
    ensures !tool.started && tool.Apply(f).name.None? ==> FeedTool(tool, f, closing).1 == []
  {
    hide Digits;
  }

  // ----- sweeps touch every tool block once

  /** Nothing is left to start late, and a stop goes to the tool's own block. */
  lemma FlushKeepsLogged(es: seq<Event>, t: ToolCall, late: bool, tardy: bool)
    requires Logged(es, t, BlockIndex(t.index), tardy)
    ensures FlushTool(t, late) == (t.(stopped := t.started),
                                   if t.started && !t.stopped then [BlockStop(BlockIndex(t.index))] else [])
    ensures Logged(es + FlushTool(t, late).1, FlushTool(t, late).0, BlockIndex(t.index), tardy)
  {
    hide Digits, BlockIndex;
    var more := FlushTool(t, late).1;
    JsonTextAppend(es, more);
    StopsAppend(es, more);
    ReadOne(BlockStop(BlockIndex(t.index)));
    assert more == [] ==> es + more == es;
  }

  ghost predicate Steady(tools: map<U32, ToolCall>) {
    forall k :: k in tools ==>
      && tools[k].index == k
      && (tools[k].started <==> tools[k].name.Some?)
      && (tools[k].stopped ==> tools[k].started)
  }

  /** The index whose block wraps onto the text block. */
  const LAST_INDEX: U32 := U32_LIMIT - 1

  /** No tool under the last index has a name. */
  ghost predicate Quiet(tools: map<U32, ToolCall>) {
    LAST_INDEX in tools ==> tools[LAST_INDEX].name.None?
  }

  /** Events of tool blocks only: they leave the text block and the message frame alone. */
  ghost predicate OfTools(log: seq<Event>) {
    forall k :: 0 <= k < |log| ==>
      (log[k].JsonDelta? || log[k].BlockStop? || (log[k].BlockStart? && log[k].block.ToolUse?)) && log[k].index != 0
  }

  /** Events of one tool block. */
  ghost predicate OfBlock(log: seq<Event>, b: U32) {
    forall k :: 0 <= k < |log| ==>
      (log[k].JsonDelta? || log[k].BlockStop? || (log[k].BlockStart? && log[k].block.ToolUse?)) && log[k].index == b
  }

  lemma OfBlockReads(log: seq<Event>, b: U32, other: U32)
    requires OfBlock(log, b)
    ensures b != 0 ==> OfTools(log)
    ensures BlockLog(log, other) == if other == b then log else []
  {
    if other == b {
      BlockLogAll(log, b);
    } else {
      BlockLogNone(log, other);
    }
  }

  lemma OfBlockAppend(x: seq<Event>, y: seq<Event>, b: U32)
    requires OfBlock(x, b) && OfBlock(y, b)
    ensures OfBlock(x + y, b)
  {
  }

  lemma ToolEvents(t: ToolCall)
    ensures OfBlock([], BlockIndex(t.index)) && OfBlock(t.Pending(), BlockIndex(t.index))
    ensures t.name.Some? ==> t.StartEvent().Some? && OfBlock([t.StartEvent().value], BlockIndex(t.index))
    ensures OfBlock([BlockStop(BlockIndex(t.index))], BlockIndex(t.index))
  {
    hide Digits, BlockIndex;
  }

  lemma FlushIsOfBlock(t: ToolCall, late: bool)
    ensures OfBlock(FlushTool(t, late).1, BlockIndex(t.index))
  {
    hide BlockIndex, OfBlock, ToolCall.Pending, ToolCall.StartEvent;
    ToolEvents(t);
    var b := BlockIndex(t.index);
    var stop := [BlockStop(b)];
    if t.name.Some? {
      var begin := [t.StartEvent().value] + t.Pending();
      OfBlockAppend([t.StartEvent().value], t.Pending(), b);
      OfBlockAppend(begin, stop, b);
    }
    assert [] + stop == stop;
  }

  lemma FeedIsOfBlock(tool: ToolCall, f: Fragment, closing: bool)
    requires tool.started ==> tool.name.Some?
    ensures OfBlock(FeedTool(tool, f, closing).1, BlockIndex(f.index))
  {
    hide BlockIndex, OfBlock, ToolCall.Pending, ToolCall.StartEvent;
    var t := tool.Apply(f);
    ToolEvents(t);
    var b := BlockIndex(f.index);
    var begin := if t.started || t.name.None? then [] else [t.StartEvent().value];
    var closed := if closing && !t.stopped then [BlockStop(b)] else [];
    OfBlockAppend(begin, t.Pending(), b);
    OfBlockAppend(begin + t.Pending(), closed, b);
  }

  /** The 32-bit wrap: only the largest tool index lands on the text block. */
  lemma OnlyTheLastIndexWraps(i: U32, j: U32)
    ensures BlockIndex(i) == 0 <==> i == LAST_INDEX
    ensures BlockIndex(i) == BlockIndex(j) <==> i == j
  {
  }

  lemma FlushBlock(t: ToolCall, late: bool, i: U32)
    requires t.started <==> t.name.Some?
    ensures t.index != LAST_INDEX || t.name.None? ==> OfTools(FlushTool(t, late).1)
    ensures BlockLog(FlushTool(t, late).1, BlockIndex(i)) == if i == t.index then FlushTool(t, late).1 else []
  {
    hide OfBlock, OfTools, BlockIndex;
    FlushIsOfBlock(t, late);
    OnlyTheLastIndexWraps(t.index, i);
    OfBlockReads(FlushTool(t, late).1, BlockIndex(t.index), BlockIndex(i));
    NoToolEvents();
  }

  lemma NoToolEvents()
    ensures OfTools([])
  {
  }

  lemma {:induction false} SweepBlocks(tools: map<U32, ToolCall>, keys: seq<nat>, late: bool, i: U32)
    requires Steady(tools) && Ascends(keys)
    requires forall j :: 0 <= j < |keys| ==> keys[j] in tools
    ensures var (m, events) := Sweep(tools, keys, late);
            && m.Keys == tools.Keys && (Quiet(tools) ==> OfTools(events))
            && (i in tools ==> m[i] == if i in keys then FlushTool(tools[i], late).0 else tools[i])
            && BlockLog(events, BlockIndex(i)) == if i in keys then FlushTool(tools[i], late).1 else []
  {
    hide Digits, FlushTool, BlockIndex, Sweep, BlockLog;
    SweepNone(tools, late);
    if keys == [] {
      BlockLogNone([], BlockIndex(i));
    } else {
      var front, last := keys[..|keys| - 1], keys[|keys| - 1];
      SweepBlocks(tools, front, late, i);
      SweepStep(tools, keys, |front|, late);
      assert keys[..|front| + 1] == keys;
      FlushBlock(tools[last], late, i);
      BlockLogAppend(Sweep(tools, front, late).1, FlushTool(tools[last], late).1, BlockIndex(i));
      assert keys == front + [last];
      assert i in keys <==> i in front || i == last;
      assert last !in front by {
        assert forall j :: 0 <= j < |front| ==> front[j] == keys[j] < last;
      }
    }
  }

  lemma SweepAllBlocks(tools: map<U32, ToolCall>, late: bool, i: U32)
    requires Steady(tools)
    ensures var (m, events) := SweepAll(tools, late);
            && m.Keys == tools.Keys && (Quiet(tools) ==> OfTools(events))
            && (i in tools ==> m[i] == FlushTool(tools[i], late).0)
            && BlockLog(events, BlockIndex(i)) == if i in tools then FlushTool(tools[i], late).1 else []
  {
    hide Sweep, FlushTool;
    var keys := Ascending(tools.Keys);
    assert i in keys <==> i in tools;
    SweepBlocks(tools, keys, late, i);
  }

  // ----- the state of every tool, over every run

  lemma FlushState(t: ToolCall, late: bool)
    requires (t.started <==> t.name.Some?) && (t.stopped ==> t.started)
    ensures FlushTool(t, late).0 == t.(stopped := t.started)
    ensures FlushTool(t, late) == FlushTool(t, false)
  {
    hide Digits;
  }

  /** What an action leaves of tool `i`. */
  lemma ActTool(mid: State, a: Action, i: U32)
    requires Steady(mid.tools)
    ensures var end := Act(mid, a).0;
            && end.finished == mid.finished
            && (a.Feed? && a.fragment.index == i ==>
                  && i in end.tools
                  && end.tools[i]
                     == FeedTool(if i in mid.tools then mid.tools[i] else NEW_TOOL, a.fragment, a.closing).0)
            && (!(a.Feed? && a.fragment.index == i) ==>
                  && (i in end.tools <==> i in mid.tools)
                  && (i in mid.tools ==>
                        end.tools[i] == if Closes(a, i) then mid.tools[i].(stopped := mid.tools[i].started)
                                        else mid.tools[i]))
  {
    hide FeedTool, FlushTool, SweepAll;
    if a.Conclude? && a.reason == "tool_calls" {
      SweepAllBlocks(mid.tools, false, i);
      if i in mid.tools {
        FlushState(mid.tools[i], false);
      }
    }
  }

  lemma StateStep(mid: State, actions: seq<Action>, a: Action, i: U32)
    requires Steady(mid.tools) && Holds(mid.tools, actions, i)
    ensures Holds(Act(mid, a).0.tools, actions + [a], i)
  {
    hide Act, FeedTool, ArgumentsOf, FirstFragment, NameSent, StopSent, LastId, FirstName;
    ActTool(mid, a, i);
    ReadSnoc(actions, a, i);
    NameSnoc(actions, a, i);
    StopSnoc(actions, a, i);
    StopNeedsName(actions, i);
    if Sends(a, i) {
      FeedState(if i in mid.tools then mid.tools[i] else NEW_TOOL, a.fragment, a.closing);
    }
  }

  lemma SteadyTools(tools: map<U32, ToolCall>, actions: seq<Action>)
    requires forall i: U32 :: Holds(tools, actions, i)
    ensures Steady(tools)
  {
    hide ArgumentsOf, FirstFragment, NameSent, StopSent, LastId, FirstName;
    forall k | k in tools
      ensures tools[k].index == k && (tools[k].started <==> tools[k].name.Some?)
      ensures tools[k].stopped ==> tools[k].started
    {
      assert Holds(tools, actions, k);
      StopNeedsName(actions, k);
    }
  }

  /** After any actions every tool's state is a function of what was sent under its index, the largest included. */
  lemma {:induction false} StateInvariant(model: string, actions: seq<Action>)
    ensures forall i: U32 :: Holds(Perform(Fresh(model), actions).0.tools, actions, i)
    ensures Steady(Perform(Fresh(model), actions).0.tools)
    ensures !Perform(Fresh(model), actions).0.finished
  {
    hide Perform, Act, Holds, Steady;
    if actions == [] {
      PerformNone(Fresh(model));
      forall i: U32 ensures Holds(Fresh(model).tools, [], i) {
        NothingSent(i);
      }
    } else {
      var front, last := actions[..|actions| - 1], actions[|actions| - 1];
      StateInvariant(model, front);
      PerformSnoc(Fresh(model), front, last);
      assert actions == front + [last];
      var mid := Perform(Fresh(model), front).0;
      forall i: U32 ensures Holds(Act(mid, last).0.tools, actions, i) {
        StateStep(mid, front, last, i);
      }
      ActTool(mid, last, 0);
    }
    SteadyTools(Perform(Fresh(model), actions).0.tools, actions);
  }

  lemma NothingSent(i: U32)
    ensures Holds(map[], [], i)
  {
  }

  lemma QuietExactly(model: string, actions: seq<Action>)
    ensures Quiet(Perform(Fresh(model), actions).0.tools) <==> !NameSent(actions, LAST_INDEX)
  {
    hide Perform, ArgumentsOf, FirstFragment, NameSent, StopSent;
    StateInvariant(model, actions);
    assert Holds(Perform(Fresh(model), actions).0.tools, actions, LAST_INDEX);
  }

  // ----- the log of every tool block, over every run

  /** One more action keeps the invariant of tool `i`. */
  lemma ToolStep(model: string, actions: seq<Action>, a: Action, i: U32)
    requires i != LAST_INDEX && ToolInv(model, actions, i)
    ensures ToolInv(model, actions + [a], i)
  {
    hide Perform, Act, BlockLog, BlockIndex, Tracks, Late, Holds;
    var (mid, log) := Perform(Fresh(model), actions);
    var es, late := BlockLog(log, BlockIndex(i)), Late(actions, i);
    StateInvariant(model, actions);
    StateStep(mid, actions, a, i);
    PerformSnoc(Fresh(model), actions, a);
    BlockLogAppend(log, Act(mid, a).1, BlockIndex(i));
    LateSnoc(actions, a, i);
    StopKnown(mid.tools, actions, i);
    if Sends(a, i) {
      ToolFed(mid, a, i, es, actions, late);
    } else {
      ToolPassed(mid, a, i, es, actions, late);
    }
  }

  lemma StopKnown(tools: map<U32, ToolCall>, actions: seq<Action>, i: U32)
    requires Holds(tools, actions, i)
    ensures StopSent(actions, i) <==> i in tools && tools[i].stopped
    ensures i !in tools ==> FirstFragment(actions, i).None?
  {
  }

  lemma ToolPassed(mid: State, a: Action, i: U32, es: seq<Event>, actions: seq<Action>, late: bool)
    requires i != LAST_INDEX && !Sends(a, i) && Steady(mid.tools)
    requires i in mid.tools ==> Tracks(mid.tools[i], es, actions, i, late)
    ensures var (end, more) := Act(mid, a);
            && (i in end.tools <==> i in mid.tools)
            && (i in mid.tools ==> Tracks(end.tools[i], es + BlockLog(more, BlockIndex(i)), actions + [a], i, late))
            && (i !in mid.tools ==> BlockLog(more, BlockIndex(i)) == [])
  {
    hide FeedTool, FlushTool, SweepAll, Digits, Logged, BlockIndex, BlockLog;
    ReadSnoc(actions, a, i);
    assert es + [] == es;
    if a.Feed? {
      var tool := if a.fragment.index in mid.tools then mid.tools[a.fragment.index] else NEW_TOOL;
      FeedElsewhere(tool, a.fragment, a.closing, i);
    } else if a.Conclude? && a.reason == "tool_calls" {
      SweepAllBlocks(mid.tools, false, i);
      if i in mid.tools {
        FlushKeepsLogged(es, mid.tools[i], false, late);
        assert es != [] ==> (es + FlushTool(mid.tools[i], false).1)[0] == es[0];
      }
    } else {
      OtherEvents(mid, a, i);
    }
  }

  lemma OtherEvents(mid: State, a: Action, i: U32)
    requires i != LAST_INDEX && !a.Feed? && !(a.Conclude? && a.reason == "tool_calls")
    ensures BlockLog(Act(mid, a).1, BlockIndex(i)) == [] && Act(mid, a).0.tools == mid.tools
  {
    BlockLogNone(Act(mid, a).1, BlockIndex(i));
  }

  lemma FeedElsewhere(tool: ToolCall, f: Fragment, closing: bool, i: U32)
    requires f.index != i && (tool.started ==> tool.name.Some?)
    ensures BlockLog(FeedTool(tool, f, closing).1, BlockIndex(i)) == []
    ensures f.index != LAST_INDEX || tool.Apply(f).name.None? ==> OfTools(FeedTool(tool, f, closing).1)
  {
    hide OfTools, OfBlock, BlockIndex, ToolCall.Pending, ToolCall.StartEvent;
    FeedIsOfBlock(tool, f, closing);
    OnlyTheLastIndexWraps(f.index, i);
    OfBlockReads(FeedTool(tool, f, closing).1, BlockIndex(f.index), BlockIndex(i));
    NoToolEvents();
  }

  lemma ToolFed(mid: State, a: Action, i: U32, es: seq<Event>, actions: seq<Action>, late: bool)
    requires Sends(a, i)
    requires i in mid.tools ==> Tracks(mid.tools[i], es, actions, i, late)
    requires i !in mid.tools ==> es == [] && !late && FirstFragment(actions, i).None?
    ensures var (end, more) := Act(mid, a);
            && i in end.tools
            && Tracks(end.tools[i], es + BlockLog(more, BlockIndex(i)), actions + [a], i,
                      late || (i in mid.tools && mid.tools[i].stopped && a.fragment.arguments.GetOr("") != ""))
  {
    hide Digits, FeedTool, Logged, BlockIndex, BlockLog;
    var tool := if i in mid.tools then mid.tools[i] else NEW_TOOL;
    ReadSnoc(actions, a, i);
    NewToolLogged(BlockIndex(i));
    FeedKeepsLogged(es, tool, a.fragment, a.closing, late);
    LoggedLength(es, tool, BlockIndex(i), late);
    FeedState(tool, a.fragment, a.closing);
    FeedIsOfBlock(tool, a.fragment, a.closing);
    OfBlockReads(FeedTool(tool, a.fragment, a.closing).1, BlockIndex(i), BlockIndex(i));
    FirstStart(es, tool, a.fragment, a.closing, BlockIndex(i), late);
  }

  lemma LoggedLength(es: seq<Event>, t: ToolCall, b: U32, late: bool)
    requires Logged(es, t, b, late)
    ensures t.emittedLen <= |t.arguments| && (t.started <==> t.name.Some?) && (es != [] <==> t.started)
  {
  }

  lemma NewToolLogged(b: U32)
    ensures Logged([], NEW_TOOL, b, false)
  {
  }

  /** The start event carries the first fragment's id and name when that fragment has both. */
  lemma FirstStart(es: seq<Event>, tool: ToolCall, f: Fragment, closing: bool, b: U32, late: bool)
    requires Logged(es, tool, b, late)
    ensures var more := FeedTool(tool, f, closing).1;
            && (es == [] && f.id.Some? && f.name.Some? ==> StartMatches(es + more, f))
            && (es != [] ==> (es + more)[0] == es[0])
  {
    hide Digits;
  }

  lemma {:induction false} ToolInvariant(model: string, actions: seq<Action>, i: U32)
    requires i != LAST_INDEX
    ensures ToolInv(model, actions, i)
  {
    if actions != [] {
      var front, last := actions[..|actions| - 1], actions[|actions| - 1];
      ToolInvariant(model, front, i);
      assert actions == front + [last];
      ToolStep(model, front, last, i);
    }
  }

  // ----- what a block's start says, over every run

  lemma FedStart(tool: ToolCall, f: Fragment, closing: bool)
    requires !tool.started && tool.name.None?
    ensures var (t, more) := FeedTool(tool, f, closing);
            && (more != [] <==> f.name.Some?)
            && (more != [] ==>
                  more[0] == BlockStart(BlockIndex(f.index),
                                        ToolUse(t.id.GetOr("tool_call_" + Digits(f.index)), f.name.value)))
  {
    hide Digits, BlockIndex;
  }

  /** The start of every tool block: the first name sent, and the last id sent by then or one made from the index. */
  lemma {:induction false} StartInvariant(model: string, actions: seq<Action>, i: U32)
    requires i != LAST_INDEX
    ensures StartIs(BlockLog(Perform(Fresh(model), actions).1, BlockIndex(i)), actions, i)
  {
    hide Perform, BlockLog, ToolInv, StartIs;
    ToolInvariant(model, actions, i);
    if actions == [] {
      PerformNone(Fresh(model));
      BlockLogNone([], BlockIndex(i));
      NoStart(i);
    } else {
      var front, a := actions[..|actions| - 1], actions[|actions| - 1];
      StartInvariant(model, front, i);
      ToolInvariant(model, front, i);
      assert actions == front + [a];
      PerformSnoc(Fresh(model), front, a);
      var (mid, log) := Perform(Fresh(model), front);
      BlockLogAppend(log, Act(mid, a).1, BlockIndex(i));
      StartStep(model, front, a, i);
    }
  }

  lemma NoStart(i: U32)
    ensures StartIs([], [], i)
  {
  }

  lemma StartStep(model: string, front: seq<Action>, a: Action, i: U32)
    requires i != LAST_INDEX && ToolInv(model, front, i) && ToolInv(model, front + [a], i)
    requires StartIs(BlockLog(Perform(Fresh(model), front).1, BlockIndex(i)), front, i)
    ensures var (mid, log) := Perform(Fresh(model), front);
            StartIs(BlockLog(log, BlockIndex(i)) + BlockLog(Act(mid, a).1, BlockIndex(i)), front + [a], i)
  {
    hide Perform, Act, BlockLog, Digits, LastId, FirstName, IdWhenNamed, ArgumentsOf, FirstFragment, NameSent, StopSent;
    hide Late, BlockIndex, JsonText, Stops, FeedTool;
    var (mid, log) := Perform(Fresh(model), front);
    var es, more := BlockLog(log, BlockIndex(i)), BlockLog(Act(mid, a).1, BlockIndex(i));
    PerformSnoc(Fresh(model), front, a);
    BlockLogAppend(log, Act(mid, a).1, BlockIndex(i));
    NameSnoc(front, a, i);
    ReadSnoc(front, a, i);
    if es != [] {
      assert (es + more)[0] == es[0];
    } else if Sends(a, i) {
      var tool := if i in mid.tools then mid.tools[i] else NEW_TOOL;
      FedStart(tool, a.fragment, a.closing);
      FeedState(tool, a.fragment, a.closing);
      FedLog(mid, a, i);
      assert es + more == more;
    }
  }

  lemma FedLog(mid: State, a: Action, i: U32)
    requires Sends(a, i)
    requires var tool := if i in mid.tools then mid.tools[i] else NEW_TOOL; tool.started ==> tool.name.Some?
    ensures var tool := if i in mid.tools then mid.tools[i] else NEW_TOOL;
            BlockLog(Act(mid, a).1, BlockIndex(i)) == FeedTool(tool, a.fragment, a.closing).1
  {
    hide FeedTool, OfBlock;
    var tool := if i in mid.tools then mid.tools[i] else NEW_TOOL;
    FeedIsOfBlock(tool, a.fragment, a.closing);
    OfBlockReads(FeedTool(tool, a.fragment, a.closing).1, BlockIndex(i), BlockIndex(i));
  }
}
