/** Sessions and the two turn loops of the terminal client. */
module SessionTurns {
  import opened Prelude
  import opened Permissions
  import opened ChatStream
  import opened Framing
  import opened StreamRefinement
  import opened SolarStream
  import opened ToolPairing

  // ----- permissions

  datatype Outcome = Allow | Deny(reason: string)

  datatype Policy = Policy(active: Mode, requirements: seq<(string, Mode)>) {
    function RequiredFrom(tool: string, from: nat): Mode
      requires from <= |requirements|
      decreases |requirements| - from
    {
      if from == |requirements| then DangerFullAccess
      else if requirements[from].0 == tool then requirements[from].1
      else RequiredFrom(tool, from + 1)
    }

    /** `approved` is the prompter's answer, `None` without a prompter. */
    function Authorize(tool: string, approved: Option<bool>): Outcome {
      var required := RequiredFrom(tool, 0);
      if active.Rank() >= required.Rank() then Allow
      else if active == WorkspaceWrite && required == DangerFullAccess then
        if approved == Some(true) then Allow
        else Deny("tool `" + tool + "` requires approval to escalate from " + active.AsString() + " to "
                  + required.AsString())
      else
        Deny("tool `" + tool + "` requires " + required.AsString() + " permission; current mode is "
             + active.AsString())
    }
  }

  /** The mode the first entry naming the tool asks for, and full access when none names it. */
  ghost predicate Needs(requirements: seq<(string, Mode)>, tool: string, mode: Mode) {
    || (exists i :: FirstEntry(requirements, tool, i) && requirements[i].1 == mode)
    || (mode == DangerFullAccess && forall i :: 0 <= i < |requirements| ==> requirements[i].0 != tool)
  }

  ghost predicate FirstEntry(requirements: seq<(string, Mode)>, tool: string, i: int) {
    0 <= i < |requirements| && requirements[i].0 == tool && forall j :: 0 <= j < i ==> requirements[j].0 != tool
  }

  /** A tool may run in a mode that covers what it needs, or when the user approves the one escalation there is. */
  ghost predicate MayRun(active: Mode, needed: Mode, approved: Option<bool>) {
    Covers(active, needed) || (active == WorkspaceWrite && needed == DangerFullAccess && approved == Some(true))
  }

  /** Why a call may not run. */
  function Reason(active: Mode, needed: Mode, tool: string): string {
    if active == WorkspaceWrite && needed == DangerFullAccess then
      "tool `" + tool + "` requires approval to escalate from " + "workspace-write" + " to " + "danger-full-access"
    else
      "tool `" + tool + "` requires " + needed.AsString() + " permission; current mode is " + active.AsString()
  }

  lemma {:induction false} RequiredIsNeeded(policy: Policy, tool: string, from: nat)
    requires from <= |policy.requirements|
    requires forall j :: 0 <= j < from ==> policy.requirements[j].0 != tool
    ensures Needs(policy.requirements, tool, policy.RequiredFrom(tool, from))
    decreases |policy.requirements| - from
  {
    if from < |policy.requirements| {
      if policy.requirements[from].0 == tool {
        assert FirstEntry(policy.requirements, tool, from);
      } else {
        RequiredIsNeeded(policy, tool, from + 1);
      }
    }
  }

  lemma NeedIsUnique(requirements: seq<(string, Mode)>, tool: string, a: Mode, b: Mode)
    requires Needs(requirements, tool, a) && Needs(requirements, tool, b)
    ensures a == b
  {
  }

  // ----- sessions

  datatype ResultPart = TextPart(text: string) | JsonPart(value: Json)
  datatype InputBlock =
    InText(text: string) | InCall(call: Call) | InResult(id: string, parts: seq<ResultPart>, isError: bool)
  datatype Message = Message(role: string, content: seq<InputBlock>)

  function UserText(text: string): Message {
    Message("user", [InText(text)])
  }

  function UserToolResult(id: string, output: string): Message {
    Message("user", [InResult(id, [TextPart(output)], false)])
  }

  function CallBlocks(calls: seq<Call>): seq<InputBlock> {
    seq(|calls|, i requires 0 <= i < |calls| => InCall(calls[i]))
  }

  function AssistantMessage(reply: Reply): Message {
    Message("assistant", (if reply.text == "" then [] else [InText(reply.text)]) + CallBlocks(reply.calls))
  }

  // ----- wire format

  function FlattenParts(show: Json -> string, parts: seq<ResultPart>): string {
    if parts == [] then ""
    else
      var last := parts[|parts| - 1];
      FlattenParts(show, parts[..|parts| - 1]) + (if |parts| > 1 then "\n" else "")
      + (if last.TextPart? then last.text else show(last.value))
  }

  function AssistantText(blocks: seq<InputBlock>): string {
    if blocks == [] then ""
    else
      var last := blocks[|blocks| - 1];
      AssistantText(blocks[..|blocks| - 1]) + (if last.InText? then last.text else "")
  }

  function AssistantCalls(show: Json -> string, blocks: seq<InputBlock>): seq<WireCall> {
    if blocks == [] then []
    else
      var last := blocks[|blocks| - 1];
      AssistantCalls(show, blocks[..|blocks| - 1])
      + (if last.InCall? then [WireCall(Some(last.call.id), last.call.name, show(last.call.input))] else [])
  }

  function UserWires(show: Json -> string, blocks: seq<InputBlock>): seq<Wire> {
    if blocks == [] then []
    else
      UserWires(show, blocks[..|blocks| - 1]) +
      match blocks[|blocks| - 1]
      case InText(text) => [Wire(Some("user"), Some(text), None, None)]
      case InResult(id, parts, _) => [Wire(Some("tool"), Some(FlattenParts(show, parts)), Some(id), None)]
      case InCall(_) => []
  }

  function TranslateMessage(show: Json -> string, m: Message): seq<Wire> {
    if m.role == "assistant" then
      var text, calls := AssistantText(m.content), AssistantCalls(show, m.content);
      if text == "" && calls == [] then []
      else [Wire(Some("assistant"), if text == "" then None else Some(text), None,
                 if calls == [] then None else Some(calls))]
    else UserWires(show, m.content)
  }

  function TranslateAll(show: Json -> string, messages: seq<Message>): seq<Wire> {
    if messages == [] then []
    else TranslateAll(show, messages[..|messages| - 1]) + TranslateMessage(show, messages[|messages| - 1])
  }

  /** The request messages before the pairing pass. */
  function RequestMessages(show: Json -> string, system: string, messages: seq<Message>): seq<Wire> {
    (if system == "" then [] else [Wire(Some("system"), Some(system), None, None)]) + TranslateAll(show, messages)
  }

  // ----- one turn

  /** What surrounds a turn: the policy, the prompter and the tools, each answering by call number. */
  datatype Surroundings = Surroundings(policy: Policy, decide: Option<(nat, Call) -> bool>,
                                       execute: (nat, Call) -> Result<string, string>)
  {
    function Output(n: nat, call: Call): string {
      match policy.Authorize(call.name, if decide.None? then None else Some(decide.value(n, call)))
      case Deny(reason) => "ERROR: " + reason
      case Allow =>
        match execute(n, call)
        case Ok(output) => output
        case Err(e) => "ERROR: " + e
    }
  }

  /** What a call comes back with: the executor's answer when it may run, the refusal otherwise. */
  ghost predicate Gives(env: Surroundings, n: nat, call: Call, output: string) {
    var approved := if env.decide.None? then None else Some(env.decide.value(n, call));
    exists needed ::
      && Needs(env.policy.requirements, call.name, needed)
      && if MayRun(env.policy.active, needed, approved) then
           if env.execute(n, call).Ok? then output == env.execute(n, call).value
           else output == "ERROR: " + env.execute(n, call).error
         else output == "ERROR: " + Reason(env.policy.active, needed, call.name)
  }

  /** A tool is allowed exactly when it may run in the mode it needs; a denial says why. */
  lemma AuthorizesExactly(policy: Policy, tool: string, approved: Option<bool>, needed: Mode)
    requires Needs(policy.requirements, tool, needed)
    ensures policy.Authorize(tool, approved)
            == if MayRun(policy.active, needed, approved) then Allow else Deny(Reason(policy.active, needed, tool))
  {
    hide Needs;
    RequiredIsNeeded(policy, tool, 0);
    NeedIsUnique(policy.requirements, tool, needed, policy.RequiredFrom(tool, 0));
    CoversExactly(policy.active, needed);
  }

  lemma OutputGives(env: Surroundings, n: nat, call: Call)
    ensures Gives(env, n, call, env.Output(n, call))
  {
    hide Needs, MayRun, Reason, Policy.Authorize;
    var needed := env.policy.RequiredFrom(call.name, 0);
    RequiredIsNeeded(env.policy, call.name, 0);
    var approved := if env.decide.None? then None else Some(env.decide.value(n, call));
    AuthorizesExactly(env.policy, call.name, approved, needed);
  }

  /** Calls answered in order: each leaves one result message with its id, and one noted output of its name. */
  ghost predicate CallsAnswered(env: Surroundings, calls: seq<Call>, messages: seq<Message>,
                                results: seq<(string, string)>, messages': seq<Message>,
                                results': seq<(string, string)>)
  {
    && messages <= messages' && |messages'| == |messages| + |calls|
    && results <= results' && |results'| == |results| + |calls|
    && forall k :: 0 <= k < |calls| ==>
         var (name, output) := results'[|results| + k];
         && name == calls[k].name && Gives(env, |results| + k, calls[k], output)
         && messages'[|messages| + k] == Message("user", [InResult(calls[k].id, [TextPart(output)], false)])
  }

  datatype ApiResult = Failed(error: string) | Answered(reply: Reply)

  datatype Summary = Summary(assistantText: string, toolResults: seq<(string, string)>, iterations: nat, usage: Usage)
  datatype Ending = Done(summary: Summary) | Stopped(error: string)

  const MAX_ITERATIONS: nat := 128
  const TOO_MANY := "conversation loop exceeded the maximum number of iterations"

  function AddReply(s: Summary, reply: Reply): Summary {
    var text := if reply.text == "" then s.assistantText
                else if s.assistantText == "" then reply.text
                else s.assistantText + "\n" + reply.text;
    Summary(text, s.toolResults, s.iterations,
            Usage(s.usage.promptTokens + reply.usage.promptTokens,
                  s.usage.completionTokens + reply.usage.completionTokens))
  }

  /** Runs the calls of one reply in order; returns the session and the results so far. */
  function AnswerCalls(env: Surroundings, calls: seq<Call>, messages: seq<Message>, results: seq<(string, string)>)
    : (seq<Message>, seq<(string, string)>)
  {
    if calls == [] then (messages, results)
    else
      var (ms, rs) := AnswerCalls(env, calls[..|calls| - 1], messages, results);
      var call := calls[|calls| - 1];
      var output := env.Output(|rs|, call);
      (ms + [UserToolResult(call.id, output)], rs + [(call.name, output)])
  }

  lemma NoAnswers(env: Surroundings, messages: seq<Message>, results: seq<(string, string)>)
    ensures AnswerCalls(env, [], messages, results) == (messages, results)
  {
  }

  lemma AnswerOne(env: Surroundings, calls: seq<Call>, i: nat, messages: seq<Message>, results: seq<(string, string)>)
    requires i < |calls|
    ensures var (ms, rs) := AnswerCalls(env, calls[..i], messages, results);
            var output := env.Output(|rs|, calls[i]);
            && AnswerCalls(env, calls[..i + 1], messages, results).0 == ms + [UserToolResult(calls[i].id, output)]
            && AnswerCalls(env, calls[..i + 1], messages, results).1 == rs + [(calls[i].name, output)]
  {
    assert calls[..i + 1][..i] == calls[..i];
  }

  lemma {:induction false} AnswersMean(env: Surroundings, calls: seq<Call>, messages: seq<Message>,
                                       results: seq<(string, string)>)
    ensures var (ms, rs) := AnswerCalls(env, calls, messages, results);
            CallsAnswered(env, calls, messages, results, ms, rs)
  {
    hide AnswerCalls, Gives;
    if calls == [] {
      NoAnswers(env, messages, results);
    } else {
      var front, n := calls[..|calls| - 1], |calls| - 1;
      AnswersMean(env, front, messages, results);
      AnswerOne(env, calls, n, messages, results);
      assert calls[..n + 1] == calls;
      OutputGives(env, |results| + n, calls[n]);
      AnsweredSnoc(env, calls, messages, results, AnswerCalls(env, front, messages, results).0,
                   AnswerCalls(env, front, messages, results).1, env.Output(|results| + n, calls[n]));
    }
  }

  lemma AnsweredSnoc(env: Surroundings, calls: seq<Call>, messages: seq<Message>, results: seq<(string, string)>,
                     ms: seq<Message>, rs: seq<(string, string)>, output: string)
    requires calls != [] && CallsAnswered(env, calls[..|calls| - 1], messages, results, ms, rs)
    requires Gives(env, |rs|, calls[|calls| - 1], output)
    ensures var last := calls[|calls| - 1];
            CallsAnswered(env, calls, messages, results, ms + [UserToolResult(last.id, output)],
                          rs + [(last.name, output)])
  {
    hide Gives;
  }

  /** A turn from some point of its loop: the session it leaves, the sessions it sent, and how it ends. */
  datatype Turn = Turn(messages: seq<Message>, sent: seq<seq<Message>>, ending: Ending)

  function RunFrom(env: Surroundings, api: nat -> ApiResult, messages: seq<Message>, s: Summary): Turn
    decreases MAX_ITERATIONS + 1 - s.iterations
  {
    if s.iterations >= MAX_ITERATIONS then Turn(messages, [], Stopped(TOO_MANY))
    else
      match api(s.iterations + 1)
      case Failed(e) => Turn(messages, [messages], Stopped(e))
      case Answered(reply) =>
        var noted := AddReply(s.(iterations := s.iterations + 1), reply);
        var recorded := messages + [AssistantMessage(reply)];
        if reply.calls == [] then Turn(recorded, [messages], Done(noted))
        else
          var (ms, rs) := AnswerCalls(env, reply.calls, recorded, noted.toolResults);
          var rest := RunFrom(env, api, ms, noted.(toolResults := rs));
          rest.(sent := [messages] + rest.sent)
  }

  /** One iteration of the loop. */
  lemma RunStep(env: Surroundings, api: nat -> ApiResult, messages: seq<Message>, s: Summary)
    ensures s.iterations >= MAX_ITERATIONS ==> RunFrom(env, api, messages, s) == Turn(messages, [], Stopped(TOO_MANY))
    ensures var run, got := RunFrom(env, api, messages, s), api(s.iterations + 1);
            s.iterations < MAX_ITERATIONS && got.Failed? ==> run == Turn(messages, [messages], Stopped(got.error))
    ensures var run, got := RunFrom(env, api, messages, s), api(s.iterations + 1);
            s.iterations < MAX_ITERATIONS && got.Answered? ==>
              var noted := AddIteration(s, got.reply);
              var recorded := messages + [AssistantMessage(got.reply)];
              var answered := AnswerCalls(env, got.reply.calls, recorded, noted.toolResults);
              var rest := RunFrom(env, api, answered.0, noted.(toolResults := answered.1));
              && run.messages == (if got.reply.calls == [] then recorded else rest.messages)
              && run.ending == (if got.reply.calls == [] then Done(noted) else rest.ending)
              && run.sent == [messages] + if got.reply.calls == [] then [] else rest.sent
  {
    hide AnswerCalls, AssistantMessage, AddReply;
  }

  const NEW_SUMMARY := Summary("", [], 0, Usage(0, 0))

  function RunTurn(env: Surroundings, api: nat -> ApiResult, messages: seq<Message>, input: string): Turn {
    RunFrom(env, api, messages + [UserText(input)], NEW_SUMMARY)
  }

  class ConversationRuntime {
    var messages: seq<Message>
    const env: Surroundings

    constructor (env: Surroundings)
      ensures messages == [] && this.env == env
    {
      this.env := env;
      messages := [];
    }

    method AnswerAll(calls: seq<Call>, results: seq<(string, string)>) returns (toolResults: seq<(string, string)>)
      modifies this
      ensures messages == AnswerCalls(env, calls, old(messages), results).0
      ensures toolResults == AnswerCalls(env, calls, old(messages), results).1
      ensures CallsAnswered(env, calls, old(messages), results, messages, toolResults)
    {
      hide AnswerCalls, Policy.Authorize, CallsAnswered;
      AnswersMean(env, calls, messages, results);
      NoAnswers(env, old(messages), results);
      toolResults := results;
      var i := 0;
      while i < |calls|
        invariant 0 <= i <= |calls|
        invariant messages == AnswerCalls(env, calls[..i], old(messages), results).0
        invariant toolResults == AnswerCalls(env, calls[..i], old(messages), results).1
      {
        var call := calls[i];
        var approved := if env.decide.None? then None else Some(env.decide.value(|toolResults|, call));
        var output;
        match env.policy.Authorize(call.name, approved) {
          case Allow =>
            var executed := env.execute(|toolResults|, call);
            output := if executed.Ok? then executed.value else "ERROR: " + executed.error;
          case Deny(reason) =>
            output := "ERROR: " + reason;
        }
        toolResults := toolResults + [(call.name, output)];
        messages := messages + [UserToolResult(call.id, output)];
        AnswerOne(env, calls, i, old(messages), results);
        i := i + 1;
      }
      assert calls[..i] == calls;
    }

    /** The turn loop; `api` is what the client returns for each request, streamed or whole. */
    method TakeTurn(input: string, api: nat -> ApiResult) returns (ending: Ending, sent: seq<seq<Message>>)
      modifies this
      ensures Turn(messages, sent, ending) == RunTurn(env, api, old(messages), input)
    {
      hide AnswerCalls, AssistantMessage, AddIteration, RunFrom;
      messages := messages + [UserText(input)];
      ghost var start := messages;
      var summary := NEW_SUMMARY;
      sent := [];
      while true
        invariant summary.iterations <= MAX_ITERATIONS
        invariant var rest := RunFrom(env, api, messages, summary);
                  var whole := RunFrom(env, api, start, NEW_SUMMARY);
                  && rest.messages == whole.messages && rest.ending == whole.ending
                  && whole.sent == sent + rest.sent
        decreases MAX_ITERATIONS - summary.iterations
      {
        RunStep(env, api, messages, summary);
        if summary.iterations + 1 > MAX_ITERATIONS {
          return Stopped(TOO_MANY), sent;
        }
        sent := sent + [messages];
        match api(summary.iterations + 1) {
          case Failed(e) =>
            return Stopped(e), sent;
          case Answered(reply) =>
            summary := AddIteration(summary, reply);
            messages := messages + [AssistantMessage(reply)];
            if reply.calls == [] {
              return Done(summary), sent;
            }
            var results := AnswerAll(reply.calls, summary.toolResults);
            summary := summary.(toolResults := results);
        }
      }
    }
  }

  function AddIteration(s: Summary, reply: Reply): (r: Summary)
    ensures r.iterations == s.iterations + 1
  {
    AddReply(s.(iterations := s.iterations + 1), reply)
  }

  // ----- nothing the loop records is ever dropped

  lemma {:induction false} CallsOnWire(show: Json -> string, text: seq<InputBlock>, calls: seq<Call>)
    requires text == [] || (|text| == 1 && text[0].InText?)
    ensures AssistantCalls(show, text + CallBlocks(calls)) == WireCalls(show, calls)
    decreases |calls|
  {
    var all := text + CallBlocks(calls);
    if calls == [] {
      assert all == text;
      assert text != [] ==> text[..0] == [];
    } else {
      CallsOnWire(show, text, calls[..|calls| - 1]);
      assert all[..|all| - 1] == text + CallBlocks(calls[..|calls| - 1]);
    }
  }

  /** A reply goes out as one assistant message with its text and its calls, or not at all when it has neither. */
  lemma AssistantOnWire(show: Json -> string, reply: Reply)
    ensures TranslateMessage(show, AssistantMessage(reply))
            == if reply.text == "" && reply.calls == [] then []
               else [Wire(Some("assistant"), if reply.text == "" then None else Some(reply.text), None,
                          if reply.calls == [] then None else Some(WireCalls(show, reply.calls)))]
  {
    hide CallBlocks;
    var text := if reply.text == "" then [] else [InText(reply.text)];
    CallsOnWire(show, text, reply.calls);
    TextOnWire(text, reply.calls);
  }

  function WireCalls(show: Json -> string, calls: seq<Call>): seq<WireCall> {
    seq(|calls|, i requires 0 <= i < |calls| => WireCall(Some(calls[i].id), calls[i].name, show(calls[i].input)))
  }

  lemma {:induction false} TextOnWire(text: seq<InputBlock>, calls: seq<Call>)
    requires text == [] || (|text| == 1 && text[0].InText?)
    ensures AssistantText(text + CallBlocks(calls)) == if text == [] then "" else text[0].text
    decreases |calls|
  {
    var all := text + CallBlocks(calls);
    if calls == [] {
      assert all == text;
      assert text != [] ==> text[..0] == [] && AssistantText(text[..0]) == "";
    } else {
      TextOnWire(text, calls[..|calls| - 1]);
      assert all[..|all| - 1] == text + CallBlocks(calls[..|calls| - 1]);
    }
  }

  /** An assistant message with calls is one wire message carrying every call's id. */
  lemma CallIdsOnWire(show: Json -> string, reply: Reply)
    ensures var wires := TranslateMessage(show, AssistantMessage(reply));
            && (forall k :: 0 <= k < |wires| ==> wires[k].role == Some("assistant"))
            && |wires| <= 1
            && (reply.calls != [] ==>
                  |wires| == 1 && forall i :: 0 <= i < |reply.calls| ==> HasCall(wires[0], reply.calls[i].id))
  {
    hide TranslateMessage, AssistantMessage;
    AssistantOnWire(show, reply);
    var wires := TranslateMessage(show, AssistantMessage(reply));
    if reply.calls != [] {
      forall i | 0 <= i < |reply.calls| ensures HasCall(wires[0], reply.calls[i].id) {
        assert wires[0].toolCalls.value[i].id == Some(reply.calls[i].id);
      }
    }
  }

  lemma ResultOnWire(show: Json -> string, id: string, output: string)
    ensures TranslateMessage(show, UserToolResult(id, output)) == [Wire(Some("tool"), Some(output), Some(id), None)]
    ensures TranslateMessage(show, UserText(output)) == [Wire(Some("user"), Some(output), None, None)]
  {
    var block, part := InResult(id, [TextPart(output)], false), TextPart(output);
    assert [block][..0] == [] && [InText(output)][..0] == [] && [part][..0] == [];
    assert FlattenParts(show, [part]) == output by {
      assert FlattenParts(show, [part]) == FlattenParts(show, [part][..0]) + "" + output;
      assert FlattenParts(show, []) == "";
      assert "" + "" + output == output;
    }
    assert UserWires(show, [block]) == [] + [Wire(Some("tool"), Some(FlattenParts(show, [part])), Some(id), None)];
  }

  lemma RequestSnoc(show: Json -> string, system: string, ms: seq<Message>, m: Message)
    ensures RequestMessages(show, system, ms + [m]) == RequestMessages(show, system, ms) + TranslateMessage(show, m)
  {
    assert (ms + [m])[..|ms|] == ms;
  }

  ghost predicate CleanSession(show: Json -> string, system: string, ms: seq<Message>) {
    Clean(RequestMessages(show, system, ms))
  }

  /** The last message that is not a tool result carries the ids of all these calls. */
  ghost predicate Awaiting(show: Json -> string, system: string, ms: seq<Message>, calls: seq<Call>) {
    var wires := RequestMessages(show, system, ms);
    var p := Preceding(wires, |wires|);
    p.Some? && forall i :: 0 <= i < |calls| ==> HasCall(p.value, calls[i].id)
  }

  lemma UserKeepsClean(show: Json -> string, system: string, ms: seq<Message>, text: string)
    requires CleanSession(show, system, ms)
    ensures CleanSession(show, system, ms + [UserText(text)])
  {
    hide TranslateMessage, RequestMessages, Clean, Preceding;
    RequestSnoc(show, system, ms, UserText(text));
    ResultOnWire(show, "", text);
    CleanSnoc(RequestMessages(show, system, ms), Wire(Some("user"), Some(text), None, None));
  }

  lemma AssistantKeepsClean(show: Json -> string, system: string, ms: seq<Message>, reply: Reply)
    requires CleanSession(show, system, ms)
    ensures CleanSession(show, system, ms + [AssistantMessage(reply)])
    ensures reply.calls != [] ==> Awaiting(show, system, ms + [AssistantMessage(reply)], reply.calls)
  {
    hide TranslateMessage, RequestMessages, Clean, Preceding, HasCall, AssistantMessage;
    RequestSnoc(show, system, ms, AssistantMessage(reply));
    CallIdsOnWire(show, reply);
    var before, wires := RequestMessages(show, system, ms), TranslateMessage(show, AssistantMessage(reply));
    if wires == [] {
      assert before + wires == before;
    } else {
      assert wires == [wires[0]];
      CleanSnoc(before, wires[0]);
    }
  }

  lemma {:induction false} AnswersKeepClean(show: Json -> string, system: string, env: Surroundings, calls: seq<Call>,
                                            n: nat, ms: seq<Message>, rs: seq<(string, string)>)
    requires n <= |calls|
    requires CleanSession(show, system, ms) && Awaiting(show, system, ms, calls)
    ensures CleanSession(show, system, AnswerCalls(env, calls[..n], ms, rs).0)
    ensures Awaiting(show, system, AnswerCalls(env, calls[..n], ms, rs).0, calls)
  {
    hide TranslateMessage, RequestMessages, Clean, Preceding, HasCall, UserToolResult;
    if n > 0 {
      AnswersKeepClean(show, system, env, calls, n - 1, ms, rs);
      assert calls[..n][..n - 1] == calls[..n - 1];
      var (before, results) := AnswerCalls(env, calls[..n - 1], ms, rs);
      var output := env.Output(|results|, calls[n - 1]);
      RequestSnoc(show, system, before, UserToolResult(calls[n - 1].id, output));
      ResultOnWire(show, calls[n - 1].id, output);
      CleanSnoc(RequestMessages(show, system, before), Wire(Some("tool"), Some(output), Some(calls[n - 1].id), None));
    }
  }

  lemma {:induction false} TurnKeepsClean(show: Json -> string, system: string, env: Surroundings,
                                          api: nat -> ApiResult, ms: seq<Message>, s: Summary)
    requires CleanSession(show, system, ms)
    ensures var turn := RunFrom(env, api, ms, s);
            && CleanSession(show, system, turn.messages)
            && forall k :: 0 <= k < |turn.sent| ==> CleanSession(show, system, turn.sent[k])
    decreases MAX_ITERATIONS + 1 - s.iterations
  {
    hide CleanSession, Awaiting, AnswerCalls, AssistantMessage, AddReply;
    if s.iterations < MAX_ITERATIONS && api(s.iterations + 1).Answered? {
      var reply := api(s.iterations + 1).reply;
      var recorded := ms + [AssistantMessage(reply)];
      AssistantKeepsClean(show, system, ms, reply);
      if reply.calls != [] {
        var noted := AddIteration(s, reply);
        assert reply.calls[..|reply.calls|] == reply.calls;
        AnswersKeepClean(show, system, env, reply.calls, |reply.calls|, recorded, noted.toolResults);
        var (next, rs) := AnswerCalls(env, reply.calls, recorded, noted.toolResults);
        TurnKeepsClean(show, system, env, api, next, noted.(toolResults := rs));
      }
    }
  }

  /** One user turn with everything the world answers during it. */
  datatype TurnInput = TurnInput(env: Surroundings, api: nat -> ApiResult, input: string)

  function SessionAfter(turns: seq<TurnInput>): seq<Message> {
    if turns == [] then []
    else
      var last := turns[|turns| - 1];
      RunTurn(last.env, last.api, SessionAfter(turns[..|turns| - 1]), last.input).messages
  }

  lemma {:induction false} SessionsAreClean(show: Json -> string, system: string, turns: seq<TurnInput>)
    ensures CleanSession(show, system, SessionAfter(turns))
  {
    hide CleanSession, RunFrom;
    if turns == [] {
      EmptyIsClean(show, system);
    } else {
      var front, last := turns[..|turns| - 1], turns[|turns| - 1];
      SessionsAreClean(show, system, front);
      UserKeepsClean(show, system, SessionAfter(front), last.input);
      TurnKeepsClean(show, system, last.env, last.api, SessionAfter(front) + [UserText(last.input)], NEW_SUMMARY);
    }
  }

  lemma EmptyIsClean(show: Json -> string, system: string)
    ensures CleanSession(show, system, [])
  {
  }

  /**
   * Whatever the replies, denials, tool errors and request failures of earlier turns, the pairing pass drops nothing
   * from the session it is given: neither between turns nor at any request inside one.
   */
  lemma PairingNeverDropsOwnMessages(show: Json -> string, system: string, turns: seq<TurnInput>)
    ensures var wires := RequestMessages(show, system, SessionAfter(turns)); Sanitize(wires) == wires
    ensures turns != [] ==>
              var last := turns[|turns| - 1];
              var turn := RunTurn(last.env, last.api, SessionAfter(turns[..|turns| - 1]), last.input);
              forall k :: 0 <= k < |turn.sent| ==>
                var wires := RequestMessages(show, system, turn.sent[k]); Sanitize(wires) == wires
  {
    hide RunFrom, RequestMessages, Sanitize, Clean;
    SessionsAreClean(show, system, turns);
    FixedExactlyWhenClean(RequestMessages(show, system, SessionAfter(turns)));
    if turns != [] {
      var front, last := turns[..|turns| - 1], turns[|turns| - 1];
      SessionsAreClean(show, system, front);
      UserKeepsClean(show, system, SessionAfter(front), last.input);
      TurnKeepsClean(show, system, last.env, last.api, SessionAfter(front) + [UserText(last.input)], NEW_SUMMARY);
      var turn := RunTurn(last.env, last.api, SessionAfter(front), last.input);
      forall k | 0 <= k < |turn.sent|
        ensures var wires := RequestMessages(show, system, turn.sent[k]); Sanitize(wires) == wires
      {
        FixedExactlyWhenClean(RequestMessages(show, system, turn.sent[k]));
      }
    }
  }

  // ----- streaming turns and whole-response turns

  function WholeApi(parse: string -> Option<Json>, model: string, answers: nat -> Result<ChatResponse, string>, n: nat)
    : ApiResult
  {
    match answers(n)
    case Err(e) => Failed(e)
    case Ok(response) =>
      match NormalizeResponse(parse, model, response)
      case Err(e) => Failed(e)
      case Ok(message) => Answered(ReplyOf(message))
  }

  ghost function StreamApi(reader: Reader, parse: string -> Option<Json>, model: string,
                           bodies: nat -> Result<seq<seq<byte>>, string>, n: nat): ApiResult
  {
    match bodies(n)
    case Err(e) => Failed(e)
    case Ok(pieces) =>
      var (events, error) := Deliver(reader, [], pieces, Fresh(model));
      if error.Some? then Failed(error.value) else Answered(StreamReply(parse, events))
  }

  /** Both services answer request `n` alike: the same failure, or a body whose bytes deliver the response. */
  ghost predicate SameAnswer(reader: Reader, whole: Result<ChatResponse, string>,
                             body: Result<seq<seq<byte>>, string>)
  {
    match (whole, body)
    case (Err(a), Err(b)) => a == b
    case (Ok(r), Ok(pieces)) =>
      && NoLfAfterCrlf(Flatten(pieces))
      && var read := ReadFrames(reader, Drain(Flatten(pieces)).0);
         read.Ok? && Delivers(r, read.value) && !SomeBlank(r)
    case _ => false
  }

  lemma {:induction false} TurnDependsOnAnswers(env: Surroundings, a: nat -> ApiResult, b: nat -> ApiResult,
                                                ms: seq<Message>, s: Summary)
    requires forall n: nat :: a(n) == b(n)
    ensures RunFrom(env, a, ms, s) == RunFrom(env, b, ms, s)
    decreases MAX_ITERATIONS + 1 - s.iterations
  {
    hide AnswerCalls, AssistantMessage, AddReply;
    if s.iterations < MAX_ITERATIONS && a(s.iterations + 1).Answered? {
      var reply := a(s.iterations + 1).reply;
      var noted := AddIteration(s, reply);
      var (next, rs) := AnswerCalls(env, reply.calls, ms + [AssistantMessage(reply)], noted.toolResults);
      TurnDependsOnAnswers(env, a, b, next, noted.(toolResults := rs));
    }
  }

  /** Whole turns agree: streaming leaves the same session, summary and requests as whole responses. */
  lemma StreamingTurnsRefineWholeTurns(reader: Reader, parse: string -> Option<Json>, model: string, env: Surroundings,
                                       answers: nat -> Result<ChatResponse, string>,
                                       bodies: nat -> Result<seq<seq<byte>>, string>,
                                       messages: seq<Message>, input: string)
    requires forall n: nat :: SameAnswer(reader, answers(n), bodies(n))
    ensures RunTurn(env, (n: nat) => StreamApi(reader, parse, model, bodies, n), messages, input)
            == RunTurn(env, (n: nat) => WholeApi(parse, model, answers, n), messages, input)
  {
    hide RunFrom, Deliver, NormalizeResponse, Delivers, ReplyOf, StreamReply;
    var a: nat -> ApiResult := (n: nat) => StreamApi(reader, parse, model, bodies, n);
    var b: nat -> ApiResult := (n: nat) => WholeApi(parse, model, answers, n);
    forall n: nat ensures a(n) == b(n) {
      assert SameAnswer(reader, answers(n), bodies(n));
      if answers(n).Ok? {
        BytesRefineWholeResponse(reader, parse, model, bodies(n).value, answers(n).value);
      }
    }
    TurnDependsOnAnswers(env, a, b, messages + [UserText(input)], NEW_SUMMARY);
  }
}
