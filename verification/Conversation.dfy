/** The agent loop: requests, compaction, tool calls and the guard on finishing. */
module Conversation {
  import opened Prelude
  import opened Permissions
  import opened TokenBudget
  import opened Compaction
  import opened ToolRegistry

  const NOTICE := "Earlier tool transcript was compacted. "
    + "Continue from the latest visible messages and preserve completed work."
  const CONTINUE := "Continue with tool calls. "
    + "If the task is complete, call finish with summary, changed_files, and next_steps."
  const BLOCKED := "ERROR:" + (" This goal appears to require code or documentation changes, but no edit_file or "
    + "write_file call has succeeded yet. Inspect the repository, make the required edits, "
    + "run relevant verification, then call finish.")
  const TOO_MANY_TURNS := "Conversation runtime exceeded maxTurns before finish."
  const MIN_TURNS_BETWEEN_SUMMARIES: int := 3

  datatype Reply = Reply(content: string, calls: seq<ToolCall>)
  datatype ChatOutcome =
    | Answer(reply: Option<Reply>)  // `None` when the response holds no message
    | ContextOverflow(error: string)
    | OtherFailure(error: string)

  /** Everything a run hears from outside, by request number and by tool-call number. */
  datatype World = World(
    chat: nat -> ChatOutcome,
    summarize: nat -> Option<string>,
    compress: seq<ChatMessage> -> string,
    denied: (nat, ToolCall) -> Option<string>,
    execute: (nat, ToolCall) -> ToolResult)

  datatype TurnInput = TurnInput(
    system: ChatMessage,
    goal: ChatMessage,
    resume: seq<ChatMessage>,
    limit: Option<Limit>,
    toolsTokens: nat,
    maxTurns: int,
    requiresModification: bool)

  datatype Request = Request(messages: seq<ChatMessage>, maxTokens: nat, turn: int)

  datatype Outcome = Completed(finish: Finish, turns: int) | Failed(error: string)

  predicate Replies(outcome: ChatOutcome) {
    outcome.Answer? && outcome.reply.Some?
  }

  function AssistantMessage(reply: Reply): ChatMessage {
    ChatMessage(Assistant, Some(reply.content), reply.calls, None)
  }

  function ResultMessage(call: ToolCall, content: string): ChatMessage {
    ChatMessage(Tool, Some(content), [], Some(call.id))
  }

  function CallResult(world: World, n: nat, call: ToolCall): ToolResult {
    var denial := world.denied(n, call);
    if denial.Some? then ToolResult(call.name, "ERROR: blocked by PreToolUse hook" + denial.value, None)
    else world.execute(n, call)
  }

  /** A call the hook denies is an error that names its reason; any other gets what its execution returns. */
  lemma HookDecides(world: World, n: nat, call: ToolCall)
    ensures world.denied(n, call).None? ==> CallResult(world, n, call) == world.execute(n, call)
    ensures world.denied(n, call).Some? ==>
              CallResult(world, n, call)
              == ToolResult(call.name, "ERROR: blocked by PreToolUse hook" + world.denied(n, call).value, None)
  {
  }

  // ----- the finish guard, on the results of one run

  /** Some result before `k` was recorded as a successful modification. */
  predicate ModifiedBefore(guarded: bool, results: seq<ToolResult>, k: nat)
    requires k <= |results|
    decreases k, 0
  {
    k > 0 && (ModifiedBefore(guarded, results, k - 1)
              || IsSuccessfulModification(results[k - 1].toolName, Recorded(guarded, results, k - 1)))
  }

  /** What is recorded for result `k`: the block message for a finish that comes too early. */
  function Recorded(guarded: bool, results: seq<ToolResult>, k: nat): string
    requires k < |results|
    decreases k, 1
  {
    if results[k].finish.Some? && guarded && !ModifiedBefore(guarded, results, k) then BLOCKED else results[k].content
  }

  /** Result `k` ends the run. */
  predicate Accepted(guarded: bool, results: seq<ToolResult>, k: nat)
    requires k < |results|
  {
    results[k].finish.Some? && Recorded(guarded, results, k) == results[k].content
  }

  lemma {:induction false} GuardAppend(guarded: bool, a: seq<ToolResult>, b: seq<ToolResult>, k: nat)
    requires k <= |a|
    ensures ModifiedBefore(guarded, a + b, k) == ModifiedBefore(guarded, a, k)
    ensures k < |a| ==> Recorded(guarded, a + b, k) == Recorded(guarded, a, k)
    decreases k
  {
    if k > 0 {
      GuardAppend(guarded, a, b, k - 1);
    }
  }

  lemma {:induction false} ModifiedHasWitness(guarded: bool, results: seq<ToolResult>, k: nat) returns (j: nat)
    requires k <= |results| && ModifiedBefore(guarded, results, k)
    ensures j < k && IsSuccessfulModification(results[j].toolName, results[j].content)
    decreases k
  {
    BlockedIsError();
    if ModifiedBefore(guarded, results, k - 1) {
      j := ModifiedHasWitness(guarded, results, k - 1);
    } else {
      j := k - 1;
    }
  }

  /** An edit or a write that did not fail, and was not a finish the guard replaced. */
  predicate Modifies(guarded: bool, r: ToolResult) {
    && (r.toolName == "edit_file" || r.toolName == "write_file")
    && !("ERROR:" <= r.content)
    && !(guarded && r.finish.Some?)
  }

  /** A modification was recorded exactly when some result is one. */
  lemma {:induction false} ModifiedExactly(guarded: bool, results: seq<ToolResult>, k: nat)
    requires k <= |results|
    ensures ModifiedBefore(guarded, results, k) <==> exists j :: 0 <= j < k && Modifies(guarded, results[j])
    decreases k
  {
    BlockedIsError();
    if k > 0 {
      ModifiedExactly(guarded, results, k - 1);
    }
  }

  /** What is recorded for a result: its content, unless it is a finish the guard does not accept yet. */
  lemma RecordedExactly(guarded: bool, calls: seq<ToolCall>, results: seq<ToolResult>, base: nat, n: nat, k: nat)
    requires base + n <= |results| && k < n <= |calls|
    ensures var r := results[base + k];
            var blocked := r.finish.Some? && guarded
                           && forall j :: 0 <= j < base + k ==> !Modifies(guarded, results[j]);
            RecordedMessages(guarded, calls, results, base, n)[k]
            == ChatMessage(Tool, Some(if blocked then BLOCKED else r.content), [], Some(calls[k].id))
  {
    ModifiedExactly(guarded, results, base + k);
  }

  lemma BlockedIsError()
    ensures IsError(BLOCKED)
  {
    assert BLOCKED[..6] == "ERROR:";
  }

  /** A run with these results: nothing before the last one ended it, and the last one did iff it completed. */
  ghost predicate Ends(guarded: bool, results: seq<ToolResult>, outcome: Outcome) {
    && (forall k :: 0 <= k < |results| - 1 ==> !Accepted(guarded, results, k))
    && (outcome.Completed? <==> results != [] && Accepted(guarded, results, |results| - 1))
    && (outcome.Completed? ==> results[|results| - 1].finish == Some(outcome.finish))
  }

  /**
   * A guarded run completes only after a non-error edit or write, or by a finish whose summary is the block
   * message itself.
   */
  lemma GuardedRunModifiedFirst(results: seq<ToolResult>, outcome: Outcome)
    requires Ends(true, results, outcome) && outcome.Completed?
    ensures results != []
    ensures results[|results| - 1].content == BLOCKED
            || exists j :: 0 <= j < |results| - 1 && IsSuccessfulModification(results[j].toolName, results[j].content)
  {
    var last := |results| - 1;
    if results[last].content != BLOCKED {
      var j := ModifiedHasWitness(true, results, last);
    }
  }

  /** When a finish is accepted, exactly. */
  lemma FinishAcceptedExactly(guarded: bool, results: seq<ToolResult>, k: nat)
    requires k < |results| && results[k].finish.Some?
    ensures Accepted(guarded, results, k) <==>
            !guarded || ModifiedBefore(guarded, results, k) || results[k].content == BLOCKED
  {
  }

  /** What the executor of `finish` returns. */
  function FinishHandler(summary: string): ToolResult {
    ToolResult("finish", summary, Some(Finish(summary, [], [])))
  }

  /** A world in which the model's only call is a finish with this summary, dispatched through the registry. */
  function FinishingWorld(lower: string -> string, tools: map<string, RegisteredTool>, policy: EnforcerPolicy,
                          summary: string): World
  {
    World((n: nat) => Answer(Some(Reply("", [ToolCall("call", "finish", "{}")]))),
          (n: nat) => None, (dropped: seq<ChatMessage>) => "", (n: nat, call: ToolCall) => None,
          (n: nat, call: ToolCall) => Execute(lower, tools, policy, false, Ok(FinishHandler(summary)), call.name))
  }

  /**
   * The exception is real: in any registry that lets `finish` through, every guarded run in the world whose model
   * calls finish with the block message completes with that message, and nothing modified.
   */
  lemma BlockMessageSlipsThrough(lower: string -> string, tools: map<string, RegisteredTool>, policy: EnforcerPolicy,
                                 input: TurnInput, outcome: Outcome, requests: seq<Request>, results: seq<ToolResult>)
    requires NormalizeToolName(lower, "finish") == "finish" && "finish" in tools && tools["finish"].hasExecutor
    requires policy.DecideTool(tools["finish"].spec.required, "finish").Approved?
    requires input.requiresModification && input.maxTurns >= 1
    requires Concludes(input, FinishingWorld(lower, tools, policy, BLOCKED), outcome, requests, results)
    ensures outcome.Completed? && outcome.finish == Finish(BLOCKED, [], [])
    ensures results == [FinishHandler(BLOCKED)] && !ModifiedBefore(true, results, 1)
  {
    hide NormalizeToolName;
    var world := FinishingWorld(lower, tools, policy, BLOCKED);
    BlockedIsError();
    FinishDispatched(lower, tools, policy);
    FinishCalls(lower, tools, policy, |requests|);
    assert results != [] ==> results[0] == FinishHandler(BLOCKED) && Accepted(true, results, 0);
  }

  lemma FinishDispatched(lower: string -> string, tools: map<string, RegisteredTool>, policy: EnforcerPolicy)
    requires NormalizeToolName(lower, "finish") == "finish" && "finish" in tools && tools["finish"].hasExecutor
    requires policy.DecideTool(tools["finish"].spec.required, "finish").Approved?
    ensures forall n: nat ::
              CallResult(FinishingWorld(lower, tools, policy, BLOCKED), n, ToolCall("call", "finish", "{}"))
              == FinishHandler(BLOCKED)
  {
    hide NormalizeToolName;
  }

  lemma {:induction false} FinishCalls(lower: string -> string, tools: map<string, RegisteredTool>,
                                       policy: EnforcerPolicy, n: nat)
    ensures var calls := AnsweredCalls(FinishingWorld(lower, tools, policy, BLOCKED), n);
            |calls| == n && forall k :: 0 <= k < n ==> calls[k] == ToolCall("call", "finish", "{}")
  {
    if n > 0 {
      FinishCalls(lower, tools, policy, n - 1);
    }
  }

  /** Unreadable arguments, or a dispatch under the read-only sandbox. */
  ghost predicate ReadOnlyResult(lower: string -> string, tools: map<string, RegisteredTool>, policy: EnforcerPolicy,
                                 r: ToolResult)
  {
    || IsError(r.content)
    || (exists plan: bool, handled: Result<ToolResult, string>, name: string ::
          r == Execute(lower, tools, policy.ForSandbox(ReadOnly), plan, handled, name))
  }

  ghost predicate ReadOnlyWorld(lower: string -> string, tools: map<string, RegisteredTool>, policy: EnforcerPolicy,
                                world: World)
  {
    forall n: nat, call: ToolCall :: ReadOnlyResult(lower, tools, policy, world.execute(n, call))
  }

  lemma ReadOnlyResultModifiesNothing(lower: string -> string, tools: map<string, RegisteredTool>,
                                      policy: EnforcerPolicy, r: ToolResult)
    requires WritesNeedPermission(tools) && ReadOnlyResult(lower, tools, policy, r)
    ensures !IsSuccessfulModification(r.toolName, r.content)
  {
    hide Execute;
    if !IsError(r.content) {
      var plan: bool, handled: Result<ToolResult, string>, name: string
        :| r == Execute(lower, tools, policy.ForSandbox(ReadOnly), plan, handled, name);
      ReadOnlyNeverModifies(lower, tools, policy, plan, handled, name);
    }
  }

  lemma DenialIsError(reason: string)
    ensures IsError("ERROR: blocked by PreToolUse hook" + reason)
  {
    assert ("ERROR: blocked by PreToolUse hook" + reason)[..6] == "ERROR:";
  }

  /**
   * In the read-only sandbox, with editing tools registered above read-only, a guarded run never completes, unless
   * by a finish that repeats the block message.
   */
  lemma ReadOnlyGuardedRunNeverCompletes(lower: string -> string, tools: map<string, RegisteredTool>,
                                         policy: EnforcerPolicy, world: World, n: nat, results: seq<ToolResult>,
                                         outcome: Outcome)
    requires WritesNeedPermission(tools) && ReadOnlyWorld(lower, tools, policy, world)
    requires Ends(true, results, outcome) && FromWorld(world, n, results)
    ensures outcome.Completed? ==> results != [] && results[|results| - 1].content == BLOCKED
  {
    hide ReadOnlyResult, WritesNeedPermission;
    if outcome.Completed? {
      GuardedRunModifiedFirst(results, outcome);
      forall j | 0 <= j < |results| ensures !IsSuccessfulModification(results[j].toolName, results[j].content) {
        var call := AnsweredCalls(world, n)[j];
        if world.denied(j, call).Some? {
          DenialIsError(world.denied(j, call).value);
        } else {
          assert ReadOnlyResult(lower, tools, policy, world.execute(j, call));
          ReadOnlyResultModifiesNothing(lower, tools, policy, results[j]);
        }
      }
    }
  }

  // ----- what holds of every transcript of a run

  ghost predicate Sound(input: TurnInput, ms: seq<ChatMessage>) {
    && (input.resume == [] ==> WellPaired(input.system, input.goal, ms))
    && (Anchored(input.resume) ==> Anchored(ms))
  }

  ghost predicate PlainInput(input: TurnInput) {
    input.system.role == System && input.goal.role == User
  }

  function Opening(input: TurnInput): seq<ChatMessage> {
    if input.resume != [] then input.resume + [input.goal] else [input.system, input.goal]
  }

  lemma OpeningSound(input: TurnInput)
    requires PlainInput(input)
    ensures Sound(input, Opening(input))
  {
    hide Anchored;
    AnchoredOther(input.system);
    AnchoredOther(input.goal);
    AnchoredAppend([input.system], [input.goal]);
    assert [input.system] + [input.goal] == [input.system, input.goal];
    if Anchored(input.resume) {
      AnchoredAppend(input.resume, [input.goal]);
    }
    assert input.resume == [] ==> Opening(input)[2..] == [];
  }

  lemma CompactionSound(input: TurnInput, ms: seq<ChatMessage>, limit: int, summary: string)
    requires Sound(input, ms)
    ensures Sound(input, Compacted(ms, limit, summary))
  {
    hide Anchored, Compacted;
    if input.resume == [] {
      CompactionKeepsPairs(input.system, input.goal, ms, limit, summary);
    }
    if Anchored(input.resume) {
      CompactionKeepsAnchors(ms, limit, summary);
    }
  }

  lemma ReplySound(input: TurnInput, ms: seq<ChatMessage>, m: ChatMessage, results: seq<ChatMessage>)
    requires Sound(input, ms) && m.role == Assistant && Answers(m.toolCalls, results)
    ensures Sound(input, ms + ([m] + results))
  {
    hide Anchored, Answers;
    GroupedReply(m, results);
    AllAnswered(m.toolCalls, results);
    AnchoredReply(m, results);
    if input.resume == [] {
      PairsAppend(input.system, input.goal, ms, [m] + results);
    }
    if Anchored(input.resume) {
      AnchoredAppend(ms, [m] + results);
    }
  }

  lemma AllAnswered(calls: seq<ToolCall>, results: seq<ChatMessage>)
    requires Answers(calls, results)
    ensures |results| == |calls| && Answers(calls[..|results|], results)
  {
    assert calls[..|calls|] == calls;
  }

  /** A reply with some of its results keeps every result behind its call. */
  lemma PartAnchored(ms: seq<ChatMessage>, m: ChatMessage, results: seq<ChatMessage>, n: nat)
    requires m.role == Assistant && n <= |m.toolCalls| && Answers(m.toolCalls[..n], results)
    ensures Anchored(ms) ==> Anchored(ms + ([m] + results))
  {
    hide Anchored;
    if Anchored(ms) {
      AnchoredReply(m, results);
      AnchoredAppend(ms, [m] + results);
    }
  }

  lemma NudgeAnchored(ms: seq<ChatMessage>, m: ChatMessage, text: string)
    requires m.role == Assistant
    ensures Anchored(ms) ==> Anchored(ms + [m] + [Notice(text)])
  {
    hide Anchored;
    AnchoredOther(m);
    AnchoredOther(Notice(text));
    if Anchored(ms) {
      AnchoredAppend(ms, [m]);
      AnchoredAppend(ms + [m], [Notice(text)]);
    }
  }

  lemma NudgeSound(input: TurnInput, ms: seq<ChatMessage>, text: string)
    requires Sound(input, ms)
    ensures Sound(input, ms + [Notice(text)])
  {
    hide Anchored;
    GroupedUser(text);
    AnchoredOther(Notice(text));
    if input.resume == [] {
      PairsAppend(input.system, input.goal, ms, [Notice(text)]);
    }
    if Anchored(input.resume) {
      AnchoredAppend(ms, [Notice(text)]);
    }
  }

  // ----- what holds of the requests and summaries of a run

  /** Requests go out in turn order, at most two per turn, and a second one is strictly smaller. */
  ghost predicate Ordered(requests: seq<Request>) {
    forall i, j :: 0 <= i < j < |requests| ==>
      && requests[i].turn <= requests[j].turn
      && (requests[i].turn == requests[j].turn ==>
            j == i + 1 && MessagesTokens(requests[j].messages) < MessagesTokens(requests[i].messages))
  }

  ghost predicate Sent(input: TurnInput, r: Request) {
    && Sound(input, r.messages)
    && r.maxTokens == MaxTokens(input.limit, MessagesTokens(r.messages) + input.toolsTokens)
  }

  ghost predicate AllSent(input: TurnInput, requests: seq<Request>) {
    forall k :: 0 <= k < |requests| ==> Sent(input, requests[k])
  }

  /** A request within the derived budget leaves room for its reply, for every window that can hold that budget. */
  ghost predicate LeavesRoom(input: TurnInput, r: Request) {
    var tokens := MessagesTokens(r.messages) + input.toolsTokens;
    Window(input.limit) >= LEAST_BUDGET + LEAST_REPLY + MARGIN && tokens <= DerivedBudget(input.limit) ==>
      tokens + r.maxTokens + MARGIN <= Window(input.limit)
  }

  lemma SentLeavesRoom(input: TurnInput, requests: seq<Request>)
    requires AllSent(input, requests)
    ensures forall k :: 0 <= k < |requests| ==> LeavesRoom(input, requests[k])
  {
    hide Sound, MessagesTokens, DerivedBudget, MaxTokens;
    forall k | 0 <= k < |requests| ensures LeavesRoom(input, requests[k]) {
      assert Sent(input, requests[k]);
      BudgetFitsWindow(input.limit);
    }
  }

  ghost predicate Before(requests: seq<Request>, turn: int) {
    forall k :: 0 <= k < |requests| ==> requests[k].turn < turn
  }

  lemma SendFirst(input: TurnInput, requests: seq<Request>, r: Request)
    requires Ordered(requests) && AllSent(input, requests) && Before(requests, r.turn) && Sent(input, r)
    ensures Ordered(requests + [r]) && AllSent(input, requests + [r]) && Before(requests + [r], r.turn + 1)
  {
    hide Sent;
  }

  lemma SendRetry(input: TurnInput, requests: seq<Request>, first: Request, second: Request)
    requires Ordered(requests) && AllSent(input, requests) && Before(requests, first.turn)
    requires Sent(input, first) && Sent(input, second) && first.turn == second.turn
    requires MessagesTokens(second.messages) < MessagesTokens(first.messages)
    ensures Ordered(requests + [first] + [second]) && AllSent(input, requests + [first] + [second])
    ensures Before(requests + [first] + [second], first.turn + 1)
  {
    hide Sent, MessagesTokens;
    var n := |requests|;
    var all := requests + [first] + [second];
    assert forall k :: 0 <= k < n ==> all[k] == requests[k];
    assert all[n] == first && all[n + 1] == second;
  }

  /** Turns with a model-written summary, after one at `start` if any: each at least three after the one before. */
  ghost predicate Paced(start: Option<int>, turns: seq<int>, last: Option<int>) {
    && last == (if turns == [] then start else Some(turns[|turns| - 1]))
    && (start.Some? && turns != [] ==> turns[0] >= start.value + MIN_TURNS_BETWEEN_SUMMARIES)
    && forall i :: 0 <= i < |turns| - 1 ==> turns[i + 1] >= turns[i] + MIN_TURNS_BETWEEN_SUMMARIES
  }

  predicate SummaryDue(last: Option<int>, turn: int) {
    last.None? || turn - last.value >= MIN_TURNS_BETWEEN_SUMMARIES
  }

  /** The text that stands for the dropped messages. */
  function SummaryText(world: World, last: Option<int>, turn: int, n: nat, dropped: seq<ChatMessage>): string {
    if SummaryDue(last, turn) then world.summarize(n).GetOr(NOTICE)
    else if world.compress(dropped) != "" then world.compress(dropped)
    else NOTICE
  }

  /**
   * The text put for dropped messages: when three turns have passed since the last summary, a model-written one if
   * the model gives it; sooner, the compressed messages if any text remains; the notice otherwise.
   */
  ghost predicate Summarizes(world: World, last: Option<int>, turn: int, n: nat, dropped: seq<ChatMessage>,
                             text: string)
  {
    if last.None? || turn >= last.value + 3 then
      text == if world.summarize(n).Some? then world.summarize(n).value else NOTICE
    else
      text == if world.compress(dropped) == "" then NOTICE else world.compress(dropped)
  }

  /** A compaction that takes effect: what survives, and the text that stands for what was dropped. */
  ghost predicate CompactsTo(world: World, last: Option<int>, turn: int, n: nat, was: seq<ChatMessage>, limit: int,
                             now: seq<ChatMessage>)
  {
    exists start: nat, text: string ::
      && RecentFrom(was, limit, now, text, start)
      && Summarizes(world, last, turn, n, was[if |was| < 2 then |was| else 2..start], text)
  }

  /** Over its budget a transcript is compacted when there is something to drop; otherwise it stays. */
  ghost predicate CompactsAt(world: World, last: Option<int>, turn: int, n: nat, was: seq<ChatMessage>, limit: int,
                             over: bool, now: seq<ChatMessage>)
  {
    if over && Overlong(was, limit) then CompactsTo(world, last, turn, n, was, limit, now) else now == was
  }

  /** A transcript made ready for request `n`, compacted when over this budget. */
  ghost predicate Prepared(input: TurnInput, world: World, turn: int, n: nat, budget: int, limit: int,
                           was: seq<ChatMessage>, now: seq<ChatMessage>)
  {
    PreparedIf(world, turn, n, MessagesTokens(was) + input.toolsTokens > budget, limit, was, now)
  }

  ghost predicate PreparedIf(world: World, turn: int, n: nat, over: bool, limit: int, was: seq<ChatMessage>,
                             now: seq<ChatMessage>)
  {
    exists last: Option<int> :: CompactsAt(world, last, turn, n, was, limit, over, now)
  }

  lemma PreparedBy(input: TurnInput, world: World, last: Option<int>, turn: int, n: nat, budget: int, limit: int,
                   was: seq<ChatMessage>, now: seq<ChatMessage>)
    requires CompactsAt(world, last, turn, n, was, limit, MessagesTokens(was) + input.toolsTokens > budget, now)
    ensures Prepared(input, world, turn, n, budget, limit, was, now)
  {
  }

  /** What a request that brought no reply fails with. */
  function ErrorOf(outcome: ChatOutcome): string {
    match outcome
    case Answer(_) => "Conversation runtime received no assistant message."
    case ContextOverflow(e) => e
    case OtherFailure(e) => e
  }

  // ----- what a run carries from request to request

  /** The transcript after request `j`: its reply, then a nudge or one result per call; unchanged without a reply. */
  ghost predicate Grew(world: World, j: nat, ms: seq<ChatMessage>, next: seq<ChatMessage>) {
    if Replies(world.chat(j)) then
      var reply := world.chat(j).reply.value;
      exists answers: seq<ChatMessage> ::
        && next == ms + [ChatMessage(Assistant, Some(reply.content), reply.calls, None)] + answers
        && if reply.calls == [] then answers == [ChatMessage(User, Some(CONTINUE), [], None)]
           else Answers(reply.calls, answers)
    else next == ms
  }

  ghost predicate Before'(world: World, requests: seq<Request>, k: nat, opening: seq<ChatMessage>, ms: seq<ChatMessage>)
    requires k <= |requests|
  {
    if k == 0 then ms == opening else Grew(world, k - 1, requests[k - 1].messages, ms)
  }

  /** Request `k` sends all that went before, compacted where over budget, or wholly for a retry. */
  ghost predicate CarriedTo(input: TurnInput, world: World, requests: seq<Request>, budget: int, limit: int, k: nat)
    requires k < |requests|
  {
    var retry := k > 0 && requests[k - 1].turn == requests[k].turn;
    exists base ::
      && Before'(world, requests, k, OpeningOf(input), base)
      && Prepared(input, world, requests[k].turn, k, if retry then 0 else budget, limit, base, requests[k].messages)
  }

  function OpeningOf(input: TurnInput): seq<ChatMessage> {
    if input.resume == [] then [input.system, input.goal] else input.resume + [input.goal]
  }

  ghost predicate Carried(input: TurnInput, world: World, requests: seq<Request>, budget: int, limit: int) {
    forall k: nat :: k < |requests| ==> CarriedTo(input, world, requests, budget, limit, k)
  }

  lemma CarriedPrefix(input: TurnInput, world: World, asked: seq<Request>, requests: seq<Request>, budget: int,
                      limit: int, k: nat)
    requires asked <= requests && k < |asked| && CarriedTo(input, world, asked, budget, limit, k)
    ensures CarriedTo(input, world, requests, budget, limit, k)
  {
    hide Prepared, Grew;
    assert requests[k] == asked[k] && (k > 0 ==> requests[k - 1] == asked[k - 1]);
    var base :|
      && Before'(world, asked, k, OpeningOf(input), base)
      && Prepared(input, world, asked[k].turn, k, if k > 0 && asked[k - 1].turn == asked[k].turn then 0 else budget,
                  limit, base, asked[k].messages);
    assert Before'(world, requests, k, OpeningOf(input), base);
  }

  /** One turn's requests carry the transcript on. */
  lemma TurnCarries(input: TurnInput, world: World, asked: seq<Request>, requests: seq<Request>, turn: int, budget: int,
                    limit: int, ms: seq<ChatMessage>)
    requires Carried(input, world, asked, budget, limit) && Before'(world, asked, |asked|, OpeningOf(input), ms)
    requires asked < requests && Before(asked, turn)
    requires forall k :: |asked| <= k < |requests| ==> requests[k].turn == turn
    requires |requests| == |asked| + 1 || (|requests| == |asked| + 2 && world.chat(|asked|).ContextOverflow?)
    requires Prepared(input, world, turn, |asked|, budget, limit, ms, requests[|asked|].messages)
    requires |requests| == |asked| + 2 ==>
               Prepared(input, world, turn, |asked| + 1, 0, limit, requests[|asked|].messages,
                        requests[|asked| + 1].messages)
    ensures Carried(input, world, requests, budget, limit)
  {
    hide Prepared, Grew, CarriedTo;
    var n := |asked|;
    forall k: nat | k < |requests| ensures CarriedTo(input, world, requests, budget, limit, k) {
      if k < n {
        CarriedPrefix(input, world, asked, requests, budget, limit, k);
      } else if k == n {
        FirstCarries(input, world, asked, requests, turn, budget, limit, ms);
      } else {
        RetryCarries(input, world, requests, turn, budget, limit, n);
      }
    }
  }

  lemma FirstCarries(input: TurnInput, world: World, asked: seq<Request>, requests: seq<Request>, turn: int,
                     budget: int, limit: int, ms: seq<ChatMessage>)
    requires Before'(world, asked, |asked|, OpeningOf(input), ms)
    requires asked < requests && Before(asked, turn) && requests[|asked|].turn == turn
    requires Prepared(input, world, turn, |asked|, budget, limit, ms, requests[|asked|].messages)
    ensures CarriedTo(input, world, requests, budget, limit, |asked|)
  {
    hide Prepared, Grew;
    var n := |asked|;
    assert n > 0 ==> requests[n - 1] == asked[n - 1] && asked[n - 1].turn < turn;
    assert Before'(world, requests, n, OpeningOf(input), ms);
  }

  lemma RetryCarries(input: TurnInput, world: World, requests: seq<Request>, turn: int, budget: int, limit: int, n: nat)
    requires |requests| == n + 2 && requests[n].turn == requests[n + 1].turn == turn && world.chat(n).ContextOverflow?
    requires Prepared(input, world, turn, n + 1, 0, limit, requests[n].messages, requests[n + 1].messages)
    ensures CarriedTo(input, world, requests, budget, limit, n + 1)
  {
    hide Prepared;
    assert Before'(world, requests, n + 1, OpeningOf(input), requests[n].messages);
  }

  /** More results: what the world answers to the first of these calls, in order. */
  ghost predicate Obtained(world: World, calls: seq<ToolCall>, results: seq<ToolResult>, results': seq<ToolResult>) {
    && results <= results' && |results'| <= |results| + |calls|
    && forall k :: 0 <= k < |results'| - |results| ==>
         results'[|results| + k] == CallResult(world, |results| + k, calls[k])
  }

  /** The transcript goes on with the reply, and a nudge or the messages of the results from `from` on. */
  ghost predicate Continued(guarded: bool, reply: Reply, from: nat, results: seq<ToolResult>, base: seq<ChatMessage>,
                            ms: seq<ChatMessage>)
  {
    && from <= |results| <= from + |reply.calls|
    && ms == base + [AssistantMessage(reply)]
             + if reply.calls == [] then [Notice(CONTINUE)]
               else RecordedMessages(guarded, reply.calls, results, from, |results| - from)
  }

  lemma NothingCarried(input: TurnInput, world: World, budget: int, limit: int)
    ensures Carried(input, world, [], budget, limit)
    ensures Before'(world, [], 0, OpeningOf(input), Opening(input))
  {
  }

  /** A completed run stores its last request, the reply, and the results of the reply's first calls. */
  ghost predicate EndsWith(world: World, requests: seq<Request>, stored: seq<ChatMessage>) {
    && requests != [] && Replies(world.chat(|requests| - 1))
    && var reply := world.chat(|requests| - 1).reply.value;
       exists answers: seq<ChatMessage> ::
         && stored == requests[|requests| - 1].messages
                      + [ChatMessage(Assistant, Some(reply.content), reply.calls, None)]
                      + answers
         && |answers| <= |reply.calls| && Answers(reply.calls[..|answers|], answers)
  }

  /** What follows a reply makes the transcript grow by the reply and its results. */
  lemma FollowGrows(world: World, guarded: bool, requests: seq<Request>, base: seq<ChatMessage>, reply: Reply,
                    results: seq<ToolResult>, from: nat, ms: seq<ChatMessage>)
    requires requests != [] && world.chat(|requests| - 1) == Answer(Some(reply))
    requires requests[|requests| - 1].messages == base && Continued(guarded, reply, from, results, base, ms)
    ensures |results| == from + |reply.calls| ==> forall opening :: Before'(world, requests, |requests|, opening, ms)
    ensures reply.calls != [] ==> EndsWith(world, requests, ms)
  {
    hide RecordedMessages, Answers;
    var n := |results| - from;
    if reply.calls != [] {
      var answers := RecordedMessages(guarded, reply.calls, results, from, n);
      SomeAnswered(guarded, reply.calls, results, from, n);
      assert |answers| == n && Answers(reply.calls[..|answers|], answers) by {
        AnswersLength(reply.calls[..n], answers);
      }
      assert n == |reply.calls| ==> reply.calls[..n] == reply.calls;
      assert ms == base + [ChatMessage(Assistant, Some(reply.content), reply.calls, None)] + answers;
    } else {
      assert ms == base + [ChatMessage(Assistant, Some(reply.content), reply.calls, None)]
                   + [ChatMessage(User, Some(CONTINUE), [], None)];
    }
    if |results| == from + |reply.calls| {
      assert Grew(world, |requests| - 1, base, ms);
    }
  }

  lemma AnswersLength(calls: seq<ToolCall>, answers: seq<ChatMessage>)
    requires Answers(calls, answers)
    ensures |answers| == |calls|
  {
  }

  lemma CompactionSummarizes(world: World, last: Option<int>, turn: int, n: nat, was: seq<ChatMessage>, limit: int)
    ensures CompactsTo(world, last, turn, n, was, limit,
                       Compacted(was, limit, SummaryText(world, last, turn, n, CompactedPart(was, limit))))
  {
    hide RecentFrom, Compacted, TailStart;
    TailBounds(was, limit);
    var text := SummaryText(world, last, turn, n, CompactedPart(was, limit));
    CompactedKeepsRecent(was, limit, text);
    assert Summarizes(world, last, turn, n, was[if |was| < 2 then |was| else 2..TailStart(was, limit)], text);
  }

  class ConversationRuntime {
    var messages: seq<ChatMessage>
    var lastSummaryTurn: Option<int>
    const recentLimit: int
    const budgetOverride: Option<nat>

    constructor (recentLimit: int, budgetOverride: Option<nat>)
      ensures lastSummaryTurn == None && this.recentLimit == recentLimit && this.budgetOverride == budgetOverride
    {
      this.recentLimit := recentLimit;
      this.budgetOverride := budgetOverride;
      lastSummaryTurn := None;
      messages := [];
    }

    /** Compaction: a no-op within the budget or with nothing to drop; `summarized` says a model summary was used. */
    method CompactIfNeeded(world: World, turn: int, n: nat, budget: int, toolsTokens: nat) returns (summarized: bool)
      modifies this
      ensures var was := old(messages);
              if MessagesTokens(was) + toolsTokens <= budget || !Droppable(was, recentLimit) then
                messages == was && lastSummaryTurn == old(lastSummaryTurn) && !summarized
              else
                && messages == Compacted(was, recentLimit, SummaryText(world, old(lastSummaryTurn), turn, n,
                                                                       CompactedPart(was, recentLimit)))
                && summarized == (SummaryDue(old(lastSummaryTurn), turn) && world.summarize(n).Some?)
                && lastSummaryTurn == if summarized then Some(turn) else old(lastSummaryTurn)
      ensures CompactsAt(world, old(lastSummaryTurn), turn, n, old(messages), recentLimit,
                         MessagesTokens(old(messages)) + toolsTokens > budget, messages)
    {
      hide MessagesTokens, Overlong, CompactsTo;
      DroppableExactly(messages, recentLimit);
      summarized := false;
      var estimate := EstimateMessagesTokens(messages);
      if estimate + toolsTokens <= budget {
        return;
      }
      var head := messages[..Min2(|messages|)];
      var recent := SafeRecentMessages(messages[Min2(|messages|)..], recentLimit);
      TailBounds(messages, recentLimit);
      assert recent == messages[TailStart(messages, recentLimit)..];
      var dropped := messages[|head|..|messages| - |recent|];
      if |dropped| == 0 {
        return;
      }
      var summaryContent := NOTICE;
      if SummaryDue(lastSummaryTurn, turn) {
        var summary := world.summarize(n);
        if summary.Some? {
          summaryContent := summary.value;
          lastSummaryTurn := Some(turn);
          summarized := true;
        }
      } else {
        var compressed := world.compress(dropped);
        if |compressed| > 0 {
          summaryContent := compressed;
        }
      }
      CompactionSummarizes(world, old(lastSummaryTurn), turn, n, messages, recentLimit);
      messages := head + [Notice(summaryContent)] + recent;
    }

    function Budget(limit: Option<Limit>): nat {
      if budgetOverride.Some? then budgetOverride.value else DerivedBudget(limit)
    }

    /** `CompactIfNeeded` within a run: soundness, size and pacing. */
    method CompactInRun(input: TurnInput, world: World, turn: int, n: nat, budget: int,
                        ghost start: Option<int>, summaries: seq<int>)
      returns (summaries': seq<int>)
      requires Sound(input, messages) && Paced(start, summaries, lastSummaryTurn)
      modifies this
      ensures Sound(input, messages) && Paced(start, summaries', lastSummaryTurn)
      ensures |messages| <= |old(messages)|
      ensures messages == old(messages) || |messages| <= 3 + (if recentLimit < 0 then 0 else recentLimit)
      ensures CompactsAt(world, old(lastSummaryTurn), turn, n, old(messages), recentLimit,
                         MessagesTokens(old(messages)) + input.toolsTokens > budget, messages)
    {
      hide Sound, MessagesTokens, SummaryText, CompactsAt;
      ghost var was, last := messages, lastSummaryTurn;
      var summarized := CompactIfNeeded(world, turn, n, budget, input.toolsTokens);
      if Droppable(was, recentLimit) {
        ghost var text := SummaryText(world, last, turn, n, CompactedPart(was, recentLimit));
        CompactionSound(input, was, recentLimit, text);
        CompactionShrinks(was, recentLimit, text);
      }
      summaries' := if summarized then summaries + [turn] else summaries;
    }

    /** One request of a turn, with a single retry after an overflow that compaction really relieved. */
    method Ask(input: TurnInput, world: World, turn: int, ghost start: Option<int>,
               requests: seq<Request>, summaries: seq<int>)
      returns (reply: Result<Reply, string>, requests': seq<Request>, summaries': seq<int>)
      requires Sound(input, messages) && Paced(start, summaries, lastSummaryTurn)
      requires Ordered(requests) && AllSent(input, requests) && Before(requests, turn)
      modifies this
      ensures Sound(input, messages) && Paced(start, summaries', lastSummaryTurn)
      ensures Ordered(requests') && AllSent(input, requests') && Before(requests', turn + 1)
      ensures requests < requests' && forall k :: |requests| <= k < |requests'| ==> requests'[k].turn == turn
      ensures |requests'| == |requests| + 1
              || (|requests'| == |requests| + 2 && world.chat(|requests|).ContextOverflow?)
      ensures if reply.Ok? then world.chat(|requests'| - 1) == Answer(Some(reply.value))
              else !Replies(world.chat(|requests'| - 1)) && reply.error == ErrorOf(world.chat(|requests'| - 1))
      ensures var budget := if budgetOverride.Some? then budgetOverride.value else DerivedBudget(input.limit);
              Prepared(input, world, turn, |requests|, budget, recentLimit, old(messages),
                       requests'[|requests|].messages)
      ensures |requests'| == |requests| + 2 ==>
                Prepared(input, world, turn, |requests| + 1, 0, recentLimit, requests'[|requests|].messages,
                         requests'[|requests| + 1].messages)
      ensures !(|requests'| == |requests| + 1 && world.chat(|requests|).ContextOverflow?) ==>
                messages == requests'[|requests'| - 1].messages
      ensures |requests'| == |requests| + 1 && world.chat(|requests|).ContextOverflow? ==>
                && Prepared(input, world, turn, |requests| + 1, 0, recentLimit, requests'[|requests|].messages,
                            messages)
                && MessagesTokens(messages) >= MessagesTokens(requests'[|requests|].messages)
    {
      hide Sound, MessagesTokens, Ordered, AllSent, Before, Paced, MaxTokens, DerivedBudget, Prepared, CompactsAt;
      ghost var was, last := messages, lastSummaryTurn;
      summaries' := CompactInRun(input, world, turn, |requests|, Budget(input.limit), start, summaries);
      PreparedBy(input, world, last, turn, |requests|, Budget(input.limit), recentLimit, was, messages);
      var inputTokens := EstimateMessagesTokens(messages);
      var first := Request(messages, MaxTokens(input.limit, inputTokens + input.toolsTokens), turn);
      requests' := requests + [first];
      SendFirst(input, requests, first);
      var outcome := world.chat(|requests|);
      if outcome.ContextOverflow? {
        var error := outcome.error;
        ghost var last' := lastSummaryTurn;
        summaries' := CompactInRun(input, world, turn, |requests'|, 0, start, summaries');
        PreparedBy(input, world, last', turn, |requests'|, 0, recentLimit, first.messages, messages);
        var afterTokens := EstimateMessagesTokens(messages);
        if afterTokens >= inputTokens {
          return Err(error), requests', summaries';
        }
        var second := Request(messages, MaxTokens(input.limit, afterTokens + input.toolsTokens), turn);
        SendRetry(input, requests, first, second);
        outcome := world.chat(|requests'|);
        requests' := requests' + [second];
      }
      match outcome {
        case Answer(Some(r)) =>
          reply := Ok(r);
        case Answer(None) =>
          reply := Err("Conversation runtime received no assistant message.");
        case ContextOverflow(e) =>
          reply := Err(e);
        case OtherFailure(e) =>
          reply := Err(e);
      }
    }

    /** Runs the calls of one reply in order until a finish is accepted; records each result. */
    method AnswerCalls(world: World, guarded: bool, calls: seq<ToolCall>, results: seq<ToolResult>, modified: bool)
      returns (finish: Option<Finish>, results': seq<ToolResult>, modified': bool)
      requires modified == ModifiedBefore(guarded, results, |results|)
      requires forall k :: 0 <= k < |results| ==> !Accepted(guarded, results, k)
      modifies this`messages
      ensures modified' == ModifiedBefore(guarded, results', |results'|)
      ensures |results| <= |results'| <= |results| + |calls| && results <= results'
      ensures finish.None? ==> |results'| == |results| + |calls|
      ensures messages == old(messages)
                          + RecordedMessages(guarded, calls, results', |results|, |results'| - |results|)
      ensures forall k :: 0 <= k < |results'| - |results| ==>
                results'[|results| + k] == CallResult(world, |results| + k, calls[k])
      ensures forall k :: 0 <= k < |results'| - 1 ==> !Accepted(guarded, results', k)
      ensures finish.None? ==> forall k :: 0 <= k < |results'| ==> !Accepted(guarded, results', k)
      ensures finish.Some? ==> results' != [] && Accepted(guarded, results', |results'| - 1)
                               && results'[|results'| - 1].finish == finish
    {
      hide ModifiedBefore, Accepted, Recorded, CallResult, RecordedMessages, IsSuccessfulModification;
      finish, results', modified' := None, results, modified;
      NothingRecorded(guarded, calls, results);
      var i := 0;
      while i < |calls|
        invariant 0 <= i <= |calls| && finish.None?
        invariant |results'| == |results| + i && results <= results'
        invariant modified' == ModifiedBefore(guarded, results', |results'|)
        invariant messages == old(messages) + RecordedMessages(guarded, calls, results', |results|, i)
        invariant forall k :: 0 <= k < i ==> results'[|results| + k] == CallResult(world, |results| + k, calls[k])
        invariant forall k :: 0 <= k < |results'| ==> !Accepted(guarded, results', k)
      {
        var call := calls[i];
        var result := RunCall(world, |results'|, call);
        var content := if result.finish.Some? && guarded && !modified' then BLOCKED else result.content;
        messages := messages + [ResultMessage(call, content)];
        RecordOne(guarded, calls, results', result, |results|, i);
        results' := results' + [result];
        if IsSuccessfulModification(result.toolName, content) {
          modified' := true;
        }
        i := i + 1;
        if result.finish.Some? && content == result.content {
          finish := result.finish;
          return;
        }
      }
    }

    /** Records one reply and what follows it: a nudge when it has no calls, its results otherwise. */
    method Follow(input: TurnInput, world: World, reply: Reply, results: seq<ToolResult>, modified: bool)
      returns (finish: Option<Finish>, results': seq<ToolResult>, modified': bool)
      requires modified == ModifiedBefore(input.requiresModification, results, |results|)
      requires forall k :: 0 <= k < |results| ==> !Accepted(input.requiresModification, results, k)
      requires Sound(input, messages)
      modifies this`messages
      ensures modified' == ModifiedBefore(input.requiresModification, results', |results'|)
      ensures Obtained(world, reply.calls, results, results')
      ensures finish.None? ==> |results'| == |results| + |reply.calls|
      ensures reply.calls == [] ==> finish.None?
      ensures Anchored(old(messages)) ==> Anchored(messages)
      ensures Continued(input.requiresModification, reply, |results|, results', old(messages), messages)
      ensures forall k :: 0 <= k < |results'| - 1 ==> !Accepted(input.requiresModification, results', k)
      ensures finish.None? ==>
                && Sound(input, messages)
                && forall k :: 0 <= k < |results'| ==> !Accepted(input.requiresModification, results', k)
      ensures finish.Some? ==> results' != [] && Accepted(input.requiresModification, results', |results'| - 1)
                               && results'[|results'| - 1].finish == finish
    {
      hide Sound, ModifiedBefore, Accepted, Recorded, CallResult, Answers, Anchored, RecordedMessages;
      var message := AssistantMessage(reply);
      ghost var base := messages;
      messages := messages + [message];
      if reply.calls == [] {
        messages := messages + [Notice(CONTINUE)];
        ReplySound(input, base, message, []) by {
          NoAnswers();
        }
        assert [message] + [] == [message];
        NudgeSound(input, base + [message], CONTINUE);
        NudgeAnchored(base, message, CONTINUE);
        return None, results, modified;
      }
      finish, results', modified' := AnswerCalls(world, input.requiresModification, reply.calls, results, modified);
      ghost var n := |results'| - |results|;
      ghost var answers := RecordedMessages(input.requiresModification, reply.calls, results', |results|, n);
      assert base + [message] + answers == base + ([message] + answers);
      SomeAnswered(input.requiresModification, reply.calls, results', |results|, n);
      PartAnchored(base, message, answers, n);
      if finish.None? {
        RepliesAnswered(input.requiresModification, reply.calls, results', |results|);
        ReplySound(input, base, message, answers);
      }
    }

    /** One turn of a run: it ends the run, or leaves it going. */
    method TakeTurn(input: TurnInput, world: World, turn: int, ghost start: Option<int>, requests: seq<Request>,
                    results: seq<ToolResult>, modified: bool, summaries: seq<int>)
      returns (outcome: Option<Outcome>, requests': seq<Request>, results': seq<ToolResult>, modified': bool,
               summaries': seq<int>)
      requires 1 <= turn <= input.maxTurns
      requires Going(input, world, start, turn, requests, results, modified, summaries, lastSummaryTurn, messages,
                     Budget(input.limit), recentLimit)
      modifies this
      ensures outcome.None? ==>
                Going(input, world, start, turn + 1, requests', results', modified', summaries', lastSummaryTurn,
                      messages, Budget(input.limit), recentLimit)
      ensures outcome.Some? ==>
                Over(input, world, start, outcome.value, requests', results', summaries', lastSummaryTurn, messages,
                     Budget(input.limit), recentLimit)
    {
      hide Sound, Ordered, AllSent, Paced, ModifiedBefore, Accepted, Consecutive, LeavesRoom, Before, Asked;
      hide Anchored, FromWorld, AnsweredCalls, CallResult, RecordedMessages, Running, Concludes, Promised;
      hide Carried, Before', Prepared, MessagesTokens, EndsWith, DerivedBudget, Obtained, Continued;
      var guarded := input.requiresModification;
      ghost var sent := messages;
      AskedMeans(input, requests, turn);
      var reply: Result<Reply, string>;
      reply, requests', summaries' := Ask(input, world, turn, start, requests, summaries);
      SoundAnchored(input, messages);
      AskedGrows(input, requests, requests', turn);
      AskedMeans(input, requests', turn + 1);
      AskedCalls(world, |requests|, |requests'|);
      TurnCarries(input, world, requests, requests', turn, Budget(input.limit), recentLimit, sent);
      results', modified' := results, modified;
      if reply.Err? {
        NoReply(guarded, world, |requests|, |requests'|, results, modified);
        FailureConcludes(input, world, reply.error, requests', results, modified);
        PromisesKept(input, Failed(reply.error), requests', messages);
        outcome := Some(Failed(reply.error));
        return;
      }
      ghost var base := messages;
      RunningMeans(guarded, world, |requests|, results, modified);
      var finish;
      finish, results', modified' := Follow(input, world, reply.value, results, modified);
      ResultsFromWorld(world, |requests|, |requests'|, reply.value.calls, results, results');
      FollowGrows(world, guarded, requests', base, reply.value, results', |results|, messages);
      if finish.Some? {
        CompletionConcludes(input, world, finish.value, turn, requests', results');
        PromisesKept(input, Completed(finish.value, turn), requests', messages);
        outcome := Some(Completed(finish.value, turn));
        return;
      }
      RunsOn(guarded, world, |requests'|, results', modified');
      outcome := None;
    }

    /** A whole run: what was requested, what the tools returned, when summaries were written, and how it ended. */
    method RunTurn(input: TurnInput, world: World)
      returns (outcome: Outcome, requests: seq<Request>, results: seq<ToolResult>, summaries: seq<int>)
      requires PlainInput(input)
      modifies this
      ensures AllSent(input, requests) && Ordered(requests)
      ensures forall k :: 0 <= k < |requests| ==> LeavesRoom(input, requests[k])
      ensures Consecutive(requests) && forall k :: 0 <= k < |requests| ==> requests[k].turn <= input.maxTurns
      ensures outcome.Failed? ==> FailsFor(input, world, outcome.error, requests)
      ensures Paced(old(lastSummaryTurn), summaries, lastSummaryTurn)
      ensures Concludes(input, world, outcome, requests, results)
      ensures Promised(RunRecord(input, outcome, requests, messages))
      ensures outcome.Completed? ==> 1 <= outcome.turns <= input.maxTurns && requests != []
                                     && requests[|requests| - 1].turn == outcome.turns
                                     && EndsWith(world, requests, messages)
      ensures Carried(input, world, requests,
                      if budgetOverride.Some? then budgetOverride.value else DerivedBudget(input.limit), recentLimit)
    {
      hide Going, Opening, DerivedBudget, AllSent, Ordered, LeavesRoom, Consecutive, Paced, Concludes, Promised;
      hide EndsWith, Carried, FailsFor;
      ghost var start := lastSummaryTurn;
      var modified := false;
      messages := Opening(input);
      requests, results, summaries := [], [], [];
      RunStarts(input, world, start, Budget(input.limit), recentLimit);
      var turn := 1;
      while turn <= input.maxTurns
        invariant 1 <= turn && (turn == 1 || turn <= input.maxTurns + 1)
        invariant Going(input, world, start, turn, requests, results, modified, summaries, lastSummaryTurn, messages,
                        Budget(input.limit), recentLimit)
        decreases input.maxTurns - turn
      {
        var ended;
        ended, requests, results, modified, summaries :=
          TakeTurn(input, world, turn, start, requests, results, modified, summaries);
        if ended.Some? {
          return ended.value, requests, results, summaries;
        }
        turn := turn + 1;
      }
      outcome := Failed(TOO_MANY_TURNS);
      TurnsSpent(input, world, start, turn, requests, results, modified, summaries, lastSummaryTurn, messages,
                 Budget(input.limit), recentLimit);
    }

    static method RunCall(world: World, n: nat, call: ToolCall) returns (result: ToolResult)
      ensures result == CallResult(world, n, call)
    {
      var denial := world.denied(n, call);
      if denial.Some? {
        return ToolResult(call.name, "ERROR: blocked by PreToolUse hook" + denial.value, None);
      }
      return world.execute(n, call);
    }
  }

  /** The messages of the results from `base` on. */
  ghost function RecordedMessages(guarded: bool, calls: seq<ToolCall>, results: seq<ToolResult>, base: nat, n: nat)
    : seq<ChatMessage>
    requires base + n <= |results| && n <= |calls|
  {
    seq(n, k requires 0 <= k < n => ResultMessage(calls[k], Recorded(guarded, results, base + k)))
  }

  lemma RepliesAnswered(guarded: bool, calls: seq<ToolCall>, results: seq<ToolResult>, base: nat)
    requires base + |calls| <= |results|
    ensures Answers(calls, RecordedMessages(guarded, calls, results, base, |calls|))
  {
  }

  lemma SomeAnswered(guarded: bool, calls: seq<ToolCall>, results: seq<ToolResult>, base: nat, n: nat)
    requires base + n <= |results| && n <= |calls|
    ensures Answers(calls[..n], RecordedMessages(guarded, calls, results, base, n))
  {
  }

  lemma NoAnswers()
    ensures Answers([], [])
  {
  }

  /** The calls of the replies to the first `n` requests, in order. */
  function AnsweredCalls(world: World, n: nat): seq<ToolCall> {
    if n == 0 then []
    else AnsweredCalls(world, n - 1) + if Replies(world.chat(n - 1)) then world.chat(n - 1).reply.value.calls else []
  }

  /** The results are what the world answers to the first of these calls, in order. */
  ghost predicate FromWorld(world: World, n: nat, results: seq<ToolResult>) {
    && |results| <= |AnsweredCalls(world, n)|
    && forall k :: 0 <= k < |results| ==> results[k] == CallResult(world, k, AnsweredCalls(world, n)[k])
  }

  /** What a run's ending says of its results: every call of every reply was run, up to an accepted finish. */
  ghost predicate Concludes(input: TurnInput, world: World, outcome: Outcome, requests: seq<Request>,
                            results: seq<ToolResult>)
  {
    && Ends(input.requiresModification, results, outcome) && FromWorld(world, |requests|, results)
    && (outcome.Failed? ==> |results| == |AnsweredCalls(world, |requests|)|)
    && (input.maxTurns >= 1 ==> requests != [])
  }

  /** One turn asks once, or twice after an overflow: only its last request can hold a reply. */
  lemma AskedCalls(world: World, n: nat, asked: nat)
    requires asked == n + 1 || (asked == n + 2 && world.chat(n).ContextOverflow?)
    ensures AnsweredCalls(world, asked)
            == AnsweredCalls(world, n)
               + if Replies(world.chat(asked - 1)) then world.chat(asked - 1).reply.value.calls else []
  {
    if asked == n + 2 {
      assert AnsweredCalls(world, n + 1) == AnsweredCalls(world, n);
    }
  }

  lemma ResultsFromWorld(world: World, n: nat, asked: nat, calls: seq<ToolCall>, results: seq<ToolResult>,
                         results': seq<ToolResult>)
    requires FromWorld(world, n, results) && |results| == |AnsweredCalls(world, n)|
    requires AnsweredCalls(world, asked) == AnsweredCalls(world, n) + calls
    requires Obtained(world, calls, results, results')
    ensures FromWorld(world, asked, results')
    ensures |AnsweredCalls(world, asked)| == |results| + |calls|
  {
    hide CallResult, AnsweredCalls;
    var all := AnsweredCalls(world, asked);
    forall k | 0 <= k < |results'| ensures results'[k] == CallResult(world, k, all[k]) {
      if k < |results| {
        assert results'[k] == results[k] && all[k] == AnsweredCalls(world, n)[k];
      } else {
        assert results'[|results| + (k - |results|)] == CallResult(world, k, calls[k - |results|]);
      }
    }
  }

  // ----- the results of a run under way

  /** Every call of every reply so far has its result, and no finish was accepted. */
  ghost predicate Running(guarded: bool, world: World, n: nat, results: seq<ToolResult>, modified: bool) {
    && modified == ModifiedBefore(guarded, results, |results|)
    && FromWorld(world, n, results) && |results| == |AnsweredCalls(world, n)|
    && forall k :: 0 <= k < |results| ==> !Accepted(guarded, results, k)
  }

  lemma RunningMeans(guarded: bool, world: World, n: nat, results: seq<ToolResult>, modified: bool)
    requires Running(guarded, world, n, results, modified)
    ensures modified == ModifiedBefore(guarded, results, |results|)
    ensures FromWorld(world, n, results) && |results| == |AnsweredCalls(world, n)|
    ensures forall k :: 0 <= k < |results| ==> !Accepted(guarded, results, k)
  {
  }

  lemma RunsOn(guarded: bool, world: World, n: nat, results: seq<ToolResult>, modified: bool)
    requires modified == ModifiedBefore(guarded, results, |results|)
    requires FromWorld(world, n, results) && |results| == |AnsweredCalls(world, n)|
    requires forall k :: 0 <= k < |results| ==> !Accepted(guarded, results, k)
    ensures Running(guarded, world, n, results, modified)
  {
  }

  lemma NoReply(guarded: bool, world: World, n: nat, asked: nat, results: seq<ToolResult>, modified: bool)
    requires Running(guarded, world, n, results, modified)
    requires AnsweredCalls(world, asked) == AnsweredCalls(world, n) + []
    ensures Running(guarded, world, asked, results, modified)
  {
    hide ModifiedBefore, Accepted, AnsweredCalls, CallResult;
  }

  lemma FailureConcludes(input: TurnInput, world: World, error: string, requests: seq<Request>,
                         results: seq<ToolResult>, modified: bool)
    requires Running(input.requiresModification, world, |requests|, results, modified)
    requires input.maxTurns >= 1 ==> requests != []
    ensures Concludes(input, world, Failed(error), requests, results)
  {
    hide ModifiedBefore, Accepted, AnsweredCalls, FromWorld;
  }

  lemma CompletionConcludes(input: TurnInput, world: World, finish: Finish, turn: int, requests: seq<Request>,
                            results: seq<ToolResult>)
    requires FromWorld(world, |requests|, results) && requests != [] && results != []
    requires forall k :: 0 <= k < |results| - 1 ==> !Accepted(input.requiresModification, results, k)
    requires Accepted(input.requiresModification, results, |results| - 1)
    requires results[|results| - 1].finish == Some(finish)
    ensures Concludes(input, world, Completed(finish, turn), requests, results)
  {
    hide ModifiedBefore, Accepted, AnsweredCalls, FromWorld;
  }

  lemma PromisesKept(input: TurnInput, outcome: Outcome, requests: seq<Request>, stored: seq<ChatMessage>)
    requires AllSent(input, requests) && (Anchored(input.resume) ==> Anchored(stored))
    ensures Promised(RunRecord(input, outcome, requests, stored))
  {
  }

  lemma SoundAnchored(input: TurnInput, ms: seq<ChatMessage>)
    requires Sound(input, ms)
    ensures Anchored(input.resume) ==> Anchored(ms)
  {
  }

  lemma NothingYet(input: TurnInput, world: World, start: Option<int>)
    ensures Asked(input, [], 1) && Paced(start, [], start)
    ensures Running(input.requiresModification, world, 0, [], false)
  {
  }

  /** The requests of the turns before `turn`. */
  ghost predicate Asked(input: TurnInput, requests: seq<Request>, turn: int) {
    && Ordered(requests) && AllSent(input, requests) && Before(requests, turn) && Consecutive(requests)
    && if turn == 1 then requests == [] else requests != [] && requests[|requests| - 1].turn == turn - 1
  }

  lemma AskedMeans(input: TurnInput, requests: seq<Request>, turn: int)
    requires Asked(input, requests, turn)
    ensures Ordered(requests) && AllSent(input, requests) && Before(requests, turn) && Consecutive(requests)
    ensures forall k :: 0 <= k < |requests| ==> LeavesRoom(input, requests[k]) && requests[k].turn <= turn - 1
    ensures if turn == 1 then requests == [] else requests != [] && requests[|requests| - 1].turn == turn - 1
  {
    hide Ordered, AllSent, Consecutive, LeavesRoom;
    SentLeavesRoom(input, requests);
  }

  lemma AskedGrows(input: TurnInput, asked: seq<Request>, requests: seq<Request>, turn: int)
    requires 1 <= turn && Asked(input, asked, turn) && asked < requests
    requires Ordered(requests) && AllSent(input, requests) && Before(requests, turn + 1)
    requires forall k :: |asked| <= k < |requests| ==> requests[k].turn == turn
    ensures Asked(input, requests, turn + 1)
  {
    hide Ordered, AllSent, Before;
    RequestTurns(asked, requests, turn);
  }

  /** Every turn up to the last asks at least once, starting with turn 1. */
  ghost predicate Consecutive(requests: seq<Request>) {
    && (requests != [] ==> requests[0].turn == 1)
    && forall i :: 0 <= i < |requests| - 1 ==> requests[i].turn <= requests[i + 1].turn <= requests[i].turn + 1
  }

  lemma RequestTurns(asked: seq<Request>, requests: seq<Request>, turn: int)
    requires asked < requests && Consecutive(asked)
    requires if turn == 1 then asked == [] else asked != [] && asked[|asked| - 1].turn == turn - 1
    requires forall k :: |asked| <= k < |requests| ==> requests[k].turn == turn
    ensures Consecutive(requests) && requests[|requests| - 1].turn == turn
  {
    forall i | 0 <= i < |requests| - 1 ensures requests[i].turn <= requests[i + 1].turn <= requests[i].turn + 1 {
      if i < |asked| {
        assert requests[i] == asked[i];
      }
      if i + 1 < |asked| {
        assert requests[i + 1] == asked[i + 1];
      }
    }
  }

  lemma NothingRecorded(guarded: bool, calls: seq<ToolCall>, results: seq<ToolResult>)
    ensures RecordedMessages(guarded, calls, results, |results|, 0) == []
  {
  }

  /** One more result: what was recorded stays, the new message is the recorded one, and the guard moves on. */
  lemma RecordOne(guarded: bool, calls: seq<ToolCall>, results: seq<ToolResult>, result: ToolResult, base: nat, i: nat)
    requires i < |calls| && base + i == |results|
    requires forall k :: 0 <= k < |results| ==> !Accepted(guarded, results, k)
    ensures var all := results + [result];
            var unmodified := !ModifiedBefore(guarded, results, |results|);
            var content := if result.finish.Some? && guarded && unmodified then BLOCKED
                           else result.content;
            && RecordedMessages(guarded, calls, all, base, i + 1)
               == RecordedMessages(guarded, calls, results, base, i) + [ResultMessage(calls[i], content)]
            && ModifiedBefore(guarded, all, |all|)
               == (ModifiedBefore(guarded, results, |results|) || IsSuccessfulModification(result.toolName, content))
            && (forall k :: 0 <= k < |results| ==> !Accepted(guarded, all, k))
            && Accepted(guarded, all, |results|) == (result.finish.Some? && content == result.content)
  {
    hide IsSuccessfulModification, ResultMessage;
    var all := results + [result];
    forall k: nat | k <= |results|
      ensures ModifiedBefore(guarded, all, k) == ModifiedBefore(guarded, results, k)
      ensures k < |results| ==> Recorded(guarded, all, k) == Recorded(guarded, results, k) && !Accepted(guarded, all, k)
    {
      GuardAppend(guarded, results, [result], k);
      assert k < |results| ==> all[k] == results[k] && !Accepted(guarded, results, k);
    }
  }

  ghost function CompactedPart(ms: seq<ChatMessage>, limit: int): seq<ChatMessage> {
    TailBounds(ms, limit);
    ms[Min2(|ms|)..TailStart(ms, limit)]
  }

  // ----- a run under way, and a run that is over

  /** What holds of a run before turn `turn`. */
  ghost predicate Going(input: TurnInput, world: World, start: Option<int>, turn: int, requests: seq<Request>,
                        results: seq<ToolResult>, modified: bool, summaries: seq<int>, last: Option<int>,
                        ms: seq<ChatMessage>, budget: int, limit: int)
  {
    && Sound(input, ms) && Paced(start, summaries, last)
    && (Anchored(input.resume) ==> Anchored(ms))
    && Asked(input, requests, turn)
    && Running(input.requiresModification, world, |requests|, results, modified)
    && Carried(input, world, requests, budget, limit)
    && Before'(world, requests, |requests|, OpeningOf(input), ms)
    && (requests != [] ==> Replies(world.chat(|requests| - 1)))
  }

  /** A failed run spent its turns, or its last request brought no reply and it fails with that request's error. */
  ghost predicate FailsFor(input: TurnInput, world: World, error: string, requests: seq<Request>) {
    || (error == TOO_MANY_TURNS && (input.maxTurns >= 1 ==>
          requests != [] && requests[|requests| - 1].turn == input.maxTurns && Replies(world.chat(|requests| - 1))))
    || (requests != [] && !Replies(world.chat(|requests| - 1)) && error == ErrorOf(world.chat(|requests| - 1)))
  }

  ghost predicate Over(input: TurnInput, world: World, start: Option<int>, outcome: Outcome, requests: seq<Request>,
                       results: seq<ToolResult>, summaries: seq<int>, last: Option<int>, ms: seq<ChatMessage>,
                       budget: int, limit: int)
  {
    && AllSent(input, requests) && Ordered(requests) && Consecutive(requests)
    && (forall k :: 0 <= k < |requests| ==> LeavesRoom(input, requests[k]) && requests[k].turn <= input.maxTurns)
    && (outcome.Failed? ==> FailsFor(input, world, outcome.error, requests))
    && Paced(start, summaries, last)
    && Concludes(input, world, outcome, requests, results)
    && Promised(RunRecord(input, outcome, requests, ms))
    && (outcome.Completed? ==> 1 <= outcome.turns <= input.maxTurns && requests != []
                               && requests[|requests| - 1].turn == outcome.turns && EndsWith(world, requests, ms))
    && Carried(input, world, requests, budget, limit)
  }

  lemma RunStarts(input: TurnInput, world: World, start: Option<int>, budget: int, limit: int)
    requires PlainInput(input)
    ensures Going(input, world, start, 1, [], [], false, [], start, Opening(input), budget, limit)
  {
    hide Sound, Asked, Running, Carried, Anchored, Opening;
    OpeningSound(input);
    SoundAnchored(input, Opening(input));
    NothingYet(input, world, start);
    NothingCarried(input, world, budget, limit);
  }

  lemma TurnsSpent(input: TurnInput, world: World, start: Option<int>, turn: int, requests: seq<Request>,
                   results: seq<ToolResult>, modified: bool, summaries: seq<int>, last: Option<int>,
                   ms: seq<ChatMessage>, budget: int, limit: int)
    requires Going(input, world, start, turn, requests, results, modified, summaries, last, ms, budget, limit)
    requires 1 <= turn && turn > input.maxTurns && (turn == 1 || turn == input.maxTurns + 1)
    ensures Over(input, world, start, Failed(TOO_MANY_TURNS), requests, results, summaries, last, ms, budget, limit)
  {
    hide Sound, Running, Carried, Anchored, Concludes, Promised, Ordered, AllSent, Before, Consecutive, LeavesRoom;
    AskedMeans(input, requests, turn);
    FailureConcludes(input, world, TOO_MANY_TURNS, requests, results, modified);
    PromisesKept(input, Failed(TOO_MANY_TURNS), requests, ms);
  }

  // ----- chains of resumed runs

  /** One run as it is recorded; a later run may resume from what a completed one stored. */
  datatype RunRecord = RunRecord(input: TurnInput, outcome: Outcome, requests: seq<Request>, stored: seq<ChatMessage>)

  /** What every run promises of its requests and of the transcript it stores. */
  ghost predicate Promised(run: RunRecord) {
    AllSent(run.input, run.requests) && (Anchored(run.input.resume) ==> Anchored(run.stored))
  }

  /** Every run starts afresh or from the transcript stored by an earlier completed run. */
  ghost predicate Resumes(runs: seq<RunRecord>, k: nat)
    requires k < |runs|
  {
    || runs[k].input.resume == []
    || exists j :: 0 <= j < k && runs[j].outcome.Completed? && runs[k].input.resume == runs[j].stored
  }

  /** In every chain of resumed runs each request, and each stored transcript, has every tool result behind its call. */
  lemma {:induction false} ChainsStayAnchored(runs: seq<RunRecord>, k: nat)
    requires k < |runs|
    requires forall j: nat :: j < |runs| ==> Promised(runs[j]) && Resumes(runs, j)
    ensures Anchored(runs[k].stored)
    ensures forall i :: 0 <= i < |runs[k].requests| ==> Anchored(runs[k].requests[i].messages)
    decreases k
  {
    hide Anchored, WellPaired;
    assert Promised(runs[k]) && Resumes(runs, k);
    if runs[k].input.resume == [] {
      NothingAnchored();
    } else {
      var j :| 0 <= j < k && runs[j].outcome.Completed? && runs[k].input.resume == runs[j].stored;
      ChainsStayAnchored(runs, j);
    }
    forall i | 0 <= i < |runs[k].requests| ensures Anchored(runs[k].requests[i].messages) {
      assert Sent(runs[k].input, runs[k].requests[i]);
    }
  }

  lemma NothingAnchored()
    ensures Anchored([])
  {
  }
}
