/** What a turn of the terminal client amounts to: its requests, the session it leaves, its summary, its wire form. */
module TurnMeaning {
  import opened Prelude
  import opened ChatStream
  import opened StreamRefinement
  import opened ToolPairing
  import opened SessionTurns

  // ----- the course of a turn

  /** A reply as the session records it: its text when it has any, then its calls. */
  ghost predicate Records(m: Message, reply: Reply) {
    && m.role == "assistant"
    && var n := if reply.text == "" then 0 else 1;
       && |m.content| == n + |reply.calls|
       && (reply.text != "" ==> m.content[0] == InText(reply.text))
       && forall i :: 0 <= i < |reply.calls| ==> m.content[n + i] == InCall(reply.calls[i])
  }

  /**
   * A turn after `i` requests: each request sends the whole session; a failure or a reply without calls ends the turn;
   * other replies are recorded and their calls answered; nothing is asked after 128 requests. `outputs` are all that
   * calls put out.
   */
  ghost predicate Unrolls(env: Surroundings, api: nat -> ApiResult, i: nat, ms: seq<Message>, rs: seq<(string, string)>,
                          turn: Turn, outputs: seq<(string, string)>)
    decreases |turn.sent|
  {
    if turn.sent == [] then
      i == 128 && turn.messages == ms && outputs == rs
      && turn.ending == Stopped("conversation loop exceeded the maximum number of iterations")
    else
      && i < 128 && turn.sent[0] == ms
      && match api(i + 1)
         case Failed(e) => turn == Turn(ms, [ms], Stopped(e)) && outputs == rs
         case Answered(reply) =>
           exists m :: Records(m, reply) &&
             if reply.calls == [] then
               turn.messages == ms + [m] && turn.sent == [ms] && turn.ending.Done? && outputs == rs
             else GoesOn(env, api, i, ms + [m], rs, reply, turn, outputs)
  }

  ghost predicate GoesOn(env: Surroundings, api: nat -> ApiResult, i: nat, recorded: seq<Message>,
                         rs: seq<(string, string)>, reply: Reply, turn: Turn, outputs: seq<(string, string)>)
    requires turn.sent != []
    decreases |turn.sent|, 0
  {
    exists next, more ::
      && CallsAnswered(env, reply.calls, recorded, rs, next, more)
      && Unrolls(env, api, i + 1, next, more, turn.(sent := turn.sent[1..]), outputs)
  }

  lemma RecordedAs(reply: Reply)
    ensures Records(AssistantMessage(reply), reply)
  {
  }

  /** The outputs a turn notes, from some point of its loop. */
  ghost function Outputs(env: Surroundings, api: nat -> ApiResult, ms: seq<Message>, s: Summary): seq<(string, string)>
    decreases 128 - s.iterations
  {
    if s.iterations >= 128 || api(s.iterations + 1).Failed? || api(s.iterations + 1).reply.calls == [] then
      s.toolResults
    else
      var reply := api(s.iterations + 1).reply;
      var noted := AddIteration(s, reply);
      var (next, more) := AnswerCalls(env, reply.calls, ms + [AssistantMessage(reply)], noted.toolResults);
      Outputs(env, api, next, noted.(toolResults := more))
  }

  lemma {:induction false} TurnUnrolls(env: Surroundings, api: nat -> ApiResult, ms: seq<Message>, s: Summary)
    requires s.iterations <= 128
    ensures Unrolls(env, api, s.iterations, ms, s.toolResults, RunFrom(env, api, ms, s), Outputs(env, api, ms, s))
    decreases 128 - s.iterations
  {
    hide AssistantMessage, AnswerCalls, CallsAnswered, Records, AddReply;
    RunStep(env, api, ms, s);
    if s.iterations < 128 && api(s.iterations + 1).Answered? {
      var reply := api(s.iterations + 1).reply;
      var noted := AddIteration(s, reply);
      NotedKeeps(s, reply);
      var m := AssistantMessage(reply);
      RecordedAs(reply);
      if reply.calls != [] {
        var (next, more) := AnswerCalls(env, reply.calls, ms + [m], noted.toolResults);
        AnswersMean(env, reply.calls, ms + [m], noted.toolResults);
        TurnUnrolls(env, api, next, noted.(toolResults := more));
        var turn := RunFrom(env, api, ms, s);
        assert turn.sent[1..] == RunFrom(env, api, next, noted.(toolResults := more)).sent;
        assert turn.(sent := turn.sent[1..]) == RunFrom(env, api, next, noted.(toolResults := more));
        assert GoesOn(env, api, s.iterations, ms + [m], s.toolResults, reply, turn, Outputs(env, api, ms, s));
      }
    }
  }

  lemma NotedKeeps(s: Summary, reply: Reply)
    ensures AddIteration(s, reply).toolResults == s.toolResults
  {
  }

  /** A turn asked for by a user: its input opens it, and its course is as described. */
  lemma TurnMeans(env: Surroundings, api: nat -> ApiResult, messages: seq<Message>, input: string)
    ensures Unrolls(env, api, 0, messages + [Message("user", [InText(input)])], [],
                    RunTurn(env, api, messages, input), Outputs(env, api, messages + [UserText(input)], NEW_SUMMARY))
  {
    TurnUnrolls(env, api, messages + [UserText(input)], NEW_SUMMARY);
  }

  // ----- the summary of a turn

  /** The replies to requests `1` to `n`. */
  ghost predicate AllAnswered(api: nat -> ApiResult, n: nat) {
    forall i: nat :: 1 <= i <= n ==> api(i).Answered?
  }

  function Texts(api: nat -> ApiResult, n: nat): seq<string> {
    if n == 0 then []
    else Texts(api, n - 1) + if api(n).Answered? && api(n).reply.text != "" then [api(n).reply.text] else []
  }

  function PromptTokens(api: nat -> ApiResult, n: nat): nat {
    if n == 0 then 0
    else PromptTokens(api, n - 1) + if api(n).Answered? then api(n).reply.usage.promptTokens else 0
  }

  function CompletionTokens(api: nat -> ApiResult, n: nat): nat {
    if n == 0 then 0
    else CompletionTokens(api, n - 1) + if api(n).Answered? then api(n).reply.usage.completionTokens else 0
  }

  /** The summary after `n` replies: their texts on lines of their own, and their token counts added up. */
  ghost predicate Sums(api: nat -> ApiResult, n: nat, s: Summary) {
    && s.iterations == n && AllAnswered(api, n)
    && s.assistantText == Join(Texts(api, n), "\n")
    && s.usage == Usage(PromptTokens(api, n), CompletionTokens(api, n))
  }

  lemma {:induction false} TextsHoldText(api: nat -> ApiResult, n: nat)
    ensures Join(Texts(api, n), "\n") == "" <==> Texts(api, n) == []
  {
    if n > 0 {
      TextsHoldText(api, n - 1);
      if api(n).Answered? && api(n).reply.text != "" {
        JoinSnoc(Texts(api, n - 1), api(n).reply.text, "\n");
      } else {
        assert Texts(api, n) == Texts(api, n - 1);
      }
    }
  }

  lemma ReplySums(api: nat -> ApiResult, n: nat, s: Summary)
    requires Sums(api, n, s) && api(n + 1).Answered?
    ensures Sums(api, n + 1, AddIteration(s, api(n + 1).reply))
  {
    var text := api(n + 1).reply.text;
    TextsHoldText(api, n);
    JoinSnoc(Texts(api, n), text, "\n");
    if text == "" {
      assert Texts(api, n + 1) == Texts(api, n);
    }
  }

  lemma OutputsSum(api: nat -> ApiResult, n: nat, s: Summary, outputs: seq<(string, string)>)
    requires Sums(api, n, s)
    ensures Sums(api, n, s.(toolResults := outputs))
  {
  }

  /** The summary a turn ends with: one reply per request, and every output the turn noted. */
  lemma {:induction false} EndingSums(env: Surroundings, api: nat -> ApiResult, ms: seq<Message>, s: Summary)
    requires s.iterations <= 128 && Sums(api, s.iterations, s)
    ensures var turn := RunFrom(env, api, ms, s);
            turn.ending.Done? ==>
              && Sums(api, s.iterations + |turn.sent|, turn.ending.summary)
              && turn.ending.summary.toolResults == Outputs(env, api, ms, s)
    decreases 128 - s.iterations
  {
    hide AssistantMessage, AnswerCalls, Sums, AddReply;
    RunStep(env, api, ms, s);
    if s.iterations < 128 && api(s.iterations + 1).Answered? {
      var reply := api(s.iterations + 1).reply;
      var noted := AddIteration(s, reply);
      NotedKeeps(s, reply);
      ReplySums(api, s.iterations, s);
      if reply.calls != [] {
        var (next, more) := AnswerCalls(env, reply.calls, ms + [AssistantMessage(reply)], noted.toolResults);
        OutputsSum(api, s.iterations + 1, noted, more);
        EndingSums(env, api, next, noted.(toolResults := more));
      }
    }
  }

  lemma SummaryMeans(env: Surroundings, api: nat -> ApiResult, messages: seq<Message>, input: string)
    ensures var turn := RunTurn(env, api, messages, input);
            turn.ending.Done? ==>
              && Sums(api, |turn.sent|, turn.ending.summary)
              && turn.ending.summary.toolResults == Outputs(env, api, messages + [UserText(input)], NEW_SUMMARY)
  {
    NothingSummed(api);
    EndingSums(env, api, messages + [UserText(input)], NEW_SUMMARY);
  }

  lemma NothingSummed(api: nat -> ApiResult)
    ensures Sums(api, 0, NEW_SUMMARY)
  {
  }

  // ----- messages on the wire

  /** A request starts with the system prompt, when there is one, and holds every message's wires in order. */
  lemma RequestMeans(show: Json -> string, system: string, ms: seq<Message>, m: Message)
    ensures RequestMessages(show, system, [])
            == if system == "" then [] else [Wire(Some("system"), Some(system), None, None)]
    ensures RequestMessages(show, system, ms + [m]) == RequestMessages(show, system, ms) + TranslateMessage(show, m)
  {
    RequestSnoc(show, system, ms, m);
  }

  function PartText(show: Json -> string, part: ResultPart): string {
    match part
    case TextPart(text) => text
    case JsonPart(value) => show(value)
  }

  lemma {:induction false} PartsOnLines(show: Json -> string, parts: seq<ResultPart>)
    ensures FlattenParts(show, parts)
            == Join(seq(|parts|, i requires 0 <= i < |parts| => PartText(show, parts[i])), "\n")
  {
    var texts := seq(|parts|, i requires 0 <= i < |parts| => PartText(show, parts[i]));
    if parts != [] {
      var front := parts[..|parts| - 1];
      PartsOnLines(show, front);
      var texts' := seq(|front|, i requires 0 <= i < |front| => PartText(show, front[i]));
      assert texts == texts' + [PartText(show, parts[|parts| - 1])];
      JoinSnoc(texts', PartText(show, parts[|parts| - 1]), "\n");
      if front == [] {
        assert FlattenParts(show, front) == "";
        assert "" + "" + PartText(show, parts[0]) == PartText(show, parts[0]);
      }
    }
  }

  /** A user message sends its texts and results in order, each as a message of its own, and no calls. */
  lemma UserOnWire(show: Json -> string, role: string, blocks: seq<InputBlock>, b: InputBlock)
    requires role != "assistant"
    ensures TranslateMessage(show, Message(role, [])) == []
    ensures TranslateMessage(show, Message(role, blocks + [b]))
            == TranslateMessage(show, Message(role, blocks))
               + match b
                 case InText(text) => [Wire(Some("user"), Some(text), None, None)]
                 case InResult(id, parts, _) =>
                   var texts := seq(|parts|, i requires 0 <= i < |parts| => PartText(show, parts[i]));
                   [Wire(Some("tool"), Some(Join(texts, "\n")), Some(id), None)]
                 case InCall(_) => []
  {
    hide FlattenParts;
    assert (blocks + [b])[..|blocks|] == blocks;
    if b.InResult? {
      PartsOnLines(show, b.parts);
    }
  }
}
