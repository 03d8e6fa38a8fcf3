/** Token estimates of a request and the budgets derived from a model's context window. */
module TokenBudget {
  import opened Prelude

  datatype ToolCall = ToolCall(id: string, name: string, arguments: string)
  datatype Role = System | User | Assistant | Tool
  datatype ChatMessage =
    ChatMessage(role: Role, content: Option<string>, toolCalls: seq<ToolCall>, toolCallId: Option<string>)

  predicate IsCjk(c: char) {
    var code := c as int;
    || 0x1100 <= code <= 0x11ff || 0x3000 <= code <= 0x30ff || 0x3130 <= code <= 0x318f || 0x3400 <= code <= 0x9fff
    || 0xac00 <= code <= 0xd7a3 || 0xf900 <= code <= 0xfaff || 0xff00 <= code <= 0xffef
  }

  function CjkCount(s: string): nat {
    if s == "" then 0 else CjkCount(s[..|s| - 1]) + (if IsCjk(s[|s| - 1]) then 1 else 0)
  }

  lemma {:induction false} CjkAtMostAll(s: string)
    ensures CjkCount(s) <= |s|
  {
    if s != "" {
      CjkAtMostAll(s[..|s| - 1]);
    }
  }

  /** A quarter token per ordinary character, rounded down, and 0.6 per CJK character, rounded up, plus ten. */
  function EstimateTokens(s: string): nat {
    CjkAtMostAll(s);
    (|s| - CjkCount(s)) / 4 + (3 * CjkCount(s) + 4) / 5 + 10
  }

  method CountTokens(content: string) returns (tokens: nat)
    ensures tokens == EstimateTokens(content)
  {
    var ascii, cjk := 0, 0;
    var i := 0;
    while i < |content|
      invariant 0 <= i <= |content|
      invariant cjk == CjkCount(content[..i]) && ascii + cjk == i
    {
      assert content[..i + 1][..i] == content[..i];
      if IsCjk(content[i]) {
        cjk := cjk + 1;
      } else {
        ascii := ascii + 1;
      }
      i := i + 1;
    }
    assert content[..i] == content;
    tokens := ascii / 4 + (3 * cjk + 4) / 5 + 10;
  }

  function CallTokens(calls: seq<ToolCall>): nat {
    if calls == [] then 0
    else
      var last := calls[|calls| - 1];
      CallTokens(calls[..|calls| - 1]) + EstimateTokens(last.name) + EstimateTokens(last.arguments) + 6
  }

  function MessageTokens(m: ChatMessage): nat {
    4 + (if m.content.Some? then EstimateTokens(m.content.value) else 0) + CallTokens(m.toolCalls)
    + (if NonEmpty(m.toolCallId).Some? then 4 else 0)
  }

  function MessagesTokens(ms: seq<ChatMessage>): nat {
    if ms == [] then 0 else MessagesTokens(ms[..|ms| - 1]) + MessageTokens(ms[|ms| - 1])
  }

  method EstimateMessagesTokens(messages: seq<ChatMessage>) returns (total: nat)
    ensures total == MessagesTokens(messages)
  {
    total := 0;
    var i := 0;
    while i < |messages|
      invariant 0 <= i <= |messages|
      invariant total == MessagesTokens(messages[..i])
    {
      assert messages[..i + 1][..i] == messages[..i];
      total := total + MessageTokens(messages[i]);
      i := i + 1;
    }
    assert messages[..i] == messages;
  }

  /** Dropping a stretch and putting one message in its place changes the estimate by exactly the difference. */
  lemma {:induction false} TokensAppend(a: seq<ChatMessage>, b: seq<ChatMessage>)
    ensures MessagesTokens(a + b) == MessagesTokens(a) + MessagesTokens(b)
  {
    hide MessageTokens;
    if b == [] {
      assert a + b == a;
    } else {
      TokensAppend(a, b[..|b| - 1]);
      assert (a + b)[..|a + b| - 1] == a + b[..|b| - 1];
    }
  }

  // ----- budgets

  datatype Limit = Limit(maxOutputTokens: nat, contextWindowTokens: nat)

  const RESERVED_OUTPUT_TOKENS: nat := 16384
  const FALLBACK_CONTEXT_TOKENS: nat := 131072
  const FALLBACK_OUTPUT_TOKENS: nat := 4096
  const LEAST_BUDGET: nat := 1024
  const LEAST_REPLY: nat := 256
  const MARGIN: nat := 512

  function Window(limit: Option<Limit>): nat {
    if limit.Some? then limit.value.contextWindowTokens else FALLBACK_CONTEXT_TOKENS
  }

  function Ceiling(limit: Option<Limit>): nat {
    if limit.Some? then limit.value.maxOutputTokens else FALLBACK_OUTPUT_TOKENS
  }

  function DerivedBudget(limit: Option<Limit>): nat {
    if Window(limit) < RESERVED_OUTPUT_TOKENS + LEAST_BUDGET then LEAST_BUDGET
    else Window(limit) - RESERVED_OUTPUT_TOKENS
  }

  function MaxTokens(limit: Option<Limit>, inputTokens: nat): nat {
    var room := Window(limit) - inputTokens - MARGIN;
    var wanted := if room < Ceiling(limit) then room else Ceiling(limit);
    if wanted < LEAST_REPLY then LEAST_REPLY else wanted
  }

  /** Input, reply and margin fit the window exactly when the least reply does. */
  lemma RequestFitsWindow(limit: Option<Limit>, inputTokens: nat)
    ensures inputTokens + MaxTokens(limit, inputTokens) + MARGIN <= Window(limit)
            <==> inputTokens + LEAST_REPLY + MARGIN <= Window(limit)
  {
  }

  /** Staying within the derived budget is enough exactly for windows of at least 1792 tokens. */
  lemma BudgetFitsWindow(limit: Option<Limit>)
    ensures (forall input: nat :: input <= DerivedBudget(limit) ==>
               input + MaxTokens(limit, input) + MARGIN <= Window(limit))
            <==> Window(limit) >= LEAST_BUDGET + LEAST_REPLY + MARGIN
  {
    forall input: nat | input <= DerivedBudget(limit)
      ensures Window(limit) >= LEAST_BUDGET + LEAST_REPLY + MARGIN ==>
                input + MaxTokens(limit, input) + MARGIN <= Window(limit)
    {
      RequestFitsWindow(limit, input);
    }
    if Window(limit) < LEAST_BUDGET + LEAST_REPLY + MARGIN {
      RequestFitsWindow(limit, LEAST_BUDGET);
      assert LEAST_BUDGET <= DerivedBudget(limit);
    }
  }

  // ----- the windows the program knows

  const TOKEN_LIMITS: seq<(string, Limit)> := [
    ("solar-pro3-260323", Limit(16384, 131072)),
    ("grok-3", Limit(64000, 131072)),
    ("grok-3-mini", Limit(64000, 131072)),
    ("kimi-k2.5", Limit(16384, 256000)),
    ("kimi-k1.5", Limit(16384, 256000))
  ]

  /** The limit of a canonical model name; unknown models have none. */
  function ModelTokenLimit(canonical: string): Option<Limit> {
    LimitFrom(canonical, 0)
  }

  function LimitFrom(canonical: string, from: nat): Option<Limit>
    requires from <= |TOKEN_LIMITS|
    decreases |TOKEN_LIMITS| - from
  {
    if from == |TOKEN_LIMITS| then None
    else if TOKEN_LIMITS[from].0 == canonical then Some(TOKEN_LIMITS[from].1)
    else LimitFrom(canonical, from + 1)
  }

  lemma {:induction false} KnownWindow(canonical: string, from: nat)
    requires from <= |TOKEN_LIMITS|
    ensures Window(LimitFrom(canonical, from)) >= FALLBACK_CONTEXT_TOKENS
    decreases |TOKEN_LIMITS| - from
  {
    if from < |TOKEN_LIMITS| {
      KnownWindow(canonical, from + 1);
    }
  }

  /** For every model, known or not, input within the derived budget leaves room for the reply and the margin. */
  lemma EveryModelFits(canonical: string, inputTokens: nat)
    requires inputTokens <= DerivedBudget(ModelTokenLimit(canonical))
    ensures var limit := ModelTokenLimit(canonical);
            inputTokens + MaxTokens(limit, inputTokens) + MARGIN <= Window(limit)
  {
    hide LimitFrom;
    KnownWindow(canonical, 0);
    BudgetFitsWindow(ModelTokenLimit(canonical));
  }

  // ----- the estimate and the budgets, exactly

  /** Hangul, CJK punctuation, kana and ideographs, and their compatibility and full-width forms. */
  const CJK_BLOCKS: seq<(int, int)> := [
    (0x1100, 0x11ff), (0x3000, 0x30ff), (0x3130, 0x318f), (0x3400, 0x9fff), (0xac00, 0xd7a3), (0xf900, 0xfaff),
    (0xff00, 0xffef)]

  lemma CjkExactly(c: char)
    ensures IsCjk(c) <==> exists i :: 0 <= i < |CJK_BLOCKS| && CJK_BLOCKS[i].0 <= c as int <= CJK_BLOCKS[i].1
    ensures CjkCount([c]) == if IsCjk(c) then 1 else 0
  {
    assert CJK_BLOCKS[0] == (0x1100, 0x11ff) && CJK_BLOCKS[1] == (0x3000, 0x30ff) && CJK_BLOCKS[2] == (0x3130, 0x318f);
    assert CJK_BLOCKS[3] == (0x3400, 0x9fff) && CJK_BLOCKS[4] == (0xac00, 0xd7a3) && CJK_BLOCKS[5] == (0xf900, 0xfaff);
    assert CJK_BLOCKS[6] == (0xff00, 0xffef);
    assert [c][..0] == [];
  }

  lemma {:induction false} CjkAppend(a: string, b: string)
    ensures CjkCount(a + b) == CjkCount(a) + CjkCount(b)
  {
    if b == "" {
      assert a + b == a;
    } else {
      CjkAppend(a, b[..|b| - 1]);
      assert (a + b)[..|a + b| - 1] == a + b[..|b| - 1];
    }
  }

  /** Ten, a quarter of the ordinary characters rounded down, and 0.6 of the CJK characters rounded up. */
  lemma EstimateExactly(s: string)
    ensures CjkCount(s) <= |s| && EstimateTokens(s) >= 10
    ensures var quarter := ((|s| - CjkCount(s)) as real / 4.0).Floor;
            var rest := EstimateTokens(s) - 10 - quarter;
            rest as real - 1.0 < 0.6 * CjkCount(s) as real <= rest as real
  {
    CjkAtMostAll(s);
    var plain, cjk := |s| - CjkCount(s), CjkCount(s);
    assert (plain as real / 4.0).Floor == plain / 4;
    var up := (3 * cjk + 4) / 5;
    assert 3 * cjk <= 5 * up < 3 * cjk + 5;
  }

  /** A message costs four, its text, each call's name, arguments and six, and four more for a result's id. */
  lemma MessageCosts(role: Role, text: Option<string>, calls: seq<ToolCall>, call: ToolCall, id: Option<string>)
    ensures MessageTokens(ChatMessage(role, None, [], None)) == 4
    ensures MessageTokens(ChatMessage(role, text, calls, id))
            == MessageTokens(ChatMessage(role, None, calls, id)) + if text.Some? then EstimateTokens(text.value) else 0
    ensures MessageTokens(ChatMessage(role, text, calls + [call], id))
            == MessageTokens(ChatMessage(role, text, calls, id)) + EstimateTokens(call.name)
               + EstimateTokens(call.arguments) + 6
    ensures MessageTokens(ChatMessage(role, text, calls, id))
            == MessageTokens(ChatMessage(role, text, calls, None)) + if id.Some? && id.value != "" then 4 else 0
    ensures MessagesTokens([ChatMessage(role, text, calls, id)]) == MessageTokens(ChatMessage(role, text, calls, id))
  {
    hide EstimateTokens;
    assert (calls + [call])[..|calls|] == calls;
    var m := ChatMessage(role, text, calls, id);
    assert [m][..0] == [];
  }

  /**
   * The reply cap: at least 256 and otherwise no more than the model's ceiling; where 256 fits beside the input and the
   * margin, it is the largest such cap that fits.
   */
  lemma CapIsLargest(limit: Option<Limit>, inputTokens: nat, cap: nat)
    ensures var ceiling := if limit.Some? then limit.value.maxOutputTokens else 4096;
            var window := if limit.Some? then limit.value.contextWindowTokens else 131072;
            && 256 <= MaxTokens(limit, inputTokens) <= (if ceiling < 256 then 256 else ceiling)
            && (inputTokens + 256 + 512 <= window && cap <= ceiling && inputTokens + cap + 512 <= window ==>
                  cap <= MaxTokens(limit, inputTokens))
            && (inputTokens + 256 + 512 > window ==> MaxTokens(limit, inputTokens) == 256)
  {
  }

  /** The derived budget reserves 16384 tokens of the window for the reply, but never falls below 1024. */
  lemma DerivedExactly(limit: Option<Limit>)
    ensures var window: int := if limit.Some? then limit.value.contextWindowTokens else 131072;
            && DerivedBudget(limit) >= 1024 && DerivedBudget(limit) >= window - 16384
            && (DerivedBudget(limit) == 1024 || DerivedBudget(limit) == window - 16384)
  {
  }
}
