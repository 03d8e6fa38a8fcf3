/** Transcript compaction: what is kept, what is replaced, and why calls and results stay paired. */
module Compaction {
  import opened Prelude
  import opened TokenBudget

  // ----- what is kept

  /** Skip forward over tool results. */
  function SkipTools(ms: seq<ChatMessage>, start: nat): nat
    requires start <= |ms|
    decreases |ms| - start
  {
    if start < |ms| && ms[start].role == Tool then SkipTools(ms, start + 1) else start
  }

  function RecentStart(ms: seq<ChatMessage>, limit: int): nat {
    if limit <= 0 || ms == [] then |ms|
    else SkipTools(ms, if |ms| > limit then |ms| - limit else 0)
  }

  lemma {:induction false} SkipToolsSkips(ms: seq<ChatMessage>, start: nat)
    requires start <= |ms|
    ensures start <= SkipTools(ms, start) <= |ms|
    ensures SkipTools(ms, start) < |ms| ==> ms[SkipTools(ms, start)].role != Tool
    ensures forall k :: start <= k < SkipTools(ms, start) ==> ms[k].role == Tool
    decreases |ms| - start
  {
    if start < |ms| && ms[start].role == Tool {
      SkipToolsSkips(ms, start + 1);
    }
  }

  /** The kept tail: at most `limit` messages, not starting with a tool result, and no shorter than that forces. */
  lemma RecentIsLongestSafeTail(ms: seq<ChatMessage>, limit: int)
    ensures var start := RecentStart(ms, limit);
            && start <= |ms|
            && |ms[start..]| <= (if limit < 0 then 0 else limit)
            && (start < |ms| ==> ms[start].role != Tool)
            && (limit > 0 ==> forall k :: |ms| - limit <= k < start && 0 <= k ==> ms[k].role == Tool)
  {
    if limit > 0 && ms != [] {
      SkipToolsSkips(ms, if |ms| > limit then |ms| - limit else 0);
    }
  }

  method SafeRecentMessages(messages: seq<ChatMessage>, limit: int) returns (recent: seq<ChatMessage>)
    ensures RecentStart(messages, limit) <= |messages| && recent == messages[RecentStart(messages, limit)..]
  {
    RecentIsLongestSafeTail(messages, limit);
    if limit <= 0 || |messages| == 0 {
      return [];
    }
    var start := if |messages| > limit then |messages| - limit else 0;
    while start < |messages| && messages[start].role == Tool
      invariant 0 <= start <= |messages|
      invariant SkipTools(messages, start) == RecentStart(messages, limit)
    {
      start := start + 1;
    }
    return messages[start..];
  }

  function Min2(n: nat): nat {
    if n < 2 then n else 2
  }

  /** Where the kept tail starts in the whole transcript, whose first two messages are always kept. */
  function TailStart(ms: seq<ChatMessage>, limit: int): nat {
    Min2(|ms|) + RecentStart(ms[Min2(|ms|)..], limit)
  }

  lemma TailBounds(ms: seq<ChatMessage>, limit: int)
    ensures Min2(|ms|) <= TailStart(ms, limit) <= |ms|
    ensures TailStart(ms, limit) < |ms| ==> ms[TailStart(ms, limit)].role != Tool
    ensures |ms| - TailStart(ms, limit) <= if limit < 0 then 0 else limit
  {
    RecentIsLongestSafeTail(ms[Min2(|ms|)..], limit);
  }

  predicate Droppable(ms: seq<ChatMessage>, limit: int) {
    Min2(|ms|) < TailStart(ms, limit)
  }

  function Notice(text: string): ChatMessage {
    ChatMessage(User, Some(text), [], None)
  }

  function Compacted(ms: seq<ChatMessage>, limit: int, summary: string): seq<ChatMessage> {
    TailBounds(ms, limit);
    ms[..Min2(|ms|)] + [Notice(summary)] + ms[TailStart(ms, limit)..]
  }

  /** An effective compaction never adds messages and leaves at most three more than the limit. */
  lemma CompactionShrinks(ms: seq<ChatMessage>, limit: int, summary: string)
    requires Droppable(ms, limit)
    ensures |Compacted(ms, limit, summary)| <= |ms|
    ensures |Compacted(ms, limit, summary)| <= 3 + (if limit < 0 then 0 else limit)
  {
    TailBounds(ms, limit);
  }

  /**
   * What a compaction leaves of `was`: its first two messages, one user message, and everything from some point on. A
   * message of the last `limit` before that point, behind the head, is a tool result; the point itself is not one.
   */
  ghost predicate RecentFrom(was: seq<ChatMessage>, limit: int, now: seq<ChatMessage>, text: string, start: nat) {
    var head := if |was| < 2 then |was| else 2;
    && head <= start <= |was| && |was| - start <= (if limit < 0 then 0 else limit)
    && now == was[..head] + [ChatMessage(User, Some(text), [], None)] + was[start..]
    && (start < |was| ==> was[start].role != Tool)
    && forall k :: head <= k < start && |was| - limit <= k ==> was[k].role == Tool
  }

  /** There is something to drop: more behind the head than the limit, or a tool result right behind it. */
  predicate Overlong(was: seq<ChatMessage>, limit: int) {
    |was| > 2 && (limit <= 0 || |was| - 2 > limit || was[2].role == Tool)
  }

  lemma CompactedKeepsRecent(ms: seq<ChatMessage>, limit: int, text: string)
    ensures TailStart(ms, limit) <= |ms|
    ensures RecentFrom(ms, limit, Compacted(ms, limit, text), text, TailStart(ms, limit))
  {
    TailBounds(ms, limit);
    var head := Min2(|ms|);
    var rest := ms[head..];
    RecentIsLongestSafeTail(rest, limit);
    var start := TailStart(ms, limit);
    assert start < |ms| ==> ms[start] == rest[start - head];
    forall k | head <= k < start && |ms| - limit <= k ensures ms[k].role == Tool {
      assert ms[k] == rest[k - head];
    }
  }

  lemma DroppableExactly(ms: seq<ChatMessage>, limit: int)
    ensures Droppable(ms, limit) <==> Overlong(ms, limit)
  {
    TailBounds(ms, limit);
    var rest := ms[Min2(|ms|)..];
    RecentIsLongestSafeTail(rest, limit);
    assert |ms| > 2 ==> rest[0] == ms[2];
  }

  // ----- calls and their results

  /** `results` answers `calls` one for one, in order. */
  ghost predicate Answers(calls: seq<ToolCall>, results: seq<ChatMessage>) {
    && |results| == |calls|
    && forall k :: 0 <= k < |calls| ==> results[k].role == Tool && results[k].toolCallId == Some(calls[k].id)
  }

  /** User messages and complete assistant groups: each assistant is followed by exactly its results. */
  ghost predicate Grouped(ms: seq<ChatMessage>)
    decreases |ms|
  {
    || ms == []
    || (ms[0].role == User && Grouped(ms[1..]))
    || (ms[0].role == Assistant
        && 1 + |ms[0].toolCalls| <= |ms|
        && Answers(ms[0].toolCalls, ms[1..1 + |ms[0].toolCalls|])
        && Grouped(ms[1 + |ms[0].toolCalls|..]))
  }

  /** The length of the first group. */
  ghost function GroupSize(ms: seq<ChatMessage>): nat
    requires ms != []
  {
    if ms[0].role == Assistant then 1 + |ms[0].toolCalls| else 1
  }

  lemma {:induction false} GroupedAppend(a: seq<ChatMessage>, b: seq<ChatMessage>)
    requires Grouped(a) && Grouped(b)
    ensures Grouped(a + b)
    decreases |a|
  {
    hide Answers;
    if a == [] {
      assert a + b == b;
    } else {
      var n := GroupSize(a);
      GroupedAppend(a[n..], b);
      assert (a + b)[n..] == a[n..] + b && (a + b)[0] == a[0] && (a + b)[1..n] == a[1..n];
    }
  }

  /** Cutting a grouped transcript where no result starts leaves it grouped. */
  lemma {:induction false} GroupedTail(ms: seq<ChatMessage>, start: nat)
    requires Grouped(ms) && start <= |ms| && (start < |ms| ==> ms[start].role != Tool)
    ensures Grouped(ms[start..])
    decreases |ms|
  {
    if start > 0 {
      var n := GroupSize(ms);
      assert forall k :: 1 <= k < n ==> ms[k] == ms[1..n][k - 1];
      assert n <= start;
      GroupedTail(ms[n..], start - n);
      assert ms[n..][start - n..] == ms[start..];
    }
  }

  lemma GroupedUser(text: string)
    ensures Grouped([Notice(text)])
  {
    assert [Notice(text)][1..] == [];
  }

  lemma GroupedReply(m: ChatMessage, results: seq<ChatMessage>)
    requires m.role == Assistant && Answers(m.toolCalls, results)
    ensures Grouped([m] + results)
  {
    var all := [m] + results;
    assert all[1..1 + |m.toolCalls|] == results && all[1 + |m.toolCalls|..] == [];
  }

  /** A fresh transcript: the original system and goal messages, then whole groups. */
  ghost predicate WellPaired(system: ChatMessage, goal: ChatMessage, ms: seq<ChatMessage>) {
    |ms| >= 2 && ms[0] == system && ms[1] == goal && Grouped(ms[2..])
  }

  lemma CompactionKeepsPairs(system: ChatMessage, goal: ChatMessage, ms: seq<ChatMessage>, limit: int, summary: string)
    requires WellPaired(system, goal, ms)
    ensures WellPaired(system, goal, Compacted(ms, limit, summary))
  {
    TailBounds(ms, limit);
    var start := TailStart(ms, limit);
    GroupedTail(ms[2..], start - 2);
    assert ms[2..][start - 2..] == ms[start..];
    GroupedUser(summary);
    GroupedAppend([Notice(summary)], ms[start..]);
    assert Compacted(ms, limit, summary)[2..] == [Notice(summary)] + ms[start..];
  }

  lemma PairsAppend(system: ChatMessage, goal: ChatMessage, ms: seq<ChatMessage>, group: seq<ChatMessage>)
    requires WellPaired(system, goal, ms) && Grouped(group)
    ensures WellPaired(system, goal, ms + group)
  {
    hide Grouped;
    GroupedAppend(ms[2..], group);
    assert (ms + group)[2..] == ms[2..] + group;
  }

  // ----- transcripts resumed in the middle: every result still has its call

  ghost predicate Anchor(ms: seq<ChatMessage>, j: int, i: int) {
    && 0 <= j < i < |ms|
    && ms[j].role == Assistant
    && (exists c :: 0 <= c < |ms[j].toolCalls| && Some(ms[j].toolCalls[c].id) == ms[i].toolCallId)
    && forall k :: j < k < i ==> ms[k].role == Tool
  }

  /** Every tool result follows, across tool results only, an assistant message that made its call. */
  ghost predicate Anchored(ms: seq<ChatMessage>) {
    forall i :: 0 <= i < |ms| && ms[i].role == Tool ==> exists j :: Anchor(ms, j, i)
  }

  lemma AnchorShift(ms: seq<ChatMessage>, before: seq<ChatMessage>, after: seq<ChatMessage>, j: int, i: int)
    requires Anchor(ms, j, i)
    ensures Anchor(before + ms + after, |before| + j, |before| + i)
  {
    var all := before + ms + after;
    assert forall k :: 0 <= k < |ms| ==> all[|before| + k] == ms[k];
    forall k | |before| + j < k < |before| + i ensures all[k].role == Tool {
      assert all[k] == ms[k - |before|];
    }
  }

  lemma AnchoredAppend(a: seq<ChatMessage>, b: seq<ChatMessage>)
    requires Anchored(a) && Anchored(b)
    ensures Anchored(a + b)
  {
    var all := a + b;
    forall i | 0 <= i < |all| && all[i].role == Tool ensures exists j :: Anchor(all, j, i) {
      if i < |a| {
        var j :| Anchor(a, j, i);
        AnchorShift(a, [], b, j, i);
        assert [] + a + b == all;
        assert Anchor(all, j, i);
      } else {
        var j :| Anchor(b, j, i - |a|);
        AnchorShift(b, a, [], j, i - |a|);
        assert a + b + [] == all;
        assert Anchor(all, |a| + j, i);
      }
    }
  }

  lemma AnchoredPart(ms: seq<ChatMessage>, lo: nat, hi: nat)
    requires Anchored(ms) && lo <= hi <= |ms| && (lo < hi ==> ms[lo].role != Tool || lo == 0)
    ensures Anchored(ms[lo..hi])
  {
    var part := ms[lo..hi];
    forall i | 0 <= i < |part| && part[i].role == Tool ensures exists j :: Anchor(part, j, i) {
      var j :| Anchor(ms, j, lo + i);
      assert lo <= j;
      forall k | j - lo < k < i ensures part[k].role == Tool {
        assert part[k] == ms[lo + k];
      }
      assert part[j - lo] == ms[j] && part[i] == ms[lo + i];
      assert Anchor(part, j - lo, i);
    }
  }

  /** A reply with the results of its first calls, as a run that ends on one of them leaves it. */
  lemma AnchoredReply(m: ChatMessage, results: seq<ChatMessage>)
    requires m.role == Assistant && |results| <= |m.toolCalls| && Answers(m.toolCalls[..|results|], results)
    ensures Anchored([m] + results)
  {
    var all := [m] + results;
    forall i | 0 <= i < |all| && all[i].role == Tool ensures exists j :: Anchor(all, j, i) {
      assert all[i] == results[i - 1] && Some(m.toolCalls[i - 1].id) == all[i].toolCallId;
      assert forall k :: 0 < k < i ==> all[k] == results[k - 1];
      assert Anchor(all, 0, i);
    }
  }

  lemma AnchoredOther(m: ChatMessage)
    requires m.role != Tool
    ensures Anchored([m])
  {
  }

  lemma CompactionKeepsAnchors(ms: seq<ChatMessage>, limit: int, summary: string)
    requires Anchored(ms)
    ensures Anchored(Compacted(ms, limit, summary))
  {
    hide Anchored;
    TailBounds(ms, limit);
    AnchoredPart(ms, 0, Min2(|ms|));
    assert ms[0..Min2(|ms|)] == ms[..Min2(|ms|)];
    AnchoredPart(ms, TailStart(ms, limit), |ms|);
    assert ms[TailStart(ms, limit)..|ms|] == ms[TailStart(ms, limit)..];
    AnchoredOther(Notice(summary));
    AnchoredAppend(ms[..Min2(|ms|)], [Notice(summary)]);
    AnchoredAppend(ms[..Min2(|ms|)] + [Notice(summary)], ms[TailStart(ms, limit)..]);
  }
}
