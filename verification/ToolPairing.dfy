/** Wire messages, and the pass that drops tool results whose call is missing. */
module ToolPairing {
  import opened Prelude

  datatype WireCall = WireCall(id: Option<string>, name: string, arguments: string)

  /** A request message; any field may be missing in messages this client did not build. */
  datatype Wire = Wire(role: Option<string>, content: Option<string>, toolCallId: Option<string>,
                       toolCalls: Option<seq<WireCall>>)

  predicate IsTool(m: Wire) {
    m.role == Some("tool")
  }

  predicate HasCall(m: Wire, id: string) {
    m.toolCalls.Some? && exists k :: 0 <= k < |m.toolCalls.value| && m.toolCalls.value[k].id == Some(id)
  }

  /** The nearest message before position `i` that is not a tool result. */
  function Preceding(ms: seq<Wire>, i: nat): Option<Wire>
    requires i <= |ms|
  {
    if i == 0 then None else if !IsTool(ms[i - 1]) then Some(ms[i - 1]) else Preceding(ms, i - 1)
  }

  /** A tool result that follows an assistant message lacking its call. */
  predicate Orphan(m: Wire, preceding: Option<Wire>) {
    && IsTool(m)
    && preceding.Some? && preceding.value.role == Some("assistant")
    && !HasCall(preceding.value, m.toolCallId.GetOr(""))
  }

  predicate OrphanAt(ms: seq<Wire>, i: nat)
    requires i < |ms|
  {
    Orphan(ms[i], Preceding(ms, i))
  }

  predicate Clean(ms: seq<Wire>) {
    forall i :: 0 <= i < |ms| ==> !OrphanAt(ms, i)
  }

  function Sanitized(ms: seq<Wire>, n: nat): seq<Wire>
    requires n <= |ms|
  {
    if n == 0 then []
    else Sanitized(ms, n - 1) + (if OrphanAt(ms, n - 1) then [] else [ms[n - 1]])
  }

  function Sanitize(ms: seq<Wire>): seq<Wire> {
    Sanitized(ms, |ms|)
  }

  /** One tool result of the pass: look back past tool results, then look for the id among the calls found. */
  method Unpaired(messages: seq<Wire>, i: nat) returns (drop: bool)
    requires i < |messages| && IsTool(messages[i])
    ensures drop == OrphanAt(messages, i)
  {
    var toolCallId := messages[i].toolCallId.GetOr("");
    var j := i;
    while j > 0 && IsTool(messages[j - 1])
      invariant 0 <= j <= i
      invariant Preceding(messages, j) == Preceding(messages, i)
    {
      j := j - 1;
    }
    if j == 0 || messages[j - 1].role != Some("assistant") {
      return false;
    }
    var calls := messages[j - 1].toolCalls.GetOr([]);
    var k := 0;
    while k < |calls|
      invariant 0 <= k <= |calls|
      invariant forall c :: 0 <= c < k ==> calls[c].id != Some(toolCallId)
    {
      if calls[k].id == Some(toolCallId) {
        return false;
      }
      k := k + 1;
    }
    return true;
  }

  method SanitizeToolMessagePairing(messages: seq<Wire>) returns (r: seq<Wire>)
    ensures r == Sanitize(messages)
  {
    hide OrphanAt;
    var dropIndices: set<nat> := {};
    var i := 0;
    while i < |messages|
      invariant 0 <= i <= |messages|
      invariant forall k :: k in dropIndices ==> k < i
      invariant forall k :: 0 <= k < i ==> (k in dropIndices <==> OrphanAt(messages, k))
    {
      OrphansAreTools(messages, i);
      if IsTool(messages[i]) {
        var drop := Unpaired(messages, i);
        if drop {
          dropIndices := dropIndices + {i};
        }
      }
      i := i + 1;
    }
    if dropIndices == {} {
      NothingDropped(messages, |messages|);
      assert messages[..|messages|] == messages;
      return messages;
    }
    r := [];
    i := 0;
    while i < |messages|
      invariant 0 <= i <= |messages|
      invariant r == Sanitized(messages, i)
    {
      if i !in dropIndices {
        r := r + [messages[i]];
      }
      i := i + 1;
    }
  }

  /** A tool result whose nearest earlier message that is no tool result is an assistant's, without its call. */
  ghost predicate Unmatched(ms: seq<Wire>, i: nat)
    requires i < |ms|
  {
    ms[i].role == Some("tool") && exists j :: Misses(ms, j, i)
  }

  ghost predicate Misses(ms: seq<Wire>, j: int, i: nat)
    requires i < |ms|
  {
    && 0 <= j < i && ms[j].role == Some("assistant") && (forall k :: j < k < i ==> ms[k].role == Some("tool"))
    && var id := if ms[i].toolCallId.Some? then ms[i].toolCallId.value else "";
       ms[j].toolCalls.Some? ==>
         forall c :: 0 <= c < |ms[j].toolCalls.value| ==> ms[j].toolCalls.value[c].id != Some(id)
  }

  lemma {:induction false} PrecedingIs(ms: seq<Wire>, i: nat, j: nat)
    requires j < i <= |ms| && ms[j].role != Some("tool") && forall k :: j < k < i ==> ms[k].role == Some("tool")
    ensures Preceding(ms, i) == Some(ms[j])
  {
    if j < i - 1 {
      PrecedingIs(ms, i - 1, j);
    }
  }

  lemma {:induction false} PrecedingAt(ms: seq<Wire>, i: nat) returns (j: nat)
    requires i <= |ms| && Preceding(ms, i).Some?
    ensures j < i && ms[j].role != Some("tool") && forall k :: j < k < i ==> ms[k].role == Some("tool")
    ensures Preceding(ms, i) == Some(ms[j])
  {
    if ms[i - 1].role != Some("tool") {
      j := i - 1;
    } else {
      j := PrecedingAt(ms, i - 1);
    }
  }

  lemma OrphanExactly(ms: seq<Wire>, i: nat)
    requires i < |ms|
    ensures OrphanAt(ms, i) <==> Unmatched(ms, i)
  {
    hide Preceding;
    if OrphanAt(ms, i) {
      var j := PrecedingAt(ms, i);
      assert Misses(ms, j, i);
    }
    if Unmatched(ms, i) {
      var j :| Misses(ms, j, i);
      PrecedingIs(ms, i, j);
    }
  }

  /** The pass goes through the messages once and drops exactly the unmatched results. */
  lemma PassDropsExactly(ms: seq<Wire>, n: nat)
    requires n < |ms|
    ensures Sanitized(ms, 0) == [] && Sanitize(ms) == Sanitized(ms, |ms|)
    ensures Sanitized(ms, n + 1) == Sanitized(ms, n) + if Unmatched(ms, n) then [] else [ms[n]]
  {
    hide OrphanAt;
    OrphanExactly(ms, n);
  }

  lemma {:induction false} NothingDropped(ms: seq<Wire>, n: nat)
    requires n <= |ms| && forall i :: 0 <= i < n ==> !OrphanAt(ms, i)
    ensures Sanitized(ms, n) == ms[..n]
  {
    if n > 0 {
      NothingDropped(ms, n - 1);
    }
  }

  function NonTools(ms: seq<Wire>): seq<Wire> {
    if ms == [] then []
    else NonTools(ms[..|ms| - 1]) + (if IsTool(ms[|ms| - 1]) then [] else [ms[|ms| - 1]])
  }

  lemma {:induction false} PrecedingAppend(a: seq<Wire>, b: seq<Wire>, i: nat)
    requires i <= |a|
    ensures Preceding(a + b, i) == Preceding(a, i)
  {
    if i > 0 {
      PrecedingAppend(a, b, i - 1);
    }
  }

  lemma CleanSnoc(ms: seq<Wire>, m: Wire)
    ensures Clean(ms + [m]) <==> Clean(ms) && !Orphan(m, Preceding(ms, |ms|))
    ensures Preceding(ms + [m], |ms| + 1) == if IsTool(m) then Preceding(ms, |ms|) else Some(m)
  {
    hide OrphanAt, Preceding;
    var all := ms + [m];
    forall i: nat | i < |ms| ensures OrphanAt(all, i) == OrphanAt(ms, i) {
      OrphanAppend(ms, [m], i);
    }
    PrecedingAppend(ms, [m], |ms|);
    PrecedingSnoc(all, |all|);
    assert OrphanAt(all, |ms|) == Orphan(m, Preceding(ms, |ms|)) by {
      LastOrphan(ms, m);
    }
  }

  lemma LastOrphan(ms: seq<Wire>, m: Wire)
    ensures OrphanAt(ms + [m], |ms|) == Orphan(m, Preceding(ms, |ms|))
  {
    hide Orphan, Preceding;
    PrecedingAppend(ms, [m], |ms|);
  }

  lemma OrphanAppend(a: seq<Wire>, b: seq<Wire>, i: nat)
    requires i < |a|
    ensures OrphanAt(a + b, i) == OrphanAt(a, i)
  {
    hide Orphan, Preceding;
    PrecedingAppend(a, b, i);
  }

  lemma {:induction false} SanitizedPrefix(ms: seq<Wire>, n: nat)
    requires n <= |ms|
    ensures var out := Sanitized(ms, n);
            && Clean(out)
            && Preceding(out, |out|) == Preceding(ms, n)
            && NonTools(out) == NonTools(ms[..n])
  {
    hide Orphan, Clean, Preceding;
    if n == 0 {
      assert Clean([]) && Preceding([], 0) == Preceding(ms, 0) by {
        NothingPrecedes(ms);
      }
    } else {
      var out, m := Sanitized(ms, n - 1), ms[n - 1];
      SanitizedPrefix(ms, n - 1);
      CleanSnoc(out, m);
      PrecedingSnoc(ms, n);
      assert ms[..n][..n - 1] == ms[..n - 1];
      assert (out + [m])[..|out|] == out;
      assert out + [] == out;
      assert NonTools(out) + [] == NonTools(out);
      OrphansAreTools(ms, n - 1);
    }
  }

  lemma NothingPrecedes(ms: seq<Wire>)
    ensures Clean([]) && Preceding([], 0) == Preceding(ms, 0)
  {
  }

  lemma PrecedingSnoc(ms: seq<Wire>, n: nat)
    requires 0 < n <= |ms|
    ensures Preceding(ms, n) == if IsTool(ms[n - 1]) then Preceding(ms, n - 1) else Some(ms[n - 1])
  {
  }

  lemma OrphansAreTools(ms: seq<Wire>, i: nat)
    requires i < |ms|
    ensures OrphanAt(ms, i) ==> IsTool(ms[i])
  {
  }

  /** On any messages the pass leaves no orphan, keeps every other message in order, and is idempotent. */
  lemma SanitizeLeavesNoOrphan(ms: seq<Wire>)
    ensures Clean(Sanitize(ms))
    ensures NonTools(Sanitize(ms)) == NonTools(ms)
    ensures Sanitize(Sanitize(ms)) == Sanitize(ms)
  {
    hide Clean, Sanitized;
    SanitizedPrefix(ms, |ms|);
    assert ms[..|ms|] == ms;
    FixedExactlyWhenClean(Sanitize(ms));
  }

  /** The messages left alone are exactly the orphan-free ones. */
  lemma FixedExactlyWhenClean(ms: seq<Wire>)
    ensures Sanitize(ms) == ms <==> Clean(ms)
  {
    if Clean(ms) {
      NothingDropped(ms, |ms|);
      assert ms[..|ms|] == ms;
    } else {
      SanitizedPrefix(ms, |ms|);
    }
  }
}
