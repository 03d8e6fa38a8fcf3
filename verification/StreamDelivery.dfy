/** Cutting a response into chunks: every response can be delivered, at any cuts. */
module StreamDelivery {
  import opened Prelude
  import opened ChatStream
  import opened StreamLaws
  import opened StreamRefinement

  /** The pieces of the content, and of each call's arguments. */
  datatype Cuts = Cuts(texts: seq<string>, arguments: seq<seq<string>>)

  predicate CutsUp(cuts: Cuts, r: ChatResponse) {
    r.choices != [] &&
    var c := r.choices[0];
    && |c.toolCalls| < U32_LIMIT && |cuts.arguments| == |c.toolCalls|
    && Flatten(cuts.texts) == c.content.GetOr("")
    && forall i :: 0 <= i < |c.toolCalls| ==>
         cuts.arguments[i] != [] && Flatten(cuts.arguments[i]) == c.toolCalls[i].arguments
  }

  function ChunkOf(r: ChatResponse, choice: Choice): Chunk {
    Chunk(r.id, Some(r.model), [choice], None)
  }

  function TextChunks(r: ChatResponse, texts: seq<string>): seq<Chunk> {
    if texts == [] then [] else [ChunkOf(r, Choice(Some(texts[0]), [], None))] + TextChunks(r, texts[1..])
  }

  /** The id and name of a call go out with its first piece only. */
  function CallChunks(r: ChatResponse, i: U32, first: Option<ResponseCall>, pieces: seq<string>): seq<Chunk>
    decreases |pieces|
  {
    if pieces == [] then []
    else [ChunkOf(r, Choice(None, [FragmentOf(i, first, pieces[0])], None))] + CallChunks(r, i, None, pieces[1..])
  }

  function FragmentOf(i: U32, first: Option<ResponseCall>, piece: string): Fragment {
    if first.Some? then Fragment(i, Some(first.value.id), Some(first.value.name), Some(piece))
    else Fragment(i, None, None, Some(piece))
  }

  /** The chunks of the first `n` calls, call after call. */
  function AllCallChunks(r: ChatResponse, calls: seq<ResponseCall>, arguments: seq<seq<string>>, n: nat): seq<Chunk>
    requires n <= |calls| == |arguments| < U32_LIMIT
  {
    if n == 0 then []
    else AllCallChunks(r, calls, arguments, n - 1) + CallChunks(r, n - 1, Some(calls[n - 1]), arguments[n - 1])
  }

  /** The response as chunks: its content, its calls, and a last chunk with the finish reason and the usage. */
  function Cut(r: ChatResponse, cuts: Cuts): seq<Chunk>
    requires CutsUp(cuts, r)
  {
    var c := r.choices[0];
    TextChunks(r, cuts.texts) + AllCallChunks(r, c.toolCalls, cuts.arguments, |c.toolCalls|)
    + [Chunk(r.id, Some(r.model), [Choice(None, [], c.finishReason)], r.usage)]
  }

  // ----- reading actions stretch by stretch

  lemma {:induction false} ReadsAppend(a: seq<Action>, b: seq<Action>, i: U32)
    ensures ArgumentsOf(a + b, i) == ArgumentsOf(a, i) + ArgumentsOf(b, i)
    ensures FirstFragment(a + b, i) == if FirstFragment(a, i).Some? then FirstFragment(a, i) else FirstFragment(b, i)
    ensures ContentOf(a + b) == ContentOf(a) + ContentOf(b)
    ensures LastBill(a + b) == if LastBill(b).Some? then LastBill(b) else LastBill(a)
  {
    hide ArgumentsOf, FirstFragment, ContentOf, LastBill;
    if b == [] {
      assert a + b == a;
      ReadNone(i);
      assert ArgumentsOf(a, i) + "" == ArgumentsOf(a, i) && ContentOf(a) + "" == ContentOf(a);
    } else {
      var front, last := b[..|b| - 1], b[|b| - 1];
      ReadsAppend(a, front, i);
      assert a + b == (a + front) + [last] && b == front + [last];
      ReadSnoc(a + front, last, i);
      ReadSnoc(front, last, i);
    }
  }

  ghost predicate IndicesBelow(actions: seq<Action>, n: nat) {
    forall k :: 0 <= k < |actions| && actions[k].Feed? ==> actions[k].fragment.index < n
  }

  /** What a stretch of chunks carries: this text, this usage, and fragments of tools below `n` only. */
  ghost predicate Carries(chunks: seq<Chunk>, text: string, bill: Option<Usage>, n: nat) {
    && ContentOf(Actions(chunks)) == text && LastBill(Actions(chunks)) == bill
    && IndicesBelow(Actions(chunks), n)
  }

  /** What a stretch of chunks carries for tool `i`. */
  ghost predicate CarriesTool(chunks: seq<Chunk>, i: U32, arguments: string, first: Option<Fragment>) {
    ArgumentsOf(Actions(chunks), i) == arguments && FirstFragment(Actions(chunks), i) == first
  }

  lemma CarriesAppend(a: seq<Chunk>, b: seq<Chunk>, text: string, more: string, bill: Option<Usage>, n: nat)
    requires Carries(a, text, None, n) && Carries(b, more, bill, n)
    ensures Carries(a + b, text + more, bill, n)
  {
    hide Actions, ContentOf, LastBill;
    ActionsAppend(a, b);
    ReadsAppend(Actions(a), Actions(b), 0);
  }

  lemma CarriesToolAppend(a: seq<Chunk>, b: seq<Chunk>, i: U32, x: string, y: string, f: Option<Fragment>,
                          g: Option<Fragment>)
    requires CarriesTool(a, i, x, f) && CarriesTool(b, i, y, g)
    ensures CarriesTool(a + b, i, x + y, if f.Some? then f else g)
  {
    hide Actions, ArgumentsOf, FirstFragment;
    ActionsAppend(a, b);
    ReadsAppend(Actions(a), Actions(b), i);
  }

  lemma NoChunksCarry(n: nat, i: U32)
    ensures Carries([], "", None, n) && CarriesTool([], i, "", None)
  {
  }

  lemma OneChunk(chunk: Chunk, choice: Choice)
    requires chunk.choices == [choice]
    ensures Actions([chunk]) == ChunkHeader(chunk) + ChoiceActions(choice)
  {
    hide ChunkHeader, ChoiceActions;
    assert [chunk][..0] == [] && [choice][..0] == [];
    assert ChoicesActions([choice]) == [] + ChoiceActions(choice) == ChoiceActions(choice);
    assert Actions([chunk]) == [] + ChunkActions(chunk) == ChunkActions(chunk);
  }

  lemma ReadNone(i: U32)
    ensures ArgumentsOf([], i) == "" && FirstFragment([], i) == None && ContentOf([]) == "" && LastBill([]) == None
  {
  }

  lemma TextChunkCarries(r: ChatResponse, text: string, n: nat, i: U32)
    ensures var chunks := [ChunkOf(r, Choice(Some(text), [], None))];
            Carries(chunks, text, None, n) && CarriesTool(chunks, i, "", None)
  {
    hide Actions, ArgumentsOf, FirstFragment, ContentOf, LastBill;
    var choice := Choice(Some(text), [], None);
    var chunk := ChunkOf(r, choice);
    OneChunk(chunk, choice);
    ReadNone(i);
    ReadSnoc([], Open(r.id, Some(r.model)), i);
    ReadSnoc([Open(r.id, Some(r.model))], Say(text), i);
    assert [] + [Open(r.id, Some(r.model))] == [Open(r.id, Some(r.model))];
    if text == "" {
      assert Actions([chunk]) == [Open(r.id, Some(r.model))];
    } else {
      assert Actions([chunk]) == [Open(r.id, Some(r.model))] + [Say(text)];
    }
  }

  lemma CallChunkCarries(r: ChatResponse, f: Fragment, n: nat, i: U32)
    requires f.index < n
    ensures var chunks := [ChunkOf(r, Choice(None, [f], None))];
            && Carries(chunks, "", None, n)
            && CarriesTool(chunks, i, if f.index == i then f.arguments.GetOr("") else "",
                           if f.index == i then Some(f) else None)
  {
    hide Actions, ArgumentsOf, FirstFragment, ContentOf, LastBill;
    var choice := Choice(None, [f], None);
    var chunk := ChunkOf(r, choice);
    OneChunk(chunk, choice);
    assert [f][..0] == [];
    assert ChatStream.Feeds([f], false) == [] + [Feed(f, false)];
    ReadNone(i);
    ReadSnoc([], Open(r.id, Some(r.model)), i);
    ReadSnoc([Open(r.id, Some(r.model))], Feed(f, false), i);
    assert [] + [Open(r.id, Some(r.model))] == [Open(r.id, Some(r.model))];
    assert Actions([chunk]) == [Open(r.id, Some(r.model))] + [Feed(f, false)];
  }

  lemma LastChunkCarries(r: ChatResponse, reason: Option<string>, n: nat, i: U32)
    ensures var chunks := [Chunk(r.id, Some(r.model), [Choice(None, [], reason)], r.usage)];
            Carries(chunks, "", r.usage, n) && CarriesTool(chunks, i, "", None)
  {
    hide Actions, ArgumentsOf, FirstFragment, ContentOf, LastBill;
    var choice := Choice(None, [], reason);
    var chunk := Chunk(r.id, Some(r.model), [choice], r.usage);
    OneChunk(chunk, choice);
    var open := [Open(r.id, Some(r.model))];
    var bill := if r.usage.Some? then [Bill(r.usage.value)] else [];
    var end := if reason.Some? then [Conclude(reason.value)] else [];
    ReadNone(i);
    ReadSnoc([], open[0], i);
    assert [] + open == open;
    if r.usage.Some? {
      ReadSnoc(open, bill[0], i);
    } else {
      assert open + bill == open;
    }
    if reason.Some? {
      ReadSnoc(open + bill, end[0], i);
    } else {
      assert open + bill + end == open + bill;
    }
    assert Actions([chunk]) == open + bill + end;
  }

  lemma {:induction false} TextChunksCarry(r: ChatResponse, texts: seq<string>, n: nat, i: U32)
    ensures Carries(TextChunks(r, texts), Flatten(texts), None, n) && CarriesTool(TextChunks(r, texts), i, "", None)
  {
    hide Carries, CarriesTool;
    NoChunksCarry(n, i);
    if texts != [] {
      var head := [ChunkOf(r, Choice(Some(texts[0]), [], None))];
      TextChunkCarries(r, texts[0], n, i);
      TextChunksCarry(r, texts[1..], n, i);
      CarriesAppend(head, TextChunks(r, texts[1..]), texts[0], Flatten(texts[1..]), None, n);
      CarriesToolAppend(head, TextChunks(r, texts[1..]), i, "", "", None, None);
      assert "" + "" == "";
    }
  }

  lemma {:induction false} CallChunksCarry(r: ChatResponse, j: U32, first: Option<ResponseCall>, pieces: seq<string>,
                                           n: nat, i: U32)
    requires j < n
    ensures var chunks := CallChunks(r, j, first, pieces);
            && Carries(chunks, "", None, n)
            && CarriesTool(chunks, i, if i == j then Flatten(pieces) else "",
                           if i == j && pieces != [] then Some(FragmentOf(j, first, pieces[0])) else None)
    decreases |pieces|
  {
    hide Carries, CarriesTool;
    NoChunksCarry(n, i);
    if pieces != [] {
      var f, rest := FragmentOf(j, first, pieces[0]), pieces[1..];
      var head := [ChunkOf(r, Choice(None, [f], None))];
      CallChunkCarries(r, f, n, i);
      CallChunksCarry(r, j, None, rest, n, i);
      CarriesAppend(head, CallChunks(r, j, None, rest), "", "", None, n);
      CarriesToolAppend(head, CallChunks(r, j, None, rest), i, if i == j then pieces[0] else "",
                        if i == j then Flatten(rest) else "", if i == j then Some(f) else None,
                        if i == j && rest != [] then Some(FragmentOf(j, None, rest[0])) else None);
      assert "" + "" == "";
    }
  }

  lemma {:induction false} AllCallChunksCarry(r: ChatResponse, calls: seq<ResponseCall>, arguments: seq<seq<string>>,
                                              n: nat, i: U32)
    requires n <= |calls| == |arguments| < U32_LIMIT
    requires forall k :: 0 <= k < |arguments| ==> arguments[k] != []
    ensures var chunks := AllCallChunks(r, calls, arguments, n);
            && Carries(chunks, "", None, |calls|)
            && CarriesTool(chunks, i, if i < n then Flatten(arguments[i]) else "",
                           if i < n then Some(FragmentOf(i, Some(calls[i]), arguments[i][0])) else None)
  {
    hide Carries, CarriesTool;
    NoChunksCarry(|calls|, i);
    if n > 0 {
      var j: U32 := n - 1;
      var front, last := AllCallChunks(r, calls, arguments, j), CallChunks(r, j, Some(calls[j]), arguments[j]);
      AllCallChunksCarry(r, calls, arguments, j, i);
      CallChunksCarry(r, j, Some(calls[j]), arguments[j], |calls|, i);
      CarriesAppend(front, last, "", "", None, |calls|);
      CarriesToolAppend(front, last, i, if i < j then Flatten(arguments[i]) else "",
                        if i == j then Flatten(arguments[j]) else "",
                        if i < j then Some(FragmentOf(i, Some(calls[i]), arguments[i][0])) else None,
                        if i == j then Some(FragmentOf(j, Some(calls[j]), arguments[j][0])) else None);
      assert "" + "" == "";
      assert i < j ==> Flatten(arguments[i]) + "" == Flatten(arguments[i]);
      assert i == j ==> "" + Flatten(arguments[j]) == Flatten(arguments[j]);
    }
  }

  /** Whatever the cuts, the chunks deliver the response. */
  lemma CutDelivers(r: ChatResponse, cuts: Cuts)
    requires CutsUp(cuts, r)
    ensures Delivers(r, Cut(r, cuts))
  {
    hide Actions, ContentOf, LastBill, ArgumentsOf, FirstFragment, Carries, CarriesTool;
    var c := r.choices[0];
    var n := |c.toolCalls|;
    CutCarries(r, cuts);
    Uncarry(Cut(r, cuts), c.content.GetOr(""), r.usage, n);
    forall i: U32 | i < n ensures DeliversCall(Actions(Cut(r, cuts)), i, c.toolCalls[i]) {
      CutCarriesTool(r, cuts, i);
      UncarryTool(Cut(r, cuts), i, c.toolCalls[i].arguments,
                  Some(FragmentOf(i, Some(c.toolCalls[i]), cuts.arguments[i][0])));
    }
  }

  lemma Uncarry(chunks: seq<Chunk>, text: string, bill: Option<Usage>, n: nat)
    requires Carries(chunks, text, bill, n)
    ensures ContentOf(Actions(chunks)) == text && LastBill(Actions(chunks)) == bill && IndicesBelow(Actions(chunks), n)
  {
  }

  lemma UncarryTool(chunks: seq<Chunk>, i: U32, arguments: string, first: Option<Fragment>)
    requires CarriesTool(chunks, i, arguments, first)
    ensures ArgumentsOf(Actions(chunks), i) == arguments && FirstFragment(Actions(chunks), i) == first
  {
  }

  lemma CutCarries(r: ChatResponse, cuts: Cuts)
    requires CutsUp(cuts, r)
    ensures Carries(Cut(r, cuts), r.choices[0].content.GetOr(""), r.usage, |r.choices[0].toolCalls|)
  {
    hide Carries, CarriesTool, TextChunks, AllCallChunks;
    var c := r.choices[0];
    var n := |c.toolCalls|;
    var texts, calls := TextChunks(r, cuts.texts), AllCallChunks(r, c.toolCalls, cuts.arguments, n);
    var last := [Chunk(r.id, Some(r.model), [Choice(None, [], c.finishReason)], r.usage)];
    var content := Flatten(cuts.texts);
    TextChunksCarry(r, cuts.texts, n, 0);
    AllCallChunksCarry(r, c.toolCalls, cuts.arguments, n, 0);
    LastChunkCarries(r, c.finishReason, n, 0);
    CarriesAppend(texts, calls, content, "", None, n);
    CarriesAppend(texts + calls, last, content + "", "", r.usage, n);
    assert content + "" + "" == content;
  }

  lemma CutCarriesTool(r: ChatResponse, cuts: Cuts, i: U32)
    requires CutsUp(cuts, r) && i < |r.choices[0].toolCalls|
    ensures var call := r.choices[0].toolCalls[i];
            CarriesTool(Cut(r, cuts), i, call.arguments, Some(FragmentOf(i, Some(call), cuts.arguments[i][0])))
  {
    hide Carries, CarriesTool, TextChunks, AllCallChunks, FragmentOf;
    var c := r.choices[0];
    var n := |c.toolCalls|;
    var texts, calls := TextChunks(r, cuts.texts), AllCallChunks(r, c.toolCalls, cuts.arguments, n);
    var last := [Chunk(r.id, Some(r.model), [Choice(None, [], c.finishReason)], r.usage)];
    var arguments, first := c.toolCalls[i].arguments, Some(FragmentOf(i, Some(c.toolCalls[i]), cuts.arguments[i][0]));
    TextChunksCarry(r, cuts.texts, n, i);
    AllCallChunksCarry(r, c.toolCalls, cuts.arguments, n, i);
    LastChunkCarries(r, c.finishReason, n, i);
    CarriesToolAppend(texts, calls, i, "", arguments, None, first);
    CarriesToolAppend(texts + calls, last, i, "" + arguments, "", first, None);
    assert "" + arguments + "" == arguments;
  }
}
