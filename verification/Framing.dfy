/** Server-sent-event framing: a byte buffer that is cut at blank lines as pieces of a response body arrive. */
module Framing {
  import opened Prelude

  newtype byte = x: int | 0 <= x < 256

  const LF: byte := 10
  const CR: byte := 13
  const LF_LF: seq<byte> := [LF, LF]
  const CRLF_CRLF: seq<byte> := [CR, LF, CR, LF]

  /** `separator` stands at position `p` of `b`. */
  predicate At(b: seq<byte>, separator: seq<byte>, p: nat) {
    p + |separator| <= |b| && b[p..p + |separator|] == separator
  }

  /** `windows(n).position(..)`: the first position of `separator` at or after `from`. */
  function FindFrom(b: seq<byte>, separator: seq<byte>, from: nat): (r: Option<nat>)
    requires from <= |b| && separator != []
    ensures r.Some? ==> from <= r.value && At(b, separator, r.value)
                        && forall q :: from <= q < r.value ==> !At(b, separator, q)
    ensures r.None? ==> forall q :: from <= q ==> !At(b, separator, q)
    decreases |b| - from
  {
    if At(b, separator, from) then Some(from)
    else if from == |b| then None
    else FindFrom(b, separator, from + 1)
  }

  function Find(b: seq<byte>, separator: seq<byte>): (r: Option<nat>)
    requires separator != []
    ensures r.Some? ==> At(b, separator, r.value) && forall q :: 0 <= q < r.value ==> !At(b, separator, q)
    ensures r.None? ==> forall q :: 0 <= q ==> !At(b, separator, q)
  {
    FindFrom(b, separator, 0)
  }

  datatype Frame = Frame(bytes: seq<byte>, rest: seq<byte>)

  /** The next frame and what the buffer keeps: a blank LF line anywhere wins over a blank CRLF line. */
  function NextFrame(b: seq<byte>): (r: Option<Frame>)
    ensures r.Some? ==> |r.value.rest| < |b|
  {
    var lf := Find(b, LF_LF);
    if lf.Some? then Some(Frame(b[..lf.value], b[lf.value + 2..]))
    else
      var crlf := Find(b, CRLF_CRLF);
      if crlf.Some? then Some(Frame(b[..crlf.value], b[crlf.value + 4..])) else None
  }

  /** All complete frames of a buffer, and the leftover. */
  function Drain(b: seq<byte>): (seq<seq<byte>>, seq<byte>)
    decreases |b|
  {
    var next := NextFrame(b);
    if next.None? then ([], b)
    else
      var (frames, rest) := Drain(next.value.rest);
      ([next.value.bytes] + frames, rest)
  }

  // ----- what a cut is, in bytes

  /** `separator` stands nowhere in `w`. */
  ghost predicate Lacks(w: seq<byte>, separator: seq<byte>) {
    forall p: nat :: !At(w, separator, p)
  }

  /** `w` is a frame, the separator at its first place, and the rest. */
  ghost predicate CutAt(w: seq<byte>, frame: seq<byte>, separator: seq<byte>, rest: seq<byte>) {
    w == frame + separator + rest && forall p: nat :: p < |frame| ==> !At(w, separator, p)
  }

  /** One cut: at the first blank LF line, or, where none stands, at the first blank CRLF line. */
  ghost predicate CutOff(w: seq<byte>, frame: seq<byte>, rest: seq<byte>) {
    CutAt(w, frame, LF_LF, rest) || (Lacks(w, LF_LF) && CutAt(w, frame, CRLF_CRLF, rest))
  }

  ghost predicate Uncut(w: seq<byte>) {
    Lacks(w, LF_LF) && Lacks(w, CRLF_CRLF)
  }

  /** `w` is these frames, each cut off in turn with its separator, and a rest in which no separator stands. */
  ghost predicate Splits(w: seq<byte>, frames: seq<seq<byte>>, rest: seq<byte>)
    decreases |frames|
  {
    if frames == [] then w == rest && Uncut(w)
    else exists more :: CutOff(w, frames[0], more) && Splits(more, frames[1..], rest)
  }

  lemma NextCutsOff(b: seq<byte>)
    ensures NextFrame(b).None? <==> Uncut(b)
    ensures NextFrame(b).Some? ==> CutOff(b, NextFrame(b).value.bytes, NextFrame(b).value.rest)
  {
    var lf, crlf := Find(b, LF_LF), Find(b, CRLF_CRLF);
    if lf.Some? {
      assert b == b[..lf.value] + b[lf.value..lf.value + 2] + b[lf.value + 2..];
    } else if crlf.Some? {
      assert b == b[..crlf.value] + b[crlf.value..crlf.value + 4] + b[crlf.value + 4..];
    }
  }

  /** No byte is lost or invented: a buffer is its frames, their separators and its leftover. */
  lemma {:induction false} DrainSplits(b: seq<byte>)
    ensures Splits(b, Drain(b).0, Drain(b).1)
    decreases |b|
  {
    hide CutOff, Uncut, NextFrame;
    NextCutsOff(b);
    if NextFrame(b).Some? {
      var next := NextFrame(b).value;
      DrainSplits(next.rest);
      assert Drain(b).0[1..] == Drain(next.rest).0;
      assert CutOff(b, Drain(b).0[0], next.rest) && Splits(next.rest, Drain(b).0[1..], Drain(b).1);
    }
  }

  /** A buffer splits in one way only. */
  lemma {:induction false} SplitIsUnique(w: seq<byte>, fs: seq<seq<byte>>, r: seq<byte>, gs: seq<seq<byte>>,
                                         t: seq<byte>)
    requires Splits(w, fs, r) && Splits(w, gs, t)
    ensures fs == gs && r == t
    decreases |fs|
  {
    hide CutOff, Uncut;
    if fs != [] && gs != [] {
      var x :| CutOff(w, fs[0], x) && Splits(x, fs[1..], r);
      var y :| CutOff(w, gs[0], y) && Splits(y, gs[1..], t);
      CutIsUnique(w, fs[0], x, gs[0], y);
      SplitIsUnique(x, fs[1..], r, gs[1..], t);
      assert fs == [fs[0]] + fs[1..] && gs == [gs[0]] + gs[1..];
    } else if fs != [] {
      var x :| CutOff(w, fs[0], x) && Splits(x, fs[1..], r);
      CutOrUncut(w, fs[0], x);
    } else if gs != [] {
      var y :| CutOff(w, gs[0], y) && Splits(y, gs[1..], t);
      CutOrUncut(w, gs[0], y);
    }
  }

  lemma CutStands(w: seq<byte>, frame: seq<byte>, separator: seq<byte>, rest: seq<byte>)
    requires CutAt(w, frame, separator, rest)
    ensures At(w, separator, |frame|)
  {
    assert w[|frame|..|frame| + |separator|] == separator;
  }

  lemma CutOrUncut(w: seq<byte>, frame: seq<byte>, rest: seq<byte>)
    requires CutOff(w, frame, rest)
    ensures !Uncut(w)
  {
    if CutAt(w, frame, LF_LF, rest) {
      CutStands(w, frame, LF_LF, rest);
    } else {
      CutStands(w, frame, CRLF_CRLF, rest);
    }
  }

  lemma SameCut(w: seq<byte>, f: seq<byte>, x: seq<byte>, g: seq<byte>, y: seq<byte>, separator: seq<byte>)
    requires CutAt(w, f, separator, x) && CutAt(w, g, separator, y)
    ensures f == g && x == y
  {
    CutStands(w, f, separator, x);
    CutStands(w, g, separator, y);
    assert |f| == |g|;
    assert f == w[..|f|] && g == w[..|g|];
    assert x == w[|f| + |separator|..] && y == w[|g| + |separator|..];
  }

  lemma CutIsUnique(w: seq<byte>, f: seq<byte>, x: seq<byte>, g: seq<byte>, y: seq<byte>)
    requires CutOff(w, f, x) && CutOff(w, g, y)
    ensures f == g && x == y
  {
    hide CutAt;
    if CutAt(w, f, LF_LF, x) {
      CutStands(w, f, LF_LF, x);
      SameCut(w, f, x, g, y, LF_LF);
    } else {
      if CutAt(w, g, LF_LF, y) {
        CutStands(w, g, LF_LF, y);
        assert false;
      }
      SameCut(w, f, x, g, y, CRLF_CRLF);
    }
  }

  function PushAll(b: seq<byte>, pieces: seq<seq<byte>>): (seq<seq<byte>>, seq<byte>)
    decreases |pieces|
  {
    if pieces == [] then ([], b)
    else
      var (frames, rest) := Drain(b + pieces[0]);
      var (more, end) := PushAll(rest, pieces[1..]);
      (frames + more, end)
  }

  /** The buffer both stream parsers keep. */
  class FrameBuffer {
    var buffer: seq<byte>

    constructor ()
      ensures buffer == []
    {
      buffer := [];
    }

    method TakeFrame() returns (frame: Option<seq<byte>>)
      modifies this
      ensures match NextFrame(old(buffer))
              case None => frame == None && buffer == old(buffer)
              case Some(next) => frame == Some(next.bytes) && buffer == next.rest
      ensures frame.Some? ==> CutOff(old(buffer), frame.value, buffer)
      ensures frame.None? ==> Uncut(old(buffer)) && buffer == old(buffer)
    {
      hide CutOff, Uncut;
      NextCutsOff(buffer);
      var separator := Find(buffer, LF_LF);
      var length := 2;
      if separator.None? {
        separator := Find(buffer, CRLF_CRLF);
        length := 4;
      }
      if separator.None? {
        return None;
      }
      var drained := buffer[..separator.value + length];
      buffer := buffer[separator.value + length..];
      frame := Some(drained[..|drained| - length]);
      assert drained[..|drained| - length] == old(buffer)[..separator.value];
    }

    method Push(piece: seq<byte>) returns (frames: seq<seq<byte>>)
      modifies this
      ensures frames == Drain(old(buffer) + piece).0 && buffer == Drain(old(buffer) + piece).1
      ensures Splits(old(buffer) + piece, frames, buffer)
    {
      hide Splits, CutOff, Uncut, Drain, NextFrame;
      DrainSplits(buffer + piece);
      buffer := buffer + piece;
      ghost var whole := buffer;
      frames := [];
      DrainStep(buffer);
      var frame := TakeFrame();
      while frame.Some?
        invariant frame.Some? ==> Drain(whole).0 == frames + [frame.value] + Drain(buffer).0
        invariant frame.None? ==> Drain(whole).0 == frames && NextFrame(buffer).None?
        invariant Drain(whole).1 == Drain(buffer).1
        decreases |buffer|, frame.Some?
      {
        frames := frames + [frame.value];
        DrainStep(buffer);
        frame := TakeFrame();
      }
      DrainStep(buffer);
    }
  }

  /** Taking one frame off a buffer. */
  lemma DrainStep(b: seq<byte>)
    ensures NextFrame(b).None? ==> Drain(b) == ([], b)
    ensures NextFrame(b).Some? ==>
              var next := NextFrame(b).value;
              && Drain(b).0 == [next.bytes] + Drain(next.rest).0 && Drain(b).1 == Drain(next.rest).1
              && |next.rest| < |b|
  {
  }

  // ----- when the way a stream is cut does not matter

  ghost predicate CutsAgree(w: seq<byte>) {
    forall pieces :: Flatten(pieces) == w ==> PushAll([], pieces) == Drain(w)
  }

  /** No blank LF line stands after a blank CRLF line. */
  ghost predicate NoLfAfterCrlf(w: seq<byte>) {
    forall p: nat, q: nat :: At(w, CRLF_CRLF, p) && At(w, LF_LF, q) ==> q < p
  }

  lemma AtIn(b: seq<byte>, x: seq<byte>, separator: seq<byte>, p: nat)
    requires separator != []
    ensures At(b, separator, p) ==> At(b + x, separator, p)
    ensures At(b + x, separator, p) && p + |separator| <= |b| ==> At(b, separator, p)
  {
    if p + |separator| <= |b| {
      assert (b + x)[p..p + |separator|] == b[p..p + |separator|];
    }
  }

  lemma AtSuffix(w: seq<byte>, n: nat, separator: seq<byte>, p: nat)
    requires n <= |w|
    ensures At(w[n..], separator, p) <==> At(w, separator, n + p)
  {
    if n + p + |separator| <= |w| {
      assert w[n..][p..p + |separator|] == w[n + p..n + p + |separator|];
    }
  }

  lemma SuffixKeepsOrder(w: seq<byte>, n: nat)
    requires n <= |w| && NoLfAfterCrlf(w)
    ensures NoLfAfterCrlf(w[n..])
  {
    forall p: nat, q: nat | At(w[n..], CRLF_CRLF, p) && At(w[n..], LF_LF, q) ensures q < p {
      AtSuffix(w, n, CRLF_CRLF, p);
      AtSuffix(w, n, LF_LF, q);
    }
  }

  lemma Apart(w: seq<byte>, p: nat, q: nat)
    requires At(w, CRLF_CRLF, p) && At(w, LF_LF, q)
    ensures q + 2 <= p || p + 3 <= q
  {
    var x, y := w[p..p + 4], w[q..q + 2];
    assert x == CRLF_CRLF && y == LF_LF;
    assert x[0] == CR && x[1] == LF && x[2] == CR && x[3] == LF;
    assert y[0] == LF && y[1] == LF;
    assert x[0] == w[p] && x[1] == w[p + 1] && x[2] == w[p + 2] && x[3] == w[p + 3];
    assert y[0] == w[q] && y[1] == w[q + 1];
  }

  lemma FindIs(b: seq<byte>, separator: seq<byte>, p: nat)
    requires separator != [] && At(b, separator, p) && forall q :: 0 <= q < p ==> !At(b, separator, q)
    ensures Find(b, separator) == Some(p)
  {
  }

  lemma PartsOf(b: seq<byte>, x: seq<byte>, n: nat)
    requires n <= |b|
    ensures (b + x)[..n] == b[..n] && (b + x)[n..] == b[n..] + x
  {
  }

  /** A frame found in a prefix is the frame found in the whole. */
  lemma FrameExtends(b: seq<byte>, x: seq<byte>)
    requires NoLfAfterCrlf(b + x) && NextFrame(b).Some?
    ensures NextFrame(b + x) == Some(Frame(NextFrame(b).value.bytes, NextFrame(b).value.rest + x))
  {
    var w := b + x;
    var lf, crlf := Find(b, LF_LF), Find(b, CRLF_CRLF);
    if lf.Some? {
      var p := lf.value;
      AtIn(b, x, LF_LF, p);
      forall q | 0 <= q < p ensures !At(w, LF_LF, q) {
        AtIn(b, x, LF_LF, q);
      }
      FindIs(w, LF_LF, p);
      PartsOf(b, x, p);
      PartsOf(b, x, p + 2);
    } else {
      var p := crlf.value;
      AtIn(b, x, CRLF_CRLF, p);
      forall q: nat ensures !At(w, LF_LF, q) {
        AtIn(b, x, LF_LF, q);
        assert At(w, LF_LF, q) ==> q < p;
      }
      forall q | 0 <= q < p ensures !At(w, CRLF_CRLF, q) {
        AtIn(b, x, CRLF_CRLF, q);
      }
      FindIs(w, CRLF_CRLF, p);
      PartsOf(b, x, p);
      PartsOf(b, x, p + 4);
    }
  }

  lemma NextRest(b: seq<byte>)
    requires NextFrame(b).Some?
    ensures exists n :: 0 < n <= |b| && NextFrame(b).value.rest == b[n..]
  {
  }

  /** Draining a prefix first changes nothing; the leftover is a suffix without complete frames. */
  lemma {:induction false} DrainExtends(b: seq<byte>, x: seq<byte>)
    requires NoLfAfterCrlf(b + x)
    ensures Drain(b + x).0 == Drain(b).0 + Drain(Drain(b).1 + x).0
    ensures Drain(b + x).1 == Drain(Drain(b).1 + x).1
    ensures NoLfAfterCrlf(Drain(b).1 + x)
    decreases |b|
  {
    hide Find, At;
    if NextFrame(b).Some? {
      FrameExtends(b, x);
      NextRest(b);
      var rest := NextFrame(b).value.rest;
      var n :| 0 < n <= |b| && rest == b[n..];
      assert (b + x)[n..] == rest + x;
      SuffixKeepsOrder(b + x, n);
      DrainExtends(rest, x);
    }
  }

  lemma {:induction false} PushesAgree(b: seq<byte>, pieces: seq<seq<byte>>)
    requires NoLfAfterCrlf(b + Flatten(pieces)) && NextFrame(b).None?
    ensures PushAll(b, pieces) == Drain(b + Flatten(pieces))
    decreases |pieces|
  {
    hide NextFrame, NoLfAfterCrlf;
    if pieces == [] {
      assert b + Flatten(pieces) == b;
    } else {
      var x, tail := b + pieces[0], Flatten(pieces[1..]);
      assert b + Flatten(pieces) == x + tail;
      DrainExtends(x, tail);
      DrainEnds(x);
      PushesAgree(Drain(x).1, pieces[1..]);
    }
  }

  lemma {:induction false} DrainEnds(b: seq<byte>)
    ensures NextFrame(Drain(b).1).None?
    decreases |b|
  {
    if NextFrame(b).Some? {
      DrainEnds(NextFrame(b).value.rest);
    }
  }

  /** A blank LF line wholly before the cut is found on both sides of it. */
  lemma SharedFrame(w: seq<byte>, e: nat, c: nat)
    requires e <= |w| && Find(w, LF_LF) == Some(c) && c + 2 <= e
    ensures NextFrame(w) == Some(Frame(w[..c], w[c + 2..]))
    ensures NextFrame(w[..e]) == Some(Frame(w[..c], w[c + 2..][..e - c - 2]))
  {
    hide At;
    var cut := w[..e];
    assert w == cut + w[e..];
    AtIn(cut, w[e..], LF_LF, c);
    forall k | 0 <= k < c ensures !At(cut, LF_LF, k) {
      AtIn(cut, w[e..], LF_LF, k);
    }
    FindIs(cut, LF_LF, c);
    assert cut[..c] == w[..c] && cut[c + 2..] == w[c + 2..][..e - c - 2];
  }

  /** Without one, the prefix ends its first frame at a blank CRLF line and the whole stream does not. */
  lemma ShorterFrame(w: seq<byte>, p: nat, c: nat)
    requires Find(w, LF_LF) == Some(c) && p + 3 <= c && At(w, CRLF_CRLF, p)
    ensures p + 4 <= |w| && NextFrame(w).Some? && NextFrame(w[..p + 4]).Some?
    ensures |NextFrame(w[..p + 4]).value.bytes| <= p < |NextFrame(w).value.bytes|
  {
    hide At;
    AtBounds(w, CRLF_CRLF, p);
    AtBounds(w, LF_LF, c);
    var cut := w[..p + 4];
    assert w == cut + w[p + 4..];
    AtIn(cut, w[p + 4..], CRLF_CRLF, p);
    forall k: nat ensures !At(cut, LF_LF, k) {
      AtIn(cut, w[p + 4..], LF_LF, k);
      if At(cut, LF_LF, k) {
        AtBounds(cut, LF_LF, k);
      }
    }
  }

  /** The cut right after a blank CRLF line that some blank LF line follows gives other frames. */
  lemma {:induction false} CutDisagrees(w: seq<byte>, p: nat, q: nat)
    requires At(w, CRLF_CRLF, p) && At(w, LF_LF, q) && p <= q
    ensures var (frames, rest) := Drain(w[..p + 4]);
            frames + Drain(rest + w[p + 4..]).0 != Drain(w).0
    decreases |w|
  {
    hide At, NextFrame, Drain;
    AtBounds(w, CRLF_CRLF, p);
    Apart(w, p, q);
    var c := Find(w, LF_LF).value;
    AtBounds(w, LF_LF, c);
    Apart(w, p, c);
    if c < p {
      var v, p' := w[c + 2..], p - c - 2;
      AtSuffix(w, c + 2, CRLF_CRLF, p');
      AtSuffix(w, c + 2, LF_LF, q - c - 2);
      SharedFrame(w, p + 4, c);
      assert v[p' + 4..] == w[p + 4..];
      CutDisagrees(v, p', q - c - 2);
      FirstDrain(w);
      FirstDrain(w[..p + 4]);
      SameHead(w[..c], Drain(v[..p' + 4]).0, Drain(Drain(v[..p' + 4]).1 + w[p + 4..]).0, Drain(v).0);
    } else {
      ShorterFrame(w, p, c);
      FirstDrain(w);
      FirstDrain(w[..p + 4]);
      assert |Drain(w).0[0]| != |Drain(w[..p + 4]).0[0]|;
    }
  }

  lemma SameHead(head: seq<byte>, a: seq<seq<byte>>, b: seq<seq<byte>>, c: seq<seq<byte>>)
    requires a + b != c
    ensures [head] + a + b != [head] + c
  {
    assert ([head] + a + b)[1..] == a + b && ([head] + c)[1..] == c;
  }

  lemma FirstDrain(b: seq<byte>)
    requires NextFrame(b).Some?
    ensures Drain(b).0 == [NextFrame(b).value.bytes] + Drain(NextFrame(b).value.rest).0
    ensures Drain(b).1 == Drain(NextFrame(b).value.rest).1
  {
  }

  /**
   * Framing is independent of how the bytes are cut into pushes, frames and leftover alike, exactly for the streams
   * in which no blank LF line stands after a blank CRLF line.
   */
  lemma CutsAgreeExactlyWithoutLateLf(w: seq<byte>)
    ensures CutsAgree(w) <==> NoLfAfterCrlf(w)
  {
    hide Drain, NextFrame, At;
    if NoLfAfterCrlf(w) {
      forall pieces | Flatten(pieces) == w ensures PushAll([], pieces) == Drain(w) {
        NothingToFrame();
        assert [] + w == w;
        PushesAgree([], pieces);
      }
    } else {
      var p: nat, q: nat :| At(w, CRLF_CRLF, p) && At(w, LF_LF, q) && p <= q;
      CutDisagrees(w, p, q);
      AtBounds(w, CRLF_CRLF, p);
      TwoPushes(w, p + 4);
    }
  }

  lemma AtBounds(w: seq<byte>, separator: seq<byte>, p: nat)
    requires At(w, separator, p)
    ensures p + |separator| <= |w|
  {
  }

  lemma TwoPushes(w: seq<byte>, e: nat)
    requires e <= |w|
    ensures var pieces := [w[..e], w[e..]];
            Flatten(pieces) == w && PushAll([], pieces).0 == Drain(w[..e]).0 + Drain(Drain(w[..e]).1 + w[e..]).0
  {
    hide Drain;
    var pieces := [w[..e], w[e..]];
    assert pieces[1..] == [w[e..]] && pieces[1..][1..] == [];
    assert Flatten(pieces[1..]) == w[e..] + [] == w[e..];
    assert w[..e] + w[e..] == w;
    assert [] + w[..e] == w[..e];
    var second := Drain(Drain(w[..e]).1 + w[e..]).0;
    assert second + [] == second;
    assert PushAll(Drain(w[..e]).1, pieces[1..]).0 == second;
  }

  lemma NothingToFrame()
    ensures NextFrame([]).None?
  {
  }

  /** The two single-separator families are inside the exact condition. */
  lemma OneSeparatorSuffices(w: seq<byte>)
    ensures (forall p: nat :: !At(w, CRLF_CRLF, p)) || (forall q: nat :: !At(w, LF_LF, q)) ==> CutsAgree(w)
  {
    CutsAgreeExactlyWithoutLateLf(w);
  }
}
