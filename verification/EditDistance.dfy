/** Suggestions for misspelled configuration keys: the two-row edit distance and the closest-key search. */
module EditDistance {
  import opened Prelude

  function Min(a: nat, b: nat): nat {
    if a <= b then a else b
  }

  function Cost(x: char, y: char): nat {
    if x == y then 0 else 1
  }

  /** The recursive edit distance. */
  function Distance(a: string, b: string): nat
    decreases |a| + |b|
  {
    if a == "" then |b|
    else if b == "" then |a|
    else
      var a', b' := a[..|a| - 1], b[..|b| - 1];
      Min(Min(Distance(a', b) + 1, Distance(a, b') + 1), Distance(a', b') + Cost(a[|a| - 1], b[|b| - 1]))
  }

  method Levenshtein(a: string, b: string) returns (d: nat)
    ensures d == Distance(a, b)
  {
    if |a| == 0 {
      return |b|;
    }
    if |b| == 0 {
      return |a|;
    }
    hide PrefixDistance;
    var prev := new nat[|b| + 1](i => i);
    var curr := new nat[|b| + 1](i => 0);
    FirstRow(a, b);
    var i := 0;
    while i < |a|
      invariant 0 <= i <= |a|
      invariant forall k :: 0 <= k <= |b| ==> prev[k] == PrefixDistance(a, b, i, k)
    {
      curr[0] := i + 1;
      FirstColumn(a, b, i + 1);
      var j := 0;
      while j < |b|
        invariant 0 <= j <= |b|
        invariant forall k :: 0 <= k <= |b| ==> prev[k] == PrefixDistance(a, b, i, k)
        invariant forall k :: 0 <= k <= j ==> curr[k] == PrefixDistance(a, b, i + 1, k)
      {
        var cost := if a[i] == b[j] then 0 else 1;
        Cell(a, b, i, j);
        curr[j + 1] := Min(Min(prev[j + 1] + 1, curr[j] + 1), prev[j] + cost);
        j := j + 1;
      }
      forall k | 0 <= k <= |b| {
        prev[k] := curr[k];
      }
      i := i + 1;
    }
    LastCell(a, b);
    return prev[|b|];
  }

  ghost function PrefixDistance(a: string, b: string, i: nat, j: nat): nat
    requires i <= |a| && j <= |b|
  {
    Distance(a[..i], b[..j])
  }

  lemma FirstRow(a: string, b: string)
    ensures forall k :: 0 <= k <= |b| ==> PrefixDistance(a, b, 0, k) == k
  {
  }

  lemma FirstColumn(a: string, b: string, i: nat)
    requires i <= |a|
    ensures PrefixDistance(a, b, i, 0) == i
  {
  }

  lemma LastCell(a: string, b: string)
    ensures PrefixDistance(a, b, |a|, |b|) == Distance(a, b)
  {
    assert a[..|a|] == a && b[..|b|] == b;
  }

  lemma Cell(a: string, b: string, i: nat, j: nat)
    requires i < |a| && j < |b|
    ensures PrefixDistance(a, b, i + 1, j + 1)
            == Min(Min(PrefixDistance(a, b, i, j + 1) + 1, PrefixDistance(a, b, i + 1, j) + 1),
                   PrefixDistance(a, b, i, j) + Cost(a[i], b[j]))
  {
    hide Distance;
    assert a[..i + 1] == a[..i] + [a[i]] && b[..j + 1] == b[..j] + [b[j]];
    Unfold(a[..i], a[i], b[..j], b[j]);
  }

  // ----- the distance is the least number of single edits

  /** One character inserted, deleted or substituted, anywhere. */
  ghost predicate OneEdit(s: string, t: string) {
    || (exists u: string, c: char, v: string :: Splits(s, u, v) && t == u + [c] + v)
    || (exists u: string, c: char, v: string :: Splits(t, u, v) && s == u + [c] + v)
    || (exists u: string, c: char, d: char, v: string :: Splices(s, u, c, v) && t == u + [d] + v)
  }

  ghost predicate Splits(s: string, u: string, v: string) {
    s == u + v
  }

  ghost predicate Splices(s: string, u: string, c: char, v: string) {
    s == u + [c] + v
  }

  /** A chain of single edits from its first string to its last. */
  ghost predicate Script(steps: seq<string>, a: string, b: string) {
    && steps != [] && steps[0] == a && steps[|steps| - 1] == b
    && forall k :: 0 <= k < |steps| - 1 ==> OneEdit(steps[k], steps[k + 1])
  }

  lemma Unfold(a: string, x: char, b: string, y: char)
    ensures Distance(a + [x], b + [y])
            == Min(Min(Distance(a, b + [y]) + 1, Distance(a + [x], b) + 1), Distance(a, b) + Cost(x, y))
  {
    assert (a + [x])[..|a|] == a && (b + [y])[..|b|] == b;
  }

  lemma Snoc(s: string)
    requires s != ""
    ensures s == s[..|s| - 1] + [s[|s| - 1]]
  {
  }

  /** Dropping or adding a last character moves the distance by at most one. */
  lemma {:induction false} LastInsert(a: string, u: string, c: char)
    ensures Distance(a, u + [c]) <= Distance(a, u) + 1
    ensures Distance(a, u) <= Distance(a, u + [c]) + 1
    decreases |a|
  {
    if a != "" {
      var a', x := a[..|a| - 1], a[|a| - 1];
      Snoc(a);
      Unfold(a', x, u, c);
      LastInsert(a', u, c);
      LastDelete(a', x, u);
    }
  }

  lemma {:induction false} LastDelete(a: string, x: char, u: string)
    ensures Distance(a + [x], u) <= Distance(a, u) + 1
    decreases |u|
  {
    if u != "" {
      var u', y := u[..|u| - 1], u[|u| - 1];
      Snoc(u);
      Unfold(a, x, u', y);
    }
  }

  lemma {:induction false} Inserted(a: string, u: string, c: char, v: string)
    ensures Distance(a, u + [c] + v) <= Distance(a, u + v) + 1
    ensures Distance(a, u + v) <= Distance(a, u + [c] + v) + 1
    decreases |a| + |v|
  {
    hide Distance;
    if v == "" {
      assert u + [c] + v == u + [c] && u + v == u;
      LastInsert(a, u, c);
    } else if a == "" {
      EmptyLeft(u + [c] + v);
      EmptyLeft(u + v);
    } else {
      var a', x, v', y := a[..|a| - 1], a[|a| - 1], v[..|v| - 1], v[|v| - 1];
      Snoc(a);
      Snoc(v);
      assert u + [c] + v == (u + [c] + v') + [y] && u + v == (u + v') + [y];
      Unfold(a', x, u + [c] + v', y);
      Unfold(a', x, u + v', y);
      Inserted(a', u, c, v);
      Inserted(a, u, c, v');
      Inserted(a', u, c, v');
    }
  }

  lemma EmptyLeft(s: string)
    ensures Distance("", s) == |s|
  {
  }

  lemma {:induction false} Substituted(a: string, u: string, c: char, d: char, v: string)
    ensures Distance(a, u + [d] + v) <= Distance(a, u + [c] + v) + 1
    decreases |a| + |v|
  {
    hide Distance;
    if a == "" {
      EmptyLeft(u + [c] + v);
      EmptyLeft(u + [d] + v);
    } else if v == "" {
      var a', x := a[..|a| - 1], a[|a| - 1];
      Snoc(a);
      assert u + [c] + v == u + [c] && u + [d] + v == u + [d];
      Unfold(a', x, u, c);
      Unfold(a', x, u, d);
      Substituted(a', u, c, d, v);
    } else {
      var a', x, v', y := a[..|a| - 1], a[|a| - 1], v[..|v| - 1], v[|v| - 1];
      Snoc(a);
      Snoc(v);
      assert u + [c] + v == (u + [c] + v') + [y] && u + [d] + v == (u + [d] + v') + [y];
      Unfold(a', x, u + [c] + v', y);
      Unfold(a', x, u + [d] + v', y);
      Substituted(a', u, c, d, v);
      Substituted(a, u, c, d, v');
      Substituted(a', u, c, d, v');
    }
  }

  lemma EditMovesByOne(a: string, s: string, t: string)
    requires OneEdit(s, t)
    ensures Distance(a, t) <= Distance(a, s) + 1
  {
    hide Distance;
    if u: string, c: char, v: string :| Splits(s, u, v) && t == u + [c] + v {
      Inserted(a, u, c, v);
    } else if u: string, c: char, v: string :| Splits(t, u, v) && s == u + [c] + v {
      Inserted(a, u, c, v);
    } else {
      var u: string, c: char, d: char, v: string :| Splices(s, u, c, v) && t == u + [d] + v;
      Substituted(a, u, c, d, v);
    }
  }

  lemma {:induction false} DistanceToSelf(a: string)
    ensures Distance(a, a) == 0
    decreases |a|
  {
    if a != "" {
      DistanceToSelf(a[..|a| - 1]);
    }
  }

  /** No script is shorter than the distance. */
  lemma {:induction false} ScriptsAreLongEnough(steps: seq<string>, a: string, b: string)
    requires Script(steps, a, b)
    ensures Distance(a, b) <= |steps| - 1
    decreases |steps|
  {
    hide Distance, OneEdit;
    if |steps| == 1 {
      DistanceToSelf(a);
    } else {
      var front := steps[..|steps| - 1];
      ScriptsAreLongEnough(front, a, front[|front| - 1]);
      EditMovesByOne(a, front[|front| - 1], b);
    }
  }

  lemma EditsAtEnd(a: string, c: char, d: char)
    ensures OneEdit(a, a + [c]) && OneEdit(a + [c], a) && OneEdit(a + [c], a + [d])
  {
    assert Splits(a, a, "") && a + [c] == a + [c] + "";
    assert Splices(a + [c], a, c, "") && a + [d] == a + [d] + "";
  }

  ghost function Extend(steps: seq<string>, c: char): seq<string> {
    seq(|steps|, k requires 0 <= k < |steps| => steps[k] + [c])
  }

  lemma ExtendEdit(s: string, t: string, c: char)
    requires OneEdit(s, t)
    ensures OneEdit(s + [c], t + [c])
  {
    if u: string, x: char, v: string :| Splits(s, u, v) && t == u + [x] + v {
      assert Splits(s + [c], u, v + [c]) && t + [c] == u + [x] + (v + [c]);
    } else if u: string, x: char, v: string :| Splits(t, u, v) && s == u + [x] + v {
      assert Splits(t + [c], u, v + [c]) && s + [c] == u + [x] + (v + [c]);
    } else {
      var u: string, x: char, y: char, v: string :| Splices(s, u, x, v) && t == u + [y] + v;
      assert Splices(s + [c], u, x, v + [c]) && t + [c] == u + [y] + (v + [c]);
    }
  }

  lemma ExtendScript(steps: seq<string>, a: string, b: string, c: char)
    requires Script(steps, a, b)
    ensures Script(Extend(steps, c), a + [c], b + [c])
  {
    hide OneEdit;
    var longer := Extend(steps, c);
    forall k | 0 <= k < |longer| - 1 ensures OneEdit(longer[k], longer[k + 1]) {
      ExtendEdit(steps[k], steps[k + 1], c);
    }
  }

  lemma ScriptSnoc(steps: seq<string>, a: string, m: string, b: string)
    requires Script(steps, a, m) && OneEdit(m, b)
    ensures Script(steps + [b], a, b)
  {
    hide OneEdit;
  }

  lemma ScriptCons(a: string, m: string, b: string, steps: seq<string>)
    requires OneEdit(a, m) && Script(steps, m, b)
    ensures Script([a] + steps, a, b)
  {
    hide OneEdit;
    var all := [a] + steps;
    forall k | 0 <= k < |all| - 1 ensures OneEdit(all[k], all[k + 1]) {
      assert k > 0 ==> all[k] == steps[k - 1] && all[k + 1] == steps[k];
    }
  }

  /** Some script reaches the distance. */
  lemma {:induction false} ShortestScript(a: string, b: string) returns (steps: seq<string>)
    ensures Script(steps, a, b) && |steps| - 1 == Distance(a, b)
    decreases |a| + |b|
  {
    hide OneEdit;
    if a == "" && b == "" {
      steps := [a];
    } else if a == "" {
      var b', y := b[..|b| - 1], b[|b| - 1];
      steps := ShortestScript(a, b');
      EditsAtEnd(b', y, y);
      Snoc(b);
      ScriptSnoc(steps, a, b', b);
      steps := steps + [b];
    } else if b == "" {
      var a', x := a[..|a| - 1], a[|a| - 1];
      steps := ShortestScript(a', b);
      DistanceToEmpty(a');
      EditsAtEnd(a', x, x);
      Snoc(a);
      ScriptCons(a, a', b, steps);
      steps := [a] + steps;
    } else {
      steps := ShortestOfThree(a, b);
    }
  }

  lemma DistanceToEmpty(a: string)
    ensures Distance(a, "") == |a|
  {
  }

  lemma {:induction false} ShortestOfThree(a: string, b: string) returns (steps: seq<string>)
    requires a != "" && b != ""
    ensures Script(steps, a, b) && |steps| - 1 == Distance(a, b)
    decreases |a| + |b|, 0
  {
    hide OneEdit, Script;
    var a', x, b', y := a[..|a| - 1], a[|a| - 1], b[..|b| - 1], b[|b| - 1];
    Snoc(a);
    Snoc(b);
    if Distance(a, b) == Distance(a', b) + 1 {
      steps := ShortestScript(a', b);
      EditsAtEnd(a', x, x);
      ScriptCons(a, a', b, steps);
      steps := [a] + steps;
    } else if Distance(a, b) == Distance(a, b') + 1 {
      steps := ShortestScript(a, b');
      EditsAtEnd(b', y, y);
      ScriptSnoc(steps, a, b', b);
      steps := steps + [b];
    } else {
      steps := ShortestScript(a', b');
      ExtendScript(steps, a', b', x);
      steps := Extend(steps, x);
      if x != y {
        EditsAtEnd(b', x, y);
        ScriptSnoc(steps, a, b' + [x], b);
        steps := steps + [b];
      }
    }
  }

  /** The distance is the length of a shortest script: one of that length exists, and none is shorter. */
  lemma DistanceIsLeastScript(a: string, b: string)
    ensures exists steps :: Script(steps, a, b) && |steps| - 1 == Distance(a, b)
    ensures forall steps :: Script(steps, a, b) ==> Distance(a, b) <= |steps| - 1
  {
    hide Script, Distance;
    var shortest := ShortestScript(a, b);
    forall steps | Script(steps, a, b) ensures Distance(a, b) <= |steps| - 1 {
      ScriptsAreLongEnough(steps, a, b);
    }
  }

  // ----- metric laws, read off the scripts

  lemma OneEditBack(s: string, t: string)
    requires OneEdit(s, t)
    ensures OneEdit(t, s)
  {
    if u: string, c: char, v: string :| Splits(s, u, v) && t == u + [c] + v {
    } else if u: string, c: char, v: string :| Splits(t, u, v) && s == u + [c] + v {
    } else {
      var u: string, c: char, d: char, v: string :| Splices(s, u, c, v) && t == u + [d] + v;
      assert Splices(t, u, d, v) && s == u + [c] + v;
    }
  }

  lemma {:induction false} Backwards(steps: seq<string>, a: string, b: string) returns (back: seq<string>)
    requires Script(steps, a, b)
    ensures Script(back, b, a) && |back| == |steps|
    decreases |steps|
  {
    hide OneEdit;
    if |steps| == 1 {
      back := steps;
    } else {
      var front := steps[..|steps| - 1];
      var m := front[|front| - 1];
      back := Backwards(front, a, m);
      OneEditBack(m, b);
      ScriptCons(b, m, a, back);
      back := [b] + back;
    }
  }

  lemma Joined(p: seq<string>, q: seq<string>, a: string, m: string, b: string)
    requires Script(p, a, m) && Script(q, m, b)
    ensures Script(p + q[1..], a, b) && |p + q[1..]| == |p| + |q| - 1
  {
    hide OneEdit;
    var all := p + q[1..];
    forall k | 0 <= k < |all| - 1 ensures OneEdit(all[k], all[k + 1]) {
      if k >= |p| - 1 {
        assert all[k + 1] == q[k + 1 - |p| + 1] && all[k] == q[k - |p| + 1];
      } else {
        assert all[k] == p[k] && all[k + 1] == p[k + 1];
      }
    }
    assert |q| == 1 ==> all == p && m == b;
  }

  /** The distance is a metric. */
  lemma DistanceIsMetric(a: string, b: string, c: string)
    ensures Distance(a, b) == 0 <==> a == b
    ensures Distance(a, b) == Distance(b, a)
    ensures Distance(a, c) <= Distance(a, b) + Distance(b, c)
  {
    hide Script, Distance;
    var ab := ShortestScript(a, b);
    var bc := ShortestScript(b, c);
    var ba := ShortestScript(b, a);
    var ab' := Backwards(ab, a, b);
    var ba' := Backwards(ba, b, a);
    ScriptsAreLongEnough(ab', b, a);
    ScriptsAreLongEnough(ba', a, b);
    Joined(ab, bc, a, b, c);
    ScriptsAreLongEnough(ab + bc[1..], a, c);
    DistanceToSelf(a);
    ScriptEnds(ab, a, b);
  }

  lemma ScriptEnds(steps: seq<string>, a: string, b: string)
    requires Script(steps, a, b)
    ensures |steps| == 1 ==> a == b
    ensures |steps| >= 1
  {
    hide OneEdit;
  }

  // ----- the closest known key

  const THRESHOLD: nat := 4

  function KeyDistance(lower: string -> string, input: string, key: string): nat {
    Distance(lower(input), lower(key))
  }

  /** The first known key of least distance, exactly when that distance is at most 3. */
  ghost predicate Suggests(lower: string -> string, input: string, keys: seq<string>, best: Option<string>) {
    if best.None? then forall k :: 0 <= k < |keys| ==> KeyDistance(lower, input, keys[k]) > 3
    else
      exists i ::
        FirstClosest(lower, input, keys, i) && keys[i] == best.value && KeyDistance(lower, input, keys[i]) <= 3
  }

  ghost predicate FirstClosest(lower: string -> string, input: string, keys: seq<string>, i: int) {
    && 0 <= i < |keys|
    && (forall k :: 0 <= k < |keys| ==> KeyDistance(lower, input, keys[i]) <= KeyDistance(lower, input, keys[k]))
    && (forall k :: 0 <= k < i ==> KeyDistance(lower, input, keys[i]) < KeyDistance(lower, input, keys[k]))
  }

  method SuggestKey(lower: string -> string, input: string, knownKeys: seq<string>) returns (best: Option<string>)
    ensures Suggests(lower, input, knownKeys, best)
  {
    hide Distance;
    var inputLower := lower(input);
    best := None;
    var bestDist := THRESHOLD;
    ghost var at := -1;
    var n := 0;
    while n < |knownKeys|
      invariant 0 <= n <= |knownKeys|
      invariant best.None? ==> bestDist == THRESHOLD
      invariant best.Some? ==> bestDist < THRESHOLD && 0 <= at < n && best == Some(knownKeys[at])
                               && bestDist == KeyDistance(lower, input, knownKeys[at])
                               && forall k :: 0 <= k < at ==> bestDist < KeyDistance(lower, input, knownKeys[k])
      invariant forall k :: 0 <= k < n ==> bestDist <= KeyDistance(lower, input, knownKeys[k])
    {
      var dist := Levenshtein(inputLower, lower(knownKeys[n]));
      if dist < bestDist {
        bestDist := dist;
        best := Some(knownKeys[n]);
        at := n;
      }
      n := n + 1;
    }
    if best.Some? {
      assert FirstClosest(lower, input, knownKeys, at);
    }
  }

  /** `Suggests` leaves no choice. */
  lemma SuggestionIsUnique(lower: string -> string, input: string, keys: seq<string>, p: Option<string>,
                           q: Option<string>)
    requires Suggests(lower, input, keys, p) && Suggests(lower, input, keys, q)
    ensures p == q
  {
    hide KeyDistance;
    if p.Some? && q.Some? {
      var i :| FirstClosest(lower, input, keys, i) && keys[i] == p.value;
      var j :| FirstClosest(lower, input, keys, j) && keys[j] == q.value;
      assert !(i < j) && !(j < i);
    }
  }
}
