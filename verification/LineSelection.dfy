/** Greedy selection of lines by priority within a budget of lines and characters. */
module LineSelection {
  import opened Prelude

  const CORE_DETAILS: seq<string> := [
    "- Scope:", "- Current work:", "- Pending work:", "- Key files referenced:", "- Tools mentioned:",
    "- Recent user requests:", "- Previously compacted context:", "- Newly compacted context:"]

  predicate IsCoreDetail(line: string) {
    exists i :: 0 <= i < |CORE_DETAILS| && StartsWith(line, CORE_DETAILS[i])
  }

  predicate IsSectionHeader(line: string) {
    line != "" && line[|line| - 1] == ':'
  }

  function LinePriority(line: string): (priority: nat)
    ensures priority <= 3
  {
    if line == "Summary:" || line == "Conversation summary:" || IsCoreDetail(line) then 0
    else if IsSectionHeader(line) then 1
    else if StartsWith(line, "- ") || StartsWith(line, "  - ") then 2
    else 3
  }

  function Total(lines: seq<string>): nat {
    if lines == [] then 0 else Total(lines[..|lines| - 1]) + |lines[|lines| - 1]|
  }

  function JoinedCharCount(lines: seq<string>): nat {
    Total(lines) + if lines == [] then 0 else |lines| - 1
  }

  /** The chosen lines in their original order. */
  function Picked(lines: seq<string>, chosen: set<nat>): seq<string> {
    if lines == [] then []
    else
      var last := |lines| - 1;
      Picked(lines[..last], chosen) + if last in chosen then [lines[last]] else []
  }

  /** The limits may be negative; then nothing fits. */
  datatype Budget = Budget(lines: int, chars: int)

  predicate Within(lines: seq<string>, budget: Budget) {
    |lines| <= budget.lines && JoinedCharCount(lines) <= budget.chars
  }

  /** There is room for line `i` beside the chosen lines. */
  predicate Fits(lines: seq<string>, budget: Budget, chosen: set<nat>, i: nat)
    requires i < |lines|
  {
    Within(Picked(lines, chosen) + [lines[i]], budget)
  }

  /** The selection after the rounds below `priority` and the first `n` lines of that round. */
  function Scan(lines: seq<string>, budget: Budget, priority: nat, n: nat): (chosen: set<nat>)
    requires n <= |lines|
    ensures forall k :: k in chosen ==> k < |lines|
    decreases priority, n
  {
    if n == 0 then (if priority == 0 then {} else Scan(lines, budget, priority - 1, |lines|))
    else
      var before := Scan(lines, budget, priority, n - 1);
      if n - 1 !in before && LinePriority(lines[n - 1]) == priority && Fits(lines, budget, before, n - 1)
      then before + {n - 1}
      else before
  }

  function Selection(lines: seq<string>, budget: Budget): (chosen: set<nat>)
    ensures forall k :: k in chosen ==> k < |lines|
  {
    Scan(lines, budget, 3, |lines|)
  }

  method SelectLines(lines: seq<string>, maxLines: int, maxChars: int) returns (selected: seq<string>)
    ensures selected == Picked(lines, Selection(lines, Budget(maxLines, maxChars)))
  {
    hide LinePriority, JoinedCharCount, Picked;
    ghost var budget := Budget(maxLines, maxChars);
    var chosen: set<nat> := {};
    var priority := 0;
    while priority <= 3
      invariant 0 <= priority <= 4
      invariant chosen == Scan(lines, budget, priority, 0)
    {
      var i := 0;
      while i < |lines|
        invariant 0 <= i <= |lines|
        invariant chosen == Scan(lines, budget, priority, i)
      {
        var at := i;
        i := i + 1;
        if at in chosen || LinePriority(lines[at]) != priority {
          continue;
        }
        var candidate := Picked(lines, chosen) + [lines[at]];
        if |candidate| > maxLines || JoinedCharCount(candidate) > maxChars {
          continue;
        }
        chosen := chosen + {at};
      }
      priority := priority + 1;
    }
    selected := Picked(lines, chosen);
  }

  // ----- what the greedy selection is

  /** Line `k` is considered before line `i`. */
  predicate Earlier(lines: seq<string>, k: nat, i: nat)
    requires k < |lines| && i < |lines|
  {
    || LinePriority(lines[k]) < LinePriority(lines[i])
    || (LinePriority(lines[k]) == LinePriority(lines[i]) && k < i)
  }

  function Before(lines: seq<string>, chosen: set<nat>, i: nat): set<nat>
    requires i < |lines|
  {
    set k | k in chosen && k < |lines| && Earlier(lines, k, i)
  }

  /** Every line is chosen exactly when it fits beside the chosen lines considered before it. */
  ghost predicate Greedy(lines: seq<string>, budget: Budget, chosen: set<nat>) {
    && (forall k :: k in chosen ==> k < |lines|)
    && forall i: nat :: i < |lines| ==> (i in chosen <==> Fits(lines, budget, Before(lines, chosen, i), i))
  }

  /** The lines the scan has considered. */
  predicate Considered(lines: seq<string>, priority: nat, n: nat, k: nat)
    requires k < |lines|
  {
    LinePriority(lines[k]) < priority || (LinePriority(lines[k]) == priority && k < n)
  }

  ghost predicate GreedySoFar(lines: seq<string>, budget: Budget, chosen: set<nat>, priority: nat, n: nat) {
    && (forall k :: k in chosen ==> k < |lines| && Considered(lines, priority, n, k))
    && forall i: nat :: i < |lines| && Considered(lines, priority, n, i)
         ==> (i in chosen <==> Fits(lines, budget, Before(lines, chosen, i), i))
  }

  lemma {:induction false} ScanIsGreedy(lines: seq<string>, budget: Budget, priority: nat, n: nat)
    requires n <= |lines|
    ensures GreedySoFar(lines, budget, Scan(lines, budget, priority, n), priority, n)
    decreases priority, n
  {
    hide Fits, LinePriority, GreedySoFar;
    if n == 0 {
      if priority == 0 {
        NothingConsidered(lines, budget);
      } else {
        ScanIsGreedy(lines, budget, priority - 1, |lines|);
        RoundEnds(lines, budget, Scan(lines, budget, priority - 1, |lines|), priority);
      }
    } else {
      ScanIsGreedy(lines, budget, priority, n - 1);
      ScanStep(lines, budget, Scan(lines, budget, priority, n - 1), priority, n);
    }
  }

  lemma NothingConsidered(lines: seq<string>, budget: Budget)
    ensures GreedySoFar(lines, budget, {}, 0, 0)
  {
    hide Fits, LinePriority;
  }

  lemma RoundEnds(lines: seq<string>, budget: Budget, chosen: set<nat>, priority: nat)
    requires priority > 0 && GreedySoFar(lines, budget, chosen, priority - 1, |lines|)
    ensures GreedySoFar(lines, budget, chosen, priority, 0)
  {
    hide Fits, LinePriority, Before;
    forall i: nat | i < |lines|
      ensures Considered(lines, priority, 0, i) == Considered(lines, priority - 1, |lines|, i)
    {
    }
  }

  lemma ScanStep(lines: seq<string>, budget: Budget, chosen: set<nat>, priority: nat, n: nat)
    requires 0 < n <= |lines| && GreedySoFar(lines, budget, chosen, priority, n - 1)
    ensures var at := n - 1;
            var next := if at !in chosen && LinePriority(lines[at]) == priority && Fits(lines, budget, chosen, at)
                        then chosen + {at} else chosen;
            GreedySoFar(lines, budget, next, priority, n)
  {
    hide Fits, LinePriority;
    var at: nat := n - 1;
    assert !Considered(lines, priority, n - 1, at) ==> at !in chosen;
    if LinePriority(lines[at]) == priority {
      assert Before(lines, chosen, at) == chosen;
      var next := if Fits(lines, budget, chosen, at) then chosen + {at} else chosen;
      assert Before(lines, next, at) == chosen;
      forall i: nat | i < |lines| && Considered(lines, priority, n - 1, i)
        ensures Before(lines, next, i) == Before(lines, chosen, i)
      {
      }
    }
  }

  /** The scan computes the greedy selection. */
  lemma SelectionIsGreedy(lines: seq<string>, budget: Budget)
    ensures Greedy(lines, budget, Selection(lines, budget))
  {
    hide Fits, Scan, Before;
    ScanIsGreedy(lines, budget, 3, |lines|);
    var chosen := Selection(lines, budget);
    assert forall k: nat :: k < |lines| ==> Considered(lines, 3, |lines|, k);
  }

  lemma {:induction false} SameDecision(lines: seq<string>, budget: Budget, a: set<nat>, b: set<nat>, i: nat)
    requires Greedy(lines, budget, a) && Greedy(lines, budget, b) && i < |lines|
    ensures i in a <==> i in b
    decreases LinePriority(lines[i]), i
  {
    hide Fits, LinePriority;
    forall k: nat | k < |lines| && Earlier(lines, k, i) ensures k in a <==> k in b {
      SameDecision(lines, budget, a, b, k);
    }
    assert Before(lines, a, i) == Before(lines, b, i);
  }

  /** The description determines the selection. */
  lemma GreedyIsUnique(lines: seq<string>, budget: Budget, a: set<nat>, b: set<nat>)
    requires Greedy(lines, budget, a) && Greedy(lines, budget, b)
    ensures a == b
  {
    forall k: nat | k < |lines| ensures k in a <==> k in b {
      SameDecision(lines, budget, a, b, k);
    }
    assert forall k :: k in a ==> k < |lines|;
    assert forall k :: k in b ==> k < |lines|;
  }

  // ----- counting chosen lines

  lemma TotalSnoc(lines: seq<string>, line: string)
    ensures Total(lines + [line]) == Total(lines) + |line|
  {
    assert (lines + [line])[..|lines|] == lines;
  }

  lemma {:induction false} PickedCount(lines: seq<string>, chosen: set<nat>)
    requires forall k :: k in chosen ==> k < |lines|
    ensures |Picked(lines, chosen)| == |chosen|
  {
    if lines == [] {
      if k :| k in chosen {
        assert false;
      }
      assert chosen == {};
    } else {
      var last := |lines| - 1;
      PickedSame(lines[..last], chosen, chosen - {last});
      PickedCount(lines[..last], chosen - {last});
    }
  }

  /** Only the choice among the lines present matters. */
  lemma {:induction false} PickedSame(lines: seq<string>, a: set<nat>, b: set<nat>)
    requires forall k: nat :: k < |lines| ==> (k in a <==> k in b)
    ensures Picked(lines, a) == Picked(lines, b)
  {
    if lines != [] {
      PickedSame(lines[..|lines| - 1], a, b);
    }
  }

  lemma PickedLast(lines: seq<string>, chosen: set<nat>)
    requires lines != []
    ensures var last := |lines| - 1;
            var front := Picked(lines[..last], chosen);
            && |Picked(lines, chosen)| == |front| + (if last in chosen then 1 else 0)
            && Total(Picked(lines, chosen)) == Total(front) + (if last in chosen then |lines[last]| else 0)
  {
    var last := |lines| - 1;
    var front := Picked(lines[..last], chosen);
    TotalSnoc(front, lines[last]);
    assert front + [] == front;
  }

  lemma {:induction false} PickedGrows(lines: seq<string>, a: set<nat>, b: set<nat>)
    requires a <= b
    ensures |Picked(lines, a)| <= |Picked(lines, b)| && Total(Picked(lines, a)) <= Total(Picked(lines, b))
  {
    if lines != [] {
      var last := |lines| - 1;
      PickedGrows(lines[..last], a, b);
      PickedLast(lines, a);
      PickedLast(lines, b);
    }
  }

  lemma {:induction false} PickedAdd(lines: seq<string>, chosen: set<nat>, i: nat)
    requires i < |lines| && i !in chosen
    ensures |Picked(lines, chosen + {i})| == |Picked(lines, chosen)| + 1
    ensures Total(Picked(lines, chosen + {i})) == Total(Picked(lines, chosen)) + |lines[i]|
  {
    var last := |lines| - 1;
    var front := lines[..last];
    PickedLast(lines, chosen);
    PickedLast(lines, chosen + {i});
    if i == last {
      PickedSame(front, chosen, chosen + {i});
    } else {
      PickedAdd(front, chosen, i);
    }
  }

  /** A line fits exactly when the selection with it keeps both budgets. */
  lemma FitsMeans(lines: seq<string>, budget: Budget, chosen: set<nat>, i: nat)
    requires i < |lines| && i !in chosen
    ensures Fits(lines, budget, chosen, i) <==> Within(Picked(lines, chosen + {i}), budget)
  {
    hide Picked;
    PickedAdd(lines, chosen, i);
    TotalSnoc(Picked(lines, chosen), lines[i]);
  }

  lemma FitsShrinks(lines: seq<string>, budget: Budget, a: set<nat>, b: set<nat>, i: nat)
    requires i < |lines| && a <= b && Fits(lines, budget, b, i)
    ensures Fits(lines, budget, a, i)
  {
    hide Picked;
    PickedGrows(lines, a, b);
    TotalSnoc(Picked(lines, a), lines[i]);
    TotalSnoc(Picked(lines, b), lines[i]);
  }

  lemma {:induction false} LatestExists(lines: seq<string>, chosen: set<nat>)
    requires chosen != {} && forall k :: k in chosen ==> k < |lines|
    ensures exists i :: i in chosen && forall k :: k in chosen ==> k == i || Earlier(lines, k, i)
  {
    hide LinePriority;
    var x :| x in chosen;
    if rest: nat :| rest in chosen - {x} {
      LatestExists(lines, chosen - {x});
      var m :| m in chosen - {x} && forall k :: k in chosen - {x} ==> k == m || Earlier(lines, k, m);
      var w := if Earlier(lines, m, x) then x else m;
      forall k | k in chosen ensures k == w || Earlier(lines, k, w) {
        assert k == x || k in chosen - {x};
      }
    } else {
      assert chosen == {x} by {
        assert forall k :: k in chosen ==> k !in chosen - {x};
      }
    }
  }

  /** A greedy selection keeps both budgets; under a negative one it is empty. */
  lemma GreedyKeepsBudgets(lines: seq<string>, budget: Budget, chosen: set<nat>)
    requires Greedy(lines, budget, chosen)
    ensures Picked(lines, chosen) == [] || Within(Picked(lines, chosen), budget)
    ensures budget.lines >= 0 && budget.chars >= 0 ==> Within(Picked(lines, chosen), budget)
  {
    hide Fits, LinePriority, Picked;
    if chosen == {} {
      PickedNone(lines);
    } else {
      LatestExists(lines, chosen);
      var i :| i in chosen && forall k :: k in chosen ==> k == i || Earlier(lines, k, i);
      var before := Before(lines, chosen, i);
      assert before == chosen - {i};
      FitsMeans(lines, budget, before, i);
      assert before + {i} == chosen;
    }
  }

  lemma {:induction false} PickedNone(lines: seq<string>)
    ensures Picked(lines, {}) == []
  {
    if lines != [] {
      PickedNone(lines[..|lines| - 1]);
    }
  }

  /** Adding any omitted line to a greedy selection breaks a budget. */
  lemma GreedyIsMaximal(lines: seq<string>, budget: Budget, chosen: set<nat>, i: nat)
    requires Greedy(lines, budget, chosen) && i < |lines| && i !in chosen
    ensures !Within(Picked(lines, chosen + {i}), budget)
    ensures !Fits(lines, budget, chosen, i)
  {
    hide Fits, LinePriority, Picked, Within;
    FitsMeans(lines, budget, chosen, i);
    if Fits(lines, budget, chosen, i) {
      FitsShrinks(lines, budget, Before(lines, chosen, i), chosen, i);
    }
  }

  /** A line omitted because its turn came with the line budget spent has no better priority than any chosen line. */
  lemma LineCapKeepsPriority(lines: seq<string>, budget: Budget, chosen: set<nat>, i: nat, k: nat)
    requires Greedy(lines, budget, chosen) && i < |lines| && k in chosen
    requires |Picked(lines, Before(lines, chosen, i))| + 1 > budget.lines
    ensures LinePriority(lines[k]) <= LinePriority(lines[i])
  {
    hide Fits, LinePriority, Picked, Greedy;
    var before := Before(lines, chosen, i);
    assert forall k :: k in chosen ==> k < |lines| by { ChosenInRange(lines, budget, chosen); }
    PickedCount(lines, chosen);
    PickedCount(lines, before);
    GreedyKeepsBudgets(lines, budget, chosen);
    if k !in before {
      assert before <= chosen - {k};
      SubsetCount(before, chosen - {k});
    }
  }

  lemma ChosenInRange(lines: seq<string>, budget: Budget, chosen: set<nat>)
    requires Greedy(lines, budget, chosen)
    ensures forall k :: k in chosen ==> k < |lines|
  {
  }

  lemma {:induction false} SubsetCount(a: set<nat>, b: set<nat>)
    requires a <= b
    ensures |a| <= |b|
  {
    if x :| x in a {
      SubsetCount(a - {x}, b - {x});
    }
  }

  /** What `SelectLines` returns. */
  lemma SelectionMeans(lines: seq<string>, budget: Budget)
    ensures var chosen := Selection(lines, budget);
            && (Picked(lines, chosen) == [] || Within(Picked(lines, chosen), budget))
            && (budget.lines >= 0 && budget.chars >= 0 ==> Within(Picked(lines, chosen), budget))
            && |Picked(lines, chosen)| == |chosen|
            && (forall i: nat :: i < |lines| && i !in chosen ==> !Within(Picked(lines, chosen + {i}), budget))
            && forall i: nat, k: nat ::
                 i < |lines| && k in chosen && |Picked(lines, Before(lines, chosen, i))| + 1 > budget.lines
                 ==> LinePriority(lines[k]) <= LinePriority(lines[i])
  {
    hide Picked, LinePriority, Scan, Within, Greedy, Selection;
    var chosen := Selection(lines, budget);
    SelectionIsGreedy(lines, budget);
    GreedyKeepsBudgets(lines, budget, chosen);
    PickedCount(lines, chosen);
    forall i: nat | i < |lines| && i !in chosen ensures !Within(Picked(lines, chosen + {i}), budget) {
      GreedyIsMaximal(lines, budget, chosen, i);
    }
    forall i: nat, k: nat |
      i < |lines| && k in chosen && |Picked(lines, Before(lines, chosen, i))| + 1 > budget.lines
      ensures LinePriority(lines[k]) <= LinePriority(lines[i])
    {
      LineCapKeepsPriority(lines, budget, chosen, i, k);
    }
  }

  // ----- priorities and order, exactly

  /** A detail every summary should keep. */
  predicate IsDetail(line: string) {
    || "- Scope:" <= line || "- Current work:" <= line || "- Pending work:" <= line
    || "- Key files referenced:" <= line || "- Tools mentioned:" <= line || "- Recent user requests:" <= line
    || "- Previously compacted context:" <= line || "- Newly compacted context:" <= line
  }

  lemma DetailsExactly(line: string)
    ensures IsCoreDetail(line) <==> IsDetail(line)
  {
    assert |CORE_DETAILS| == 8;
    assert CORE_DETAILS[0] == "- Scope:" && CORE_DETAILS[1] == "- Current work:";
    assert CORE_DETAILS[2] == "- Pending work:";
    assert CORE_DETAILS[3] == "- Key files referenced:" && CORE_DETAILS[4] == "- Tools mentioned:";
    assert CORE_DETAILS[5] == "- Recent user requests:" && CORE_DETAILS[6] == "- Previously compacted context:";
    assert CORE_DETAILS[7] == "- Newly compacted context:";
  }

  /** Titles and core details come first, then lines that end in a colon, then list items, then the rest. */
  lemma PriorityExactly(line: string)
    ensures var first := line == "Summary:" || line == "Conversation summary:" || IsDetail(line);
            var heading := line != "" && line[|line| - 1] == ':';
            var item := "- " <= line || "  - " <= line;
            && (LinePriority(line) == 0 <==> first)
            && (LinePriority(line) == 1 <==> !first && heading)
            && (LinePriority(line) == 2 <==> !first && !heading && item)
            && (LinePriority(line) == 3 <==> !first && !heading && !item)
  {
    hide IsCoreDetail, IsDetail;
    DetailsExactly(line);
  }

  /** The chosen lines are those at the chosen positions, in ascending order of position. */
  lemma {:induction false} PickedInOrder(lines: seq<string>, chosen: set<nat>)
    requires forall k :: k in chosen ==> k < |lines|
    ensures var at := Ascending(chosen);
            && |Picked(lines, chosen)| == |at|
            && forall i :: 0 <= i < |at| ==> at[i] < |lines| && Picked(lines, chosen)[i] == lines[at[i]]
  {
    hide Ascending;
    if lines == [] {
      if k :| k in chosen {
        assert false;
      }
      assert chosen == {};
      NoneAscending();
    } else {
      var last := |lines| - 1;
      var front, rest := lines[..last], chosen - {last};
      PickedSame(front, chosen, rest);
      PickedInOrder(front, rest);
      if last in chosen {
        AscendingLast(chosen, last);
      } else {
        assert rest == chosen;
      }
    }
  }

  lemma NoneAscending()
    ensures Ascending({}) == []
  {
  }

  lemma AscendingLast(chosen: set<nat>, last: nat)
    requires last in chosen && forall k :: k in chosen ==> k <= last
    ensures Ascending(chosen) == Ascending(chosen - {last}) + [last]
  {
    hide Ascending;
    var front := Ascending(chosen - {last});
    forall k ensures k in Ascending(chosen) <==> k in front + [last] {
    }
    AscendingUnique(Ascending(chosen), front + [last]);
  }
}
