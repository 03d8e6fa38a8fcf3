/** Reconciling a burst of lane events into one outcome. */
module LaneEvents {
  import opened Prelude

  datatype Name =
    | LaneStarted | LaneReady | LanePromptMisdelivery | LaneBlocked | LaneRed | LaneGreen | LaneCommitCreated
    | LanePrOpened | LaneMergeReady | LaneFinished | LaneFailed | LaneReconciled | LaneMerged | LaneSuperseded
    | LaneClosed | BranchStale | BranchWorkspaceMismatch | ShipPrepared | ShipCommitsSelected | ShipMerged
    | ShipPushedMain

  datatype Status =
    | Running | Ready | Blocked | Red | Green | Completed | Failed | Reconciled | Merged | Superseded | Closed

  /** `data` is the event's data written as JSON. */
  datatype LaneEvent =
    LaneEvent(name: Name, status: Status, emittedAt: string, number: int, fingerprint: Option<string>,
              failureClass: Option<string>, detail: Option<string>, data: Option<string>)

  datatype Terminality = Terminal | Advisory | Uncertainty

  function Classify(name: Name): Terminality {
    match name
    case LaneFinished | LaneFailed | LaneSuperseded | LaneClosed | LaneMerged => Terminal
    case LaneReconciled => Uncertainty
    case _ => Advisory
  }

  predicate IsTerminal(e: LaneEvent) {
    Classify(e.name) == Terminal
  }

  predicate MateriallyDiffer(a: LaneEvent, b: LaneEvent) {
    a.name != b.name || a.status != b.status || a.failureClass != b.failureClass || a.data != b.data
  }

  predicate SameFingerprint(a: LaneEvent, b: LaneEvent) {
    a.fingerprint.Some? && a.fingerprint == b.fingerprint
  }

  const TRANSPORT_DIED := "Session terminal state uncertain: transport died after terminal event"

  function Uncertain(e: LaneEvent): LaneEvent {
    e.(name := LaneReconciled, status := Reconciled, detail := Some(TRANSPORT_DIED))
  }

  // ----- stable sort by number

  function Insert(e: LaneEvent, sorted: seq<LaneEvent>): seq<LaneEvent> {
    if sorted == [] || sorted[|sorted| - 1].number <= e.number then sorted + [e]
    else Insert(e, sorted[..|sorted| - 1]) + [sorted[|sorted| - 1]]
  }

  function Sorted(events: seq<LaneEvent>): seq<LaneEvent> {
    if events == [] then [] else Insert(events[|events| - 1], Sorted(events[..|events| - 1]))
  }

  predicate InOrder(s: seq<LaneEvent>) {
    forall i, j :: 0 <= i < j < |s| ==> s[i].number <= s[j].number
  }

  predicate Distinct(s: seq<LaneEvent>) {
    forall i, j :: 0 <= i < j < |s| ==> s[i].number != s[j].number
  }

  lemma OrderOfFront(s: seq<LaneEvent>)
    requires InOrder(s) && s != []
    ensures InOrder(s[..|s| - 1])
    ensures forall x :: x in s[..|s| - 1] ==> x.number <= s[|s| - 1].number
  {
  }

  lemma OrderSnoc(s: seq<LaneEvent>, e: LaneEvent)
    requires InOrder(s) && forall x :: x in s ==> x.number <= e.number
    ensures InOrder(s + [e])
  {
    var all := s + [e];
    forall i, j | 0 <= i < j < |all| ensures all[i].number <= all[j].number {
      assert all[i] in s;
    }
  }

  lemma {:induction false} InsertMembers(e: LaneEvent, s: seq<LaneEvent>)
    ensures multiset(Insert(e, s)) == multiset(s) + multiset{e}
    ensures forall x :: x in Insert(e, s) <==> x == e || x in s
  {
    if s != [] && s[|s| - 1].number > e.number {
      InsertMembers(e, s[..|s| - 1]);
      assert s == s[..|s| - 1] + [s[|s| - 1]];
    }
  }

  lemma {:induction false} InsertSorts(e: LaneEvent, s: seq<LaneEvent>)
    requires InOrder(s)
    ensures InOrder(Insert(e, s))
  {
    hide InOrder;
    if s == [] {
      OrderSnoc([], e) by { OrderOfNone(); }
    } else {
      var front, last := s[..|s| - 1], s[|s| - 1];
      OrderOfFront(s);
      if last.number <= e.number {
        assert s == front + [last];
        OrderSnoc(s, e);
      } else {
        InsertMembers(e, front);
        InsertSorts(e, front);
        OrderSnoc(Insert(e, front), last);
      }
    }
  }

  lemma OrderOfNone()
    ensures InOrder([])
  {
  }

  lemma {:induction false} SortSorts(events: seq<LaneEvent>)
    ensures InOrder(Sorted(events))
    ensures multiset(Sorted(events)) == multiset(events)
    ensures forall x :: x in Sorted(events) <==> x in events
  {
    hide Insert, InOrder;
    OrderOfNone();
    if events != [] {
      var front, last := events[..|events| - 1], events[|events| - 1];
      SortSorts(front);
      InsertSorts(last, Sorted(front));
      InsertMembers(last, Sorted(front));
      assert events == front + [last];
    }
  }

  /** The events of one number, in the order they stand. */
  function AtNumber(s: seq<LaneEvent>, number: int): seq<LaneEvent> {
    if s == [] then []
    else AtNumber(s[..|s| - 1], number) + (if s[|s| - 1].number == number then [s[|s| - 1]] else [])
  }

  lemma {:induction false} InsertIsStable(e: LaneEvent, s: seq<LaneEvent>, number: int)
    ensures AtNumber(Insert(e, s), number) == AtNumber(s, number) + (if e.number == number then [e] else [])
  {
    if s == [] || s[|s| - 1].number <= e.number {
      assert (s + [e])[..|s|] == s;
    } else {
      var front, last := s[..|s| - 1], s[|s| - 1];
      InsertIsStable(e, front, number);
      var r := Insert(e, front);
      assert (r + [last])[..|r|] == r;
    }
  }

  /** Events of equal number keep their order of arrival. */
  lemma {:induction false} SortIsStable(events: seq<LaneEvent>, number: int)
    ensures AtNumber(Sorted(events), number) == AtNumber(events, number)
  {
    if events != [] {
      SortIsStable(events[..|events| - 1], number);
      InsertIsStable(events[|events| - 1], Sorted(events[..|events| - 1]), number);
    }
  }

  lemma CountTwice(s: seq<LaneEvent>, i: int, j: int)
    requires 0 <= i < j < |s| && s[i] == s[j]
    ensures multiset(s)[s[i]] >= 2
  {
    assert s == s[..j] + s[j..];
    assert s[i] in s[..j] && s[j] in s[j..] by {
      assert s[..j][i] == s[i] && s[j..][0] == s[j];
    }
  }

  lemma {:induction false} CountOnce(s: seq<LaneEvent>, e: LaneEvent)
    requires Distinct(s)
    ensures multiset(s)[e] <= 1
  {
    if s != [] {
      var front, last := s[..|s| - 1], s[|s| - 1];
      CountOnce(front, e);
      assert s == front + [last];
      if e == last {
        assert e !in front by {
          assert forall i :: 0 <= i < |front| ==> front[i] == s[i];
        }
      }
    }
  }

  /** Two orderings of the same distinct events, one of them known distinct, are both distinct. */
  lemma DistinctPermuted(a: seq<LaneEvent>, b: seq<LaneEvent>)
    requires Distinct(a) && multiset(a) == multiset(b)
    ensures Distinct(b)
  {
    forall i, j | 0 <= i < j < |b| ensures b[i].number != b[j].number {
      assert b[i] in multiset(b) && b[j] in multiset(b);
      var p :| 0 <= p < |a| && a[p] == b[i];
      var q :| 0 <= q < |a| && a[q] == b[j];
      if p == q {
        CountTwice(b, i, j);
        CountOnce(a, b[i]);
      }
    }
  }

  lemma {:induction false} OrderIsUnique(a: seq<LaneEvent>, b: seq<LaneEvent>)
    requires InOrder(a) && InOrder(b) && Distinct(a) && Distinct(b)
    requires forall e :: e in a <==> e in b
    ensures a == b
  {
    if a == [] {
      HeadIsMember(b);
    } else {
      assert a[0] in b && b[0] in a by { HeadIsMember(b); }
      assert a[0] == b[0];
      forall e ensures e in a[1..] <==> e in b[1..] {
        TailMembers(a, e);
        TailMembers(b, e);
      }
      OrderIsUnique(a[1..], b[1..]);
      assert a == [a[0]] + a[1..] && b == [b[0]] + b[1..];
    }
  }

  lemma TailMembers(s: seq<LaneEvent>, e: LaneEvent)
    requires Distinct(s) && s != []
    ensures e in s[1..] <==> e in s && e != s[0]
  {
    assert s == [s[0]] + s[1..];
  }

  // ----- the fold over sorted events

  datatype Fold = Fold(last: Option<LaneEvent>, uncertain: bool, kept: seq<LaneEvent>)

  function FoldStep(f: Fold, e: LaneEvent): Fold {
    match Classify(e.name)
    case Terminal =>
      if f.last.None? then f.(last := Some(e))
      else if SameFingerprint(e, f.last.value) then f
      else if MateriallyDiffer(f.last.value, e) then f.(last := Some(e))
      else f
    case Uncertainty => f.(uncertain := f.uncertain || f.last.Some?, kept := f.kept + [e])
    case Advisory => f.(kept := f.kept + [e])
  }

  function FoldAll(sorted: seq<LaneEvent>): Fold {
    if sorted == [] then Fold(None, false, []) else FoldStep(FoldAll(sorted[..|sorted| - 1]), sorted[|sorted| - 1])
  }

  function Reconcile(events: seq<LaneEvent>): Option<(LaneEvent, seq<LaneEvent>)> {
    var f := FoldAll(Sorted(events));
    if f.last.None? then None
    else Some((if f.uncertain then Uncertain(f.last.value) else f.last.value, f.kept))
  }

  method ReconcileTerminalEvents(events: seq<LaneEvent>) returns (r: Option<(LaneEvent, seq<LaneEvent>)>)
    ensures r == Reconcile(events)
  {
    hide Classify;
    if |events| == 0 {
      return None;
    }
    var sorted := Sorted(events);
    var lastTerminal: Option<LaneEvent> := None;
    var postTerminalUncertainty := false;
    var reconciledEvents := [];
    var i := 0;
    while i < |sorted|
      invariant 0 <= i <= |sorted|
      invariant Fold(lastTerminal, postTerminalUncertainty, reconciledEvents) == FoldAll(sorted[..i])
    {
      var ev := sorted[i];
      assert sorted[..i + 1][..i] == sorted[..i];
      i := i + 1;
      match Classify(ev.name) {
        case Terminal =>
          if lastTerminal.Some? {
            if SameFingerprint(ev, lastTerminal.value) {
              continue;
            }
            if MateriallyDiffer(lastTerminal.value, ev) {
              lastTerminal := Some(ev);
            }
          } else {
            lastTerminal := Some(ev);
          }
        case Uncertainty =>
          if lastTerminal.Some? {
            postTerminalUncertainty := true;
          }
          reconciledEvents := reconciledEvents + [ev];
        case Advisory =>
          reconciledEvents := reconciledEvents + [ev];
      }
    }
    assert sorted[..i] == sorted;
    if lastTerminal.None? {
      return None;
    }
    var finalTerminal := if postTerminalUncertainty then Uncertain(lastTerminal.value) else lastTerminal.value;
    return Some((finalTerminal, reconciledEvents));
  }

  // ----- what the outcome means

  function NonTerminals(s: seq<LaneEvent>): seq<LaneEvent> {
    if s == [] then []
    else NonTerminals(s[..|s| - 1]) + (if IsTerminal(s[|s| - 1]) then [] else [s[|s| - 1]])
  }

  /** The last terminal event of a sequence. */
  function LastTerminal(s: seq<LaneEvent>): Option<LaneEvent> {
    if s == [] then None
    else if IsTerminal(s[|s| - 1]) then Some(s[|s| - 1])
    else LastTerminal(s[..|s| - 1])
  }

  /** A reconciled event stands after a terminal one. */
  predicate UncertainAfterTerminal(s: seq<LaneEvent>) {
    exists i, j :: 0 <= i < j < |s| && IsTerminal(s[i]) && s[j].name == LaneReconciled
  }

  /** Equal fingerprints of terminal events mean material equality. */
  predicate FaithfulFingerprints(s: seq<LaneEvent>) {
    forall i, j ::
      0 <= i < |s| && 0 <= j < |s| && IsTerminal(s[i]) && IsTerminal(s[j]) && SameFingerprint(s[i], s[j])
      ==> !MateriallyDiffer(s[i], s[j])
  }

  lemma {:induction false} FoldMeans(s: seq<LaneEvent>)
    ensures var f := FoldAll(s);
            && f.kept == NonTerminals(s)
            && (f.last.Some? <==> LastTerminal(s).Some?)
            && (f.last.Some? <==> exists i :: 0 <= i < |s| && IsTerminal(s[i]))
            && (f.last.Some? ==> f.last.value in s && IsTerminal(f.last.value))
            && (f.uncertain <==> UncertainAfterTerminal(s))
  {
    if s != [] {
      var front, last := s[..|s| - 1], s[|s| - 1];
      FoldMeans(front);
      assert s == front + [last];
      TerminalSnoc(front, last);
      UncertainSnoc(front, last);
    }
  }

  lemma TerminalSnoc(front: seq<LaneEvent>, e: LaneEvent)
    ensures (exists i :: 0 <= i < |front + [e]| && IsTerminal((front + [e])[i]))
            <==> IsTerminal(e) || exists i :: 0 <= i < |front| && IsTerminal(front[i])
  {
    var all := front + [e];
    assert all[|front|] == e;
    if i :| 0 <= i < |front| && IsTerminal(front[i]) {
      assert all[i] == front[i];
    }
  }

  lemma UncertainSnoc(front: seq<LaneEvent>, e: LaneEvent)
    ensures UncertainAfterTerminal(front + [e])
            <==> UncertainAfterTerminal(front)
                 || (e.name == LaneReconciled && exists i :: 0 <= i < |front| && IsTerminal(front[i]))
  {
    hide IsTerminal;
    var all := front + [e];
    assert all[|front|] == e;
    if UncertainAfterTerminal(front) {
      var i, j :| 0 <= i < j < |front| && IsTerminal(front[i]) && front[j].name == LaneReconciled;
      assert all[i] == front[i] && all[j] == front[j];
    }
    if e.name == LaneReconciled {
      if i :| 0 <= i < |front| && IsTerminal(front[i]) {
        assert all[i] == front[i];
      }
    }
  }

  /** With faithful fingerprints the outcome is, materially, the last terminal event. */
  lemma {:induction false} FoldKeepsLast(s: seq<LaneEvent>)
    requires FaithfulFingerprints(s) && LastTerminal(s).Some?
    ensures FoldAll(s).last.Some? && !MateriallyDiffer(FoldAll(s).last.value, LastTerminal(s).value)
  {
    hide Classify;
    var front, last := s[..|s| - 1], s[|s| - 1];
    FoldMeans(front);
    assert s == front + [last];
    assert forall i :: 0 <= i < |front| ==> front[i] == s[i];
    if IsTerminal(last) {
      if FoldAll(front).last.Some? {
        var kept := FoldAll(front).last.value;
        var i :| 0 <= i < |front| && front[i] == kept;
        assert s[i] == kept && s[|front|] == last;
      }
    } else {
      FoldKeepsLast(front);
    }
  }

  lemma {:induction false} LastTerminalIsHighest(s: seq<LaneEvent>)
    requires InOrder(s) && LastTerminal(s).Some?
    ensures LastTerminal(s).value in s && IsTerminal(LastTerminal(s).value)
    ensures forall e :: e in s && IsTerminal(e) ==> e.number <= LastTerminal(s).value.number
  {
    var front, last := s[..|s| - 1], s[|s| - 1];
    assert s == front + [last];
    if IsTerminal(last) {
      forall e | e in s && IsTerminal(e) ensures e.number <= last.number {
        var i :| 0 <= i < |s| && s[i] == e;
      }
    } else {
      LastTerminalIsHighest(front);
    }
  }

  lemma {:induction false} NonTerminalsInOrder(s: seq<LaneEvent>)
    requires InOrder(s)
    ensures InOrder(NonTerminals(s))
    ensures forall e :: e in NonTerminals(s) <==> e in s && !IsTerminal(e)
  {
    hide IsTerminal, InOrder;
    if s != [] {
      var front, last := s[..|s| - 1], s[|s| - 1];
      OrderOfFront(s);
      NonTerminalsInOrder(front);
      assert s == front + [last];
      OrderSnoc(NonTerminals(front), last);
      assert NonTerminals(front) + [] == NonTerminals(front);
    }
  }

  /** The outcome is undefined exactly when there is no terminal event. */
  lemma OutcomeNeedsTerminal(events: seq<LaneEvent>)
    ensures Reconcile(events).None? <==> forall e :: e in events ==> !IsTerminal(e)
  {
    hide FoldAll, Sorted, IsTerminal;
    SortSorts(events);
    FoldMeans(Sorted(events));
    var s := Sorted(events);
    if forall e :: e in events ==> !IsTerminal(e) {
      assert forall i :: 0 <= i < |s| ==> s[i] in events;
    }
    if e :| e in events && IsTerminal(e) {
      var i :| 0 <= i < |s| && s[i] == e;
    }
  }

  /**
   * The outcome: all non-terminal events in order of number; an underlying terminal event of the burst, reported as
   * reconciled exactly when a reconciled event follows the first terminal one; and, when equal fingerprints mean
   * material equality, one materially equal to a terminal event of highest number.
   */
  lemma OutcomeMeans(events: seq<LaneEvent>)
    requires Reconcile(events).Some?
    ensures var (final, kept) := Reconcile(events).value;
            var s := Sorted(events);
            && kept == NonTerminals(s) && InOrder(kept)
            && (forall e :: e in kept <==> e in events && !IsTerminal(e))
            && exists last :: last in events && IsTerminal(last)
                 && final == (if UncertainAfterTerminal(s) then Uncertain(last) else last)
                 && (FaithfulFingerprints(events) ==>
                       LastTerminal(s).Some? && !MateriallyDiffer(last, LastTerminal(s).value))
    ensures LastTerminal(Sorted(events)).Some?
            && LastTerminal(Sorted(events)).value in events
            && forall e :: e in events && IsTerminal(e) ==> e.number <= LastTerminal(Sorted(events)).value.number
  {
    hide FoldAll, Sorted, IsTerminal, MateriallyDiffer, FaithfulFingerprints, LastTerminal, Uncertain;
    var s := Sorted(events);
    SortSorts(events);
    FoldMeans(s);
    NonTerminalsInOrder(s);
    LastTerminalIsHighest(s);
    if FaithfulFingerprints(events) {
      FaithfulDrawn(s, events);
      FoldKeepsLast(s);
    }
    var last := FoldAll(s).last.value;
    assert last in events && IsTerminal(last);
  }

  /** With distinct numbers the outcome does not depend on the order in which events arrive. */
  lemma OutcomeIgnoresArrivalOrder(a: seq<LaneEvent>, b: seq<LaneEvent>)
    requires Distinct(a) && multiset(a) == multiset(b)
    ensures Reconcile(a) == Reconcile(b)
  {
    hide FoldAll, Sorted;
    DistinctPermuted(a, b);
    SortSorts(a);
    SortSorts(b);
    DistinctPermuted(a, Sorted(a));
    DistinctPermuted(b, Sorted(b));
    assert forall e :: e in a <==> e in multiset(a);
    assert forall e :: e in b <==> e in multiset(b);
    OrderIsUnique(Sorted(a), Sorted(b));
  }

  /**
   * Whatever the fingerprints: a terminal event that arrives with the highest number is, materially, the underlying
   * outcome unless the outcome so far shares its fingerprint while differing from it.
   */
  lemma LaterTerminalReplaces(events: seq<LaneEvent>, e: LaneEvent)
    requires IsTerminal(e) && forall x :: x in events ==> x.number <= e.number
    ensures var before := FoldAll(Sorted(events)).last;
            var after := FoldAll(Sorted(events + [e])).last;
            && after.Some?
            && (!MateriallyDiffer(after.value, e)
                <==> before.None? || !SameFingerprint(e, before.value) || !MateriallyDiffer(before.value, e))
  {
    hide Sorted, FoldAll, MateriallyDiffer, Classify;
    var s := Sorted(events);
    SortedSnoc(events, e);
    FoldSnoc(s, e);
    SameHasNoDifference(e);
  }

  lemma SortedSnoc(events: seq<LaneEvent>, e: LaneEvent)
    requires forall x :: x in events ==> x.number <= e.number
    ensures Sorted(events + [e]) == Sorted(events) + [e]
  {
    hide Insert;
    var s := Sorted(events);
    SortSorts(events);
    assert (events + [e])[..|events|] == events;
    assert Insert(e, s) == s + [e] by {
      assert s != [] ==> s[|s| - 1] in s;
      InsertLast(e, s);
    }
  }

  lemma InsertLast(e: LaneEvent, s: seq<LaneEvent>)
    requires s != [] ==> s[|s| - 1].number <= e.number
    ensures Insert(e, s) == s + [e]
  {
  }

  lemma FoldSnoc(s: seq<LaneEvent>, e: LaneEvent)
    ensures FoldAll(s + [e]) == FoldStep(FoldAll(s), e)
  {
    hide FoldStep;
    assert (s + [e])[..|s|] == s;
  }

  lemma SameHasNoDifference(e: LaneEvent)
    ensures !MateriallyDiffer(e, e)
  {
  }

  /** Without faithful fingerprints a later, different terminal event with the same fingerprint is lost. */
  lemma SharedFingerprintHidesLater(first: LaneEvent, second: LaneEvent)
    requires IsTerminal(first) && IsTerminal(second) && first.number <= second.number
    requires SameFingerprint(first, second)
    ensures Sorted([first, second]) == [first, second]
    ensures FoldAll([first, second]).last == Some(first) && LastTerminal([first, second]) == Some(second)
    ensures Reconcile([first, second]) == Some((first, []))
  {
    var events := [first, second];
    assert events[..1] == [first] && [first][..0] == [];
    assert Sorted([first]) == [first];
    assert Sorted(events) == events;
    assert FoldAll([first]) == Fold(Some(first), false, []);
  }

  /** The terminal event a burst keeps is materially its last one. */
  ghost predicate KeepsLatest(burst: seq<LaneEvent>) {
    var s := Sorted(burst);
    LastTerminal(s).Some? ==> FoldAll(s).last.Some? && !MateriallyDiffer(FoldAll(s).last.value, LastTerminal(s).value)
  }

  /** A burst of these events, in any order and any number. */
  ghost predicate DrawnFrom(burst: seq<LaneEvent>, events: seq<LaneEvent>) {
    forall e :: e in burst ==> e in events
  }

  lemma FaithfulKeepsLatest(burst: seq<LaneEvent>, events: seq<LaneEvent>)
    requires FaithfulFingerprints(events) && DrawnFrom(burst, events)
    ensures KeepsLatest(burst)
  {
    hide FoldAll, Sorted, IsTerminal, MateriallyDiffer, SameFingerprint, LastTerminal;
    SortSorts(burst);
    var s := Sorted(burst);
    FaithfulDrawn(s, events);
    if LastTerminal(s).Some? {
      FoldKeepsLast(s);
    }
  }

  lemma FaithfulDrawn(s: seq<LaneEvent>, events: seq<LaneEvent>)
    requires FaithfulFingerprints(events) && DrawnFrom(s, events)
    ensures FaithfulFingerprints(s)
  {
    hide IsTerminal, MateriallyDiffer, SameFingerprint;
    forall i, j | 0 <= i < |s| && 0 <= j < |s| && IsTerminal(s[i]) && IsTerminal(s[j]) && SameFingerprint(s[i], s[j])
      ensures !MateriallyDiffer(s[i], s[j])
    {
      assert s[i] in events && s[j] in events;
      var p :| 0 <= p < |events| && events[p] == s[i];
      var q :| 0 <= q < |events| && events[q] == s[j];
    }
  }

  /** Two terminal events that share a fingerprint and differ make a burst that loses its last one. */
  lemma UnfaithfulPairLoses(a: LaneEvent, b: LaneEvent) returns (burst: seq<LaneEvent>)
    requires IsTerminal(a) && IsTerminal(b) && SameFingerprint(a, b) && MateriallyDiffer(a, b)
    ensures burst == [a, b] || burst == [b, a]
    ensures !KeepsLatest(burst)
  {
    hide FoldAll, Sorted, LastTerminal;
    if a.number <= b.number {
      burst := [a, b];
      SharedFingerprintHidesLater(a, b);
    } else {
      burst := [b, a];
      SharedFingerprintHidesLater(b, a);
    }
  }

  /**
   * Whatever the fingerprints, missing ones included: every burst drawn from these events keeps, materially, its
   * terminal event of highest number if and only if equal fingerprints of terminal events mean material equality.
   */
  lemma LatestTerminalWinsExactly(events: seq<LaneEvent>)
    ensures (forall burst :: DrawnFrom(burst, events) ==> KeepsLatest(burst)) <==> FaithfulFingerprints(events)
  {
    hide KeepsLatest, IsTerminal, MateriallyDiffer, SameFingerprint;
    if FaithfulFingerprints(events) {
      forall burst | DrawnFrom(burst, events) ensures KeepsLatest(burst) {
        FaithfulKeepsLatest(burst, events);
      }
    } else {
      var i, j :| 0 <= i < |events| && 0 <= j < |events| && IsTerminal(events[i]) && IsTerminal(events[j])
                  && SameFingerprint(events[i], events[j]) && MateriallyDiffer(events[i], events[j]);
      var burst := UnfaithfulPairLoses(events[i], events[j]);
      assert DrawnFrom(burst, events);
    }
  }

  // ----- bursts of built terminal events: the fingerprint covers name, status and data, and no failure class

  type Fingerprinter = (Name, Status, Option<string>) -> string

  ghost predicate Injective(hash: Fingerprinter) {
    forall n, s, d, n', s', d' :: hash(n, s, d) == hash(n', s', d') ==> n == n' && s == s' && d == d'
  }

  /** The last step of the event builder: the computed fingerprint is attached. */
  function BuildTerminal(hash: Fingerprinter, e: LaneEvent): LaneEvent {
    e.(fingerprint := Some(hash(e.name, e.status, e.data)))
  }

  ghost predicate Built(hash: Fingerprinter, s: seq<LaneEvent>) {
    forall e :: e in s && IsTerminal(e) ==> e == BuildTerminal(hash, e)
  }

  predicate SameKey(a: LaneEvent, b: LaneEvent) {
    a.name == b.name && a.status == b.status && a.data == b.data
  }

  lemma BuiltFingerprints(hash: Fingerprinter, a: LaneEvent, b: LaneEvent)
    requires Injective(hash) && a == BuildTerminal(hash, a) && b == BuildTerminal(hash, b)
    ensures SameFingerprint(a, b) <==> SameKey(a, b)
    ensures MateriallyDiffer(a, b) <==> !SameKey(a, b) || a.failureClass != b.failureClass
  {
  }

  function Terminals(s: seq<LaneEvent>): seq<LaneEvent> {
    if s == [] then []
    else Terminals(s[..|s| - 1]) + (if IsTerminal(s[|s| - 1]) then [s[|s| - 1]] else [])
  }

  /** Where the trailing run of events with one name, status and data starts. */
  function RunStart(ts: seq<LaneEvent>): (start: nat)
    requires ts != []
    ensures start < |ts|
  {
    var last := |ts| - 1;
    if last > 0 && SameKey(ts[last - 1], ts[last]) then RunStart(ts[..last]) else last
  }

  /** The run: all of it has the last event's key, and the event before it has not. */
  lemma {:induction false} RunStartMeans(ts: seq<LaneEvent>)
    requires ts != []
    ensures var start, last := RunStart(ts), |ts| - 1;
            && (forall i :: start <= i <= last ==> SameKey(ts[i], ts[last]))
            && (start > 0 ==> !SameKey(ts[start - 1], ts[last]))
  {
    var last := |ts| - 1;
    if last > 0 && SameKey(ts[last - 1], ts[last]) {
      RunStartMeans(ts[..last]);
    }
  }

  lemma {:induction false} TerminalsMean(s: seq<LaneEvent>)
    ensures forall e :: e in Terminals(s) <==> e in s && IsTerminal(e)
    ensures LastTerminal(s) == if Terminals(s) == [] then None else Some(Terminals(s)[|Terminals(s)| - 1])
  {
    hide IsTerminal;
    if s != [] {
      var front, last := s[..|s| - 1], s[|s| - 1];
      TerminalsMean(front);
      assert s == front + [last];
      assert Terminals(front) + [] == Terminals(front);
    }
  }

  lemma RunGrows(ts: seq<LaneEvent>, e: LaneEvent)
    requires ts != []
    ensures RunStart(ts + [e]) == if SameKey(ts[|ts| - 1], e) then RunStart(ts) else |ts|
  {
    assert (ts + [e])[..|ts|] == ts;
  }

  /** One more terminal event moves the kept event and the head of the run alike. */
  lemma HeadFollows(hash: Fingerprinter, f: Fold, ts: seq<LaneEvent>, e: LaneEvent)
    requires Injective(hash) && IsTerminal(e) && e == BuildTerminal(hash, e)
    requires forall t :: t in ts ==> t == BuildTerminal(hash, t)
    requires f.last == if ts == [] then None else Some(ts[RunStart(ts)])
    ensures FoldStep(f, e).last == Some((ts + [e])[RunStart(ts + [e])])
  {
    hide Injective, SameFingerprint, MateriallyDiffer, SameKey, BuildTerminal, RunStart;
    if ts == [] {
      assert ts + [e] == [e];
    } else {
      var head := ts[RunStart(ts)];
      RunStartMeans(ts);
      RunGrows(ts, e);
      assert head in ts;
      BuiltFingerprints(hash, e, head);
      BuiltFingerprints(hash, head, e);
      KeysAgree(head, ts[|ts| - 1], e);
    }
  }

  /** The fold keeps the head of the trailing run. */
  lemma {:induction false} FoldKeepsRunHead(hash: Fingerprinter, s: seq<LaneEvent>)
    requires Injective(hash) && Built(hash, s)
    ensures var ts := Terminals(s);
            FoldAll(s).last == if ts == [] then None else Some(ts[RunStart(ts)])
  {
    hide Injective, FoldStep, RunStart, BuildTerminal, IsTerminal;
    if s == [] {
      assert Terminals(s) == [];
    } else {
      var front, e := s[..|s| - 1], s[|s| - 1];
      assert s == front + [e];
      FoldKeepsRunHead(hash, front);
      TerminalsMean(front);
      TerminalStep(s);
      if IsTerminal(e) {
        HeadFollows(hash, FoldAll(front), Terminals(front), e);
      }
    }
  }

  lemma KeysAgree(a: LaneEvent, b: LaneEvent, e: LaneEvent)
    requires SameKey(a, b)
    ensures SameKey(a, e) <==> SameKey(b, e)
    ensures SameKey(a, e) <==> SameKey(e, a)
  {
  }

  lemma TerminalStep(s: seq<LaneEvent>)
    requires s != []
    ensures var front, e := s[..|s| - 1], s[|s| - 1];
            && FoldAll(s) == FoldStep(FoldAll(front), e)
            && Terminals(s) == (if IsTerminal(e) then Terminals(front) + [e] else Terminals(front))
            && (IsTerminal(e) <==> Classify(e.name) == Terminal)
            && (!IsTerminal(e) ==> FoldStep(FoldAll(front), e).last == FoldAll(front).last)
  {
    assert Terminals(s[..|s| - 1]) + [] == Terminals(s[..|s| - 1]);
  }

  /**
   * The outcome of a burst of built events: the head of the trailing run of terminal events with equal name, status
   * and data. It is materially the terminal event of highest number if and only if these two have one failure class.
   */
  lemma BuiltBurstOutcome(hash: Fingerprinter, events: seq<LaneEvent>)
    requires Injective(hash) && Built(hash, events) && Terminals(Sorted(events)) != []
    ensures var s := Sorted(events);
            var ts := Terminals(s);
            var head, last := ts[RunStart(ts)], ts[|ts| - 1];
            && Reconcile(events) == Some((if UncertainAfterTerminal(s) then Uncertain(head) else head, NonTerminals(s)))
            && LastTerminal(s) == Some(last)
            && (forall e :: e in events && IsTerminal(e) ==> e.number <= last.number)
            && (!MateriallyDiffer(head, last) <==> head.failureClass == last.failureClass)
  {
    hide FoldAll, Sorted, Terminals, IsTerminal, MateriallyDiffer, Uncertain, Injective, LastTerminal;
    var s := Sorted(events);
    var ts := Terminals(s);
    SortSorts(events);
    assert Built(hash, s);
    FoldMeans(s);
    FoldKeepsRunHead(hash, s);
    TerminalsMean(s);
    LastTerminalIsHighest(s);
    RunStartMeans(ts);
    assert ts[RunStart(ts)] in ts && ts[|ts| - 1] in ts;
    BuiltFingerprints(hash, ts[RunStart(ts)], ts[|ts| - 1]);
  }

  /** Built events have faithful fingerprints exactly when equal name, status and data mean an equal failure class. */
  lemma FaithfulExactly(hash: Fingerprinter, s: seq<LaneEvent>)
    requires Injective(hash) && Built(hash, s)
    ensures FaithfulFingerprints(s) <==>
            forall a, b :: a in s && b in s && IsTerminal(a) && IsTerminal(b) && SameKey(a, b)
                           ==> a.failureClass == b.failureClass
  {
    hide IsTerminal, Injective, SameFingerprint, MateriallyDiffer, SameKey, BuildTerminal;
    forall a, b | a in s && b in s && IsTerminal(a) && IsTerminal(b)
      ensures SameFingerprint(a, b) <==> SameKey(a, b)
      ensures MateriallyDiffer(a, b) <==> !SameKey(a, b) || a.failureClass != b.failureClass
    {
      BuiltFingerprints(hash, a, b);
    }
  }

  function FailedLane(number: int, failureClass: string): LaneEvent {
    LaneEvent(LaneFailed, Failed, "", number, None, Some(failureClass), None, None)
  }

  /** Two failures of different classes, built as the client builds them: the second is lost, though they differ. */
  lemma LaterFailureClassIsLost(hash: Fingerprinter)
    ensures var first := BuildTerminal(hash, FailedLane(1, "compile"));
            var second := BuildTerminal(hash, FailedLane(2, "test"));
            && Reconcile([first, second]) == Some((first, []))
            && MateriallyDiffer(first, second)
  {
    var first := BuildTerminal(hash, FailedLane(1, "compile"));
    var second := BuildTerminal(hash, FailedLane(2, "test"));
    SharedFingerprintHidesLater(first, second);
    assert "compile" != "test";
  }

  // ----- the event names, and the wrapped outcome

  /** Five names end a lane, one makes its end uncertain, and all others only advise. */
  lemma NamesExactly(name: Name)
    ensures Classify(name) == Terminal
            <==> name in {LaneFinished, LaneFailed, LaneSuperseded, LaneClosed, LaneMerged}
    ensures Classify(name) == Uncertainty <==> name == LaneReconciled
  {
  }

  /** A wrapped outcome says it is reconciled and why, and keeps the rest of its event. */
  lemma WrappedExactly(e: LaneEvent)
    ensures var u := Uncertain(e);
            && u.name == LaneReconciled && u.status == Reconciled
            && u.detail == Some("Session terminal state uncertain: transport died after terminal event")
            && u.emittedAt == e.emittedAt && u.number == e.number && u.fingerprint == e.fingerprint
            && u.failureClass == e.failureClass && u.data == e.data
  {
  }

  /** Events differ materially in name, status, failure class or data, and in nothing else. */
  lemma DifferExactly(a: LaneEvent, b: LaneEvent)
    ensures MateriallyDiffer(a, b)
            <==> !(a.name == b.name && a.status == b.status && a.failureClass == b.failureClass && a.data == b.data)
    ensures SameFingerprint(a, b)
            <==> a.fingerprint.Some? && b.fingerprint.Some? && a.fingerprint.value == b.fingerprint.value
  {
  }
}
