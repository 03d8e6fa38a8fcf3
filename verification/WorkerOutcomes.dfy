/** What each operation does to a worker, as tables over the worker's fields and what was observed. */
module WorkerOutcomes {
  import opened Prelude
  import opened WorkerBoot

  /** The fields an operation may change. */
  datatype Fields = Fields(status: Status, trustGateCleared: bool, attempts: nat, inFlight: bool,
                           lastPrompt: Option<string>, expectedReceipt: Option<string>, replayPrompt: Option<string>,
                           error: Option<FailureKind>)

  function FieldsOf(w: Worker): Fields {
    Fields(w.status, w.trustGateCleared, w.attempts, w.inFlight, w.lastPrompt, w.expectedReceipt, w.replayPrompt,
           if w.lastError.Some? then Some(w.lastError.value.kind) else None)
  }

  /** An event without its number; `time` is one of the operation's clock readings. */
  datatype Note = Note(kind: EventKind, status: Status, payload: Option<Payload>, time: int)

  /** The operation left these fields and logged these events, numbered on; nothing else changed. */
  ghost predicate Becomes(w: Worker, next: Worker, fields: Fields, notes: seq<Note>) {
    && FieldsOf(next) == fields
    && next.cwd == w.cwd && next.trustAutoResolve == w.trustAutoResolve && next.autoRecover == w.autoRecover
    && next.createdAt == w.createdAt
    && Logs(w.events, next.events, notes)
  }

  ghost predicate Logs(before: seq<Event>, after: seq<Event>, notes: seq<Note>) {
    && |after| == |before| + |notes| && before <= after
    && forall i :: 0 <= i < |notes| ==>
         var e := after[|before| + i];
         e.number == |before| + i + 1 && e.kind == notes[i].kind && e.status == notes[i].status
         && e.payload == notes[i].payload && e.timestamp == notes[i].time
  }

  lemma LogsJoin(a: seq<Event>, b: seq<Event>, c: seq<Event>, x: seq<Note>, y: seq<Note>)
    requires Logs(a, b, x) && Logs(b, c, y)
    ensures Logs(a, c, x + y)
  {
    forall i | 0 <= i < |x + y|
      ensures var e := c[|a| + i];
              e.number == |a| + i + 1 && e.kind == (x + y)[i].kind && e.status == (x + y)[i].status
              && e.payload == (x + y)[i].payload && e.timestamp == (x + y)[i].time
    {
      if i < |x| {
        assert c[|a| + i] == b[|a| + i] && (x + y)[i] == x[i];
      } else {
        var j := i - |x|;
        assert |b| + j == |a| + i && (x + y)[i] == y[j];
        assert c[|b| + j].number == |b| + j + 1;
      }
    }
  }

  lemma BecomesThen(w: Worker, mid: Worker, next: Worker, f: Fields, g: Fields, x: seq<Note>, y: seq<Note>)
    requires Becomes(w, mid, f, x) && Becomes(mid, next, g, y)
    ensures Becomes(w, next, g, x + y)
  {
    hide Logs;
    LogsJoin(w.events, mid.events, next.events, x, y);
  }

  lemma PushBecomes(w: Worker, v: Worker, kind: EventKind, status: Status, payload: Option<Payload>, timestamp: int)
    requires v.events == w.events && v.cwd == w.cwd && v.trustAutoResolve == w.trustAutoResolve
    requires v.autoRecover == w.autoRecover && v.createdAt == w.createdAt
    ensures Becomes(w, Pushed(v, kind, status, payload, timestamp), FieldsOf(v).(status := status),
                    [Note(kind, status, payload, timestamp)])
  {
  }

  // ----- observing a screen

  /** A tool prompt on the screen comes before anything else. */
  lemma ToolPromptOutcome(w: Worker, screen: Screen, now: nat -> int)
    requires screen.toolPrompt.Some?
    ensures Becomes(w, After(w, Observe(screen), now),
                    FieldsOf(w).(status := ToolPermissionRequired, error := Some(ToolPermissionGate)),
                    [Note(KToolPermissionRequired, ToolPermissionRequired,
                          Some(PermissionPrompt(screen.toolPrompt.value)), now(1))])
  {
    hide Becomes;
    PushBecomes(w, w.(lastError := Some(Failure(ToolPermissionGate, now(0)))), KToolPermissionRequired,
                ToolPermissionRequired, Some(PermissionPrompt(screen.toolPrompt.value)), now(1));
  }

  /** A trust prompt that no allowlist resolves stops everything else. */
  lemma TrustBlockOutcome(w: Worker, screen: Screen, now: nat -> int)
    requires screen.toolPrompt.None? && screen.trustPrompt && !w.trustGateCleared && !w.trustAutoResolve
    ensures Becomes(w, After(w, Observe(screen), now),
                    FieldsOf(w).(status := TrustRequired, error := Some(TrustGate)),
                    [Note(KTrustRequired, TrustRequired, Some(TrustPrompt(w.cwd, None)), now(1))])
  {
    hide Becomes;
    PushBecomes(w, w.(lastError := Some(Failure(TrustGate, now(0)))), KTrustRequired, TrustRequired,
                Some(TrustPrompt(w.cwd, None)), now(1));
  }

  /** The trust prompt of an allowlisted directory. */
  predicate ResolvesTrust(w: Worker, screen: Screen) {
    screen.trustPrompt && !w.trustGateCleared && w.trustAutoResolve
  }

  function TrustedFields(w: Worker, screen: Screen): Fields {
    if ResolvesTrust(w, screen) then FieldsOf(w).(status := Spawning, trustGateCleared := true, error := None)
    else FieldsOf(w)
  }

  function TrustNotes(w: Worker, screen: Screen, now: nat -> int): seq<Note> {
    if ResolvesTrust(w, screen) then
      [Note(KTrustRequired, TrustRequired, Some(TrustPrompt(w.cwd, None)), now(1)),
       Note(KTrustResolved, Spawning, Some(TrustPrompt(w.cwd, Some(AutoAllowlisted))), now(2))]
    else []
  }

  /** The clock readings a resolved trust prompt takes. */
  function TrustReadings(w: Worker, screen: Screen): nat {
    if ResolvesTrust(w, screen) then 3 else 0
  }

  /** Neither a tool prompt nor an unresolved trust prompt stands in the way. */
  predicate Unblocked(w: Worker, screen: Screen) {
    screen.toolPrompt.None? && (!screen.trustPrompt || w.trustGateCleared || w.trustAutoResolve)
  }

  lemma TrustPasses(w: Worker, screen: Screen, now: nat -> int)
    requires Unblocked(w, screen)
    ensures var trust := ObserveTrust(w, screen, now);
            && !trust.blocked && trust.used == TrustReadings(w, screen)
            && Becomes(w, trust.worker, TrustedFields(w, screen), TrustNotes(w, screen, now))
  {
    if ResolvesTrust(w, screen) {
      hide Becomes;
      var asked := w.(lastError := Some(Failure(TrustGate, now(0))));
      var required := Pushed(asked, KTrustRequired, TrustRequired, Some(TrustPrompt(w.cwd, None)), now(1));
      var cleared := required.(trustGateCleared := true, lastError := None);
      PushBecomes(w, asked, KTrustRequired, TrustRequired, Some(TrustPrompt(w.cwd, None)), now(1));
      PushBecomes(required, cleared, KTrustResolved, Spawning, Some(TrustPrompt(w.cwd, Some(AutoAllowlisted))), now(2));
      BecomesThen(w, required, ObserveTrust(w, screen, now).worker, FieldsOf(asked).(status := TrustRequired),
                  FieldsOf(cleared).(status := Spawning),
                  [Note(KTrustRequired, TrustRequired, Some(TrustPrompt(w.cwd, None)), now(1))],
                  [Note(KTrustResolved, Spawning, Some(TrustPrompt(w.cwd, Some(AutoAllowlisted))), now(2))]);
    }
  }

  /** A prompt in flight that the screen shows in the wrong place fails, or is armed again where recovery is on. */
  lemma MisdeliveryOutcome(w: Worker, screen: Screen, now: nat -> int)
    requires Unblocked(w, screen) && w.inFlight && w.lastPrompt.Some? && screen.misdelivery.Some?
    ensures var m, k := screen.misdelivery.value, TrustReadings(w, screen);
            Becomes(w, After(w, Observe(screen), now),
                    TrustedFields(w, screen).(
                      status := if w.autoRecover then ReadyForPrompt else Failed, inFlight := false,
                      replayPrompt := if w.autoRecover then w.lastPrompt else w.replayPrompt,
                      error := Some(PromptDelivery)),
                    TrustNotes(w, screen, now)
                    + [Note(KPromptMisdelivery, Failed, Some(Delivery(m, w.expectedReceipt, false)), now(k + 1))]
                    + if w.autoRecover
                      then [Note(KPromptReplayArmed, ReadyForPrompt, Some(Delivery(m, w.expectedReceipt, true)),
                                 now(k + 2))]
                      else [])
  {
    hide Becomes, TrustNotes;
    TrustPasses(w, screen, now);
    var trust := ObserveTrust(w, screen, now);
    TrustedIs(w, trust.worker, TrustedFields(w, screen), TrustNotes(w, screen, now));
    MisdeliveredBecomes(w, trust.worker, screen.misdelivery.value, now, trust.used, TrustedFields(w, screen),
                        TrustNotes(w, screen, now));
  }

  lemma TrustedIs(w: Worker, v: Worker, f: Fields, notes: seq<Note>)
    requires Becomes(w, v, f, notes)
    ensures FieldsOf(v) == f && v.autoRecover == w.autoRecover
  {
  }

  lemma MisdeliveredBecomes(w: Worker, v: Worker, m: Misdelivery, now: nat -> int, k: nat, f: Fields, notes: seq<Note>)
    requires Becomes(w, v, f, notes)
    ensures var failed := Note(KPromptMisdelivery, Failed, Some(Delivery(m, f.expectedReceipt, false)), now(k + 1));
            var armed := Note(KPromptReplayArmed, ReadyForPrompt, Some(Delivery(m, f.expectedReceipt, true)),
                              now(k + 2));
            Becomes(w, Misdelivered(v, m, now, k),
                    f.(status := if w.autoRecover then ReadyForPrompt else Failed, inFlight := false,
                       replayPrompt := if w.autoRecover then f.lastPrompt else f.replayPrompt,
                       error := Some(PromptDelivery)),
                    notes + [failed] + if w.autoRecover then [armed] else [])
  {
    hide Becomes, Pushed;
    TrustedIs(w, v, f, notes);
    var lost := v.(lastError := Some(Failure(PromptDelivery, now(k))), inFlight := false);
    var failed := Note(KPromptMisdelivery, Failed, Some(Delivery(m, f.expectedReceipt, false)), now(k + 1));
    var armed := Note(KPromptReplayArmed, ReadyForPrompt, Some(Delivery(m, f.expectedReceipt, true)), now(k + 2));
    var mid := Pushed(lost, KPromptMisdelivery, Failed, failed.payload, now(k + 1));
    PushBecomes(v, lost, KPromptMisdelivery, Failed, failed.payload, now(k + 1));
    BecomesThen(w, v, mid, f, FieldsOf(lost).(status := Failed), notes, [failed]);
    TrustedIs(w, mid, FieldsOf(lost).(status := Failed), notes + [failed]);
    if w.autoRecover {
      var again := mid.(replayPrompt := mid.lastPrompt);
      PushBecomes(mid, again, KPromptReplayArmed, ReadyForPrompt, armed.payload, now(k + 2));
      BecomesThen(w, mid, Misdelivered(v, m, now, k), FieldsOf(mid), FieldsOf(again).(status := ReadyForPrompt),
                  notes + [failed], [armed]);
    } else {
      assert notes + [failed] + [] == notes + [failed];
    }
  }

  /** Otherwise a running cue ends the flight of a prompt, and a ready screen makes the worker ready. */
  lemma ScreenOutcome(w: Worker, screen: Screen, now: nat -> int)
    requires Unblocked(w, screen) && !(w.inFlight && w.lastPrompt.Some? && screen.misdelivery.Some?)
    ensures var f, runs := TrustedFields(w, screen), screen.runningCue && w.inFlight;
            var turnsReady, k := screen.ready && (runs || f.status != ReadyForPrompt), TrustReadings(w, screen);
            Becomes(w, After(w, Observe(screen), now),
                    f.(status := if screen.ready then ReadyForPrompt else if runs then Running else f.status,
                       inFlight := w.inFlight && !runs && !turnsReady,
                       error := if runs || (turnsReady && f.error == Some(TrustGate)) then None else f.error),
                    TrustNotes(w, screen, now) + (if runs then [Note(KRunning, Running, None, now(k))] else [])
                    + if turnsReady
                      then [Note(KReadyForPrompt, ReadyForPrompt, None, now(if runs then k + 1 else k))] else [])
  {
    hide Becomes, TrustNotes, Pushed;
    TrustPasses(w, screen, now);
    var trust := ObserveTrust(w, screen, now);
    var f, notes := TrustedFields(w, screen), TrustNotes(w, screen, now);
    TrustedIs(w, trust.worker, f, notes);
    RunningBecomes(w, trust.worker, screen, now, trust.used, f, notes);
    var runs := screen.runningCue && f.inFlight;
    var running := ObserveRunning(trust.worker, screen, now, trust.used);
    var g := if runs then f.(status := Running, inFlight := false, error := None) else f;
    var more := notes + if runs then [Note(KRunning, Running, None, now(trust.used))] else [];
    ReadyBecomes(w, running, screen, now(if runs then trust.used + 1 else trust.used), g, more);
  }

  lemma RunningBecomes(w: Worker, v: Worker, screen: Screen, now: nat -> int, k: nat, f: Fields, notes: seq<Note>)
    requires Becomes(w, v, f, notes)
    ensures var runs := screen.runningCue && f.inFlight;
            Becomes(w, ObserveRunning(v, screen, now, k),
                    if runs then f.(status := Running, inFlight := false, error := None) else f,
                    notes + if runs then [Note(KRunning, Running, None, now(k))] else [])
  {
    hide Becomes, Pushed;
    TrustedIs(w, v, f, notes);
    if screen.runningCue && f.inFlight {
      var landed := v.(inFlight := false, lastError := None);
      PushBecomes(v, landed, KRunning, Running, None, now(k));
      BecomesThen(w, v, ObserveRunning(v, screen, now, k), f, FieldsOf(landed).(status := Running), notes,
                  [Note(KRunning, Running, None, now(k))]);
    } else {
      assert notes + [] == notes;
    }
  }

  lemma ReadyBecomes(w: Worker, v: Worker, screen: Screen, timestamp: int, f: Fields, notes: seq<Note>)
    requires Becomes(w, v, f, notes)
    ensures var turnsReady := screen.ready && f.status != ReadyForPrompt;
            Becomes(w, ObserveReady(v, screen, timestamp),
                    if turnsReady
                    then f.(status := ReadyForPrompt, inFlight := false,
                            error := if f.error == Some(TrustGate) then None else f.error)
                    else f,
                    notes + if turnsReady then [Note(KReadyForPrompt, ReadyForPrompt, None, timestamp)] else [])
  {
    hide Becomes, Pushed;
    TrustedIs(w, v, f, notes);
    if screen.ready && f.status != ReadyForPrompt {
      var error := if f.error == Some(TrustGate) then None else v.lastError;
      var idle := v.(inFlight := false, lastError := error);
      PushBecomes(v, idle, KReadyForPrompt, ReadyForPrompt, None, timestamp);
      BecomesThen(w, v, ObserveReady(v, screen, timestamp), f, FieldsOf(idle).(status := ReadyForPrompt), notes,
                  [Note(KReadyForPrompt, ReadyForPrompt, None, timestamp)]);
    } else {
      assert notes + [] == notes;
    }
  }

  /** A ready screen with nothing in the way always leaves a reachable worker ready, with no prompt in flight. */
  lemma ReadyScreenMakesReady(w: Worker, screen: Screen, now: nat -> int)
    requires Reachable(w) && Unblocked(w, screen) && screen.ready
    requires !(w.inFlight && screen.misdelivery.Some?)
    ensures var next := After(w, Observe(screen), now); next.status == ReadyForPrompt && !next.inFlight
  {
    hide Reachable, Becomes, Observed, TrustNotes;
    StatusLaws(w);
    ScreenOutcome(w, screen, now);
    var f, runs := TrustedFields(w, screen), screen.runningCue && w.inFlight;
    var turnsReady, k := screen.ready && (runs || f.status != ReadyForPrompt), TrustReadings(w, screen);
    TrustedIs(w, After(w, Observe(screen), now),
              f.(status := ReadyForPrompt, inFlight := w.inFlight && !runs && !turnsReady,
                 error := if runs || (turnsReady && f.error == Some(TrustGate)) then None else f.error),
              TrustNotes(w, screen, now) + (if runs then [Note(KRunning, Running, None, now(k))] else [])
              + if turnsReady
                then [Note(KReadyForPrompt, ReadyForPrompt, None, now(if runs then k + 1 else k))] else []);
  }

  lemma StatusLaws(w: Worker)
    requires Reachable(w)
    ensures w.status == ReadyForPrompt ==> !w.inFlight
    ensures w.inFlight ==> w.lastPrompt.Some?
  {
  }

  // ----- the other operations

  /** When an operation is refused; a refused one changes nothing. */
  lemma RefusedExactly(w: Worker, op: Op, now: nat -> int)
    ensures Step(w, op, now).Err? <==>
            || (op.ResolveTrust? && w.status != TrustRequired)
            || (op.SendPrompt? && (w.status != ReadyForPrompt || TextFor(w, op.prompt) == ""))
    ensures Step(w, op, now).Err? ==> After(w, op, now) == w
  {
    hide Observed, EvidenceOf, ClassifyStartupFailure, Pushed;
  }

  /** The prompt given when it holds text, otherwise the armed replay. */
  function TextFor(w: Worker, prompt: Option<string>): string {
    if prompt.Some? && prompt.value != "" then prompt.value
    else if w.replayPrompt.Some? then w.replayPrompt.value
    else ""
  }

  lemma ResolveTrustOutcome(w: Worker, now: nat -> int)
    requires w.status == TrustRequired
    ensures Becomes(w, After(w, ResolveTrust, now),
                    FieldsOf(w).(status := Spawning, trustGateCleared := true, error := None),
                    [Note(KTrustResolved, Spawning, Some(TrustPrompt(w.cwd, Some(ManualApproval))), now(0))])
  {
    hide Becomes;
    PushBecomes(w, w.(trustGateCleared := true, lastError := None), KTrustResolved, Spawning,
                Some(TrustPrompt(w.cwd, Some(ManualApproval))), now(0));
  }

  lemma SendPromptOutcome(w: Worker, prompt: Option<string>, receipt: Option<string>, now: nat -> int)
    requires w.status == ReadyForPrompt && TextFor(w, prompt) != ""
    ensures Becomes(w, After(w, SendPrompt(prompt, receipt), now),
                    Fields(Running, w.trustGateCleared, w.attempts + 1, true, Some(TextFor(w, prompt)), receipt, None,
                           None),
                    [Note(KRunning, Running, None, now(0))])
  {
    hide Becomes;
    var sent := w.(attempts := w.attempts + 1, inFlight := true, lastPrompt := Some(TextFor(w, prompt)));
    PushBecomes(w, sent.(expectedReceipt := receipt, replayPrompt := None, lastError := None), KRunning, Running, None,
                now(0));
  }

  lemma RestartOutcome(w: Worker, now: nat -> int)
    ensures Becomes(w, After(w, Restart, now), Fields(Spawning, false, 0, false, None, w.expectedReceipt, None, None),
                    [Note(KRestarted, Spawning, None, now(0))])
  {
    hide Becomes;
    var cleared := w.(trustGateCleared := false, lastPrompt := None, replayPrompt := None, lastError := None);
    PushBecomes(w, cleared.(attempts := 0, inFlight := false), KRestarted, Spawning, None, now(0));
  }

  lemma TerminateOutcome(w: Worker, now: nat -> int)
    ensures Becomes(w, After(w, Terminate, now), FieldsOf(w).(status := Finished, inFlight := false),
                    [Note(KFinished, Finished, None, now(0))])
  {
    hide Becomes;
    PushBecomes(w, w.(inFlight := false), KFinished, Finished, None, now(0));
  }

  lemma CompletionOutcome(w: Worker, reason: string, tokens: int, now: nat -> int)
    ensures var failed := reason == "error" || (reason == "unknown" && tokens == 0);
            var status := if failed then Failed else Finished;
            Becomes(w, After(w, Complete(reason, tokens), now),
                    FieldsOf(w).(status := status, inFlight := false, error := if failed then Some(Provider) else None),
                    [Note(if failed then KFailed else KFinished, status, None, if failed then now(1) else now(0))])
  {
    hide Becomes;
    PushBecomes(w, w.(lastError := Some(Failure(Provider, now(0))), inFlight := false), KFailed, Failed, None, now(1));
    PushBecomes(w, w.(inFlight := false, lastError := None), KFinished, Finished, None, now(0));
  }

  /** The evidence of a timeout on a reachable worker, and the class it is given. */
  lemma TimeoutOutcome(w: Worker, transport: bool, mcp: bool, now: nat -> int)
    requires Reachable(w)
    ensures var next := After(w, StartupTimeout(transport, mcp), now);
            exists evidence ::
              && Tells(w, transport, mcp, now(0), evidence)
              && Becomes(w, next, FieldsOf(w).(status := Failed, inFlight := false, error := Some(StartupNoEvidence)),
                         [Note(KStartupNoEvidence, Failed,
                               Some(Startup(evidence, CollapsedClass(w, transport, mcp, now(0)))), now(1))])
  {
    hide Becomes, Reachable, EvidenceOf, ClassifyStartupFailure, Tells;
    var evidence := EvidenceOf(w, transport, mcp, now(0));
    ClassifierCollapses(w, transport, mcp, now(0));
    EvidenceTells(w, transport, mcp, now(0));
    PushBecomes(w, w.(lastError := Some(Failure(StartupNoEvidence, now(0))), inFlight := false), KStartupNoEvidence,
                Failed, Some(Startup(evidence, ClassifyStartupFailure(evidence))), now(1));
  }

  /** The evidence of a worker at time `now`; the age and scope are those of the last permission prompt. */
  ghost predicate Tells(w: Worker, transport: bool, mcp: bool, now: int, e: Evidence) {
    && e.lastLifecycleState == w.status && e.transportHealthy == transport && e.mcpHealthy == mcp
    && e.elapsedSeconds == now - w.createdAt
    && e.promptSentAt == (if w.attempts > 0 then Some(w.updatedAt) else None)
    && e.promptAcceptanceState == (w.status == Running && !w.inFlight)
    && (e.trustPromptDetected <==> exists i :: 0 <= i < |w.events| && w.events[i].kind == KTrustRequired)
    && (e.toolPermissionPromptDetected <==> exists i :: LastPrompt(w, i))
    && (e.toolPermissionPromptAge.Some? <==> e.toolPermissionPromptDetected)
    && (e.toolPermissionAllowScope.Some? <==> e.toolPermissionPromptDetected)
    && forall i :: LastPrompt(w, i) ==>
         && 0 <= i < |w.events| && e.toolPermissionPromptAge == Some(now - w.events[i].timestamp)
         && w.events[i].payload.Some? && w.events[i].payload.value.PermissionPrompt?
         && e.toolPermissionAllowScope == Some(w.events[i].payload.value.prompt.scope)
  }

  ghost predicate LastPrompt(w: Worker, i: int) {
    LastOf(w.events, KToolPermissionRequired, i)
  }

  /** Event `i` is the last one of this kind. */
  ghost predicate LastOf(events: seq<Event>, kind: EventKind, i: int) {
    0 <= i < |events| && events[i].kind == kind && forall j :: i < j < |events| ==> events[j].kind != kind
  }

  lemma {:induction false} LatestIsLast(events: seq<Event>, kind: EventKind, i: int)
    requires LastOf(events, kind, i)
    ensures Latest(events, kind) == Some(events[i])
    decreases |events|
  {
    if i < |events| - 1 {
      LatestIsLast(events[..|events| - 1], kind, i);
    }
  }

  lemma {:induction false} LastOneExists(events: seq<Event>, kind: EventKind, k: int) returns (i: int)
    requires 0 <= k < |events| && events[k].kind == kind
    ensures LastOf(events, kind, i)
    decreases |events| - k
  {
    if j :| k < j < |events| && events[j].kind == kind {
      i := LastOneExists(events, kind, j);
    } else {
      i := k;
    }
  }

  lemma AgeAndScope(w: Worker, transport: bool, mcp: bool, now: int, i: int)
    requires Reachable(w) && LastPrompt(w, i)
    ensures var e := EvidenceOf(w, transport, mcp, now);
            && 0 <= i < |w.events| && e.toolPermissionPromptAge == Some(now - w.events[i].timestamp)
            && w.events[i].payload.Some? && w.events[i].payload.value.PermissionPrompt?
            && e.toolPermissionAllowScope == Some(w.events[i].payload.value.prompt.scope)
  {
    hide Latest, Happened;
    LatestIsLast(w.events, KToolPermissionRequired, i);
    assert KindFits(w.events[i]);
  }

  lemma DetectedExactly(w: Worker)
    ensures Happened(w.events, KToolPermissionRequired) <==> exists i :: LastPrompt(w, i)
  {
    if Happened(w.events, KToolPermissionRequired) {
      var k :| 0 <= k < |w.events| && w.events[k].kind == KToolPermissionRequired;
      var i := LastOneExists(w.events, KToolPermissionRequired, k);
      assert LastPrompt(w, i);
    }
  }

  lemma EvidenceTells(w: Worker, transport: bool, mcp: bool, now: int)
    requires Reachable(w)
    ensures Tells(w, transport, mcp, now, EvidenceOf(w, transport, mcp, now))
  {
    hide Latest, Reachable, LastPrompt;
    ScopeKnownWhenPrompted(w, transport, mcp, now);
    DetectedExactly(w);
    forall i | LastPrompt(w, i)
      ensures var e := EvidenceOf(w, transport, mcp, now);
              && 0 <= i < |w.events| && e.toolPermissionPromptAge == Some(now - w.events[i].timestamp)
              && w.events[i].payload.Some? && w.events[i].payload.value.PermissionPrompt?
              && e.toolPermissionAllowScope == Some(w.events[i].payload.value.prompt.scope)
    {
      AgeAndScope(w, transport, mcp, now, i);
    }
  }

  lemma CreationOutcome(cwd: string, trusted: bool, autoRecover: bool, now: nat -> int)
    ensures var w := Created(cwd, trusted, autoRecover, now);
            && FieldsOf(w) == Fields(Spawning, false, 0, false, None, None, None, None)
            && w.cwd == cwd && w.trustAutoResolve == trusted && w.autoRecover == autoRecover && w.createdAt == now(0)
            && Logs([], w.events, [Note(KSpawning, Spawning, None, now(1))])
  {
  }
}
