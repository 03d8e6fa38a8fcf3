/** The worker boot registry: a seven-status state machine with an append-only event log. */
module WorkerBoot {
  import opened Prelude

  datatype Status = Spawning | TrustRequired | ToolPermissionRequired | ReadyForPrompt | Running | Finished | Failed

  datatype EventKind =
    | KSpawning | KTrustRequired | KToolPermissionRequired | KTrustResolved | KReadyForPrompt | KPromptMisdelivery
    | KPromptReplayArmed | KRunning | KRestarted | KFinished | KFailed | KStartupNoEvidence

  datatype FailureKind = TrustGate | ToolPermissionGate | PromptDelivery | Provider | StartupNoEvidence
  datatype Failure = Failure(kind: FailureKind, createdAt: int)

  datatype Resolution = AutoAllowlisted | ManualApproval
  datatype Scope = SessionOnly | SessionOrAlways | UnknownScope
  datatype Target = Shell | WrongTarget | WrongTask

  datatype ToolPrompt = ToolPrompt(server: Option<string>, tool: Option<string>, scope: Scope, preview: string)
  datatype Misdelivery = Misdelivery(target: Target, cwd: Option<string>, preview: Option<string>)

  /** What the screen-text detectors report about one scrape. */
  datatype Screen = Screen(toolPrompt: Option<ToolPrompt>, trustPrompt: bool, misdelivery: Option<Misdelivery>,
                           runningCue: bool, ready: bool)

  datatype Classification =
    | CTrustRequired | CToolPermissionRequired | CPromptMisdelivery | CPromptAcceptanceTimeout
    | CTransportDead | CWorkerCrashed | CUnknown

  datatype Evidence = Evidence(
    lastLifecycleState: Status,
    promptSentAt: Option<int>,
    promptAcceptanceState: bool,
    trustPromptDetected: bool,
    toolPermissionPromptDetected: bool,
    toolPermissionPromptAge: Option<int>,
    toolPermissionAllowScope: Option<Scope>,
    transportHealthy: bool,
    mcpHealthy: bool,
    elapsedSeconds: int)

  datatype Payload =
    | TrustPrompt(cwd: string, resolution: Option<Resolution>)
    | PermissionPrompt(prompt: ToolPrompt)
    | Delivery(observation: Misdelivery, receipt: Option<string>, recoveryArmed: bool)
    | Startup(evidence: Evidence, classification: Classification)

  datatype Event = Event(number: nat, kind: EventKind, status: Status, payload: Option<Payload>, timestamp: int)

  datatype Worker = Worker(
    cwd: string,
    status: Status,
    trustAutoResolve: bool,
    trustGateCleared: bool,
    autoRecover: bool,
    attempts: nat,
    inFlight: bool,
    lastPrompt: Option<string>,
    expectedReceipt: Option<string>,
    replayPrompt: Option<string>,
    lastError: Option<Failure>,
    createdAt: int,
    updatedAt: int,
    events: seq<Event>)

  // ----- the transitions; `now(k)` is the k-th clock reading of the operation

  function Pushed(w: Worker, kind: EventKind, status: Status, payload: Option<Payload>, timestamp: int): Worker {
    w.(updatedAt := timestamp, status := status,
       events := w.events + [Event(|w.events| + 1, kind, status, payload, timestamp)])
  }

  function Created(cwd: string, trusted: bool, autoRecover: bool, now: nat -> int): Worker {
    Pushed(Worker(cwd, Spawning, trusted, false, autoRecover, 0, false, None, None, None, None, now(0), now(0), []),
           KSpawning, Spawning, None, now(1))
  }

  datatype TrustOutcome = TrustOutcome(worker: Worker, used: nat, blocked: bool)

  function ObserveTrust(w: Worker, screen: Screen, now: nat -> int): TrustOutcome {
    if w.trustGateCleared || !screen.trustPrompt then TrustOutcome(w, 0, false)
    else
      var required := Pushed(w.(lastError := Some(Failure(TrustGate, now(0)))), KTrustRequired, TrustRequired,
                             Some(TrustPrompt(w.cwd, None)), now(1));
      if !w.trustAutoResolve then TrustOutcome(required, 2, true)
      else
        TrustOutcome(Pushed(required.(trustGateCleared := true, lastError := None), KTrustResolved, Spawning,
                            Some(TrustPrompt(w.cwd, Some(AutoAllowlisted))), now(2)), 3, false)
  }

  function Misdelivered(w: Worker, m: Misdelivery, now: nat -> int, k: nat): Worker {
    var failed := Pushed(w.(lastError := Some(Failure(PromptDelivery, now(k))), inFlight := false),
                         KPromptMisdelivery, Failed, Some(Delivery(m, w.expectedReceipt, false)), now(k + 1));
    if !w.autoRecover then failed
    else Pushed(failed.(replayPrompt := failed.lastPrompt), KPromptReplayArmed, ReadyForPrompt,
                Some(Delivery(m, w.expectedReceipt, true)), now(k + 2))
  }

  function ObserveRunning(w: Worker, screen: Screen, now: nat -> int, k: nat): Worker {
    if screen.runningCue && w.inFlight then
      Pushed(w.(inFlight := false, lastError := None), KRunning, Running, None, now(k))
    else w
  }

  function ObserveReady(w: Worker, screen: Screen, timestamp: int): Worker {
    if screen.ready && w.status != ReadyForPrompt then
      var error := if w.lastError.Some? && w.lastError.value.kind == TrustGate then None else w.lastError;
      Pushed(w.(inFlight := false, lastError := error), KReadyForPrompt, ReadyForPrompt, None, timestamp)
    else w
  }

  function ObserveRest(w: Worker, screen: Screen, now: nat -> int, k: nat): Worker {
    if w.inFlight && w.lastPrompt.Some? && screen.misdelivery.Some? then
      Misdelivered(w, screen.misdelivery.value, now, k)
    else
      var running := ObserveRunning(w, screen, now, k);
      ObserveReady(running, screen, now(if screen.runningCue && w.inFlight then k + 1 else k))
  }

  function Observed(w: Worker, screen: Screen, now: nat -> int): Worker {
    if screen.toolPrompt.Some? then
      Pushed(w.(lastError := Some(Failure(ToolPermissionGate, now(0)))), KToolPermissionRequired,
             ToolPermissionRequired, Some(PermissionPrompt(screen.toolPrompt.value)), now(1))
    else
      var trust := ObserveTrust(w, screen, now);
      if trust.blocked then trust.worker else ObserveRest(trust.worker, screen, now, trust.used)
  }

  predicate Happened(events: seq<Event>, kind: EventKind) {
    exists i :: 0 <= i < |events| && events[i].kind == kind
  }

  function Latest(events: seq<Event>, kind: EventKind): Option<Event> {
    if events == [] then None
    else if events[|events| - 1].kind == kind then Some(events[|events| - 1])
    else Latest(events[..|events| - 1], kind)
  }

  function EvidenceOf(w: Worker, transportHealthy: bool, mcpHealthy: bool, now: int): Evidence {
    var prompt := Latest(w.events, KToolPermissionRequired);
    Evidence(
      w.status,
      if w.attempts > 0 then Some(w.updatedAt) else None,
      w.status == Running && !w.inFlight,
      Happened(w.events, KTrustRequired),
      Happened(w.events, KToolPermissionRequired),
      if prompt.Some? then Some(now - prompt.value.timestamp) else None,
      if prompt.Some? && prompt.value.payload.Some? && prompt.value.payload.value.PermissionPrompt?
      then Some(prompt.value.payload.value.prompt.scope) else None,
      transportHealthy, mcpHealthy, now - w.createdAt)
  }

  function ClassifyStartupFailure(e: Evidence): Classification {
    if !e.transportHealthy then CTransportDead
    else if e.trustPromptDetected && e.lastLifecycleState == TrustRequired then CTrustRequired
    else if e.toolPermissionPromptDetected && e.lastLifecycleState == ToolPermissionRequired then
      CToolPermissionRequired
    else if e.promptSentAt.Some? && !e.promptAcceptanceState && e.lastLifecycleState == Running then
      CPromptAcceptanceTimeout
    else if e.promptSentAt.Some? && !e.promptAcceptanceState && e.elapsedSeconds > 30 then CPromptMisdelivery
    else if !e.mcpHealthy && e.transportHealthy then CWorkerCrashed
    else CUnknown
  }

  /** The operations on an existing worker. `SendPrompt` carries the prompt already trimmed. */
  datatype Op =
    | Observe(screen: Screen)
    | ResolveTrust
    | SendPrompt(prompt: Option<string>, receipt: Option<string>)
    | Restart
    | Terminate
    | Complete(finishReason: string, tokensOutput: int)
    | StartupTimeout(transportHealthy: bool, mcpHealthy: bool)

  function PromptToSend(w: Worker, prompt: Option<string>): Option<string> {
    NonEmpty(if NonEmpty(prompt).Some? then prompt else w.replayPrompt)
  }

  predicate ProviderFailure(finishReason: string, tokensOutput: int) {
    (finishReason == "unknown" && tokensOutput == 0) || finishReason == "error"
  }

  /** One operation; an error leaves the worker as it was. */
  function Step(w: Worker, op: Op, now: nat -> int): Result<Worker, string> {
    match op
    case Observe(screen) => Ok(Observed(w, screen, now))
    case ResolveTrust =>
      if w.status != TrustRequired then Err("worker is not waiting on trust")
      else Ok(Pushed(w.(trustGateCleared := true, lastError := None), KTrustResolved, Spawning,
                     Some(TrustPrompt(w.cwd, Some(ManualApproval))), now(0)))
    case SendPrompt(prompt, receipt) =>
      if w.status != ReadyForPrompt then Err("worker is not ready for prompt delivery")
      else if PromptToSend(w, prompt).None? then Err("worker has no prompt to send or replay")
      else
        Ok(Pushed(w.(attempts := w.attempts + 1, inFlight := true, lastPrompt := PromptToSend(w, prompt),
                     expectedReceipt := receipt, replayPrompt := None, lastError := None),
                  KRunning, Running, None, now(0)))
    case Restart =>
      Ok(Pushed(w.(trustGateCleared := false, lastPrompt := None, replayPrompt := None, lastError := None,
                   attempts := 0, inFlight := false), KRestarted, Spawning, None, now(0)))
    case Terminate => Ok(Pushed(w.(inFlight := false), KFinished, Finished, None, now(0)))
    case Complete(reason, tokens) =>
      if ProviderFailure(reason, tokens) then
        Ok(Pushed(w.(lastError := Some(Failure(Provider, now(0))), inFlight := false), KFailed, Failed, None, now(1)))
      else Ok(Pushed(w.(inFlight := false, lastError := None), KFinished, Finished, None, now(0)))
    case StartupTimeout(transport, mcp) =>
      var evidence := EvidenceOf(w, transport, mcp, now(0));
      Ok(Pushed(w.(lastError := Some(Failure(StartupNoEvidence, now(0))), inFlight := false), KStartupNoEvidence,
                Failed, Some(Startup(evidence, ClassifyStartupFailure(evidence))), now(1)))
  }

  function After(w: Worker, op: Op, now: nat -> int): Worker {
    match Step(w, op, now) case Ok(next) => next case Err(_) => w
  }

  // ----- the registry

  datatype WorkerId = WorkerId(seconds: int, serial: nat)

  datatype ReadySnapshot = ReadySnapshot(status: Status, ready: bool, blocked: bool, replayPromptReady: bool,
                                         lastError: Option<Failure>)

  class WorkerRegistry {
    var workers: map<WorkerId, Worker>
    var lastId: nat
    const clock: nat -> int
    var readings: nat

    /** Every registered worker satisfies the laws of all runs, and ids to come are new. */
    ghost predicate Valid()
      reads this`workers, this`lastId
    {
      forall id :: id in workers ==> Reachable(workers[id]) && id.serial <= lastId
    }

    constructor (clock: nat -> int)
      ensures Valid()
      ensures workers == map[] && readings == 0 && lastId == 0 && this.clock == clock
    {
      this.clock := clock;
      workers, readings, lastId := map[], 0, 0;
    }

    /** The readings the next operation will make. */
    function Now(): nat -> int
      reads this`readings
    {
      var from := readings;
      (k: nat) => clock(from + k)
    }

    method NowSecs() returns (t: int)
      modifies this`readings
      ensures t == old(Now())(0) && readings == old(readings) + 1
    {
      t := clock(readings);
      readings := readings + 1;
    }

    method PushEvent(w: Worker, kind: EventKind, status: Status, payload: Option<Payload>) returns (w': Worker)
      modifies this`readings
      ensures w' == Pushed(w, kind, status, payload, old(Now())(0)) && readings == old(readings) + 1
    {
      var timestamp := NowSecs();
      var number := |w.events| + 1;
      w' := w.(updatedAt := timestamp, status := status);
      w' := w'.(events := w'.events + [Event(number, kind, status, payload, timestamp)]);
    }

    method Create(cwd: string, trusted: bool, autoRecover: bool) returns (id: WorkerId)
      requires Valid()
      modifies this
      ensures Valid() && id !in old(workers)
      ensures id == WorkerId(old(Now())(0), old(lastId) + 1) && lastId == old(lastId) + 1
      ensures workers == old(workers)[id := Created(cwd, trusted, autoRecover, old(Now()))]
    {
      hide Reachable;
      CreatedReachable(cwd, trusted, autoRecover, Now());
      var ts := NowSecs();
      lastId := lastId + 1;
      id := WorkerId(ts, lastId);
      var worker := Worker(cwd, Spawning, trusted, false, autoRecover, 0, false, None, None, None, None, ts, ts, []);
      worker := PushEvent(worker, KSpawning, Spawning, None);
      workers := workers[id := worker];
    }

    method ObserveTrustGate(w: Worker, screen: Screen) returns (w': Worker, blocked: bool)
      modifies this`readings
      ensures var trust := ObserveTrust(w, screen, old(Now()));
              w' == trust.worker && blocked == trust.blocked && readings == old(readings) + trust.used
    {
      w', blocked := w, false;
      if !w'.trustGateCleared && screen.trustPrompt {
        var at := NowSecs();
        w' := w'.(lastError := Some(Failure(TrustGate, at)));
        w' := PushEvent(w', KTrustRequired, TrustRequired, Some(TrustPrompt(w'.cwd, None)));
        if w'.trustAutoResolve {
          w' := w'.(trustGateCleared := true, lastError := None);
          w' := PushEvent(w', KTrustResolved, Spawning, Some(TrustPrompt(w'.cwd, Some(AutoAllowlisted))));
        } else {
          blocked := true;
        }
      }
    }

    method ObserveDelivery(w: Worker, screen: Screen) returns (w': Worker)
      modifies this`readings
      ensures w' == ObserveRest(w, screen, old(Now()), 0)
    {
      w' := w;
      if w'.inFlight && w'.lastPrompt.Some? && screen.misdelivery.Some? {
        var observation := screen.misdelivery.value;
        var at := NowSecs();
        w' := w'.(lastError := Some(Failure(PromptDelivery, at)), inFlight := false);
        w' := PushEvent(w', KPromptMisdelivery, Failed, Some(Delivery(observation, w'.expectedReceipt, false)));
        if w'.autoRecover {
          w' := w'.(replayPrompt := w'.lastPrompt);
          w' := PushEvent(w', KPromptReplayArmed, ReadyForPrompt,
                          Some(Delivery(observation, w'.expectedReceipt, true)));
        }
        return;
      }
      if screen.runningCue && w'.inFlight {
        w' := w'.(inFlight := false, lastError := None);
        w' := PushEvent(w', KRunning, Running, None);
      }
      if screen.ready && w'.status != ReadyForPrompt {
        w' := w'.(inFlight := false);
        if w'.lastError.Some? && w'.lastError.value.kind == TrustGate {
          w' := w'.(lastError := None);
        }
        w' := PushEvent(w', KReadyForPrompt, ReadyForPrompt, None);
      }
    }

    method ObserveScreen(w: Worker, screen: Screen) returns (w': Worker)
      modifies this`readings
      ensures w' == Observed(w, screen, old(Now()))
    {
      if screen.toolPrompt.Some? {
        var at := NowSecs();
        w' := w.(lastError := Some(Failure(ToolPermissionGate, at)));
        w' := PushEvent(w', KToolPermissionRequired, ToolPermissionRequired,
                        Some(PermissionPrompt(screen.toolPrompt.value)));
        return;
      }
      var blocked;
      w', blocked := ObserveTrustGate(w, screen);
      if !blocked {
        ghost var seen := w';
        ghost var trust := ObserveTrust(w, screen, old(Now()));
        LaterReadings(seen, screen, old(Now()), trust.used, Now());
        w' := ObserveDelivery(w', screen);
      }
    }

    method ObserveCompletion(w: Worker, finishReason: string, tokensOutput: int) returns (w': Worker)
      modifies this`readings
      ensures Step(w, Complete(finishReason, tokensOutput), old(Now())) == Ok(w')
    {
      if ProviderFailure(finishReason, tokensOutput) {
        var at := NowSecs();
        w' := w.(lastError := Some(Failure(Provider, at)), inFlight := false);
        w' := PushEvent(w', KFailed, Failed, None);
      } else {
        w' := w.(inFlight := false, lastError := None);
        w' := PushEvent(w', KFinished, Finished, None);
      }
    }

    method ObserveStartupTimeout(w: Worker, transportHealthy: bool, mcpHealthy: bool) returns (w': Worker)
      modifies this`readings
      ensures Step(w, StartupTimeout(transportHealthy, mcpHealthy), old(Now())) == Ok(w')
    {
      hide EvidenceOf, ClassifyStartupFailure;
      var at := NowSecs();
      var evidence := EvidenceOf(w, transportHealthy, mcpHealthy, at);
      var classification := ClassifyStartupFailure(evidence);
      w' := w.(lastError := Some(Failure(StartupNoEvidence, at)), inFlight := false);
      w' := PushEvent(w', KStartupNoEvidence, Failed, Some(Startup(evidence, classification)));
    }

    /** Applies one operation to a registered worker; unknown ids and refused operations change nothing. */
    method Apply(id: WorkerId, op: Op) returns (r: Result<Worker, string>)
      requires Valid()
      modifies this
      ensures Valid() && lastId == old(lastId)
      ensures id in old(workers) ==> id in workers && old(workers)[id].events <= workers[id].events
      ensures id !in old(workers) ==> r.Err? && workers == old(workers)
      ensures id in old(workers) ==>
                r == Step(old(workers)[id], op, old(Now()))
                && workers == old(workers)[id := After(old(workers)[id], op, old(Now()))]
    {
      hide Observed, EvidenceOf, ClassifyStartupFailure, Reachable;
      if id !in workers {
        return Err("worker not found");
      }
      var w := workers[id];
      StepKeeps(w, op, Now());
      match op {
        case Observe(screen) =>
          w := ObserveScreen(w, screen);
        case ResolveTrust =>
          if w.status != TrustRequired {
            return Err("worker is not waiting on trust");
          }
          w := w.(trustGateCleared := true, lastError := None);
          w := PushEvent(w, KTrustResolved, Spawning, Some(TrustPrompt(w.cwd, Some(ManualApproval))));
        case SendPrompt(prompt, receipt) =>
          if w.status != ReadyForPrompt {
            return Err("worker is not ready for prompt delivery");
          }
          var next := PromptToSend(w, prompt);
          if next.None? {
            return Err("worker has no prompt to send or replay");
          }
          w := w.(attempts := w.attempts + 1, inFlight := true, lastPrompt := next);
          w := w.(expectedReceipt := receipt, replayPrompt := None, lastError := None);
          w := PushEvent(w, KRunning, Running, None);
        case Restart =>
          w := w.(trustGateCleared := false, lastPrompt := None, replayPrompt := None, lastError := None);
          w := w.(attempts := 0, inFlight := false);
          w := PushEvent(w, KRestarted, Spawning, None);
        case Terminate =>
          w := w.(inFlight := false);
          w := PushEvent(w, KFinished, Finished, None);
        case Complete(reason, tokens) =>
          w := ObserveCompletion(w, reason, tokens);
        case StartupTimeout(transport, mcp) =>
          w := ObserveStartupTimeout(w, transport, mcp);
      }
      workers := workers[id := w];
      r := Ok(w);
    }

    method AwaitReady(id: WorkerId) returns (r: Result<ReadySnapshot, string>)
      ensures id !in workers <==> r.Err?
      ensures id in workers ==>
                var w, s := workers[id], r.value;
                && s.status == w.status && s.lastError == w.lastError
                && (s.ready <==> w.status == ReadyForPrompt)
                && (s.blocked <==> w.status in {TrustRequired, ToolPermissionRequired, Failed})
                && (s.replayPromptReady <==> w.replayPrompt.Some?)
    {
      if id !in workers {
        return Err("worker not found");
      }
      var w := workers[id];
      return Ok(ReadySnapshot(w.status, w.status == ReadyForPrompt,
                              w.status == TrustRequired || w.status == ToolPermissionRequired || w.status == Failed,
                              w.replayPrompt.Some?, w.lastError));
    }
  }

  /** The readings after the first `k` are the readings of the rest of the operation. */
  lemma LaterReadings(w: Worker, screen: Screen, now: nat -> int, k: nat, later: nat -> int)
    requires forall i: nat :: later(i) == now(k + i)
    ensures ObserveRest(w, screen, now, k) == ObserveRest(w, screen, later, 0)
  {
    assert later(0) == now(k) && later(1) == now(k + 1) && later(2) == now(k + 2);
  }

  // ----- invariants of every reachable worker

  ghost predicate Logged(w: Worker) {
    && w.events != []
    && (forall i :: 0 <= i < |w.events| ==> w.events[i].number == i + 1)
    && w.status == w.events[|w.events| - 1].status
    && w.updatedAt == w.events[|w.events| - 1].timestamp
    && forall i :: 0 <= i < |w.events| ==> KindFits(w.events[i])
  }

  /** The two gate statuses are reported by their own events only. */
  ghost predicate KindFits(e: Event) {
    && (e.status == TrustRequired <==> e.kind == KTrustRequired)
    && (e.status == ToolPermissionRequired <==> e.kind == KToolPermissionRequired)
    && (e.kind == KToolPermissionRequired ==> e.payload.Some? && e.payload.value.PermissionPrompt?)
  }

  ghost predicate Delivered(w: Worker) {
    && (w.status in {ReadyForPrompt, Finished, Failed} ==> !w.inFlight)
    && (w.inFlight ==> w.lastPrompt.Some? && w.attempts >= 1)
    && (w.replayPrompt.Some? ==> w.replayPrompt == w.lastPrompt && w.autoRecover && !w.inFlight)
  }

  ghost predicate RestartBetween(events: seq<Event>, i: int, j: int) {
    exists k :: i < k < j && 0 <= k < |events| && events[k].kind == KRestarted
  }

  /** After a resolved gate only a restart makes room for another trust prompt or resolution. */
  ghost predicate TrustOrdered(events: seq<Event>) {
    forall i, j ::
      0 <= i < j < |events| && events[i].kind == KTrustResolved && events[j].kind in {KTrustResolved, KTrustRequired}
      ==> RestartBetween(events, i, j)
  }

  ghost predicate ResolvedSinceRestart(events: seq<Event>) {
    exists i :: 0 <= i < |events| && events[i].kind == KTrustResolved && !RestartBetween(events, i, |events|)
  }

  /** All but the last clause of `Reachable`, which an auto-resolved prompt breaks for one event. */
  ghost predicate Midway(w: Worker) {
    && Logged(w) && Delivered(w)
    && TrustOrdered(w.events)
    && (w.trustGateCleared <==> ResolvedSinceRestart(w.events))
  }

  ghost predicate Reachable(w: Worker) {
    && Midway(w)
    && (w.status == TrustRequired ==> !w.trustGateCleared && !w.trustAutoResolve)
  }

  /** How one more event moves the trust history. */
  lemma TrustSnoc(events: seq<Event>, e: Event)
    requires TrustOrdered(events)
    requires e.kind in {KTrustResolved, KTrustRequired} ==> !ResolvedSinceRestart(events)
    ensures TrustOrdered(events + [e])
    ensures ResolvedSinceRestart(events + [e]) <==>
            e.kind == KTrustResolved || (e.kind != KRestarted && ResolvedSinceRestart(events))
  {
    var all, n := events + [e], |events|;
    forall i, j | 0 <= i < j <= n ensures RestartBetween(all, i, j) <==> RestartBetween(events, i, j) {
      SameRestarts(events, e, i, j);
    }
    forall i | 0 <= i < n
      ensures RestartBetween(all, i, n + 1) <==> RestartBetween(events, i, n) || e.kind == KRestarted
    {
      LastRestart(events, e, i);
    }
    assert all[n] == e && forall i :: 0 <= i < n ==> all[i] == events[i];
    assert !RestartBetween(all, n, n + 1);
    if ResolvedSinceRestart(events) && e.kind != KRestarted {
      var i :| 0 <= i < n && events[i].kind == KTrustResolved && !RestartBetween(events, i, n);
      assert all[i].kind == KTrustResolved && !RestartBetween(all, i, n + 1);
    }
    if ResolvedSinceRestart(all) {
      var i :| 0 <= i < |all| && all[i].kind == KTrustResolved && !RestartBetween(all, i, |all|);
      assert i < n ==> events[i].kind == KTrustResolved && !RestartBetween(events, i, n);
    }
  }

  lemma SameRestarts(events: seq<Event>, e: Event, i: int, j: int)
    requires 0 <= i < j <= |events|
    ensures RestartBetween(events + [e], i, j) <==> RestartBetween(events, i, j)
  {
    var all := events + [e];
    if RestartBetween(events, i, j) {
      var k :| i < k < j && 0 <= k < |events| && events[k].kind == KRestarted;
      assert all[k].kind == KRestarted;
    }
  }

  lemma LastRestart(events: seq<Event>, e: Event, i: int)
    requires 0 <= i < |events|
    ensures RestartBetween(events + [e], i, |events| + 1)
            <==> RestartBetween(events, i, |events|) || e.kind == KRestarted
  {
    var all := events + [e];
    assert all[|events|] == e;
    if RestartBetween(events, i, |events|) {
      var k :| i < k < |events| && 0 <= k < |events| && events[k].kind == KRestarted;
      assert all[k].kind == KRestarted;
    }
  }

  lemma PushedLogged(w: Worker, kind: EventKind, status: Status, payload: Option<Payload>, timestamp: int)
    requires Logged(w) || w.events == []
    requires KindFits(Event(|w.events| + 1, kind, status, payload, timestamp))
    ensures Logged(Pushed(w, kind, status, payload, timestamp))
    ensures w.events <= Pushed(w, kind, status, payload, timestamp).events
  {
  }

  /** One event keeps the invariant; `v` is the worker with its fields already set for the event. */
  lemma PushKeeps(w: Worker, v: Worker, kind: EventKind, status: Status, payload: Option<Payload>, timestamp: int)
    requires Midway(w) && v.events == w.events && v.status == w.status && v.updatedAt == w.updatedAt
    requires KindFits(Event(|w.events| + 1, kind, status, payload, timestamp))
    requires kind in {KTrustResolved, KTrustRequired} ==> !w.trustGateCleared
    requires v.trustGateCleared == (kind == KTrustResolved || (kind != KRestarted && w.trustGateCleared))
    requires Delivered(v.(status := status))
    ensures Midway(Pushed(v, kind, status, payload, timestamp))
    ensures w.events <= Pushed(v, kind, status, payload, timestamp).events
  {
    hide Delivered, TrustOrdered, ResolvedSinceRestart, KindFits;
    PushedLogged(v, kind, status, payload, timestamp);
    TrustSnoc(w.events, Event(|w.events| + 1, kind, status, payload, timestamp));
    DeliveredIgnoresLog(v.(status := status), Pushed(v, kind, status, payload, timestamp));
  }

  lemma DeliveredIgnoresLog(a: Worker, b: Worker)
    requires Delivered(a) && b == a.(events := b.events, updatedAt := b.updatedAt)
    ensures Delivered(b)
  {
  }

  lemma CreatedReachable(cwd: string, trusted: bool, autoRecover: bool, now: nat -> int)
    ensures Reachable(Created(cwd, trusted, autoRecover, now))
  {
  }

  lemma ObserveTrustKeeps(w: Worker, screen: Screen, now: nat -> int)
    requires Reachable(w)
    ensures Reachable(ObserveTrust(w, screen, now).worker) && w.events <= ObserveTrust(w, screen, now).worker.events
  {
    hide Midway, Pushed;
    Unpack(w);
    if !w.trustGateCleared && screen.trustPrompt {
      var v := w.(lastError := Some(Failure(TrustGate, now(0))));
      var payload := Some(TrustPrompt(w.cwd, None));
      PushKeeps(w, v, KTrustRequired, TrustRequired, payload, now(1));
      PushFrame(v, KTrustRequired, TrustRequired, payload, now(1));
      var required := Pushed(v, KTrustRequired, TrustRequired, payload, now(1));
      if w.trustAutoResolve {
        Unpack(required);
        var u := required.(trustGateCleared := true, lastError := None);
        var resolved := Some(TrustPrompt(w.cwd, Some(AutoAllowlisted)));
        PushKeeps(required, u, KTrustResolved, Spawning, resolved, now(2));
        PushFrame(u, KTrustResolved, Spawning, resolved, now(2));
      }
    }
  }

  lemma Unpack(w: Worker)
    requires Midway(w)
    ensures Delivered(w)
  {
  }

  lemma PushFrame(w: Worker, kind: EventKind, status: Status, payload: Option<Payload>, timestamp: int)
    ensures var p := Pushed(w, kind, status, payload, timestamp);
            p == w.(status := status, updatedAt := timestamp, events := p.events)
  {
  }

  lemma MisdeliveredKeeps(w: Worker, m: Misdelivery, now: nat -> int, k: nat)
    requires Reachable(w) && w.inFlight && w.lastPrompt.Some?
    ensures Reachable(Misdelivered(w, m, now, k)) && w.events <= Misdelivered(w, m, now, k).events
  {
    hide Midway, Pushed;
    Unpack(w);
    var v := w.(lastError := Some(Failure(PromptDelivery, now(k))), inFlight := false);
    var payload := Some(Delivery(m, w.expectedReceipt, false));
    PushKeeps(w, v, KPromptMisdelivery, Failed, payload, now(k + 1));
    PushFrame(v, KPromptMisdelivery, Failed, payload, now(k + 1));
    var failed := Pushed(v, KPromptMisdelivery, Failed, payload, now(k + 1));
    if w.autoRecover {
      Unpack(failed);
      var u := failed.(replayPrompt := failed.lastPrompt);
      var armed := Some(Delivery(m, w.expectedReceipt, true));
      PushKeeps(failed, u, KPromptReplayArmed, ReadyForPrompt, armed, now(k + 2));
      PushFrame(u, KPromptReplayArmed, ReadyForPrompt, armed, now(k + 2));
    }
  }

  lemma ObserveRestKeeps(w: Worker, screen: Screen, now: nat -> int, k: nat)
    requires Reachable(w)
    ensures Reachable(ObserveRest(w, screen, now, k)) && w.events <= ObserveRest(w, screen, now, k).events
  {
    hide Midway, Pushed, Misdelivered;
    Unpack(w);
    if w.inFlight && w.lastPrompt.Some? && screen.misdelivery.Some? {
      MisdeliveredKeeps(w, screen.misdelivery.value, now, k);
    } else {
      var r := ObserveRunning(w, screen, now, k);
      if screen.runningCue && w.inFlight {
        var v := w.(inFlight := false, lastError := None);
        PushKeeps(w, v, KRunning, Running, None, now(k));
        PushFrame(v, KRunning, Running, None, now(k));
        Unpack(r);
      }
      var timestamp := now(if screen.runningCue && w.inFlight then k + 1 else k);
      if screen.ready && r.status != ReadyForPrompt {
        var error := if r.lastError.Some? && r.lastError.value.kind == TrustGate then None else r.lastError;
        var u := r.(inFlight := false, lastError := error);
        PushKeeps(r, u, KReadyForPrompt, ReadyForPrompt, None, timestamp);
        PushFrame(u, KReadyForPrompt, ReadyForPrompt, None, timestamp);
      }
    }
  }

  lemma ObservedKeeps(w: Worker, screen: Screen, now: nat -> int)
    requires Reachable(w)
    ensures Reachable(Observed(w, screen, now)) && w.events <= Observed(w, screen, now).events
  {
    hide Midway, Pushed, ObserveRest, ObserveTrust;
    Unpack(w);
    if screen.toolPrompt.Some? {
      var v := w.(lastError := Some(Failure(ToolPermissionGate, now(0))));
      var payload := Some(PermissionPrompt(screen.toolPrompt.value));
      PushKeeps(w, v, KToolPermissionRequired, ToolPermissionRequired, payload, now(1));
      PushFrame(v, KToolPermissionRequired, ToolPermissionRequired, payload, now(1));
    } else {
      ObserveTrustKeeps(w, screen, now);
      var trust := ObserveTrust(w, screen, now);
      ObserveRestKeeps(trust.worker, screen, now, trust.used);
    }
  }

  /** Every operation keeps the invariant and only appends to the log. */
  lemma StepKeeps(w: Worker, op: Op, now: nat -> int)
    requires Reachable(w)
    ensures Reachable(After(w, op, now)) && w.events <= After(w, op, now).events
  {
    hide Midway, Pushed, Observed, EvidenceOf, ClassifyStartupFailure;
    Unpack(w);
    match op {
      case Observe(screen) =>
        ObservedKeeps(w, screen, now);
      case ResolveTrust =>
        if w.status == TrustRequired {
          PushOk(w, w.(trustGateCleared := true, lastError := None), KTrustResolved, Spawning,
                 Some(TrustPrompt(w.cwd, Some(ManualApproval))), now(0));
        }
      case SendPrompt(prompt, receipt) =>
        if w.status == ReadyForPrompt && PromptToSend(w, prompt).Some? {
          PushOk(w, w.(attempts := w.attempts + 1, inFlight := true, lastPrompt := PromptToSend(w, prompt),
                       expectedReceipt := receipt, replayPrompt := None, lastError := None),
                 KRunning, Running, None, now(0));
        }
      case Restart =>
        PushOk(w, w.(trustGateCleared := false, lastPrompt := None, replayPrompt := None, lastError := None,
                     attempts := 0, inFlight := false), KRestarted, Spawning, None, now(0));
      case Terminate =>
        PushOk(w, w.(inFlight := false), KFinished, Finished, None, now(0));
      case Complete(reason, tokens) =>
        CompletionKeeps(w, reason, tokens, now);
      case StartupTimeout(transport, mcp) =>
        TimeoutKeeps(w, transport, mcp, now);
    }
  }

  lemma CompletionKeeps(w: Worker, reason: string, tokens: int, now: nat -> int)
    requires Reachable(w)
    ensures var next := After(w, Complete(reason, tokens), now); Reachable(next) && w.events <= next.events
  {
    hide Midway, Pushed;
    Unpack(w);
    if ProviderFailure(reason, tokens) {
      PushOk(w, w.(lastError := Some(Failure(Provider, now(0))), inFlight := false), KFailed, Failed, None, now(1));
    } else {
      PushOk(w, w.(inFlight := false, lastError := None), KFinished, Finished, None, now(0));
    }
  }

  lemma TimeoutKeeps(w: Worker, transport: bool, mcp: bool, now: nat -> int)
    requires Reachable(w)
    ensures var next := After(w, StartupTimeout(transport, mcp), now); Reachable(next) && w.events <= next.events
  {
    hide Midway, Pushed, EvidenceOf, ClassifyStartupFailure;
    Unpack(w);
    var evidence := EvidenceOf(w, transport, mcp, now(0));
    PushOk(w, w.(lastError := Some(Failure(StartupNoEvidence, now(0))), inFlight := false), KStartupNoEvidence,
           Failed, Some(Startup(evidence, ClassifyStartupFailure(evidence))), now(1));
  }

  lemma PushOk(w: Worker, v: Worker, kind: EventKind, status: Status, payload: Option<Payload>, timestamp: int)
    requires Reachable(w) && v.events == w.events && v.status == w.status && v.updatedAt == w.updatedAt
    requires status !in {TrustRequired, ToolPermissionRequired} && kind !in {KTrustRequired, KToolPermissionRequired}
    requires kind == KTrustResolved ==> !w.trustGateCleared
    requires v.trustGateCleared == (kind == KTrustResolved || (kind != KRestarted && w.trustGateCleared))
    requires Delivered(v.(status := status))
    ensures Reachable(Pushed(v, kind, status, payload, timestamp))
    ensures w.events <= Pushed(v, kind, status, payload, timestamp).events
  {
    hide Midway, Delivered;
    PushKeeps(w, v, kind, status, payload, timestamp);
  }

  datatype Call = Call(op: Op, now: nat -> int)

  /** A worker after its creation and a sequence of operations, refused ones included. */
  function AfterAll(created: Worker, calls: seq<Call>): Worker {
    if calls == [] then created
    else After(AfterAll(created, calls[..|calls| - 1]), calls[|calls| - 1].op, calls[|calls| - 1].now)
  }

  lemma {:induction false} RunKeeps(created: Worker, calls: seq<Call>)
    requires Reachable(created)
    ensures Reachable(AfterAll(created, calls)) && created.events <= AfterAll(created, calls).events
  {
    hide Reachable, After;
    if calls != [] {
      RunKeeps(created, calls[..|calls| - 1]);
      StepKeeps(AfterAll(created, calls[..|calls| - 1]), calls[|calls| - 1].op, calls[|calls| - 1].now);
    }
  }

  /** Over every run: log numbering, status, prompt delivery, replay and the trust gate. */
  lemma EveryRunIsReachable(cwd: string, trusted: bool, autoRecover: bool, now: nat -> int, calls: seq<Call>)
    ensures Reachable(AfterAll(Created(cwd, trusted, autoRecover, now), calls))
  {
    hide Reachable, Created;
    CreatedReachable(cwd, trusted, autoRecover, now);
    RunKeeps(Created(cwd, trusted, autoRecover, now), calls);
  }

  /** A longer run only appends to the log of a shorter one. */
  lemma {:induction false} LogIsAppendOnly(created: Worker, calls: seq<Call>, n: nat)
    requires Reachable(created) && n <= |calls|
    ensures AfterAll(created, calls[..n]).events <= AfterAll(created, calls).events
    decreases |calls| - n
  {
    hide Reachable, After;
    if n == |calls| {
      assert calls[..n] == calls;
    } else {
      LogIsAppendOnly(created, calls, n + 1);
      assert calls[..n + 1][..n] == calls[..n];
      RunKeeps(created, calls[..n]);
      StepKeeps(AfterAll(created, calls[..n]), calls[n].op, calls[n].now);
    }
  }

  /** What the classifier amounts to on reachable workers: no event history is consulted. */
  function CollapsedClass(w: Worker, transportHealthy: bool, mcpHealthy: bool, now: int): Classification {
    if !transportHealthy then CTransportDead
    else if w.status == TrustRequired then CTrustRequired
    else if w.status == ToolPermissionRequired then CToolPermissionRequired
    else if w.status == Running && w.inFlight then CPromptAcceptanceTimeout
    else if w.status != Running && w.attempts > 0 && now - w.createdAt > 30 then CPromptMisdelivery
    else if !mcpHealthy then CWorkerCrashed
    else CUnknown
  }

  lemma ClassifierCollapses(w: Worker, transportHealthy: bool, mcpHealthy: bool, now: int)
    requires Reachable(w)
    ensures ClassifyStartupFailure(EvidenceOf(w, transportHealthy, mcpHealthy, now))
            == CollapsedClass(w, transportHealthy, mcpHealthy, now)
  {
    hide Latest;
    var last := w.events[|w.events| - 1];
    assert KindFits(last);
    assert w.status == TrustRequired ==> Happened(w.events, KTrustRequired);
    assert w.status == ToolPermissionRequired ==> Happened(w.events, KToolPermissionRequired);
  }

  /** On workers no run produces the history matters: a trust status without its event is not classified as one. */
  lemma ClassifierNeedsHistory(w: Worker, now: int)
    requires w.status == TrustRequired && w.attempts == 0 && !Happened(w.events, KTrustRequired)
    ensures ClassifyStartupFailure(EvidenceOf(w, true, true, now)) == CUnknown
    ensures CollapsedClass(w, true, true, now) == CTrustRequired
    ensures !Reachable(w)
  {
    hide Latest, Happened, Reachable;
    if Reachable(w) {
      ClassifierCollapses(w, true, true, now);
    }
  }

  lemma {:induction false} LatestIsSome(events: seq<Event>, kind: EventKind)
    ensures Latest(events, kind).Some? <==> Happened(events, kind)
    ensures Latest(events, kind).Some? ==>
              Latest(events, kind).value in events && Latest(events, kind).value.kind == kind
  {
    if events != [] {
      var front := events[..|events| - 1];
      LatestIsSome(front, kind);
      if Happened(events, kind) && events[|events| - 1].kind != kind {
        var i :| 0 <= i < |events| && events[i].kind == kind;
        assert front[i].kind == kind;
      }
      if Happened(front, kind) {
        var i :| 0 <= i < |front| && front[i].kind == kind;
        assert events[i].kind == kind;
      }
    }
  }

  /** The evidence reports an allow scope and an age exactly when a permission prompt was seen. */
  lemma ScopeKnownWhenPrompted(w: Worker, transportHealthy: bool, mcpHealthy: bool, now: int)
    requires Reachable(w)
    ensures var e := EvidenceOf(w, transportHealthy, mcpHealthy, now);
            && (e.toolPermissionAllowScope.Some? <==> e.toolPermissionPromptDetected)
            && (e.toolPermissionPromptAge.Some? <==> e.toolPermissionPromptDetected)
  {
    hide Latest, Happened;
    LatestIsSome(w.events, KToolPermissionRequired);
    var prompt := Latest(w.events, KToolPermissionRequired);
    if prompt.Some? {
      var i :| 0 <= i < |w.events| && w.events[i] == prompt.value;
      assert KindFits(w.events[i]);
    }
  }
}
