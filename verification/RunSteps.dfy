/**
 What every writer of runs does between two awaits, as functions on the store: src/runs/run-service.ts
 with the event mapping of src/events/runtime-event-bridge.ts, the checkpoint write of
 src/tools/tool-execution-store.ts, the restart scan of src/checkpoints/recovery-service.ts, and
 the manual review in src/app/harness-application.ts.
 */
module RunSteps {
  import opened Options
  import opened RunModel
  import opened RunStores

  datatype Checkpoint = Checkpoint(id: string, runId: string, runtimeSessionRef: string)

  /** Change the snapshot of a run and append the event for it. */
  function Move(s: StoreState, run: AgentRun, kind: EventType): Outcome<StoreState> {
    UpdateRun(s, run, NextEvent(s, run.id, kind, None))
  }

  function CreateQueued(s: StoreState, id: string): Outcome<StoreState> {
    CreateRun(s, AgentRun(id, Queued, None, None, None), RunEvent(id, 1, RunCreated, None))
  }

  function RecordQueueBlocked(s: StoreState, id: string): Outcome<StoreState> {
    if id !in s.runs then Failure(NotFound)
    else if !s.runs[id].status.Queued? then Ok(s)
    else AppendEvent(s, NextEvent(s, id, QueueBlocked, None))
  }

  /** The queue timeout; a run that has left the queue is not touched. */
  function FailQueued(s: StoreState, id: string, now: nat): Outcome<StoreState> {
    if id !in s.runs then Failure(NotFound)
    else if !s.runs[id].status.Queued? then Ok(s)
    else Move(s, s.runs[id].(status := Failed, finishedAt := Some(now)), RunFailed)
  }

  predicate TakenOver(status: Status) { status.Interrupted? || status.Failed? }

  /** How the start of an execution ends before the runtime is called. */
  datatype Launch = Launched(store: StoreState, sequence: int) | GivenUp | Refused

  function LaunchWith(s: StoreState, run: AgentRun, kind: EventType): Launch {
    match Move(s, run, kind)
    case Ok(s') => Launched(s', LastSequence(s, run.id) + 1)
    case Failure(_) => if run.id in s.runs && TakenOver(s.runs[run.id].status) then GivenUp else Refused
  }

  /**
   The second half of executeQueuedRun: `snapshot` is the run as read before the workspace was
   captured, and may be stale by now.
   */
  function CommitStart(s: StoreState, snapshot: AgentRun, now: nat): Launch {
    LaunchWith(s, snapshot.(status := Running, startedAt := Some(now)), RunStarted)
  }

  function CommitResume(s: StoreState, id: string, cp: Checkpoint): Launch {
    if id !in s.runs then Refused
    else if !s.runs[id].status.Queued? then (if TakenOver(s.runs[id].status) then GivenUp else Refused)
    else if cp.runId != id || s.runs[id].checkpointId != Some(cp.id) then Refused
    else LaunchWith(s, s.runs[id].(status := Running), RunResumed)
  }

  function QueueResume(s: StoreState, id: string, cp: Checkpoint): Outcome<StoreState> {
    if id !in s.runs then Failure(NotFound)
    else if !s.runs[id].status.Interrupted? then Failure(InvalidTransition)
    else if cp.runId != id || s.runs[id].checkpointId != Some(cp.id) then Failure(WrongRun)
    else Move(s, s.runs[id].(status := Queued), RunQueued)
  }

  /** The part of `interrupt` after the runtime has been asked to stop. */
  function FinishInterrupt(s: StoreState, id: string): Outcome<StoreState> {
    if id !in s.runs then Failure(NotFound)
    else if s.runs[id].status.Interrupted? || Terminal(s.runs[id].status) then Ok(s)
    else Move(s, s.runs[id].(status := Interrupted), RunInterrupted)
  }

  /** markRuntimeInvocationFailureInterrupted */
  function MarkInvocationFailed(s: StoreState, id: string): Outcome<StoreState> {
    if id !in s.runs then Failure(NotFound)
    else if !Active(s.runs[id].status) then Ok(s)
    else Move(s, s.runs[id].(status := Interrupted), RunInterrupted)
  }

  datatype Phase = PhaseStarted | PhaseEnded

  function MarkToolPhase(s: StoreState, id: string, phase: Phase): Outcome<StoreState> {
    if id !in s.runs then Failure(NotFound)
    else if phase.PhaseStarted? then
      if !s.runs[id].status.Running? then Ok(s)
      else Move(s, s.runs[id].(status := WaitingTool), ToolStarted)
    else
      if !s.runs[id].status.WaitingTool? then Ok(s)
      else Move(s, s.runs[id].(status := Running), ToolCompleted)
  }

  // ---------- runtime events ----------

  datatype RuntimeEvent =
    | AgentStarted | AgentResumed | AgentCompleted | AgentFailed | AgentInterrupted
    | TextDelta | ThinkingDelta
    | SandboxReady(sandboxId: string) | ControlReady | SessionReady
    | ModelBegins(callId: string) | ModelFirst(callId: string) | ModelEnds(callId: string)
    | ToolBegins(callId: string) | ToolEnds(callId: string, isError: bool)

  datatype Draft = Draft(kind: EventType, dedupeKey: string)

  /** RuntimeEventBridge.map: the timeline entry an event is stored as, with its stable key. */
  function MapEvent(runId: string, e: RuntimeEvent): Option<Draft> {
    match e
    case SandboxReady(sb) => Some(Draft(SandboxAcquired, "sandbox:" + sb + ":acquired"))
    case ControlReady => Some(Draft(ControlPrepared, "control:" + runId + ":prepared"))
    case SessionReady => Some(Draft(SessionInitialized, "session:" + runId + ":initialized"))
    case ModelBegins(c) => Some(Draft(ModelStarted, "model:" + c + ":started"))
    case ModelFirst(c) => Some(Draft(ModelFirstToken, "model:" + c + ":first-token"))
    case ModelEnds(c) => Some(Draft(ModelCompleted, "model:" + c + ":finished"))
    case ToolBegins(c) => Some(Draft(ToolStarted, "tool:" + c + ":started"))
    case ToolEnds(c, isError) => Some(Draft(if isError then ToolFailed else ToolCompleted, "tool:" + c + ":finished"))
    case _ => None
  }

  /** The subscription handler of subscribeToRuntime. */
  function OnRuntimeEvent(s: StoreState, id: string, e: RuntimeEvent, now: nat): Outcome<StoreState> {
    var draft := MapEvent(id, e);
    if draft.Some? then
      match AppendIfNew(s, NextEvent(s, id, draft.value.kind, Some(draft.value.dedupeKey)))
      case Ok(p) => Ok(p.0)
      case Failure(x) => Failure(x)
    else if !(e.AgentCompleted? || e.AgentFailed? || e.AgentInterrupted?) then Ok(s)
    else if id !in s.runs then Failure(NotFound)
    else
      var run := s.runs[id];
      match e
      case AgentCompleted =>
        if Terminal(run.status) then Ok(s) else Move(s, run.(status := Completed, finishedAt := Some(now)), RunCompleted)
      case AgentFailed =>
        if Terminal(run.status) then Ok(s) else Move(s, run.(status := Failed, finishedAt := Some(now)), RunFailed)
      case _ =>
        if run.status.Interrupted? then Ok(s) else Move(s, run.(status := Interrupted), RunInterrupted)
  }

  // ---------- other writers ----------

  /** The run column of completeWithCheckpoint; it writes no event and looks at no status. */
  function SaveCheckpoint(s: StoreState, id: string, checkpointId: string): Outcome<StoreState> {
    if id !in s.runs then Failure(NotFound)
    else Ok(s.(runs := s.runs[id := s.runs[id].(checkpointId := Some(checkpointId))]))
  }

  /** The restart scan corrects one run that the dead process left active. */
  function InterruptAfterRestart(s: StoreState, id: string): Outcome<StoreState> {
    if id !in s.runs then Failure(NotFound)
    else Move(s, s.runs[id].(status := Interrupted), RunInterrupted)
  }

  /** The audit entry for a run left to manual review. */
  function AuditManualReview(s: StoreState, id: string): Outcome<StoreState> {
    if id !in s.runs || !s.runs[id].status.Interrupted? then Ok(s)
    else AppendEvent(s, NextEvent(s, id, RunInterrupted, None))
  }

  /** resolveUnknownEffect; `pending` says whether the run has PREPARED executions. */
  function ResolveUnknownEffect(s: StoreState, id: string, pending: bool, occurred: bool, now: nat): Outcome<StoreState> {
    if id !in s.runs then Failure(NotFound)
    else if !s.runs[id].status.Interrupted? || !pending then Failure(InvalidTransition)
    else if occurred then Move(s, s.runs[id].(status := Failed, finishedAt := Some(now)), RunFailed)
    else AppendEvent(s, NextEvent(s, id, ManualReviewResolved, None))
  }

  // ---------- what one step keeps ----------

  /** The second log is the first, or the first with one event more; that event is a start iff `launch`. */
  predicate Lengthened(log: seq<RunEvent>, log': seq<RunEvent>, launch: bool) {
    || (log' == log && !launch)
    || (|log'| == |log| + 1 && log'[..|log|] == log && (IsStart(log'[|log|]) <==> launch))
  }

  predicate StaysFinished(run: AgentRun, run': AgentRun) {
    Terminal(run.status) ==> run'.status == run.status && run'.finishedAt == run.finishedAt
  }

  /** One step of one run: at most one lawful event, and no other run is touched. */
  ghost predicate Advances(s: StoreState, s': StoreState, id: string, launch: bool) {
    && Consistent(s')
    && id in s.runs && id in s.logs && id in s'.runs && id in s'.logs
    && s'.runs == s.runs[id := s'.runs[id]]
    && s'.logs == s.logs[id := s'.logs[id]]
    && Lengthened(s.logs[id], s'.logs[id], launch)
    && StaysFinished(s.runs[id], s'.runs[id])
  }

  lemma MoveAdvances(s: StoreState, run: AgentRun, kind: EventType)
    requires Consistent(s) && run.id in s.runs
    requires Announces(NextEvent(s, run.id, kind, None)) == Some(run.status) && !kind.RunCreated?
    requires run.finishedAt.Some? <==> Terminal(run.status)
    requires kind.RunResumed? ==> s.runs[run.id].status.Queued?
    requires kind.ToolCompleted? ==> s.runs[run.id].status.WaitingTool?
    ensures Move(s, run, kind).Ok? <==> CanTransition(s.runs[run.id].status, run.status)
    ensures var r := Move(s, run, kind);
      r.Ok? ==>
        && Advances(s, r.value, run.id, kind.RunStarted? || kind.RunResumed?) && r.value.runs[run.id] == run
        && r.value.logs[run.id] == s.logs[run.id] + [NextEvent(s, run.id, kind, None)]
  {
    RunAgrees(s, run.id);
    hide Consistent, LastSequence, UpdateRun, LogOf, Announces, CanTransition;
    UpdateKeepsConsistency(s, run, kind);
    if CanTransition(s.runs[run.id].status, run.status) {
      FinishedStays(s.runs[run.id], run);
      AdvancesBy(s, Move(s, run, kind).value, run, NextEvent(s, run.id, kind, None));
      hide Advances, StaysFinished;
    }
  }

  lemma AdvancesBy(s: StoreState, s': StoreState, run: AgentRun, e: RunEvent)
    requires Consistent(s') && run.id in s.runs && run.id in s.logs
    requires s'.runs == s.runs[run.id := run] && s'.logs == s.logs[run.id := s.logs[run.id] + [e]]
    requires StaysFinished(s.runs[run.id], run)
    ensures Advances(s, s', run.id, IsStart(e))
  {
    hide Consistent, StaysFinished;
    OneMore(s.logs[run.id], e);
    hide Lengthened, IsStart;
  }

  lemma OneMore(log: seq<RunEvent>, e: RunEvent)
    ensures Lengthened(log, log + [e], IsStart(e))
  {
  }

  lemma FinishedStays(run: AgentRun, run': AgentRun)
    requires CanTransition(run.status, run'.status)
    ensures StaysFinished(run, run')
  {
  }

  lemma AppendAdvances(s: StoreState, id: string, kind: EventType, key: Option<string>)
    requires Consistent(s) && id in s.runs && !IsStart(NextEvent(s, id, kind, key))
    requires Announces(NextEvent(s, id, kind, key)).None? || (kind.RunInterrupted? && s.runs[id].status.Interrupted?)
    requires key.Some? ==> !HasKey(s, NextEvent(s, id, kind, key))
    ensures var r := AppendEvent(s, NextEvent(s, id, kind, key));
      r.Ok? && Advances(s, r.value, id, false) && r.value.runs == s.runs
      && r.value.logs[id] == s.logs[id] + [NextEvent(s, id, kind, key)]
  {
    RunAgrees(s, id);
    hide Consistent, LastSequence, AppendEvent, LogOf, HasKey, Announces, Lengthened, IsStart, StaysFinished;
    AppendKeepsConsistency(s, id, kind, key);
    var e := NextEvent(s, id, kind, key);
    hide NextEvent;
    SameRuns(s, id);
    FinishedSame(s.runs[id]);
    AdvancesBy(s, AppendEvent(s, e).value, s.runs[id], e);
  }

  lemma SameRuns(s: StoreState, id: string)
    requires id in s.runs
    ensures s.runs == s.runs[id := s.runs[id]]
  {
  }

  lemma FinishedSame(run: AgentRun)
    ensures StaysFinished(run, run)
  {
  }

  lemma StandsStill(s: StoreState, id: string)
    requires Consistent(s) && id in s.runs
    ensures Advances(s, s, id, false)
  {
    assert s.logs.Keys == s.runs.Keys;
    hide Consistent;
  }

  /** A stored timeline entry is found by its key. */
  lemma KeyIsFound(s: StoreState, e: RunEvent, kind: EventType)
    requires e.dedupeKey.Some? && AppendEvent(s, e).Ok?
    ensures HasKey(AppendEvent(s, e).value, NextEvent(AppendEvent(s, e).value, e.runId, kind, e.dedupeKey))
  {
    var s' := AppendEvent(s, e).value;
    var log := LogOf(s', e.runId);
    assert log == LogOf(s, e.runId) + [e];
    assert log[|log| - 1].dedupeKey == e.dedupeKey;
    hide LastSequence;
  }

  lemma AppendIfNewSplits(s: StoreState, e: RunEvent)
    requires e.dedupeKey.Some?
    ensures HasKey(s, e) ==> AppendIfNew(s, e) == Ok((s, false))
    ensures AppendEvent(s, e).Ok? ==> AppendIfNew(s, e) == Ok((AppendEvent(s, e).value, true))
  {
  }

  /** A timeline entry is stored at most once, however often its event is delivered, and changes no run. */
  lemma EntryStoredOnce(s: StoreState, id: string, kind: EventType, key: string)
    requires Consistent(s) && id in s.runs
    requires !IsStart(NextEvent(s, id, kind, Some(key))) && Announces(NextEvent(s, id, kind, Some(key))).None?
    ensures var r := AppendIfNew(s, NextEvent(s, id, kind, Some(key)));
      && r.Ok? && Advances(s, r.value.0, id, false) && r.value.0.runs == s.runs
      && AppendIfNew(r.value.0, NextEvent(r.value.0, id, kind, Some(key))) == Ok((r.value.0, false))
  {
    hide Consistent, LastSequence, AppendEvent, AppendIfNew, HasKey, Announces, Advances;
    var next := NextEvent(s, id, kind, Some(key));
    AppendIfNewSplits(s, next);
    if HasKey(s, next) {
      StandsStill(s, id);
    } else {
      AppendAdvances(s, id, kind, Some(key));
      KeyIsFound(s, next, kind);
      var s' := AppendEvent(s, next).value;
      AppendIfNewSplits(s', NextEvent(s', id, kind, Some(key)));
    }
  }

  /** Events that come through the bridge never change a run, however often they are delivered. */
  lemma BridgedEventsKeepStatus(s: StoreState, id: string, e: RuntimeEvent, now: nat)
    requires Consistent(s) && id in s.runs && MapEvent(id, e).Some?
    ensures var r := OnRuntimeEvent(s, id, e, now);
      && r.Ok? && Advances(s, r.value, id, false) && r.value.runs == s.runs
      && OnRuntimeEvent(r.value, id, e, now) == Ok(r.value)
  {
    hide Consistent, LastSequence, AppendIfNew, HasKey, Advances;
    var draft := MapEvent(id, e).value;
    EntryStoredOnce(s, id, draft.kind, draft.dedupeKey);
  }

  lemma RuntimeEventAdvances(s: StoreState, id: string, e: RuntimeEvent, now: nat)
    requires Consistent(s) && id in s.runs
    ensures OnRuntimeEvent(s, id, e, now).Ok? ==> Advances(s, OnRuntimeEvent(s, id, e, now).value, id, false)
  {
    StandsStill(s, id);
    RunAgrees(s, id);
    hide Consistent, Advances, Move, AppendIfNew, LastSequence;
    if MapEvent(id, e).Some? {
      BridgedEventsKeepStatus(s, id, e, now);
    } else {
      hide MapEvent;
      StatusEventAdvances(s, id, e, now);
    }
  }

  lemma StatusEventAdvances(s: StoreState, id: string, e: RuntimeEvent, now: nat)
    requires Consistent(s) && id in s.runs && MapEvent(id, e).None?
    ensures OnRuntimeEvent(s, id, e, now).Ok? ==> Advances(s, OnRuntimeEvent(s, id, e, now).value, id, false)
  {
    hide Consistent, Advances, Move, AppendIfNew, LastSequence, MapEvent, LogOf, UpdateRun;
    StandsStill(s, id);
    RunAgrees(s, id);
    var run := s.runs[id];
    if e.AgentCompleted? && !Terminal(run.status) {
      MoveAdvances(s, run.(status := Completed, finishedAt := Some(now)), RunCompleted);
    } else if e.AgentFailed? && !Terminal(run.status) {
      MoveAdvances(s, run.(status := Failed, finishedAt := Some(now)), RunFailed);
    } else if e.AgentInterrupted? && !run.status.Interrupted? {
      if Terminal(run.status) {
        TerminalRefuses(s, run.(status := Interrupted), RunInterrupted);
      } else {
        MoveAdvances(s, run.(status := Interrupted), RunInterrupted);
      }
    }
  }

  /** A finished run accepts no further status. */
  lemma TerminalRefuses(s: StoreState, run: AgentRun, kind: EventType)
    requires run.id in s.runs && Terminal(s.runs[run.id].status)
    ensures Move(s, run, kind) == Failure(InvalidTransition)
  {
    hide LastSequence;
  }
}
