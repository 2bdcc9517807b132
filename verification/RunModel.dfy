/**
 Runs and their events: the transition table of src/runs/run-state-machine.ts, the event types of
 src/runs/agent-run.ts, and what folding an event log means.
 */
module RunModel {
  import opened Options

  datatype Status = Queued | Running | WaitingTool | Interrupted | Completed | Failed

  predicate CanTransition(from: Status, next: Status) {
    match from
    case Queued => next.Running? || next.Interrupted? || next.Failed?
    case Running => next.WaitingTool? || next.Interrupted? || next.Failed? || next.Completed?
    case WaitingTool => next.Running? || next.Interrupted? || next.Failed?
    case Interrupted => next.Queued? || next.Failed?
    case Completed => false
    case Failed => false
  }

  predicate Terminal(s: Status) { s.Completed? || s.Failed? }

  predicate Active(s: Status) { s.Running? || s.WaitingTool? }

  /** The columns of agent_runs that anything here reads or writes after creation. */
  datatype AgentRun = AgentRun(id: string, status: Status, startedAt: Option<nat>, finishedAt: Option<nat>,
                               checkpointId: Option<string>)

  datatype EventType =
    | RunCreated | RunQueued | QueueBlocked | RunStarted | RunResumed | RunInterrupted | RunCompleted | RunFailed
    | ModelStarted | ModelFirstToken | ModelCompleted | SandboxAcquired | ControlPrepared | SessionInitialized
    | ToolRequested | ToolStarted | ToolCompleted | ToolFailed | CheckpointSaved | ManualReviewResolved

  datatype RunEvent = RunEvent(runId: string, sequence: int, kind: EventType, dedupeKey: Option<string>)

  /**
   The status an event announces. TOOL_STARTED and TOOL_COMPLETED announce one only when they were
   written by markToolPhase, which sets no dedupe key; the bridge's events of the same type are
   timeline entries.
   */
  function Announces(e: RunEvent): Option<Status> {
    match e.kind
    case RunCreated => Some(Queued)
    case RunQueued => Some(Queued)
    case RunStarted => Some(Running)
    case RunResumed => Some(Running)
    case RunInterrupted => Some(Interrupted)
    case RunCompleted => Some(Completed)
    case RunFailed => Some(Failed)
    case ToolStarted => if e.dedupeKey.None? then Some(WaitingTool) else None
    case ToolCompleted => if e.dedupeKey.None? then Some(Running) else None
    case _ => None
  }

  /** The status a log tells, if any. */
  function Fold(log: seq<RunEvent>): Option<Status> {
    if log == [] then None
    else
      var last := Announces(log[|log| - 1]);
      if last.Some? then last else Fold(log[..|log| - 1])
  }

  predicate IsStart(e: RunEvent) { e.kind.RunStarted? || e.kind.RunResumed? }

  /** An event that may follow a log telling `before`. */
  predicate Follows(before: Option<Status>, e: RunEvent) {
    var now := Announces(e);
    now.None?
    || (before.None? && e.kind.RunCreated?)
    || (before.Some? && !e.kind.RunCreated?
        && (CanTransition(before.value, now.value)
            || (before.value.Interrupted? && e.kind.RunInterrupted?))
        && (e.kind.RunResumed? ==> before.value.Queued?)
        && (e.kind.ToolCompleted? ==> before.value.WaitingTool?))
  }

  ghost predicate Lawful(log: seq<RunEvent>) {
    forall i :: 0 <= i < |log| ==> Follows(Fold(log[..i]), log[i])
  }

  ghost predicate Numbered(id: string, log: seq<RunEvent>) {
    forall i :: 0 <= i < |log| ==> log[i].sequence == i + 1 && log[i].runId == id
  }

  ghost predicate DistinctKeys(log: seq<RunEvent>) {
    forall i, j :: 0 <= i < j < |log| && log[i].dedupeKey.Some? ==> log[i].dedupeKey != log[j].dedupeKey
  }

  /** A run and its log agree. */
  ghost predicate Agree(run: AgentRun, log: seq<RunEvent>) {
    && log != [] && log[0].kind.RunCreated?
    && Numbered(run.id, log) && DistinctKeys(log) && Lawful(log)
    && Fold(log) == Some(run.status)
    && (run.finishedAt.Some? <==> Terminal(run.status))
  }

  lemma FoldSnoc(log: seq<RunEvent>, e: RunEvent)
    ensures Fold(log + [e]) == if Announces(e).Some? then Announces(e) else Fold(log)
  {
    assert (log + [e])[..|log|] == log;
  }

  lemma LawfulAt(log: seq<RunEvent>, k: nat)
    requires Lawful(log) && k < |log|
    ensures Follows(Fold(log[..k]), log[k])
  {
  }

  lemma LawfulSnoc(log: seq<RunEvent>, e: RunEvent)
    requires Lawful(log) && Follows(Fold(log), e)
    ensures Lawful(log + [e])
  {
    forall i | 0 <= i < |log + [e]| ensures Follows(Fold((log + [e])[..i]), (log + [e])[i]) {
      if i < |log| {
        assert (log + [e])[..i] == log[..i];
      } else {
        assert (log + [e])[..i] == log;
      }
    }
  }

  /** Appending the next event keeps a log in agreement with the run it announces. */
  lemma AgreeSnoc(run: AgentRun, log: seq<RunEvent>, run': AgentRun, e: RunEvent)
    requires Agree(run, log) && run'.id == run.id
    requires e.runId == run.id && e.sequence == |log| + 1 && Follows(Some(run.status), e)
    requires e.dedupeKey.Some? ==> forall i :: 0 <= i < |log| ==> log[i].dedupeKey != e.dedupeKey
    requires run'.status == if Announces(e).Some? then Announces(e).value else run.status
    requires run'.finishedAt.Some? <==> Terminal(run'.status)
    ensures Agree(run', log + [e])
  {
    FoldSnoc(log, e);
    LawfulSnoc(log, e);
    hide Fold, Lawful, Follows;
  }

  // ---------- what a lawful log says about episodes ----------

  /** Without a start in between, a log that told QUEUED, INTERRUPTED or an end does not tell RUNNING. */
  lemma {:induction false} NotRunningWithoutStart(log: seq<RunEvent>, from: nat, end: nat)
    requires Lawful(log) && from <= end <= |log|
    requires Fold(log[..from]).Some? && !Active(Fold(log[..from]).value)
    requires forall k :: from <= k < end ==> !IsStart(log[k])
    ensures Fold(log[..end]).Some? && !Active(Fold(log[..end]).value)
    decreases end
  {
    hide Fold, Lawful;
    if from < end {
      NotRunningWithoutStart(log, from, end - 1);
      assert log[..end] == log[..end - 1] + [log[end - 1]];
      FoldSnoc(log[..end - 1], log[end - 1]);
      LawfulAt(log, end - 1);
    }
  }

  /** A log that tells QUEUED after a start has announced the interruption and then the queueing. */
  lemma {:induction false} RequeuedSince(log: seq<RunEvent>, i: nat, end: nat) returns (a: nat, b: nat)
    requires Lawful(log) && i < end <= |log| && IsStart(log[i])
    requires forall k :: i < k < end ==> !IsStart(log[k])
    requires Fold(log[..end]) == Some(Queued)
    ensures i < a < b < end && log[a].kind.RunInterrupted? && log[b].kind.RunQueued?
    decreases end
  {
    hide Fold, Lawful;
    assert log[..end] == log[..end - 1] + [log[end - 1]];
    FoldSnoc(log[..end - 1], log[end - 1]);
    LawfulAt(log, end - 1);
    if end - 1 == i {
      assert false;
    } else if Announces(log[end - 1]).None? {
      a, b := RequeuedSince(log, i, end - 1);
    } else {
      SomethingTold(log, i, end - 1);
      assert log[end - 1].kind.RunQueued?;
      a := InterruptedSince(log, i, end - 1);
      b := end - 1;
    }
  }

  lemma {:induction false} SomethingTold(log: seq<RunEvent>, i: nat, end: nat)
    requires i < end <= |log| && Announces(log[i]).Some?
    ensures Fold(log[..end]).Some?
    decreases end
  {
    assert log[..end] == log[..end - 1] + [log[end - 1]];
    FoldSnoc(log[..end - 1], log[end - 1]);
    if end - 1 > i {
      SomethingTold(log, i, end - 1);
    }
  }

  lemma {:induction false} InterruptedSince(log: seq<RunEvent>, i: nat, end: nat) returns (a: nat)
    requires Lawful(log) && i < end <= |log| && IsStart(log[i])
    requires Fold(log[..end]) == Some(Interrupted)
    ensures i < a < end && log[a].kind.RunInterrupted?
    decreases end
  {
    hide Fold, Lawful;
    assert log[..end] == log[..end - 1] + [log[end - 1]];
    FoldSnoc(log[..end - 1], log[end - 1]);
    if Announces(log[end - 1]).None? {
      a := InterruptedSince(log, i, end - 1);
    } else {
      a := end - 1;
    }
  }

  lemma QueuedSinceMeansQueued(log: seq<RunEvent>, b: nat, j: nat)
    requires Lawful(log) && b < j < |log| && log[b].kind.RunQueued? && IsStart(log[j])
    requires forall k :: b < k < j ==> !IsStart(log[k])
    ensures Fold(log[..j]) == Some(Queued)
  {
    assert log[..b + 1] == log[..b] + [log[b]];
    FoldSnoc(log[..b], log[b]);
    NotRunningWithoutStart(log, b + 1, j);
    assert Follows(Fold(log[..j]), log[j]);
    hide Fold;
  }

  /** Between position i and j the log announces an interruption and, later, the queueing. */
  predicate Requeued(log: seq<RunEvent>, i: nat, j: nat)
    requires j <= |log|
  {
    exists a, b :: i < a < b < j && log[a].kind.RunInterrupted? && log[b].kind.RunQueued?
  }

  /**
   Between two consecutive starts of a run, the log holds RUN_INTERRUPTED and then RUN_QUEUED if
   and only if the second start found the run QUEUED.
   */
  lemma EpisodesSeparated(log: seq<RunEvent>, i: nat, j: nat)
    requires Lawful(log) && i < j < |log| && IsStart(log[i]) && IsStart(log[j])
    requires forall k :: i < k < j ==> !IsStart(log[k])
    ensures Requeued(log, i, j) <==> Fold(log[..j]) == Some(Queued)
  {
    hide Fold, Lawful, IsStart;
    if Fold(log[..j]) == Some(Queued) {
      var a, b := RequeuedSince(log, i, j);
    }
    if Requeued(log, i, j) {
      var a, b :| i < a < b < j && log[a].kind.RunInterrupted? && log[b].kind.RunQueued?;
      QueuedSinceMeansQueued(log, b, j);
    }
  }
}
