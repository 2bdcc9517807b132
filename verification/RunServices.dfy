/**
 RunService of src/runs/run-service.ts over the run store: each public method, cut at its awaits,
 does exactly what RunSteps says.
 */
module RunServices {
  import opened Options
  import opened RunModel
  import opened RunStores
  import opened RunSteps
  import opened Lifecycle
  import opened LifecycleTheorems

  /** The store went from `before` to what the step gives; an error is the step's error and changes nothing. */
  predicate Did(before: StoreState, after: StoreState, step: Outcome<StoreState>, r: Outcome<()>) {
    match step
    case Ok(s) => after == s && r == Ok(())
    case Failure(e) => after == before && r == Failure(e)
  }

  /**
   Table and log stay in agreement, every log only grows, and finished runs keep their status and
   finishing time.
   */
  ghost predicate Kept(before: StoreState, after: StoreState) {
    Consistent(before) ==> Consistent(after) && Onward(before, after)
  }

  lemma WriterKeeps(s: StoreState, w: Writer)
    ensures Kept(s, Stored(s, Written(s, w)))
  {
    hide Consistent, Onward, Written, Advances;
    OnwardReflexive(s);
    if Consistent(s) && Written(s, w).Ok? {
      if w.id in s.runs {
        WriterAdvances(s, w);
        Consequence(s, Written(s, w).value, w.id, false);
      } else {
        UnknownRunUntouched(s, w);
      }
    }
  }

  lemma Consequence(s: StoreState, s': StoreState, id: string, launch: bool)
    requires Advances(s, s', id, launch)
    ensures Consistent(s') && Onward(s, s')
  {
    hide Consistent, Onward;
    AdvancesOnward(s, s', id, launch);
  }

  lemma SubmitKeeps(s: StoreState, id: string)
    ensures Kept(s, Stored(s, CreateQueued(s, id)))
  {
    hide Consistent, Onward, CreateQueued;
    OnwardReflexive(s);
    if Consistent(s) && CreateQueued(s, id).Ok? {
      SubmitIsStep(s, id);
      SubmitOnward(s, CreateQueued(s, id).value, id);
    }
  }

  lemma EventKeeps(s: StoreState, id: string, e: RuntimeEvent, now: nat)
    ensures id in s.runs ==> Kept(s, Stored(s, OnRuntimeEvent(s, id, e, now)))
  {
    hide Consistent, Onward, OnRuntimeEvent, Advances;
    OnwardReflexive(s);
    if Consistent(s) && id in s.runs && OnRuntimeEvent(s, id, e, now).Ok? {
      RuntimeEventAdvances(s, id, e, now);
      Consequence(s, OnRuntimeEvent(s, id, e, now).value, id, false);
    }
  }

  lemma InvocationFailureKeeps(s: StoreState, id: string)
    ensures Kept(s, Stored(s, MarkInvocationFailed(s, id)))
  {
    hide Consistent, Onward, MarkInvocationFailed, Advances;
    OnwardReflexive(s);
    if Consistent(s) && id in s.runs && MarkInvocationFailed(s, id).Ok? {
      InvocationFailureAdvances(s, id);
      Consequence(s, MarkInvocationFailed(s, id).value, id, false);
    }
    assert id !in s.runs ==> MarkInvocationFailed(s, id).Failure? by { NotFoundFails(s, id); }
  }

  lemma NotFoundFails(s: StoreState, id: string)
    ensures id !in s.runs ==> MarkInvocationFailed(s, id).Failure?
  {
  }

  /** A launch keeps them too, and is refused to a finished run. */
  lemma LaunchKeeps(s: StoreState, run: AgentRun, kind: EventType)
    requires run.status.Running? && run.finishedAt.None?
    requires kind.RunStarted? || (kind.RunResumed? && run.id in s.runs && s.runs[run.id].status.Queued?)
    ensures var l := LaunchWith(s, run, kind);
      run.id in s.runs && l.Launched? ==>
        Kept(s, l.store) && (Consistent(s) ==> l.sequence == |LogOf(s, run.id)| + 1)
  {
    hide Consistent, Onward, LaunchWith, Advances, LogOf;
    if run.id in s.runs && LaunchWith(s, run, kind).Launched? && Consistent(s) {
      LaunchAdvances(s, run, kind);
      Consequence(s, LaunchWith(s, run, kind).store, run.id, true);
    }
  }

  lemma ResumeKeeps(s: StoreState, id: string, cp: Checkpoint)
    ensures var l := CommitResume(s, id, cp);
      l.Launched? ==> Kept(s, l.store) && (Consistent(s) ==> l.sequence == |LogOf(s, id)| + 1)
  {
    hide Consistent, Onward, LaunchWith, LogOf;
    if Consistent(s) && CommitResume(s, id, cp).Launched? {
      RunAgrees(s, id);
      LaunchKeeps(s, s.runs[id].(status := Running), RunResumed);
    }
  }

  class RunService {
    const store: RunStore

    constructor (store: RunStore)
      ensures this.store == store
    {
      this.store := store;
    }

    method CreateQueuedRun(id: string) returns (r: Outcome<()>)
      modifies store
      ensures Did(old(store.State()), store.State(), CreateQueued(old(store.State()), id), r)
      ensures Kept(old(store.State()), store.State())
    {
      hide Kept, Consistent, Onward;
      SubmitKeeps(store.State(), id);
      r := store.Create(AgentRun(id, Queued, None, None, None), RunEvent(id, 1, RunCreated, None));
    }

    /** Write a snapshot with the event that follows the last one. */
    method WriteNext(run: AgentRun, kind: EventType) returns (r: Outcome<()>)
      modifies store
      ensures Did(old(store.State()), store.State(), Move(old(store.State()), run, kind), r)
    {
      var last := store.GetLastEventSequence(run.id);
      r := store.Update(run, RunEvent(run.id, last + 1, kind, None));
    }

    method AppendNext(id: string, kind: EventType) returns (r: Outcome<()>)
      modifies store
      ensures Did(old(store.State()), store.State(), AppendEvent(old(store.State()), NextEvent(old(store.State()), id, kind, None)), r)
    {
      var last := store.GetLastEventSequence(id);
      r := store.Append(RunEvent(id, last + 1, kind, None));
    }

    method RecordQueueBlocked(id: string) returns (r: Outcome<()>)
      modifies store
      ensures Did(old(store.State()), store.State(), RunSteps.RecordQueueBlocked(old(store.State()), id), r)
      ensures Kept(old(store.State()), store.State())
    {
      hide Kept, Consistent, Onward;
      WriterKeeps(store.State(), BlockedInQueue(id));
      var run := store.Get(id);
      if run.None? {
        return Failure(NotFound);
      }
      if !run.value.status.Queued? {
        return Ok(());
      }
      r := AppendNext(id, QueueBlocked);
    }

    method FailQueuedRun(id: string, now: nat) returns (r: Outcome<()>)
      requires id in store.runs ==> store.runs[id].id == id
      modifies store
      ensures Did(old(store.State()), store.State(), FailQueued(old(store.State()), id, now), r)
      ensures Kept(old(store.State()), store.State())
    {
      hide Kept, Consistent, Onward;
      WriterKeeps(store.State(), QueueTimeout(id, now));
      var run := store.Get(id);
      if run.None? {
        return Failure(NotFound);
      }
      if !run.value.status.Queued? {
        return Ok(());
      }
      r := WriteNext(run.value.(status := Failed, finishedAt := Some(now)), RunFailed);
    }

    /** Up to the capture of the workspace: the snapshot to start from, if the run may start. */
    method BeginExecuteQueuedRun(id: string) returns (snapshot: Option<AgentRun>)
      ensures snapshot.Some? <==> id in store.runs && store.runs[id].status.Queued?
      ensures snapshot.Some? ==> snapshot.value == store.runs[id]
    {
      var run := store.Get(id);
      snapshot := if run.Some? && run.value.status.Queued? then run else None;
    }

    /**
     From the end of the capture to the runtime call. A number says that the call is to be made;
     without one, the start was given up for a run taken over, or failed with an error.
     */
    method CommitExecution(snapshot: AgentRun, now: nat) returns (call: Option<int>, error: bool)
      modifies store
      ensures var l := CommitStart(old(store.State()), snapshot, now);
        && error == l.Refused?
        && if l.Launched? then call == Some(l.sequence) && store.State() == l.store
           else call == None && store.State() == old(store.State())
      ensures snapshot.id in old(store.runs) && snapshot.finishedAt.None? && call.Some? ==>
                Kept(old(store.State()), store.State())
                && (Consistent(old(store.State())) ==> call.value == |LogOf(old(store.State()), snapshot.id)| + 1)
    {
      hide Kept, Consistent, Onward;
      if snapshot.finishedAt.None? {
        LaunchKeeps(store.State(), snapshot.(status := Running, startedAt := Some(now)), RunStarted);
      }
      var run := snapshot.(status := Running, startedAt := Some(now));
      var last := store.GetLastEventSequence(run.id);
      var r := store.Update(run, RunEvent(run.id, last + 1, RunStarted, None));
      if r.Ok? {
        return Some(last + 1), false;
      }
      var current := store.Get(run.id);
      return None, current.None? || !TakenOver(current.value.status);
    }

    method ExecuteQueuedResume(id: string, cp: Checkpoint) returns (call: Option<int>, error: bool)
      requires id in store.runs ==> store.runs[id].id == id
      modifies store
      ensures var l := CommitResume(old(store.State()), id, cp);
        && error == l.Refused?
        && if l.Launched? then call == Some(l.sequence) && store.State() == l.store
           else call == None && store.State() == old(store.State())
      ensures call.Some? ==>
                Kept(old(store.State()), store.State())
                && (Consistent(old(store.State())) ==> call.value == |LogOf(old(store.State()), id)| + 1)
    {
      hide Kept, Consistent, Onward;
      ResumeKeeps(store.State(), id, cp);
      var queued := store.Get(id);
      if queued.None? {
        return None, true;
      }
      if !queued.value.status.Queued? {
        return None, !TakenOver(queued.value.status);
      }
      if cp.runId != id || queued.value.checkpointId != Some(cp.id) {
        return None, true;
      }
      var last := store.GetLastEventSequence(id);
      var r := store.Update(queued.value.(status := Running), RunEvent(id, last + 1, RunResumed, None));
      if r.Ok? {
        return Some(last + 1), false;
      }
      var current := store.Get(id);
      return None, current.None? || !TakenOver(current.value.status);
    }

    method QueueResume(id: string, cp: Checkpoint) returns (r: Outcome<()>)
      requires id in store.runs ==> store.runs[id].id == id
      modifies store
      ensures Did(old(store.State()), store.State(), RunSteps.QueueResume(old(store.State()), id, cp), r)
      ensures Kept(old(store.State()), store.State())
    {
      hide Kept, Consistent, Onward;
      WriterKeeps(store.State(), AskResume(id, cp));
      var run := store.Get(id);
      if run.None? {
        return Failure(NotFound);
      }
      if !run.value.status.Interrupted? {
        return Failure(InvalidTransition);
      }
      if cp.runId != id || run.value.checkpointId != Some(cp.id) {
        return Failure(WrongRun);
      }
      r := WriteNext(run.value.(status := Queued), RunQueued);
    }

    /** Whether the run can be interrupted, and whether the runtime has to be asked first. */
    method BeginInterrupt(id: string) returns (r: Outcome<bool>)
      ensures r.Ok? <==> id in store.runs && !Terminal(store.runs[id].status)
      ensures r.Ok? ==> r.value == Active(store.runs[id].status)
    {
      var run := store.Get(id);
      if run.None? {
        return Failure(NotFound);
      }
      if Terminal(run.value.status) {
        return Failure(InvalidTransition);
      }
      r := Ok(Active(run.value.status));
    }

    method EndInterrupt(id: string) returns (r: Outcome<()>)
      requires id in store.runs ==> store.runs[id].id == id
      modifies store
      ensures Did(old(store.State()), store.State(), FinishInterrupt(old(store.State()), id), r)
      ensures Kept(old(store.State()), store.State())
    {
      hide Kept, Consistent, Onward;
      WriterKeeps(store.State(), Writer.EndInterrupt(id));
      var run := store.Get(id);
      if run.None? {
        return Failure(NotFound);
      }
      if run.value.status.Interrupted? || Terminal(run.value.status) {
        return Ok(());
      }
      r := WriteNext(run.value.(status := Interrupted), RunInterrupted);
    }

    /** The handler of subscribeToRuntime. */
    method OnEvent(id: string, e: RuntimeEvent, now: nat) returns (r: Outcome<()>)
      requires id in store.runs ==> store.runs[id].id == id
      modifies store
      ensures Did(old(store.State()), store.State(), OnRuntimeEvent(old(store.State()), id, e, now), r)
      ensures id in old(store.runs) ==> Kept(old(store.State()), store.State())
    {
      hide Kept, Consistent, Onward;
      EventKeeps(store.State(), id, e, now);
      hide CreateRun, LastSequence;
      if e.TextDelta? || e.ThinkingDelta? {
        return Ok(());
      }
      var draft := MapEvent(id, e);
      if draft.Some? {
        var last := store.GetLastEventSequence(id);
        var stored := store.AppendEventIfNew(RunEvent(id, last + 1, draft.value.kind, Some(draft.value.dedupeKey)));
        return if stored.Ok? then Ok(()) else Failure(stored.error);
      }
      r := OnStatusEvent(id, e, now);
    }

    method OnStatusEvent(id: string, e: RuntimeEvent, now: nat) returns (r: Outcome<()>)
      requires id in store.runs ==> store.runs[id].id == id
      requires MapEvent(id, e).None?
      modifies store
      ensures Did(old(store.State()), store.State(), OnRuntimeEvent(old(store.State()), id, e, now), r)
    {
      hide CreateRun, LastSequence, Move, AppendIfNew, MapEvent;
      if !(e.AgentCompleted? || e.AgentFailed? || e.AgentInterrupted?) {
        return Ok(());
      }
      var current := store.Get(id);
      if current.None? {
        return Failure(NotFound);
      }
      var run := current.value;
      if (if e.AgentInterrupted? then run.status.Interrupted? else Terminal(run.status)) {
        return Ok(());
      }
      if e.AgentCompleted? {
        r := WriteNext(run.(status := Completed, finishedAt := Some(now)), RunCompleted);
      } else if e.AgentFailed? {
        r := WriteNext(run.(status := Failed, finishedAt := Some(now)), RunFailed);
      } else {
        r := WriteNext(run.(status := Interrupted), RunInterrupted);
      }
    }

    method MarkRuntimeInvocationFailureInterrupted(id: string) returns (r: Outcome<()>)
      requires id in store.runs ==> store.runs[id].id == id
      modifies store
      ensures Did(old(store.State()), store.State(), MarkInvocationFailed(old(store.State()), id), r)
      ensures Kept(old(store.State()), store.State())
    {
      hide Kept, Consistent, Onward;
      InvocationFailureKeeps(store.State(), id);
      var run := store.Get(id);
      if run.None? {
        return Failure(NotFound);
      }
      if !Active(run.value.status) {
        return Ok(());
      }
      r := WriteNext(run.value.(status := Interrupted), RunInterrupted);
    }

    method MarkToolPhase(id: string, phase: Phase) returns (r: Outcome<()>)
      requires id in store.runs ==> store.runs[id].id == id
      modifies store
      ensures Did(old(store.State()), store.State(), RunSteps.MarkToolPhase(old(store.State()), id, phase), r)
      ensures Kept(old(store.State()), store.State())
    {
      hide Kept, Consistent, Onward;
      WriterKeeps(store.State(), ToolPhase(id, phase));
      var run := store.Get(id);
      if run.None? {
        return Failure(NotFound);
      }
      if phase.PhaseStarted? {
        if !run.value.status.Running? {
          return Ok(());
        }
        r := WriteNext(run.value.(status := WaitingTool), ToolStarted);
      } else {
        if !run.value.status.WaitingTool? {
          return Ok(());
        }
        r := WriteNext(run.value.(status := Running), ToolCompleted);
      }
    }
  }
}
