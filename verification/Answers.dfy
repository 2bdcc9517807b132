/** What callers of the run service and the run store are told: each error, exactly when it is given. */
module Answers {
  import opened Options
  import opened RunModel
  import opened RunStores
  import opened RunSteps
  import opened Lifecycle

  // ---------- the store ----------

  predicate Taken(s: StoreState, e: RunEvent) {
    e.runId in s.logs
    && exists i :: 0 <= i < |s.logs[e.runId]|
                   && (s.logs[e.runId][i].sequence == e.sequence || (e.dedupeKey.Some? && s.logs[e.runId][i].dedupeKey == e.dedupeKey))
  }

  lemma InsertableIff(s: StoreState, e: RunEvent)
    ensures Insertable(s, e) <==> e.runId in s.runs && e.sequence > 0 && !Taken(s, e)
  {
    var log := LogOf(s, e.runId);
    assert e.runId in s.logs ==> log == s.logs[e.runId];
  }

  /** An update fails for an event of another run, an unknown run, a status out of order, and an entry that is taken, in that order. */
  lemma UpdateAnswers(s: StoreState, run: AgentRun, e: RunEvent)
    ensures var r := UpdateRun(s, run, e);
      && (r == Failure(WrongRun) <==> e.runId != run.id)
      && (r == Failure(NotFound) <==> e.runId == run.id && run.id !in s.runs)
      && (r == Failure(InvalidTransition) <==> e.runId == run.id && run.id in s.runs && !CanTransition(s.runs[run.id].status, run.status))
      && (r == Failure(ConstraintViolation) <==>
          && e.runId == run.id && run.id in s.runs && CanTransition(s.runs[run.id].status, run.status)
          && (e.sequence <= 0 || Taken(s, e)))
      && (r.Ok? ==> r.value.runs == s.runs[run.id := run]
                    && r.value.logs == s.logs[run.id := (if run.id in s.logs then s.logs[run.id] else []) + [e]])
  {
    var s' := s.(runs := s.runs[run.id := run]);
    InsertableIff(s', e);
    assert Taken(s', e) == Taken(s, e);
    hide Insertable, CanTransition;
  }

  /** A creation fails for an event of another run, a sequence other than one, and a run that is there already. */
  lemma CreateAnswers(s: StoreState, run: AgentRun, e: RunEvent)
    ensures var r := CreateRun(s, run, e);
      && (r == Failure(WrongRun) <==> e.runId != run.id)
      && (r == Failure(BadSequence) <==> e.runId == run.id && e.sequence != 1)
      && (r == Failure(AlreadyExists) <==> e.runId == run.id && e.sequence == 1 && run.id in s.runs)
      && (r == Failure(ConstraintViolation) <==> e.runId == run.id && e.sequence == 1 && run.id !in s.runs && Taken(s, e))
      && (r.Ok? ==> r.value.runs == s.runs[run.id := run]
                    && r.value.logs == s.logs[run.id := (if run.id in s.logs then s.logs[run.id] else []) + [e]])
  {
    var s' := s.(runs := s.runs[run.id := run]);
    InsertableIff(s', e);
    assert Taken(s', e) == Taken(s, e);
    hide Insertable;
  }

  /** An entry whose key is there already is no error and is not stored again. */
  lemma AppendAnswers(s: StoreState, e: RunEvent)
    ensures AppendEvent(s, e).Ok? <==> e.runId in s.runs && e.sequence > 0 && !Taken(s, e)
    ensures var known := e.dedupeKey.Some? && e.runId in s.logs && exists i :: 0 <= i < |s.logs[e.runId]| && s.logs[e.runId][i].dedupeKey == e.dedupeKey;
      && (AppendIfNew(s, e) == Ok((s, false)) <==> known)
      && (AppendIfNew(s, e).Ok? && AppendIfNew(s, e).value.1 <==> AppendEvent(s, e).Ok?)
  {
    InsertableIff(s, e);
    var log := LogOf(s, e.runId);
    assert e.runId in s.logs ==> log == s.logs[e.runId];
  }

  // ---------- the service ----------

  /** A start after its capture: launched from QUEUED or WAITING_TOOL, given up when interrupted or failed meanwhile, else refused. */
  lemma StartAnswers(s: StoreState, snapshot: AgentRun, now: nat)
    requires Consistent(s) && snapshot.id in s.runs && snapshot.finishedAt.None?
    ensures var l, status := CommitStart(s, snapshot, now), s.runs[snapshot.id].status;
      && (l.Launched? <==> status == Queued || status == WaitingTool)
      && (l == Launch.GivenUp <==> status == Interrupted || status == Failed)
      && (l == Refused <==> status == Running || status == Completed)
  {
    hide Consistent, Advances, Move, LogOf;
    LaunchAdvances(s, snapshot.(status := Running, startedAt := Some(now)), RunStarted);
  }

  /** A resume: launched from QUEUED with the run's own checkpoint, given up when interrupted or failed, else refused. */
  lemma ResumeAnswers(s: StoreState, id: string, cp: Checkpoint)
    requires Consistent(s)
    ensures var l := CommitResume(s, id, cp);
      && (l.Launched? <==> id in s.runs && s.runs[id].status == Queued && cp.runId == id && s.runs[id].checkpointId == Some(cp.id))
      && (l == Launch.GivenUp <==> id in s.runs && (s.runs[id].status == Interrupted || s.runs[id].status == Failed))
  {
    hide Consistent, Advances, Move, LogOf;
    if id in s.runs && s.runs[id].status.Queued? {
      RunAgrees(s, id);
      LaunchAdvances(s, s.runs[id].(status := Running), RunResumed);
    }
  }

  /** Queueing a resume: unknown run, run that is not interrupted, checkpoint that is not the run's own. */
  lemma QueueResumeAnswers(s: StoreState, id: string, cp: Checkpoint)
    requires Consistent(s)
    ensures var r := QueueResume(s, id, cp);
      && (r == Failure(NotFound) <==> id !in s.runs)
      && (r == Failure(InvalidTransition) <==> id in s.runs && s.runs[id].status != Interrupted)
      && (r == Failure(WrongRun) <==>
          id in s.runs && s.runs[id].status == Interrupted && (cp.runId != id || s.runs[id].checkpointId != Some(cp.id)))
  {
    hide Consistent, Advances, Move, LogOf, LastSequence;
    if id in s.runs && s.runs[id].status.Interrupted? {
      RunAgrees(s, id);
      MoveAdvances(s, s.runs[id].(status := Queued), RunQueued);
    }
  }

  /** A review is refused for unknown runs, and unless the run is interrupted and has executions pending. */
  lemma ReviewAnswers(s: StoreState, id: string, pending: bool, occurred: bool, now: nat)
    requires Consistent(s)
    ensures var r := ResolveUnknownEffect(s, id, pending, occurred, now);
      && (r == Failure(NotFound) <==> id !in s.runs)
      && (r == Failure(InvalidTransition) <==> id in s.runs && (s.runs[id].status != Interrupted || !pending))
      && (r.Ok? <==> id in s.runs && s.runs[id].status == Interrupted && pending)
  {
    hide Consistent, Advances, Move, AppendEvent, LogOf, LastSequence;
    if id in s.runs && s.runs[id].status.Interrupted? {
      RunAgrees(s, id);
      MoveAdvances(s, s.runs[id].(status := Failed, finishedAt := Some(now)), RunFailed);
      AppendAdvances(s, id, ManualReviewResolved, None);
    }
  }
}
