/** How runs end: by what, when, and by nothing else. */
module Outcomes {
  import opened Options
  import opened RunModel
  import opened RunStores
  import opened RunSteps
  import opened Lifecycle
  import opened LifecycleTheorems
  import opened StepTable
  import Checkpoints

  /** The runtime of a task of the run reports completion while the run is RUNNING. */
  ghost predicate Completes(sys: System, a: Action, id: string, now: nat) {
    && id in sys.store.runs && sys.store.runs[id].status == Running
    && exists t :: ExecutesFor(sys, t, id) && a == Deliver(t, AgentCompleted, now)
  }

  /**
   The runtime of a task of the run reports failure while the run is not finished; or the run is still
   QUEUED at its timeout; or a review of the interrupted run finds that an open effect has occurred.
   */
  ghost predicate Fails(sys: System, a: Action, id: string, now: nat) {
    && id in sys.store.runs
    && var status := sys.store.runs[id].status;
    || (status != Completed && status != Failed && exists t :: ExecutesFor(sys, t, id) && a == Deliver(t, AgentFailed, now))
    || (status == Queued && a == Write(QueueTimeout(id, now)))
    || (status == Interrupted && a == Write(Review(id, true, true, now)))
  }

  predicate EndedAt(s: StoreState, id: string, status: Status, now: nat) {
    id in s.runs && s.runs[id].status == status && s.runs[id].finishedAt == Some(now)
  }

  /** Only a completion or a failure ends a run, and an end stays. */
  lemma StepEnds(sys: System, a: Action, id: string, now: nat)
    requires Inv(sys) && id in sys.store.runs
    ensures EndedAt(Next(sys, a).store, id, Completed, now) <==> EndedAt(sys.store, id, Completed, now) || Completes(sys, a, id, now)
    ensures EndedAt(Next(sys, a).store, id, Failed, now) <==> EndedAt(sys.store, id, Failed, now) || Fails(sys, a, id, now)
  {
    hide Inv, Next, TimelineOf, Keyed;
    StepRecords(sys, a, id);
    if a.Deliver? && TimelineOf(id, a.event).Some? {
      TimelineKind(id, a.event);
    }
    UnfinishedAt(sys, id);
  }

  lemma UnfinishedAt(sys: System, id: string)
    requires Inv(sys) && id in sys.store.runs
    ensures sys.store.runs[id].finishedAt.Some? <==> sys.store.runs[id].status == Completed || sys.store.runs[id].status == Failed
  {
    RunAgrees(sys.store, id);
    hide Consistent, OneToOne, TasksMeanRuns;
  }

  /** Timeline entries leave status and times alone. */
  lemma TimelineKind(id: string, e: RuntimeEvent)
    requires TimelineOf(id, e).Some?
    ensures var entry := TimelineOf(id, e).value;
      && !entry.kind.RunCompleted? && !entry.kind.RunFailed? && !e.AgentCompleted? && !e.AgentFailed?
      && forall status :: Shown(status, entry) == status
  {
  }

  ghost predicate EverCompleted(actions: seq<Action>, id: string, now: nat) {
    exists i :: 0 <= i < |actions| && Completes(Reached(actions[..i]), actions[i], id, now)
  }

  ghost predicate EverFailed(actions: seq<Action>, id: string, now: nat) {
    exists i :: 0 <= i < |actions| && Fails(Reached(actions[..i]), actions[i], id, now)
  }

  lemma EverSnoc(actions: seq<Action>, a: Action, id: string, now: nat)
    ensures EverCompleted(actions + [a], id, now) <==> EverCompleted(actions, id, now) || Completes(Reached(actions), a, id, now)
    ensures EverFailed(actions + [a], id, now) <==> EverFailed(actions, id, now) || Fails(Reached(actions), a, id, now)
  {
    hide Completes, Fails, Reached;
    var all, n := actions + [a], |actions|;
    assert all[..n] == actions && all[n] == a;
    assert forall i :: 0 <= i < n ==> all[..i] == actions[..i] && all[i] == actions[i];
    if EverCompleted(actions, id, now) {
      var i :| 0 <= i < n && Completes(Reached(actions[..i]), actions[i], id, now);
      assert Completes(Reached(all[..i]), all[i], id, now);
    }
    if EverFailed(actions, id, now) {
      var i :| 0 <= i < n && Fails(Reached(actions[..i]), actions[i], id, now);
      assert Fails(Reached(all[..i]), all[i], id, now);
    }
    if Completes(Reached(actions), a, id, now) {
      assert Completes(Reached(all[..n]), all[n], id, now);
    }
    if Fails(Reached(actions), a, id, now) {
      assert Fails(Reached(all[..n]), all[n], id, now);
    }
  }

  /**
   How runs end, over everything that can happen. A run is COMPLETED with a finishing time if and only if
   at that time the runtime of a task of it reported completion while it was RUNNING; FAILED if and only if
   then a runtime of it reported failure before it was finished, its timeout found it QUEUED, or a review
   of the interrupted run found that an open effect had occurred.
   */
  lemma {:induction false} EndsExactly(actions: seq<Action>, id: string, now: nat)
    ensures EndedAt(Reached(actions).store, id, Completed, now) <==> EverCompleted(actions, id, now)
    ensures EndedAt(Reached(actions).store, id, Failed, now) <==> EverFailed(actions, id, now)
    decreases |actions|
  {
    hide Completes, Fails, EverCompleted, EverFailed, Next, Inv;
    if actions == [] {
      NothingEnded(id, now);
    } else {
      var before, a := actions[..|actions| - 1], actions[|actions| - 1];
      assert actions == before + [a];
      EndsExactly(before, id, now);
      EverSnoc(before, a, id, now);
      Checkpoints.AfterOneMore(INITIAL, before, a);
      ReachedInv(before);
      hide Reached, After;
      if id in Reached(before).store.runs {
        StepEnds(Reached(before), a, id, now);
      } else {
        NotYetThere(Reached(before), a, id, now);
        SubmissionCreates(before, a, id);
      }
    }
  }

  lemma NotYetThere(sys: System, a: Action, id: string, now: nat)
    requires id !in sys.store.runs
    ensures !Completes(sys, a, id, now) && !Fails(sys, a, id, now)
  {
  }

  lemma NothingEnded(id: string, now: nat)
    ensures !EndedAt(Reached([]).store, id, Completed, now) && !EndedAt(Reached([]).store, id, Failed, now)
    ensures !EverCompleted([], id, now) && !EverFailed([], id, now)
  {
  }

  /** A finished run has a finishing time, so the theorem leaves no end out. */
  lemma EndsHaveTimes(actions: seq<Action>, id: string)
    requires id in Reached(actions).store.runs
    ensures var run := Reached(actions).store.runs[id];
      run.status == Completed || run.status == Failed <==> exists now :: EndedAt(Reached(actions).store, id, run.status, now)
  {
    hide After, Inv;
    ReachedInv(actions);
    UnfinishedAt(Reached(actions), id);
    var run := Reached(actions).store.runs[id];
    if run.finishedAt.Some? {
      assert EndedAt(Reached(actions).store, id, run.status, run.finishedAt.value);
    }
  }
}
