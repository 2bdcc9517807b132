/** What holds of every run of the deployment described in Lifecycle. */
module LifecycleTheorems {
  import opened Options
  import opened RunModel
  import opened RunStores
  import opened RunSteps
  import opened Lifecycle

  lemma {:induction false} InvAlways(sys: System, actions: seq<Action>)
    requires Inv(sys)
    ensures Inv(After(sys, actions))
    decreases |actions|
  {
    hide Inv, Next;
    if actions != [] {
      NextKeepsInv(sys, actions[0]);
      InvAlways(Next(sys, actions[0]), actions[1..]);
    }
  }

  lemma InitialInv()
    ensures Inv(INITIAL)
  {
    assert Starts(EMPTY_STORE) == {};
    assert Pending(map[]) == {};
  }

  function Reached(actions: seq<Action>): System { After(INITIAL, actions) }

  lemma ReachedInv(actions: seq<Action>)
    ensures Inv(Reached(actions))
  {
    InitialInv();
    InvAlways(INITIAL, actions);
  }

  /**
   Event sourcing: whatever was interleaved, the events of a run are numbered 1..n, no timeline
   entry is stored twice, folding the log gives the current status, and exactly the finished runs
   have a finishing time.
   */
  lemma LogTellsStatus(actions: seq<Action>, id: string)
    requires id in Reached(actions).store.runs
    ensures var s := Reached(actions).store;
      && id in s.logs && |s.logs[id]| > 0
      && (forall i :: 0 <= i < |s.logs[id]| ==> s.logs[id][i].sequence == i + 1 && s.logs[id][i].runId == id)
      && (forall i, j :: 0 <= i < j < |s.logs[id]| && s.logs[id][i].dedupeKey.Some? ==>
                           s.logs[id][i].dedupeKey != s.logs[id][j].dedupeKey)
      && Fold(s.logs[id]) == Some(s.runs[id].status)
      && (s.runs[id].finishedAt.Some? <==> Terminal(s.runs[id].status))
  {
    ReachedInv(actions);
    hide OneToOne, TasksMeanRuns, After, Fold, Lawful;
    RunAgrees(Reached(actions).store, id);
    assert Agree(Reached(actions).store.runs[id], Reached(actions).store.logs[id]);
  }

  /**
   Runtime calls and start events correspond one to one: no start is called for twice, every call
   follows a start event, and every start event has its call unless a task is about to make it or
   its process died first.
   */
  lemma CallsMatchStarts(actions: seq<Action>)
    ensures var sys := Reached(actions);
      && (forall i, j :: 0 <= i < j < |sys.calls| ==> sys.calls[i] != sys.calls[j])
      && (forall c :: c in sys.calls ==> c in Starts(sys.store))
      && (forall c :: c in Starts(sys.store) ==>
                        (c in sys.calls || c in sys.lost || c in Pending(sys.tasks))
                        && !(c in sys.calls && (c in sys.lost || c in Pending(sys.tasks))))
  {
    ReachedInv(actions);
    hide After, Starts, Pending, Consistent, TasksMeanRuns, OwnStart;
  }

  // ---------- finished runs ----------

  /** `longer` continues `log`. */
  predicate Continues(log: seq<RunEvent>, longer: seq<RunEvent>) {
    |log| <= |longer| && longer[..|log|] == log
  }

  ghost predicate Onward(s: StoreState, s': StoreState) {
    forall id :: id in s.runs && id in s.logs ==>
                   && id in s'.runs && id in s'.logs
                   && Continues(s.logs[id], s'.logs[id]) && StaysFinished(s.runs[id], s'.runs[id])
  }

  lemma OnwardReflexive(s: StoreState)
    ensures Onward(s, s)
  {
  }

  lemma OnwardTransitive(a: StoreState, b: StoreState, c: StoreState)
    requires Onward(a, b) && Onward(b, c)
    ensures Onward(a, c)
  {
    forall id | id in a.runs && id in a.logs
      ensures id in c.runs && id in c.logs && Continues(a.logs[id], c.logs[id]) && StaysFinished(a.runs[id], c.runs[id])
    {
      assert id in b.runs && id in b.logs;
      assert c.logs[id][..|a.logs[id]|] == c.logs[id][..|b.logs[id]|][..|a.logs[id]|];
    }
  }

  lemma AdvancesOnward(s: StoreState, s': StoreState, id: string, launch: bool)
    requires Advances(s, s', id, launch)
    ensures Onward(s, s')
  {
    hide Consistent;
    assert Continues(s.logs[id], s'.logs[id]);
    forall k | k in s.runs && k in s.logs
      ensures k in s'.runs && k in s'.logs && Continues(s.logs[k], s'.logs[k]) && StaysFinished(s.runs[k], s'.runs[k])
    {
      if k != id {
        assert s'.logs[k] == s.logs[k] && s'.runs[k] == s.runs[k];
      }
    }
  }

  /** The run whose start this action commits, if it does. */
  function LaunchOf(sys: System, a: Action): Option<string> {
    match a
    case Commit(t, now) =>
      if t in sys.tasks && sys.tasks[t].Capturing? && CommitStart(sys.store, sys.tasks[t].snapshot, now).Launched?
      then Some(sys.tasks[t].snapshot.id) else None
    case BeginResume(t, id, cp) =>
      if t !in sys.tasks && CommitResume(sys.store, id, cp).Launched? then Some(id) else None
    case _ => None
  }

  ghost predicate Submitted(s: StoreState, s': StoreState, id: string) {
    id !in s.runs && Consistent(s') && Stored(s, CreateQueued(s, id)) == s'
  }

  /** Every action changes one run by at most one event, adds a run, or leaves the store alone. */
  ghost predicate StepOf(s: StoreState, s': StoreState, launch: Option<string>) {
    || (s' == s && launch.None?)
    || (launch.None? && exists id :: Submitted(s, s', id))
    || (launch.None? && exists id :: Advances(s, s', id, false))
    || (launch.Some? && Advances(s, s', launch.value, true))
  }

  lemma NextIsStep(sys: System, a: Action)
    requires Inv(sys)
    ensures StepOf(sys.store, Next(sys, a).store, LaunchOf(sys, a))
  {
    hide OneToOne, Starts, Consistent, Advances, OnRuntimeEvent, MarkInvocationFailed, Written, LaunchWith, LogOf;
    hide Submitted, CreateQueued;
    var s := sys.store;
    match a
    case Submit(id) => if CreateQueued(s, id).Ok? { SubmitIsStep(s, id); }
    case Write(w) =>
      if Written(s, w).Ok? && w.id in s.runs {
        WriterAdvances(s, w);
      } else if Written(s, w).Ok? {
        UnknownRunUntouched(s, w);
      }
    case Commit(t, now) =>
      if t in sys.tasks && sys.tasks[t].Capturing? {
        LaunchAdvances(s, sys.tasks[t].snapshot.(status := Running, startedAt := Some(now)), RunStarted);
      }
    case BeginResume(t, id, cp) =>
      if CommitResume(s, id, cp).Launched? {
        RunAgrees(s, id);
        LaunchAdvances(s, s.runs[id].(status := Running), RunResumed);
      }
    case Deliver(t, e, now) =>
      if t in sys.tasks && sys.tasks[t].Executing? {
        RuntimeEventAdvances(s, sys.tasks[t].start.runId, e, now);
      }
    case Throw(t) =>
      if t in sys.tasks && sys.tasks[t].Executing? {
        InvocationFailureAdvances(s, sys.tasks[t].start.runId);
      }
    case _ =>
  }

  lemma SubmitIsStep(s: StoreState, id: string)
    requires Consistent(s) && CreateQueued(s, id).Ok?
    ensures Submitted(s, CreateQueued(s, id).value, id)
  {
    CreateKeepsConsistency(s, AgentRun(id, Queued, None, None, None));
    hide Consistent;
  }

  lemma NextOnward(sys: System, a: Action)
    requires Inv(sys)
    ensures Onward(sys.store, Next(sys, a).store)
  {
    hide Onward, OneToOne, Starts, Consistent, Next, Advances, Submitted;
    var s, s' := sys.store, Next(sys, a).store;
    NextIsStep(sys, a);
    OnwardReflexive(s);
    var launch := LaunchOf(sys, a);
    hide LaunchOf;
    if id :| Submitted(s, s', id) {
      SubmitOnward(s, s', id);
    } else if id :| Advances(s, s', id, false) {
      AdvancesOnward(s, s', id, false);
    } else if launch.Some? {
      AdvancesOnward(s, s', launch.value, true);
    }
  }

  lemma UnknownRunUntouched(s: StoreState, w: Writer)
    requires w.id !in s.runs && Written(s, w).Ok?
    ensures Written(s, w).value == s
  {
    hide Move, AppendEvent;
  }

  lemma SubmitOnward(s: StoreState, s': StoreState, id: string)
    requires Consistent(s) && Submitted(s, s', id)
    ensures Onward(s, s')
  {
    var run := AgentRun(id, Queued, None, None, None);
    CreateKeepsConsistency(s, run);
    NewRunOnward(s, s', run);
    hide *;
  }

  lemma NewRunOnward(s: StoreState, s': StoreState, run: AgentRun)
    requires run.id !in s.runs && s'.runs == s.runs[run.id := run]
    requires run.id !in s.logs && run.id in s'.logs && s'.logs == s.logs[run.id := s'.logs[run.id]]
    ensures Onward(s, s')
  {
  }

  lemma {:induction false} AfterOnward(sys: System, actions: seq<Action>)
    requires Inv(sys)
    ensures Onward(sys.store, After(sys, actions).store)
    decreases |actions|
  {
    hide Inv, Next, Onward;
    OnwardReflexive(sys.store);
    if actions != [] {
      var next := Next(sys, actions[0]);
      NextKeepsInv(sys, actions[0]);
      NextOnward(sys, actions[0]);
      AfterOnward(next, actions[1..]);
      OnwardTransitive(sys.store, next.store, After(sys, actions).store);
    }
  }

  lemma {:induction false} NothingAfterTheEnd(log: seq<RunEvent>, from: nat, end: nat)
    requires Lawful(log) && from <= end <= |log|
    requires Fold(log[..from]).Some? && Terminal(Fold(log[..from]).value)
    ensures Fold(log[..end]) == Fold(log[..from])
    ensures forall k :: from <= k < end ==> Announces(log[k]).None? && !IsStart(log[k])
    decreases end
  {
    hide Fold, Lawful;
    if from < end {
      NothingAfterTheEnd(log, from, end - 1);
      assert log[..end] == log[..end - 1] + [log[end - 1]];
      FoldSnoc(log[..end - 1], log[end - 1]);
      LawfulAt(log, end - 1);
      EndRefuses(Fold(log[..end - 1]), log[end - 1]);
      hide Follows;
    }
  }

  lemma EndRefuses(before: Option<Status>, e: RunEvent)
    requires Follows(before, e) && before.Some? && Terminal(before.value)
    ensures Announces(e).None? && !IsStart(e)
  {
  }

  lemma AgreeFacts(s: StoreState, id: string)
    requires Consistent(s) && id in s.runs
    ensures id in s.logs && Lawful(s.logs[id]) && Fold(s.logs[id]) == Some(s.runs[id].status)
  {
    assert Agree(s.runs[id], s.logs[id]);
  }

  lemma OnwardAt(s: StoreState, s': StoreState, id: string)
    requires Onward(s, s') && id in s.runs && id in s.logs
    ensures id in s'.runs && id in s'.logs
    ensures Continues(s.logs[id], s'.logs[id]) && StaysFinished(s.runs[id], s'.runs[id])
  {
  }

  /**
   COMPLETED and FAILED are final: whatever happens afterwards, the run keeps its status and its
   finishing time, its log only grows, and no later event announces a status, so no start, and with
   it no runtime call, is ever committed again.
   */
  lemma FinishedIsFinal(actions: seq<Action>, more: seq<Action>, id: string)
    requires id in Reached(actions).store.runs && Terminal(Reached(actions).store.runs[id].status)
    ensures var s, s' := Reached(actions).store, After(Reached(actions), more).store;
      && id in s'.runs && id in s.logs && id in s'.logs
      && s'.runs[id].status == s.runs[id].status && s'.runs[id].finishedAt == s.runs[id].finishedAt
      && Continues(s.logs[id], s'.logs[id])
      && forall k :: |s.logs[id]| <= k < |s'.logs[id]| ==> Announces(s'.logs[id][k]).None? && !IsStart(s'.logs[id][k])
  {
    hide After, OneToOne, TasksMeanRuns, Consistent, Onward;
    ReachedInv(actions);
    InvAlways(Reached(actions), more);
    AfterOnward(Reached(actions), more);
    FinalSince(Reached(actions).store, After(Reached(actions), more).store, id);
  }

  lemma FinalSince(s: StoreState, s': StoreState, id: string)
    requires Consistent(s) && Consistent(s') && Onward(s, s') && id in s.runs && Terminal(s.runs[id].status)
    ensures id in s'.runs && id in s.logs && id in s'.logs
    ensures s'.runs[id].status == s.runs[id].status && s'.runs[id].finishedAt == s.runs[id].finishedAt
    ensures Continues(s.logs[id], s'.logs[id])
    ensures forall k :: |s.logs[id]| <= k < |s'.logs[id]| ==> Announces(s'.logs[id][k]).None? && !IsStart(s'.logs[id][k])
  {
    hide Onward, Consistent, Lawful, Follows, Fold, Announces, IsStart;
    AgreeFacts(s, id);
    OnwardAt(s, s', id);
    AgreeFacts(s', id);
    NothingAfterTheEnd(s'.logs[id], |s.logs[id]|, |s'.logs[id]|);
  }

  // ---------- when a start goes through ----------

  /**
   A start whose capture is over is committed exactly when the run is QUEUED or, through its stale
   snapshot, WAITING_TOOL. When the run was interrupted or failed meanwhile, or is running already,
   nothing is written and no call will be made: its task is gone and all else is as it was.
   */
  lemma StartCommitsExactly(actions: seq<Action>, t: nat, now: nat)
    requires t in Reached(actions).tasks && Reached(actions).tasks[t].Capturing?
    ensures var sys := Reached(actions);
      var id := sys.tasks[t].snapshot.id;
      id in sys.store.runs
      && (if sys.store.runs[id].status.Queued? || sys.store.runs[id].status.WaitingTool? then
            t in Next(sys, Commit(t, now)).tasks && Next(sys, Commit(t, now)).tasks[t].Launching?
          else
            Next(sys, Commit(t, now)) == sys.(tasks := sys.tasks - {t}))
  {
    var sys := Reached(actions);
    ReachedInv(actions);
    hide After, OneToOne, Consistent, LaunchWith, Advances;
    LaunchAdvances(sys.store, sys.tasks[t].snapshot.(status := Running, startedAt := Some(now)), RunStarted);
  }

  /** A resume is committed exactly when the run is QUEUED and the checkpoint is its own. */
  lemma ResumeCommitsExactly(actions: seq<Action>, t: nat, id: string, cp: Checkpoint)
    requires t !in Reached(actions).tasks
    ensures var sys := Reached(actions);
      if id in sys.store.runs && sys.store.runs[id].status.Queued? && cp.runId == id
         && sys.store.runs[id].checkpointId == Some(cp.id)
      then t in Next(sys, BeginResume(t, id, cp)).tasks && Next(sys, BeginResume(t, id, cp)).tasks[t].Launching?
      else Next(sys, BeginResume(t, id, cp)) == sys
  {
    var sys := Reached(actions);
    ReachedInv(actions);
    hide After, OneToOne, Consistent, LaunchWith, Advances, TasksMeanRuns;
    if id in sys.store.runs {
      RunAgrees(sys.store, id);
      if sys.store.runs[id].status.Queued? {
        LaunchAdvances(sys.store, sys.store.runs[id].(status := Running), RunResumed);
      }
    }
    assert sys.tasks - {t} == sys.tasks;
  }
}
