/**
 Starts and episodes. Two starts of a run are separated by RUN_INTERRUPTED and RUN_QUEUED when no
 second start of it is begun during a workspace capture; without that, a duplicate start can be
 committed over a waiting tool.
 */
module Episodes {
  import opened Options
  import opened RunModel
  import opened RunStores
  import opened RunSteps
  import opened Lifecycle
  import opened LifecycleTheorems

  predicate Inert(s: Status) { s.Queued? || s.Interrupted? || s.Failed? }

  /** Every start in the log found the run queued. */
  ghost predicate QueuedStarts(log: seq<RunEvent>) {
    forall j :: 0 <= j < |log| && IsStart(log[j]) ==> Fold(log[..j]) == Some(Queued)
  }

  predicate CapturesFor(task: Task, id: string) { task.Capturing? && task.snapshot.id == id }

  /** No start of a run begins while another one is capturing its workspace. */
  predicate Alone(sys: System, a: Action) {
    a.BeginExecute? || a.BeginResume? ==> forall t :: t in sys.tasks ==> !CapturesFor(sys.tasks[t], a.id)
  }

  predicate SingleFlight(sys: System, actions: seq<Action>)
    decreases |actions|
  {
    actions == [] || (Alone(sys, actions[0]) && SingleFlight(Next(sys, actions[0]), actions[1..]))
  }

  ghost predicate InertCaptures(s: StoreState, tasks: map<nat, Task>) {
    forall t :: t in tasks && tasks[t].Capturing? ==>
                  tasks[t].snapshot.id in s.runs && Inert(s.runs[tasks[t].snapshot.id].status)
  }

  ghost predicate OneCapture(tasks: map<nat, Task>) {
    forall t, u :: t in tasks && u in tasks && t != u && tasks[t].Capturing? && tasks[u].Capturing? ==>
                     tasks[t].snapshot.id != tasks[u].snapshot.id
  }

  ghost predicate QueuedOnly(s: StoreState) {
    forall id :: id in s.logs ==> QueuedStarts(s.logs[id])
  }

  ghost predicate Calm(sys: System) {
    InertCaptures(sys.store, sys.tasks) && OneCapture(sys.tasks) && QueuedOnly(sys.store)
  }

  // ---------- one step ----------

  lemma QueuedStartsGrow(log: seq<RunEvent>, log': seq<RunEvent>, launch: bool)
    requires QueuedStarts(log) && Lengthened(log, log', launch)
    requires launch ==> Fold(log) == Some(Queued)
    ensures QueuedStarts(log')
  {
    hide Fold, IsStart;
    forall j | 0 <= j < |log'| && IsStart(log'[j])
      ensures Fold(log'[..j]) == Some(Queued)
    {
      if j < |log| {
        assert log'[j] == log'[..|log|][j];
        assert log'[..j] == log[..j];
      } else {
        assert log'[..j] == log;
      }
    }
  }

  /** Nothing but a start makes an inert run active. */
  lemma StaysInert(s: StoreState, s': StoreState, id: string)
    requires Consistent(s) && Advances(s, s', id, false) && Inert(s.runs[id].status)
    ensures Inert(s'.runs[id].status)
  {
    hide Consistent, Lawful, Fold, StaysFinished, Lengthened, Inert;
    AgreeFacts(s, id);
    AgreeFacts(s', id);
    StaysInertInLog(s.logs[id], s'.logs[id]);
  }

  lemma StaysInertInLog(log: seq<RunEvent>, log': seq<RunEvent>)
    requires Lawful(log') && Lengthened(log, log', false)
    requires Fold(log).Some? && Inert(Fold(log).value)
    ensures Fold(log').Some? && Inert(Fold(log').value)
  {
    hide Fold, Lawful;
    if log' != log {
      assert log' == log + [log'[|log|]];
      FoldSnoc(log, log'[|log|]);
      LawfulAt(log', |log|);
    }
  }

  lemma QuietStepCalm(s: StoreState, s': StoreState, tasks: map<nat, Task>, id: string)
    requires Consistent(s) && Advances(s, s', id, false) && InertCaptures(s, tasks) && QueuedOnly(s)
    ensures InertCaptures(s', tasks) && QueuedOnly(s')
  {
    hide Consistent, QueuedStarts, Inert, StaysFinished;
    if Inert(s.runs[id].status) {
      StaysInert(s, s', id);
    }
    QueuedStartsGrow(s.logs[id], s'.logs[id], false);
    hide Lengthened;
    assert forall k :: k in s.runs && k != id ==> s'.runs[k] == s.runs[k];
    assert forall k :: k in s'.logs && k != id ==> k in s.logs && s'.logs[k] == s.logs[k];
  }

  lemma LaunchStepCalm(s: StoreState, s': StoreState, tasks: map<nat, Task>, id: string)
    requires Consistent(s) && Advances(s, s', id, true) && InertCaptures(s, tasks) && QueuedOnly(s)
    requires s.runs[id].status.Queued?
    requires forall t :: t in tasks ==> !CapturesFor(tasks[t], id)
    ensures InertCaptures(s', tasks) && QueuedOnly(s')
  {
    hide Consistent, QueuedStarts, Inert, StaysFinished;
    AgreeFacts(s, id);
    QueuedStartsGrow(s.logs[id], s'.logs[id], true);
    hide Lengthened;
    assert forall k :: k in s.runs && k != id ==> s'.runs[k] == s.runs[k];
    assert forall k :: k in s'.logs && k != id ==> k in s.logs && s'.logs[k] == s.logs[k];
    assert forall t :: t in tasks && tasks[t].Capturing? ==> !CapturesFor(tasks[t], id);
  }

  lemma SubmitStepCalm(s: StoreState, s': StoreState, tasks: map<nat, Task>, id: string)
    requires Consistent(s) && Submitted(s, s', id) && InertCaptures(s, tasks) && QueuedOnly(s)
    ensures InertCaptures(s', tasks) && QueuedOnly(s')
  {
    hide Consistent, QueuedStarts, Inert, CreateRun, Fold;
    var e := RunEvent(id, 1, RunCreated, None);
    CreateKeepsConsistency(s, AgentRun(id, Queued, None, None, None));
    NoStartsYet(e);
    hide CreateQueued, Submitted;
    assert s'.logs == s.logs[id := [e]];
    assert forall k :: k in s.runs ==> k in s'.runs && s'.runs[k] == s.runs[k];
    assert forall k :: k in s'.logs && k != id ==> k in s.logs && s'.logs[k] == s.logs[k];
  }

  lemma NoStartsYet(e: RunEvent)
    requires !IsStart(e)
    ensures QueuedStarts([e])
  {
  }

  /** Removing a task, or adding one that does not capture, keeps the captures calm. */
  lemma FewerCaptures(s: StoreState, tasks: map<nat, Task>, t: nat, task: Task)
    requires InertCaptures(s, tasks) && OneCapture(tasks) && !task.Capturing?
    ensures InertCaptures(s, tasks[t := task]) && OneCapture(tasks[t := task])
    ensures InertCaptures(s, tasks - {t}) && OneCapture(tasks - {t})
  {
    hide Inert;
  }

  lemma CommitCalm(sys: System, t: nat, now: nat)
    requires Inv(sys) && Calm(sys)
    ensures Calm(Next(sys, Commit(t, now)))
  {
    hide OneToOne, Consistent, TasksMeanRuns, InertCaptures, OneCapture, QueuedOnly;
    if t in sys.tasks && sys.tasks[t].Capturing? {
      CaptureCommitCalm(sys, t, now);
    }
    hide Calm;
  }

  lemma CaptureCommitCalm(sys: System, t: nat, now: nat)
    requires Inv(sys) && Calm(sys) && t in sys.tasks && sys.tasks[t].Capturing?
    ensures Calm(Next(sys, Commit(t, now)))
  {
    hide OneToOne, Consistent, Advances, LaunchWith, QueuedOnly;
    var s, run := sys.store, sys.tasks[t].snapshot;
    var rest := sys.tasks - {t};
    FewerCaptures(s, sys.tasks, t, Executing(Start(run.id, 0)));
    LaunchAdvances(s, run.(status := Running, startedAt := Some(now)), RunStarted);
    var l := CommitStart(s, run, now);
    if l.Launched? {
      assert s.runs[run.id].status.Queued?;
      assert forall u :: u in rest ==> !CapturesFor(rest[u], run.id);
      hide InertCaptures, OneCapture, TasksMeanRuns;
      LaunchStepCalm(s, l.store, rest, run.id);
      FewerCaptures(l.store, rest, t, Launching(Start(run.id, l.sequence)));
      assert rest[t := Launching(Start(run.id, l.sequence))] == sys.tasks[t := Launching(Start(run.id, l.sequence))];
    }
  }

  lemma BeginResumeCalm(sys: System, t: nat, id: string, cp: Checkpoint)
    requires Inv(sys) && Calm(sys) && Alone(sys, BeginResume(t, id, cp))
    ensures Calm(Next(sys, BeginResume(t, id, cp)))
  {
    hide OneToOne, Consistent, TasksMeanRuns, InertCaptures, OneCapture, QueuedOnly, Advances, LaunchWith;
    var s := sys.store;
    var l := CommitResume(s, id, cp);
    if t !in sys.tasks && l.Launched? {
      RunAgrees(s, id);
      LaunchAdvances(s, s.runs[id].(status := Running), RunResumed);
      LaunchStepCalm(s, l.store, sys.tasks, id);
      FewerCaptures(l.store, sys.tasks, t, Launching(Start(id, l.sequence)));
    } else {
      assert t !in sys.tasks ==> sys.tasks - {t} == sys.tasks;
    }
  }

  lemma BeginExecuteCalm(sys: System, t: nat, id: string)
    requires Inv(sys) && Calm(sys) && Alone(sys, BeginExecute(t, id))
    ensures Calm(Next(sys, BeginExecute(t, id)))
  {
    hide OneToOne, TasksMeanRuns, QueuedOnly, Consistent, InertCaptures, OneCapture;
    if t !in sys.tasks && id in sys.store.runs && sys.store.runs[id].status.Queued? {
      RunAgrees(sys.store, id);
      OneMoreCapture(sys.store, sys.tasks, t, sys.store.runs[id]);
    }
  }

  lemma OneMoreCapture(s: StoreState, tasks: map<nat, Task>, t: nat, run: AgentRun)
    requires InertCaptures(s, tasks) && OneCapture(tasks) && t !in tasks
    requires run.id in s.runs && s.runs[run.id].status.Queued?
    requires forall u :: u in tasks ==> !CapturesFor(tasks[u], run.id)
    ensures InertCaptures(s, tasks[t := Capturing(run)]) && OneCapture(tasks[t := Capturing(run)])
  {
    var tasks' := tasks[t := Capturing(run)];
    forall u, v | u in tasks' && v in tasks' && u != v && tasks'[u].Capturing? && tasks'[v].Capturing?
      ensures tasks'[u].snapshot.id != tasks'[v].snapshot.id
    {
      assert u != t ==> !CapturesFor(tasks[u], run.id);
      assert v != t ==> !CapturesFor(tasks[v], run.id);
    }
    hide OneCapture;
  }

  /** Actions that neither begin nor commit a start. */
  predicate Plain(a: Action) { !a.Commit? && !a.BeginResume? && !a.BeginExecute? }

  lemma PlainTasks(sys: System, a: Action, s: StoreState)
    requires Plain(a) && InertCaptures(s, sys.tasks) && OneCapture(sys.tasks)
    ensures InertCaptures(s, Next(sys, a).tasks) && OneCapture(Next(sys, a).tasks)
  {
    hide InertCaptures, OneCapture;
    match a
    case Call(t) =>
      if t in sys.tasks && sys.tasks[t].Launching? {
        FewerCaptures(s, sys.tasks, t, Executing(sys.tasks[t].start));
      }
    case Return(t) => FewerCaptures(s, sys.tasks, t, Executing(Start("", 0)));
    case Throw(t) => FewerCaptures(s, sys.tasks, t, Executing(Start("", 0)));
    case Crash => NoCaptures(s);
    case _ =>
  }

  lemma NoCaptures(s: StoreState)
    ensures InertCaptures(s, map[]) && OneCapture(map[])
  {
  }

  lemma PlainCalm(sys: System, a: Action)
    requires Inv(sys) && Calm(sys) && Plain(a)
    ensures Calm(Next(sys, a))
  {
    hide OneToOne, Consistent, TasksMeanRuns, InertCaptures, OneCapture, QueuedOnly, Advances, Submitted, Next;
    NextIsStep(sys, a);
    var s, s' := sys.store, Next(sys, a).store;
    if id :| Submitted(s, s', id) {
      SubmitStepCalm(s, s', sys.tasks, id);
    } else if id :| Advances(s, s', id, false) {
      QuietStepCalm(s, s', sys.tasks, id);
    }
    PlainTasks(sys, a, s');
  }

  lemma NextCalm(sys: System, a: Action)
    requires Inv(sys) && Calm(sys) && Alone(sys, a)
    ensures Calm(Next(sys, a))
  {
    hide Inv, Calm, Next, Alone;
    match a
    case Commit(t, now) => CommitCalm(sys, t, now);
    case BeginResume(t, id, cp) => BeginResumeCalm(sys, t, id, cp);
    case BeginExecute(t, id) => BeginExecuteCalm(sys, t, id);
    case _ => PlainCalm(sys, a);
  }

  lemma {:induction false} CalmAlways(sys: System, actions: seq<Action>)
    requires Inv(sys) && Calm(sys) && SingleFlight(sys, actions)
    ensures Calm(After(sys, actions))
    decreases |actions|
  {
    hide Inv, Calm, Next, Alone;
    if actions != [] {
      NextKeepsInv(sys, actions[0]);
      NextCalm(sys, actions[0]);
      CalmAlways(Next(sys, actions[0]), actions[1..]);
    }
  }

  // ---------- theorems ----------

  /**
   Whatever is interleaved, two consecutive starts in a run's log have RUN_INTERRUPTED and then
   RUN_QUEUED between them if and only if the second start found the run QUEUED; otherwise it found
   the run waiting for a tool, and is a RUN_STARTED.
   */
  lemma EpisodesOfAnyRun(actions: seq<Action>, id: string, i: nat, j: nat)
    requires id in Reached(actions).store.logs && i < j < |Reached(actions).store.logs[id]|
    requires var log := Reached(actions).store.logs[id];
      IsStart(log[i]) && IsStart(log[j]) && forall k :: i < k < j ==> !IsStart(log[k])
    ensures var log := Reached(actions).store.logs[id];
      && (Requeued(log, i, j) <==> Fold(log[..j]) == Some(Queued))
      && (Requeued(log, i, j) || (Fold(log[..j]) == Some(WaitingTool) && log[j].kind.RunStarted?))
  {
    hide After, OneToOne, TasksMeanRuns, Lawful, Fold, Requeued;
    ReachedInv(actions);
    var s := Reached(actions).store;
    assert id in s.runs;
    hide Consistent;
    AgreeFacts(s, id);
    EpisodesSeparated(s.logs[id], i, j);
    LawfulAt(s.logs[id], j);
  }

  /** When no start is begun during another's capture, every start found its run QUEUED, so episodes never overlap. */
  lemma EpisodesNeverOverlap(actions: seq<Action>, id: string, i: nat, j: nat)
    requires SingleFlight(INITIAL, actions)
    requires id in Reached(actions).store.logs && i < j < |Reached(actions).store.logs[id]|
    requires var log := Reached(actions).store.logs[id];
      IsStart(log[i]) && IsStart(log[j]) && forall k :: i < k < j ==> !IsStart(log[k])
    ensures Requeued(Reached(actions).store.logs[id], i, j)
  {
    hide After, OneToOne, TasksMeanRuns, Fold, Requeued, Inv, SingleFlight, IsStart;
    InitialInv();
    assert Calm(INITIAL);
    CalmAlways(INITIAL, actions);
    assert QueuedStarts(Reached(actions).store.logs[id]);
    EpisodesOfAnyRun(actions, id, i, j);
  }

  // ---------- the overlap ----------

  /** Two starts of one run begin while it is queued; the second is committed while a tool runs for the first. */
  const OVERLAP: seq<Action> :=
    [Submit("r"), BeginExecute(1, "r"), BeginExecute(2, "r"), Commit(1, 0), Call(1),
     Write(ToolPhase("r", PhaseStarted)), Commit(2, 0), Call(2)]

  /**
   Without single flight the separation fails: the runtime is called twice for one queueing, with no
   interruption between, and the run says RUNNING while its tool is still at work.
   */
  lemma DuplicateStartOverlaps()
    ensures var sys := Reached(OVERLAP);
      && "r" in sys.store.logs && |sys.store.logs["r"]| == 4
      && IsStart(sys.store.logs["r"][1]) && IsStart(sys.store.logs["r"][3])
      && !Requeued(sys.store.logs["r"], 1, 3)
      && sys.calls == [Start("r", 2), Start("r", 4)]
  {
    hide After, Inv, Next;
    InitialInv();
    var submitted := Next(INITIAL, OVERLAP[0]);
    var one := Next(submitted, OVERLAP[1]);
    var two := Next(one, OVERLAP[2]);
    var started := Next(two, OVERLAP[3]);
    var called := Next(started, OVERLAP[4]);
    var waiting := Next(called, OVERLAP[5]);
    var again := Next(waiting, OVERLAP[6]);
    NextKeepsInv(INITIAL, OVERLAP[0]);
    FirstSubmit("r");
    BeginsCapture(submitted, 1, "r");
    BeginsCapture(one, 2, "r");
    Commits(two, 1, 0, "r");
    MakesCall(started, 1);
    ToolWaits(called, "r");
    Commits(waiting, 2, 0, "r");
    MakesCall(again, 2);
    UnrollOverlap();
  }

  lemma UnrollOverlap()
    ensures Reached(OVERLAP) ==
            Next(Next(Next(Next(Next(Next(Next(Next(INITIAL, OVERLAP[0]), OVERLAP[1]), OVERLAP[2]), OVERLAP[3]), OVERLAP[4]),
                           OVERLAP[5]), OVERLAP[6]), OVERLAP[7])
  {
    hide Next;
  }

  lemma FirstSubmit(id: string)
    ensures var sys := Next(INITIAL, Submit(id));
      && sys.store.runs == map[id := AgentRun(id, Queued, None, None, None)]
      && sys.store.logs == map[id := [RunEvent(id, 1, RunCreated, None)]]
      && sys.tasks == map[] && sys.calls == []
  {
    CreateKeepsConsistency(EMPTY_STORE, AgentRun(id, Queued, None, None, None));
  }

  lemma BeginsCapture(sys: System, t: nat, id: string)
    requires Inv(sys) && t !in sys.tasks && id in sys.store.runs && sys.store.runs[id].status.Queued?
    ensures Next(sys, BeginExecute(t, id)) == sys.(tasks := sys.tasks[t := Capturing(sys.store.runs[id])])
    ensures Inv(Next(sys, BeginExecute(t, id)))
  {
    hide Inv;
    NextKeepsInv(sys, BeginExecute(t, id));
  }

  lemma Commits(sys: System, t: nat, now: nat, id: string)
    requires Inv(sys) && t in sys.tasks && sys.tasks[t].Capturing? && sys.tasks[t].snapshot.id == id
    requires id in sys.store.logs && id in sys.store.runs
    requires sys.store.runs[id].status.Queued? || sys.store.runs[id].status.WaitingTool?
    ensures var log, sys' := sys.store.logs[id], Next(sys, Commit(t, now));
      && Inv(sys')
      && sys'.store.runs == sys.store.runs[id := sys.tasks[t].snapshot.(status := Running, startedAt := Some(now))]
      && sys'.store.logs == sys.store.logs[id := log + [RunEvent(id, |log| + 1, RunStarted, None)]]
      && sys'.tasks == sys.tasks[t := Launching(Start(id, |log| + 1))] && sys'.calls == sys.calls
  {
    hide Consistent, OneToOne, LaunchWith, LogOf;
    NextKeepsInv(sys, Commit(t, now));
    var run := sys.tasks[t].snapshot.(status := Running, startedAt := Some(now));
    Launches(sys.store, run);
    hide Inv, TasksMeanRuns;
  }

  /** What a successful Move leaves. */
  predicate MoveResult(s: StoreState, run: AgentRun, kind: EventType, s': StoreState) {
    && run.id in s.logs
    && s'.runs == s.runs[run.id := run]
    && s'.logs == s.logs[run.id := s.logs[run.id] + [RunEvent(run.id, |s.logs[run.id]| + 1, kind, None)]]
  }

  lemma Moves(s: StoreState, run: AgentRun, kind: EventType)
    requires Consistent(s) && run.id in s.runs && CanTransition(s.runs[run.id].status, run.status)
    requires (kind.RunStarted? && run.status.Running?) || (kind.ToolStarted? && run.status.WaitingTool?)
    requires run.finishedAt.None?
    ensures Move(s, run, kind).Ok? && MoveResult(s, run, kind, Move(s, run, kind).value)
  {
    hide Consistent, LastSequence, UpdateRun, LogOf;
    RunAgrees(s, run.id);
    NextSequenceFits(s, run.id);
    UpdateKeepsConsistency(s, run, kind);
  }

  lemma Launches(s: StoreState, run: AgentRun)
    requires Consistent(s) && run.id in s.runs && CanTransition(s.runs[run.id].status, Running)
    requires run.status.Running? && run.finishedAt.None?
    ensures var l := LaunchWith(s, run, RunStarted);
      l.Launched? && run.id in s.logs && l.sequence == |s.logs[run.id]| + 1 && MoveResult(s, run, RunStarted, l.store)
  {
    hide Consistent, LastSequence, Move, LogOf;
    RunAgrees(s, run.id);
    NextSequenceFits(s, run.id);
    Moves(s, run, RunStarted);
  }

  lemma MakesCall(sys: System, t: nat)
    requires Inv(sys) && t in sys.tasks && sys.tasks[t].Launching?
    ensures var sys' := Next(sys, Call(t));
      && Inv(sys') && sys'.store == sys.store && sys'.tasks == sys.tasks[t := Executing(sys.tasks[t].start)]
      && sys'.calls == sys.calls + [sys.tasks[t].start]
  {
    hide Inv;
    NextKeepsInv(sys, Call(t));
  }

  lemma ToolWaits(sys: System, id: string)
    requires Inv(sys) && id in sys.store.runs && id in sys.store.logs && sys.store.runs[id].status.Running?
    ensures var log, sys' := sys.store.logs[id], Next(sys, Write(ToolPhase(id, PhaseStarted)));
      && Inv(sys') && sys'.tasks == sys.tasks && sys'.calls == sys.calls
      && sys'.store.runs == sys.store.runs[id := sys.store.runs[id].(status := WaitingTool)]
      && sys'.store.logs == sys.store.logs[id := log + [RunEvent(id, |log| + 1, ToolStarted, None)]]
  {
    hide Consistent, OneToOne, LastSequence, Move, TasksMeanRuns;
    NextKeepsInv(sys, Write(ToolPhase(id, PhaseStarted)));
    RunAgrees(sys.store, id);
    Moves(sys.store, sys.store.runs[id].(status := WaitingTool), ToolStarted);
    hide Inv;
  }
}
