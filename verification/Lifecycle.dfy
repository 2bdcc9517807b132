/**
 The life of runs in one deployment: every writer of src/runs/run-service.ts cut at its awaits, so
 that interrupts, queue timeouts, runtime events, tool phases, duplicate starts and crashes fall
 between the pieces in any order.
 */
module Lifecycle {
  import opened Options
  import opened RunModel
  import opened RunStores
  import opened RunSteps

  /** The place of a RUN_STARTED or RUN_RESUMED event: a run and a sequence number. */
  datatype Start = Start(runId: string, sequence: int)

  /** What an executeQueuedRun or executeQueuedResume in progress is waiting for. */
  datatype Task =
    | Capturing(snapshot: AgentRun)  // the workspace capture, holding the run as it was read
    | Launching(start: Start)        // the start is committed, the runtime not yet called
    | Executing(start: Start)        // runtime.start or runtime.resume, with its subscription

  /**
   `calls` lists the runtime calls made so far, by the start event they follow; `lost` holds the
   starts whose process died before the call.
   */
  datatype System = System(store: StoreState, tasks: map<nat, Task>, calls: seq<Start>, lost: set<Start>)

  const INITIAL := System(EMPTY_STORE, map[], [], {})

  /** The writers that need no task of their own: what they act on is read within one step. */
  datatype Writer =
    | BlockedInQueue(id: string)
    | QueueTimeout(id: string, now: nat)
    | AskResume(id: string, cp: Checkpoint)
    | EndInterrupt(id: string)
    | ToolPhase(id: string, phase: Phase)
    | ToolCheckpoint(id: string, checkpointId: string)
    | RestartScan(id: string)
    | AuditReview(id: string)
    | Review(id: string, pending: bool, occurred: bool, now: nat)

  datatype Action =
    | Submit(id: string)
    | Write(writer: Writer)
    | BeginExecute(task: nat, id: string)
    | Commit(task: nat, now: nat)
    | BeginResume(task: nat, id: string, cp: Checkpoint)
    | Call(task: nat)
    | Deliver(task: nat, event: RuntimeEvent, now: nat)
    | Return(task: nat)
    | Throw(task: nat)
    | Crash

  function Written(s: StoreState, w: Writer): Outcome<StoreState> {
    match w
    case BlockedInQueue(id) => RecordQueueBlocked(s, id)
    case QueueTimeout(id, now) => FailQueued(s, id, now)
    case AskResume(id, cp) => QueueResume(s, id, cp)
    case EndInterrupt(id) => FinishInterrupt(s, id)
    case ToolPhase(id, phase) => MarkToolPhase(s, id, phase)
    case ToolCheckpoint(id, c) => SaveCheckpoint(s, id, c)
    case RestartScan(id) => InterruptAfterRestart(s, id)
    case AuditReview(id) => AuditManualReview(s, id)
    case Review(id, pending, occurred, now) => ResolveUnknownEffect(s, id, pending, occurred, now)
  }

  /** An exception leaves the store as it was. */
  function Stored(before: StoreState, o: Outcome<StoreState>): StoreState {
    if o.Ok? then o.value else before
  }

  function Launched(sys: System, task: nat, id: string, l: Launch): System {
    if l.Launched? then sys.(store := l.store, tasks := sys.tasks[task := Launching(Start(id, l.sequence))])
    else sys.(tasks := sys.tasks - {task})
  }

  /** Actions of tasks that are not there do nothing. */
  function Next(sys: System, a: Action): System {
    match a
    case Submit(id) => sys.(store := Stored(sys.store, CreateQueued(sys.store, id)))
    case Write(w) => sys.(store := Stored(sys.store, Written(sys.store, w)))
    case BeginExecute(t, id) =>
      if t in sys.tasks || id !in sys.store.runs || !sys.store.runs[id].status.Queued? then sys
      else sys.(tasks := sys.tasks[t := Capturing(sys.store.runs[id])])
    case Commit(t, now) =>
      if t !in sys.tasks || !sys.tasks[t].Capturing? then sys
      else Launched(sys, t, sys.tasks[t].snapshot.id, CommitStart(sys.store, sys.tasks[t].snapshot, now))
    case BeginResume(t, id, cp) =>
      if t in sys.tasks then sys else Launched(sys, t, id, CommitResume(sys.store, id, cp))
    case Call(t) =>
      if t !in sys.tasks || !sys.tasks[t].Launching? then sys
      else sys.(tasks := sys.tasks[t := Executing(sys.tasks[t].start)], calls := sys.calls + [sys.tasks[t].start])
    case Deliver(t, e, now) =>
      if t !in sys.tasks || !sys.tasks[t].Executing? then sys
      else sys.(store := Stored(sys.store, OnRuntimeEvent(sys.store, sys.tasks[t].start.runId, e, now)))
    case Return(t) =>
      if t !in sys.tasks || !sys.tasks[t].Executing? then sys else sys.(tasks := sys.tasks - {t})
    case Throw(t) =>
      if t !in sys.tasks || !sys.tasks[t].Executing? then sys
      else sys.(store := Stored(sys.store, MarkInvocationFailed(sys.store, sys.tasks[t].start.runId)), tasks := sys.tasks - {t})
    case Crash => sys.(tasks := map[], lost := sys.lost + Pending(sys.tasks))
  }

  function After(sys: System, actions: seq<Action>): System
    decreases |actions|
  {
    if actions == [] then sys else After(Next(sys, actions[0]), actions[1..])
  }

  // ---------- the invariant ----------

  /** Starts whose call is still to come. */
  function Pending(tasks: map<nat, Task>): set<Start> {
    set t | t in tasks && tasks[t].Launching? :: tasks[t].start
  }

  ghost function Starts(s: StoreState): set<Start> {
    set id, n | id in s.logs && 0 <= n < |s.logs[id]| && IsStart(s.logs[id][n]) :: Start(id, n + 1)
  }

  ghost predicate Distinct(calls: seq<Start>) {
    forall i, j :: 0 <= i < j < |calls| ==> calls[i] != calls[j]
  }

  ghost predicate OwnStart(tasks: map<nat, Task>) {
    forall t, u :: t in tasks && u in tasks && t != u && tasks[t].Launching? && tasks[u].Launching? ==>
                     tasks[t].start != tasks[u].start
  }

  /** Every start belongs to exactly one runtime call, or to one task about to make it, or was lost in a crash. */
  ghost predicate OneToOne(starts: set<Start>, tasks: map<nat, Task>, calls: seq<Start>, lost: set<Start>) {
    && Distinct(calls) && OwnStart(tasks)
    && (forall c :: c in starts <==> c in calls || c in lost || c in Pending(tasks))
    && (forall c :: c in calls ==> c !in lost && c !in Pending(tasks))
    && lost !! Pending(tasks)
  }

  ghost predicate TasksMeanRuns(s: StoreState, tasks: map<nat, Task>) {
    forall t :: t in tasks ==>
                  match tasks[t]
                  case Capturing(run) => run.id in s.runs && run.status.Queued? && run.finishedAt.None?
                  case Launching(c) => c.runId in s.runs
                  case Executing(c) => c.runId in s.runs
  }

  ghost predicate Inv(sys: System) {
    && Consistent(sys.store)
    && TasksMeanRuns(sys.store, sys.tasks)
    && OneToOne(Starts(sys.store), sys.tasks, sys.calls, sys.lost)
  }

  // ---------- the writers ----------

  lemma WriterAdvances(s: StoreState, w: Writer)
    requires Consistent(s) && Written(s, w).Ok? && w.id in s.runs
    ensures Advances(s, Written(s, w).value, w.id, false)
  {
    hide Consistent, Advances, Move, LastSequence, LogOf, UpdateRun, AppendEvent, SaveCheckpoint, CanTransition;
    StandsStill(s, w.id);
    RunAgrees(s, w.id);
    var run := s.runs[w.id];
    match w
    case ToolCheckpoint(id, c) => CheckpointAdvances(s, id, c);
    case BlockedInQueue(id) => NoteAdvances(s, id, QueueBlocked);
    case AuditReview(id) => if run.status.Interrupted? { NoteAdvances(s, id, RunInterrupted); }
    case Review(id, _, occurred, now) =>
      if occurred { MoveAdvances(s, run.(status := Failed, finishedAt := Some(now)), RunFailed); }
      else { NoteAdvances(s, id, ManualReviewResolved); }
    case QueueTimeout(_, now) =>
      if run.status.Queued? { MoveAdvances(s, run.(status := Failed, finishedAt := Some(now)), RunFailed); }
    case AskResume(_, _) => MoveAdvances(s, run.(status := Queued), RunQueued);
    case EndInterrupt(_) => StopAdvances(s, run);
    case RestartScan(_) => StopAdvances(s, run);
    case ToolPhase(_, phase) => PhaseAdvances(s, run, phase);
  }

  lemma StopAdvances(s: StoreState, run: AgentRun)
    requires Consistent(s) && run.id in s.runs && run == s.runs[run.id]
    ensures var r := Move(s, run.(status := Interrupted), RunInterrupted);
      r.Ok? ==> Advances(s, r.value, run.id, false)
  {
    hide Consistent, Advances, Move, LastSequence, LogOf, UpdateRun, AppendEvent;
    RunAgrees(s, run.id);
    if Terminal(run.status) {
      TerminalRefuses(s, run.(status := Interrupted), RunInterrupted);
    } else {
      MoveAdvances(s, run.(status := Interrupted), RunInterrupted);
    }
  }

  lemma PhaseAdvances(s: StoreState, run: AgentRun, phase: Phase)
    requires Consistent(s) && run.id in s.runs && run == s.runs[run.id]
    ensures var r := MarkToolPhase(s, run.id, phase); r.Ok? && Advances(s, r.value, run.id, false)
  {
    hide Consistent, Advances, Move, LastSequence, LogOf, UpdateRun, AppendEvent;
    RunAgrees(s, run.id);
    StandsStill(s, run.id);
    if phase.PhaseStarted? && run.status.Running? {
      MoveAdvances(s, run.(status := WaitingTool), ToolStarted);
    } else if phase.PhaseEnded? && run.status.WaitingTool? {
      MoveAdvances(s, run.(status := Running), ToolCompleted);
    }
  }

  lemma NoteAdvances(s: StoreState, id: string, kind: EventType)
    requires Consistent(s) && id in s.runs
    requires kind.QueueBlocked? || kind.ManualReviewResolved? || (kind.RunInterrupted? && s.runs[id].status.Interrupted?)
    ensures var r := AppendEvent(s, NextEvent(s, id, kind, None)); r.Ok? && Advances(s, r.value, id, false)
  {
    hide Consistent, Advances, LastSequence, LogOf, AppendEvent;
    AppendAdvances(s, id, kind, None);
  }

  lemma CheckpointAdvances(s: StoreState, id: string, checkpointId: string)
    requires Consistent(s) && id in s.runs
    ensures var r := SaveCheckpoint(s, id, checkpointId); r.Ok? && Advances(s, r.value, id, false)
  {
    RunAgrees(s, id);
    CheckpointConsistent(s, id, s.runs[id].(checkpointId := Some(checkpointId)));
    SameLogs(s, id);
    hide Consistent;
  }

  lemma SameLogs(s: StoreState, id: string)
    requires id in s.logs
    ensures s.logs == s.logs[id := s.logs[id]]
  {
  }

  lemma CheckpointConsistent(s: StoreState, id: string, run: AgentRun)
    requires Consistent(s) && id in s.runs && run == s.runs[id].(checkpointId := run.checkpointId)
    ensures Consistent(s.(runs := s.runs[id := run]))
  {
    hide Agree;
    var s' := s.(runs := s.runs[id := run]);
    assert s'.runs.Keys == s.runs.Keys;
    forall k | k in s'.runs
      ensures s'.runs[k].id == k && Agree(s'.runs[k], s'.logs[k])
    {
      assert Agree(s.runs[k], s.logs[k]);
      if k == id {
        CheckpointAgrees(s.runs[id], run, s.logs[id]);
      }
    }
  }

  lemma CheckpointAgrees(run: AgentRun, run': AgentRun, log: seq<RunEvent>)
    requires Agree(run, log) && run' == run.(checkpointId := run'.checkpointId)
    ensures Agree(run', log)
  {
    hide Fold, Lawful, Numbered, DistinctKeys;
  }

  lemma LaunchAdvances(s: StoreState, run: AgentRun, kind: EventType)
    requires Consistent(s) && run.id in s.runs && run.status.Running? && run.finishedAt.None?
    requires kind.RunStarted? || (kind.RunResumed? && s.runs[run.id].status.Queued?)
    ensures var l := LaunchWith(s, run, kind);
      && (l.Launched? <==> CanTransition(s.runs[run.id].status, Running))
      && (l.Launched? ==>
            Advances(s, l.store, run.id, true) && l.sequence == |LogOf(s, run.id)| + 1 && l.store.runs[run.id] == run)
  {
    hide Consistent, Advances, Move, LastSequence;
    RunAgrees(s, run.id);
    MoveAdvances(s, run, kind);
    NextSequenceFits(s, run.id);
  }

  // ---------- starts ----------

  lemma StartsOfStep(s: StoreState, s': StoreState, id: string, launch: bool)
    requires Advances(s, s', id, launch)
    ensures Starts(s') == if launch then Starts(s) + {Start(id, |s.logs[id]| + 1)} else Starts(s)
    ensures Start(id, |s.logs[id]| + 1) !in Starts(s)
  {
    hide Consistent, IsStart, StaysFinished;
    var log, log' := s.logs[id], s'.logs[id];
    assert forall n :: 0 <= n < |log| ==> log'[n] == log'[..|log|][n];
    forall c
      ensures c in Starts(s') <==> c in Starts(s) || (launch && c == Start(id, |log| + 1))
    {
      StartAt(s, c);
      StartAt(s', c);
      hide Starts;
    }
    StartAt(s, Start(id, |log| + 1));
  }

  lemma StartAt(s: StoreState, c: Start)
    ensures c in Starts(s) <==>
            c.runId in s.logs && 0 < c.sequence <= |s.logs[c.runId]| && IsStart(s.logs[c.runId][c.sequence - 1])
  {
    hide IsStart;
    if c.runId in s.logs && 0 < c.sequence <= |s.logs[c.runId]| && IsStart(s.logs[c.runId][c.sequence - 1]) {
      var n := c.sequence - 1;
      assert c == Start(c.runId, n + 1);
    }
  }

  // ---------- bookkeeping of calls ----------

  predicate Quiet(tasks: map<nat, Task>, t: nat) { t in tasks ==> !tasks[t].Launching? }

  lemma PendingPut(tasks: map<nat, Task>, t: nat, task: Task)
    requires Quiet(tasks, t)
    ensures Pending(tasks[t := task]) == if task.Launching? then Pending(tasks) + {task.start} else Pending(tasks)
    ensures Pending(tasks - {t}) == Pending(tasks)
  {
    var tasks' := tasks[t := task];
    forall c
      ensures c in Pending(tasks') <==> c in Pending(tasks) || (task.Launching? && c == task.start)
    {
      if c in Pending(tasks) {
        var u :| u in tasks && tasks[u].Launching? && tasks[u].start == c;
        assert u in tasks' && tasks'[u].Launching?;
      }
      if task.Launching? && c == task.start {
        assert tasks'[t].Launching?;
      }
    }
    forall c
      ensures c in Pending(tasks - {t}) <==> c in Pending(tasks)
    {
      if c in Pending(tasks) {
        var u :| u in tasks && tasks[u].Launching? && tasks[u].start == c;
        assert u in tasks - {t};
      }
    }
  }

  lemma LaunchKeepsOneToOne(
      starts: set<Start>, tasks: map<nat, Task>, calls: seq<Start>, lost: set<Start>, t: nat, c: Start)
    requires OneToOne(starts, tasks, calls, lost) && Quiet(tasks, t) && c !in starts
    ensures OneToOne(starts + {c}, tasks[t := Launching(c)], calls, lost)
  {
    PendingPut(tasks, t, Launching(c));
    forall u | u in tasks && tasks[u].Launching?
      ensures tasks[u].start != c
    {
      assert tasks[u].start in Pending(tasks);
    }
    assert OwnStart(tasks[t := Launching(c)]);
    hide Pending, OwnStart;
  }

  lemma QuietKeepsOneToOne(
      starts: set<Start>, tasks: map<nat, Task>, calls: seq<Start>, lost: set<Start>, t: nat, task: Task)
    requires OneToOne(starts, tasks, calls, lost) && Quiet(tasks, t) && !task.Launching?
    ensures OneToOne(starts, tasks[t := task], calls, lost)
    ensures OneToOne(starts, tasks - {t}, calls, lost)
  {
    PendingPut(tasks, t, task);
    hide Pending;
  }

  lemma CallKeepsOneToOne(starts: set<Start>, tasks: map<nat, Task>, calls: seq<Start>, lost: set<Start>, t: nat)
    requires OneToOne(starts, tasks, calls, lost) && t in tasks && tasks[t].Launching?
    ensures OneToOne(starts, tasks[t := Executing(tasks[t].start)], calls + [tasks[t].start], lost)
  {
    var c := tasks[t].start;
    var tasks' := tasks[t := Executing(c)];
    assert c in Pending(tasks);
    assert Distinct(calls + [c]);
    forall d
      ensures d in Pending(tasks) <==> d in Pending(tasks') || d == c
    {
      if d in Pending(tasks) && d != c {
        var u :| u in tasks && tasks[u].Launching? && tasks[u].start == d;
        assert u in tasks' && tasks'[u].Launching?;
      }
    }
    assert OwnStart(tasks') && c !in Pending(tasks');
    hide Pending, OwnStart, Distinct;
  }

  lemma CrashKeepsOneToOne(starts: set<Start>, tasks: map<nat, Task>, calls: seq<Start>, lost: set<Start>)
    requires OneToOne(starts, tasks, calls, lost)
    ensures OneToOne(starts, map[], calls, lost + Pending(tasks))
  {
    assert Pending(map[]) == {};
  }

  // ---------- every step ----------

  lemma TasksKeepMeaning(s: StoreState, s': StoreState, tasks: map<nat, Task>)
    requires TasksMeanRuns(s, tasks) && s.runs.Keys <= s'.runs.Keys
    ensures TasksMeanRuns(s', tasks)
  {
  }

  lemma StoreStepKeepsInv(sys: System, s': StoreState, id: string)
    requires Inv(sys) && Advances(sys.store, s', id, false)
    ensures Inv(sys.(store := s'))
  {
    hide OneToOne, Consistent, TasksMeanRuns, Starts, Lengthened, StaysFinished;
    StartsOfStep(sys.store, s', id, false);
    assert s'.runs.Keys == sys.store.runs.Keys;
    TasksKeepMeaning(sys.store, s', sys.tasks);
  }

  lemma SubmitKeepsInv(sys: System, id: string)
    requires Inv(sys)
    ensures Inv(Next(sys, Submit(id)))
  {
    var s := sys.store;
    if id !in s.runs {
      var run := AgentRun(id, Queued, None, None, None);
      CreateKeepsConsistency(s, run);
      var s' := CreateQueued(s, id).value;
      hide Consistent, OneToOne, TasksMeanRuns, CreateQueued;
      assert id !in s.logs by { SameKeys(s); }
      NewRunNoStart(s, s', id, RunEvent(id, 1, RunCreated, None));
      TasksKeepMeaning(s, s', sys.tasks);
      hide Starts;
    }
  }

  lemma SameKeys(s: StoreState)
    requires Consistent(s)
    ensures s.logs.Keys == s.runs.Keys
  {
  }

  lemma NewRunNoStart(s: StoreState, s': StoreState, id: string, e: RunEvent)
    requires id !in s.logs && s'.logs == s.logs[id := [e]] && !IsStart(e)
    ensures Starts(s') == Starts(s)
  {
    hide IsStart;
    forall c
      ensures c in Starts(s') <==> c in Starts(s)
    {
      StartAt(s, c);
      StartAt(s', c);
      hide Starts;
    }
  }

  lemma PutKeepsMeaning(s: StoreState, tasks: map<nat, Task>, t: nat, task: Task)
    requires TasksMeanRuns(s, tasks)
    requires match task
             case Capturing(run) => run.id in s.runs && run.status.Queued? && run.finishedAt.None?
             case Launching(c) => c.runId in s.runs
             case Executing(c) => c.runId in s.runs
    ensures TasksMeanRuns(s, tasks[t := task]) && TasksMeanRuns(s, tasks - {t})
  {
  }

  lemma LaunchedKeepsInv(sys: System, t: nat, id: string, s': StoreState, n: int)
    requires Inv(sys) && Quiet(sys.tasks, t)
    requires Advances(sys.store, s', id, true) && n == |LogOf(sys.store, id)| + 1
    ensures Inv(sys.(store := s', tasks := sys.tasks[t := Launching(Start(id, n))]))
  {
    hide OneToOne, Consistent, Starts, TasksMeanRuns, Lengthened, StaysFinished;
    StartsOfStep(sys.store, s', id, true);
    assert s'.runs.Keys == sys.store.runs.Keys;
    LaunchKeepsOneToOne(Starts(sys.store), sys.tasks, sys.calls, sys.lost, t, Start(id, n));
    TasksKeepMeaning(sys.store, s', sys.tasks);
    PutKeepsMeaning(s', sys.tasks, t, Launching(Start(id, n)));
    hide Advances;
  }

  lemma QuietKeepsInv(sys: System, t: nat, task: Task)
    requires Inv(sys) && Quiet(sys.tasks, t) && !task.Launching?
    requires task.Capturing? ==> task.snapshot.id in sys.store.runs && task.snapshot.status.Queued? && task.snapshot.finishedAt.None?
    requires task.Executing? ==> task.start.runId in sys.store.runs
    ensures Inv(sys.(tasks := sys.tasks[t := task])) && Inv(sys.(tasks := sys.tasks - {t}))
  {
    hide OneToOne, Consistent, Starts, TasksMeanRuns, Quiet;
    QuietKeepsOneToOne(Starts(sys.store), sys.tasks, sys.calls, sys.lost, t, task);
    PutKeepsMeaning(sys.store, sys.tasks, t, task);
  }

  lemma CommitKeepsInv(sys: System, t: nat, now: nat)
    requires Inv(sys)
    ensures Inv(Next(sys, Commit(t, now)))
  {
    if t in sys.tasks && sys.tasks[t].Capturing? {
      var run := sys.tasks[t].snapshot;
      hide OneToOne, Consistent, Starts, LaunchWith, LogOf, Advances;
      LaunchAdvances(sys.store, run.(status := Running, startedAt := Some(now)), RunStarted);
      var l := CommitStart(sys.store, run, now);
      QuietKeepsInv(sys, t, sys.tasks[t]);
      if l.Launched? {
        LaunchedKeepsInv(sys, t, run.id, l.store, l.sequence);
      }
      hide Inv;
    }
  }

  lemma BeginResumeKeepsInv(sys: System, t: nat, id: string, cp: Checkpoint)
    requires Inv(sys)
    ensures Inv(Next(sys, BeginResume(t, id, cp)))
  {
    var l := CommitResume(sys.store, id, cp);
    hide OneToOne, Consistent, Starts, LaunchWith, LogOf, Advances, TasksMeanRuns;
    if t !in sys.tasks && l.Launched? {
      var s := sys.store;
      RunAgrees(s, id);
      LaunchAdvances(s, s.runs[id].(status := Running), RunResumed);
      LaunchedKeepsInv(sys, t, id, l.store, l.sequence);
    } else {
      assert t !in sys.tasks ==> sys.tasks - {t} == sys.tasks;
    }
    hide Inv;
  }

  lemma BeginExecuteKeepsInv(sys: System, t: nat, id: string)
    requires Inv(sys)
    ensures Inv(Next(sys, BeginExecute(t, id)))
  {
    hide OneToOne, Starts, Consistent, TasksMeanRuns;
    if t !in sys.tasks && id in sys.store.runs && sys.store.runs[id].status.Queued? {
      RunAgrees(sys.store, id);
      QuietKeepsInv(sys, t, Capturing(sys.store.runs[id]));
    }
    hide Inv;
  }

  lemma CallKeepsInv(sys: System, t: nat)
    requires Inv(sys)
    ensures Inv(Next(sys, Call(t)))
  {
    hide OneToOne, Starts, Consistent;
    if t in sys.tasks && sys.tasks[t].Launching? {
      CallKeepsOneToOne(Starts(sys.store), sys.tasks, sys.calls, sys.lost, t);
      PutKeepsMeaning(sys.store, sys.tasks, t, Executing(sys.tasks[t].start));
    }
    hide TasksMeanRuns;
  }

  lemma WriteKeepsInv(sys: System, w: Writer)
    requires Inv(sys)
    ensures Inv(Next(sys, Write(w)))
  {
    hide OneToOne, Starts, Consistent, TasksMeanRuns, Advances;
    if Written(sys.store, w).Ok? {
      if w.id in sys.store.runs {
        WriterAdvances(sys.store, w);
        StoreStepKeepsInv(sys, Written(sys.store, w).value, w.id);
      }
    }
    hide Inv;
  }

  lemma InvocationFailureAdvances(s: StoreState, id: string)
    requires Consistent(s) && id in s.runs
    ensures MarkInvocationFailed(s, id).Ok? ==> Advances(s, MarkInvocationFailed(s, id).value, id, false)
  {
    hide Consistent, Advances, Move;
    RunAgrees(s, id);
    StandsStill(s, id);
    StopAdvances(s, s.runs[id]);
  }

  lemma ExecutingKeepsInv(sys: System, a: Action)
    requires Inv(sys) && (a.Deliver? || a.Return? || a.Throw?)
    ensures Inv(Next(sys, a))
  {
    hide OneToOne, Starts, Consistent, Advances, OnRuntimeEvent, MarkInvocationFailed;
    var t := a.task;
    if t in sys.tasks && sys.tasks[t].Executing? {
      var id := sys.tasks[t].start.runId;
      var sys' := sys;
      if a.Deliver? && OnRuntimeEvent(sys.store, id, a.event, a.now).Ok? {
        RuntimeEventAdvances(sys.store, id, a.event, a.now);
        StoreStepKeepsInv(sys, OnRuntimeEvent(sys.store, id, a.event, a.now).value, id);
      } else if a.Throw? && MarkInvocationFailed(sys.store, id).Ok? {
        InvocationFailureAdvances(sys.store, id);
        sys' := sys.(store := MarkInvocationFailed(sys.store, id).value);
        StoreStepKeepsInv(sys, sys'.store, id);
      }
      if !a.Deliver? {
        assert sys'.tasks == sys.tasks;
        QuietKeepsInv(sys', t, Executing(sys.tasks[t].start));
      }
    }
    hide Inv;
  }

  lemma CrashKeepsInv(sys: System)
    requires Inv(sys)
    ensures Inv(Next(sys, Crash))
  {
    CrashKeepsOneToOne(Starts(sys.store), sys.tasks, sys.calls, sys.lost);
    hide OneToOne, Consistent, Starts;
  }

  lemma NextKeepsInv(sys: System, a: Action)
    requires Inv(sys)
    ensures Inv(Next(sys, a))
  {
    hide Inv, Next;
    match a
    case Submit(id) => SubmitKeepsInv(sys, id);
    case Write(w) => WriteKeepsInv(sys, w);
    case BeginExecute(t, id) => BeginExecuteKeepsInv(sys, t, id);
    case Commit(t, now) => CommitKeepsInv(sys, t, now);
    case BeginResume(t, id, cp) => BeginResumeKeepsInv(sys, t, id, cp);
    case Call(t) => CallKeepsInv(sys, t);
    case Crash => CrashKeepsInv(sys);
    case _ => ExecutingKeepsInv(sys, a);
  }
}
