/**
 The life of a run as one table: for every state that can be reached and every action, the event it
 records for a run and what the run shows afterwards, said over statuses, tasks and the action alone.
 */
module StepTable {
  import opened Options
  import opened RunModel
  import opened RunStores
  import opened RunSteps
  import opened Lifecycle
  import opened LifecycleTheorems

  /** An event as it is recorded: its type and its dedupe key. */
  datatype Entry = Entry(kind: EventType, key: Option<string>)

  function Plain(kind: EventType): Option<Entry> { Some(Entry(kind, None)) }

  /** The timeline entry of a runtime event, which does not concern the status. */
  function TimelineOf(id: string, e: RuntimeEvent): Option<Entry> {
    match e
    case SandboxReady(sandbox) => Some(Entry(SandboxAcquired, Some("sandbox:" + sandbox + ":acquired")))
    case ControlReady => Some(Entry(ControlPrepared, Some("control:" + id + ":prepared")))
    case SessionReady => Some(Entry(SessionInitialized, Some("session:" + id + ":initialized")))
    case ModelBegins(call) => Some(Entry(ModelStarted, Some("model:" + call + ":started")))
    case ModelFirst(call) => Some(Entry(ModelFirstToken, Some("model:" + call + ":first-token")))
    case ModelEnds(call) => Some(Entry(ModelCompleted, Some("model:" + call + ":finished")))
    case ToolBegins(call) => Some(Entry(ToolStarted, Some("tool:" + call + ":started")))
    case ToolEnds(call, failed) => Some(Entry(if failed then ToolFailed else ToolCompleted, Some("tool:" + call + ":finished")))
    case _ => None
  }

  predicate Keyed(log: seq<RunEvent>, key: Option<string>) { exists i :: 0 <= i < |log| && log[i].dedupeKey == key }

  /** What a runtime event records for its run. */
  function DueToEvent(status: Status, log: seq<RunEvent>, id: string, e: RuntimeEvent): Option<Entry> {
    if TimelineOf(id, e).Some? then (if Keyed(log, TimelineOf(id, e).value.key) then None else TimelineOf(id, e))
    else if e.AgentCompleted? && status == Running then Plain(RunCompleted)
    else if e.AgentFailed? && status != Completed && status != Failed then Plain(RunFailed)
    else if e.AgentInterrupted? && (status == Queued || status == Running || status == WaitingTool) then Plain(RunInterrupted)
    else None
  }

  /** What a writer records for the run it is about. */
  function DueToWriter(run: AgentRun, w: Writer): Option<Entry> {
    match w
    case BlockedInQueue(_) => if run.status == Queued then Plain(QueueBlocked) else None
    case QueueTimeout(_, _) => if run.status == Queued then Plain(RunFailed) else None
    case AskResume(id, cp) =>
      if run.status == Interrupted && cp.runId == id && run.checkpointId == Some(cp.id) then Plain(RunQueued) else None
    case EndInterrupt(_) =>
      if run.status == Queued || run.status == Running || run.status == WaitingTool then Plain(RunInterrupted) else None
    case ToolPhase(_, PhaseStarted) => if run.status == Running then Plain(ToolStarted) else None
    case ToolPhase(_, PhaseEnded) => if run.status == WaitingTool then Plain(ToolCompleted) else None
    case ToolCheckpoint(_, _) => None
    case RestartScan(_) =>
      if run.status == Queued || run.status == Running || run.status == WaitingTool then Plain(RunInterrupted) else None
    case AuditReview(_) => if run.status == Interrupted then Plain(RunInterrupted) else None
    case Review(_, pending, occurred, _) =>
      if run.status != Interrupted || !pending then None else if occurred then Plain(RunFailed) else Plain(ManualReviewResolved)
  }

  predicate ExecutesFor(sys: System, t: nat, id: string) {
    t in sys.tasks && sys.tasks[t].Executing? && sys.tasks[t].start.runId == id
  }

  /** What an action records for a run. */
  function Due(sys: System, a: Action, id: string): Option<Entry>
    requires id in sys.store.runs && id in sys.store.logs
  {
    var run := sys.store.runs[id];
    match a
    case Write(w) => if w.id == id then DueToWriter(run, w) else None
    case Commit(t, _) =>
      if t in sys.tasks && sys.tasks[t].Capturing? && sys.tasks[t].snapshot.id == id && (run.status == Queued || run.status == WaitingTool)
      then Plain(RunStarted) else None
    case BeginResume(t, k, cp) =>
      if t !in sys.tasks && k == id && run.status == Queued && cp.runId == id && run.checkpointId == Some(cp.id) then Plain(RunResumed) else None
    case Deliver(t, e, _) => if ExecutesFor(sys, t, id) then DueToEvent(run.status, sys.store.logs[id], id, e) else None
    case Throw(t) => if ExecutesFor(sys, t, id) && (run.status == Running || run.status == WaitingTool) then Plain(RunInterrupted) else None
    case _ => None
  }

  /** The status a recorded event leaves. */
  function Shown(before: Status, e: Entry): Status {
    match e.kind
    case RunQueued => Queued
    case RunStarted => Running
    case RunResumed => Running
    case RunInterrupted => Interrupted
    case RunCompleted => Completed
    case RunFailed => Failed
    case ToolStarted => if e.key.None? then WaitingTool else before
    case ToolCompleted => if e.key.None? then Running else before
    case _ => before
  }

  function TimeOf(a: Action): nat {
    match a
    case Commit(_, now) => now
    case Deliver(_, _, now) => now
    case Write(QueueTimeout(_, now)) => now
    case Write(Review(_, _, _, now)) => now
    case _ => 0
  }

  /** Run and log after an entry: status and times follow it. */
  predicate Records(run: AgentRun, log: seq<RunEvent>, run': AgentRun, log': seq<RunEvent>, due: Option<Entry>, time: nat) {
    if due.None? then log' == log && run'.status == run.status && run'.startedAt == run.startedAt && run'.finishedAt == run.finishedAt
    else
      && log' == log + [RunEvent(run.id, |log| + 1, due.value.kind, due.value.key)]
      && run'.status == Shown(run.status, due.value)
      && run'.startedAt == (if due.value.kind.RunStarted? then Some(time) else run.startedAt)
      && run'.finishedAt == if due.value.kind.RunCompleted? || due.value.kind.RunFailed? then Some(time) else run.finishedAt
  }

  /** The store after a step that records `due` for run `id`, or leaves that run alone. */
  ghost predicate Stores(s: StoreState, s': StoreState, id: string, due: Option<Entry>, time: nat) {
    && id in s.runs && id in s.logs && id in s'.runs && id in s'.logs
    && s.runs[id].id == id && s'.runs[id].id == id
    && Records(s.runs[id], s.logs[id], s'.runs[id], s'.logs[id], due, time)
  }

  // ---------- the three ways to record ----------

  lemma NothingStored(s: StoreState, id: string, time: nat)
    requires Consistent(s) && id in s.runs
    ensures Stores(s, s, id, None, time)
  {
    RunAgrees(s, id);
    hide Consistent;
  }

  lemma NextIs(s: StoreState, id: string, kind: EventType, key: Option<string>)
    requires Consistent(s) && id in s.runs
    ensures NextEvent(s, id, kind, key) == RunEvent(id, |s.logs[id]| + 1, kind, key)
  {
    NextSequenceFits(s, id);
    hide Consistent, LastSequence;
  }

  /** A move records its event if the transition is allowed, and nothing otherwise. */
  lemma MoveStores(s: StoreState, run: AgentRun, kind: EventType, time: nat)
    requires Consistent(s) && run.id in s.runs && !kind.RunCreated?
    requires Announces(NextEvent(s, run.id, kind, None)) == Some(run.status) && run.status == Shown(s.runs[run.id].status, Entry(kind, None))
    requires kind.RunResumed? ==> s.runs[run.id].status.Queued?
    requires kind.ToolCompleted? ==> s.runs[run.id].status.WaitingTool?
    requires run.finishedAt == if kind.RunCompleted? || kind.RunFailed? then Some(time) else None
    requires run.startedAt == if kind.RunStarted? then Some(time) else s.runs[run.id].startedAt
    ensures Stores(s, Stored(s, Move(s, run, kind)), run.id,
                   if CanTransition(s.runs[run.id].status, run.status) then Plain(kind) else None, time)
  {
    hide Consistent, Advances, Move, LastSequence, LogOf;
    RunAgrees(s, run.id);
    NothingStored(s, run.id, time);
    NextIs(s, run.id, kind, None);
    MoveAdvances(s, run, kind);
    hide NextEvent;
    if Move(s, run, kind).Ok? {
      InBoth(s, Move(s, run, kind).value, run.id, kind.RunStarted? || kind.RunResumed?);
      assert !Terminal(s.runs[run.id].status);
    }
  }

  lemma InBoth(s: StoreState, s': StoreState, id: string, launch: bool)
    requires Advances(s, s', id, launch)
    ensures id in s.runs && id in s.logs && id in s'.runs && id in s'.logs
  {
  }

  lemma NoteStores(s: StoreState, id: string, kind: EventType, key: Option<string>, time: nat)
    requires Consistent(s) && id in s.runs && !IsStart(NextEvent(s, id, kind, key))
    requires Announces(NextEvent(s, id, kind, key)).None? || (kind.RunInterrupted? && s.runs[id].status.Interrupted?)
    requires key.Some? ==> !HasKey(s, NextEvent(s, id, kind, key))
    ensures Stores(s, Stored(s, AppendEvent(s, NextEvent(s, id, kind, key))), id, Some(Entry(kind, key)), time)
  {
    hide Consistent, Advances, LastSequence, LogOf, AppendEvent, HasKey, IsStart;
    RunAgrees(s, id);
    AppendAdvances(s, id, kind, key);
    NextIs(s, id, kind, key);
    InBoth(s, AppendEvent(s, NextEvent(s, id, kind, key)).value, id, false);
  }

  /** A step of another run. */
  lemma OtherStores(s: StoreState, s': StoreState, k: string, launch: bool, id: string, time: nat)
    requires Consistent(s) && id in s.runs && k != id && Advances(s, s', k, launch)
    ensures Stores(s, s', id, None, time)
  {
    RunAgrees(s, id);
    NothingStored(s, id, time);
    assert s'.runs[id] == s.runs[id] && s'.logs[id] == s.logs[id];
    hide Consistent;
  }

  // ---------- writers ----------

  lemma WriterStores(s: StoreState, w: Writer)
    requires Consistent(s) && w.id in s.runs
    ensures Stores(s, Stored(s, Written(s, w)), w.id, DueToWriter(s.runs[w.id], w), TimeOf(Write(w)))
  {
    hide Consistent, Advances, Move, LastSequence, LogOf, UpdateRun, AppendEvent, SaveCheckpoint, Stores, HasKey;
    var id, time := w.id, TimeOf(Write(w));
    var run := s.runs[id];
    RunAgrees(s, id);
    NothingStored(s, id, time);
    match w
    case BlockedInQueue(_) => NoteStores(s, id, QueueBlocked, None, time);
    case QueueTimeout(_, now) => if run.status.Queued? { MoveStores(s, run.(status := Failed, finishedAt := Some(now)), RunFailed, time); }
    case AskResume(_, _) => if run.status.Interrupted? { MoveStores(s, run.(status := Queued), RunQueued, time); }
    case EndInterrupt(_) => StopStores(s, id, time);
    case ToolPhase(_, phase) => PhaseStores(s, id, phase, time);
    case ToolCheckpoint(_, c) => CheckpointStores(s, id, c, time);
    case RestartScan(_) => StopStores(s, id, time);
    case AuditReview(_) => if run.status.Interrupted? { NoteStores(s, id, RunInterrupted, None, time); }
    case Review(_, pending, occurred, now) =>
      if run.status.Interrupted? && pending && occurred {
        MoveStores(s, run.(status := Failed, finishedAt := Some(now)), RunFailed, time);
      }
      NoteStores(s, id, ManualReviewResolved, None, time);
  }

  lemma StopStores(s: StoreState, id: string, time: nat)
    requires Consistent(s) && id in s.runs
    ensures var status := s.runs[id].status;
      Stores(s, Stored(s, Move(s, s.runs[id].(status := Interrupted), RunInterrupted)), id,
             if status == Queued || status == Running || status == WaitingTool then Plain(RunInterrupted) else None, time)
  {
    hide Consistent, Move, LastSequence, LogOf, UpdateRun, AppendEvent, Stores;
    var run := s.runs[id];
    RunAgrees(s, id);
    NothingStored(s, id, time);
    if Terminal(run.status) {
      TerminalRefuses(s, run.(status := Interrupted), RunInterrupted);
    } else {
      MoveStores(s, run.(status := Interrupted), RunInterrupted, time);
    }
  }

  lemma PhaseStores(s: StoreState, id: string, phase: Phase, time: nat)
    requires Consistent(s) && id in s.runs
    ensures Stores(s, Stored(s, MarkToolPhase(s, id, phase)), id, DueToWriter(s.runs[id], ToolPhase(id, phase)), time)
  {
    hide Consistent, Move, LastSequence, LogOf, UpdateRun, AppendEvent, Stores;
    var run := s.runs[id];
    RunAgrees(s, id);
    NothingStored(s, id, time);
    if phase.PhaseStarted? && run.status.Running? {
      MoveStores(s, run.(status := WaitingTool), ToolStarted, time);
    } else if phase.PhaseEnded? && run.status.WaitingTool? {
      MoveStores(s, run.(status := Running), ToolCompleted, time);
    }
  }

  lemma CheckpointStores(s: StoreState, id: string, c: string, time: nat)
    requires Consistent(s) && id in s.runs
    ensures Stores(s, Stored(s, SaveCheckpoint(s, id, c)), id, None, time)
  {
    RunAgrees(s, id);
    hide Consistent;
  }

  // ---------- runtime events ----------

  lemma EventStores(s: StoreState, id: string, e: RuntimeEvent, now: nat)
    requires Consistent(s) && id in s.runs
    ensures id in s.logs
    ensures Stores(s, Stored(s, OnRuntimeEvent(s, id, e, now)), id, DueToEvent(s.runs[id].status, s.logs[id], id, e), now)
  {
    hide Consistent, Move, AppendIfNew, LastSequence, LogOf, UpdateRun, AppendEvent, Stores, TimelineOf, MapEvent, Keyed;
    var run := s.runs[id];
    RunAgrees(s, id);
    NothingStored(s, id, now);
    TimelineIs(id, e);
    if MapEvent(id, e).Some? {
      var draft := MapEvent(id, e).value;
      BridgedStores(s, id, draft.kind, draft.dedupeKey, now);
    } else if e.AgentCompleted? && !Terminal(run.status) {
      MoveStores(s, run.(status := Completed, finishedAt := Some(now)), RunCompleted, now);
    } else if e.AgentFailed? && !Terminal(run.status) {
      MoveStores(s, run.(status := Failed, finishedAt := Some(now)), RunFailed, now);
    } else if e.AgentInterrupted? {
      StopStores(s, id, now);
    }
  }

  lemma TimelineIs(id: string, e: RuntimeEvent)
    ensures TimelineOf(id, e).Some? <==> MapEvent(id, e).Some?
    ensures TimelineOf(id, e).Some? ==>
              && TimelineOf(id, e).value == Entry(MapEvent(id, e).value.kind, Some(MapEvent(id, e).value.dedupeKey))
              && !IsStart(RunEvent(id, 1, TimelineOf(id, e).value.kind, TimelineOf(id, e).value.key))
              && Announces(RunEvent(id, 1, TimelineOf(id, e).value.kind, TimelineOf(id, e).value.key)).None?
    ensures e.AgentCompleted? || e.AgentFailed? || e.AgentInterrupted? ==> MapEvent(id, e).None?
  {
  }

  lemma BridgedStores(s: StoreState, id: string, kind: EventType, key: string, now: nat)
    requires Consistent(s) && id in s.runs
    requires !IsStart(RunEvent(id, 1, kind, Some(key))) && Announces(RunEvent(id, 1, kind, Some(key))).None?
    ensures id in s.logs
    ensures var r := AppendIfNew(s, NextEvent(s, id, kind, Some(key)));
      r.Ok? && Stores(s, r.value.0, id, if Keyed(s.logs[id], Some(key)) then None else Some(Entry(kind, Some(key))), now)
  {
    hide Consistent, LastSequence, AppendEvent, AppendIfNew, Stores, HasKey, Keyed;
    RunAgrees(s, id);
    var next := NextEvent(s, id, kind, Some(key));
    KeyedIff(s, next);
    NothingStored(s, id, now);
    AppendIfNewSplits(s, next);
    if !HasKey(s, next) {
      NoteStores(s, id, kind, Some(key), now);
      AppendAdvances(s, id, kind, Some(key));
    }
  }

  lemma KeyedIff(s: StoreState, e: RunEvent)
    requires e.runId in s.logs
    ensures HasKey(s, e) <==> Keyed(s.logs[e.runId], e.dedupeKey)
  {
    var log := s.logs[e.runId];
    assert LogOf(s, e.runId) == log;
    if i :| 0 <= i < |log| && log[i].dedupeKey == e.dedupeKey {
      assert LogOf(s, e.runId)[i].dedupeKey == e.dedupeKey;
    }
  }

  // ---------- every action ----------

  lemma LaunchStores(s: StoreState, run: AgentRun, kind: EventType, time: nat)
    requires Consistent(s) && run.id in s.runs && run.status.Running? && run.finishedAt.None?
    requires kind.RunStarted? || (kind.RunResumed? && s.runs[run.id].status.Queued?)
    requires run.startedAt == if kind.RunStarted? then Some(time) else s.runs[run.id].startedAt
    ensures var l := LaunchWith(s, run, kind);
      Stores(s, if l.Launched? then l.store else s, run.id,
             if s.runs[run.id].status == Queued || s.runs[run.id].status == WaitingTool then Plain(kind) else None, time)
  {
    hide Consistent, Move, LastSequence, LogOf, UpdateRun, Stores;
    RunAgrees(s, run.id);
    MoveStores(s, run, kind, time);
    NothingStored(s, run.id, time);
  }

  /**
   The table. In every state that can be reached, every action records for every run exactly the entry
   that is due, numbered next, and status and times follow the entry.
   */
  lemma EveryStepRecords(actions: seq<Action>, a: Action, id: string)
    requires id in Reached(actions).store.runs
    ensures var sys := Reached(actions);
      && id in sys.store.logs
      && Stores(sys.store, Next(sys, a).store, id, Due(sys, a, id), TimeOf(a))
  {
    hide After;
    ReachedInv(actions);
    StepRecords(Reached(actions), a, id);
    hide Inv, Stores, Due;
  }

  lemma StepRecords(sys: System, a: Action, id: string)
    requires Inv(sys) && id in sys.store.runs
    ensures id in sys.store.logs && Stores(sys.store, Next(sys, a).store, id, Due(sys, a, id), TimeOf(a))
  {
    hide Consistent, OneToOne, Starts, Stores, Written, OnRuntimeEvent, MarkInvocationFailed, CreateQueued, CommitStart, CommitResume,
      DueToWriter, DueToEvent, LaunchWith;
    var s := sys.store;
    RunAgrees(s, id);
    NothingStored(s, id, TimeOf(a));
    match a
    case Submit(k) => SubmitStores(s, k, id);
    case Write(w) => WriteRecords(s, w, id);
    case Commit(t, now) => CommitRecords(sys, t, now, id);
    case BeginResume(t, k, cp) => ResumeRecords(sys, t, k, cp, id);
    case Deliver(t, e, now) => DeliverRecords(sys, t, e, now, id);
    case Throw(t) => ThrowRecords(sys, t, id);
    case _ =>
  }

  lemma SubmitStores(s: StoreState, k: string, id: string)
    requires Consistent(s) && id in s.runs
    ensures Stores(s, Stored(s, CreateQueued(s, k)), id, None, 0)
  {
    RunAgrees(s, id);
    NothingStored(s, id, 0);
    if k !in s.runs {
      CreateKeepsConsistency(s, AgentRun(k, Queued, None, None, None));
    }
    hide Consistent;
  }

  lemma WriteRecords(s: StoreState, w: Writer, id: string)
    requires Consistent(s) && id in s.runs
    ensures Stores(s, Stored(s, Written(s, w)), id, if w.id == id then DueToWriter(s.runs[id], w) else None, TimeOf(Write(w)))
  {
    hide Consistent, Stores, Written, DueToWriter, Advances;
    NothingStored(s, id, TimeOf(Write(w)));
    if w.id == id {
      WriterStores(s, w);
    } else if Written(s, w).Ok? {
      if w.id in s.runs {
        WriterAdvances(s, w);
        OtherStores(s, Written(s, w).value, w.id, false, id, TimeOf(Write(w)));
      } else {
        UnknownRunUntouched(s, w);
      }
    }
  }

  lemma CommitRecords(sys: System, t: nat, now: nat, id: string)
    requires Inv(sys) && id in sys.store.runs && id in sys.store.logs
    ensures Stores(sys.store, Next(sys, Commit(t, now)).store, id, Due(sys, Commit(t, now), id), now)
  {
    hide Consistent, OneToOne, Starts, Stores, LaunchWith, Advances, LogOf;
    NothingStored(sys.store, id, now);
    if t in sys.tasks && sys.tasks[t].Capturing? {
      var run := sys.tasks[t].snapshot.(status := Running, startedAt := Some(now));
      LaunchStores(sys.store, run, RunStarted, now);
      if run.id != id {
        LaunchAdvances(sys.store, run, RunStarted);
        if LaunchWith(sys.store, run, RunStarted).Launched? {
          OtherStores(sys.store, LaunchWith(sys.store, run, RunStarted).store, run.id, true, id, now);
        }
      }
    }
  }

  lemma ResumeRecords(sys: System, t: nat, k: string, cp: Checkpoint, id: string)
    requires Inv(sys) && id in sys.store.runs && id in sys.store.logs
    ensures Stores(sys.store, Next(sys, BeginResume(t, k, cp)).store, id, Due(sys, BeginResume(t, k, cp), id), 0)
  {
    hide Consistent, OneToOne, Starts, Stores, LaunchWith, Advances, LogOf, TasksMeanRuns;
    var s := sys.store;
    NothingStored(s, id, 0);
    if t !in sys.tasks && k in s.runs && s.runs[k].status.Queued? {
      RunAgrees(s, k);
      var run := s.runs[k].(status := Running);
      LaunchStores(s, run, RunResumed, 0);
      if k != id {
        LaunchAdvances(s, run, RunResumed);
        if LaunchWith(s, run, RunResumed).Launched? {
          OtherStores(s, LaunchWith(s, run, RunResumed).store, k, true, id, 0);
        }
      }
    }
  }

  lemma DeliverRecords(sys: System, t: nat, e: RuntimeEvent, now: nat, id: string)
    requires Inv(sys) && id in sys.store.runs && id in sys.store.logs
    ensures Stores(sys.store, Next(sys, Deliver(t, e, now)).store, id, Due(sys, Deliver(t, e, now), id), now)
  {
    hide Consistent, OneToOne, Starts, Stores, OnRuntimeEvent, DueToEvent, Advances;
    var s := sys.store;
    NothingStored(s, id, now);
    if t in sys.tasks && sys.tasks[t].Executing? {
      var k := sys.tasks[t].start.runId;
      if k == id {
        EventStores(s, id, e, now);
      } else if OnRuntimeEvent(s, k, e, now).Ok? {
        RuntimeEventAdvances(s, k, e, now);
        OtherStores(s, OnRuntimeEvent(s, k, e, now).value, k, false, id, now);
      }
    }
  }

  lemma ThrowRecords(sys: System, t: nat, id: string)
    requires Inv(sys) && id in sys.store.runs && id in sys.store.logs
    ensures Stores(sys.store, Next(sys, Throw(t)).store, id, Due(sys, Throw(t), id), 0)
  {
    hide Consistent, OneToOne, Starts, Stores, Move, Advances;
    var s := sys.store;
    NothingStored(s, id, 0);
    if t in sys.tasks && sys.tasks[t].Executing? {
      var k := sys.tasks[t].start.runId;
      if k == id {
        StopStores(s, id, 0);
      } else if MarkInvocationFailed(s, k).Ok? {
        InvocationFailureAdvances(s, k);
        OtherStores(s, MarkInvocationFailed(s, k).value, k, false, id, 0);
      }
    }
  }

  lemma NobodyElseCreates(sys: System, a: Action)
    requires Inv(sys) && !a.Submit?
    ensures Next(sys, a).store.runs.Keys == sys.store.runs.Keys
  {
    hide OneToOne, Starts, Consistent, OnRuntimeEvent, MarkInvocationFailed, Written, LaunchWith, LogOf, Lengthened, StaysFinished;
    var s := sys.store;
    match a
    case Write(w) =>
      if Written(s, w).Ok? && w.id in s.runs {
        WriterAdvances(s, w);
      } else if Written(s, w).Ok? {
        UnknownRunUntouched(s, w);
      }
    case Commit(t, now) =>
      if t in sys.tasks && sys.tasks[t].Capturing? {
        LaunchAdvances(s, sys.tasks[t].snapshot.(status := Running, startedAt := Some(now)), RunStarted);
      }
    case BeginResume(t, id, cp) =>
      if CommitResume(s, id, cp).Launched? {
        RunAgrees(s, id);
        LaunchAdvances(s, s.runs[id].(status := Running), RunResumed);
      }
    case Deliver(t, e, now) =>
      if t in sys.tasks && sys.tasks[t].Executing? {
        RuntimeEventAdvances(s, sys.tasks[t].start.runId, e, now);
      }
    case Throw(t) =>
      if t in sys.tasks && sys.tasks[t].Executing? {
        InvocationFailureAdvances(s, sys.tasks[t].start.runId);
      }
    case _ =>
  }

  /** A run comes to be by its submission alone, queued. */
  lemma SubmissionCreates(actions: seq<Action>, a: Action, id: string)
    requires id !in Reached(actions).store.runs
    ensures var s' := Next(Reached(actions), a).store;
      && (id in s'.runs <==> a == Submit(id))
      && (a == Submit(id) ==> s'.runs[id] == AgentRun(id, Queued, None, None, None)
                              && id in s'.logs && s'.logs[id] == [RunEvent(id, 1, RunCreated, None)])
  {
    hide After, Inv;
    ReachedInv(actions);
    Created(Reached(actions), a, id);
  }

  lemma Created(sys: System, a: Action, id: string)
    requires Inv(sys) && id !in sys.store.runs
    ensures var s' := Next(sys, a).store;
      && (id in s'.runs <==> a == Submit(id))
      && (a == Submit(id) ==> s'.runs[id] == AgentRun(id, Queued, None, None, None)
                              && id in s'.logs && s'.logs[id] == [RunEvent(id, 1, RunCreated, None)])
  {
    hide OneToOne, Consistent, TasksMeanRuns;
    if a.Submit? {
      if a.id !in sys.store.runs {
        CreateKeepsConsistency(sys.store, AgentRun(a.id, Queued, None, None, None));
      }
    } else {
      hide Next;
      NobodyElseCreates(sys, a);
    }
  }
}
