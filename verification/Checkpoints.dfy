/**
 The checkpoint reference of a run. Tools write it; a start writes back the one it read before its
 workspace capture, and loses the newer one if a tool has written in between.
 */
module Checkpoints {
  import opened Options
  import opened RunModel
  import opened RunStores
  import opened RunSteps
  import opened Lifecycle
  import opened LifecycleTheorems
  import opened Episodes

  // ---------- what one step does to a reference ----------

  predicate Keeps(s: StoreState, s': StoreState, id: string) {
    id in s.runs ==> id in s'.runs && s'.runs[id].checkpointId == s.runs[id].checkpointId
  }

  lemma MoveKeeps(s: StoreState, run: AgentRun, kind: EventType, id: string)
    requires run.id in s.runs && (run.id == id ==> run.checkpointId == s.runs[id].checkpointId)
    ensures Move(s, run, kind).Ok? ==> Keeps(s, Move(s, run, kind).value, id)
  {
    hide LastSequence, Insertable;
  }

  lemma AppendKeeps(s: StoreState, e: RunEvent, id: string)
    ensures AppendEvent(s, e).Ok? ==> Keeps(s, AppendEvent(s, e).value, id)
    ensures AppendIfNew(s, e).Ok? ==> Keeps(s, AppendIfNew(s, e).value.0, id)
  {
    hide Insertable, HasKey;
  }

  predicate Saves(w: Writer, id: string) { w.ToolCheckpoint? && w.id == id }

  lemma WriterKeepsReference(s: StoreState, w: Writer, id: string)
    requires Consistent(s) && !Saves(w, id)
    ensures Keeps(s, Stored(s, Written(s, w)), id)
  {
    hide Consistent, Move, AppendEvent, NextEvent;
    if w.id in s.runs {
      var run := s.runs[w.id];
      RunAgrees(s, w.id);
      AppendKeeps(s, NextEvent(s, w.id, QueueBlocked, None), id);
      AppendKeeps(s, NextEvent(s, w.id, RunInterrupted, None), id);
      AppendKeeps(s, NextEvent(s, w.id, ManualReviewResolved, None), id);
      match w
      case QueueTimeout(_, now) => MoveKeeps(s, run.(status := Failed, finishedAt := Some(now)), RunFailed, id);
      case AskResume(_, _) => MoveKeeps(s, run.(status := Queued), RunQueued, id);
      case EndInterrupt(_) => MoveKeeps(s, run.(status := Interrupted), RunInterrupted, id);
      case RestartScan(_) => MoveKeeps(s, run.(status := Interrupted), RunInterrupted, id);
      case ToolPhase(_, _) =>
        MoveKeeps(s, run.(status := WaitingTool), ToolStarted, id);
        MoveKeeps(s, run.(status := Running), ToolCompleted, id);
      case Review(_, _, _, now) => MoveKeeps(s, run.(status := Failed, finishedAt := Some(now)), RunFailed, id);
      case _ =>
    }
  }

  lemma EventKeepsReference(s: StoreState, k: string, e: RuntimeEvent, now: nat, id: string)
    requires Consistent(s) && k in s.runs
    ensures Keeps(s, Stored(s, OnRuntimeEvent(s, k, e, now)), id)
  {
    hide Consistent, Move, AppendIfNew, NextEvent;
    var run := s.runs[k];
    RunAgrees(s, k);
    if MapEvent(k, e).Some? {
      var draft := MapEvent(k, e).value;
      hide MapEvent;
      AppendKeeps(s, NextEvent(s, k, draft.kind, Some(draft.dedupeKey)), id);
    } else {
      hide MapEvent;
      MoveKeeps(s, run.(status := Completed, finishedAt := Some(now)), RunCompleted, id);
      MoveKeeps(s, run.(status := Failed, finishedAt := Some(now)), RunFailed, id);
      MoveKeeps(s, run.(status := Interrupted), RunInterrupted, id);
    }
  }

  lemma FailureKeeps(s: StoreState, k: string, id: string)
    requires Consistent(s) && k in s.runs
    ensures Keeps(s, Stored(s, MarkInvocationFailed(s, k)), id)
  {
    hide Consistent, Move;
    RunAgrees(s, k);
    MoveKeeps(s, s.runs[k].(status := Interrupted), RunInterrupted, id);
  }

  /** An action that ends a capture of the run by committing its start. */
  predicate CommitsFor(sys: System, a: Action, id: string) {
    a.Commit? && a.task in sys.tasks && CapturesFor(sys.tasks[a.task], id)
  }

  /** Only a tool's write and the commit of a snapshot with another reference change the reference of a run. */
  lemma ReferenceKept(sys: System, a: Action, id: string)
    requires Inv(sys) && id in sys.store.runs
    requires !(a.Write? && Saves(a.writer, id))
    requires CommitsFor(sys, a, id) ==> sys.tasks[a.task].snapshot.checkpointId == sys.store.runs[id].checkpointId
    ensures Keeps(sys.store, Next(sys, a).store, id)
  {
    hide Consistent, OneToOne, Starts, Written, OnRuntimeEvent, MarkInvocationFailed, Move, CreateQueued;
    var s := sys.store;
    match a
    case Submit(k) => NewRunKeeps(s, k, id);
    case Write(w) => WriterKeepsReference(s, w, id);
    case Commit(t, now) =>
      if t in sys.tasks && sys.tasks[t].Capturing? {
        MoveKeeps(s, sys.tasks[t].snapshot.(status := Running, startedAt := Some(now)), RunStarted, id);
      }
    case BeginResume(t, k, cp) =>
      if k in s.runs {
        RunAgrees(s, k);
        MoveKeeps(s, s.runs[k].(status := Running), RunResumed, id);
      }
    case Deliver(t, e, now) =>
      if t in sys.tasks && sys.tasks[t].Executing? {
        EventKeepsReference(s, sys.tasks[t].start.runId, e, now, id);
      }
    case Throw(t) =>
      if t in sys.tasks && sys.tasks[t].Executing? {
        FailureKeeps(s, sys.tasks[t].start.runId, id);
      }
    case _ =>
  }

  lemma NewRunKeeps(s: StoreState, k: string, id: string)
    ensures Keeps(s, Stored(s, CreateQueued(s, k)), id)
  {
    hide Insertable;
  }

  // ---------- captures ----------

  /** Every capture in progress holds the reference that is stored. */
  ghost predicate Fresh(sys: System) {
    forall t :: t in sys.tasks && sys.tasks[t].Capturing? ==>
                  && sys.tasks[t].snapshot.id in sys.store.runs
                  && sys.store.runs[sys.tasks[t].snapshot.id].checkpointId == sys.tasks[t].snapshot.checkpointId
  }

  /** A tool's write of another reference than the one a capture of the run holds. */
  predicate Disturbs(sys: System, a: Action) {
    a.Write? && a.writer.ToolCheckpoint?
    && exists t :: t in sys.tasks && CapturesFor(sys.tasks[t], a.writer.id)
                   && sys.tasks[t].snapshot.checkpointId != Some(a.writer.checkpointId)
  }

  /** A capture is an old one, or has just read the stored run. */
  lemma CapturesAfter(sys: System, a: Action, t: nat)
    requires Inv(sys) && t in Next(sys, a).tasks && Next(sys, a).tasks[t].Capturing?
    ensures (t in sys.tasks && sys.tasks[t] == Next(sys, a).tasks[t])
            || (a.BeginExecute? && a.id in sys.store.runs && Next(sys, a).store == sys.store
                && Next(sys, a).tasks[t].snapshot == sys.store.runs[a.id] && sys.store.runs[a.id].id == a.id)
  {
    hide Inv, Written, OnRuntimeEvent, MarkInvocationFailed, CreateQueued, CommitStart, CommitResume, Stored;
    if a.BeginExecute? && a.id in sys.store.runs {
      StoredUnderItsId(sys, a.id);
    }
  }

  lemma StoredUnderItsId(sys: System, id: string)
    requires Inv(sys) && id in sys.store.runs
    ensures sys.store.runs[id].id == id
  {
    hide OneToOne, TasksMeanRuns;
    RunAgrees(sys.store, id);
  }

  lemma SavedReference(sys: System, w: Writer)
    requires w.ToolCheckpoint? && w.id in sys.store.runs
    ensures w.id in Next(sys, Write(w)).store.runs
    ensures Next(sys, Write(w)).store.runs[w.id].checkpointId == Some(w.checkpointId)
  {
  }

  /** As long as no tool disturbs a capture, captures stay fresh and no commit changes a reference. */
  lemma NextFresh(sys: System, a: Action)
    requires Inv(sys) && Fresh(sys) && !Disturbs(sys, a)
    ensures Fresh(Next(sys, a))
  {
    hide Inv, Next, Keeps;
    var sys' := Next(sys, a);
    forall t | t in sys'.tasks && sys'.tasks[t].Capturing?
      ensures sys'.tasks[t].snapshot.id in sys'.store.runs
      ensures sys'.store.runs[sys'.tasks[t].snapshot.id].checkpointId == sys'.tasks[t].snapshot.checkpointId
    {
      CapturesAfter(sys, a, t);
      var id := sys'.tasks[t].snapshot.id;
      if t in sys.tasks && sys.tasks[t] == sys'.tasks[t] {
        if a.Write? && Saves(a.writer, id) {
          SavedReference(sys, a.writer);
        } else {
          ReferenceKept(sys, a, id);
          Kept(sys.store, sys'.store, id);
        }
      }
    }
  }

  lemma Kept(s: StoreState, s': StoreState, id: string)
    requires Keeps(s, s', id) && id in s.runs
    ensures id in s'.runs && s'.runs[id].checkpointId == s.runs[id].checkpointId
  {
  }

  // ---------- when a commit loses a checkpoint ----------

  /** No tool disturbs a capture in this run of the deployment. */
  predicate Undisturbed(sys: System, actions: seq<Action>)
    decreases |actions|
  {
    actions == [] || (!Disturbs(sys, actions[0]) && Undisturbed(Next(sys, actions[0]), actions[1..]))
  }

  lemma {:induction false} FreshAlways(sys: System, actions: seq<Action>)
    requires Inv(sys) && Fresh(sys) && Undisturbed(sys, actions)
    ensures Fresh(After(sys, actions))
    decreases |actions|
  {
    hide Inv, Fresh, Next, Disturbs;
    if actions != [] {
      NextKeepsInv(sys, actions[0]);
      NextFresh(sys, actions[0]);
      FreshAlways(Next(sys, actions[0]), actions[1..]);
    }
  }

  lemma NothingCaptured()
    ensures Fresh(INITIAL)
  {
  }

  /**
   If no tool writes another checkpoint of a run while a start of it is capturing, then no commit of a
   start, and nothing but a tool's write, ever changes the reference of a run.
   */
  lemma OnlyToolsChangeReferences(actions: seq<Action>, a: Action, id: string)
    requires Undisturbed(INITIAL, actions) && id in Reached(actions).store.runs
    requires !(a.Write? && Saves(a.writer, id))
    ensures id in Next(Reached(actions), a).store.runs
    ensures Next(Reached(actions), a).store.runs[id].checkpointId == Reached(actions).store.runs[id].checkpointId
  {
    hide After, Inv, Next;
    ReachedInv(actions);
    NothingCaptured();
    InitialInv();
    FreshAlways(INITIAL, actions);
    ReferenceKept(Reached(actions), a, id);
  }

  /** After a write, nothing else is written for the run, none of its captures is committed and no process dies. */
  predicate Undone(sys: System, more: seq<Action>, id: string)
    decreases |more|
  {
    more == []
    || (!more[0].Crash? && !(more[0].Write? && Saves(more[0].writer, id)) && !CommitsFor(sys, more[0], id)
        && Undone(Next(sys, more[0]), more[1..], id))
  }

  lemma CaptureStays(sys: System, a: Action, t: nat)
    requires t in sys.tasks && sys.tasks[t].Capturing? && !a.Crash? && !(a.Commit? && a.task == t)
    ensures t in Next(sys, a).tasks && Next(sys, a).tasks[t] == sys.tasks[t]
  {
    hide Written, OnRuntimeEvent, MarkInvocationFailed, CreateQueued, CommitStart, CommitResume, Stored;
  }

  lemma {:induction false} ReferenceStays(sys: System, more: seq<Action>, t: nat)
    requires Inv(sys) && t in sys.tasks && sys.tasks[t].Capturing? && sys.tasks[t].snapshot.id in sys.store.runs
    requires Undone(sys, more, sys.tasks[t].snapshot.id)
    ensures var id, last := sys.tasks[t].snapshot.id, After(sys, more);
      && t in last.tasks && last.tasks[t] == sys.tasks[t]
      && id in last.store.runs && last.store.runs[id].checkpointId == sys.store.runs[id].checkpointId
    decreases |more|
  {
    hide Inv, Next;
    if more != [] {
      var id := sys.tasks[t].snapshot.id;
      NextKeepsInv(sys, more[0]);
      CaptureStays(sys, more[0], t);
      ReferenceKept(sys, more[0], id);
      ReferenceStays(Next(sys, more[0]), more[1..], t);
    }
  }

  /**
   Conversely, a tool's write that falls while a start of the run is capturing is lost with the commit of
   that start, whatever happens in between, exactly when it is another reference than the one captured.
   */
  lemma WriteDuringCaptureIsLost(actions: seq<Action>, t: nat, c: string, more: seq<Action>, now: nat)
    requires t in Reached(actions).tasks && Reached(actions).tasks[t].Capturing?
    requires var sys := Reached(actions);
      var id := sys.tasks[t].snapshot.id;
      var saved := Next(sys, Write(ToolCheckpoint(id, c)));
      && Undone(saved, more, id)
      && id in After(saved, more).store.runs
      && (After(saved, more).store.runs[id].status.Queued? || After(saved, more).store.runs[id].status.WaitingTool?)
    ensures var snapshot := Reached(actions).tasks[t].snapshot;
      var before := After(Next(Reached(actions), Write(ToolCheckpoint(snapshot.id, c))), more);
      var after := Next(before, Commit(t, now));
      && snapshot.id in before.store.runs && before.store.runs[snapshot.id].checkpointId == Some(c)
      && snapshot.id in after.store.runs
      && (after.store.runs[snapshot.id].checkpointId != Some(c) <==> snapshot.checkpointId != Some(c))
  {
    hide After, Inv, Next;
    var sys := Reached(actions);
    var id := sys.tasks[t].snapshot.id;
    var w := ToolCheckpoint(id, c);
    ReachedInv(actions);
    CapturedIsThere(sys, t);
    NextKeepsInv(sys, Write(w));
    SavedReference(sys, w);
    CaptureStays(sys, Write(w), t);
    var saved := Next(sys, Write(w));
    ReferenceStays(saved, more, t);
    InvAlways(saved, more);
    var before := After(saved, more);
    LogThere(before, id);
    Episodes.Commits(before, t, now, id);
  }

  lemma CapturedIsThere(sys: System, t: nat)
    requires Inv(sys) && t in sys.tasks && sys.tasks[t].Capturing?
    ensures sys.tasks[t].snapshot.id in sys.store.runs
  {
    hide Consistent, OneToOne;
  }

  lemma LogThere(sys: System, id: string)
    requires Inv(sys) && id in sys.store.runs
    ensures id in sys.store.logs
  {
    hide OneToOne, TasksMeanRuns;
    RunAgrees(sys.store, id);
  }

  // ---------- with single flight ----------

  /** Tools write only for runs that are active. */
  predicate WhileActive(sys: System, a: Action) {
    a.Write? && a.writer.ToolCheckpoint? ==> a.writer.id in sys.store.runs && Active(sys.store.runs[a.writer.id].status)
  }

  predicate ToolsWhileActive(sys: System, actions: seq<Action>)
    decreases |actions|
  {
    actions == [] || (WhileActive(sys, actions[0]) && ToolsWhileActive(Next(sys, actions[0]), actions[1..]))
  }

  lemma CalmIsUndisturbed(sys: System, a: Action)
    requires Calm(sys) && WhileActive(sys, a)
    ensures !Disturbs(sys, a)
  {
    hide OneCapture, QueuedOnly;
  }

  lemma {:induction false} SingleFlightIsUndisturbed(sys: System, actions: seq<Action>)
    requires Inv(sys) && Calm(sys) && SingleFlight(sys, actions) && ToolsWhileActive(sys, actions)
    ensures Undisturbed(sys, actions)
    decreases |actions|
  {
    hide Inv, Calm, Next, Alone, Disturbs, WhileActive;
    if actions != [] {
      CalmIsUndisturbed(sys, actions[0]);
      NextKeepsInv(sys, actions[0]);
      NextCalm(sys, actions[0]);
      SingleFlightIsUndisturbed(Next(sys, actions[0]), actions[1..]);
    }
  }

  /**
   When no start of a run begins during another's capture, and tools write only for active runs, no
   checkpoint is ever lost: nothing but a tool's write changes a reference.
   */
  lemma SingleFlightLosesNothing(actions: seq<Action>, a: Action, id: string)
    requires SingleFlight(INITIAL, actions) && ToolsWhileActive(INITIAL, actions) && id in Reached(actions).store.runs
    requires !(a.Write? && Saves(a.writer, id))
    ensures id in Next(Reached(actions), a).store.runs
    ensures Next(Reached(actions), a).store.runs[id].checkpointId == Reached(actions).store.runs[id].checkpointId
  {
    hide After, Inv, Next, SingleFlight, ToolsWhileActive, Undisturbed;
    InitialInv();
    NobodyCaptures();
    SingleFlightIsUndisturbed(INITIAL, actions);
    OnlyToolsChangeReferences(actions, a, id);
  }

  lemma NobodyCaptures()
    ensures Calm(INITIAL)
  {
  }

  // ---------- a loss ----------

  /** Two starts of one run; a tool of the first saves a checkpoint, then the second is committed. */
  const LOSS: seq<Action> :=
    [Submit("r"), BeginExecute(1, "r"), BeginExecute(2, "r"), Commit(1, 0), Call(1),
     Write(ToolPhase("r", PhaseStarted)), Write(ToolCheckpoint("r", "c")), Commit(2, 0)]

  /** The tool's checkpoint is the run's, and is gone again. */
  lemma CheckpointLost()
    ensures "r" in Reached(LOSS[..7]).store.runs && Reached(LOSS[..7]).store.runs["r"].checkpointId == Some("c")
    ensures "r" in Reached(LOSS).store.runs && Reached(LOSS).store.runs["r"].checkpointId == None
  {
    hide After, Inv, Next;
    InitialInv();
    var submitted := Next(INITIAL, LOSS[0]);
    var one := Next(submitted, LOSS[1]);
    var two := Next(one, LOSS[2]);
    var started := Next(two, LOSS[3]);
    var called := Next(started, LOSS[4]);
    var waiting := Next(called, LOSS[5]);
    var saved := Next(waiting, LOSS[6]);
    NextKeepsInv(INITIAL, LOSS[0]);
    FirstSubmit("r");
    BeginsCapture(submitted, 1, "r");
    BeginsCapture(one, 2, "r");
    Episodes.Commits(two, 1, 0, "r");
    MakesCall(started, 1);
    ToolWaits(called, "r");
    SavesCheckpoint(waiting, "r", "c");
    Episodes.Commits(saved, 2, 0, "r");
    UnrollLoss();
  }

  lemma SavesCheckpoint(sys: System, id: string, c: string)
    requires Inv(sys) && id in sys.store.runs && id in sys.store.logs
    ensures var sys' := Next(sys, Write(ToolCheckpoint(id, c)));
      && Inv(sys') && sys'.tasks == sys.tasks && sys'.store.logs == sys.store.logs
      && sys'.store.runs == sys.store.runs[id := sys.store.runs[id].(checkpointId := Some(c))]
  {
    hide Inv;
    NextKeepsInv(sys, Write(ToolCheckpoint(id, c)));
  }

  lemma AfterOneMore(sys: System, actions: seq<Action>, a: Action)
    ensures After(sys, actions + [a]) == Next(After(sys, actions), a)
    decreases |actions|
  {
    hide Next;
    if actions == [] {
      assert [] + [a] == [a] && [a][1..] == [];
      assert After(sys, [a]) == After(Next(sys, a), []);
    } else {
      assert (actions + [a])[0] == actions[0] && (actions + [a])[1..] == actions[1..] + [a];
      AfterOneMore(Next(sys, actions[0]), actions[1..], a);
    }
  }

  lemma UnrollLoss()
    ensures Reached(LOSS[..7])
            == Next(Next(Next(Next(Next(Next(Next(INITIAL, LOSS[0]), LOSS[1]), LOSS[2]), LOSS[3]), LOSS[4]), LOSS[5]), LOSS[6])
    ensures Reached(LOSS) == Next(Reached(LOSS[..7]), LOSS[7])
  {
    hide After, Next;
    assert Reached([]) == INITIAL by { NoActions(); }
    assert [] + [LOSS[0]] == LOSS[..1] && LOSS[..1] + [LOSS[1]] == LOSS[..2] && LOSS[..2] + [LOSS[2]] == LOSS[..3];
    assert LOSS[..3] + [LOSS[3]] == LOSS[..4] && LOSS[..4] + [LOSS[4]] == LOSS[..5] && LOSS[..5] + [LOSS[5]] == LOSS[..6];
    assert LOSS[..6] + [LOSS[6]] == LOSS[..7] && LOSS[..7] + [LOSS[7]] == LOSS;
    AfterOneMore(INITIAL, [], LOSS[0]);
    AfterOneMore(INITIAL, LOSS[..1], LOSS[1]);
    AfterOneMore(INITIAL, LOSS[..2], LOSS[2]);
    AfterOneMore(INITIAL, LOSS[..3], LOSS[3]);
    AfterOneMore(INITIAL, LOSS[..4], LOSS[4]);
    AfterOneMore(INITIAL, LOSS[..5], LOSS[5]);
    AfterOneMore(INITIAL, LOSS[..6], LOSS[6]);
    AfterOneMore(INITIAL, LOSS[..7], LOSS[7]);
  }

  lemma NoActions()
    ensures Reached([]) == INITIAL
  {
  }
}
