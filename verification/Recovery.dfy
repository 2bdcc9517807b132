/**
 Recovery after a restart: the decision of src/checkpoints/recovery-decision.ts, the scan of
 src/checkpoints/recovery-service.ts and the executor of src/checkpoints/recovery-executor.ts, which
 decides again before it queues anything.
 */
module Recovery {
  import opened Options
  import opened RunModel
  import opened RunStores
  import opened RunSteps
  import opened Lifecycle

  datatype ToolEffect = ReadOnly | IdempotentWrite | UnknownEffect
  datatype ExecutionStatus = Prepared | ExecutionSucceeded | ExecutionFailed
  datatype ToolExecution = ToolExecution(id: string, runId: string, effect: ToolEffect, status: ExecutionStatus)

  predicate CanAutomaticallyReplay(e: ToolExecution) { e.status.Prepared? && e.effect.ReadOnly? }

  datatype RecoveryAction = AutoResume | ManualReview
  datatype Reason = SafeCheckpoint | NoCheckpoint | UnsafeToolEffect | SessionRefUnreachable
  datatype Decision = Decision(action: RecoveryAction, reason: Reason, blocking: Option<string>)

  /** Whether a runtime session can still be opened; None when no check was injected. */
  type SessionCheck = Option<string -> bool>

  predicate Unreachable(check: SessionCheck, ref: Option<string>) {
    ref.Some? && ref.value != "" && check.Some? && !check.value(ref.value)
  }

  /** The position of the first execution that must not be replayed, or the length. */
  function FirstUnsafe(executions: seq<ToolExecution>): (n: nat)
    ensures n <= |executions|
    ensures forall i :: 0 <= i < n ==> CanAutomaticallyReplay(executions[i])
    ensures n < |executions| ==> !CanAutomaticallyReplay(executions[n])
  {
    if executions == [] || !CanAutomaticallyReplay(executions[0]) then 0 else 1 + FirstUnsafe(executions[1..])
  }

  /** An unsafe effect outranks an unreachable session, which only a non-empty reference can be. */
  function DecideRecovery(checkpoint: Option<Checkpoint>, executions: seq<ToolExecution>, check: SessionCheck): (d: Decision)
    ensures d.action.AutoResume? <==>
            && checkpoint.Some?
            && (forall i :: 0 <= i < |executions| ==> CanAutomaticallyReplay(executions[i]))
            && !Unreachable(check, Some(checkpoint.value.runtimeSessionRef))
    ensures d.reason.SafeCheckpoint? <==> d.action.AutoResume?
    ensures d.blocking.Some? <==> d.reason.UnsafeToolEffect?
  {
    if checkpoint.None? then Decision(ManualReview, NoCheckpoint, None)
    else if FirstUnsafe(executions) < |executions| then
      Decision(ManualReview, UnsafeToolEffect, Some(executions[FirstUnsafe(executions)].id))
    else if Unreachable(check, Some(checkpoint.value.runtimeSessionRef)) then Decision(ManualReview, SessionRefUnreachable, None)
    else Decision(AutoResume, SafeCheckpoint, None)
  }

  // ---------- the scan ----------

  /** The tables the scan reads besides the runs. */
  datatype Tables = Tables(checkpoints: map<string, Checkpoint>, executions: seq<ToolExecution>)

  datatype Plan = Plan(run: AgentRun, checkpoint: Option<Checkpoint>, executions: seq<ToolExecution>, decision: Decision)

  function PreparedFor(executions: seq<ToolExecution>, id: string): (r: seq<ToolExecution>)
    ensures forall e :: e in r <==> e in executions && e.runId == id && e.status.Prepared?
  {
    if executions == [] then []
    else
      var rest := PreparedFor(executions[..|executions| - 1], id);
      var e := executions[|executions| - 1];
      assert executions == executions[..|executions| - 1] + [e];
      if e.runId == id && e.status.Prepared? then rest + [e] else rest
  }

  /** The checkpoint a run names, when it exists and belongs to the run. */
  function ValidCheckpoint(t: Tables, run: AgentRun): (cp: Option<Checkpoint>)
    ensures cp.Some? ==> run.checkpointId.Some? && run.checkpointId.value in t.checkpoints && cp.value.runId == run.id
  {
    if run.checkpointId.None? || run.checkpointId.value !in t.checkpoints
       || t.checkpoints[run.checkpointId.value].runId != run.id
    then None
    else Some(t.checkpoints[run.checkpointId.value])
  }

  function PlanFor(t: Tables, run: AgentRun, check: SessionCheck): Plan {
    var executions := PreparedFor(t.executions, run.id);
    var checkpoint := ValidCheckpoint(t, run);
    Plan(run.(status := Interrupted), checkpoint, executions, DecideRecovery(checkpoint, executions, check))
  }

  /** The active runs in table order. */
  function ListActive(s: StoreState, order: seq<string>): (r: seq<AgentRun>)
    ensures forall run :: run in r ==> Active(run.status)
    ensures forall id :: id in order && id in s.runs && Active(s.runs[id].status) ==> s.runs[id] in r
    ensures forall run :: run in r ==> exists id :: id in order && id in s.runs && s.runs[id] == run
  {
    if order == [] then []
    else
      var id := order[|order| - 1];
      var rest := ListActive(s, order[..|order| - 1]);
      assert order == order[..|order| - 1] + [id];
      if id in s.runs && Active(s.runs[id].status) then rest + [s.runs[id]] else rest
  }

  /** The scan of the listed runs; it stops where a write is refused. */
  datatype Scan = Scan(store: StoreState, plans: seq<Plan>, complete: bool)

  function ScanRuns(s: StoreState, active: seq<AgentRun>, t: Tables, check: SessionCheck): Scan
    decreases |active|
  {
    if active == [] then Scan(s, [], true)
    else
      var run := active[|active| - 1];
      var before := ScanRuns(s, active[..|active| - 1], t, check);
      if !before.complete then before
      else
        match Move(before.store, run.(status := Interrupted), RunInterrupted)
        case Ok(s') => Scan(s', before.plans + [PlanFor(t, run, check)], true)
        case Failure(_) => before.(complete := false)
  }

  class RecoveryService {
    const runs: RunStore
    const tables: Tables
    const check: SessionCheck

    constructor (runs: RunStore, tables: Tables, check: SessionCheck)
      ensures this.runs == runs && this.tables == tables && this.check == check
    {
      this.runs, this.tables, this.check := runs, tables, check;
    }

    method BuildPlan(active: AgentRun) returns (plan: Outcome<Plan>)
      modifies runs
      ensures match Move(old(runs.State()), active.(status := Interrupted), RunInterrupted)
        case Ok(s) => plan == Ok(PlanFor(tables, active, check)) && runs.State() == s
        case Failure(e) => plan == Failure(e) && runs.State() == old(runs.State())
    {
      var executions := PreparedFor(tables.executions, active.id);
      var checkpoint := ValidCheckpoint(tables, active);
      var decision := DecideRecovery(checkpoint, executions, check);
      var interrupted := active.(status := Interrupted);
      var last := runs.GetLastEventSequence(active.id);
      var r := runs.Update(interrupted, RunEvent(active.id, last + 1, RunInterrupted, None));
      plan := if r.Ok? then Ok(Plan(interrupted, checkpoint, executions, decision)) else Failure(r.error);
    }

    method ScanInterruptedRuns(order: seq<string>) returns (plans: seq<Plan>, complete: bool)
      modifies runs
      ensures Scan(runs.State(), plans, complete)
              == ScanRuns(old(runs.State()), ListActive(old(runs.State()), order), tables, check)
    {
      var active := ListActive(runs.State(), order);
      plans, complete := [], true;
      var i := 0;
      while i < |active|
        invariant 0 <= i <= |active| && complete
        invariant Scan(runs.State(), plans, complete) == ScanRuns(old(runs.State()), active[..i], tables, check)
      {
        var plan := BuildPlan(active[i]);
        assert active[..i + 1][..i] == active[..i];
        if plan.Failure? {
          complete := false;
          ScanStops(old(runs.State()), active, i + 1, tables, check);
          return;
        }
        plans := plans + [plan.value];
        i := i + 1;
      }
      assert active[..i] == active;
    }
  }

  lemma {:induction false} ScanStops(s: StoreState, active: seq<AgentRun>, n: nat, t: Tables, check: SessionCheck)
    requires n <= |active| && !ScanRuns(s, active[..n], t, check).complete
    ensures ScanRuns(s, active, t, check) == ScanRuns(s, active[..n], t, check)
    decreases |active|
  {
    if n < |active| {
      assert active[..|active| - 1][..n] == active[..n];
      ScanStops(s, active[..|active| - 1], n, t, check);
    } else {
      assert active[..n] == active;
    }
  }

  // ---------- what the scan leaves ----------

  ghost predicate DistinctRuns(runs: seq<AgentRun>) {
    forall i, j :: 0 <= i < j < |runs| ==> runs[i].id != runs[j].id
  }

  ghost predicate Distinct(ids: seq<string>) {
    forall i, j :: 0 <= i < j < |ids| ==> ids[i] != ids[j]
  }

  /** `order` is the run table's own order. */
  ghost predicate TableOrder(s: StoreState, order: seq<string>) {
    Distinct(order) && forall id :: id in s.runs <==> id in order
  }

  lemma {:induction false} ListedOnce(s: StoreState, order: seq<string>)
    requires Consistent(s) && Distinct(order)
    ensures DistinctRuns(ListActive(s, order))
    ensures forall run :: run in ListActive(s, order) ==> run.id in order && run.id in s.runs && s.runs[run.id] == run
  {
    hide Agree;
    if order != [] {
      var rest, id := order[..|order| - 1], order[|order| - 1];
      assert order == rest + [id];
      ListedOnce(s, rest);
      assert id !in rest;
    }
  }

  /** The scan is a run of restart corrections, and corrects each listed run once. */
  lemma {:induction false} ScanCorrects(s: StoreState, active: seq<AgentRun>, t: Tables, check: SessionCheck)
    requires Consistent(s) && DistinctRuns(active)
    requires forall i :: 0 <= i < |active| ==> active[i].id in s.runs && s.runs[active[i].id] == active[i] && Active(active[i].status)
    ensures var r := ScanRuns(s, active, t, check);
      && r.complete && Consistent(r.store) && r.store.runs.Keys == s.runs.Keys && |r.plans| == |active|
      && (forall i :: 0 <= i < |active| ==> r.plans[i] == PlanFor(t, active[i], check))
      && (forall i :: 0 <= i < |active| ==> r.store.runs[active[i].id] == active[i].(status := Interrupted))
      && (forall id :: id in s.runs && (forall i :: 0 <= i < |active| ==> active[i].id != id) ==> r.store.runs[id] == s.runs[id])
    decreases |active|
  {
    hide Consistent, Move, PlanFor, Advances;
    if active != [] {
      var rest, run := active[..|active| - 1], active[|active| - 1];
      ScanCorrects(s, rest, t, check);
      var before := ScanRuns(s, rest, t, check);
      assert before.store.runs[run.id] == run;
      CorrectionSucceeds(before.store, run);
      var r := ScanRuns(s, active, t, check);
      assert r.store.runs == before.store.runs[run.id := run.(status := Interrupted)];
      assert forall i :: 0 <= i < |rest| ==> active[i] == rest[i];
    }
  }

  lemma CorrectionSucceeds(s: StoreState, run: AgentRun)
    requires Consistent(s) && run.id in s.runs && s.runs[run.id] == run && Active(run.status)
    ensures var r := Move(s, run.(status := Interrupted), RunInterrupted);
      r.Ok? && Consistent(r.value) && r.value.runs == s.runs[run.id := run.(status := Interrupted)]
  {
    RunAgrees(s, run.id);
    hide Consistent, Move, LastSequence;
    MoveAdvances(s, run.(status := Interrupted), RunInterrupted);
  }

  /**
   After the scan no run is RUNNING or WAITING_TOOL: each one that was is INTERRUPTED and otherwise
   as it was, with one plan made from its own checkpoint and its own prepared executions; every other
   run is untouched, and runs and logs still agree.
   */
  lemma ScanLeavesNoneActive(s: StoreState, order: seq<string>, t: Tables, check: SessionCheck)
    requires Consistent(s) && TableOrder(s, order)
    ensures var active := ListActive(s, order);
      var r := ScanRuns(s, active, t, check);
      && r.complete && Consistent(r.store) && r.store.runs.Keys == s.runs.Keys
      && |r.plans| == |active| && (forall i :: 0 <= i < |active| ==> r.plans[i] == PlanFor(t, active[i], check))
      && forall id :: id in s.runs ==>
                        && !Active(r.store.runs[id].status)
                        && r.store.runs[id] == if Active(s.runs[id].status) then s.runs[id].(status := Interrupted) else s.runs[id]
  {
    hide Consistent, PlanFor, ScanRuns;
    var active := ListActive(s, order);
    ListedOnce(s, order);
    ScanCorrects(s, active, t, check);
    var r := ScanRuns(s, active, t, check);
    forall id | id in s.runs
      ensures r.store.runs[id] == if Active(s.runs[id].status) then s.runs[id].(status := Interrupted) else s.runs[id]
    {
      RunAgrees(s, id);
      if Active(s.runs[id].status) {
        assert s.runs[id] in active;
      }
    }
  }

  // ---------- the executor ----------

  datatype Verdict = QueuedAgain | LeftToReview | MissingCheckpoint | SubmitFailed

  /** What the executor decides about a plan, whatever the plan itself says. */
  function Redecide(plan: Plan, check: SessionCheck): RecoveryAction {
    if plan.decision.action.AutoResume? then DecideRecovery(plan.checkpoint, plan.executions, check).action
    else ManualReview
  }

  /**
   One plan: leave it to review with an audit entry, or hand it to the scheduler, which first queues
   the run and may then still refuse to take it (`accepts`).
   */
  function ExecutePlan(s: StoreState, plan: Plan, check: SessionCheck, accepts: string -> bool): (StoreState, Verdict) {
    if Redecide(plan, check).ManualReview? then
      (Stored(s, AuditManualReview(s, plan.run.id)), LeftToReview)
    else if plan.checkpoint.None? then
      (s, MissingCheckpoint)
    else
      match RunSteps.QueueResume(s, plan.run.id, plan.checkpoint.value)
      case Ok(s') => (s', if accepts(plan.run.id) then QueuedAgain else SubmitFailed)
      case Failure(_) => (s, SubmitFailed)
  }

  function ExecutePlans(s: StoreState, plans: seq<Plan>, check: SessionCheck, accepts: string -> bool): (StoreState, seq<Verdict>)
    decreases |plans|
  {
    if plans == [] then (s, [])
    else
      var before := ExecutePlans(s, plans[..|plans| - 1], check, accepts);
      var one := ExecutePlan(before.0, plans[|plans| - 1], check, accepts);
      (one.0, before.1 + [one.1])
  }

  class RecoveryExecutor {
    const runs: RunStore
    const check: SessionCheck

    constructor (runs: RunStore, check: SessionCheck)
      ensures this.runs == runs && this.check == check
    {
      this.runs, this.check := runs, check;
    }

    method Execute(plans: seq<Plan>, accepts: string -> bool) returns (results: seq<Verdict>)
      modifies runs
      ensures (runs.State(), results) == ExecutePlans(old(runs.State()), plans, check, accepts)
    {
      results := [];
      for i := 0 to |plans|
        invariant (runs.State(), results) == ExecutePlans(old(runs.State()), plans[..i], check, accepts)
      {
        var result := ExecuteOne(plans[i], accepts);
        results := results + [result];
        assert plans[..i + 1][..i] == plans[..i];
      }
      assert plans[..|plans|] == plans;
    }

    method ExecuteOne(plan: Plan, accepts: string -> bool) returns (result: Verdict)
      modifies runs
      ensures (runs.State(), result) == ExecutePlan(old(runs.State()), plan, check, accepts)
    {
      var action := plan.decision.action;
      if action.AutoResume? {
        action := DecideRecovery(plan.checkpoint, plan.executions, check).action;
      }
      if action.ManualReview? {
        Audit(plan.run.id);
        return LeftToReview;
      }
      if plan.checkpoint.None? {
        return MissingCheckpoint;
      }
      var queued := SubmitResume(plan.run.id, plan.checkpoint.value);
      result := if queued && accepts(plan.run.id) then QueuedAgain else SubmitFailed;
    }

    /** The manual review callback; an error in it is only logged. */
    method Audit(id: string)
      modifies runs
      ensures runs.State() == Stored(old(runs.State()), AuditManualReview(old(runs.State()), id))
    {
      var run := runs.Get(id);
      if run.Some? && run.value.status.Interrupted? {
        var last := runs.GetLastEventSequence(id);
        var _ := runs.Append(RunEvent(id, last + 1, RunInterrupted, None));
      }
    }

    method SubmitResume(id: string, cp: Checkpoint) returns (queued: bool)
      modifies runs
      ensures queued == RunSteps.QueueResume(old(runs.State()), id, cp).Ok?
      ensures runs.State() == Stored(old(runs.State()), RunSteps.QueueResume(old(runs.State()), id, cp))
    {
      var run := runs.Get(id);
      if run.None? || !run.value.status.Interrupted? || cp.runId != id || run.value.checkpointId != Some(cp.id) {
        return false;
      }
      var next := run.value.(status := Queued);
      var last := runs.GetLastEventSequence(next.id);
      var r := runs.Update(next, RunEvent(next.id, last + 1, RunQueued, None));
      queued := r.Ok?;
    }
  }

  // ---------- what the executor may queue ----------

  /** A plan that justifies queueing its run out of state `s`. */
  predicate Justifies(s: StoreState, plan: Plan, check: SessionCheck) {
    && plan.run.id in s.runs && s.runs[plan.run.id].status.Interrupted?
    && plan.checkpoint.Some? && plan.checkpoint.value.runId == plan.run.id
    && s.runs[plan.run.id].checkpointId == Some(plan.checkpoint.value.id)
    && (forall i :: 0 <= i < |plan.executions| ==> CanAutomaticallyReplay(plan.executions[i]))
    && !Unreachable(check, Some(plan.checkpoint.value.runtimeSessionRef))
  }

  /** One plan queues at most its own run, and only when it justifies that. */
  lemma PlanIsSafe(s: StoreState, plan: Plan, check: SessionCheck, accepts: string -> bool)
    requires Consistent(s)
    ensures var r := ExecutePlan(s, plan, check, accepts);
      && Consistent(r.0) && !r.1.MissingCheckpoint?
      && r.0.runs == (if Justifies(s, plan, check) && plan.decision.action.AutoResume?
                      then s.runs[plan.run.id := s.runs[plan.run.id].(status := Queued)] else s.runs)
      && (r.1.LeftToReview? <==> Redecide(plan, check).ManualReview?)
      && (r.1.QueuedAgain? <==> Justifies(s, plan, check) && plan.decision.action.AutoResume? && accepts(plan.run.id))
  {
    hide Consistent, Move, LastSequence, LogOf, UpdateRun, AppendEvent;
    var id := plan.run.id;
    if id in s.runs {
      RunAgrees(s, id);
      var run := s.runs[id];
      if Redecide(plan, check).ManualReview? {
        if run.status.Interrupted? {
          AppendAdvances(s, id, RunInterrupted, None);
        }
      } else if run.status.Interrupted? {
        MoveAdvances(s, run.(status := Queued), RunQueued);
      }
    }
  }

  /** Executing plans changes only the status of runs, from INTERRUPTED to QUEUED. */
  predicate OnlyQueues(s: StoreState, s': StoreState) {
    && s'.runs.Keys == s.runs.Keys
    && forall id :: id in s.runs ==>
                      || s'.runs[id] == s.runs[id]
                      || (s.runs[id].status.Interrupted? && s'.runs[id] == s.runs[id].(status := Queued))
  }

  lemma JustifiedBefore(s: StoreState, s': StoreState, plan: Plan, check: SessionCheck)
    requires OnlyQueues(s, s') && Justifies(s', plan, check)
    ensures Justifies(s, plan, check)
  {
  }

  /**
   Every run the executor queues has a plan with its own matching checkpoint, replayable executions
   only and, when a check is injected, a reachable session, whatever the plans claim. No plan ends in
   the missing-checkpoint branch.
   */
  lemma {:induction false} ExecutorQueuesOnlySafeRuns(s: StoreState, plans: seq<Plan>, check: SessionCheck, accepts: string -> bool)
    requires Consistent(s)
    ensures var r := ExecutePlans(s, plans, check, accepts);
      && Consistent(r.0) && OnlyQueues(s, r.0) && |r.1| == |plans| && MissingCheckpoint !in r.1
      && (forall id :: id in s.runs && r.0.runs[id] != s.runs[id] ==>
                         exists i :: 0 <= i < |plans| && plans[i].run.id == id && Justifies(s, plans[i], check))
      && (forall i :: 0 <= i < |plans| && r.1[i].QueuedAgain? ==> Justifies(s, plans[i], check))
    decreases |plans|
  {
    hide Consistent, ExecutePlan, Justifies;
    if plans != [] {
      var rest, plan := plans[..|plans| - 1], plans[|plans| - 1];
      ExecutorQueuesOnlySafeRuns(s, rest, check, accepts);
      var before := ExecutePlans(s, rest, check, accepts);
      PlanIsSafe(before.0, plan, check, accepts);
      assert forall i :: 0 <= i < |rest| ==> rest[i] == plans[i];
      StepQueuesOnly(s, before.0, plan, check, ExecutePlan(before.0, plan, check, accepts).0);
      QueuedByPlan(s, plans, check, before.0, ExecutePlan(before.0, plan, check, accepts).0);
      hide OnlyQueues;
    }
  }

  lemma StepQueuesOnly(s: StoreState, before: StoreState, plan: Plan, check: SessionCheck, after: StoreState)
    requires OnlyQueues(s, before)
    requires after.runs == (if Justifies(before, plan, check) && plan.decision.action.AutoResume?
                            then before.runs[plan.run.id := before.runs[plan.run.id].(status := Queued)] else before.runs)
    ensures OnlyQueues(s, after)
    ensures Justifies(before, plan, check) ==> Justifies(s, plan, check)
  {
    if Justifies(before, plan, check) {
      JustifiedBefore(s, before, plan, check);
    }
  }

  lemma QueuedByPlan(s: StoreState, plans: seq<Plan>, check: SessionCheck, before: StoreState, after: StoreState)
    requires |plans| > 0 && OnlyQueues(s, before) && after.runs.Keys == s.runs.Keys
    requires var plan := plans[|plans| - 1];
      && (after.runs == before.runs || (plan.run.id in before.runs && Justifies(s, plan, check)
                                        && after.runs == before.runs[plan.run.id := before.runs[plan.run.id].(status := Queued)]))
    requires forall id :: id in s.runs && before.runs[id] != s.runs[id] ==>
                            exists i :: 0 <= i < |plans| - 1 && plans[i].run.id == id && Justifies(s, plans[i], check)
    ensures forall id :: id in s.runs && after.runs[id] != s.runs[id] ==>
                           exists i :: 0 <= i < |plans| && plans[i].run.id == id && Justifies(s, plans[i], check)
  {
    hide Justifies;
    forall id | id in s.runs && after.runs[id] != s.runs[id]
      ensures exists i :: 0 <= i < |plans| && plans[i].run.id == id && Justifies(s, plans[i], check)
    {
      if before.runs[id] == s.runs[id] {
        assert plans[|plans| - 1].run.id == id;
      }
    }
  }

  // ---------- restart as a whole ----------

  /** Plans as the scan made them, but for decisions that may have been rewritten on the way. */
  predicate Rewritten(plans: seq<Plan>, scanned: seq<Plan>) {
    |plans| == |scanned| && forall i :: 0 <= i < |plans| ==> plans[i] == scanned[i].(decision := plans[i].decision)
  }

  /** What entitles a run to be queued again, in terms of the tables alone. */
  ghost predicate SafelyQueued(s: StoreState, id: string, t: Tables, check: SessionCheck)
    requires id in s.runs
  {
    && Active(s.runs[id].status)
    && ValidCheckpoint(t, s.runs[id]).Some?
    && !Unreachable(check, Some(ValidCheckpoint(t, s.runs[id]).value.runtimeSessionRef))
    && forall e :: e in t.executions && e.runId == id && e.status.Prepared? ==> e.effect.ReadOnly?
  }

  lemma QueuedSafely(
      s: StoreState, order: seq<string>, t: Tables, check: SessionCheck, scanned: StoreState, active: seq<AgentRun>, i: nat, plan: Plan)
    requires Consistent(s) && active == ListActive(s, order) && i < |active|
    requires plan == PlanFor(t, active[i], check).(decision := plan.decision)
    requires Justifies(scanned, plan, check)
    ensures plan.run.id in s.runs && SafelyQueued(s, plan.run.id, t, check)
  {
    hide ListActive, ValidCheckpoint, Unreachable;
    assert active[i] in active;
    var id :| id in order && id in s.runs && s.runs[id] == active[i];
    RunAgrees(s, id);
    hide Consistent;
    ReplayableOnly(t, id);
  }

  /**
   Scan and execution together: afterwards no run is active, and a run went from active to QUEUED
   only if the checkpoint it names exists, is its own and can be reached, and every execution the
   tool table still holds as PREPARED for it is READ_ONLY, even when the plans were rewritten.
   */
  lemma RestartIsSafe(
      s: StoreState, order: seq<string>, t: Tables, check: SessionCheck, plans: seq<Plan>, accepts: string -> bool)
    requires Consistent(s) && TableOrder(s, order)
    requires Rewritten(plans, ScanRuns(s, ListActive(s, order), t, check).plans)
    ensures var r := ExecutePlans(ScanRuns(s, ListActive(s, order), t, check).store, plans, check, accepts);
      && Consistent(r.0) && r.0.runs.Keys == s.runs.Keys && MissingCheckpoint !in r.1
      && (forall id :: id in s.runs ==> !Active(r.0.runs[id].status))
      && (forall id :: id in s.runs && !Active(s.runs[id].status) ==> r.0.runs[id] == s.runs[id])
      && (forall id :: id in s.runs && Active(s.runs[id].status) && r.0.runs[id].status.Queued? ==>
                         SafelyQueued(s, id, t, check))
  {
    hide Consistent, ScanRuns, ExecutePlans, ValidCheckpoint, Unreachable, PlanFor, Justifies, ListActive;
    ScanLeavesNoneActive(s, order, t, check);
    var active := ListActive(s, order);
    var scan := ScanRuns(s, active, t, check);
    ExecutorQueuesOnlySafeRuns(scan.store, plans, check, accepts);
    var r := ExecutePlans(scan.store, plans, check, accepts);
    hide *;
    forall id | id in s.runs && r.0.runs[id] != scan.store.runs[id]
      ensures SafelyQueued(s, id, t, check)
    {
      var i :| 0 <= i < |plans| && plans[i].run.id == id && Justifies(scan.store, plans[i], check);
      QueuedSafely(s, order, t, check, scan.store, active, i, plans[i]);
    }
  }

  lemma ReplayableOnly(t: Tables, id: string)
    requires forall i :: 0 <= i < |PreparedFor(t.executions, id)| ==> CanAutomaticallyReplay(PreparedFor(t.executions, id)[i])
    ensures forall e :: e in t.executions && e.runId == id && e.status.Prepared? ==> e.effect.ReadOnly?
  {
    forall e | e in t.executions && e.runId == id && e.status.Prepared?
      ensures e.effect.ReadOnly?
    {
      assert e in PreparedFor(t.executions, id);
    }
  }

  // ---------- and queues every run that may be ----------

  /** What the executor queues: a plan that asks for it and justifies it. */
  predicate Goes(s: StoreState, plan: Plan, check: SessionCheck) {
    Justifies(s, plan, check) && plan.decision.action.AutoResume?
  }

  ghost predicate OwnRuns(s: StoreState, plans: seq<Plan>) {
    && (forall i :: 0 <= i < |plans| ==> plans[i].run.id in s.runs)
    && forall i, j :: 0 <= i < j < |plans| ==> plans[i].run.id != plans[j].run.id
  }

  lemma SameRunSameAnswer(s: StoreState, s': StoreState, plan: Plan, check: SessionCheck)
    requires plan.run.id in s.runs && plan.run.id in s'.runs && s'.runs[plan.run.id] == s.runs[plan.run.id]
    ensures Goes(s', plan, check) <==> Goes(s, plan, check)
  {
  }

  /** With one plan a run, each run is queued exactly when its plan goes, and taken up when the scheduler accepts it. */
  lemma {:induction false} ExecutorQueuesEach(s: StoreState, plans: seq<Plan>, check: SessionCheck, accepts: string -> bool)
    requires Consistent(s) && OwnRuns(s, plans)
    ensures var r := ExecutePlans(s, plans, check, accepts);
      && Consistent(r.0) && r.0.runs.Keys == s.runs.Keys && |r.1| == |plans|
      && (forall i :: 0 <= i < |plans| ==>
            && r.0.runs[plans[i].run.id]
               == (if Goes(s, plans[i], check) then s.runs[plans[i].run.id].(status := Queued) else s.runs[plans[i].run.id])
            && (r.1[i].QueuedAgain? <==> Goes(s, plans[i], check) && accepts(plans[i].run.id)))
      && (forall id :: id in s.runs && (forall i :: 0 <= i < |plans| ==> plans[i].run.id != id) ==> r.0.runs[id] == s.runs[id])
    decreases |plans|
  {
    hide Consistent, ExecutePlan, Goes;
    if plans != [] {
      var rest, plan := plans[..|plans| - 1], plans[|plans| - 1];
      assert forall i :: 0 <= i < |rest| ==> rest[i] == plans[i];
      ExecutorQueuesEach(s, rest, check, accepts);
      var before := ExecutePlans(s, rest, check, accepts);
      OnePlanGoes(before.0, plan, check, accepts);
      SameRunSameAnswer(s, before.0, plan, check);
    }
  }

  lemma OnePlanGoes(s: StoreState, plan: Plan, check: SessionCheck, accepts: string -> bool)
    requires Consistent(s) && plan.run.id in s.runs
    ensures var r := ExecutePlan(s, plan, check, accepts);
      && Consistent(r.0)
      && r.0.runs == (if Goes(s, plan, check) then s.runs[plan.run.id := s.runs[plan.run.id].(status := Queued)] else s.runs)
      && (r.1.QueuedAgain? <==> Goes(s, plan, check) && accepts(plan.run.id))
  {
    hide Consistent, ExecutePlan, Justifies;
    PlanIsSafe(s, plan, check, accepts);
  }

  /** The plan the scan makes for a run goes exactly when the tables entitle the run. */
  lemma GoesIffSafe(s: StoreState, t: Tables, check: SessionCheck, run: AgentRun, scanned: StoreState)
    requires run.id in s.runs && s.runs[run.id] == run && Active(run.status)
    requires run.id in scanned.runs && scanned.runs[run.id] == run.(status := Interrupted)
    requires forall c :: c in t.checkpoints ==> t.checkpoints[c].id == c
    ensures Goes(scanned, PlanFor(t, run, check), check) <==> SafelyQueued(s, run.id, t, check)
  {
    hide Unreachable;
    if Goes(scanned, PlanFor(t, run, check), check) {
      ReplayableOnly(t, run.id);
    }
    if SafelyQueued(s, run.id, t, check) {
      var executions := PreparedFor(t.executions, run.id);
      forall i | 0 <= i < |executions|
        ensures CanAutomaticallyReplay(executions[i])
      {
        assert executions[i] in executions;
      }
    }
  }

  /**
   A restart with the plans as they were scanned queues a run again exactly when the tables entitle it,
   and reports it as queued exactly when the scheduler accepts it too.
   */
  lemma RestartQueuesExactly(s: StoreState, order: seq<string>, t: Tables, check: SessionCheck, accepts: string -> bool)
    requires Consistent(s) && TableOrder(s, order)
    requires forall c :: c in t.checkpoints ==> t.checkpoints[c].id == c
    ensures var active := ListActive(s, order);
      var scan := ScanRuns(s, active, t, check);
      var r := ExecutePlans(scan.store, scan.plans, check, accepts);
      && r.0.runs.Keys == s.runs.Keys && |r.1| == |active|
      && forall i :: 0 <= i < |active| ==>
                       && active[i].id in s.runs
                       && (r.0.runs[active[i].id].status.Queued? <==> SafelyQueued(s, active[i].id, t, check))
                       && (r.1[i].QueuedAgain? <==> SafelyQueued(s, active[i].id, t, check) && accepts(active[i].id))
  {
    hide Consistent, ScanRuns, ExecutePlans, PlanFor, ListActive, SafelyQueued, Goes;
    var active := ListActive(s, order);
    ListedOnce(s, order);
    ScanLeavesNoneActive(s, order, t, check);
    var scan := ScanRuns(s, active, t, check);
    assert forall i :: 0 <= i < |active| ==> scan.plans[i].run.id == active[i].id by { PlansName(t, check, active, scan.plans); }
    assert OwnRuns(scan.store, scan.plans) by { EachListed(s, order, active); }
    ExecutorQueuesEach(scan.store, scan.plans, check, accepts);
    EachListed(s, order, active);
    forall i | 0 <= i < |active|
      ensures Goes(scan.store, scan.plans[i], check) <==> SafelyQueued(s, active[i].id, t, check)
    {
      GoesIffSafe(s, t, check, active[i], scan.store);
    }
  }

  lemma PlansName(t: Tables, check: SessionCheck, active: seq<AgentRun>, plans: seq<Plan>)
    requires |plans| == |active| && forall i :: 0 <= i < |active| ==> plans[i] == PlanFor(t, active[i], check)
    ensures forall i :: 0 <= i < |active| ==> plans[i].run.id == active[i].id
  {
  }

  lemma EachListed(s: StoreState, order: seq<string>, active: seq<AgentRun>)
    requires Consistent(s) && active == ListActive(s, order) && Distinct(order)
    ensures forall i :: 0 <= i < |active| ==>
                          active[i].id in s.runs && s.runs[active[i].id] == active[i] && Active(active[i].status)
  {
    hide Consistent, ListActive;
    ListedOnce(s, order);
    forall i | 0 <= i < |active|
      ensures active[i].id in s.runs && s.runs[active[i].id] == active[i] && Active(active[i].status)
    {
      assert active[i] in active;
    }
  }
}
