/** Why a run is left to review, which execution blocks it, and what the log says of it afterwards. */
module RecoveryReasons {
  import opened Options
  import opened RunModel
  import opened RunStores
  import opened RunSteps
  import opened Recovery

  // ---------- the decision ----------

  predicate Replayable(e: ToolExecution) { e.status == Prepared && e.effect == ReadOnly }

  /** Position k holds the first execution that must not be replayed. */
  predicate FirstBlocking(executions: seq<ToolExecution>, k: nat) {
    k < |executions| && !Replayable(executions[k]) && forall i :: 0 <= i < k ==> Replayable(executions[i])
  }

  predicate CannotOpen(check: SessionCheck, cp: Checkpoint) {
    match check
    case None => false
    case Some(opens) => cp.runtimeSessionRef != "" && !opens(cp.runtimeSessionRef)
  }

  /** The reasons in order of rank: no checkpoint, the first unsafe execution, a session that cannot be opened. */
  lemma DecisionExactly(checkpoint: Option<Checkpoint>, executions: seq<ToolExecution>, check: SessionCheck)
    ensures var d := DecideRecovery(checkpoint, executions, check);
      var unsafe := exists k: nat :: FirstBlocking(executions, k);
      && (d == Decision(ManualReview, NoCheckpoint, None) <==> checkpoint.None?)
      && (d.reason == UnsafeToolEffect <==> checkpoint.Some? && unsafe)
      && (d.reason == UnsafeToolEffect ==>
            d.action == ManualReview && exists k: nat :: FirstBlocking(executions, k) && d.blocking == Some(executions[k].id))
      && (d == Decision(ManualReview, SessionRefUnreachable, None) <==> checkpoint.Some? && !unsafe && CannotOpen(check, checkpoint.value))
      && (d == Decision(AutoResume, SafeCheckpoint, None) <==> checkpoint.Some? && !unsafe && !CannotOpen(check, checkpoint.value))
  {
    var n := FirstUnsafe(executions);
    if n < |executions| {
      assert FirstBlocking(executions, n);
    }
    if k: nat :| FirstBlocking(executions, k) {
      assert n <= k;
    }
  }

  // ---------- by the tables ----------

  /** Row k of the tool table is the first prepared execution of the run that is not READ_ONLY. */
  predicate BlocksRun(rows: seq<ToolExecution>, id: string, k: nat) {
    && k < |rows| && rows[k].runId == id && rows[k].status == Prepared && rows[k].effect != ReadOnly
    && forall i :: 0 <= i < k && rows[i].runId == id && rows[i].status == Prepared ==> rows[i].effect == ReadOnly
  }

  predicate OwnCheckpoint(t: Tables, run: AgentRun) {
    run.checkpointId.Some? && run.checkpointId.value in t.checkpoints && t.checkpoints[run.checkpointId.value].runId == run.id
  }

  lemma EarlierBlocks(rows: seq<ToolExecution>, id: string, n: nat, r: nat)
    requires n <= |rows| && BlocksRun(rows[..n], id, r)
    ensures r < n && BlocksRun(rows, id, r) && rows[r] == rows[..n][r]
  {
  }

  lemma LastBlocks(rows: seq<ToolExecution>, id: string, n: nat)
    requires n < |rows| && rows[n].runId == id && rows[n].status == Prepared && rows[n].effect != ReadOnly
    requires forall i :: 0 <= i < |PreparedFor(rows[..n], id)| ==> Replayable(PreparedFor(rows[..n], id)[i])
    ensures BlocksRun(rows, id, n)
  {
    var rest := PreparedFor(rows[..n], id);
    forall i | 0 <= i < n && rows[i].runId == id && rows[i].status == Prepared
      ensures rows[i].effect == ReadOnly
    {
      assert rows[..n][i] in rest;
      var j :| 0 <= j < |rest| && rest[j] == rows[..n][i];
    }
    hide PreparedFor;
  }

  lemma {:induction false} PreparedInOrder(rows: seq<ToolExecution>, id: string, k: nat) returns (r: nat)
    requires FirstBlocking(PreparedFor(rows, id), k)
    ensures BlocksRun(rows, id, r) && r < |rows| && rows[r] == PreparedFor(rows, id)[k]
    decreases |rows|
  {
    var n := |rows| - 1;
    var rest, all := PreparedFor(rows[..n], id), PreparedFor(rows, id);
    assert rest <= all && (|all| > |rest| ==> all[|rest|] == rows[n] && |all| == |rest| + 1 && rows[n].runId == id && rows[n].status == Prepared);
    hide PreparedFor, BlocksRun;
    if k < |rest| {
      r := PreparedInOrder(rows[..n], id, k);
      EarlierBlocks(rows, id, n, r);
    } else {
      r := n;
      LastBlocks(rows, id, n);
    }
  }

  lemma NoneBlocks(rows: seq<ToolExecution>, id: string, r: nat)
    requires BlocksRun(rows, id, r)
    ensures exists k: nat :: FirstBlocking(PreparedFor(rows, id), k)
  {
    var ps := PreparedFor(rows, id);
    assert rows[r] in ps;
    var j :| 0 <= j < |ps| && ps[j] == rows[r];
    assert FirstBlocking(ps, FirstUnsafe(ps));
  }

  lemma OneRowBlocks(rows: seq<ToolExecution>, id: string, r: nat, q: nat)
    requires BlocksRun(rows, id, r) && BlocksRun(rows, id, q)
    ensures r == q
  {
  }

  /**
   What the scan decides about a run, by the tables: no checkpoint of its own; or the first of its prepared
   executions that is not READ_ONLY, by name; or a session that cannot be opened; or to resume.
   */
  lemma PlanExactly(t: Tables, run: AgentRun, check: SessionCheck)
    ensures var d := PlanFor(t, run, check).decision;
      var unsafe := exists r: nat :: BlocksRun(t.executions, run.id, r);
      && (d == Decision(ManualReview, NoCheckpoint, None) <==> !OwnCheckpoint(t, run))
      && (forall r: nat :: BlocksRun(t.executions, run.id, r) && OwnCheckpoint(t, run) ==>
                        d == Decision(ManualReview, UnsafeToolEffect, Some(t.executions[r].id)))
      && (d == Decision(ManualReview, SessionRefUnreachable, None)
          <==> OwnCheckpoint(t, run) && !unsafe && CannotOpen(check, t.checkpoints[run.checkpointId.value]))
      && (d == Decision(AutoResume, SafeCheckpoint, None)
          <==> OwnCheckpoint(t, run) && !unsafe && !CannotOpen(check, t.checkpoints[run.checkpointId.value]))
  {
    hide DecideRecovery, PreparedFor, FirstBlocking, BlocksRun, CannotOpen;
    var ps := PreparedFor(t.executions, run.id);
    DecisionExactly(ValidCheckpoint(t, run), ps, check);
    if r: nat :| BlocksRun(t.executions, run.id, r) {
      NoneBlocks(t.executions, run.id, r);
    }
    forall k: nat | FirstBlocking(ps, k)
      ensures k < |ps|
      ensures exists r: nat :: BlocksRun(t.executions, run.id, r) && r < |t.executions| && t.executions[r] == ps[k]
    {
      InPlace(ps, k);
      var r := PreparedInOrder(t.executions, run.id, k);
    }
    forall r: nat | BlocksRun(t.executions, run.id, r)
      ensures r < |t.executions|
    {
      RowThere(t.executions, run.id, r);
    }
    forall r: nat, q: nat | BlocksRun(t.executions, run.id, r) && BlocksRun(t.executions, run.id, q)
      ensures r == q
    {
      OneRowBlocks(t.executions, run.id, r, q);
    }
  }

  lemma InPlace(executions: seq<ToolExecution>, k: nat)
    requires FirstBlocking(executions, k)
    ensures k < |executions|
  {
  }

  lemma RowThere(rows: seq<ToolExecution>, id: string, r: nat)
    requires BlocksRun(rows, id, r)
    ensures r < |rows|
  {
  }

  // ---------- what the executor writes ----------

  /** The plan is left to review: it says so itself, or deciding again says so. */
  predicate LeftToReviewer(plan: Plan, check: SessionCheck) {
    || plan.decision.action == ManualReview || plan.checkpoint.None?
    || (exists k :: 0 <= k < |plan.executions| && !Replayable(plan.executions[k])) || CannotOpen(check, plan.checkpoint.value)
  }

  predicate QueuesItsRun(s: StoreState, plan: Plan, check: SessionCheck) {
    && !LeftToReviewer(plan, check) && plan.run.id in s.runs && s.runs[plan.run.id].status == Interrupted
    && plan.checkpoint.value.runId == plan.run.id && s.runs[plan.run.id].checkpointId == Some(plan.checkpoint.value.id)
  }

  /**
   One plan writes at most one event, for its own run: RUN_QUEUED when the run goes back to the queue,
   another RUN_INTERRUPTED when an interrupted run is left to review, and otherwise nothing.
   */
  lemma PlanWrites(s: StoreState, plan: Plan, check: SessionCheck, accepts: string -> bool)
    requires Consistent(s)
    ensures var id, s' := plan.run.id, ExecutePlan(s, plan, check, accepts).0;
      if QueuesItsRun(s, plan, check) then
        && id in s.logs && s'.runs == s.runs[id := s.runs[id].(status := Queued)]
        && s'.logs == s.logs[id := s.logs[id] + [RunEvent(id, |s.logs[id]| + 1, RunQueued, None)]]
      else if LeftToReviewer(plan, check) && id in s.runs && s.runs[id].status == Interrupted then
        && id in s.logs && s'.runs == s.runs
        && s'.logs == s.logs[id := s.logs[id] + [RunEvent(id, |s.logs[id]| + 1, RunInterrupted, None)]]
      else s' == s
  {
    hide Consistent, Move, LastSequence, LogOf, UpdateRun, AppendEvent, DecideRecovery;
    var id := plan.run.id;
    RedecidedExactly(plan, check);
    if id in s.runs && s.runs[id].status == Interrupted {
      RunAgrees(s, id);
      NextSequenceFits(s, id);
      AppendAdvances(s, id, RunInterrupted, None);
      MoveAdvances(s, s.runs[id].(status := Queued), RunQueued);
      LogsOnly(s, AppendEvent(s, NextEvent(s, id, RunInterrupted, None)).value, id, false);
      LogsOnly(s, Move(s, s.runs[id].(status := Queued), RunQueued).value, id, false);
    }
  }

  lemma LogsOnly(s: StoreState, s': StoreState, id: string, launch: bool)
    requires Advances(s, s', id, launch)
    ensures id in s.runs && id in s.logs && id in s'.runs && id in s'.logs
    ensures s'.runs == s.runs[id := s'.runs[id]] && s'.logs == s.logs[id := s'.logs[id]]
  {
  }

  lemma RedecidedExactly(plan: Plan, check: SessionCheck)
    ensures Redecide(plan, check) == ManualReview <==> LeftToReviewer(plan, check)
  {
  }
}
