/**
 ManagedAgentRuntime of src/runtime/managed-agent-runtime.ts over the two stores: the stretches of
 `execute` between its awaits and the sandbox failure callback, each of them a step of Slots.
 */
module ManagedRuntime {
  import opened Instances
  import opened Slots
  import SlotTheorems

  class ManagedAgentRuntime {
    const instances: HarnessInstanceStore
    const attempts: RunAttemptStore
    var activeBySandboxId: map<nat, string>
    ghost var model: System

    /** The stores hold what the model says, and the callback knows the running executions. */
    ghost predicate Valid()
      reads this, instances, attempts
    {
      && model.mode.Up? && Inv(model)
      && instances.rows == model.instances && attempts.rows == model.attempts
      && activeBySandboxId.Keys == (set e | e in model.execs && model.execs[e].phase.Running?)
      && forall e :: e in activeBySandboxId ==> activeBySandboxId[e] == model.execs[e].instance
    }

    constructor (instances: HarnessInstanceStore, attempts: RunAttemptStore)
      requires instances.rows == map[] && attempts.rows == []
      ensures Valid() && model == INITIAL && this.instances == instances && this.attempts == attempts
    {
      this.instances, this.attempts := instances, attempts;
      activeBySandboxId := map[];
      model := INITIAL;
    }

    method CreateAttempt(runId: string, instance: string) returns (e: nat)
      requires Valid() && instance in instances.rows
      modifies this, attempts
      ensures Valid() && e == |old(model).attempts| && model == Next(old(model), Admit(runId, instance))
    {
      hide Inv, Next, MaxNumber;
      SlotTheorems.NextKeepsInv(model, Admit(runId, instance));
      assert |model.attempts| !in model.execs by { KnownAttempts(model); }
      e := attempts.Create(runId, instance);
      AdmitIs(model, runId, instance);
      model := Next(model, Admit(runId, instance));
    }

    /** A capability or policy the runtime lacks. */
    method RejectAttempt(e: nat)
      requires Valid() && At(model, e, Preparing)
      modifies this, attempts
      ensures Valid() && model == Next(old(model), Reject(e))
    {
      hide Inv;
      SlotTheorems.NextKeepsInv(model, Reject(e));
      AttemptFits(model, e);
      var ok := attempts.UpdateStatus(e, Rejected, Pending);
      model := Next(model, Reject(e));
    }

    /** The slot comes before the sandbox; without one nothing else is created. */
    method AcquireSlot(e: nat, instance: string) returns (ok: bool)
      requires Valid() && At(model, e, Preparing) && model.execs[e].instance == instance
      modifies this, instances
      ensures Valid() && model == Next(old(model), Action.Acquire(e)) && ok == At(model, e, Creating)
    {
      hide Inv;
      SlotTheorems.NextKeepsInv(model, Action.Acquire(e));
      ok := instances.Acquire(instance);
      model := Next(model, Action.Acquire(e));
    }

    /** The provider gave no sandbox. */
    method SandboxFailed(e: nat, instance: string)
      requires Valid() && At(model, e, Creating) && model.execs[e].instance == instance
      modifies this, instances, attempts
      ensures Valid() && model == Next(old(model), SandboxRefused(e))
    {
      hide Inv, ReleaseRun;
      SlotTheorems.NextKeepsInv(model, SandboxRefused(e));
      AttemptFits(model, e);
      var released := instances.Release(instance);
      var updated := attempts.UpdateStatus(e, Failed, Pending);
      model := Next(model, SandboxRefused(e));
    }

    /** The sandbox is there: the attempt starts, the callback learns of it, the runtime is invoked. */
    method SandboxCreated(e: nat, instance: string)
      requires Valid() && At(model, e, Acquired) && model.execs[e].instance == instance
      modifies this, attempts
      ensures Valid() && model == Next(old(model), Invoke(e)) && At(model, e, Running)
    {
      hide Inv;
      SlotTheorems.NextKeepsInv(model, Invoke(e));
      AttemptFits(model, e);
      var ok := attempts.UpdateStatus(e, InProgress, Pending);
      activeBySandboxId := activeBySandboxId[e := instance];
      model := Next(model, Invoke(e));
    }

    /** The invocation returned or threw: finish an attempt that is still running, forget the sandbox. */
    method InvocationEnded(e: nat, status: AttemptStatus)
      requires Valid() && At(model, e, Running) && !Open(status)
      modifies this, attempts
      ensures Valid() && model == Next(old(model), InvokeEnds(e, status))
    {
      hide Inv;
      SlotTheorems.NextKeepsInv(model, InvokeEnds(e, status));
      AttemptFits(model, e);
      var ok := attempts.UpdateStatus(e, status, InProgress);
      activeBySandboxId := activeBySandboxId - {e};
      model := Next(model, InvokeEnds(e, status));
    }

    /** The provider has terminated the sandbox. */
    method SandboxTerminated(e: nat, instance: string)
      requires Valid() && At(model, e, Phase.Ended) && model.execs[e].instance == instance
      modifies this, instances
      ensures Valid() && model == Next(old(model), Action.Release(e))
    {
      hide Inv, ReleaseRun;
      SlotTheorems.NextKeepsInv(model, Action.Release(e));
      if instance in instances.rows && instances.rows[instance].count > 0 {
        var released := instances.Release(instance);
      }
      model := Next(model, Action.Release(e));
    }

    method OnSandboxFailure(e: nat, ghost gone: bool)
      requires Valid()
      modifies this, instances, attempts
      ensures Valid() && model == Next(old(model), SandboxLost(e, gone))
    {
      hide Inv, Finish;
      SlotTheorems.NextKeepsInv(model, SandboxLost(e, gone));
      FinishIsUpdate(model.attempts, e);
      if e in activeBySandboxId {
        var instance := activeBySandboxId[e];
        if instance in instances.rows && instances.rows[instance].actual.Busy? {
          var broken := instances.UpdateInstance(instance, instances.rows[instance].desired, Broken, Busy);
        }
        var interrupted := attempts.UpdateStatus(e, Interrupted, InProgress);
      }
      model := Next(model, SandboxLost(e, gone));
    }
  }

  lemma KnownAttempts(sys: System)
    requires Inv(sys)
    ensures |sys.attempts| !in sys.execs
  {
  }

  lemma AdmitIs(sys: System, runId: string, instance: string)
    requires sys.mode.Up? && instance in sys.instances
    ensures var sys' := Next(sys, Admit(runId, instance));
      && sys'.mode == sys.mode && sys'.instances == sys.instances && sys'.attempts == Created(sys.attempts, runId, instance)
      && sys'.execs == sys.execs[|sys.attempts| := Exec(instance, Preparing)]
  {
  }

  lemma AttemptFits(sys: System, e: nat)
    requires Inv(sys) && e in sys.execs
    ensures e < |sys.attempts| && Suits(sys.execs[e].phase, sys.attempts[e].status)
  {
  }

  lemma FinishIsUpdate(rows: seq<Attempt>, e: nat)
    ensures FinishIf(rows, e, InProgress, Interrupted)
            == if e < |rows| && rows[e].status.InProgress? then rows[e := rows[e].(status := Interrupted)] else rows
  {
  }
}
