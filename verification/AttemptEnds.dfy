/** With which status an attempt ends, and by what alone. */
module AttemptEnds {
  import opened Options
  import opened Instances
  import opened Slots
  import opened SlotTheorems

  predicate Works(sys: System, e: nat) { e < |sys.attempts| && sys.attempts[e].status == InProgress }

  /**
   The status an action gives an attempt: REJECTED before the slot; FAILED when the sandbox is refused;
   in progress when the runtime is invoked; what the invocation reports, when it ends before the sandbox
   is lost; INTERRUPTED when the sandbox is lost first, or is found by the cleaning after a crash.
   */
  function Given(sys: System, a: Action, e: nat): Option<AttemptStatus> {
    match a
    case Reject(k) => if k == e && sys.mode == Up && At(sys, e, Preparing) then Some(Rejected) else None
    case SandboxRefused(k) => if k == e && sys.mode == Up && At(sys, e, Creating) then Some(Failed) else None
    case Invoke(k) => if k == e && sys.mode == Up && At(sys, e, Acquired) then Some(InProgress) else None
    case InvokeEnds(k, s) =>
      if k == e && sys.mode == Up && At(sys, e, Running) && Works(sys, e) && s != Pending && s != InProgress then Some(s) else None
    case SandboxLost(k, _) => if k == e && At(sys, e, Running) && Works(sys, e) then Some(Interrupted) else None
    case CleanSandbox(k, _) => if k == e && sys.mode == Cleaning && e in sys.live && Works(sys, e) then Some(Interrupted) else None
    case _ => None
  }

  predicate Sets(sys: System, sys': System, a: Action, e: nat)
    requires e < |sys.attempts|
  {
    e < |sys'.attempts|
    && sys'.attempts[e].status == if Given(sys, a, e).Some? then Given(sys, a, e).value else sys.attempts[e].status
  }

  lemma FinishSets(rows: seq<Attempt>, k: nat, seen: AttemptStatus, status: AttemptStatus, e: nat)
    requires e < |rows|
    ensures e < |FinishIf(rows, k, seen, status)|
    ensures FinishIf(rows, k, seen, status)[e].status
            == if k == e && Open(seen) && rows[e].status == seen then status else rows[e].status
  {
  }

  /** Before the runtime is invoked an attempt is pending. */
  lemma PendingBefore(sys: System, k: nat)
    requires Inv(sys) && (At(sys, k, Preparing) || At(sys, k, Creating) || At(sys, k, Acquired))
    ensures k < |sys.attempts| && sys.attempts[k].status == Pending
  {
    InstanceKnown(sys.attempts, sys.execs, sys.instances, k);
    hide Counted, Shapes, Numbered, Owned, Settled, Waiting, Suited;
  }

  lemma AttemptsAfter(sys: System, k: nat)
    requires sys.mode.Up?
    ensures Next(sys, Reject(k)).attempts == if At(sys, k, Preparing) then FinishIf(sys.attempts, k, Pending, Rejected) else sys.attempts
    ensures Next(sys, SandboxRefused(k)).attempts == if At(sys, k, Creating) then FinishIf(sys.attempts, k, Pending, Failed) else sys.attempts
    ensures Next(sys, Invoke(k)).attempts
            == if At(sys, k, Acquired) && Begin(sys.attempts, k, Pending).Some? then Begin(sys.attempts, k, Pending).value else sys.attempts
  {
    hide FinishIf, ReleaseIf, Begin;
  }

  lemma RejectSets(sys: System, k: nat, e: nat)
    requires Inv(sys) && sys.mode.Up? && e < |sys.attempts|
    ensures Sets(sys, Next(sys, Reject(k)), Reject(k), e)
  {
    hide Inv, FinishIf, Next;
    if At(sys, k, Preparing) {
      PendingBefore(sys, k);
    }
    AttemptsAfter(sys, k);
    FinishSets(sys.attempts, k, Pending, Rejected, e);
  }

  lemma RefusedSets(sys: System, k: nat, e: nat)
    requires Inv(sys) && sys.mode.Up? && e < |sys.attempts|
    ensures Sets(sys, Next(sys, SandboxRefused(k)), SandboxRefused(k), e)
  {
    hide Inv, FinishIf, Next;
    if At(sys, k, Creating) {
      PendingBefore(sys, k);
    }
    AttemptsAfter(sys, k);
    FinishSets(sys.attempts, k, Pending, Failed, e);
  }

  lemma InvokeSets(sys: System, k: nat, e: nat)
    requires Inv(sys) && sys.mode.Up? && e < |sys.attempts|
    ensures Sets(sys, Next(sys, Invoke(k)), Invoke(k), e)
  {
    hide Inv, FinishIf, Next;
    if At(sys, k, Acquired) {
      PendingBefore(sys, k);
    }
    AttemptsAfter(sys, k);
  }

  lemma InvokeEndsSets(sys: System, k: nat, s: AttemptStatus, e: nat)
    requires Inv(sys) && sys.mode.Up? && e < |sys.attempts|
    ensures Sets(sys, Next(sys, InvokeEnds(k, s)), InvokeEnds(k, s), e)
  {
    FinishSets(sys.attempts, k, InProgress, s, e);
    hide Inv, FinishIf;
  }

  lemma LostSets(sys: System, k: nat, gone: bool, e: nat)
    requires e < |sys.attempts|
    ensures Sets(sys, Next(sys, SandboxLost(k, gone)), SandboxLost(k, gone), e)
  {
    FinishSets(sys.attempts, k, InProgress, Interrupted, e);
    hide FinishIf, Break;
  }

  lemma CleanSets(sys: System, k: nat, done: bool, e: nat)
    requires e < |sys.attempts|
    ensures Sets(sys, Next(sys, CleanSandbox(k, done)), CleanSandbox(k, done), e)
  {
    FinishSets(sys.attempts, k, InProgress, Interrupted, e);
    hide FinishIf, Break;
  }

  lemma StepSets(sys: System, a: Action, e: nat)
    requires Inv(sys) && e < |sys.attempts|
    ensures Sets(sys, Next(sys, a), a, e)
  {
    if a.SandboxLost? {
      LostSets(sys, a.e, a.gone, e);
    } else if a.CleanSandbox? {
      CleanSets(sys, a.e, a.done, e);
    } else if sys.mode.Up? && a.Reject? {
      RejectSets(sys, a.e, e);
    } else if sys.mode.Up? && a.SandboxRefused? {
      RefusedSets(sys, a.e, e);
    } else if sys.mode.Up? && a.Invoke? {
      InvokeSets(sys, a.e, e);
    } else if sys.mode.Up? && a.InvokeEnds? {
      InvokeEndsSets(sys, a.e, a.status, e);
    } else {
      OthersSet(sys, a, e);
    }
    hide Inv, Next, Sets;
  }

  lemma OthersSet(sys: System, a: Action, e: nat)
    requires e < |sys.attempts| && !a.SandboxLost? && !a.CleanSandbox?
    requires sys.mode.Up? ==> !a.Reject? && !a.SandboxRefused? && !a.Invoke? && !a.InvokeEnds?
    ensures Sets(sys, Next(sys, a), a, e)
  {
    hide ReleaseIf, AcquireRun, Reconcile, Break, MaxNumber, FinishIf, Begin, Works;
  }

  // ---------- over whole runs ----------

  ghost predicate EverGiven(actions: seq<Action>, e: nat, status: AttemptStatus) {
    exists i :: 0 <= i < |actions| && e < |Reached(actions[..i]).attempts| && Given(Reached(actions[..i]), actions[i], e) == Some(status)
  }

  lemma EverSnoc(actions: seq<Action>, a: Action, e: nat, status: AttemptStatus)
    ensures EverGiven(actions + [a], e, status)
            <==> EverGiven(actions, e, status) || (e < |Reached(actions).attempts| && Given(Reached(actions), a, e) == Some(status))
  {
    hide Given, Reached;
    var all, n := actions + [a], |actions|;
    assert all[..n] == actions && all[n] == a;
    assert forall i :: 0 <= i < n ==> all[..i] == actions[..i] && all[i] == actions[i];
    if EverGiven(actions, e, status) {
      var i :| 0 <= i < n && e < |Reached(actions[..i]).attempts| && Given(Reached(actions[..i]), actions[i], e) == Some(status);
      assert e < |Reached(all[..i]).attempts| && Given(Reached(all[..i]), all[i], e) == Some(status);
    }
    if e < |Reached(actions).attempts| && Given(Reached(actions), a, e) == Some(status) {
      assert e < |Reached(all[..n]).attempts| && Given(Reached(all[..n]), all[n], e) == Some(status);
    }
  }

  lemma NewIsPending(sys: System, a: Action, e: nat)
    requires |sys.attempts| <= e < |Next(sys, a).attempts|
    ensures Next(sys, a).attempts[e].status == Pending
  {
    hide ReleaseIf, AcquireRun, Reconcile, Break, MaxNumber;
  }

  /** What is over is given no status any more. */
  lemma OverIsLeft(sys: System, a: Action, e: nat)
    requires Inv(sys) && e < |sys.attempts| && !Open(sys.attempts[e].status)
    ensures Given(sys, a, e).None?
  {
    if e in sys.execs {
      InstanceKnown(sys.attempts, sys.execs, sys.instances, e);
    }
    hide Inv;
  }

  /**
   An attempt is over with a status if and only if at some step it was given just that status: REJECTED,
   FAILED, INTERRUPTED or the reported one, by the rule of Given.
   */
  lemma {:induction false} AttemptEndsExactly(actions: seq<Action>, e: nat, status: AttemptStatus)
    requires status != Pending && status != InProgress
    ensures e < |Reached(actions).attempts| && Reached(actions).attempts[e].status == status <==> EverGiven(actions, e, status)
    decreases |actions|
  {
    hide Given, EverGiven, Next, Inv, After;
    if actions == [] {
      NothingGiven(e, status);
    } else {
      var before, a := actions[..|actions| - 1], actions[|actions| - 1];
      assert actions == before + [a];
      AttemptEndsExactly(before, e, status);
      EverSnoc(before, a, e, status);
      AfterOneMore(INITIAL, before, a);
      ReachedInv(before);
      var sys := Reached(before);
      hide Reached;
      if e < |sys.attempts| {
        StepSets(sys, a, e);
        if !Open(sys.attempts[e].status) {
          OverIsLeft(sys, a, e);
        }
      } else if e < |Next(sys, a).attempts| {
        NewIsPending(sys, a, e);
      }
    }
  }

  lemma NothingGiven(e: nat, status: AttemptStatus)
    ensures e >= |Reached([]).attempts| && !EverGiven([], e, status)
  {
  }
}
