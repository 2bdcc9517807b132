/** Conservation of slots, sandboxes and attempts over every run of Slots. */
module SlotTheorems {
  import opened Options
  import opened Instances
  import opened Slots

  // ---------- counting holders ----------

  lemma HoldersPut(execs: map<nat, Exec>, e: nat, x: Exec, id: string)
    ensures Holders(execs[e := x], id)
            == Holders(execs, id) - {e} + if Holds(x.phase) && x.instance == id then {e} else {}
    ensures Holders(execs - {e}, id) == Holders(execs, id) - {e}
  {
  }

  /** An execution that takes a slot raises exactly its own instance's count by one. */
  lemma CountedAcquire(t: Table, execs: map<nat, Exec>, e: nat)
    requires Counted(t, execs) && e in execs && !Holds(execs[e].phase) && AcquireRun(t, execs[e].instance).Some?
    ensures Counted(AcquireRun(t, execs[e].instance).value, execs[e := execs[e].(phase := Creating)])
  {
    var t' := AcquireRun(t, execs[e].instance).value;
    forall id | id in t'
      ensures t'[id].count == |Holders(execs[e := execs[e].(phase := Creating)], id)|
    {
      HoldersPut(execs, e, execs[e].(phase := Creating), id);
      assert e !in Holders(execs, id);
    }
  }

  lemma CountedRelease(t: Table, t': Table, execs: map<nat, Exec>, e: nat)
    requires Counted(t, execs) && e in execs && Holds(execs[e].phase) && execs[e].instance in t
    requires ReleaseRun(t, execs[e].instance) == Some(t')
    ensures Counted(t', execs - {e})
  {
    forall id | id in t'
      ensures t'[id].count == |Holders(execs - {e}, id)|
    {
      HoldersPut(execs, e, execs[e], id);
      if id == execs[e].instance {
        assert e in Holders(execs, id);
      } else {
        assert e !in Holders(execs, id);
        assert Holders(execs, id) - {e} == Holders(execs, id);
      }
    }
  }

  lemma CountedSame(t: Table, execs: map<nat, Exec>, e: nat, x: Exec)
    requires Counted(t, execs)
    requires if e in execs then Holds(x.phase) == Holds(execs[e].phase) && x.instance == execs[e].instance else !Holds(x.phase)
    ensures Counted(t, execs[e := x])
    ensures !Holds(x.phase) ==> Counted(t, execs - {e})
  {
    forall id | id in t
      ensures t[id].count == |Holders(execs[e := x], id)|
      ensures !Holds(x.phase) ==> t[id].count == |Holders(execs - {e}, id)|
    {
      HoldersPut(execs, e, x, id);
      assert Holders(execs[e := x], id) == Holders(execs, id);
      assert !Holds(x.phase) ==> Holders(execs - {e}, id) == Holders(execs, id);
      hide Holders;
    }
  }

  /** The release after an execution always finds its slot: the counter is positive and the state allows it. */
  lemma HolderCanRelease(t: Table, execs: map<nat, Exec>, e: nat)
    requires Counted(t, execs) && Shapes(t) && e in execs && Holds(execs[e].phase) && execs[e].instance in t
    ensures t[execs[e].instance].count > 0 && ReleaseRun(t, execs[e].instance).Some?
    ensures Shapes(ReleaseRun(t, execs[e].instance).value) && ReleaseRun(t, execs[e].instance).value.Keys == t.Keys
  {
    assert e in Holders(execs, execs[e].instance);
  }

  // ---------- attempts and phases ----------

  /** The attempts but for the status of one row. */
  predicate Touches(attempts: seq<Attempt>, attempts': seq<Attempt>, e: nat) {
    e < |attempts| == |attempts'| && attempts' == attempts[e := attempts[e].(status := attempts'[e].status)]
  }

  lemma SuitedPut(attempts: seq<Attempt>, attempts': seq<Attempt>, execs: map<nat, Exec>, t: Table, e: nat, p: Phase)
    requires Suited(attempts, execs, t) && e in execs && Touches(attempts, attempts', e) && Suits(p, attempts'[e].status)
    ensures Suited(attempts', execs[e := execs[e].(phase := p)], t)
  {
    hide Suits;
  }

  lemma SuitedDrop(attempts: seq<Attempt>, attempts': seq<Attempt>, execs: map<nat, Exec>, t: Table, e: nat)
    requires Suited(attempts, execs, t) && Touches(attempts, attempts', e)
    ensures Suited(attempts', execs - {e}, t)
  {
    hide Suits;
  }

  lemma SuitedTable(attempts: seq<Attempt>, execs: map<nat, Exec>, t: Table, t': Table)
    requires Suited(attempts, execs, t) && t.Keys <= t'.Keys
    ensures Suited(attempts, execs, t')
  {
    hide Suits;
  }

  lemma TouchNumbered(attempts: seq<Attempt>, attempts': seq<Attempt>, e: nat)
    requires Numbered(attempts) && Touches(attempts, attempts', e)
    ensures Numbered(attempts')
  {
    hide Numbered;
    NumberingKept(attempts, "", "", e, attempts'[e].status);
  }

  // ---------- steps ----------

  /** One execution moves on with its slot, its attempt and its sandbox changing together. */
  lemma PhaseStepKeepsInv(sys: System, attempts': seq<Attempt>, e: nat, p: Phase, live': set<nat>)
    requires Inv(sys) && sys.mode.Up? && e in sys.execs && Holds(p) == Holds(sys.execs[e].phase)
    requires Touches(sys.attempts, attempts', e) && Suits(p, attempts'[e].status)
    requires live' <= sys.live + {e} && (e in live' ==> HasSandbox(p))
    ensures Inv(sys.(attempts := attempts', execs := sys.execs[e := sys.execs[e].(phase := p)], live := live'))
  {
    var execs' := sys.execs[e := sys.execs[e].(phase := p)];
    hide Counted, Shapes, Numbered, Suited, Suits, Holds, HasSandbox, Owned, Settled, Touches, Waiting;
    TouchNumbered(sys.attempts, attempts', e);
    CountedSame(sys.instances, sys.execs, e, sys.execs[e].(phase := p));
    SuitedPut(sys.attempts, attempts', sys.execs, sys.instances, e, p);
    SettledTouch(sys, attempts', execs', e);
    OwnedPut(sys.live, live', sys.execs, e, p);
    WaitingTouch(sys.attempts, attempts', sys.execs, execs', sys.refused, e);
  }

  lemma WaitingTouch(
      attempts: seq<Attempt>, attempts': seq<Attempt>, execs: map<nat, Exec>, execs': map<nat, Exec>, refused: set<nat>, e: nat)
    requires Waiting(attempts, execs, refused) && e in execs && execs'.Keys == execs.Keys && Touches(attempts, attempts', e)
    ensures Waiting(attempts', execs', refused)
  {
  }

  lemma WaitingDrop(attempts: seq<Attempt>, attempts': seq<Attempt>, execs: map<nat, Exec>, refused: set<nat>, e: nat)
    requires Waiting(attempts, execs, refused) && e in execs && Touches(attempts, attempts', e)
    ensures Waiting(attempts', execs - {e}, refused + if attempts'[e].status.Pending? then {e} else {})
  {
  }

  lemma OwnedPut(live: set<nat>, live': set<nat>, execs: map<nat, Exec>, e: nat, p: Phase)
    requires Owned(live, execs) && e in execs && live' <= live + {e} && (e in live' ==> HasSandbox(p))
    ensures Owned(live', execs[e := execs[e].(phase := p)])
  {
    hide HasSandbox;
  }

  lemma OwnedDrop(live: set<nat>, execs: map<nat, Exec>, e: nat)
    requires Owned(live, execs) && e in execs && !HasSandbox(execs[e].phase)
    ensures Owned(live, execs - {e})
  {
    hide HasSandbox;
  }

  lemma SettledTouch(sys: System, attempts': seq<Attempt>, execs': map<nat, Exec>, e: nat)
    requires Settled(sys.attempts, sys.execs, sys.refused, sys.crashed)
    requires Touches(sys.attempts, attempts', e) && e in execs' && sys.execs.Keys <= execs'.Keys
    ensures Settled(attempts', execs', sys.refused, sys.crashed)
  {
    hide Open;
  }

  lemma SettledDrop(sys: System, attempts': seq<Attempt>, e: nat, refused': set<nat>)
    requires Settled(sys.attempts, sys.execs, sys.refused, sys.crashed)
    requires Touches(sys.attempts, attempts', e) && sys.refused <= refused'
    requires !Open(attempts'[e].status) || (attempts'[e].status.Pending? && e in refused')
    ensures Settled(attempts', sys.execs - {e}, refused', sys.crashed)
  {
    hide Open;
  }

  /** An execution that never got a slot, or gave it back with `t'`, is gone with its attempt settled. */
  lemma DropKeepsInv(sys: System, t': Table, attempts': seq<Attempt>, e: nat, refused': set<nat>)
    requires Inv(sys) && sys.mode.Up? && e in sys.execs && !HasSandbox(sys.execs[e].phase)
    requires Touches(sys.attempts, attempts', e) && !attempts'[e].status.InProgress?
    requires refused' == sys.refused + if attempts'[e].status.Pending? then {e} else {}
    requires if Holds(sys.execs[e].phase) then ReleaseRun(sys.instances, sys.execs[e].instance) == Some(t') else t' == sys.instances
    ensures Inv(sys.(instances := t', attempts := attempts', execs := sys.execs - {e}, refused := refused'))
  {
    hide Counted, Shapes, Numbered, Suited, HasSandbox, Holders, ReleaseRun, Owned, Settled, Touches, Waiting;
    TouchNumbered(sys.attempts, attempts', e);
    SettledDrop(sys, attempts', e, refused');
    SuitedDrop(sys.attempts, attempts', sys.execs, sys.instances, e);
    if Holds(sys.execs[e].phase) {
      assert sys.execs[e].instance in sys.instances by { InstanceKnown(sys.attempts, sys.execs, sys.instances, e); }
      HolderCanRelease(sys.instances, sys.execs, e);
      CountedRelease(sys.instances, t', sys.execs, e);
    } else {
      CountedSame(sys.instances, sys.execs, e, sys.execs[e]);
    }
    SuitedTable(attempts', sys.execs - {e}, sys.instances, t');
    OwnedDrop(sys.live, sys.execs, e);
    WaitingDrop(sys.attempts, attempts', sys.execs, sys.refused, e);
  }

  lemma InstanceKnown(attempts: seq<Attempt>, execs: map<nat, Exec>, t: Table, e: nat)
    requires Suited(attempts, execs, t) && e in execs
    ensures execs[e].instance in t && e < |attempts| && attempts[e].instance == execs[e].instance
    ensures Suits(execs[e].phase, attempts[e].status)
  {
  }

  /** The steps of one execution. */
  predicate OfExec(a: Action) {
    a.Reject? || a.Acquire? || a.SandboxUp? || a.SandboxRefused? || a.Invoke? || a.InvokeEnds?
    || a.SandboxDown? || a.TerminateFails? || a.Release?
  }

  predicate Enabled(sys: System, a: Action)
    requires OfExec(a)
  {
    match a
    case Reject(e) => At(sys, e, Preparing)
    case Acquire(e) => At(sys, e, Preparing)
    case SandboxUp(e) => At(sys, e, Creating)
    case SandboxRefused(e) => At(sys, e, Creating)
    case Invoke(e) => At(sys, e, Acquired)
    case InvokeEnds(e, s) => At(sys, e, Running) && !Open(s)
    case SandboxDown(e) => At(sys, e, Ending)
    case TerminateFails(e) => At(sys, e, Ending)
    case Release(e) => At(sys, e, Phase.Ended)
  }

  lemma SamePut(sys: System, e: nat)
    requires e in sys.execs && e < |sys.attempts|
    ensures Touches(sys.attempts, sys.attempts, e)
    ensures sys.attempts[e := sys.attempts[e]] == sys.attempts
  {
  }

  /** Each update of an attempt that the phase calls for goes through: it finds the status it was read with. */
  lemma MovesOn(sys: System, a: Action)
    requires Inv(sys) && sys.mode.Up? && OfExec(a) && Enabled(sys, a)
    requires a.SandboxUp? || a.Invoke? || a.InvokeEnds? || a.SandboxDown? || a.TerminateFails?
    ensures Inv(Next(sys, a))
    ensures a.Invoke? ==> Begin(sys.attempts, a.e, Pending).Some?
  {
    hide Counted, Shapes, Numbered, Suited, Owned, Settled, Holders;
    var e := a.e;
    InstanceKnown(sys.attempts, sys.execs, sys.instances, e);
    SamePut(sys, e);
    match a
    case SandboxUp(_) => PhaseStepKeepsInv(sys, sys.attempts, e, Acquired, sys.live + {e});
    case Invoke(_) => PhaseStepKeepsInv(sys, sys.attempts[e := sys.attempts[e].(status := InProgress)], e, Running, sys.live);
    case InvokeEnds(_, s) => PhaseStepKeepsInv(sys, FinishIf(sys.attempts, e, InProgress, s), e, Ending, sys.live);
    case SandboxDown(_) => PhaseStepKeepsInv(sys, sys.attempts, e, Phase.Ended, sys.live - {e});
    case TerminateFails(_) => PhaseStepKeepsInv(sys, sys.attempts, e, Stuck, sys.live);
    hide Inv;
  }

  lemma Leaves(sys: System, a: Action)
    requires Inv(sys) && sys.mode.Up? && OfExec(a) && Enabled(sys, a)
    requires a.Reject? || a.SandboxRefused? || a.Release?
    ensures Inv(Next(sys, a))
    ensures !a.Reject? ==>
              && sys.execs[a.e].instance in sys.instances && sys.instances[sys.execs[a.e].instance].count > 0
              && ReleaseRun(sys.instances, sys.execs[a.e].instance).Some?
  {
    hide Counted, Shapes, Numbered, Suited, Owned, Settled, Holders, ReleaseRun;
    var e := a.e;
    InstanceKnown(sys.attempts, sys.execs, sys.instances, e);
    SamePut(sys, e);
    if !a.Reject? {
      HolderCanRelease(sys.instances, sys.execs, e);
    }
    match a
    case Reject(_) => DropKeepsInv(sys, sys.instances, FinishIf(sys.attempts, e, Pending, Rejected), e, sys.refused);
    case SandboxRefused(_) =>
      DropKeepsInv(sys, ReleaseIf(sys.instances, sys.execs[e].instance), FinishIf(sys.attempts, e, Pending, Failed), e, sys.refused);
    case Release(_) =>
      DropKeepsInv(sys, ReleaseIf(sys.instances, sys.execs[e].instance), sys.attempts, e, sys.refused);
    hide Inv;
  }

  lemma Acquires(sys: System, e: nat)
    requires Inv(sys) && sys.mode.Up? && At(sys, e, Preparing)
    ensures Inv(Next(sys, Action.Acquire(e)))
  {
    hide Counted, Shapes, Numbered, Suited, Owned, Settled, Holders;
    InstanceKnown(sys.attempts, sys.execs, sys.instances, e);
    SamePut(sys, e);
    var id := sys.execs[e].instance;
    if Acquirable(sys.instances[id]) {
      AcquireShapes(sys.instances, id);
      CountedAcquire(sys.instances, sys.execs, e);
      SuitedPut(sys.attempts, sys.attempts, sys.execs, sys.instances, e, Creating);
      SuitedTable(sys.attempts, sys.execs[e := sys.execs[e].(phase := Creating)], sys.instances, AcquireRun(sys.instances, id).value);
      SettledTouch(sys, sys.attempts, sys.execs[e := sys.execs[e].(phase := Creating)], e);
      OwnedUnborn(sys.live, sys.execs, e);
      OwnedPut(sys.live, sys.live, sys.execs, e, Creating);
    } else {
      DropKeepsInv(sys, sys.instances, sys.attempts, e, sys.refused + {e});
    }
  }

  lemma OwnedUnborn(live: set<nat>, execs: map<nat, Exec>, e: nat)
    requires Owned(live, execs) && e in execs && !HasSandbox(execs[e].phase)
    ensures e !in live
  {
  }

  lemma AcquireShapes(t: Table, id: string)
    requires Shapes(t) && id in t && Acquirable(t[id])
    ensures Shapes(AcquireRun(t, id).value)
  {
  }

  lemma Admits(sys: System, r: string, id: string)
    requires Inv(sys) && sys.mode.Up? && id in sys.instances
    ensures Inv(Next(sys, Admit(r, id)))
  {
    hide Counted, Shapes, Numbered, Holders, MaxNumber, Suits, Open, HasSandbox;
    NumberingKept(sys.attempts, r, id, 0, Pending);
    CountedSame(sys.instances, sys.execs, |sys.attempts|, Exec(id, Preparing));
    assert Suits(Preparing, Pending) by { Fresh(); }
  }

  lemma Fresh()
    ensures Suits(Preparing, Pending)
  {
  }

  // ---------- instances and losses ----------

  lemma InstanceStepKeepsInv(sys: System, a: Action)
    requires Inv(sys) && sys.mode.Up? && (a.Provision? || a.Serve? || a.Stop?)
    ensures Inv(Next(sys, a))
  {
    hide Numbered, Owned, Settled, Suited;
    var id := a.instance;
    var t' := Instanced(sys, a).instances;
    if a.Provision? && id !in sys.instances {
      NobodyHolds(sys.attempts, sys.execs, sys.instances, id);
    }
    hide Holders;
    SuitedTable(sys.attempts, sys.execs, sys.instances, t');
  }

  lemma NobodyHolds(attempts: seq<Attempt>, execs: map<nat, Exec>, t: Table, id: string)
    requires Suited(attempts, execs, t) && id !in t
    ensures Holders(execs, id) == {}
  {
    hide Suits;
  }

  /** Marking an instance broken touches no counter. */
  lemma BreakKeeps(t: Table, id: string)
    requires Shapes(t)
    ensures Shapes(Break(t, id)) && Break(t, id).Keys == t.Keys
    ensures forall k :: k in t ==> Break(t, id)[k].count == t[k].count && Break(t, id)[k].desired == t[k].desired
    ensures forall k :: k in t && Acquirable(t[k]) && t[k].count == 0 ==> Break(t, id)[k] == t[k]
  {
  }

  lemma CountedCounts(t: Table, t': Table, execs: map<nat, Exec>)
    requires Counted(t, execs) && t'.Keys == t.Keys && forall k :: k in t ==> t'[k].count == t[k].count
    ensures Counted(t', execs)
  {
    hide Holders;
  }

  lemma FewerOwned(live: set<nat>, live': set<nat>, execs: map<nat, Exec>)
    requires Owned(live, execs) && live' <= live
    ensures Owned(live', execs)
  {
  }

  lemma LossKeepsInv(sys: System, e: nat, gone: bool)
    requires Inv(sys)
    ensures Inv(Next(sys, SandboxLost(e, gone)))
  {
    hide Counted, Shapes, Numbered, Suited, Owned, Settled, Holders;
    var live' := if gone then sys.live - {e} else sys.live;
    if At(sys, e, Running) {
      assert sys.mode.Up?;
      FewerOwned(sys.live, live', sys.execs);
      InstanceKnown(sys.attempts, sys.execs, sys.instances, e);
      var attempts' := FinishIf(sys.attempts, e, InProgress, Interrupted);
      SamePut(sys, e);
      assert Touches(sys.attempts, attempts', e);
      TouchNumbered(sys.attempts, attempts', e);
      SuitedPut(sys.attempts, attempts', sys.execs, sys.instances, e, Running);
      assert sys.execs[e := sys.execs[e].(phase := Running)] == sys.execs;
      SettledTouch(sys, attempts', sys.execs, e);
      var t' := Break(sys.instances, sys.execs[e].instance);
      BreakKeeps(sys.instances, sys.execs[e].instance);
      CountedCounts(sys.instances, t', sys.execs);
      SuitedTable(attempts', sys.execs, sys.instances, t');
      hide Touches, Break, FinishIf, Finish;
    } else if sys.mode.Up? {
      FewerOwned(sys.live, live', sys.execs);
    }
  }

  // ---------- crash and startup ----------

  lemma CrashKeepsInv(sys: System)
    requires Inv(sys)
    ensures Inv(Next(sys, Crash))
  {
    hide Counted, Shapes, Numbered, Holders, Suits, HasSandbox;
  }

  lemma ReconcileKeepsInv(sys: System)
    requires Inv(sys) && sys.mode.Down?
    ensures Inv(Next(sys, ReconcileSlots))
  {
    hide Numbered, Settled, Counted, Owned, Holders;
    assert forall id :: id in sys.instances ==> Shape(Reconciled(sys.instances[id]));
  }

  lemma CleanKeepsInv(sys: System, e: nat, done: bool)
    requires Inv(sys) && sys.mode.Cleaning? && e in sys.live && e < |sys.attempts|
    ensures Inv(Next(sys, CleanSandbox(e, done)))
  {
    hide Shapes, Numbered, Settled, Counted, Owned, Holders;
    var attempts' := FinishIf(sys.attempts, e, InProgress, Interrupted);
    assert Touches(sys.attempts, attempts', e) by {
      assert sys.attempts[e := sys.attempts[e]] == sys.attempts;
    }
    TouchNumbered(sys.attempts, attempts', e);
    SettledBetter(sys.attempts, attempts', sys.execs, sys.refused, sys.crashed, e);
    BreakKeeps(sys.instances, sys.attempts[e].instance);
    hide Break;
  }

  lemma SettledBetter(
      attempts: seq<Attempt>, attempts': seq<Attempt>, execs: map<nat, Exec>, refused: set<nat>, crashed: set<nat>, e: nat)
    requires Settled(attempts, execs, refused, crashed) && Touches(attempts, attempts', e)
    requires attempts'[e].status == attempts[e].status || !Open(attempts'[e].status)
    ensures Settled(attempts', execs, refused, crashed)
  {
    hide Open;
  }

  lemma StartUpKeepsInv(sys: System)
    requires Inv(sys) && sys.mode.Cleaning?
    ensures Inv(Next(sys, StartUp))
  {
    hide Shapes, Numbered, Settled, Suited;
    assert forall id :: Holders(map[], id) == {};
  }

  lemma NextKeepsInv(sys: System, a: Action)
    requires Inv(sys)
    ensures Inv(Next(sys, a))
  {
    hide Counted, Shapes, Numbered, Suited, Owned, Settled;
    if OfExec(a) {
      if a.e in sys.execs && Enabled(sys, a) {
        hide Next;
        match a
        case Acquire(e) => Acquires(sys, e);
        case Reject(_) | SandboxRefused(_) | Release(_) => Leaves(sys, a);
        case _ => MovesOn(sys, a);
      }
    } else {
      match a
      case Admit(r, id) => if sys.mode.Up? && id in sys.instances { Admits(sys, r, id); }
      case Provision(_) | Serve(_) | Stop(_) => if sys.mode.Up? { InstanceStepKeepsInv(sys, a); }
      case SandboxLost(e, gone) => LossKeepsInv(sys, e, gone);
      case Crash => CrashKeepsInv(sys);
      case ReconcileSlots => if sys.mode.Down? { ReconcileKeepsInv(sys); }
      case CleanSandbox(e, done) =>
        if sys.mode.Cleaning? && e in sys.live && e < |sys.attempts| { CleanKeepsInv(sys, e, done); }
      case StartUp => if sys.mode.Cleaning? { StartUpKeepsInv(sys); }
    }
  }

  // ---------- every run ----------

  function Reached(actions: seq<Action>): System { After(INITIAL, actions) }

  lemma {:induction false} InvAlways(sys: System, actions: seq<Action>)
    requires Inv(sys)
    ensures Inv(After(sys, actions))
    decreases |actions|
  {
    hide Inv, Next;
    if actions != [] {
      NextKeepsInv(sys, actions[0]);
      InvAlways(Next(sys, actions[0]), actions[1..]);
    }
  }

  lemma ReachedInv(actions: seq<Action>)
    ensures Inv(Reached(actions))
  {
    InvAlways(INITIAL, actions);
  }

  /**
   While the service is up, the counter of an instance is the number of executions between acquire
   and release on it; READY means none; a busy instance that should run has one; and every running
   sandbox belongs to an execution that holds a slot of the instance its attempt names.
   */
  lemma SlotsAreConserved(actions: seq<Action>)
    requires Reached(actions).mode.Up?
    ensures var sys := Reached(actions);
      && (forall id :: id in sys.instances ==>
            && sys.instances[id].count == |Holders(sys.execs, id)|
            && (sys.instances[id].actual.Ready? ==> sys.instances[id].count == 0)
            && (sys.instances[id].actual.Busy? && sys.instances[id].desired.ToRun? ==> sys.instances[id].count > 0))
      && (forall e :: e in sys.live ==>
                        && e in sys.execs && e < |sys.attempts| && sys.attempts[e].instance in sys.instances
                        && e in Holders(sys.execs, sys.attempts[e].instance))
  {
    ReachedInv(actions);
    hide After;
    var sys := Reached(actions);
    assert forall id :: id in sys.instances ==> Shape(sys.instances[id]);
    hide Shapes, Suits, Settled, Numbered;
  }

  /** The two releases of an execution find their slot, and every update of its attempt finds the status it expects. */
  lemma NoStepOfAnExecutionFails(actions: seq<Action>, e: nat)
    requires var sys := Reached(actions); sys.mode.Up? && e in sys.execs && e < |sys.attempts|
    ensures var sys := Reached(actions);
      var x := sys.execs[e];
      && (x.phase.Ended? || x.phase.Creating? ==>
            && x.instance in sys.instances && sys.instances[x.instance].count > 0 && ReleaseRun(sys.instances, x.instance).Some?)
      && (x.phase.Preparing? ==> Finish(sys.attempts, e, Pending, Rejected).Some?)
      && (x.phase.Creating? ==> Finish(sys.attempts, e, Pending, Failed).Some?)
      && (x.phase.Acquired? ==> Begin(sys.attempts, e, Pending).Some?)
      && (x.phase.Running? ==> sys.attempts[e].status.InProgress? || sys.attempts[e].status.Interrupted?)
  {
    ReachedInv(actions);
    hide After, Counted, Shapes, Suited, Numbered, Settled, Owned, ReleaseRun;
    var sys := Reached(actions);
    InstanceKnown(sys.attempts, sys.execs, sys.instances, e);
    if Holds(sys.execs[e].phase) {
      HolderCanRelease(sys.instances, sys.execs, e);
    }
  }

  /**
   Whatever step takes an execution out of the system while the service stays up, its sandbox is gone
   by then, and its attempt is over or was refused a slot.
   */
  lemma SandboxGoneBeforeSlot(actions: seq<Action>, a: Action, e: nat)
    requires var sys := Reached(actions); sys.mode.Up? && e in sys.execs && !a.Crash? && e !in Next(sys, a).execs
    ensures var sys, sys' := Reached(actions), Next(Reached(actions), a);
      && e !in sys.live && e !in sys'.live && e < |sys'.attempts|
      && (!Open(sys'.attempts[e].status) || (a == Action.Acquire(e) && sys'.attempts[e].status.Pending?))
  {
    var sys := Reached(actions);
    ReachedInv(actions);
    hide After, Counted, Shapes, Numbered, Settled, Holders;
    InstanceKnown(sys.attempts, sys.execs, sys.instances, e);
  }

  // ---------- restarts ----------

  /**
   Between the two startup reconcilers, and so from every restart on until the first execution begins,
   no slot is held and every instance that should run can be acquired; the service comes up only when
   no sandbox of an earlier life is left.
   */
  lemma RestartServesAgain(actions: seq<Action>)
    requires Reached(actions).mode.Cleaning?
    ensures var sys := Reached(actions);
      && (forall id :: id in sys.instances ==>
            && sys.instances[id].count == 0 && (sys.instances[id].desired.ToRun? ==> AcquireRun(sys.instances, id).Some?))
      && (Next(sys, StartUp).mode.Up? <==> sys.live == {})
      && Next(sys, StartUp).instances == sys.instances
  {
    ReachedInv(actions);
    hide After, Counted, Shapes, Numbered, Settled, Holders, Suited, Owned;
  }

  /** Steps that write READY where the transition table has no such step. */
  predicate PassesTable(sys: System, a: Action, id: string)
    requires id in sys.instances
  {
    a.ReconcileSlots? && sys.mode.Down? && sys.instances[id].desired.ToRun?
    && (sys.instances[id].actual.Broken? || sys.instances[id].actual.Stopped?)
  }

  /**
   A step moves an instance past the transition table exactly when it is the slot reconciler of a
   restart, on an instance that should run and is FAILED or STOPPED; it then writes READY.
   */
  lemma StatesFollowTable(sys: System, a: Action, id: string)
    requires id in sys.instances
    ensures id in Next(sys, a).instances
    ensures var was, now := sys.instances[id].actual, Next(sys, a).instances[id].actual;
      && (now != was && !CanMove(was, now) <==> PassesTable(sys, a, id))
      && (PassesTable(sys, a, id) ==> now.Ready?)
  {
    hide Finish, Begin, MaxNumber;
  }

  predicate IsBroken(sys: System, id: string) { id in sys.instances && sys.instances[id].actual.Broken? }

  /** Losing a registered sandbox leaves its instance broken. */
  lemma LossBreaks(actions: seq<Action>, e: nat, gone: bool)
    requires At(Reached(actions), e, Running)
    ensures IsBroken(Next(Reached(actions), SandboxLost(e, gone)), Reached(actions).execs[e].instance)
  {
    var sys := Reached(actions);
    ReachedInv(actions);
    hide After, Numbered, Settled, Owned, Finish;
    assert sys.mode.Up?;
    InstanceKnown(sys.attempts, sys.execs, sys.instances, e);
    HolderCanRelease(sys.instances, sys.execs, e);
    hide Counted, Suited, Holders;
    assert Shape(sys.instances[sys.execs[e].instance]);
  }

  /** What ends the failure of an instance. */
  predicate Mends(sys: System, a: Action, id: string)
    requires id in sys.instances
  {
    a.ReconcileSlots? && sys.mode.Down? && sys.instances[id].desired.ToRun?
  }

  /**
   A broken instance stays broken through every step but one: the slot reconciler of a restart makes it
   acquirable again if it should run.
   */
  lemma MendedExactly(sys: System, a: Action, id: string)
    requires IsBroken(sys, id)
    ensures IsBroken(Next(sys, a), id) <==> !Mends(sys, a, id)
    ensures AcquireRun(Next(sys, a).instances, id).Some? <==> Mends(sys, a, id)
  {
    hide Finish, Begin, MaxNumber;
  }

  predicate NeverMends(sys: System, more: seq<Action>, id: string)
    decreases |more|
  {
    more == [] || (id in sys.instances && !Mends(sys, more[0], id) && NeverMends(Next(sys, more[0]), more[1..], id))
  }

  /** Until then it refuses every acquire, whatever happens and however often the service restarts. */
  lemma {:induction false} BrokenUntilRestart(sys: System, id: string, more: seq<Action>)
    requires IsBroken(sys, id) && NeverMends(sys, more, id)
    ensures IsBroken(After(sys, more), id) && AcquireRun(After(sys, more).instances, id).None?
    decreases |more|
  {
    hide Next;
    if more != [] {
      MendedExactly(sys, more[0], id);
      BrokenUntilRestart(Next(sys, more[0]), id, more[1..]);
    }
  }

  // ---------- attempts ----------

  /** Attempts are only added, and one that is over never changes. */
  predicate AttemptsKept(rows: seq<Attempt>, rows': seq<Attempt>) {
    |rows| <= |rows'| && forall e :: 0 <= e < |rows| && !Open(rows[e].status) ==> rows'[e] == rows[e]
  }

  lemma NextKeepsAttempts(sys: System, a: Action)
    ensures AttemptsKept(sys.attempts, Next(sys, a).attempts)
  {
    hide ReleaseRun, AcquireRun, Reconcile, Break, MaxNumber;
  }

  lemma {:induction false} FinishedAttemptsStay(sys: System, more: seq<Action>)
    ensures AttemptsKept(sys.attempts, After(sys, more).attempts)
    decreases |more|
  {
    hide Next, Open;
    if more != [] {
      NextKeepsAttempts(sys, more[0]);
      FinishedAttemptsStay(Next(sys, more[0]), more[1..]);
    }
  }

  /**
   The attempts of every run are numbered 1, 2, 3 and so on. An attempt whose execution is gone, and not
   by a crash, is still open exactly when it was refused a slot, and it is PENDING then.
   */
  lemma AttemptsAreAccountedFor(actions: seq<Action>, e: nat)
    requires e < |Reached(actions).attempts|
    ensures var sys := Reached(actions);
      && Numbered(sys.attempts)
      && (e !in sys.execs && e !in sys.crashed ==> (Open(sys.attempts[e].status) <==> e in sys.refused))
      && (e in sys.refused ==> e !in sys.execs && sys.attempts[e].status.Pending?)
  {
    ReachedInv(actions);
    hide After, Numbered, Counted, Shapes, Owned, Suited;
  }

  /** An attempt is refused exactly when its execution asks for a slot that its instance does not give. */
  lemma RefusedExactly(sys: System, a: Action, e: nat)
    requires e !in sys.refused
    ensures e in Next(sys, a).refused <==>
            sys.mode.Up? && a == Action.Acquire(e) && At(sys, e, Preparing) && AcquireRun(sys.instances, sys.execs[e].instance).None?
  {
    hide Finish, Begin, MaxNumber, Reconcile, ReleaseRun;
  }

  lemma RefusedStays(sys: System, a: Action)
    ensures sys.refused <= Next(sys, a).refused
  {
    hide Finish, Begin, MaxNumber, Reconcile, ReleaseRun, AcquireRun;
  }

  /** A refused attempt is PENDING in every continuation, across crashes and restarts. */
  lemma {:induction false} RefusedStaysPending(sys: System, more: seq<Action>, e: nat)
    requires Inv(sys) && e in sys.refused
    ensures var last := After(sys, more);
      e < |last.attempts| && e in last.refused && e !in last.execs && last.attempts[e].status.Pending?
    decreases |more|
  {
    hide Next, Counted, Shapes, Numbered, Suited, Owned, Settled;
    if more != [] {
      NextKeepsInv(sys, more[0]);
      RefusedStays(sys, more[0]);
      RefusedStaysPending(Next(sys, more[0]), more[1..], e);
    }
  }

  // ---------- two runs ----------

  /** An execution that loses its sandbox. */
  const LOSS: seq<Action> :=
    [Provision("i"), Serve("i"), Admit("r", "i"), Action.Acquire(0), SandboxUp(0), Invoke(0), SandboxLost(0, true)]

  lemma {:induction false} AfterOneMore(sys: System, actions: seq<Action>, a: Action)
    ensures After(sys, actions + [a]) == Next(After(sys, actions), a)
    decreases |actions|
  {
    hide Next;
    if actions == [] {
      assert [] + [a] == [a] && [a][1..] == [];
      assert After(sys, [a]) == After(Next(sys, a), []);
    } else {
      assert (actions + [a])[0] == actions[0] && (actions + [a])[1..] == actions[1..] + [a];
      AfterOneMore(Next(sys, actions[0]), actions[1..], a);
    }
  }

  /** The instance is broken while its first execution still holds the slot. */
  lemma LossState()
    ensures var s := Reached(LOSS);
      && s.mode.Up? && |s.attempts| == 1 && s.execs == map[0 := Exec("i", Running)]
      && s.instances == map["i" := Instance(ToRun, Broken, 1)]
  {
    hide After, Next;
    Gains();
    Loses(Next(Next(Next(Next(Next(INITIAL, LOSS[0]), LOSS[1]), LOSS[2]), LOSS[3]), LOSS[4]));
    LossUnrolls();
  }

  /**
   A refused attempt exists, and stays pending for ever: a second execution on the instance that the first
   has left broken.
   */
  lemma SecondAttemptIsRefused(more: seq<Action>)
    ensures var refused := LOSS + [Admit("q", "i")] + [Action.Acquire(1)];
      var sys := After(Reached(refused), more);
      && 1 in Reached(refused).refused
      && 1 < |sys.attempts| && 1 !in sys.execs && sys.attempts[1].status.Pending?
  {
    hide Inv, After;
    LossState();
    var s := Reached(LOSS);
    var admitted := Next(s, Admit("q", "i"));
    AfterOneMore(INITIAL, LOSS, Admit("q", "i"));
    AfterOneMore(INITIAL, LOSS + [Admit("q", "i")], Action.Acquire(1));
    var refused := LOSS + [Admit("q", "i")] + [Action.Acquire(1)];
    SecondAdmitted(s);
    hide Next;
    NotRefusedYet(LOSS + [Admit("q", "i")], 1);
    RefusedExactly(admitted, Action.Acquire(1), 1);
    ReachedInv(refused);
    RefusedStaysPending(Reached(refused), more, 1);
  }

  lemma SecondAdmitted(s: System)
    requires s.mode.Up? && |s.attempts| == 1 && s.execs == map[0 := Exec("i", Running)]
    requires s.instances == map["i" := Instance(ToRun, Broken, 1)]
    ensures var s' := Next(s, Admit("q", "i"));
      s'.mode.Up? && At(s', 1, Preparing) && s'.execs[1].instance == "i" && s'.instances == s.instances
  {
    hide MaxNumber;
  }

  /** An execution in progress is not refused. */
  lemma NotRefusedYet(actions: seq<Action>, e: nat)
    requires e in Reached(actions).execs
    ensures e !in Reached(actions).refused
  {
    ReachedInv(actions);
    hide After, Counted, Shapes, Numbered, Suited, Owned, Settled;
  }

  lemma FirstAttempt(r: string, id: string)
    ensures Created([], r, id) == [Attempt(r, 1, id, Pending)]
  {
    assert MaxNumber([], r) == 0;
  }

  /** A reachable step past the transition table: from FAILED to READY by the restart after a lost sandbox. */
  lemma RestartPassesTable()
    ensures var crashed := LOSS + [Crash];
      IsBroken(Reached(crashed), "i") && PassesTable(Reached(crashed), ReconcileSlots, "i")
  {
    LossState();
    AfterOneMore(INITIAL, LOSS, Crash);
    hide After;
  }

  lemma Gains()
    ensures var s := Next(Next(Next(Next(Next(INITIAL, LOSS[0]), LOSS[1]), LOSS[2]), LOSS[3]), LOSS[4]);
      && s.mode.Up? && s.attempts == [Attempt("r", 1, "i", Pending)] && s.execs == map[0 := Exec("i", Acquired)]
      && s.instances == map["i" := Instance(ToRun, Busy, 1)]
  {
    var s1 := INITIAL.(instances := map["i" := Instance(ToRun, Provisioning, 0)]);
    var s2 := INITIAL.(instances := map["i" := Instance(ToRun, Ready, 0)]);
    var s3 := s2.(attempts := [Attempt("r", 1, "i", Pending)], execs := map[0 := Exec("i", Preparing)]);
    FirstAttempt("r", "i");
    assert Next(INITIAL, LOSS[0]) == s1 && Next(s1, LOSS[1]) == s2;
    assert Next(s2, LOSS[2]) == s3;
    GainsSlot(s3);
  }

  lemma GainsSlot(s: System)
    requires s.mode.Up? && s.attempts == [Attempt("r", 1, "i", Pending)] && s.execs == map[0 := Exec("i", Preparing)]
    requires s.instances == map["i" := Instance(ToRun, Ready, 0)]
    ensures var s' := Next(Next(s, LOSS[3]), LOSS[4]);
      && s'.mode.Up? && s'.attempts == s.attempts && s'.execs == map[0 := Exec("i", Acquired)]
      && s'.instances == map["i" := Instance(ToRun, Busy, 1)]
  {
    var s4 := Next(s, LOSS[3]);
    assert s4 == s.(instances := map["i" := Instance(ToRun, Busy, 1)], execs := map[0 := Exec("i", Creating)]);
  }

  lemma Loses(s: System)
    requires s.mode.Up? && s.attempts == [Attempt("r", 1, "i", Pending)] && s.execs == map[0 := Exec("i", Acquired)]
    requires s.instances == map["i" := Instance(ToRun, Busy, 1)]
    ensures var last := Next(Next(s, LOSS[5]), LOSS[6]);
      && last.mode.Up? && |last.attempts| == 1 && last.execs == map[0 := Exec("i", Running)]
      && last.instances == map["i" := Instance(ToRun, Broken, 1)]
  {
    var s6 := Next(s, LOSS[5]);
    assert s6.attempts == [Attempt("r", 1, "i", InProgress)] && s6.execs == map[0 := Exec("i", Running)];
    var s7 := Next(s6, LOSS[6]);
    assert s7.instances == map["i" := Instance(ToRun, Broken, 1)];
  }

  lemma LossUnrolls()
    ensures Reached(LOSS) == Next(Next(Next(Next(Next(Next(Next(INITIAL, LOSS[0]), LOSS[1]), LOSS[2]), LOSS[3]), LOSS[4]), LOSS[5]), LOSS[6])
  {
    hide Next;
  }
}
