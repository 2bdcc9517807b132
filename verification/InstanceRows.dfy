/** What becomes of the row of an instance, step by step, and that one told to stop is given no slot. */
module InstanceRows {
  import opened Instances
  import opened Slots
  import opened SlotTheorems

  /** The row after a slot is given back: broken stays broken, the last one leaves it ready. */
  function Freed(i: Instance): Instance {
    Instance(i.desired, if i.actual == Broken then Broken else if i.count == 1 then Ready else Busy, i.count - 1)
  }

  predicate OnInstance(sys: System, e: nat, p: Phase, id: string) {
    e in sys.execs && sys.execs[e].phase == p && sys.execs[e].instance == id
  }

  predicate GivesSlots(i: Instance) { i.desired == ToRun && (i.actual == Ready || i.actual == Busy) }

  /** The row of an instance after an action. */
  function RowAfter(sys: System, a: Action, id: string): Instance
    requires id in sys.instances
  {
    var i, up := sys.instances[id], sys.mode == Up;
    match a
    case Serve(k) => if up && k == id && i.actual == Provisioning then Instance(i.desired, Ready, i.count) else i
    case Stop(k) => if up && k == id then Instance(ToStop, i.actual, i.count) else i
    case Acquire(e) => if up && OnInstance(sys, e, Preparing, id) && GivesSlots(i) then Instance(ToRun, Busy, i.count + 1) else i
    case SandboxRefused(e) => if up && OnInstance(sys, e, Creating, id) then Freed(i) else i
    case Release(e) => if OnInstance(sys, e, Phase.Ended, id) then Freed(i) else i
    case SandboxLost(e, _) => if OnInstance(sys, e, Running, id) && i.actual == Busy then Instance(i.desired, Broken, i.count) else i
    case CleanSandbox(e, _) =>
      if sys.mode == Cleaning && e in sys.live && e < |sys.attempts| && sys.attempts[e].instance == id && i.actual == Busy
      then Instance(i.desired, Broken, i.count) else i
    case ReconcileSlots =>
      if sys.mode != Down then i
      else if i.desired == ToStop then Instance(ToStop, i.actual, 0)
      else Instance(ToRun, if i.actual == Busy && i.count == 0 then Busy else Ready, 0)
    case _ => i
  }

  lemma HolderFacts(sys: System, e: nat)
    requires Inv(sys) && sys.mode.Up? && e in sys.execs && Holds(sys.execs[e].phase)
    ensures sys.execs[e].instance in sys.instances && sys.instances[sys.execs[e].instance].count > 0
    ensures ReleaseRun(sys.instances, sys.execs[e].instance).Some?
  {
    hide Settled, Owned, Waiting, Numbered;
    InstanceKnown(sys.attempts, sys.execs, sys.instances, e);
    HolderCanRelease(sys.instances, sys.execs, e);
  }

  lemma ExecMeansUp(sys: System, e: nat)
    requires Inv(sys) && e in sys.execs
    ensures sys.mode.Up?
  {
    hide Settled, Owned, Waiting, Numbered, Counted, Suited, Shapes;
  }

  lemma CountNotNegative(sys: System, id: string)
    requires Inv(sys) && id in sys.instances
    ensures Shape(sys.instances[id])
  {
    hide Settled, Owned, Waiting, Numbered, Counted, Suited;
  }

  /** Every action changes the row of an instance just so. */
  lemma RowsExactly(sys: System, a: Action, id: string)
    requires Inv(sys) && id in sys.instances
    ensures id in Next(sys, a).instances && Next(sys, a).instances[id] == RowAfter(sys, a, id)
  {
    hide Inv, FinishIf, Begin, MaxNumber;
    CountNotNegative(sys, id);
    match a
    case SandboxRefused(e) => if At(sys, e, Creating) { ExecMeansUp(sys, e); HolderFacts(sys, e); }
    case Release(e) => if At(sys, e, Phase.Ended) { ExecMeansUp(sys, e); HolderFacts(sys, e); }
    case _ =>
  }

  // ---------- after a stop ----------

  /** With the instance told to stop, no execution that does not hold a slot on it comes to hold one. */
  lemma NoNewHolder(sys: System, a: Action, id: string, e: nat)
    requires id in sys.instances && sys.instances[id].desired == ToStop
    requires e in Next(sys, a).execs && Holds(Next(sys, a).execs[e].phase) && Next(sys, a).execs[e].instance == id
    ensures e in sys.execs && Holds(sys.execs[e].phase) && sys.execs[e].instance == id
  {
    hide FinishIf, Begin, MaxNumber, ReleaseIf, Reconcile, Break;
  }

  /**
   An instance that is told to stop stays so, and from then on no execution is given a slot on it: the
   holders of its slots only become fewer, through every continuation.
   */
  lemma {:induction false} StoppedGivesNoSlot(sys: System, more: seq<Action>, id: string)
    requires Inv(sys) && id in sys.instances && sys.instances[id].desired == ToStop
    ensures var last := After(sys, more);
      id in last.instances && last.instances[id].desired == ToStop && Holders(last.execs, id) <= Holders(sys.execs, id)
    decreases |more|
  {
    hide Inv, Next, Holds;
    if more != [] {
      var next := Next(sys, more[0]);
      RowsExactly(sys, more[0], id);
      NextKeepsInv(sys, more[0]);
      forall e | e in Holders(next.execs, id)
        ensures e in Holders(sys.execs, id)
      {
        NoNewHolder(sys, more[0], id, e);
      }
      StoppedGivesNoSlot(next, more[1..], id);
    }
  }

  /** A slot is refused exactly on an instance that should not run, or is neither ready nor busy. */
  lemma RefusedOn(sys: System, a: Action, e: nat)
    requires Inv(sys) && e !in sys.refused && e in sys.execs
    ensures sys.execs[e].instance in sys.instances
    ensures e in Next(sys, a).refused
            <==> a == Action.Acquire(e) && sys.execs[e].phase == Preparing && !GivesSlots(sys.instances[sys.execs[e].instance])
  {
    hide Counted, Shapes, Numbered, Owned, Settled;
    ExecMeansUp(sys, e);
    InstanceKnown(sys.attempts, sys.execs, sys.instances, e);
    RefusedExactly(sys, a, e);
    hide Inv, Next;
  }

  // ---------- updates of a row ----------

  /**
   An update with the state it has read goes through exactly while that is still the state, and it leaves
   the counter and all other rows alone: of two that have read the same state and change it, the second
   fails.
   */
  lemma UpdateIsCompareAndSet(t: Table, id: string, desired: Desired, actual: Actual, read: Actual, other: Actual)
    ensures Update(t, id, desired, actual, read).Some? <==> id in t && t[id].actual == read
    ensures Update(t, id, desired, actual, read).Some? ==>
              var t' := Update(t, id, desired, actual, read).value;
              && t'.Keys == t.Keys && t'[id] == Instance(desired, actual, t[id].count)
              && (forall k :: k in t && k != id ==> t'[k] == t[k])
              && (actual != read ==> Update(t', id, desired, other, read).None?)
  {
  }
}
