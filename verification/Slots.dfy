/**
 Many executions of src/runtime/managed-agent-runtime.ts at once, with sandbox losses, crashes and the
 startup reconcilers between any two of their steps. An execution is named by the row of its attempt,
 and so is its sandbox, of which it has at most one.
 */
module Slots {
  import opened Options
  import opened Instances

  datatype Phase =
    | Preparing  // the attempt is there, the slot not yet
    | Creating   // the slot is held, the provider is asked for a sandbox
    | Acquired   // the sandbox runs, the execution does not know yet
    | Running    // attempt started, runtime invoked, sandbox registered
    | Ending     // the provider is asked to terminate the sandbox
    | Ended      // the sandbox is gone, the slot not yet released
    | Stuck      // terminate failed: the slot stays taken

  datatype Exec = Exec(instance: string, phase: Phase)

  predicate Holds(p: Phase) { !p.Preparing? }

  /** Cleaning is the startup between the two reconcilers. */
  datatype Mode = Up | Down | Cleaning

  /** `live` holds the running sandboxes; `refused` and `crashed` are the attempts that ended without an update. */
  datatype System = System(
    mode: Mode, instances: Table, attempts: seq<Attempt>, execs: map<nat, Exec>, live: set<nat>,
    refused: set<nat>, crashed: set<nat>)

  const INITIAL := System(Up, map[], [], map[], {}, {}, {})

  datatype Action =
    | Provision(instance: string)
    | Serve(instance: string)
    | Stop(instance: string)
    | Admit(runId: string, instance: string)
    | Reject(e: nat)
    | Acquire(e: nat)
    | SandboxUp(e: nat)
    | SandboxRefused(e: nat)
    | Invoke(e: nat)
    | InvokeEnds(e: nat, status: AttemptStatus)
    | SandboxDown(e: nat)
    | TerminateFails(e: nat)
    | Release(e: nat)
    | SandboxLost(e: nat, gone: bool)
    | Crash
    | ReconcileSlots
    | CleanSandbox(e: nat, done: bool)
    | StartUp

  predicate At(sys: System, e: nat, p: Phase) { e in sys.execs && sys.execs[e].phase == p }

  function Put(sys: System, e: nat, p: Phase): System
    requires e in sys.execs
  {
    sys.(execs := sys.execs[e := sys.execs[e].(phase := p)])
  }

  function Drop(sys: System, e: nat): System { sys.(execs := sys.execs - {e}) }

  /** A busy instance whose sandbox is lost is marked broken. */
  function Break(t: Table, id: string): Table {
    if id in t && t[id].actual.Busy? then t[id := t[id].(actual := Broken)] else t
  }

  function FinishIf(rows: seq<Attempt>, a: nat, seen: AttemptStatus, status: AttemptStatus): seq<Attempt> {
    if Finish(rows, a, seen, status).Some? then Finish(rows, a, seen, status).value else rows
  }

  function ReleaseIf(t: Table, id: string): Table {
    if ReleaseRun(t, id).Some? then ReleaseRun(t, id).value else t
  }

  function Instanced(sys: System, a: Action): System {
    match a
    case Provision(id) =>
      if id in sys.instances then sys else sys.(instances := sys.instances[id := Instance(ToRun, Provisioning, 0)])
    case Serve(id) =>
      if id in sys.instances && sys.instances[id].actual.Provisioning?
      then sys.(instances := sys.instances[id := sys.instances[id].(actual := Ready)]) else sys
    case Stop(id) =>
      if id in sys.instances then sys.(instances := sys.instances[id := sys.instances[id].(desired := ToStop)]) else sys
    case _ => sys
  }

  /** The steps of executions, up to the end of the runtime invocation. */
  function Executed(sys: System, a: Action): System {
    match a
    case Admit(r, id) =>
      if id !in sys.instances then sys
      else sys.(attempts := Created(sys.attempts, r, id), execs := sys.execs[|sys.attempts| := Exec(id, Preparing)])
    case Reject(e) =>
      if At(sys, e, Preparing) then Drop(sys.(attempts := FinishIf(sys.attempts, e, Pending, Rejected)), e) else sys
    case Acquire(e) =>
      if !At(sys, e, Preparing) then sys
      else
        var t := AcquireRun(sys.instances, sys.execs[e].instance);
        if t.Some? then Put(sys.(instances := t.value), e, Creating)
        else Drop(sys.(refused := sys.refused + {e}), e)
    case SandboxUp(e) =>
      if At(sys, e, Creating) then Put(sys.(live := sys.live + {e}), e, Acquired) else sys
    case SandboxRefused(e) =>
      if At(sys, e, Creating)
      then Drop(sys.(instances := ReleaseIf(sys.instances, sys.execs[e].instance),
                     attempts := FinishIf(sys.attempts, e, Pending, Failed)), e)
      else sys
    case Invoke(e) =>
      if At(sys, e, Acquired) && Begin(sys.attempts, e, Pending).Some?
      then Put(sys.(attempts := Begin(sys.attempts, e, Pending).value), e, Running) else sys
    case InvokeEnds(e, s) =>
      if At(sys, e, Running) && !Open(s)
      then Put(sys.(attempts := FinishIf(sys.attempts, e, InProgress, s)), e, Ending) else sys
    case _ => sys
  }

  /** The `finally` of an execution, and the loss of a sandbox. */
  function Ended(sys: System, a: Action): System {
    match a
    case SandboxDown(e) => if At(sys, e, Ending) then Put(sys.(live := sys.live - {e}), e, Phase.Ended) else sys
    case TerminateFails(e) => if At(sys, e, Ending) then Put(sys, e, Stuck) else sys
    case Release(e) =>
      if !At(sys, e, Phase.Ended) then sys
      else
        var id := sys.execs[e].instance;
        if id in sys.instances && sys.instances[id].count > 0
        then Drop(sys.(instances := ReleaseIf(sys.instances, id)), e) else Drop(sys, e)
    case SandboxLost(e, gone) =>
      var died := if gone then sys.(live := sys.live - {e}) else sys;
      if At(sys, e, Running)
      then died.(instances := Break(sys.instances, sys.execs[e].instance),
                 attempts := FinishIf(sys.attempts, e, InProgress, Interrupted))
      else died
    case _ => sys
  }

  /** A crash loses every execution; their sandboxes may go on running. */
  function Restarted(sys: System, a: Action): System {
    match a
    case Crash => sys.(mode := Down, execs := map[], crashed := sys.crashed + sys.execs.Keys)
    case ReconcileSlots => if sys.mode.Down? then sys.(mode := Cleaning, instances := Reconcile(sys.instances)) else sys
    case CleanSandbox(e, done) =>
      if !sys.mode.Cleaning? || e !in sys.live || e >= |sys.attempts| then sys
      else
        sys.(live := if done then sys.live - {e} else sys.live,
             attempts := FinishIf(sys.attempts, e, InProgress, Interrupted),
             instances := Break(sys.instances, sys.attempts[e].instance))
    case StartUp => if sys.mode.Cleaning? && sys.live == {} then sys.(mode := Up) else sys
    case _ => sys
  }

  function Next(sys: System, a: Action): System {
    match a
    case Provision(_) | Serve(_) | Stop(_) => if sys.mode.Up? then Instanced(sys, a) else sys
    case Crash | ReconcileSlots | CleanSandbox(_, _) | StartUp => Restarted(sys, a)
    case SandboxDown(_) | TerminateFails(_) | Release(_) => Ended(sys, a)
    case SandboxLost(_, _) => Ended(sys, a)
    case _ => if sys.mode.Up? then Executed(sys, a) else sys
  }

  function After(sys: System, actions: seq<Action>): System
    decreases |actions|
  {
    if actions == [] then sys else After(Next(sys, actions[0]), actions[1..])
  }

  // ---------- the invariant ----------

  /** The executions between acquire and release on an instance. */
  function Holders(execs: map<nat, Exec>, id: string): set<nat> {
    set e | e in execs && Holds(execs[e].phase) && execs[e].instance == id
  }

  predicate Shape(i: Instance) {
    && i.count >= 0
    && (i.actual.Ready? ==> i.count == 0)
    && (i.count > 0 ==> i.actual.Busy? || i.actual.Broken?)
    && (i.actual.Busy? && i.desired.ToRun? ==> i.count > 0)
  }

  ghost predicate Shapes(t: Table) { forall id :: id in t ==> Shape(t[id]) }

  ghost predicate Counted(t: Table, execs: map<nat, Exec>) {
    forall id :: id in t ==> t[id].count == |Holders(execs, id)|
  }

  /** What the attempt of an execution must say in each phase. */
  predicate Suits(p: Phase, s: AttemptStatus) {
    match p
    case Preparing | Creating | Acquired => s.Pending?
    case Running => s.InProgress? || s.Interrupted?
    case Ending | Ended | Stuck => !Open(s)
  }

  ghost predicate Suited(attempts: seq<Attempt>, execs: map<nat, Exec>, t: Table) {
    forall e :: e in execs ==>
                  && e < |attempts| && execs[e].instance in t
                  && attempts[e].instance == execs[e].instance && Suits(execs[e].phase, attempts[e].status)
  }

  predicate HasSandbox(p: Phase) { p.Acquired? || p.Running? || p.Ending? || p.Stuck? }

  /** Every running sandbox belongs to an execution that holds a slot. */
  ghost predicate Owned(live: set<nat>, execs: map<nat, Exec>) {
    forall e :: e in live ==> e in execs && HasSandbox(execs[e].phase)
  }

  /** Attempts of executions that are gone are over, but for refused slots and crashes. */
  ghost predicate Settled(attempts: seq<Attempt>, execs: map<nat, Exec>, refused: set<nat>, crashed: set<nat>) {
    forall e :: 0 <= e < |attempts| && e !in execs ==>
                  || !Open(attempts[e].status)
                  || (attempts[e].status.Pending? && e in refused)
                  || e in crashed
  }

  /** Refused attempts have no execution and are pending. */
  ghost predicate Waiting(attempts: seq<Attempt>, execs: map<nat, Exec>, refused: set<nat>) {
    forall e :: e in refused ==> e < |attempts| && e !in execs && attempts[e].status.Pending?
  }

  ghost predicate Inv(sys: System) {
    && Waiting(sys.attempts, sys.execs, sys.refused)
    && Shapes(sys.instances) && Numbered(sys.attempts)
    && Settled(sys.attempts, sys.execs, sys.refused, sys.crashed)
    && Suited(sys.attempts, sys.execs, sys.instances)
    && (!sys.mode.Up? ==> sys.execs == map[] && forall e :: e in sys.live ==> e < |sys.attempts|)
    && (sys.mode.Up? ==> Counted(sys.instances, sys.execs) && Owned(sys.live, sys.execs))
    && (sys.mode.Cleaning? ==> forall id :: id in sys.instances ==>
                                              sys.instances[id].count == 0
                                              && (sys.instances[id].desired.ToRun? ==> Acquirable(sys.instances[id])))
  }
}
