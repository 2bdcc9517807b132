/**
 Harness instances and run attempts: the slot counters of src/instances/harness-instance-store.ts with
 the transition table of src/instances/harness-instance.ts, and the attempts of src/runs/run-attempt.ts
 and src/runs/run-attempt-store.ts.
 */
module Instances {
  import opened Options

  datatype Desired = ToRun | ToStop
  datatype Actual = Provisioning | Ready | Busy | Stopped | Broken

  datatype Instance = Instance(desired: Desired, actual: Actual, count: int)

  type Table = map<string, Instance>

  predicate CanMove(from: Actual, next: Actual) {
    match from
    case Provisioning => next.Ready? || next.Broken? || next.Stopped?
    case Ready => next.Busy? || next.Broken? || next.Stopped?
    case Busy => next.Ready? || next.Broken? || next.Stopped?
    case Stopped => next.Provisioning?
    case Broken => next.Provisioning? || next.Stopped?
  }

  /** UPDATE guarded by the state as read before; it never writes the counter. */
  function Update(t: Table, id: string, desired: Desired, actual: Actual, previous: Actual): Option<Table> {
    if id in t && t[id].actual == previous then Some(t[id := t[id].(desired := desired, actual := actual)]) else None
  }

  predicate Acquirable(i: Instance) { i.desired.ToRun? && (i.actual.Ready? || i.actual.Busy?) }

  function AcquireRun(t: Table, id: string): Option<Table> {
    if id in t && Acquirable(t[id]) then Some(t[id := t[id].(count := t[id].count + 1, actual := Busy)]) else None
  }

  function Released(i: Instance): Instance {
    i.(count := i.count - 1, actual := if i.actual.Broken? then Broken else if i.count <= 1 then Ready else Busy)
  }

  function ReleaseRun(t: Table, id: string): Option<Table> {
    if id in t && t[id].count > 0 && (t[id].actual.Busy? || t[id].actual.Broken?) then Some(t[id := Released(t[id])])
    else None
  }

  predicate Stale(i: Instance) {
    i.count > 0 || (i.desired.ToRun? && !i.actual.Ready? && !i.actual.Busy?)
  }

  function Reconciled(i: Instance): Instance {
    if !Stale(i) then i
    else if i.desired.ToRun? then Instance(ToRun, Ready, 0)
    else i.(count := 0)
  }

  function Reconcile(t: Table): Table {
    map id | id in t :: Reconciled(t[id])
  }

  class HarnessInstanceStore {
    var rows: Table

    constructor ()
      ensures rows == map[]
    {
      rows := map[];
    }

    method UpdateInstance(id: string, desired: Desired, actual: Actual, previous: Actual) returns (ok: bool)
      modifies this
      ensures ok == Update(old(rows), id, desired, actual, previous).Some?
      ensures rows == if ok then Update(old(rows), id, desired, actual, previous).value else old(rows)
    {
      ok := id in rows && rows[id].actual == previous;
      if ok {
        rows := rows[id := rows[id].(desired := desired, actual := actual)];
      }
    }

    method Acquire(id: string) returns (ok: bool)
      modifies this
      ensures ok == AcquireRun(old(rows), id).Some?
      ensures rows == if ok then AcquireRun(old(rows), id).value else old(rows)
    {
      ok := id in rows && Acquirable(rows[id]);
      if ok {
        rows := rows[id := rows[id].(count := rows[id].count + 1, actual := Busy)];
      }
    }

    method Release(id: string) returns (ok: bool)
      modifies this
      ensures ok == ReleaseRun(old(rows), id).Some?
      ensures rows == if ok then ReleaseRun(old(rows), id).value else old(rows)
    {
      ok := id in rows && rows[id].count > 0 && (rows[id].actual.Busy? || rows[id].actual.Broken?);
      if ok {
        var i := rows[id];
        var next := if i.actual.Broken? then Broken else if i.count <= 1 then Ready else Busy;
        rows := rows[id := i.(count := i.count - 1, actual := next)];
      }
    }

    /** Goes through the stale rows one by one, in any order. */
    method ReconcileStaleSlotsForStartup() returns (corrected: set<string>)
      modifies this
      ensures rows == Reconcile(old(rows))
      ensures corrected == set id | id in old(rows) && Stale(old(rows)[id])
    {
      corrected := set id | id in rows && Stale(rows[id]);
      var todo := corrected;
      while todo != {}
        invariant todo <= corrected && rows.Keys == old(rows).Keys
        invariant forall id :: id in rows ==> rows[id] == if id in todo then old(rows)[id] else Reconciled(old(rows)[id])
        decreases todo
      {
        var id :| id in todo;
        var i := rows[id];
        rows := rows[id := if i.desired.ToRun? then Instance(ToRun, Ready, 0) else i.(count := 0)];
        todo := todo - {id};
      }
      assert rows == Reconcile(old(rows));
    }
  }

  /**
   Reconciling twice is reconciling once. Afterwards no slot is held, every instance that should run
   can be acquired, and one that should stop keeps its state.
   */
  lemma ReconcileSettles(t: Table)
    requires forall id :: id in t ==> t[id].count >= 0
    ensures Reconcile(Reconcile(t)) == Reconcile(t)
    ensures Reconcile(t).Keys == t.Keys
    ensures forall id :: id in t ==>
                           && Reconcile(t)[id].count == 0 && Reconcile(t)[id].desired == t[id].desired
                           && (t[id].desired.ToRun? ==> AcquireRun(Reconcile(t), id).Some?)
                           && (t[id].desired.ToStop? ==> Reconcile(t)[id].actual == t[id].actual)
  {
    var r := Reconcile(t);
    assert forall id :: id in t ==> Reconciled(r[id]) == r[id];
    assert Reconcile(r) == r;
  }

  // ---------- attempts ----------

  datatype AttemptStatus = Pending | InProgress | Succeeded | Failed | Interrupted | Rejected

  datatype Attempt = Attempt(runId: string, number: int, instance: string, status: AttemptStatus)

  predicate Open(s: AttemptStatus) { s.Pending? || s.InProgress? }

  /** finishRunAttempt refuses an attempt that is over; update refuses one that has changed since. */
  function Finish(rows: seq<Attempt>, a: nat, seen: AttemptStatus, status: AttemptStatus): Option<seq<Attempt>> {
    if a < |rows| && Open(seen) && rows[a].status == seen then Some(rows[a := rows[a].(status := status)]) else None
  }

  function Begin(rows: seq<Attempt>, a: nat, seen: AttemptStatus): Option<seq<Attempt>> {
    if a < |rows| && seen.Pending? && rows[a].status.Pending? then Some(rows[a := rows[a].(status := InProgress)]) else None
  }

  /** COALESCE(MAX(attempt_number), 0) over the attempts of a run. */
  function MaxNumber(rows: seq<Attempt>, runId: string): (m: int)
    ensures m >= 0
  {
    if rows == [] then 0
    else
      var rest := MaxNumber(rows[..|rows| - 1], runId);
      var last := rows[|rows| - 1];
      if last.runId == runId && last.number > rest then last.number else rest
  }

  function Created(rows: seq<Attempt>, runId: string, instance: string): seq<Attempt> {
    rows + [Attempt(runId, MaxNumber(rows, runId) + 1, instance, Pending)]
  }

  function CountFor(rows: seq<Attempt>, runId: string): nat {
    if rows == [] then 0
    else CountFor(rows[..|rows| - 1], runId) + if rows[|rows| - 1].runId == runId then 1 else 0
  }

  /** The attempts of a run are numbered 1, 2, 3 and so on in the order they were created. */
  ghost predicate Numbered(rows: seq<Attempt>) {
    forall k :: 0 <= k < |rows| ==> rows[k].number == CountFor(rows[..k], rows[k].runId) + 1
  }

  lemma {:induction false} MaxIsCount(rows: seq<Attempt>, runId: string)
    requires Numbered(rows)
    ensures MaxNumber(rows, runId) == CountFor(rows, runId)
  {
    if rows != [] {
      var rest := rows[..|rows| - 1];
      assert forall k :: 0 <= k < |rest| ==> rest[..k] == rows[..k];
      MaxIsCount(rest, runId);
    }
  }

  lemma {:induction false} CountSame(rows: seq<Attempt>, rows': seq<Attempt>, runId: string)
    requires |rows| == |rows'| && forall k :: 0 <= k < |rows| ==> rows[k].runId == rows'[k].runId
    ensures CountFor(rows, runId) == CountFor(rows', runId)
  {
    if rows != [] {
      CountSame(rows[..|rows| - 1], rows'[..|rows'| - 1], runId);
    }
  }

  /** Creating an attempt and changing the status of one both keep the numbering. */
  lemma NumberingKept(rows: seq<Attempt>, runId: string, instance: string, a: nat, status: AttemptStatus)
    requires Numbered(rows)
    ensures Numbered(Created(rows, runId, instance))
    ensures a < |rows| ==> Numbered(rows[a := rows[a].(status := status)])
  {
    var more := Created(rows, runId, instance);
    MaxIsCount(rows, runId);
    forall k | 0 <= k < |more|
      ensures more[k].number == CountFor(more[..k], more[k].runId) + 1
    {
      assert more[..k] == rows[..k];
    }
    if a < |rows| {
      var rows' := rows[a := rows[a].(status := status)];
      forall k | 0 <= k < |rows'|
        ensures rows'[k].number == CountFor(rows'[..k], rows'[k].runId) + 1
      {
        CountSame(rows[..k], rows'[..k], rows[k].runId);
      }
    }
  }

  class RunAttemptStore {
    var rows: seq<Attempt>

    constructor ()
      ensures rows == []
    {
      rows := [];
    }

    method Create(runId: string, instance: string) returns (a: nat)
      modifies this
      ensures a == |old(rows)| && rows == Created(old(rows), runId, instance)
    {
      a := |rows|;
      var number := NextAttemptNumber(runId);
      rows := rows + [Attempt(runId, number, instance, Pending)];
    }

    method NextAttemptNumber(runId: string) returns (n: int)
      ensures n == MaxNumber(rows, runId) + 1
    {
      var max := 0;
      for i := 0 to |rows|
        invariant max == MaxNumber(rows[..i], runId)
      {
        assert rows[..i + 1][..i] == rows[..i];
        if rows[i].runId == runId && rows[i].number > max {
          max := rows[i].number;
        }
      }
      assert rows[..|rows|] == rows;
      n := max + 1;
    }

    /** Compare and set. */
    method UpdateStatus(a: nat, status: AttemptStatus, previous: AttemptStatus) returns (ok: bool)
      modifies this
      ensures ok <==> a < |old(rows)| && old(rows)[a].status == previous
      ensures rows == if ok then old(rows)[a := old(rows)[a].(status := status)] else old(rows)
    {
      ok := a < |rows| && rows[a].status == previous;
      if ok {
        rows := rows[a := rows[a].(status := status)];
      }
    }
  }
}
