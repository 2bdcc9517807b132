/** What the router's mutable, lazily reset state means in terms of the calls made to it. */
module RouterTheorems {
  import opened Options
  import opened Router

  datatype Op =
    | Asked(model: string, now: nat)
    | Succeeded(id: string, now: nat)
    | Failed(id: string, now: nat)
    | Probed(id: string, healthy: bool, now: nat)
    | Taken(id: string, now: nat)
    | Returned(id: string, now: nat)

  function Apply(c: Config, s: Routing, op: Op): Routing {
    match op
    case Asked(model, now) => CandidatesFor(c, s, model, now).0
    case Succeeded(id, _) => RecordSuccess(s, id)
    case Failed(id, now) => RecordFailure(c, s, id, now)
    case Probed(id, healthy, _) => RecordHealthProbe(s, id, healthy)
    case Taken(id, _) => Acquire(s, id)
    case Returned(id, _) => Release(s, id)
  }

  function Start(c: Config): Routing { Routing(map id | id in BackendsOf(c) :: FRESH, map[]) }

  /** The router after some operations on a state. */
  function Done(c: Config, s: Routing, ops: seq<Op>): Routing {
    if ops == [] then s else Apply(c, Done(c, s, ops[..|ops| - 1]), ops[|ops| - 1])
  }

  function Run(c: Config, trace: seq<Op>): Routing { Done(c, Start(c), trace) }

  function Clock(trace: seq<Op>): nat { if trace == [] then 0 else trace[|trace| - 1].now }

  predicate Monotone(trace: seq<Op>) {
    forall i, j :: 0 <= i < j < |trace| ==> trace[i].now <= trace[j].now
  }

  // ---------- the breaker as a function of the outcomes ----------

  function FailuresSince(trace: seq<Op>, id: string): nat {
    if trace == [] then 0
    else
      var before := FailuresSince(trace[..|trace| - 1], id);
      match trace[|trace| - 1]
      case Failed(x, _) => if x == id then before + 1 else before
      case Succeeded(x, _) => if x == id then 0 else before
      case _ => before
  }

  /** The last failure since the last success. */
  function LastFailure(trace: seq<Op>, id: string): Option<nat> {
    if trace == [] then None
    else
      var before := LastFailure(trace[..|trace| - 1], id);
      match trace[|trace| - 1]
      case Failed(x, now) => if x == id then Some(now) else before
      case Succeeded(x, _) => if x == id then None else before
      case _ => before
  }

  function LastProbe(trace: seq<Op>, id: string): bool {
    if trace == [] then true
    else
      match trace[|trace| - 1]
      case Probed(x, healthy, _) => if x == id then healthy else LastProbe(trace[..|trace| - 1], id)
      case _ => LastProbe(trace[..|trace| - 1], id)
  }

  predicate CircuitOpen(c: Config, trace: seq<Op>, id: string, now: nat) {
    var last := LastFailure(trace, id);
    last.Some? && FailuresSince(trace, id) >= c.threshold && now < last.value + c.cooldown
  }

  /** Either the field holds the deadline, or there is none, or it has passed and was reset. */
  predicate Tracks(c: Config, b: Backend, failures: nat, last: Option<nat>, probe: bool, clock: nat) {
    && b.failures == failures && b.healthy == probe
    && (last.None? ==> failures == 0)
    && (if b.openUntil != 0 then last.Some? && failures >= c.threshold && b.openUntil == last.value + c.cooldown
        else last.None? || failures < c.threshold || clock >= last.value + c.cooldown)
  }

  lemma ApplyTracks(c: Config, s: Routing, op: Op, id: string, failures: nat, last: Option<nat>, probe: bool, clock: nat)
    requires id in s.backends && Tracks(c, s.backends[id], failures, last, probe, clock) && clock <= op.now
    ensures id in Apply(c, s, op).backends
    ensures Tracks(c, Apply(c, s, op).backends[id],
                   if op == Failed(id, op.now) then failures + 1 else if op == Succeeded(id, op.now) then 0 else failures,
                   if op == Failed(id, op.now) then Some(op.now) else if op == Succeeded(id, op.now) then None else last,
                   if op.Probed? && op.id == id then op.healthy else probe,
                   op.now)
  {
    if op.Asked? {
      ResetAllEffect(s, ListOf(c, op.model), op.now);
      hide ResetAll, Pool, Rotated, ByActivity;
    }
  }

  lemma {:induction false} RunTracks(c: Config, trace: seq<Op>, id: string)
    requires Monotone(trace) && id in BackendsOf(c)
    ensures id in Run(c, trace).backends
    ensures Tracks(c, Run(c, trace).backends[id], FailuresSince(trace, id), LastFailure(trace, id), LastProbe(trace, id), Clock(trace))
    decreases |trace|
  {
    hide Apply, Tracks;
    if trace == [] {
      assert Tracks(c, FRESH, 0, None, true, 0) by { NothingYet(c); }
    } else {
      var before, op := trace[..|trace| - 1], trace[|trace| - 1];
      RunTracks(c, before, id);
      ApplyTracks(c, Run(c, before), op, id, FailuresSince(before, id), LastFailure(before, id), LastProbe(before, id), Clock(before));
    }
  }

  lemma NothingYet(c: Config)
    ensures Tracks(c, FRESH, 0, None, true, 0)
  {
  }

  /**
   The breaker refines its history: with a monotone clock a backend is open exactly when the failures
   since its last success have reached the threshold and the last of them is less than the cooldown
   ago, however often and for whichever models candidates were asked for in between.
   */
  lemma BreakerRefinesHistory(c: Config, trace: seq<Op>, id: string, now: nat)
    requires Monotone(trace) && id in BackendsOf(c) && Clock(trace) <= now
    ensures var s := Run(c, trace);
      && id in s.backends && s.backends[id].failures == FailuresSince(trace, id)
      && (IsOpen(s.backends[id], now) <==> CircuitOpen(c, trace, id, now))
      && s.backends[id].healthy == LastProbe(trace, id)
  {
    RunTracks(c, trace, id);
  }

  // ---------- candidates ----------

  lemma {:induction false} ClosedCounts(s: Routing, ids: seq<string>, now: nat, x: string)
    ensures multiset(Closed(s, ids, now))[x] == if ClosedAt(s, x, now) then multiset(ids)[x] else 0
  {
    hide ClosedAt;
    if ids != [] {
      assert ids == ids[..|ids| - 1] + [ids[|ids| - 1]];
      ClosedCounts(s, ids[..|ids| - 1], now, x);
    }
  }

  lemma {:induction false} HealthyCounts(s: Routing, ids: seq<string>, x: string)
    ensures multiset(Healthy(s, ids))[x] == if HealthyIn(s, x) then multiset(ids)[x] else 0
  {
    hide HealthyIn;
    if ids != [] {
      assert ids == ids[..|ids| - 1] + [ids[|ids| - 1]];
      HealthyCounts(s, ids[..|ids| - 1], x);
    }
  }

  lemma RotatedPermutes(ids: seq<string>, cursor: nat)
    requires |ids| > 0
    ensures multiset(Rotated(ids, cursor)) == multiset(ids)
    ensures Rotated(ids, cursor)[0] == ids[cursor % |ids|]
  {
    assert ids == ids[..cursor % |ids|] + ids[cursor % |ids|..];
  }

  lemma {:induction false} InsertPermutes(s: Routing, sorted: seq<string>, id: string)
    ensures multiset(Insert(s, sorted, id)) == multiset(sorted) + multiset{id}
  {
    if sorted != [] && ActiveOf(s, sorted[|sorted| - 1]) > ActiveOf(s, id) {
      InsertPermutes(s, sorted[..|sorted| - 1], id);
      assert sorted == sorted[..|sorted| - 1] + [sorted[|sorted| - 1]];
    }
  }

  predicate Sorted(s: Routing, ids: seq<string>) {
    forall i, j :: 0 <= i < j < |ids| ==> ActiveOf(s, ids[i]) <= ActiveOf(s, ids[j])
  }

  lemma SortedSnoc(s: Routing, ids: seq<string>, last: string)
    requires Sorted(s, ids) && forall x :: x in ids ==> ActiveOf(s, x) <= ActiveOf(s, last)
    ensures Sorted(s, ids + [last])
  {
  }

  lemma {:induction false} InsertSorts(s: Routing, sorted: seq<string>, id: string)
    requires Sorted(s, sorted)
    ensures Sorted(s, Insert(s, sorted, id))
    ensures Insert(s, sorted, id) != []
    ensures forall x :: x in Insert(s, sorted, id) <==> x in sorted || x == id
  {
    hide ActiveOf;
    if sorted != [] && ActiveOf(s, sorted[|sorted| - 1]) > ActiveOf(s, id) {
      var rest, last := sorted[..|sorted| - 1], sorted[|sorted| - 1];
      assert sorted == rest + [last];
      InsertSorts(s, rest, id);
      forall x | x in Insert(s, rest, id)
        ensures ActiveOf(s, x) <= ActiveOf(s, last)
      {
        if x != id {
          var i :| 0 <= i < |rest| && rest[i] == x;
          assert sorted[i] == x;
        }
      }
      SortedSnoc(s, Insert(s, rest, id), last);
    } else {
      forall x | x in sorted
        ensures ActiveOf(s, x) <= ActiveOf(s, id)
      {
        var i :| 0 <= i < |sorted| && sorted[i] == x;
      }
      SortedSnoc(s, sorted, id);
    }
  }

  /** The backends of one activity, in order. */
  function OfActivity(s: Routing, ids: seq<string>, k: nat): seq<string> {
    if ids == [] then []
    else
      var rest := OfActivity(s, ids[..|ids| - 1], k);
      if ActiveOf(s, ids[|ids| - 1]) == k then rest + [ids[|ids| - 1]] else rest
  }

  lemma OfActivitySnoc(s: Routing, ids: seq<string>, id: string, k: nat)
    ensures OfActivity(s, ids + [id], k) == if ActiveOf(s, id) == k then OfActivity(s, ids, k) + [id] else OfActivity(s, ids, k)
  {
    assert (ids + [id])[..|ids|] == ids;
  }

  lemma {:induction false} NoneOfActivity(s: Routing, ids: seq<string>, k: nat)
    requires forall i :: 0 <= i < |ids| ==> ActiveOf(s, ids[i]) != k
    ensures OfActivity(s, ids, k) == []
  {
    if ids != [] {
      NoneOfActivity(s, ids[..|ids| - 1], k);
    }
  }

  lemma {:induction false} InsertIsStable(s: Routing, sorted: seq<string>, id: string, k: nat)
    requires Sorted(s, sorted)
    ensures OfActivity(s, Insert(s, sorted, id), k) == if ActiveOf(s, id) == k then OfActivity(s, sorted, k) + [id] else OfActivity(s, sorted, k)
    decreases |sorted|
  {
    hide ActiveOf;
    if sorted == [] || ActiveOf(s, sorted[|sorted| - 1]) <= ActiveOf(s, id) {
      OfActivitySnoc(s, sorted, id, k);
    } else {
      var rest, last := sorted[..|sorted| - 1], sorted[|sorted| - 1];
      InsertIsStable(s, rest, id, k);
      OfActivitySnoc(s, Insert(s, rest, id), last, k);
    }
  }

  /** The least active order is the stable sort: ascending, and backends of equal activity keep their order. */
  lemma {:induction false} ByActivitySorts(s: Routing, ids: seq<string>, k: nat)
    ensures Sorted(s, ByActivity(s, ids)) && multiset(ByActivity(s, ids)) == multiset(ids)
    ensures OfActivity(s, ByActivity(s, ids), k) == OfActivity(s, ids, k)
  {
    hide ActiveOf, Sorted, Insert;
    if ids == [] {
      assert Sorted(s, []) by { EmptySorted(s); }
    } else {
      var rest, last := ids[..|ids| - 1], ids[|ids| - 1];
      assert ids == rest + [last];
      ByActivitySorts(s, rest, k);
      InsertPermutes(s, ByActivity(s, rest), last);
      InsertSorts(s, ByActivity(s, rest), last);
      InsertIsStable(s, ByActivity(s, rest), last, k);
    }
  }

  lemma EmptySorted(s: Routing)
    ensures Sorted(s, [])
  {
  }

  lemma OrderedPermutes(c: Config, s: Routing, model: string, ids: seq<string>)
    ensures multiset(Ordered(c, s, model, ids).1) == multiset(ids)
    ensures Ordered(c, s, model, ids).0.backends == s.backends
  {
    if |ids| > 1 {
      RotatedPermutes(ids, CursorOf(s, model));
      ByActivitySorts(s, ids, 0);
    }
    hide Rotated, ByActivity;
  }

  /** Some configured backend of the model is closed and healthy by its history. */
  predicate SomeHealthy(c: Config, trace: seq<Op>, model: string, now: nat) {
    exists i :: 0 <= i < |ListOf(c, model)| && !CircuitOpen(c, trace, ListOf(c, model)[i], now) && LastProbe(trace, ListOf(c, model)[i])
  }

  predicate Eligible(c: Config, trace: seq<Op>, model: string, id: string, now: nat) {
    !CircuitOpen(c, trace, id, now) && (LastProbe(trace, id) || !SomeHealthy(c, trace, model, now))
  }

  lemma ListedIsBackend(c: Config, model: string, i: nat)
    requires i < |ListOf(c, model)|
    ensures ListOf(c, model)[i] in BackendsOf(c)
  {
  }

  /**
   The candidates after any history are a permutation of the closed backends that are healthy, or of
   all closed ones when none is, each as often as it is configured.
   */
  lemma CandidatesExactly(c: Config, trace: seq<Op>, model: string, now: nat, id: string)
    requires Monotone(trace) && Clock(trace) <= now
    ensures multiset(CandidatesFor(c, Run(c, trace), model, now).1)[id]
            == if Eligible(c, trace, model, id, now) then multiset(ListOf(c, model))[id] else 0
  {
    hide Run, CircuitOpen, LastProbe, ResetAll, Closed, Healthy, Ordered;
    var s, ids := Run(c, trace), ListOf(c, model);
    var closed := Closed(s, ids, now);
    forall x
      ensures multiset(closed)[x] == if ClosedAt(s, x, now) then multiset(ids)[x] else 0
      ensures multiset(Healthy(s, closed))[x] == if HealthyIn(s, x) then multiset(closed)[x] else 0
    {
      ClosedCounts(s, ids, now, x);
      HealthyCounts(s, closed, x);
    }
    forall i | 0 <= i < |ids|
      ensures ClosedAt(s, ids[i], now) <==> !CircuitOpen(c, trace, ids[i], now)
      ensures HealthyIn(s, ids[i]) <==> LastProbe(trace, ids[i])
    {
      ListedIsBackend(c, model, i);
      BreakerRefinesHistory(c, trace, ids[i], now);
    }
    SomeHealthyInPool(c, trace, model, now, s, ids, closed);
    OrderedPermutes(c, ResetAll(s, ids, now), model, Pool(s, ids, now));
    if id in ids {
      var i :| 0 <= i < |ids| && ids[i] == id;
    }
    hide ClosedAt, HealthyIn;
  }

  lemma SomeHealthyInPool(c: Config, trace: seq<Op>, model: string, now: nat, s: Routing, ids: seq<string>, closed: seq<string>)
    requires ids == ListOf(c, model)
    requires forall x :: multiset(closed)[x] == if ClosedAt(s, x, now) then multiset(ids)[x] else 0
    requires forall x :: multiset(Healthy(s, closed))[x] == if HealthyIn(s, x) then multiset(closed)[x] else 0
    requires forall i :: 0 <= i < |ids| ==>
                           && (ClosedAt(s, ids[i], now) <==> !CircuitOpen(c, trace, ids[i], now))
                           && (HealthyIn(s, ids[i]) <==> LastProbe(trace, ids[i]))
    ensures Healthy(s, closed) != [] <==> SomeHealthy(c, trace, model, now)
  {
    hide CircuitOpen, LastProbe, Healthy, ClosedAt, HealthyIn;
    if Healthy(s, closed) != [] {
      var x := Healthy(s, closed)[0];
      assert x in multiset(Healthy(s, closed));
      assert x in multiset(ids);
      var i :| 0 <= i < |ids| && ids[i] == x;
    }
    if SomeHealthy(c, trace, model, now) {
      var i :| 0 <= i < |ids| && !CircuitOpen(c, trace, ids[i], now) && LastProbe(trace, ids[i]);
      assert ids[i] in multiset(ids);
      assert multiset(Healthy(s, closed))[ids[i]] > 0;
    }
  }

  /** There is a candidate exactly when some configured backend is closed: probes alone never empty the list. */
  lemma CandidatesExist(c: Config, trace: seq<Op>, model: string, now: nat)
    requires Monotone(trace) && Clock(trace) <= now
    ensures CandidatesFor(c, Run(c, trace), model, now).1 != []
            <==> exists i :: 0 <= i < |ListOf(c, model)| && !CircuitOpen(c, trace, ListOf(c, model)[i], now)
  {
    hide CandidatesFor, Run, CircuitOpen, LastProbe;
    var ids, r := ListOf(c, model), CandidatesFor(c, Run(c, trace), model, now).1;
    if r != [] {
      CandidatesExactly(c, trace, model, now, r[0]);
      assert r[0] in multiset(r);
      assert r[0] in multiset(ids);
    }
    if i :| 0 <= i < |ids| && !CircuitOpen(c, trace, ids[i], now) {
      if SomeHealthy(c, trace, model, now) {
        var k :| 0 <= k < |ids| && !CircuitOpen(c, trace, ids[k], now) && LastProbe(trace, ids[k]);
        CandidatesExactly(c, trace, model, now, ids[k]);
        assert ids[k] in multiset(ids);
      } else {
        CandidatesExactly(c, trace, model, now, ids[i]);
        assert ids[i] in multiset(ids);
      }
    }
  }
}
