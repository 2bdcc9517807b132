/** In which order the router offers the backends of a model, by the history of calls alone. */
module RouterOrder {
  import opened Places
  import opened Router
  import opened RouterTheorems
  import Fallback
  import Rotation

  // ---------- places in the configured list ----------

  predicate Within(ids: seq<string>, ps: seq<nat>) { forall a :: 0 <= a < |ps| ==> ps[a] < |ids| }

  /** The backends at some places of the list. */
  function At(ids: seq<string>, ps: seq<nat>): (r: seq<string>)
    requires Within(ids, ps)
    ensures |r| == |ps| && forall a :: 0 <= a < |ps| ==> r[a] == ids[ps[a]]
  {
    seq(|ps|, a requires 0 <= a < |ps| => ids[ps[a]])
  }

  /** The places of the backends that are eligible by history, in the order of the configuration. */
  ghost predicate EligibleAt(c: Config, trace: seq<Op>, model: string, now: nat, ps: seq<nat>) {
    && Ascending(ps) && Within(ListOf(c, model), ps)
    && forall i: nat :: i in ps <==> i < |ListOf(c, model)| && Eligible(c, trace, model, ListOf(c, model)[i], now)
  }

  // ---------- the pool ----------

  function Kept(ids: seq<string>, keep: string -> bool): seq<string> {
    if ids == [] then []
    else
      var rest := Kept(ids[..|ids| - 1], keep);
      if keep(ids[|ids| - 1]) then rest + [ids[|ids| - 1]] else rest
  }

  lemma {:induction false} KeptPlaces(ids: seq<string>, keep: string -> bool) returns (ps: seq<nat>)
    ensures Ascending(ps) && Within(ids, ps) && At(ids, ps) == Kept(ids, keep)
    ensures forall i: nat :: i in ps <==> i < |ids| && keep(ids[i])
  {
    ps := [];
    if ids != [] {
      var n := |ids| - 1;
      ps := KeptPlaces(ids[..n], keep);
      assert At(ids, ps) == At(ids[..n], ps);
      if keep(ids[n]) {
        assert At(ids, ps + [n]) == At(ids, ps) + [ids[n]];
        ps := ps + [n];
      }
    }
  }

  lemma {:induction false} KeptAlike(ids: seq<string>, f: string -> bool, g: string -> bool)
    requires forall i :: 0 <= i < |ids| ==> f(ids[i]) == g(ids[i])
    ensures Kept(ids, f) == Kept(ids, g)
  {
    if ids != [] {
      KeptAlike(ids[..|ids| - 1], f, g);
    }
  }

  lemma {:induction false} ClosedIsKept(s: Routing, ids: seq<string>, now: nat)
    ensures Closed(s, ids, now) == Kept(ids, id => ClosedAt(s, id, now))
  {
    if ids != [] {
      ClosedIsKept(s, ids[..|ids| - 1], now);
    }
  }

  lemma {:induction false} HealthyIsKept(s: Routing, ids: seq<string>, keep: string -> bool)
    ensures Healthy(s, Kept(ids, keep)) == Kept(ids, id => keep(id) && HealthyIn(s, id))
  {
    if ids != [] {
      var rest, last := ids[..|ids| - 1], ids[|ids| - 1];
      HealthyIsKept(s, rest, keep);
      if keep(last) {
        assert (Kept(rest, keep) + [last])[..|Kept(rest, keep)|] == Kept(rest, keep);
      }
    }
  }

  lemma {:induction false} KeptSome(ids: seq<string>, keep: string -> bool)
    ensures Kept(ids, keep) != [] <==> exists i :: 0 <= i < |ids| && keep(ids[i])
  {
    if ids != [] {
      var n := |ids| - 1;
      KeptSome(ids[..n], keep);
      if i :| 0 <= i < |ids| && keep(ids[i]) {
        assert i < n ==> ids[..n][i] == ids[i];
      }
    }
  }

  lemma ByHistory(c: Config, trace: seq<Op>, model: string, now: nat, i: nat)
    requires Monotone(trace) && Clock(trace) <= now && i < |ListOf(c, model)|
    ensures var s, id := Run(c, trace), ListOf(c, model)[i];
      && (ClosedAt(s, id, now) <==> !CircuitOpen(c, trace, id, now))
      && (HealthyIn(s, id) <==> LastProbe(trace, id))
  {
    hide Run, CircuitOpen, LastProbe;
    ListedIsBackend(c, model, i);
    BreakerRefinesHistory(c, trace, ListOf(c, model)[i], now);
  }

  /** The pool of a call is what is eligible by history, in the order of the configuration. */
  lemma PoolByHistory(c: Config, trace: seq<Op>, model: string, now: nat, ps: seq<nat>)
    requires Monotone(trace) && Clock(trace) <= now && EligibleAt(c, trace, model, now, ps)
    ensures Pool(Run(c, trace), ListOf(c, model), now) == At(ListOf(c, model), ps)
  {
    hide Run, CircuitOpen, LastProbe, Closed, Healthy, ClosedAt, HealthyIn;
    var s, ids := Run(c, trace), ListOf(c, model);
    var closed, both := (id: string) => ClosedAt(s, id, now), (id: string) => ClosedAt(s, id, now) && HealthyIn(s, id);
    forall i: nat | i < |ids|
      ensures ClosedAt(s, ids[i], now) <==> !CircuitOpen(c, trace, ids[i], now)
      ensures HealthyIn(s, ids[i]) <==> LastProbe(trace, ids[i])
    {
      ByHistory(c, trace, model, now, i);
    }
    ClosedIsKept(s, ids, now);
    KeptAlike(ids, id => ClosedAt(s, id, now), closed);
    HealthyIsKept(s, ids, closed);
    KeptAlike(ids, id => closed(id) && HealthyIn(s, id), both);
    KeptSome(ids, both);
    var some := SomeHealthy(c, trace, model, now);
    var eligible := (id: string) => Eligible(c, trace, model, id, now);
    KeptAlike(ids, if some then both else closed, eligible);
    var qs := KeptPlaces(ids, eligible);
    AscendingUnique(ps, qs);
  }

  // ---------- least active ----------

  /** Place p comes before place q: fewer active requests, or as many and configured earlier. */
  predicate Sooner(s: Routing, ids: seq<string>, p: nat, q: nat)
    requires p < |ids| && q < |ids|
  {
    ActiveOf(s, ids[p]) < ActiveOf(s, ids[q]) || (ActiveOf(s, ids[p]) == ActiveOf(s, ids[q]) && p < q)
  }

  /** Ascending in the count, and in the place where counts are equal. */
  predicate ByCount(s: Routing, ids: seq<string>, ps: seq<nat>) {
    Within(ids, ps) && forall a, b :: 0 <= a < b < |ps| ==> Sooner(s, ids, ps[a], ps[b])
  }

  lemma ByCountSnoc(s: Routing, ids: seq<string>, qs: seq<nat>, p: nat)
    requires ByCount(s, ids, qs) && p < |ids| && forall a :: 0 <= a < |qs| ==> Sooner(s, ids, qs[a], p)
    ensures ByCount(s, ids, qs + [p]) && At(ids, qs + [p]) == At(ids, qs) + [ids[p]]
  {
    hide ActiveOf;
  }

  lemma ByCountSplit(s: Routing, ids: seq<string>, qs: seq<nat>)
    requires ByCount(s, ids, qs) && qs != []
    ensures ByCount(s, ids, qs[..|qs| - 1]) && forall a :: 0 <= a < |qs| - 1 ==> Sooner(s, ids, qs[a], qs[|qs| - 1])
    ensures At(ids, qs)[..|qs| - 1] == At(ids, qs[..|qs| - 1])
  {
    hide ActiveOf;
  }

  lemma SoonerThrough(s: Routing, ids: seq<string>, p: nat, q: nat, r: nat)
    requires p < |ids| && q < |ids| && r < |ids| && Sooner(s, ids, p, q) && ActiveOf(s, ids[q]) <= ActiveOf(s, ids[r]) && p < r
    ensures Sooner(s, ids, p, r)
  {
    hide ActiveOf;
  }

  lemma AmongInserted(qs: seq<nat>, rest: seq<nat>, p: nat, a: nat)
    requires multiset(qs) == multiset(rest) + multiset{p} && a < |qs|
    ensures qs[a] == p || exists b :: 0 <= b < |rest| && rest[b] == qs[a]
  {
    assert qs[a] in multiset(qs);
    if qs[a] != p {
      assert qs[a] in multiset(rest);
    }
  }

  lemma InsertAtEnd(s: Routing, ids: seq<string>, qs: seq<nat>, p: nat)
    requires p < |ids| && ByCount(s, ids, qs) && qs != [] && qs[|qs| - 1] < p && ActiveOf(s, ids[qs[|qs| - 1]]) <= ActiveOf(s, ids[p])
    requires forall a :: 0 <= a < |qs| ==> qs[a] < p
    ensures ByCount(s, ids, qs + [p]) && At(ids, qs + [p]) == Insert(s, At(ids, qs), ids[p])
  {
    ByCountSplit(s, ids, qs);
    var last := qs[|qs| - 1];
    forall a | 0 <= a < |qs|
      ensures Sooner(s, ids, qs[a], p)
    {
      LastSooner(s, ids, last, p);
      if a < |qs| - 1 {
        SoonerThrough(s, ids, qs[a], last, p);
      }
    }
    ByCountSnoc(s, ids, qs, p);
    hide ActiveOf, ByCount, Sooner;
  }

  lemma InsertInside(s: Routing, ids: seq<string>, qs: seq<nat>, p: nat, most: seq<nat>)
    requires p < |ids| && ByCount(s, ids, qs) && qs != [] && ActiveOf(s, ids[qs[|qs| - 1]]) > ActiveOf(s, ids[p])
    requires ByCount(s, ids, most) && multiset(most) == multiset(qs[..|qs| - 1]) + multiset{p}
    requires At(ids, most) == Insert(s, At(ids, qs)[..|qs| - 1], ids[p])
    ensures ByCount(s, ids, most + [qs[|qs| - 1]]) && At(ids, most + [qs[|qs| - 1]]) == Insert(s, At(ids, qs), ids[p])
  {
    ByCountSplit(s, ids, qs);
    var rest, last := qs[..|qs| - 1], qs[|qs| - 1];
    LaterThan(s, ids, p, last);
    forall a | 0 <= a < |most|
      ensures most[a] < |ids| && Sooner(s, ids, most[a], last)
    {
      AmongInserted(most, rest, p, a);
    }
    ByCountSnoc(s, ids, most, last);
    hide ActiveOf, ByCount, Sooner;
  }

  lemma {:induction false} InsertPlace(s: Routing, ids: seq<string>, qs: seq<nat>, p: nat) returns (r: seq<nat>)
    requires p < |ids| && ByCount(s, ids, qs) && forall a :: 0 <= a < |qs| ==> qs[a] < p
    ensures ByCount(s, ids, r) && multiset(r) == multiset(qs) + multiset{p}
    ensures At(ids, r) == Insert(s, At(ids, qs), ids[p])
    decreases |qs|
  {
    hide ActiveOf, ByCount, Sooner, Insert;
    if qs == [] {
      r := [p];
      OnePlace(s, ids, p);
    } else {
      ByCountSplit(s, ids, qs);
      var rest, last := qs[..|qs| - 1], qs[|qs| - 1];
      assert qs == rest + [last];
      if ActiveOf(s, ids[last]) <= ActiveOf(s, ids[p]) {
        r := qs + [p];
        InsertAtEnd(s, ids, qs, p);
      } else {
        var most := InsertPlace(s, ids, rest, p);
        r := most + [last];
        InsertInside(s, ids, qs, p, most);
      }
    }
  }

  lemma OnePlace(s: Routing, ids: seq<string>, p: nat)
    requires p < |ids|
    ensures ByCount(s, ids, [p]) && At(ids, [p]) == Insert(s, At(ids, []), ids[p])
  {
    assert At(ids, []) == [];
    assert [] + [ids[p]] == [ids[p]];
  }

  lemma LastSooner(s: Routing, ids: seq<string>, p: nat, q: nat)
    requires p < q < |ids| && ActiveOf(s, ids[p]) <= ActiveOf(s, ids[q])
    ensures Sooner(s, ids, p, q)
  {
  }

  lemma LaterThan(s: Routing, ids: seq<string>, p: nat, q: nat)
    requires p < |ids| && q < |ids| && ActiveOf(s, ids[q]) > ActiveOf(s, ids[p])
    ensures Sooner(s, ids, p, q)
  {
  }

  lemma BelowLast(ps: seq<nat>, sorted: seq<nat>)
    requires Ascending(ps) && ps != [] && multiset(sorted) == multiset(ps[..|ps| - 1])
    ensures forall a :: 0 <= a < |sorted| ==> sorted[a] < ps[|ps| - 1]
  {
    var rest := ps[..|ps| - 1];
    forall a | 0 <= a < |sorted|
      ensures sorted[a] < ps[|ps| - 1]
    {
      assert sorted[a] in multiset(sorted);
      assert sorted[a] in multiset(rest);
      var b :| 0 <= b < |rest| && rest[b] == sorted[a];
      assert ps[b] == sorted[a];
    }
  }

  lemma ActivitySnoc(s: Routing, xs: seq<string>, x: string)
    ensures ByActivity(s, xs + [x]) == Insert(s, ByActivity(s, xs), x)
  {
    assert (xs + [x])[..|xs|] == xs;
    hide Insert;
  }

  lemma {:induction false} SortPlaces(s: Routing, ids: seq<string>, ps: seq<nat>) returns (qs: seq<nat>)
    requires Ascending(ps) && Within(ids, ps)
    ensures ByCount(s, ids, qs) && multiset(qs) == multiset(ps)
    ensures At(ids, qs) == ByActivity(s, At(ids, ps))
    decreases |ps|
  {
    hide ByActivity, Insert, ActiveOf;
    if ps == [] {
      qs := [];
      NothingSorted(s);
    } else {
      var rest, last := ps[..|ps| - 1], ps[|ps| - 1];
      assert ps == rest + [last];
      var sorted := SortPlaces(s, ids, rest);
      BelowLast(ps, sorted);
      hide Ascending;
      qs := InsertPlace(s, ids, sorted, last);
      assert At(ids, ps) == At(ids, rest) + [ids[last]];
      ActivitySnoc(s, At(ids, rest), ids[last]);
    }
  }

  lemma NothingSorted(s: Routing)
    ensures ByActivity(s, []) == []
  {
  }

  // ---------- round robin ----------

  /** A call for the model that had a choice: two places were eligible. */
  predicate HadChoice(c: Config, trace: seq<Op>, model: string, now: nat) {
    exists i, j :: 0 <= i < j < |ListOf(c, model)|
                   && Eligible(c, trace, model, ListOf(c, model)[i], now) && Eligible(c, trace, model, ListOf(c, model)[j], now)
  }

  /** How many calls for the model have had a choice. */
  function Choices(c: Config, trace: seq<Op>, model: string): nat {
    if trace == [] then 0
    else
      var before, op := trace[..|trace| - 1], trace[|trace| - 1];
      Choices(c, before, model) + if Rotation.AsksFor(op, model) && HadChoice(c, before, model, op.now) then 1 else 0
  }

  lemma HadChoiceIff(c: Config, trace: seq<Op>, model: string, now: nat, ps: seq<nat>)
    requires EligibleAt(c, trace, model, now, ps)
    ensures HadChoice(c, trace, model, now) <==> |ps| >= 2
  {
    hide Eligible;
    if |ps| >= 2 {
      assert ps[0] in ps && ps[1] in ps && ps[0] < ps[1];
    }
    if HadChoice(c, trace, model, now) {
      var i, j :| 0 <= i < j < |ListOf(c, model)|
        && Eligible(c, trace, model, ListOf(c, model)[i], now) && Eligible(c, trace, model, ListOf(c, model)[j], now);
      assert i in ps && j in ps;
    }
  }

  /** There is always exactly one list of eligible places. */
  lemma EligiblePlaces(c: Config, trace: seq<Op>, model: string, now: nat) returns (ps: seq<nat>)
    ensures EligibleAt(c, trace, model, now, ps)
  {
    hide Eligible;
    ps := KeptPlaces(ListOf(c, model), id => Eligible(c, trace, model, id, now));
  }

  lemma CursorStep(c: Config, s: Routing, op: Op, model: string)
    requires c.strategy.RoundRobin? && Rotation.AsksFor(op, model)
    ensures CursorOf(Apply(c, s, op), model) == CursorOf(s, model) + if |Pool(s, ListOf(c, model), op.now)| >= 2 then 1 else 0
  {
    ResetAllEffect(s, ListOf(c, model), op.now);
    hide ResetAll, Pool, Rotated;
  }

  lemma {:induction false} CursorCounts(c: Config, trace: seq<Op>, model: string)
    requires Monotone(trace) && c.strategy.RoundRobin?
    ensures CursorOf(Run(c, trace), model) == Choices(c, trace, model)
    decreases |trace|
  {
    hide Pool, Apply, HadChoice, EligibleAt, CursorOf;
    if trace == [] {
      assert CursorOf(Start(c), model) == 0 by { NoCursor(c, model); }
    } else {
      var before, op := trace[..|trace| - 1], trace[|trace| - 1];
      CursorCounts(c, before, model);
      if Rotation.AsksFor(op, model) {
        var ps := EligiblePlaces(c, before, model, op.now);
        PoolByHistory(c, before, model, op.now, ps);
        HadChoiceIff(c, before, model, op.now, ps);
        CursorStep(c, Run(c, before), op, model);
      } else {
        Rotation.OthersLeaveCursor(c, Run(c, before), op, model);
      }
    }
  }

  lemma NoCursor(c: Config, model: string)
    ensures CursorOf(Start(c), model) == 0
  {
  }

  // ---------- the order of the candidates ----------

  /** Fewer requests in flight, or as many and configured earlier. */
  predicate LessBusy(trace: seq<Op>, ids: seq<string>, a: nat, b: nat)
    requires a < |ids| && b < |ids|
  {
    Fallback.InFlight(trace, ids[a]) < Fallback.InFlight(trace, ids[b])
    || (Fallback.InFlight(trace, ids[a]) == Fallback.InFlight(trace, ids[b]) && a < b)
  }

  /** Under priority the eligible backends come in the order of the configuration. */
  lemma PriorityOrder(c: Config, trace: seq<Op>, model: string, now: nat, ps: seq<nat>)
    requires Monotone(trace) && Clock(trace) <= now && EligibleAt(c, trace, model, now, ps) && c.strategy.Priority?
    ensures CandidatesFor(c, Run(c, trace), model, now).1 == At(ListOf(c, model), ps)
  {
    PoolByHistory(c, trace, model, now, ps);
    hide Run, Pool, ResetAll, EligibleAt;
  }

  lemma Turned(cursor: nat, k: nat, n: nat)
    requires k < n
    ensures (cursor + k) % n == if cursor % n + k < n then cursor % n + k else cursor % n + k - n
  {
    Rotation.Division(cursor, n);
    var q, r := cursor / n, cursor % n;
    if r + k < n {
      Rotation.QuotientIs(cursor + k, n, q, r + k);
    } else {
      Rotation.Distribute(n, q, 1);
      Rotation.QuotientIs(cursor + k, n, q + 1, r + k - n);
    }
  }

  lemma RotatedAt(xs: seq<string>, cursor: nat, k: nat)
    requires k < |xs|
    ensures |Rotated(xs, cursor)| == |xs| && Rotated(xs, cursor)[k] == xs[(cursor + k) % |xs|]
  {
    Turned(cursor, k, |xs|);
  }

  lemma OrderedRound(c: Config, s: Routing, model: string, xs: seq<string>, k: nat)
    requires c.strategy.RoundRobin? && k < |xs|
    ensures var r := Ordered(c, s, model, xs).1; |r| == |xs| && r[k] == xs[(CursorOf(s, model) + k) % |xs|]
  {
    hide Rotated, CursorOf;
    RotatedAt(xs, CursorOf(s, model), k);
    if |xs| == 1 {
      Rotation.Division(CursorOf(s, model), 1);
    }
  }

  lemma OrderedLeast(c: Config, s: Routing, model: string, xs: seq<string>)
    requires c.strategy.LeastActive?
    ensures Ordered(c, s, model, xs).1 == ByActivity(s, xs)
  {
    if |xs| == 1 {
      assert xs == [] + [xs[0]];
      ActivitySnoc(s, [], xs[0]);
    }
    hide ActiveOf;
  }

  lemma ResetKeepsCursor(c: Config, s: Routing, model: string, now: nat)
    ensures CursorOf(ResetAll(s, ListOf(c, model), now), model) == CursorOf(s, model)
    ensures forall id :: ActiveOf(ResetAll(s, ListOf(c, model), now), id) == ActiveOf(s, id)
  {
    ResetAllEffect(s, ListOf(c, model), now);
    hide ResetAll;
  }

  /**
   Under round robin they come in that order too, turned by one more place at every call for the model
   that had a choice.
   */
  lemma RoundRobinOrder(c: Config, trace: seq<Op>, model: string, now: nat, ps: seq<nat>)
    requires Monotone(trace) && Clock(trace) <= now && EligibleAt(c, trace, model, now, ps) && c.strategy.RoundRobin?
    ensures var r, n := CandidatesFor(c, Run(c, trace), model, now).1, |ps|;
      |r| == n && forall k :: 0 <= k < n ==> r[k] == ListOf(c, model)[ps[(Choices(c, trace, model) + k) % n]]
  {
    hide Run, Pool, ResetAll, Choices, CursorOf, Ordered, Eligible, CandidatesFor, Rotation.AsksFor, ListOf;
    PoolOrdered(c, trace, model, now, ps);
    var xs, n := At(ListOf(c, model), ps), |ps|;
    var r := CandidatesFor(c, Run(c, trace), model, now).1;
    assert |r| == |multiset(r)| && n == |multiset(xs)|;
    forall k: nat | k < n
      ensures r[k] == ListOf(c, model)[ps[(Choices(c, trace, model) + k) % n]]
    {
      RoundRobinAt(c, trace, model, now, ps, k);
    }
  }

  lemma PoolOrdered(c: Config, trace: seq<Op>, model: string, now: nat, ps: seq<nat>)
    requires Monotone(trace) && Clock(trace) <= now && EligibleAt(c, trace, model, now, ps)
    ensures var xs := At(ListOf(c, model), ps);
      && CandidatesFor(c, Run(c, trace), model, now).1 == Ordered(c, ResetAll(Run(c, trace), ListOf(c, model), now), model, xs).1
      && multiset(CandidatesFor(c, Run(c, trace), model, now).1) == multiset(xs)
  {
    hide Run, Pool, ResetAll, Ordered, Eligible;
    PoolByHistory(c, trace, model, now, ps);
    OrderedPermutes(c, ResetAll(Run(c, trace), ListOf(c, model), now), model, At(ListOf(c, model), ps));
  }

  lemma RoundRobinAt(c: Config, trace: seq<Op>, model: string, now: nat, ps: seq<nat>, k: nat)
    requires Monotone(trace) && Clock(trace) <= now && EligibleAt(c, trace, model, now, ps) && c.strategy.RoundRobin?
    requires k < |ps| && |CandidatesFor(c, Run(c, trace), model, now).1| == |ps|
    ensures CandidatesFor(c, Run(c, trace), model, now).1[k] == ListOf(c, model)[ps[(Choices(c, trace, model) + k) % |ps|]]
  {
    hide Run, Pool, ResetAll, Choices, CursorOf, Ordered, Eligible, CandidatesFor;
    PoolOrdered(c, trace, model, now, ps);
    CursorCounts(c, trace, model);
    ResetKeepsCursor(c, Run(c, trace), model, now);
    OrderedRound(c, ResetAll(Run(c, trace), ListOf(c, model), now), model, At(ListOf(c, model), ps), k);
    hide EligibleAt, Monotone;
  }

  /** Under least active they ascend in the number of requests in flight, ties in the order of the configuration. */
  lemma LeastActiveOrder(c: Config, trace: seq<Op>, model: string, now: nat, ps: seq<nat>) returns (qs: seq<nat>)
    requires Monotone(trace) && Clock(trace) <= now && EligibleAt(c, trace, model, now, ps) && c.strategy.LeastActive?
    requires forall i :: 0 <= i < |ListOf(c, model)| ==> Fallback.TakenFirst(trace, ListOf(c, model)[i])
    ensures multiset(qs) == multiset(ps) && Within(ListOf(c, model), qs)
    ensures CandidatesFor(c, Run(c, trace), model, now).1 == At(ListOf(c, model), qs)
    ensures forall a, b :: 0 <= a < b < |qs| ==> LessBusy(trace, ListOf(c, model), qs[a], qs[b])
  {
    hide Run, Pool, ResetAll, Fallback.TakenFirst, Fallback.InFlight, ActiveOf, Ordered, ByActivity;
    PoolByHistory(c, trace, model, now, ps);
    var s, ids := Run(c, trace), ListOf(c, model);
    ResetKeepsCursor(c, s, model, now);
    var reset := ResetAll(s, ids, now);
    qs := SortPlaces(reset, ids, ps);
    OrderedLeast(c, reset, model, At(ids, ps));
    hide EligibleAt;
    forall i: nat | i < |ids|
      ensures ActiveOf(s, ids[i]) == Fallback.InFlight(trace, ids[i])
    {
      ListedIsBackend(c, model, i);
      CountIsInFlight(c, trace, ids[i]);
    }
  }

  lemma CountIsInFlight(c: Config, trace: seq<Op>, id: string)
    requires id in BackendsOf(c) && Fallback.TakenFirst(trace, id)
    ensures ActiveOf(Run(c, trace), id) == Fallback.InFlight(trace, id)
  {
    Fallback.ActiveIsInFlight(c, trace, id);
    hide Run, Fallback.TakenFirst, Fallback.InFlight;
  }
}
