/** What admission keeps over any run of starts and finishes, and that more load never admits more. */
module AdmissionTheorems {
  import opened Options
  import opened Admission

  // ---------- exactly when a run starts ----------

  /** A run starts exactly under these conditions. */
  lemma StartsIff(pressure: Pressure, maxActiveRuns: int, ceiling: real, unitsPerRun: real, active: int, tenantActive: int)
    ensures Decide(pressure, maxActiveRuns, ceiling, unitsPerRun, active, tenantActive).Start? <==>
            && (pressure.Normal? || (pressure.Busy? && tenantActive <= 0))
            && active < maxActiveRuns
            && tenantActive as real + unitsPerRun <= ceiling
  {
  }

  // ---------- more load ----------

  predicate Raised(a: Option<real>, b: Option<real>) {
    (a.None? <==> b.None?) && (a.Some? ==> a.value <= b.value)
  }

  /** The same machine under more load: the same signals are there, and none reads less. */
  predicate MoreLoad(s: Snapshot, s': Snapshot) {
    && Raised(s.gpuUsed, s'.gpuUsed) && s'.gpuTotal == s.gpuTotal
    && Raised(s.kvCache, s'.kvCache) && Raised(s.running, s'.running) && Raised(s.waiting, s'.waiting)
  }

  lemma QuotientGrows(a: real, b: real, d: real)
    requires d > 0.0 && a <= b
    ensures a / d * 100.0 <= b / d * 100.0
  {
    assert b / d - a / d == (b - a) / d;
  }

  lemma GpuUsageGrows(s: Snapshot, s': Snapshot)
    requires MoreLoad(s, s')
    ensures Raised(GpuUsage(s), GpuUsage(s'))
  {
    if GpuUsage(s).Some? {
      QuotientGrows(s.gpuUsed.value, s'.gpuUsed.value, s.gpuTotal.value);
    }
  }

  /** Taking the baseline off keeps the order. */
  lemma GpuPressureGrows(u: Option<real>, u': Option<real>, baseline: Option<real>)
    requires Raised(u, u')
    ensures Raised(GpuPressure(u, baseline), GpuPressure(u', baseline))
  {
    if u.Some? && baseline.Some? && 0.0 < baseline.value < 100.0 {
      var d := if u.value - baseline.value > 0.0 then u.value - baseline.value else 0.0;
      var d' := if u'.value - baseline.value > 0.0 then u'.value - baseline.value else 0.0;
      QuotientGrows(d, d', 100.0 - baseline.value);
    }
  }

  lemma SignalsGrow(s: Snapshot, s': Snapshot, t: Thresholds, signal: Signal)
    requires MoreLoad(s, s')
    ensures Raised(SignalOf(s, t, signal), SignalOf(s', t, signal))
  {
    hide GpuUsage, GpuPressure;
    GpuUsageGrows(s, s');
    GpuPressureGrows(GpuUsage(s), GpuUsage(s'), t.baseline);
  }

  function Severity(p: Pressure): nat {
    match p
    case Normal => 0
    case Busy => 1
    case Critical => 2
    case Unknown => 3
  }

  /** More load is classified at least as severely. */
  lemma PressureGrows(s: Snapshot, s': Snapshot, t: Thresholds)
    requires MoreLoad(s, s')
    ensures Severity(Classify(s, t)) <= Severity(Classify(s', t))
  {
    hide GpuUsage, SignalOf, ThresholdOf;
    GpuUsageGrows(s, s');
    forall signal, level: real | Reaches(s, t, signal, level)
      ensures Reaches(s', t, signal, level)
    {
      SignalsGrow(s, s', t, signal);
    }
  }

  /**
   Raising a metric, the number of active runs or the tenant's own number never turns QUEUE into START,
   through classification, decision and budget.
   */
  lemma MoreLoadNeverAdmits(
      s: Snapshot, s': Snapshot, t: Thresholds, maxActiveRuns: int, ceiling: real, unitsPerRun: real,
      active: int, active': int, tenantActive: int, tenantActive': int)
    requires MoreLoad(s, s') && active <= active' && tenantActive <= tenantActive'
    requires Decide(Classify(s', t), maxActiveRuns, ceiling, unitsPerRun, active', tenantActive').Start?
    ensures Decide(Classify(s, t), maxActiveRuns, ceiling, unitsPerRun, active, tenantActive).Start?
  {
    hide Classify, Decide;
    PressureGrows(s, s', t);
    StartsIff(Classify(s, t), maxActiveRuns, ceiling, unitsPerRun, active, tenantActive);
    StartsIff(Classify(s', t), maxActiveRuns, ceiling, unitsPerRun, active', tenantActive');
  }

  // ---------- the invariant ----------

  datatype Config = Config(weights: Weights, capacity: real, maxUnits: map<string, real>, maxActiveRuns: int)

  function MaxUnits(c: Config, tenant: string): Option<real> {
    if tenant in c.maxUnits then Some(c.maxUnits[tenant]) else None
  }

  function CeilingOf(c: Config, tenant: string): real { Ceiling(FairShare(c.weights, c.capacity, tenant), MaxUnits(c, tenant)) }

  /** The tenant of each run that is active, in the order of their admission. */
  type Active = seq<string>

  function CountOf(active: Active, tenant: string): nat { multiset(active)[tenant] }

  datatype Step = Claim(tenant: string, pressure: Pressure) | Finish(index: nat)

  /** A claimed run is decided on the counts without it, at one unit a run. */
  function Next(c: Config, active: Active, step: Step): Active {
    match step
    case Claim(tenant, pressure) =>
      if Decide(pressure, c.maxActiveRuns, CeilingOf(c, tenant), 1.0, |active|, CountOf(active, tenant)).Start?
      then active + [tenant] else active
    case Finish(i) => if i < |active| then active[..i] + active[i + 1..] else active
  }

  function After(c: Config, active: Active, steps: seq<Step>): Active
    decreases |steps|
  {
    if steps == [] then active else After(c, Next(c, active, steps[0]), steps[1..])
  }

  ghost predicate Admitted(c: Config, active: Active) {
    && (|active| == 0 || |active| <= c.maxActiveRuns)
    && forall tenant :: CountOf(active, tenant) == 0 || CountOf(active, tenant) as real <= CeilingOf(c, tenant)
  }

  lemma NextKeepsAdmitted(c: Config, active: Active, step: Step)
    requires Admitted(c, active)
    ensures Admitted(c, Next(c, active, step))
  {
    hide CeilingOf;
    match step
    case Claim(tenant, pressure) =>
      StartsIff(pressure, c.maxActiveRuns, CeilingOf(c, tenant), 1.0, |active|, CountOf(active, tenant));
      assert forall t :: CountOf(active + [tenant], t) == CountOf(active, t) + if t == tenant then 1 else 0;
      hide Decide;
    case Finish(i) =>
      if i < |active| {
        assert active == active[..i] + [active[i]] + active[i + 1..];
        assert forall t :: CountOf(active[..i] + active[i + 1..], t) <= CountOf(active, t);
        hide CountOf;
        forall t
          ensures CountOf(active[..i] + active[i + 1..], t) == 0
                  || CountOf(active[..i] + active[i + 1..], t) as real <= CeilingOf(c, t)
        {
          assert CountOf(active, t) == 0 || CountOf(active, t) as real <= CeilingOf(c, t);
        }
      }
  }

  /**
   No sequence of claims and finishes takes the active runs above maxActiveRuns, or a tenant above the
   smaller of its fair share and its ceiling.
   */
  lemma {:induction false} NeverOverCommitted(c: Config, active: Active, steps: seq<Step>)
    requires Admitted(c, active)
    ensures Admitted(c, After(c, active, steps))
    decreases |steps|
  {
    hide Next, Admitted;
    if steps != [] {
      NextKeepsAdmitted(c, active, steps[0]);
      NeverOverCommitted(c, Next(c, active, steps[0]), steps[1..]);
    }
  }

  /** The active runs of the first k listed tenants. */
  function ListedActive(ws: Weights, active: Active, k: nat): nat
    requires k <= |ws|
  {
    if k == 0 then 0 else ListedActive(ws, active, k - 1) + CountOf(active, ws[k - 1].0)
  }

  lemma PortionNotNegative(c: real, w: real, t: real)
    requires c >= 0.0 && w > 0.0 && t > 0.0
    ensures Portion(c, w, t) >= 0.0
  {
    assert c * w >= 0.0;
  }

  lemma ShareNotNegative(ws: Weights, capacity: real, tenant: string)
    requires capacity >= 0.0
    ensures FairShare(ws, capacity, tenant) >= 0
  {
    if Total(ws) > 0.0 {
      PortionNotNegative(capacity, Weight(WeightOf(ws, tenant)), Total(ws));
      hide Portion;
    }
  }

  lemma {:induction false} ListedWithinShares(c: Config, active: Active, k: nat)
    requires Admitted(c, active) && k <= |c.weights| && c.capacity >= 0.0
    ensures ListedActive(c.weights, active, k) <= ShareSum(c.weights, c.capacity, k)
    decreases k
  {
    if k > 0 {
      ListedWithinShares(c, active, k - 1);
      var tenant := c.weights[k - 1].0;
      ShareNotNegative(c.weights, c.capacity, tenant);
      assert CountOf(active, tenant) == 0 || CountOf(active, tenant) as real <= CeilingOf(c, tenant);
      hide FairShare, CountOf;
    }
  }

  /** Together the listed tenants never hold more runs than the capacity. */
  lemma ListedTenantsFitCapacity(c: Config, steps: seq<Step>)
    requires DistinctTenants(c.weights) && |c.weights| > 0 && c.capacity >= 0.0
    ensures ListedActive(c.weights, After(c, [], steps), |c.weights|) as real <= c.capacity
  {
    hide After, FairShare, Ceiling;
    assert forall tenant :: CountOf([], tenant) == 0;
    NeverOverCommitted(c, [], steps);
    ListedWithinShares(c, After(c, [], steps), |c.weights|);
    SharesFillCapacity(c.weights, c.capacity);
  }

  // ---------- tenants nobody listed ----------

  predicate Listed(ws: Weights, tenant: string) { exists i :: 0 <= i < |ws| && ws[i].0 == tenant }

  /** An unlisted tenant has a share exactly when the capacity reaches the total weight. */
  lemma UnlistedHasShareIff(ws: Weights, capacity: real, tenant: string)
    requires |ws| > 0 && capacity >= 0.0 && !Listed(ws, tenant)
    ensures FairShare(ws, capacity, tenant) >= 1 <==> capacity >= Total(ws)
    ensures FairShare(ws, capacity, tenant) >= 0
  {
    UnlistedShare(ws, capacity, tenant);
    var total := Total(ws);
    hide Total, FairShare;
    ReachesOne(capacity, total);
  }

  lemma ReachesOne(c: real, t: real)
    requires c >= 0.0 && t > 0.0
    ensures Portion(c, 1.0, t) >= 0.0 && (Portion(c, 1.0, t) >= 1.0 <==> c >= t)
  {
    assert c / t * t == c;
    if c / t >= 1.0 {
      assert c / t * t >= t;
    } else {
      assert c / t * t < t;
    }
  }

  function AmongFirst(ws: Weights, tenant: string, k: nat): nat
    requires k <= |ws|
  {
    if k == 0 then 0 else AmongFirst(ws, tenant, k - 1) + if ws[k - 1].0 == tenant then 1 else 0
  }

  lemma {:induction false} ListedActiveSnoc(ws: Weights, active: Active, tenant: string, k: nat)
    requires k <= |ws|
    ensures ListedActive(ws, active + [tenant], k) == ListedActive(ws, active, k) + AmongFirst(ws, tenant, k)
  {
    if k > 0 {
      ListedActiveSnoc(ws, active, tenant, k - 1);
    }
  }

  lemma {:induction false} AmongFirstIsOne(ws: Weights, tenant: string, i: nat, k: nat)
    requires DistinctTenants(ws) && i < |ws| && ws[i].0 == tenant && k <= |ws|
    ensures AmongFirst(ws, tenant, k) == if i < k then 1 else 0
  {
    if k > 0 {
      AmongFirstIsOne(ws, tenant, i, k - 1);
    }
  }

  lemma {:induction false} NobodyActive(ws: Weights, k: nat)
    requires k <= |ws|
    ensures ListedActive(ws, [], k) == 0
  {
    if k > 0 {
      NobodyActive(ws, k - 1);
    }
  }

  /** When only listed tenants are active, their runs are all there are. */
  lemma {:induction false} OnlyListed(ws: Weights, active: Active)
    requires DistinctTenants(ws) && forall i :: 0 <= i < |active| ==> Listed(ws, active[i])
    ensures ListedActive(ws, active, |ws|) == |active|
    decreases |active|
  {
    if active == [] {
      NobodyActive(ws, |ws|);
    } else {
      var rest, tenant := active[..|active| - 1], active[|active| - 1];
      assert active == rest + [tenant];
      OnlyListed(ws, rest);
      ListedActiveSnoc(ws, rest, tenant, |ws|);
      var i :| 0 <= i < |ws| && ws[i].0 == tenant;
      AmongFirstIsOne(ws, tenant, i, |ws|);
    }
  }

  /** With a capacity below the total weight, an unlisted tenant never runs anything. */
  lemma UnlistedStarves(c: Config, steps: seq<Step>)
    requires |c.weights| > 0 && 0.0 <= c.capacity < Total(c.weights)
    ensures var active := After(c, [], steps);
      forall i :: 0 <= i < |active| ==> Listed(c.weights, active[i])
  {
    hide After, FairShare, Total;
    NothingAdmitted(c);
    NeverOverCommitted(c, [], steps);
    var active := After(c, [], steps);
    forall i | 0 <= i < |active|
      ensures Listed(c.weights, active[i])
    {
      var tenant := active[i];
      assert tenant in multiset(active);
      assert CountOf(active, tenant) as real <= CeilingOf(c, tenant);
      if !Listed(c.weights, tenant) {
        UnlistedHasShareIff(c.weights, c.capacity, tenant);
      }
    }
  }

  lemma NothingAdmitted(c: Config)
    ensures Admitted(c, [])
  {
    assert forall tenant :: CountOf([], tenant) == 0;
  }

  // ---------- enough tenants to pass the capacity ----------

  function Name(n: nat): string { seq(n, _ => 'u') }

  lemma {:induction false} LongerThanAll(names: set<string>) returns (m: nat)
    ensures forall s :: s in names ==> |s| < m
  {
    if names == {} {
      m := 0;
    } else {
      var s :| s in names;
      var n := LongerThanAll(names - {s});
      m := if n > |s| then n else |s| + 1;
    }
  }

  function Claims(m: nat, k: nat): seq<Step> { seq(k, i requires 0 <= i < k => Claim(Name(m + i), Normal)) }

  function Claimants(m: nat, k: nat): Active { seq(k, i requires 0 <= i < k => Name(m + i)) }

  lemma NamesDiffer(m: nat, k: nat, n: nat)
    requires n >= m + k
    ensures multiset(Claimants(m, k))[Name(n)] == 0
  {
    forall i | 0 <= i < k
      ensures Claimants(m, k)[i] != Name(n)
    {
      assert |Name(m + i)| < |Name(n)|;
    }
    assert Name(n) !in Claimants(m, k);
  }

  lemma {:induction false} StepsConcat(c: Config, active: Active, a: seq<Step>, b: seq<Step>)
    ensures After(c, active, a + b) == After(c, After(c, active, a), b)
    decreases |a|
  {
    hide Next;
    if a == [] {
      assert a + b == b;
    } else {
      assert (a + b)[0] == a[0] && (a + b)[1..] == a[1..] + b;
      StepsConcat(c, Next(c, active, a[0]), a[1..], b);
    }
  }

  lemma {:induction false} AllClaimantsStart(c: Config, m: nat, k: nat)
    requires |c.weights| > 0 && c.capacity >= Total(c.weights) && k <= c.maxActiveRuns
    requires forall n: nat :: n >= m ==> !Listed(c.weights, Name(n)) && Name(n) !in c.maxUnits
    ensures After(c, [], Claims(m, k)) == Claimants(m, k)
    decreases k
  {
    hide Total, FairShare, CountOf;
    if k > 0 {
      var tenant, before := Name(m + k - 1), Claimants(m, k - 1);
      AllClaimantsStart(c, m, k - 1);
      assert Claims(m, k) == Claims(m, k - 1) + [Claim(tenant, Normal)];
      StepsConcat(c, [], Claims(m, k - 1), [Claim(tenant, Normal)]);
      OneStep(c, before, Claim(tenant, Normal));
      UnlistedHasShareIff(c.weights, c.capacity, tenant);
      assert CountOf(before, tenant) == 0 by { NamesDiffer(m, k - 1, m + k - 1); CountIs(before, tenant); }
      StartsIff(Normal, c.maxActiveRuns, CeilingOf(c, tenant), 1.0, |before|, CountOf(before, tenant));
      assert Claimants(m, k) == before + [tenant];
    } else {
      assert Claims(m, 0) == [];
    }
  }

  lemma OneStep(c: Config, active: Active, step: Step)
    ensures After(c, active, [step]) == Next(c, active, step)
  {
    assert [step][1..] == [];
    assert After(c, Next(c, active, step), []) == Next(c, active, step);
    hide Next;
  }

  lemma CountIs(active: Active, tenant: string)
    ensures CountOf(active, tenant) == multiset(active)[tenant]
  {
  }

  /**
   Listed tenants never hold more than the capacity together, but all tenants can: some sequence of
   claims and finishes takes the active runs above the capacity exactly when the capacity reaches the
   total of the listed weights, so that every unlisted tenant has a share too, and maxActiveRuns does not
   prevent it.
   */
  lemma CapacityExceededIff(c: Config)
    requires DistinctTenants(c.weights) && |c.weights| > 0 && c.capacity >= 0.0
    ensures (exists steps :: |After(c, [], steps)| as real > c.capacity)
            <==> c.capacity >= Total(c.weights) && c.maxActiveRuns as real > c.capacity
  {
    hide After, Total, FairShare;
    if steps :| |After(c, [], steps)| as real > c.capacity {
      NothingAdmitted(c);
      NeverOverCommitted(c, [], steps);
      if c.capacity < Total(c.weights) {
        UnlistedStarves(c, steps);
        OnlyListed(c.weights, After(c, [], steps));
        ListedTenantsFitCapacity(c, steps);
      }
    }
    if c.capacity >= Total(c.weights) && c.maxActiveRuns as real > c.capacity {
      var m := LongerThanAll((set i | 0 <= i < |c.weights| :: c.weights[i].0) + c.maxUnits.Keys);
      NamesUnlisted(c, m);
      var k := c.capacity.Floor + 1;
      AllClaimantsStart(c, m, k);
      assert |After(c, [], Claims(m, k))| == k;
    }
  }

  lemma NamesUnlisted(c: Config, m: nat)
    requires forall s :: s in (set i | 0 <= i < |c.weights| :: c.weights[i].0) + c.maxUnits.Keys ==> |s| < m
    ensures forall n: nat :: n >= m ==> !Listed(c.weights, Name(n)) && Name(n) !in c.maxUnits
  {
    forall n: nat | n >= m
      ensures !Listed(c.weights, Name(n)) && Name(n) !in c.maxUnits
    {
      assert |Name(n)| == n;
    }
  }

  // ---------- the capacity as it is deployed ----------

  lemma {:induction false} BelowShareLeavesRoom(c: Config, active: Active, k: nat, i: nat)
    requires Admitted(c, active) && i < k <= |c.weights| && c.capacity >= 0.0
    requires CountOf(active, c.weights[i].0) < FairShare(c.weights, c.capacity, c.weights[i].0)
    ensures ListedActive(c.weights, active, k) < ShareSum(c.weights, c.capacity, k)
    decreases k
  {
    hide FairShare, CountOf;
    ListedWithinShares(c, active, k - 1);
    if i < k - 1 {
      BelowShareLeavesRoom(c, active, k - 1, i);
      var tenant := c.weights[k - 1].0;
      ShareNotNegative(c.weights, c.capacity, tenant);
      assert CountOf(active, tenant) == 0 || CountOf(active, tenant) as real <= CeilingOf(c, tenant);
    }
  }

  /** The decision on a tenant's next run, on the counts without it. */
  function Answer(c: Config, active: Active, tenant: string, pressure: Pressure): Decision {
    Decide(pressure, c.maxActiveRuns, CeilingOf(c, tenant), 1.0, |active|, CountOf(active, tenant))
  }

  /**
   The application gives the budget the same maxActiveRuns as its capacity. There a listed tenant with a
   share can be refused for the global limit while it holds less than its share exactly when the capacity
   reaches the total weight: tenants that are not listed then take its place.
   */
  lemma ListedTenantCrowdedOutIff(c: Config, i: nat)
    requires DistinctTenants(c.weights) && i < |c.weights| && c.maxActiveRuns > 0 && c.capacity == c.maxActiveRuns as real
    requires FairShare(c.weights, c.capacity, c.weights[i].0) >= 1
    ensures (exists steps, pressure ::
               && CountOf(After(c, [], steps), c.weights[i].0) < FairShare(c.weights, c.capacity, c.weights[i].0)
               && Answer(c, After(c, [], steps), c.weights[i].0, pressure) == QueueFor(GlobalLimit))
            <==> c.capacity >= Total(c.weights)
  {
    hide After, Total, FairShare, CountOf, CeilingOf;
    var tenant := c.weights[i].0;
    if steps, pressure :| && CountOf(After(c, [], steps), tenant) < FairShare(c.weights, c.capacity, tenant)
                          && Answer(c, After(c, [], steps), tenant, pressure) == QueueFor(GlobalLimit)
    {
      if c.capacity < Total(c.weights) {
        RoomForListed(c, steps, i);
        assert false;
      }
    }
    if c.capacity >= Total(c.weights) {
      var steps := Crowd(c, i);
    }
  }

  /** Below the total weight a listed tenant that holds less than its share always finds room. */
  lemma RoomForListed(c: Config, steps: seq<Step>, i: nat)
    requires DistinctTenants(c.weights) && i < |c.weights| && 0.0 <= c.capacity < Total(c.weights)
    requires CountOf(After(c, [], steps), c.weights[i].0) < FairShare(c.weights, c.capacity, c.weights[i].0)
    ensures |After(c, [], steps)| as real < c.capacity
  {
    hide After, Total, FairShare, CountOf;
    var active := After(c, [], steps);
    NothingAdmitted(c);
    NeverOverCommitted(c, [], steps);
    UnlistedStarves(c, steps);
    OnlyListed(c.weights, active);
    BelowShareLeavesRoom(c, active, |c.weights|, i);
    SharesFillCapacity(c.weights, c.capacity);
  }

  /** From the total weight on, unlisted tenants can take every place. */
  lemma Crowd(c: Config, i: nat) returns (steps: seq<Step>)
    requires i < |c.weights| && c.maxActiveRuns > 0 && c.capacity == c.maxActiveRuns as real && c.capacity >= Total(c.weights)
    ensures CountOf(After(c, [], steps), c.weights[i].0) == 0
    ensures Answer(c, After(c, [], steps), c.weights[i].0, Normal) == QueueFor(GlobalLimit)
  {
    hide After, Total, CeilingOf;
    var m := LongerThanAll((set j | 0 <= j < |c.weights| :: c.weights[j].0) + c.maxUnits.Keys);
    NamesUnlisted(c, m);
    steps := Claims(m, c.maxActiveRuns);
    AllClaimantsStart(c, m, c.maxActiveRuns);
    var active, tenant := Claimants(m, c.maxActiveRuns), c.weights[i].0;
    forall j | 0 <= j < |active|
      ensures active[j] != tenant
    {
      assert !Listed(c.weights, Name(m + j));
    }
    assert tenant !in active;
  }

  /** One listed tenant of weight one, a capacity of one, and a second tenant: two runs. */
  const SMALL := Config([("a", Some(1.0))], 1.0, map[], 2)

  lemma TwoRunsOnOneUnit()
    ensures After(SMALL, [], [Claim("a", Normal), Claim("b", Normal)]) == ["a", "b"] && 2.0 > SMALL.capacity
  {
    hide After, Next;
    SmallShares();
    assert CountOf([], "a") == 0 && CountOf(["a"], "b") == 0;
    SmallStarts([], "a");
    SmallStarts(["a"], "b");
    OneStep(SMALL, [], Claim("a", Normal));
    OneStep(SMALL, ["a"], Claim("b", Normal));
    StepsConcat(SMALL, [], [Claim("a", Normal)], [Claim("b", Normal)]);
    assert [Claim("a", Normal)] + [Claim("b", Normal)] == [Claim("a", Normal), Claim("b", Normal)];
    assert ["a"] + ["b"] == ["a", "b"] && [] + ["a"] == ["a"];
  }

  lemma SmallStarts(active: Active, tenant: string)
    requires |active| < 2 && CountOf(active, tenant) == 0 && FairShare(SMALL.weights, 1.0, tenant) == 1
    ensures Next(SMALL, active, Claim(tenant, Normal)) == active + [tenant]
  {
    hide FairShare, CountOf;
    StartsIff(Normal, 2, CeilingOf(SMALL, tenant), 1.0, |active|, CountOf(active, tenant));
    hide Decide;
  }

  lemma SmallShares()
    ensures FairShare(SMALL.weights, 1.0, "a") == 1 && FairShare(SMALL.weights, 1.0, "b") == 1
  {
    hide Total, Portion, WeightOf;
    var ws := SMALL.weights;
    ListedWeight(ws, 0);
    NotListed(ws, "b");
    SmallTotal();
    WholePortion();
  }

  lemma SmallTotal()
    ensures Total(SMALL.weights) == 1.0
  {
    assert SMALL.weights[..0] == [];
    assert Total([]) == 0.0;
  }

  lemma WholePortion()
    ensures Portion(1.0, 1.0, 1.0) == 1.0
  {
  }
}
