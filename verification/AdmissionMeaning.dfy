/** What shares, thresholds and queue reasons come to in the numbers that are configured and measured. */
module AdmissionMeaning {
  import opened Options
  import opened Admission

  // ---------- shares ----------

  /** A weight counts as itself when it is a positive number, and as one otherwise. */
  predicate CountsAs(configured: Option<real>, w: real) {
    match configured
    case Some(x) => if x > 0.0 then w == x else w == 1.0
    case None => w == 1.0
  }

  predicate CountAs(ws: Weights, counted: seq<real>) {
    |ws| == |counted| && forall i :: 0 <= i < |ws| ==> CountsAs(ws[i].1, counted[i])
  }

  function Sum(xs: seq<real>): real { if xs == [] then 0.0 else xs[0] + Sum(xs[1..]) }

  lemma {:induction false} SumSnoc(xs: seq<real>, x: real)
    ensures Sum(xs + [x]) == Sum(xs) + x
  {
    if xs == [] {
      assert [] + [x] == [x] && [x][1..] == [];
      assert Sum([x]) == x + Sum([]);
    } else {
      assert (xs + [x])[0] == xs[0] && (xs + [x])[1..] == xs[1..] + [x];
      SumSnoc(xs[1..], x);
    }
  }

  lemma {:induction false} TotalIsSum(ws: Weights, counted: seq<real>)
    requires CountAs(ws, counted)
    ensures Total(ws) == Sum(counted)
    decreases |ws|
  {
    if ws != [] {
      var n := |ws| - 1;
      TotalIsSum(ws[..n], counted[..n]);
      assert counted == counted[..n] + [counted[n]];
      SumSnoc(counted[..n], counted[n]);
    }
  }

  lemma Scale(a: real, b: real, t: real)
    requires t > 0.0
    ensures a <= b <==> a * t <= b * t
    ensures a < b <==> a * t < b * t
  {
    assert (b - a) * t == b * t - a * t;
    if a < b {
      Positive(b - a, t);
    } else if b < a {
      Positive(a - b, t);
      assert (a - b) * t == a * t - b * t;
    }
  }

  lemma Positive(a: real, b: real)
    requires a > 0.0 && b > 0.0
    ensures a * b > 0.0
  {
  }

  /** n units are what the weight entitles to, and one more is not. */
  predicate Entitled(n: int, capacity: real, weight: real, total: real) {
    n as real * total <= capacity * weight < (n as real + 1.0) * total
  }

  lemma QuotientFloor(q: real, total: real, x: real, n: int)
    requires total > 0.0 && q * total == x
    ensures q.Floor == n <==> n as real * total <= x < (n as real + 1.0) * total
  {
    FloorBetween(q, n);
    Between(n as real, q, n as real + 1.0, total, x);
  }

  lemma Between(a: real, q: real, b: real, t: real, x: real)
    requires t > 0.0 && q * t == x
    ensures a <= q < b <==> a * t <= x < b * t
  {
    Scale(a, q, t);
    Scale(b, q, t);
  }

  lemma FloorBetween(q: real, n: int)
    ensures q.Floor == n <==> n as real <= q < n as real + 1.0
  {
  }

  lemma PortionFloor(capacity: real, weight: real, total: real, n: int)
    requires total > 0.0
    ensures Portion(capacity, weight, total).Floor == n <==> Entitled(n, capacity, weight, total)
  {
    QuotientFloor(Portion(capacity, weight, total), total, capacity * weight, n);
  }

  lemma CountsLikeWeight(configured: Option<real>, w: real)
    requires CountsAs(configured, w)
    ensures Weight(configured) == w
  {
  }

  /**
   The share of a listed tenant is the greatest number of units that its own weight entitles it to, out of
   the capacity and the sum of all weights.
   */
  lemma ShareExactly(ws: Weights, counted: seq<real>, capacity: real, i: nat, n: int)
    requires DistinctTenants(ws) && CountAs(ws, counted) && i < |ws|
    ensures FairShare(ws, capacity, ws[i].0) == n <==> Entitled(n, capacity, counted[i], Sum(counted))
  {
    hide Total, FairShare, Sum, Entitled, Portion, Weight;
    TotalIsSum(ws, counted);
    ShareIsFloor(ws, capacity, i);
    CountsLikeWeight(ws[i].1, counted[i]);
    hide CountsAs, DistinctTenants;
    PortionFloor(capacity, counted[i], Sum(counted), n);
  }

  lemma {:induction false} SumPositive(xs: seq<real>)
    requires xs != [] && forall i :: 0 <= i < |xs| ==> xs[i] > 0.0
    ensures Sum(xs) > 0.0
  {
    if |xs| > 1 {
      SumPositive(xs[1..]);
    } else {
      assert Sum(xs[1..]) == 0.0;
    }
  }

  lemma Crossed(a: real, b: real, t: real, c: real, m: real, n: real)
    requires a > 0.0 && b > 0.0 && t > 0.0
    requires m * t <= c * a && c * b < (n + 1.0) * t
    ensures m * b - n * a < a
  {
    Scale(m * t, c * a, b);
    Scale(c * b, (n + 1.0) * t, a);
    assert m * t * b <= c * a * b == c * b * a < (n + 1.0) * t * a;
    assert (m * b) * t == m * t * b && ((n + 1.0) * a) * t == (n + 1.0) * t * a;
    Scale(m * b, (n + 1.0) * a, t);
    assert (n + 1.0) * a == n * a + a;
  }

  lemma EntitledCrossed(a: real, b: real, t: real, c: real, m: int, n: int)
    requires a > 0.0 && b > 0.0 && t > 0.0 && Entitled(m, c, a, t) && Entitled(n, c, b, t)
    ensures m as real * b - n as real * a < a
  {
    Crossed(a, b, t, c, m as real, n as real);
  }

  lemma CountedPositive(ws: Weights, counted: seq<real>)
    requires CountAs(ws, counted)
    ensures forall i :: 0 <= i < |counted| ==> counted[i] > 0.0
  {
  }

  /** Two shares are in proportion to their weights up to the rounding of one unit each. */
  lemma SharesInProportion(ws: Weights, counted: seq<real>, capacity: real, i: nat, j: nat)
    requires DistinctTenants(ws) && CountAs(ws, counted) && i < |ws| && j < |ws|
    ensures var m, n := FairShare(ws, capacity, ws[i].0) as real, FairShare(ws, capacity, ws[j].0) as real;
      -counted[j] < m * counted[j] - n * counted[i] < counted[i]
  {
    hide FairShare, Sum, Entitled;
    var m, n := FairShare(ws, capacity, ws[i].0), FairShare(ws, capacity, ws[j].0);
    ShareExactly(ws, counted, capacity, i, m);
    ShareExactly(ws, counted, capacity, j, n);
    CountedPositive(ws, counted);
    SumPositive(counted);
    hide CountAs, DistinctTenants;
    EntitledCrossed(counted[i], counted[j], Sum(counted), capacity, m, n);
    EntitledCrossed(counted[j], counted[i], Sum(counted), capacity, n, m);
  }

  // ---------- thresholds ----------

  /** The percentage of the memory at which a level is reached: above a baseline the rest is the scale. */
  function PercentAt(baseline: Option<real>, level: real): real {
    if baseline.Some? && 0.0 < baseline.value < 100.0 then baseline.value + level / 100.0 * (100.0 - baseline.value) else level
  }

  lemma DeltaIff(u: real, b: real, level: real)
    requires 0.0 < b < 100.0
    ensures (u - b) / (100.0 - b) * 100.0 >= level <==> u >= b + level / 100.0 * (100.0 - b)
  {
    var r, q := 100.0 - b, (u - b) / (100.0 - b);
    assert q * r == u - b;
    Scale(level / 100.0, q, r);
  }

  lemma PercentIff(used: real, total: real, p: real)
    requires total > 0.0
    ensures used / total * 100.0 >= p <==> used * 100.0 >= p * total
  {
    var q := used / total;
    assert q * total == used;
    Scale(p, q * 100.0, total);
    assert q * 100.0 * total == used * 100.0;
  }

  /** The GPU reaches a positive level exactly at that share of its memory, above the baseline if there is one. */
  lemma GpuReachesIff(s: Snapshot, t: Thresholds, level: real)
    requires level > 0.0
    ensures Reaches(s, t, GpuMemory, level) <==>
            && s.gpuUsed.Some? && s.gpuTotal.Some? && s.gpuTotal.value > 0.0
            && s.gpuUsed.value * 100.0 >= PercentAt(t.baseline, level) * s.gpuTotal.value
  {
    if s.gpuUsed.Some? && s.gpuTotal.Some? && s.gpuTotal.value > 0.0 {
      var u := s.gpuUsed.value / s.gpuTotal.value * 100.0;
      PercentIff(s.gpuUsed.value, s.gpuTotal.value, PercentAt(t.baseline, level));
      if t.baseline.Some? && 0.0 < t.baseline.value < 100.0 {
        var b := t.baseline.value;
        DeltaIff(u, b, level);
        NoDelta(b, level);
      }
      hide PercentAt;
    }
  }

  lemma NoDelta(b: real, level: real)
    requires 0.0 < b < 100.0 && level > 0.0
    ensures 0.0 / (100.0 - b) * 100.0 == 0.0 && b + level / 100.0 * (100.0 - b) > b
  {
    Positive(level / 100.0, 100.0 - b);
  }

  /** The other signals are compared as they are measured. */
  lemma OthersReachIff(s: Snapshot, t: Thresholds, level: real)
    ensures Reaches(s, t, KvCache, level) <==> s.kvCache.Some? && s.kvCache.value >= level
    ensures Reaches(s, t, RunningRequests, level) <==> s.running.Some? && s.running.value >= level
    ensures Reaches(s, t, WaitingRequests, level) <==> s.waiting.Some? && s.waiting.value >= level
  {
  }

  // ---------- reasons ----------

  /** Why a run is queued: the first of these that applies. */
  lemma QueuedFor(pressure: Pressure, maxActiveRuns: int, ceiling: real, unitsPerRun: real, active: int, tenantActive: int)
    ensures var d := Decide(pressure, maxActiveRuns, ceiling, unitsPerRun, active, tenantActive);
      && (d == QueueFor(ResourceCritical) <==> pressure == Critical)
      && (d == QueueFor(ResourceUnknown) <==> pressure == Unknown)
      && (d == QueueFor(GlobalLimit) <==> (pressure == Normal || pressure == Busy) && active >= maxActiveRuns)
      && (d == QueueFor(BusyTenantLimit) <==> pressure == Busy && active < maxActiveRuns && tenantActive > 0)
      && (d == QueueFor(BudgetExceeded) <==>
          && (pressure == Normal || (pressure == Busy && tenantActive <= 0)) && active < maxActiveRuns
          && tenantActive as real + unitsPerRun > ceiling)
  {
  }

  /** The pressure, by the thresholds of each signal: the worst one reached, unknown when nothing is measured. */
  lemma ClassifiedExactly(s: Snapshot, t: Thresholds)
    ensures var usage := s.gpuUsed.Some? && s.gpuTotal.Some? && s.gpuTotal.value > 0.0;
      var usable := usage || s.kvCache.Some? || s.running.Some? || s.waiting.Some?;
      var critical := || Reaches(s, t, GpuMemory, t.gpu.critical) || Reaches(s, t, KvCache, t.kvCache.critical)
                      || Reaches(s, t, RunningRequests, t.running.critical) || Reaches(s, t, WaitingRequests, t.waiting.critical);
      var busy := || Reaches(s, t, GpuMemory, t.gpu.busy) || Reaches(s, t, KvCache, t.kvCache.busy)
                  || Reaches(s, t, RunningRequests, t.running.busy) || Reaches(s, t, WaitingRequests, t.waiting.busy);
      && (Classify(s, t) == Unknown <==> !usable)
      && (Classify(s, t) == Critical <==> usable && critical)
      && (Classify(s, t) == Busy <==> usable && !critical && busy)
  {
    hide SignalOf;
    assert ThresholdOf(t, GpuMemory) == t.gpu && ThresholdOf(t, KvCache) == t.kvCache;
    assert ThresholdOf(t, RunningRequests) == t.running && ThresholdOf(t, WaitingRequests) == t.waiting;
    assert CriticalIn(s, t) ==> exists signal :: Reaches(s, t, signal, ThresholdOf(t, signal).critical);
    assert BusyIn(s, t) ==> exists signal :: Reaches(s, t, signal, ThresholdOf(t, signal).busy);
    hide ThresholdOf;
  }

  // ---------- ceilings ----------

  /** The ceiling is the greatest number within both the share and the configured units. */
  lemma CeilingExactly(share: int, maxUnits: Option<real>, x: real)
    ensures x <= Ceiling(share, maxUnits) <==> x <= share as real && (maxUnits.Some? ==> x <= maxUnits.value)
  {
  }
}
