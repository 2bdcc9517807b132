/**
 Admission of runs: src/resources/resource-classifier.ts, src/resources/execution-policy.ts,
 src/resources/budget-aware-policy.ts and src/resources/tenant-budget.ts. Measured quantities are
 real numbers.
 */
module Admission {
  import opened Options

  // ---------- classification ----------

  datatype Snapshot = Snapshot(gpuUsed: Option<real>, gpuTotal: Option<real>, kvCache: Option<real>, running: Option<real>, waiting: Option<real>)

  datatype Threshold = Threshold(busy: real, critical: real)

  datatype Thresholds = Thresholds(gpu: Threshold, kvCache: Threshold, running: Threshold, waiting: Threshold, baseline: Option<real>)

  datatype Pressure = Normal | Busy | Critical | Unknown

  datatype Signal = GpuMemory | KvCache | RunningRequests | WaitingRequests

  datatype Reason = Within | InsufficientData | IsBusy(signal: Signal) | IsCritical(signal: Signal)

  function GpuUsage(s: Snapshot): Option<real> {
    if s.gpuTotal.None? || s.gpuUsed.None? || s.gpuTotal.value <= 0.0 then None
    else Some(s.gpuUsed.value / s.gpuTotal.value * 100.0)
  }

  /** The share of the memory above the baseline that is in use. */
  function GpuPressure(usage: Option<real>, baseline: Option<real>): Option<real> {
    if usage.None? || baseline.None? || baseline.value <= 0.0 || baseline.value >= 100.0 then usage
    else
      var delta := if usage.value - baseline.value > 0.0 then usage.value - baseline.value else 0.0;
      Some(delta / (100.0 - baseline.value) * 100.0)
  }

  function SignalOf(s: Snapshot, t: Thresholds, signal: Signal): Option<real> {
    match signal
    case GpuMemory => GpuPressure(GpuUsage(s), t.baseline)
    case KvCache => s.kvCache
    case RunningRequests => s.running
    case WaitingRequests => s.waiting
  }

  function ThresholdOf(t: Thresholds, signal: Signal): Threshold {
    match signal
    case GpuMemory => t.gpu
    case KvCache => t.kvCache
    case RunningRequests => t.running
    case WaitingRequests => t.waiting
  }

  predicate Reaches(s: Snapshot, t: Thresholds, signal: Signal, level: real) {
    SignalOf(s, t, signal).Some? && SignalOf(s, t, signal).value >= level
  }

  predicate CriticalIn(s: Snapshot, t: Thresholds) { exists signal :: Reaches(s, t, signal, ThresholdOf(t, signal).critical) }

  predicate BusyIn(s: Snapshot, t: Thresholds) { exists signal :: Reaches(s, t, signal, ThresholdOf(t, signal).busy) }

  predicate Usable(s: Snapshot) { GpuUsage(s).Some? || s.kvCache.Some? || s.running.Some? || s.waiting.Some? }

  /** What the classification comes to: the worst level any signal reaches. */
  function Classify(s: Snapshot, t: Thresholds): Pressure {
    if !Usable(s) then Unknown else if CriticalIn(s, t) then Critical else if BusyIn(s, t) then Busy else Normal
  }

  /** The reason one signal gives, if any. */
  function Judged(signal: Signal, value: Option<real>, threshold: Threshold): seq<Reason> {
    if value.None? then []
    else if value.value >= threshold.critical then [IsCritical(signal)]
    else if value.value >= threshold.busy then [IsBusy(signal)]
    else []
  }

  method Judge(signal: Signal, value: Option<real>, threshold: Threshold, before: seq<Reason>) returns (reasons: seq<Reason>)
    ensures reasons == before + Judged(signal, value, threshold)
  {
    reasons := before;
    if value.Some? {
      if value.value >= threshold.critical {
        reasons := reasons + [IsCritical(signal)];
      } else if value.value >= threshold.busy {
        reasons := reasons + [IsBusy(signal)];
      }
    }
  }

  function ReasonsFor(s: Snapshot, t: Thresholds): seq<Reason> {
    Judged(GpuMemory, SignalOf(s, t, GpuMemory), t.gpu) + Judged(KvCache, s.kvCache, t.kvCache)
    + Judged(RunningRequests, s.running, t.running) + Judged(WaitingRequests, s.waiting, t.waiting)
  }

  /** A signal is named as critical or busy exactly when it is, and as one of them only. */
  lemma ReasonsExact(s: Snapshot, t: Thresholds, signal: Signal)
    ensures IsCritical(signal) in ReasonsFor(s, t) <==> Reaches(s, t, signal, ThresholdOf(t, signal).critical)
    ensures IsBusy(signal) in ReasonsFor(s, t) <==>
            Reaches(s, t, signal, ThresholdOf(t, signal).busy) && !Reaches(s, t, signal, ThresholdOf(t, signal).critical)
  {
    hide GpuUsage, GpuPressure;
  }

  lemma WorstReason(s: Snapshot, t: Thresholds)
    ensures (exists i :: 0 <= i < |ReasonsFor(s, t)| && ReasonsFor(s, t)[i].IsCritical?) <==> CriticalIn(s, t)
    ensures !CriticalIn(s, t) ==> ((exists i :: 0 <= i < |ReasonsFor(s, t)| && ReasonsFor(s, t)[i].IsBusy?) <==> BusyIn(s, t))
  {
    forall signal
      ensures IsCritical(signal) in ReasonsFor(s, t) <==> Reaches(s, t, signal, ThresholdOf(t, signal).critical)
      ensures IsBusy(signal) in ReasonsFor(s, t) <==>
              Reaches(s, t, signal, ThresholdOf(t, signal).busy) && !Reaches(s, t, signal, ThresholdOf(t, signal).critical)
    {
      ReasonsExact(s, t, signal);
    }
    var rs := ReasonsFor(s, t);
    hide ReasonsFor, Reaches, ThresholdOf;
    if i :| 0 <= i < |rs| && rs[i].IsCritical? {
      assert IsCritical(rs[i].signal) in rs;
    }
    if i :| 0 <= i < |rs| && rs[i].IsBusy? {
      assert IsBusy(rs[i].signal) in rs;
    }
  }

  /** Collects a reason for each signal in turn; the worst of them decides. */
  method ClassifyResource(s: Snapshot, t: Thresholds) returns (pressure: Pressure, reasons: seq<Reason>)
    ensures pressure == Classify(s, t)
    ensures reasons == if pressure.Unknown? then [InsufficientData] else if pressure.Normal? then [Within] else ReasonsFor(s, t)
  {
    hide GpuUsage, GpuPressure, Judged, CriticalIn, BusyIn;
    var gpu := GpuPressure(GpuUsage(s), t.baseline);
    if GpuUsage(s).None? && s.kvCache.None? && s.running.None? && s.waiting.None? {
      return Unknown, [InsufficientData];
    }
    reasons := Judge(GpuMemory, gpu, t.gpu, []);
    reasons := Judge(KvCache, s.kvCache, t.kvCache, reasons);
    reasons := Judge(RunningRequests, s.running, t.running, reasons);
    reasons := Judge(WaitingRequests, s.waiting, t.waiting, reasons);
    assert reasons == ReasonsFor(s, t);
    WorstReason(s, t);
    if exists i :: 0 <= i < |reasons| && reasons[i].IsCritical? {
      pressure := Critical;
    } else if exists i :: 0 <= i < |reasons| && reasons[i].IsBusy? {
      pressure := Busy;
    } else {
      pressure, reasons := Normal, [Within];
    }
  }

  // ---------- decision ----------

  datatype Decision = Start | QueueFor(reason: QueueReason)
  datatype QueueReason = ResourceCritical | ResourceUnknown | GlobalLimit | BusyTenantLimit | BudgetExceeded

  /** DeterministicExecutionPolicy.decide */
  function BaseDecision(pressure: Pressure, maxActiveRuns: int, active: int, tenantActive: int): Decision {
    match pressure
    case Critical => QueueFor(ResourceCritical)
    case Unknown => QueueFor(ResourceUnknown)
    case Busy =>
      if active >= maxActiveRuns then QueueFor(GlobalLimit)
      else if tenantActive > 0 then QueueFor(BusyTenantLimit)
      else Start
    case Normal => if active >= maxActiveRuns then QueueFor(GlobalLimit) else Start
  }

  /** The tighter of fair share and ceiling; None is no ceiling. */
  function Ceiling(share: int, maxUnits: Option<real>): real {
    if maxUnits.Some? && maxUnits.value <= share as real then maxUnits.value else share as real
  }

  /** BudgetAwareExecutionPolicy.decide over the deterministic policy. */
  function Decide(pressure: Pressure, maxActiveRuns: int, ceiling: real, unitsPerRun: real, active: int, tenantActive: int): Decision {
    var base := BaseDecision(pressure, maxActiveRuns, active, tenantActive);
    if !base.Start? then base
    else if ceiling - tenantActive as real >= unitsPerRun then base
    else QueueFor(BudgetExceeded)
  }

  // ---------- fair share ----------

  /** A weight as configured: None stands for anything that is not a finite number. */
  function Weight(w: Option<real>): (r: real)
    ensures r > 0.0
  {
    if w.None? || w.value <= 0.0 then 1.0 else w.value
  }

  type Weights = seq<(string, Option<real>)>

  function Total(ws: Weights): (r: real)
    ensures r >= 0.0 && (ws != [] ==> r > 0.0)
  {
    if ws == [] then 0.0 else Total(ws[..|ws| - 1]) + Weight(ws[|ws| - 1].1)
  }

  function WeightOf(ws: Weights, tenant: string): Option<real> {
    if ws == [] then None else if ws[|ws| - 1].0 == tenant then ws[|ws| - 1].1 else WeightOf(ws[..|ws| - 1], tenant)
  }

  /** What falls to a weight before rounding. */
  function Portion(capacity: real, weight: real, total: real): real
    requires total > 0.0
  {
    capacity * weight / total
  }

  function FairShare(ws: Weights, capacity: real, tenant: string): int {
    if Total(ws) <= 0.0 then 0 else Portion(capacity, Weight(WeightOf(ws, tenant)), Total(ws)).Floor
  }

  predicate DistinctTenants(ws: Weights) { forall i, j :: 0 <= i < j < |ws| ==> ws[i].0 != ws[j].0 }

  /** The shares of the first k listed tenants together. */
  function ShareSum(ws: Weights, capacity: real, k: nat): int
    requires k <= |ws|
  {
    if k == 0 then 0 else ShareSum(ws, capacity, k - 1) + FairShare(ws, capacity, ws[k - 1].0)
  }

  lemma {:induction false} ListedWeight(ws: Weights, i: nat)
    requires DistinctTenants(ws) && i < |ws|
    ensures WeightOf(ws, ws[i].0) == ws[i].1
    decreases |ws|
  {
    if i < |ws| - 1 {
      ListedWeight(ws[..|ws| - 1], i);
    }
  }

  /** The capacity that falls to the first k listed tenants, before rounding. */
  function Part(ws: Weights, capacity: real, k: nat): real
    requires k <= |ws| && |ws| > 0
  {
    Portion(capacity, Total(ws[..k]), Total(ws))
  }

  lemma AddPortions(c: real, a: real, w: real, t: real)
    requires t > 0.0
    ensures Portion(c, a + w, t) == Portion(c, a, t) + Portion(c, w, t)
  {
    assert c * (a + w) == c * a + c * w;
  }

  lemma PartStep(ws: Weights, capacity: real, k: nat)
    requires k < |ws|
    ensures Part(ws, capacity, k + 1) == Part(ws, capacity, k) + Portion(capacity, Weight(ws[k].1), Total(ws))
  {
    hide Total, Weight, Portion;
    TotalGrows(ws, k);
    AddPortions(capacity, Total(ws[..k]), Weight(ws[k].1), Total(ws));
  }

  lemma TotalGrows(ws: Weights, k: nat)
    requires k < |ws|
    ensures Total(ws[..k + 1]) == Total(ws[..k]) + Weight(ws[k].1)
  {
    assert ws[..k + 1][..k] == ws[..k];
  }

  lemma PartEnds(ws: Weights, capacity: real)
    requires |ws| > 0
    ensures Part(ws, capacity, 0) == 0.0 && Part(ws, capacity, |ws|) == capacity
  {
    assert ws[..|ws|] == ws;
    assert Total(ws[..0]) == 0.0;
    hide Total;
  }

  lemma ShareIsFloor(ws: Weights, capacity: real, i: nat)
    requires DistinctTenants(ws) && i < |ws|
    ensures FairShare(ws, capacity, ws[i].0) == Portion(capacity, Weight(ws[i].1), Total(ws)).Floor
  {
    hide Portion, Total, Weight, WeightOf;
    ListedWeight(ws, i);
  }

  lemma {:induction false} SharesBounded(ws: Weights, capacity: real, k: nat)
    requires DistinctTenants(ws) && k <= |ws| && |ws| > 0
    ensures Part(ws, capacity, k) - k as real <= ShareSum(ws, capacity, k) as real <= Part(ws, capacity, k)
    ensures k > 0 ==> Part(ws, capacity, k) - k as real < ShareSum(ws, capacity, k) as real
    decreases k
  {
    hide Part, Portion, FairShare, DistinctTenants;
    if k > 0 {
      SharesBounded(ws, capacity, k - 1);
      ShareIsFloor(ws, capacity, k - 1);
      PartStep(ws, capacity, k - 1);
    } else {
      PartEnds(ws, capacity);
    }
  }

  /**
   Over the listed tenants the shares add up to at most the capacity, and to more than the capacity
   less one unit for each tenant.
   */
  lemma SharesFillCapacity(ws: Weights, capacity: real)
    requires DistinctTenants(ws) && |ws| > 0
    ensures capacity - |ws| as real < ShareSum(ws, capacity, |ws|) as real <= capacity
  {
    hide Part, ShareSum;
    SharesBounded(ws, capacity, |ws|);
    PartEnds(ws, capacity);
  }

  /** A tenant nobody listed gets the portion of weight one of a total it is not counted in. */
  lemma UnlistedShare(ws: Weights, capacity: real, tenant: string)
    requires |ws| > 0 && forall i :: 0 <= i < |ws| ==> ws[i].0 != tenant
    ensures FairShare(ws, capacity, tenant) == Portion(capacity, 1.0, Total(ws)).Floor
  {
    NotListed(ws, tenant);
  }

  lemma {:induction false} NotListed(ws: Weights, tenant: string)
    requires forall i :: 0 <= i < |ws| ==> ws[i].0 != tenant
    ensures WeightOf(ws, tenant) == None
    decreases |ws|
  {
    if ws != [] {
      NotListed(ws[..|ws| - 1], tenant);
    }
  }
}
