/**
  The GpuWorkload record: its phases, its status fields and the status that each
  writer computes from the copy of the record it holds. Everything here is a value;
  `Preemption` puts the record into a store with concurrent writers.
 */
module GpuRecords {
  import opened Common

  datatype Phase = New | PendingGpu | PendingOther | Active | Idle | Preempting | Preempted | Deleted

  /** Utilizations are kept in hundredths of a percent point, the precision the scraper rounds to. */
  datatype GpuMetric = GpuMetric(gpuId: string, utilization: int, lastUpdate: int)

  datatype TrackedPod = TrackedPod(podName: string, metrics: seq<GpuMetric>)

  datatype Spec = Spec(uid: string, gpu: map<string, nat>)

  datatype Status = Status(
    phase: Phase,
    tracked: seq<TrackedPod>,
    utilization: Option<int>,
    lastMetrics: Option<int>,
    idleSince: Option<int>,
    finishedAt: Option<int>,
    preemptedAt: Option<int>,
    preemptedFor: string,
    reason: string)

  datatype Record = Record(created: int, spec: Spec, status: Status)

  /** A copy of a stored record, with the version it was read at. */
  datatype Snapshot = Snapshot(name: string, version: nat, rec: Record)

  const EMPTY_STATUS := Status(New, [], None, None, None, None, None, "", "")

  predicate Terminal(p: Phase) {
    p == Preempted || p == Deleted
  }

  /** Phases that the reconciler recomputes from the cluster. */
  predicate Live(p: Phase) {
    !Terminal(p) && p != Preempting
  }

  /** A missing key of a Go map reads as zero. */
  function Count(gpu: map<string, nat>, r: string): nat {
    if r in gpu then gpu[r] else 0
  }

  // ----- Utilization -----

  /** Round half away from zero. */
  function Round(x: real): int {
    if x >= 0.0 then (x + 0.5).Floor else -((-x + 0.5).Floor)
  }

  datatype Aggregation = Min | Max | Avg

  function SumMetrics(ms: seq<GpuMetric>): int {
    if ms == [] then 0 else ms[0].utilization + SumMetrics(ms[1..])
  }

  /** The average of every tracked pod that has samples. */
  function PodAverages(tracked: seq<TrackedPod>): seq<real> {
    if tracked == [] then []
    else
      var rest := PodAverages(tracked[1..]);
      var ms := tracked[0].metrics;
      if ms == [] then rest else [SumMetrics(ms) as real / |ms| as real] + rest
  }

  function MinOf(xs: seq<real>): real
    requires xs != []
  {
    if |xs| == 1 then xs[0]
    else
      var m := MinOf(xs[1..]);
      if xs[0] < m then xs[0] else m
  }

  function MaxOf(xs: seq<real>): real
    requires xs != []
  {
    if |xs| == 1 then xs[0]
    else
      var m := MaxOf(xs[1..]);
      if xs[0] > m then xs[0] else m
  }

  function SumOf(xs: seq<real>): real {
    if xs == [] then 0.0 else xs[0] + SumOf(xs[1..])
  }

  function AggregatedUtilization(tracked: seq<TrackedPod>, policy: Aggregation): Option<int> {
    var averages := PodAverages(tracked);
    if averages == [] then None
    else
      match policy
      case Min => Some(Round(MinOf(averages)))
      case Max => Some(Round(MaxOf(averages)))
      case Avg => Some(Round(SumOf(averages) / |averages| as real))
  }

  // ----- What a reconcile observes -----

  datatype PodPhase = PodPending | PodRunning | PodOther

  /** `waitsForGpu` is the outcome of the scheduler and quota message checks for a pending pod. */
  datatype Pod = Pod(name: string, phase: PodPhase, waitsForGpu: bool)

  datatype DeleteOutcome = Removed | Forbidden | Failed

  /**
    Everything a reconcile reads besides the record: the outcome of deleting the owner of a
    Preempting workload, whether the owner still exists, the owned pods (in the name order the
    code sorts them into), whether Kueue reports missing GPU quota for the owner, the resolved
    settings, and the clock reading used for new timestamps.
   */
  datatype View = View(
    deletion: DeleteOutcome,
    ownerExists: bool,
    pods: seq<Pod>,
    quotaPending: bool,
    threshold: int,
    aggregation: Aggregation,
    ttl: int,
    now: int)

  /** The samples kept for a pod: the last entry of that name that has any. */
  function MetricsOf(tracked: seq<TrackedPod>, pod: string): seq<GpuMetric> {
    if tracked == [] then []
    else
      var last := tracked[|tracked| - 1];
      if last.podName == pod && last.metrics != [] then last.metrics
      else MetricsOf(tracked[..|tracked| - 1], pod)
  }

  /** Rebuilds the tracked pods from the owned pods, keeping the samples already stored. */
  function Retrack(pods: seq<Pod>, tracked: seq<TrackedPod>): (r: seq<TrackedPod>)
    ensures |r| == |pods|
    ensures forall i :: 0 <= i < |pods| ==> r[i] == TrackedPod(pods[i].name, MetricsOf(tracked, pods[i].name))
  {
    if pods == [] then []
    else [TrackedPod(pods[0].name, MetricsOf(tracked, pods[0].name))] + Retrack(pods[1..], tracked)
  }

  predicate GpuStarved(pods: seq<Pod>) {
    exists p :: p in pods && p.phase == PodPending && p.waitsForGpu
  }

  predicate AnyRunning(pods: seq<Pod>) {
    exists p :: p in pods && p.phase == PodRunning
  }

  /** The phase for the stored status `st`, and the aggregated utilization left in the status. */
  function ComputePhase(st: Status, v: View): (r: (Phase, Option<int>))
    ensures r.0 == st.phase || r.0 in {PendingOther, PendingGpu, Active, Idle}
    ensures st.phase == New ==> r.0 != New
    ensures v.pods != [] ==> r.0 in {PendingOther, PendingGpu, Active, Idle}
  {
    if v.pods == [] then
      if st.phase == New then (PendingOther, st.utilization)
      else if v.quotaPending then (PendingGpu, st.utilization)
      else (st.phase, st.utilization)
    else if GpuStarved(v.pods) then (PendingGpu, st.utilization)
    else if !AnyRunning(v.pods) then (PendingOther, st.utilization)
    else
      var util := AggregatedUtilization(st.tracked, v.aggregation);
      var effective := if util.Some? then util.value else 0;
      (if effective >= v.threshold then Active else Idle, util)
  }

  // ----- The status each writer computes -----

  /** The live branch of a reconcile: tracked pods, phase and idle time. */
  function Observed(st: Status, v: View): Status {
    var st1 := st.(tracked := Retrack(v.pods, st.tracked));
    var (phase, util) := ComputePhase(st1, v);
    st1.(
      phase := phase,
      utilization := util,
      idleSince := if phase != Idle then None else if st.idleSince.None? then Some(v.now) else st.idleSince)
  }

  function OwnerGone(st: Status, now: int): Status {
    st.(phase := Deleted, finishedAt := Some(now), idleSince := None, utilization := None, tracked := [])
  }

  function Evicted(st: Status, now: int): Status {
    st.(phase := Preempted, preemptedAt := Some(now), finishedAt := Some(now),
        idleSince := None, utilization := None, tracked := [])
  }

  /** RBAC forbids deleting the owner: back to Idle, with no idle time recorded. */
  function Reverted(st: Status): Status {
    st.(phase := Idle, preemptedFor := "", reason := "")
  }

  /** The evaluator claims an idle workload; an empty `pending` is the Always policy. */
  function Marked(st: Status, pending: string, reason: string): Status {
    var m := st.(phase := Preempting, idleSince := None, reason := reason);
    if pending == "" then m else m.(preemptedFor := pending)
  }

  // ----- The scraper -----

  /**
    `edge` is how floating point decides a move by exactly one hundredth: whether the difference comes out
    above 0.01, which it does for some values and not for others.
   */
  datatype Sample = Sample(gpuId: string, utilization: real, edge: bool)

  /** Whether a sample moves a stored value enough to replace it. */
  predicate Moves(stored: int, rounded: int, edge: bool) {
    var moved := if stored > rounded then stored - rounded else rounded - stored;
    moved > 1 || (moved == 1 && edge)
  }

  /** One sample against the samples of a pod: replace a value that moved, append a new GPU. */
  function ApplySample(ms: seq<GpuMetric>, s: Sample, now: int): (r: (seq<GpuMetric>, bool))
    ensures !r.1 ==> r.0 == ms
  {
    var rounded := Round(s.utilization * 100.0);
    if ms == [] then ([GpuMetric(s.gpuId, rounded, now)], true)
    else if ms[0].gpuId == s.gpuId then
      if Moves(ms[0].utilization, rounded, s.edge) then ([GpuMetric(s.gpuId, rounded, now)] + ms[1..], true)
      else (ms, false)
    else
      var (rest, changed) := ApplySample(ms[1..], s, now);
      ([ms[0]] + rest, changed)
  }

  function ApplySamples(ms: seq<GpuMetric>, samples: seq<Sample>, now: int): (r: (seq<GpuMetric>, bool))
    ensures !r.1 ==> r.0 == ms
    decreases |samples|
  {
    if samples == [] then (ms, false)
    else
      var (ms1, c1) := ApplySample(ms, samples[0], now);
      var (ms2, c2) := ApplySamples(ms1, samples[1..], now);
      (ms2, c1 || c2)
  }

  /** The position of the first tracked entry of a pod, or the length when it is not tracked. */
  function FindPod(tracked: seq<TrackedPod>, pod: string): (i: nat)
    ensures i <= |tracked|
    ensures i < |tracked| ==> tracked[i].podName == pod
    ensures forall j :: 0 <= j < i ==> tracked[j].podName != pod
  {
    if tracked == [] then 0
    else if tracked[0].podName == pod then 0
    else 1 + FindPod(tracked[1..], pod)
  }

  /** The status after a scrape, and whether there is anything to write. */
  function Scraped(st: Status, pod: string, samples: seq<Sample>, now: int): (r: (Status, bool))
    ensures !r.1 ==> r.0 == st
  {
    var i := FindPod(st.tracked, pod);
    if i == |st.tracked| then (st, false)
    else
      var (ms, changed) := ApplySamples(st.tracked[i].metrics, samples, now);
      if !changed then (st, false)
      else (st.(tracked := st.tracked[i := TrackedPod(pod, ms)], lastMetrics := Some(now)), true)
  }

  // ----- What the numbers mean -----

  /** `n` is `x` rounded to the nearest integer, halves away from zero. */
  ghost predicate Rounds(x: real, n: int) {
    if x >= 0.0 then n as real - 0.5 <= x < n as real + 0.5 else n as real - 0.5 < x <= n as real + 0.5
  }

  lemma RoundIs(x: real)
    ensures Rounds(x, Round(x))
    ensures forall n :: Rounds(x, n) ==> n == Round(x)
  {
  }

  /** The samples of the first `n` GPUs, added up. */
  ghost function SampleSum(ms: seq<GpuMetric>, n: nat): int
    requires n <= |ms|
  {
    if n == 0 then 0 else SampleSum(ms, n - 1) + ms[n - 1].utilization
  }

  /** `a` is the mean of the samples. */
  ghost predicate IsMean(a: real, ms: seq<GpuMetric>) {
    ms != [] && a * |ms| as real == SampleSum(ms, |ms|) as real
  }

  ghost function RealSum(xs: seq<real>, n: nat): real
    requires n <= |xs|
  {
    if n == 0 then 0.0 else RealSum(xs, n - 1) + xs[n - 1]
  }

  lemma {:induction false} SampleSumTail(ms: seq<GpuMetric>, n: nat)
    requires 0 < n <= |ms|
    ensures SampleSum(ms, n) == ms[0].utilization + SampleSum(ms[1..], n - 1)
  {
    if n > 1 {
      SampleSumTail(ms, n - 1);
    }
  }

  lemma {:induction false} SumMetricsIs(ms: seq<GpuMetric>)
    ensures SumMetrics(ms) == SampleSum(ms, |ms|)
  {
    if ms != [] {
      SumMetricsIs(ms[1..]);
      SampleSumTail(ms, |ms|);
    }
  }

  lemma {:induction false} RealSumTail(xs: seq<real>, n: nat)
    requires 0 < n <= |xs|
    ensures RealSum(xs, n) == xs[0] + RealSum(xs[1..], n - 1)
  {
    if n > 1 {
      RealSumTail(xs, n - 1);
    }
  }

  lemma {:induction false} SumOfIs(xs: seq<real>)
    ensures SumOf(xs) == RealSum(xs, |xs|)
  {
    if xs != [] {
      SumOfIs(xs[1..]);
      RealSumTail(xs, |xs|);
    }
  }

  /** The tracked pods that have samples. */
  ghost function Sampled(tracked: seq<TrackedPod>): seq<TrackedPod> {
    if tracked == [] then []
    else if tracked[0].metrics != [] then [tracked[0]] + Sampled(tracked[1..])
    else Sampled(tracked[1..])
  }

  lemma {:induction false} SampledAre(tracked: seq<TrackedPod>)
    ensures forall t :: t in Sampled(tracked) <==> t in tracked && t.metrics != []
  {
    if tracked != [] {
      SampledAre(tracked[1..]);
      assert tracked == [tracked[0]] + tracked[1..];
    }
  }

  lemma DivideMultiply(x: real, n: real)
    requires n != 0.0
    ensures (x / n) * n == x
  {
  }

  lemma MeanIs(ms: seq<GpuMetric>)
    requires ms != []
    ensures IsMean(SumMetrics(ms) as real / |ms| as real, ms)
  {
    SumMetricsIs(ms);
    DivideMultiply(SumMetrics(ms) as real, |ms| as real);
  }

  /** The means of the pods that have samples, one for each. */
  ghost predicate AreMeans(xs: seq<real>, tracked: seq<TrackedPod>) {
    |xs| == |Sampled(tracked)| && forall i :: 0 <= i < |xs| ==> IsMean(xs[i], Sampled(tracked)[i].metrics)
  }

  lemma AreMeansNext(tracked: seq<TrackedPod>, xs: seq<real>, x: real)
    requires tracked != [] && tracked[0].metrics != [] && AreMeans(xs, tracked[1..]) && IsMean(x, tracked[0].metrics)
    ensures AreMeans([x] + xs, tracked)
  {
    assert Sampled(tracked) == [tracked[0]] + Sampled(tracked[1..]);
  }

  lemma {:induction false} PodAveragesAre(tracked: seq<TrackedPod>)
    ensures AreMeans(PodAverages(tracked), tracked)
  {
    if tracked != [] {
      PodAveragesAre(tracked[1..]);
      if tracked[0].metrics != [] {
        MeanIs(tracked[0].metrics);
        AreMeansNext(tracked, PodAverages(tracked[1..]), PodAverages(tracked)[0]);
      }
    }
  }

  lemma {:induction false} MaxOfIs(xs: seq<real>)
    requires xs != []
    ensures MaxOf(xs) in xs && forall x :: x in xs ==> x <= MaxOf(xs)
  {
    if |xs| > 1 {
      MaxOfIs(xs[1..]);
      assert forall x :: x in xs <==> x == xs[0] || x in xs[1..];
    }
  }

  lemma {:induction false} MinOfIs(xs: seq<real>)
    requires xs != []
    ensures MinOf(xs) in xs && forall x :: x in xs ==> MinOf(xs) <= x
  {
    if |xs| > 1 {
      MinOfIs(xs[1..]);
      assert forall x :: x in xs <==> x == xs[0] || x in xs[1..];
    }
  }

  /** What a policy makes of the means, before rounding. */
  ghost predicate Aggregates(policy: Aggregation, xs: seq<real>, a: real) {
    match policy
    case Min => a in xs && forall x :: x in xs ==> a <= x
    case Max => a in xs && forall x :: x in xs ==> x <= a
    case Avg => a * |xs| as real == RealSum(xs, |xs|)
  }

  lemma AggregateOf(xs: seq<real>, policy: Aggregation) returns (a: real)
    requires xs != []
    ensures Aggregates(policy, xs, a)
    ensures a == match policy case Min => MinOf(xs) case Max => MaxOf(xs) case Avg => SumOf(xs) / |xs| as real
  {
    MinOfIs(xs);
    MaxOfIs(xs);
    SumOfIs(xs);
    DivideMultiply(SumOf(xs), |xs| as real);
    a := match policy case Min => MinOf(xs) case Max => MaxOf(xs) case Avg => SumOf(xs) / |xs| as real;
  }

  /**
    The aggregated utilization: none without samples, otherwise the least, the greatest or the mean of the
    means of the pods that have samples, rounded.
   */
  lemma AggregateIs(tracked: seq<TrackedPod>, policy: Aggregation) returns (xs: seq<real>, a: real)
    ensures AreMeans(xs, tracked)
    ensures AggregatedUtilization(tracked, policy).None? <==> forall t :: t in tracked ==> t.metrics == []
    ensures AggregatedUtilization(tracked, policy).Some? ==>
      xs != [] && Aggregates(policy, xs, a) && Rounds(a, AggregatedUtilization(tracked, policy).value)
  {
    xs := PodAverages(tracked);
    a := 0.0;
    PodAveragesAre(tracked);
    SampledAre(tracked);
    if xs == [] {
      forall t | t in tracked
        ensures t.metrics == []
      {
        assert t !in Sampled(tracked);
      }
    } else {
      assert Sampled(tracked)[0] in Sampled(tracked);
      a := AggregateOf(xs, policy);
      RoundIs(a);
    }
  }

  // ----- What a reconcile makes of what it sees -----

  /** The phase of a workload with pods, and the utilization it leaves behind. */
  lemma PhaseWithPods(st: Status, v: View)
    requires v.pods != []
    ensures var (phase, utilization) := ComputePhase(st, v);
      var starved := exists p :: p in v.pods && p.phase == PodPending && p.waitsForGpu;
      var running := exists p :: p in v.pods && p.phase == PodRunning;
      var seen := AggregatedUtilization(st.tracked, v.aggregation);
      && (phase == PendingGpu <==> starved)
      && (phase == PendingOther <==> !starved && !running)
      && (phase == Active <==> !starved && running && (if seen.Some? then seen.value else 0) >= v.threshold)
      && (phase == Idle <==> !starved && running && (if seen.Some? then seen.value else 0) < v.threshold)
      && utilization == (if !starved && running then seen else st.utilization)
  {
  }

  /** Without pods, a new workload waits for something else, and quota decides for the others. */
  lemma PhaseWithoutPods(st: Status, v: View)
    requires v.pods == []
    ensures var (phase, utilization) := ComputePhase(st, v);
      && utilization == st.utilization
      && phase == (if st.phase == New then PendingOther else if v.quotaPending then PendingGpu else st.phase)
  {
  }

  /**
    The status a reconcile observes: the owned pods with their old samples, the phase of what it sees, and an
    idle time that starts with the idle phase, is kept in it and ends with it. Nothing else changes.
   */
  lemma ObservedIs(st: Status, v: View)
    ensures var a := Observed(st, v); var kept := st.(tracked := a.tracked);
      && |a.tracked| == |v.pods|
      && (forall i :: 0 <= i < |v.pods| ==>
            a.tracked[i] == TrackedPod(v.pods[i].name, MetricsOf(st.tracked, v.pods[i].name)))
      && (a.phase, a.utilization) == ComputePhase(kept, v)
      && (a.phase == Idle ==> a.idleSince == if st.idleSince.Some? then st.idleSince else Some(v.now))
      && (a.phase != Idle ==> a.idleSince.None?)
      && a == kept.(phase := a.phase, utilization := a.utilization, idleSince := a.idleSince)
  {
  }
}
