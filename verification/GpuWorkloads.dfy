/**
  The GpuWorkload object as its writers edit it in place before they send it back: each method is
  proved to leave a legal successor of the status it found, the one that the protocol's steps write.
 */
module GpuWorkloads {
  import opened Common
  import opened GpuRecords
  import opened Preemption
  import opened PreemptionLegality

  lemma {:induction false} ApplySampleAt(ms: seq<GpuMetric>, s: Sample, now: int, i: nat)
    requires i <= |ms| && (forall j :: 0 <= j < i ==> ms[j].gpuId != s.gpuId)
    requires i < |ms| ==> ms[i].gpuId == s.gpuId
    ensures var m := GpuMetric(s.gpuId, Round(s.utilization * 100.0), now);
      ApplySample(ms, s, now) ==
        if i == |ms| then (ms + [m], true)
        else if Moves(ms[i].utilization, m.utilization, s.edge) then (ms[i := m], true)
        else (ms, false)
  {
    var m := GpuMetric(s.gpuId, Round(s.utilization * 100.0), now);
    if i > 0 {
      ApplySampleAt(ms[1..], s, now, i - 1);
      assert ms == [ms[0]] + ms[1..] && ms + [m] == [ms[0]] + (ms[1..] + [m]);
      if i < |ms| {
        assert ms[i := m] == [ms[0]] + ms[1..][i - 1 := m];
      }
    } else if ms == [] {
      assert ms + [m] == [m];
    } else {
      assert ms[0 := m] == [m] + ms[1..];
    }
  }

  /** What a sample does, in terms of the rounded value and how far the stored one is from it. */
  lemma SampleOutcome(ms: seq<GpuMetric>, s: Sample, now: int, i: nat, rounded: int)
    requires i <= |ms| && (forall j :: 0 <= j < i ==> ms[j].gpuId != s.gpuId)
    requires i < |ms| ==> ms[i].gpuId == s.gpuId
    requires Rounds(s.utilization * 100.0, rounded)
    ensures var m := GpuMetric(s.gpuId, rounded, now); var (ms', changed) := ApplySample(ms, s, now);
      && (i == |ms| ==> changed && ms' == ms + [m])
      && (i < |ms| ==>
            var up, down := rounded - ms[i].utilization, ms[i].utilization - rounded;
            && (changed <==> up > 1 || down > 1 || ((up == 1 || down == 1) && s.edge))
            && ms' == if changed then ms[i := m] else ms)
  {
    RoundIs(s.utilization * 100.0);
    ApplySampleAt(ms, s, now, i);
  }

  /** One sample against the samples of a pod. */
  method ApplyOne(ms: seq<GpuMetric>, s: Sample, now: int) returns (ms': seq<GpuMetric>, changed: bool)
    ensures (ms', changed) == ApplySample(ms, s, now)
  {
    var rounded := Round(s.utilization * 100.0);
    ms', changed := ms, false;
    var i := 0;
    while i < |ms|
      invariant i <= |ms| && (forall j :: 0 <= j < i ==> ms[j].gpuId != s.gpuId)
    {
      if ms[i].gpuId == s.gpuId {
        ApplySampleAt(ms, s, now, i);
        if Moves(ms[i].utilization, rounded, s.edge) {
          ms', changed := ms[i := GpuMetric(s.gpuId, rounded, now)], true;
        }
        return;
      }
      i := i + 1;
    }
    ApplySampleAt(ms, s, now, i);
    ms', changed := ms + [GpuMetric(s.gpuId, rounded, now)], true;
  }

  method FindStarved(pods: seq<Pod>) returns (starved: bool)
    ensures starved == GpuStarved(pods)
  {
    for i := 0 to |pods|
      invariant forall j :: 0 <= j < i ==> !(pods[j].phase == PodPending && pods[j].waitsForGpu)
    {
      if pods[i].phase == PodPending && pods[i].waitsForGpu {
        assert pods[i] in pods;
        return true;
      }
    }
    return false;
  }

  method FindRunning(pods: seq<Pod>) returns (running: bool)
    ensures running == AnyRunning(pods)
  {
    for i := 0 to |pods|
      invariant forall j :: 0 <= j < i ==> pods[j].phase != PodRunning
    {
      if pods[i].phase == PodRunning {
        assert pods[i] in pods;
        return true;
      }
    }
    return false;
  }

  /** What a reconcile asks of the store. */
  datatype Effect = WriteStatus(cause: Cause) | RemoveRecord | NoEffect

  function Effected(w: World, snap: Snapshot, effect: Effect, st: Status): World {
    match effect
    case WriteStatus(cause) => PutStatus(w, snap, st, cause)
    case RemoveRecord => Remove(w, snap.name)
    case NoEffect => w
  }

  class GpuWorkload {
    var phase: Phase
    var tracked: seq<TrackedPod>
    var utilization: Option<int>
    var lastMetrics: Option<int>
    var idleSince: Option<int>
    var finishedAt: Option<int>
    var preemptedAt: Option<int>
    var preemptedFor: string
    var reason: string

    ghost function Value(): Status
      reads this
    {
      Status(phase, tracked, utilization, lastMetrics, idleSince, finishedAt, preemptedAt, preemptedFor, reason)
    }

    constructor (st: Status)
      ensures Value() == st
    {
      phase, tracked, utilization, lastMetrics := st.phase, st.tracked, st.utilization, st.lastMetrics;
      idleSince, finishedAt, preemptedAt := st.idleSince, st.finishedAt, st.preemptedAt;
      preemptedFor, reason := st.preemptedFor, st.reason;
    }

    /** Rebuilds the tracked pods, carrying the samples of pods seen before. */
    method TrackPods(pods: seq<Pod>)
      modifies this`tracked
      ensures tracked == Retrack(pods, old(tracked))
    {
      var existing: map<string, seq<GpuMetric>> := map[];
      for i := 0 to |tracked|
        invariant tracked == old(tracked)
        invariant forall p :: MetricsOf(tracked[..i], p) == if p in existing then existing[p] else []
      {
        assert tracked[..i + 1][..i] == tracked[..i];
        if tracked[i].metrics != [] {
          existing := existing[tracked[i].podName := tracked[i].metrics];
        }
      }
      assert tracked[..|tracked|] == tracked;
      var rebuilt: seq<TrackedPod> := [];
      for i := 0 to |pods|
        invariant tracked == old(tracked) && |rebuilt| == i
        invariant forall j :: 0 <= j < i ==> rebuilt[j] == TrackedPod(pods[j].name, MetricsOf(tracked, pods[j].name))
      {
        var name := pods[i].name;
        rebuilt := rebuilt + [TrackedPod(name, if name in existing then existing[name] else [])];
      }
      tracked := rebuilt;
    }

    /** The phase of a live workload; also leaves the aggregated utilization behind. */
    method DecidePhase(v: View) returns (p: Phase)
      modifies this`utilization
      ensures (p, utilization) == ComputePhase(old(Value()), v)
    {
      if v.pods == [] {
        if phase == New {
          return PendingOther;
        }
        if v.quotaPending {
          return PendingGpu;
        }
        return phase;
      }
      var starved := FindStarved(v.pods);
      if starved {
        return PendingGpu;
      }
      var running := FindRunning(v.pods);
      if !running {
        return PendingOther;
      }
      utilization := AggregatedUtilization(tracked, v.aggregation);
      var effective := if utilization.Some? then utilization.value else 0;
      p := if effective >= v.threshold then Active else Idle;
    }

    /** The live branch of a reconcile; also run, without another look at the phase, after a spec re-read. */
    method SyncStatus(v: View)
      modifies this
      ensures Value() == Observed(old(Value()), v)
      ensures StatusOK(old(Value())) && DistinctPods(v.pods) && v.pods != [] ==>
        (LegalChange(old(Value()), Value(), ByObserve) <==> Live(old(phase)))
      ensures StatusOK(old(Value())) && DistinctPods(v.pods) && Live(old(phase)) ==>
        LegalChange(old(Value()), Value(), ByObserve)
    {
      TrackPods(v.pods);
      ghost var st1 := Value();
      var p := DecidePhase(v);
      assert st1 == old(Value()).(tracked := Retrack(v.pods, old(tracked)));
      phase := p;
      if p == Idle {
        if idleSince.None? {
          idleSince := Some(v.now);
        }
      } else {
        idleSince := None;
      }
      if StatusOK(old(Value())) && DistinctPods(v.pods) {
        if v.pods != [] {
          WriteAfterReread(old(Value()), v);
        }
        if Live(old(phase)) {
          ObservedLegal(old(Value()), v);
        }
      }
    }

    /** The owner of a live workload is gone: a legal end, with the finish time and without samples. */
    method OwnerDeleted(now: int)
      requires StatusOK(Value()) && Live(phase)
      modifies this
      ensures LegalChange(old(Value()), Value(), ByOwnerGone) && phase == Deleted && finishedAt == Some(now)
      ensures Value() == OwnerGone(old(Value()), now)
    {
      phase := Deleted;
      finishedAt := Some(now);
      idleSince := None;
      utilization := None;
      tracked := [];
    }

    /** A Preempting workload after the attempt to delete its owner; false when there is nothing to write. */
    method FinishPreemption(outcome: DeleteOutcome, now: int) returns (write: bool)
      requires StatusOK(Value()) && phase == Preempting
      modifies this
      ensures write <==> outcome != Failed
      ensures write ==> LegalChange(old(Value()), Value(), if outcome == Forbidden then ByForbidden else ByEviction)
      ensures phase == (match outcome case Forbidden => Idle case Failed => Preempting case Removed => Preempted)
      ensures outcome == Removed ==> preemptedAt == Some(now) && finishedAt == Some(now)
      ensures outcome == Forbidden ==> preemptedFor == "" && reason == "" && idleSince.None?
      ensures Value() == match outcome
                         case Forbidden => Reverted(old(Value()))
                         case Failed => old(Value())
                         case Removed => Evicted(old(Value()), now)
    {
      if outcome == Forbidden {
        phase, preemptedFor, reason := Idle, "", "";
        return true;
      }
      if outcome == Failed {
        return false;
      }
      phase, preemptedAt, finishedAt := Preempted, Some(now), Some(now);
      idleSince, utilization, tracked := None, None, [];
      return true;
    }

    /** The evaluator's claim on a freshly read record; nothing is written unless it is Idle. */
    method Claim(pending: string, why: string) returns (write: bool)
      requires StatusOK(Value())
      modifies this
      ensures write <==> old(phase) == Idle
      ensures write ==> LegalChange(old(Value()), Value(), ByMark) && phase == Preempting && reason == why
      ensures write ==> preemptedFor == if pending == "" then old(preemptedFor) else pending
      ensures Value() == if write then Marked(old(Value()), pending, why) else old(Value())
    {
      if phase != Idle {
        return false;
      }
      ghost var before := Value();
      phase, idleSince, reason := Preempting, None, why;
      if pending != "" {
        preemptedFor := pending;
      }
      MarkedLegal(before, pending, why);
      assert Value() == Marked(before, pending, why);
      return true;
    }

    /** Applies the samples of one pod in place. */
    method ApplyUtilization(pod: string, samples: seq<Sample>, now: int) returns (changed: bool)
      requires StatusOK(Value())
      modifies this
      ensures changed ==> LegalChange(old(Value()), Value(), ByScrape) && !Terminal(phase) && lastMetrics == Some(now)
      ensures !changed ==> Value() == old(Value())
      ensures (Value(), changed) == Scraped(old(Value()), pod, samples, now)
    {
      var i := FindPod(tracked, pod);
      if i == |tracked| {
        return false;
      }
      var ms := tracked[i].metrics;
      changed := false;
      for k := 0 to |samples|
        invariant Value() == old(Value())
        invariant var (rest, c) := ApplySamples(ms, samples[k..], now);
          ApplySamples(tracked[i].metrics, samples, now) == (rest, changed || c)
        invariant !changed ==> ms == tracked[i].metrics
      {
        assert samples[k..][1..] == samples[k + 1..];
        var ms', c := ApplyOne(ms, samples[k], now);
        ms, changed := ms', changed || c;
      }
      if changed {
        tracked := tracked[i := TrackedPod(pod, ms)];
        lastMetrics := Some(now);
        ScrapedLegal(old(Value()), pod, samples, now);
      }
    }

    /**
      A reconcile of the copy it has read: what it leaves in the object and asks of the store is the
      protocol's step, and every write it asks for is legal.
     */
    method Dispatch(v: View) returns (effect: Effect)
      requires StatusOK(Value()) && DistinctPods(v.pods)
      modifies this
      ensures effect.WriteStatus? ==> LegalChange(old(Value()), Value(), effect.cause)
      ensures forall w: World, snap: Snapshot, t: int :: snap.rec.status == old(Value()) ==>
        Reconciled(w, Busy(Held(snap, t), Reconciling), v) == Effected(w, snap, effect, Value())
    {
      if phase == Preempting {
        var write := FinishPreemption(v.deletion, v.now);
        return
          if !write then NoEffect
          else if v.deletion == Forbidden then WriteStatus(ByForbidden)
          else WriteStatus(ByEviction);
      }
      if phase == Preempted || phase == Deleted {
        return if v.ttl != 0 && finishedAt.Some? && v.now - finishedAt.value >= v.ttl then RemoveRecord else NoEffect;
      }
      if !v.ownerExists {
        OwnerDeleted(v.now);
        return WriteStatus(ByOwnerGone);
      }
      SyncStatus(v);
      return WriteStatus(ByObserve);
    }
  }
}
