/**
  Safety of the preemption protocol over every run and every interleaving: copies and the versions they
  carry, idle times and their history, the samples of the scraper and the evaluation lease.
 */
module PreemptionSafety {
  import opened Common
  import opened GpuRecords
  import opened Victims
  import opened VictimsOrder
  import opened Preemption

  // ----- What every record and every write keeps -----

  ghost predicate DistinctTracked(tracked: seq<TrackedPod>) {
    forall i, j :: 0 <= i < j < |tracked| ==> tracked[i].podName != tracked[j].podName
  }

  /** What every status keeps, in every run. */
  ghost predicate StatusSafe(st: Status) {
    && (st.idleSince.Some? ==> st.phase == Idle)
    && (Terminal(st.phase) ==> st.tracked == [])
    && DistinctTracked(st.tracked)
  }

  ghost predicate HasSample(st: Status, pod: string, gpu: string) {
    exists m :: m in MetricsOf(st.tracked, pod) && m.gpuId == gpu
  }

  predicate Tracks(st: Status, pod: string) {
    exists t :: t in st.tracked && t.podName == pod
  }

  /** The samples of a pod that stays tracked: only a scrape touches them, and it drops none. */
  ghost predicate KeepsSamples(b: Status, a: Status, cause: Cause) {
    forall pod :: !Terminal(a.phase) && (cause == ByObserve ==> Tracks(a, pod)) ==>
      && (cause != ByScrape ==> MetricsOf(a.tracked, pod) == MetricsOf(b.tracked, pod))
      && (forall gpu :: HasSample(b, pod, gpu) ==> HasSample(a, pod, gpu))
  }

  /** What every write keeps, in every run. */
  ghost predicate SafeChange(b: Status, a: Status, cause: Cause) {
    && StatusSafe(a)
    && (cause == ByForbidden ==> a.phase == Idle && a.idleSince.None?)
    && (Terminal(b.phase) ==> cause != ByScrape && (a == b <==> cause != ByObserve))
    && KeepsSamples(b, a, cause)
  }

  ghost predicate SafeEvent(e: Event) {
    match (e.before, e.after)
    case (None, Some(a)) => a.status == EMPTY_STATUS
    case (Some(b), Some(a)) => SafeChange(b.status, a.status, e.cause)
    case (_, None) => true
  }

  // ----- The invariant -----

  /** Since time `t`, every write to `name` left it Idle with idle time `t`. */
  ghost predicate IdleThroughout(log: seq<Event>, name: string, t: int) {
    forall e :: e in log && e.name == name && e.time > t ==>
      e.after.Some? && e.after.value.status.phase == Idle && e.after.value.status.idleSince == Some(t)
  }

  ghost predicate StoredOK(w: World, name: string)
    requires name in w.store
  {
    var st := w.store[name].rec.status;
    && w.store[name].version < w.next
    && StatusSafe(st)
    && (st.idleSince.Some? ==> IdleThroughout(w.log, name, st.idleSince.value))
  }

  ghost predicate WorldOK(w: World) {
    && (forall name :: name in w.store ==> StoredOK(w, name))
    && (forall e :: e in w.log ==> e.time <= w.clock && SafeEvent(e))
  }

  /** A copy read at `readAt` is accurate, and nothing was written since, while its version is current. */
  ghost predicate SnapOK(w: World, s: Snapshot, readAt: int) {
    && readAt <= w.clock
    && s.version < w.next
    && StatusSafe(s.rec.status)
    && (Current(w, s) ==>
          && w.store[s.name].rec == s.rec
          && forall e :: e in w.log && e.name == s.name ==> e.time <= readAt)
  }

  ghost predicate WorkerOK(w: World, k: Worker) {
    k.Busy? ==>
    && SnapOK(w, k.held.snap, k.held.readAt)
    && (k.role == Creating ==> k.held.snap.rec.status == EMPTY_STATUS)
  }

  /** A victim candidate: listed Idle, with an idle time that had outlasted the grace period. */
  ghost predicate EntryOK(w: World, e: Entry, listedAt: int) {
    && SnapOK(w, e.gw, listedAt)
    && e.gw.rec.status.phase == Idle
    && e.gw.rec.status.idleSince == Some(e.idleSince)
    && e.grace <= e.seenAt - e.idleSince
    && e.seenAt <= w.clock
  }

  ghost predicate CopyOK(w: World, copy: Option<Held>, mark: Option<Mark>) {
    copy.Some? ==>
      && SnapOK(w, copy.value.snap, copy.value.readAt)
      && mark.Some? && copy.value.snap.name == mark.value.victim.gw.name
  }

  ghost predicate EvalOK(w: World, e: Eval) {
    CopyOK(w, if e.Classifying? || e.Marking? then e.copy else None, CurrentMark(e)) &&
    match e
    case Classifying(_, listing, listedAt, at, acc, mark, _) =>
      && at <= |listing|
      && listedAt <= w.clock
      && (forall s :: s in listing ==> SnapOK(w, s, listedAt))
      && (forall x :: x in acc.idle ==> EntryOK(w, x, listedAt))
      && (mark.Some? ==> EntryOK(w, mark.value.victim, listedAt))
    case Marking(_, listing, listedAt, plan, done, _) =>
      && done <= |plan|
      && (forall m :: m in plan ==> EntryOK(w, m.victim, listedAt))
    case _ => true
  }

  /** A lease copy agrees with the lease while its version is the stored one. */
  ghost predicate SeenOK(s: System, seen: Option<Lease>) {
    seen.Some? ==>
      && seen.value.version < s.world.next
      && seen.value.duration == LEASE_DURATION
      && s.lease.Some?
      && (s.lease.value.version == seen.value.version ==> s.lease == seen)
  }

  ghost predicate Holds(s: System, r: string, renew: int) {
    s.lease.Some? && s.lease.value.holder == r && s.lease.value.renew == renew
  }

  /** An evaluating replica still holds the lease it acquired, or that lease has run out. */
  ghost predicate EvalLeaseOK(s: System, r: string)
    requires r in s.evals
  {
    match s.evals[r]
    case Acquiring(seen, readAt) => SeenOK(s, seen) && r != "" && (seen.Some? ==> seen.value.renew <= readAt)
    case Releasing(seen) => SeenOK(s, seen)
    case Off => true
    case e => r != "" && (Holds(s, r, e.renew) || s.world.clock >= e.renew + LEASE_DURATION)
  }

  ghost predicate LeaseOK(s: System) {
    && (s.lease.Some? ==>
          && s.lease.value.version < s.world.next && s.lease.value.duration == LEASE_DURATION
          && s.lease.value.renew <= s.world.clock)
    && (forall r :: r in s.evals ==> EvalLeaseOK(s, r))
  }

  ghost predicate Inv(s: System) {
    && WorldOK(s.world)
    && (forall k :: k in s.workers ==> WorkerOK(s.world, s.workers[k]))
    && (forall r :: r in s.evals ==> EvalOK(s.world, s.evals[r]))
    && LeaseOK(s)
  }

  // ----- What the writers compute -----

  lemma {:induction false} MetricsOfDistinct(tracked: seq<TrackedPod>, i: nat)
    requires DistinctTracked(tracked) && i < |tracked|
    ensures MetricsOf(tracked, tracked[i].podName) == tracked[i].metrics
  {
    var last := |tracked| - 1;
    if i < last {
      MetricsOfDistinct(tracked[..last], i);
    } else if tracked[i].metrics == [] {
      MetricsOfAbsent(tracked[..last], tracked[i].podName);
    }
  }

  lemma {:induction false} MetricsOfAbsent(tracked: seq<TrackedPod>, pod: string)
    requires forall t :: t in tracked ==> t.podName != pod
    ensures MetricsOf(tracked, pod) == []
  {
    if tracked != [] {
      MetricsOfAbsent(tracked[..|tracked| - 1], pod);
    }
  }

  lemma ObservedSafe(st: Status, v: View)
    requires StatusSafe(st) && DistinctPods(v.pods) && (Live(st.phase) || v.pods != [])
    ensures SafeChange(st, Observed(st, v), ByObserve)
  {
    var a := Observed(st, v);
    assert a.tracked == Retrack(v.pods, st.tracked);
    assert DistinctTracked(a.tracked);
    forall pod | Tracks(a, pod)
      ensures MetricsOf(a.tracked, pod) == MetricsOf(st.tracked, pod)
    {
      var i :| 0 <= i < |a.tracked| && a.tracked[i].podName == pod;
      MetricsOfDistinct(a.tracked, i);
    }
  }

  lemma {:induction false} ApplySampleKeeps(ms: seq<GpuMetric>, s: Sample, now: int, m: GpuMetric)
    requires m in ms
    ensures exists m' :: m' in ApplySample(ms, s, now).0 && m'.gpuId == m.gpuId
  {
    if m == ms[0] {
      assert ApplySample(ms, s, now).0[0].gpuId == m.gpuId;
    } else {
      assert m in ms[1..];
      if ms[0].gpuId == s.gpuId {
        assert m in ApplySample(ms, s, now).0;
      } else {
        ApplySampleKeeps(ms[1..], s, now, m);
        var m' :| m' in ApplySample(ms[1..], s, now).0 && m'.gpuId == m.gpuId;
        assert m' in ApplySample(ms, s, now).0;
      }
    }
  }

  lemma {:induction false} ApplySamplesKeeps(ms: seq<GpuMetric>, samples: seq<Sample>, now: int, m: GpuMetric)
    requires m in ms
    ensures exists m' :: m' in ApplySamples(ms, samples, now).0 && m'.gpuId == m.gpuId
    decreases |samples|
  {
    if samples != [] {
      ApplySampleKeeps(ms, samples[0], now, m);
      var ms1 := ApplySample(ms, samples[0], now).0;
      var m1 :| m1 in ms1 && m1.gpuId == m.gpuId;
      ApplySamplesKeeps(ms1, samples[1..], now, m1);
    }
  }

  lemma ScrapedSafe(st: Status, pod: string, samples: seq<Sample>, now: int)
    requires StatusSafe(st) && Scraped(st, pod, samples, now).1
    ensures SafeChange(st, Scraped(st, pod, samples, now).0, ByScrape)
    ensures !Terminal(st.phase)
  {
    var a := Scraped(st, pod, samples, now).0;
    var i := FindPod(st.tracked, pod);
    assert st.tracked != [];
    forall p, gpu | HasSample(st, p, gpu)
      ensures HasSample(a, p, gpu)
    {
      var m :| m in MetricsOf(st.tracked, p) && m.gpuId == gpu;
      var j := FindPod(st.tracked, p);
      if j == |st.tracked| {
        forall t | t in st.tracked
          ensures t.podName != p
        {
        }
        MetricsOfAbsent(st.tracked, p);
      } else {
        MetricsOfDistinct(st.tracked, j);
        MetricsOfDistinct(a.tracked, j);
        if p == pod {
          assert i == j;
          ApplySamplesKeeps(st.tracked[i].metrics, samples, now, m);
        } else {
          assert a.tracked[j] == st.tracked[j];
        }
      }
    }
  }

  lemma MarkedSafe(st: Status, pending: string, reason: string)
    requires StatusSafe(st) && st.phase == Idle
    ensures SafeChange(st, Marked(st, pending, reason), ByMark)
  {
  }

  // ----- The store under writes -----

  /** Copies that were sound stay sound. */
  ghost predicate Evolves(w: World, w': World) {
    && w.clock <= w'.clock
    && forall s, t :: SnapOK(w, s, t) ==> SnapOK(w', s, t)
  }

  lemma PutEvolves(w: World, name: string, rec: Record, cause: Cause)
    requires WorldOK(w)
    ensures Evolves(w, Put(w, name, rec, cause))
  {
  }

  lemma RemoveEvolves(w: World, name: string)
    requires WorldOK(w)
    ensures Evolves(w, Remove(w, name))
  {
  }

  /** A status write through a sound copy keeps the store sound. */
  lemma PutStatusOK(w: World, s: Snapshot, readAt: int, st: Status, cause: Cause)
    requires WorldOK(w) && SnapOK(w, s, readAt)
    requires SafeChange(s.rec.status, st, cause)
    requires st.idleSince.Some? ==> st.idleSince == s.rec.status.idleSince || readAt <= st.idleSince.value
    ensures WorldOK(PutStatus(w, s, st, cause))
    ensures Evolves(w, PutStatus(w, s, st, cause))
  {
    if Current(w, s) {
      var w' := PutStatus(w, s, st, cause);
      PutEvolves(w, s.name, w.store[s.name].rec.(status := st), cause);
      forall name | name in w'.store
        ensures StoredOK(w', name)
      {
        if name != s.name {
          assert StoredOK(w, name);
        } else {
          assert StoredOK(w, s.name);
        }
      }
    }
  }

  lemma PutSpecOK(w: World, s: Snapshot, readAt: int, gpu: map<string, nat>)
    requires WorldOK(w) && SnapOK(w, s, readAt)
    ensures WorldOK(PutSpec(w, s, gpu))
    ensures Evolves(w, PutSpec(w, s, gpu))
  {
    if Current(w, s) {
      var w' := PutSpec(w, s, gpu);
      var rec := w.store[s.name].rec;
      PutEvolves(w, s.name, rec.(spec := rec.spec.(gpu := gpu)), BySpec);
      assert StoredOK(w, s.name);
      assert SafeChange(rec.status, rec.status, BySpec);
      forall name | name in w'.store
        ensures StoredOK(w', name)
      {
        assert StoredOK(w, name);
      }
    }
  }

  lemma CreateOK(w: World, name: string, spec: Spec)
    requires WorldOK(w) && name !in w.store
    ensures var w' := Put(w, name, Record(w.clock, spec, EMPTY_STATUS), ByCreate); WorldOK(w') && Evolves(w, w')
  {
    var w' := Put(w, name, Record(w.clock, spec, EMPTY_STATUS), ByCreate);
    PutEvolves(w, name, Record(w.clock, spec, EMPTY_STATUS), ByCreate);
    forall n | n in w'.store
      ensures StoredOK(w', n)
    {
      if n != name {
        assert StoredOK(w, n);
      }
    }
  }

  lemma RemoveOK(w: World, name: string)
    requires WorldOK(w)
    ensures WorldOK(Remove(w, name)) && Evolves(w, Remove(w, name))
  {
    RemoveEvolves(w, name);
    var w' := Remove(w, name);
    forall n | n in w'.store
      ensures StoredOK(w', n)
    {
      assert StoredOK(w, n);
    }
  }

  lemma TickOK(w: World, dt: nat)
    requires WorldOK(w)
    ensures var w' := w.(clock := w.clock + dt); WorldOK(w') && Evolves(w, w')
  {
    var w' := w.(clock := w.clock + dt);
    forall n | n in w'.store
      ensures StoredOK(w', n)
    {
      assert StoredOK(w, n);
    }
  }

  /** A copy of a stored record taken now is sound. */
  lemma SnapshotOfOK(w: World, name: string)
    requires WorldOK(w) && name in w.store
    ensures SnapOK(w, SnapshotOf(w, name), w.clock)
  {
    assert StoredOK(w, name);
  }

  // ----- One action -----

  lemma ReconcileOK(w: World, k: Worker, v: View)
    requires WorldOK(w) && WorkerOK(w, k) && k.Busy?
    requires k.role == Reconciling || (k.role == Synced && v.pods != [])
    requires k.held.readAt <= v.now <= w.clock && DistinctPods(v.pods)
    ensures WorldOK(Reconciled(w, k, v)) && Evolves(w, Reconciled(w, k, v))
  {
    var snap, readAt := k.held.snap, k.held.readAt;
    var st := snap.rec.status;
    if k.role == Reconciling && st.phase == Preempting {
      match v.deletion
      case Forbidden => PutStatusOK(w, snap, readAt, Reverted(st), ByForbidden);
      case Failed =>
      case Removed => PutStatusOK(w, snap, readAt, Evicted(st, v.now), ByEviction);
    } else if k.role == Reconciling && Terminal(st.phase) {
      RemoveOK(w, snap.name);
    } else if k.role == Reconciling && !v.ownerExists {
      PutStatusOK(w, snap, readAt, OwnerGone(st, v.now), ByOwnerGone);
    } else {
      ObservedSafe(st, v);
      PutStatusOK(w, snap, readAt, Observed(st, v), ByObserve);
    }
  }

  lemma WorkOK(w: World, k: Worker, a: WorkAction)
    requires WorldOK(w) && WorkerOK(w, k) && WorkEnabled(w, k, a)
    ensures var (w', k') := Work(w, k, a);
      WorldOK(w') && Evolves(w, w') && w.next <= w'.next && WorkerOK(w', k')
  {
    var (w', k') := Work(w, k, a);
    match a
    case Create(name, spec) =>
      CreateOK(w, name, spec);
      SnapshotOfOK(w', name);
    case InitStatus =>
      PutStatusOK(w, k.held.snap, k.held.readAt, k.held.snap.rec.status.(phase := PendingOther), ByInit);
    case Discover(gpu) => PutSpecOK(w, k.held.snap, k.held.readAt, gpu);
    case Read(name, _) => SnapshotOfOK(w, name);
    case SyncSpec(gpu) =>
      PutSpecOK(w, k.held.snap, k.held.readAt, gpu);
      if Current(w, k.held.snap) {
        SnapshotOfOK(w', k.held.snap.name);
      }
    case SyncSpecOnly(gpu) =>
      PutSpecOK(w, k.held.snap, k.held.readAt, gpu);
      if Current(w, k.held.snap) {
        SnapshotOfOK(w', k.held.snap.name);
      }
    case Reread =>
      if k.held.snap.name in w.store {
        SnapshotOfOK(w, k.held.snap.name);
      }
    case Reconcile(v) => ReconcileOK(w, k, v);
    case Scrape(pod, samples, now) =>
      var (st, changed) := Scraped(k.held.snap.rec.status, pod, samples, now);
      if changed {
        ScrapedSafe(k.held.snap.rec.status, pod, samples, now);
        PutStatusOK(w, k.held.snap, k.held.readAt, st, ByScrape);
      }
  }

  lemma EvolveEval(w: World, w': World, e: Eval)
    requires EvalOK(w, e) && Evolves(w, w')
    ensures EvalOK(w', e)
  {
  }

  lemma PlanMembers(gs: seq<Group>, m: Mark)
    requires m in Plan(gs)
    ensures exists g, v :: g in gs && v in g.victims && m == Mark(v, g.pending.gw.name)
  {
    if gs != [] {
      if m in GroupMarks(gs[0]) {
        var i :| 0 <= i < |gs[0].victims| && m == GroupMarks(gs[0])[i];
        assert gs[0] in gs && gs[0].victims[i] in gs[0].victims;
      } else {
        PlanMembers(gs[1..], m);
      }
    }
  }

  /** Every planned victim is one of the classified idle candidates. */
  lemma PlanVictims(order: seq<string>, pending: map<string, seq<Entry>>, idle: map<string, seq<Entry>>,
                    acc: Classified, m: Mark)
    requires SortsOf(idle, acc.idle, order, true)
    requires m in Plan(Match(order, pending, idle, acc.inFlight, {}).0)
    ensures m.victim in acc.idle
  {
    var gs := Match(order, pending, idle, acc.inFlight, {}).0;
    PlanMembers(gs, m);
    var g, v :| g in gs && v in g.victims && m == Mark(v, g.pending.gw.name);
    VictimInPool(order, pending, idle, acc.inFlight, g, v);
    assert SortOf(Lookup(idle, g.resource), acc.idle, g.resource, true);
    PermutationMember(Lookup(idle, g.resource), OfResource(acc.idle, g.resource), v);
  }

  lemma ListOK(w: World, e: Eval, names: seq<string>)
    requires WorldOK(w) && EvalEnabled(w, e, List(names))
    ensures EvalOK(w, Evaluate(w, e, List(names)).1)
  {
    var e' := Evaluate(w, e, List(names)).1;
    forall x | x in e'.listing
      ensures SnapOK(w, x, w.clock)
    {
      var i :| 0 <= i < |e'.listing| && e'.listing[i] == x;
      SnapshotOfOK(w, names[i]);
    }
  }

  lemma ClassifyOK(w: World, e: Eval, grace: int, always: bool)
    requires EvalOK(w, e) && EvalEnabled(w, e, ClassifyNext(grace, always))
    ensures EvalOK(w, Evaluate(w, e, ClassifyNext(grace, always)).1)
  {
    var l := Listed(e.listing[e.at], grace, always);
    assert SnapOK(w, l.w, e.listedAt);
    if Judge(l, w.clock) == Candidate || Judge(l, w.clock) == Evict {
      assert EntryOK(w, IdleEntry(l, w.clock), e.listedAt);
    }
  }

  lemma MatchOK(w: World, e: Eval, order: seq<string>, pending: map<string, seq<Entry>>, idle: map<string, seq<Entry>>)
    requires EvalOK(w, e) && EvalEnabled(w, e, MatchVictims(order, pending, idle))
    ensures EvalOK(w, Evaluate(w, e, MatchVictims(order, pending, idle)).1)
  {
    forall m | m in Evaluate(w, e, MatchVictims(order, pending, idle)).1.plan
      ensures EntryOK(w, m.victim, e.listedAt)
    {
      PlanVictims(order, pending, idle, e.acc, m);
    }
  }

  lemma AdvanceOK(w: World, e: Eval)
    requires EvalOK(w, e) && CurrentMark(e).Some?
    ensures EvalOK(w, Advance(e)) && EvalOK(w, e.(copy := None))
  {
  }

  lemma MarkWriteOK(w: World, e: Eval, reason: string)
    requires WorldOK(w) && EvalOK(w, e) && EvalEnabled(w, e, MarkWrite(reason))
    ensures var (w', e') := Evaluate(w, e, MarkWrite(reason));
      WorldOK(w') && Evolves(w, w') && EvalOK(w', e')
  {
    var snap := e.copy.value.snap;
    AdvanceOK(w, e);
    if snap.rec.status.phase == Idle && Current(w, snap) {
      var st' := Marked(snap.rec.status, CurrentMark(e).value.pending, reason);
      MarkedSafe(snap.rec.status, CurrentMark(e).value.pending, reason);
      PutStatusOK(w, snap, e.copy.value.readAt, st', ByMark);
      EvolveEval(w, PutStatus(w, snap, st', ByMark), Advance(e));
    }
  }

  lemma EvaluateOK(w: World, e: Eval, a: EvalAction)
    requires WorldOK(w) && EvalOK(w, e) && EvalEnabled(w, e, a)
    ensures var (w', e') := Evaluate(w, e, a);
      && WorldOK(w') && Evolves(w, w') && w.next <= w'.next && w'.clock == w.clock
      && EvalOK(w', e') && Evaluating(e) && Evaluating(e') && e'.renew == e.renew
  {
    match a
    case List(names) => ListOK(w, e, names);
    case ClassifyNext(grace, always) => ClassifyOK(w, e, grace, always);
    case MatchVictims(order, pending, idle) => MatchOK(w, e, order, pending, idle);
    case MarkRead => SnapshotOfOK(w, CurrentMark(e).value.victim.gw.name);
    case MarkWrite(reason) => MarkWriteOK(w, e, reason);
  }

  // ----- Keeping the invariant -----

  lemma EvolveParts(s: System, w': World)
    requires Inv(s) && Evolves(s.world, w')
    ensures forall k :: k in s.workers ==> WorkerOK(w', s.workers[k])
    ensures forall r :: r in s.evals ==> EvalOK(w', s.evals[r])
  {
    forall r | r in s.evals
      ensures EvalOK(w', s.evals[r])
    {
      EvolveEval(s.world, w', s.evals[r]);
    }
  }

  lemma KeepsWork(s: System, k: string, a: WorkAction)
    requires Inv(s) && Enabled(s, ByWorker(k, a))
    ensures Inv(Apply(s, ByWorker(k, a)))
  {
    var s' := Apply(s, ByWorker(k, a));
    WorkOK(s.world, WorkerOf(s, k), a);
    WorkKeepsClock(s.world, WorkerOf(s, k), a);
    EvolveParts(s, s'.world);
    forall r | r in s'.evals
      ensures EvalLeaseOK(s', r)
    {
      assert EvalLeaseOK(s, r);
    }
  }

  lemma WorkKeepsClock(w: World, k: Worker, a: WorkAction)
    requires WorkEnabled(w, k, a)
    ensures Work(w, k, a).0.clock == w.clock
  {
  }

  lemma KeepsEvaluation(s: System, r: string, a: EvalAction)
    requires Inv(s) && Enabled(s, ByEvaluator(r, a))
    ensures Inv(Apply(s, ByEvaluator(r, a)))
  {
    var s' := Apply(s, ByEvaluator(r, a));
    EvaluateOK(s.world, EvalOf(s, r), a);
    EvolveParts(s, s'.world);
    forall q | q in s'.evals
      ensures EvalLeaseOK(s', q)
    {
      if q in s.evals {
        assert EvalLeaseOK(s, q);
      }
    }
  }

  /** A lease action leaves every other replica holding what it held, or with a lease that ran out. */
  lemma GuardOK(s: System, r: string, a: LeaseAction)
    requires Inv(s) && Enabled(s, ByReplica(r, a))
    ensures LeaseOK(Apply(s, ByReplica(r, a)))
  {
    var s' := Apply(s, ByReplica(r, a));
    if r in s.evals {
      assert EvalLeaseOK(s, r);
    }
    forall q | q in s'.evals
      ensures EvalLeaseOK(s', q)
    {
      if q in s.evals {
        assert EvalLeaseOK(s, q);
      }
    }
  }

  lemma KeepsLease(s: System, r: string, a: LeaseAction)
    requires Inv(s) && Enabled(s, ByReplica(r, a))
    ensures Inv(Apply(s, ByReplica(r, a)))
  {
    var s' := Apply(s, ByReplica(r, a));
    assert s.world.next <= s'.world.next;
    forall n | n in s'.world.store
      ensures StoredOK(s'.world, n)
    {
      assert StoredOK(s.world, n);
    }
    assert Evolves(s.world, s'.world);
    EvolveParts(s, s'.world);
    GuardOK(s, r, a);
  }

  lemma KeepsTick(s: System, dt: nat)
    requires Inv(s)
    ensures Inv(Apply(s, Tick(dt)))
  {
    var s' := Apply(s, Tick(dt));
    TickOK(s.world, dt);
    EvolveParts(s, s'.world);
    forall q | q in s'.evals
      ensures EvalLeaseOK(s', q)
    {
      assert EvalLeaseOK(s, q);
    }
  }

  lemma KeepsInv(s: System, step: Step)
    requires Inv(s) && Enabled(s, step)
    ensures Inv(Apply(s, step))
  {
    match step
    case Tick(dt) => KeepsTick(s, dt);
    case ByWorker(k, a) => KeepsWork(s, k, a);
    case ByEvaluator(r, a) => KeepsEvaluation(s, r, a);
    case ByReplica(r, a) => KeepsLease(s, r, a);
  }

  lemma {:induction false} InvAlong(s: System, steps: seq<Step>, s': System)
    requires Inv(s) && Runs(s, steps, s')
    ensures Inv(s')
    decreases |steps|
  {
    if steps != [] {
      KeepsInv(s, steps[0]);
      InvAlong(Apply(s, steps[0]), steps[1..], s');
    }
  }
}
