/** The results about the history, the phases, the samples and the lease, for every run from an empty cluster. */
module PreemptionTheorems {
  import opened Common
  import opened GpuRecords
  import opened Preemption
  import opened PreemptionSafety
  import opened PreemptionLegality

  lemma RunInv(s0: System, steps: seq<Step>, s: System)
    requires Init(s0) && Runs(s0, steps, s)
    ensures Inv(s)
  {
    InvAlong(s0, steps, s);
  }

  // ----- The log is the history -----

  /** `e` is the one write that turned `w` into `w'`. */
  ghost predicate OneWrite(w: World, w': World, e: Event) {
    && w'.log == w.log + [e]
    && e.time == w.clock
    && e.before == (if e.name in w.store then Some(w.store[e.name].rec) else None)
    && w'.store == match e.after
                   case Some(a) => w.store[e.name := Stored(w.next, a)]
                   case None => w.store - {e.name}
  }

  ghost predicate SameRecords(w: World, w': World) {
    w'.store == w.store && w'.log == w.log
  }

  lemma ClockGrows(s: System, step: Step)
    requires Enabled(s, step)
    ensures s.world.clock <= Apply(s, step).world.clock
  {
  }

  /** No step changes a record without logging it. */
  lemma EveryChangeLogged(s: System, step: Step)
    requires Enabled(s, step)
    ensures var w, w' := s.world, Apply(s, step).world;
      SameRecords(w, w') || exists e :: OneWrite(w, w', e)
  {
    match step
    case ByWorker(k, a) => WorkLogged(s.world, WorkerOf(s, k), a);
    case ByEvaluator(r, a) => EvaluateLogged(s.world, EvalOf(s, r), a);
    case _ =>
  }

  lemma WorkLogged(w: World, k: Worker, a: WorkAction)
    requires WorkEnabled(w, k, a)
    ensures var w' := Work(w, k, a).0;
      SameRecords(w, w') || exists e :: OneWrite(w, w', e) && e.cause != ByMark
  {
    match a
    case Create(name, spec) => PutLogged(w, name, Record(w.clock, spec, EMPTY_STATUS), ByCreate);
    case InitStatus => StatusLogged(w, k.held.snap, k.held.snap.rec.status.(phase := PendingOther), ByInit);
    case Discover(gpu) => SpecLogged(w, k.held.snap, gpu);
    case SyncSpec(gpu) => SpecLogged(w, k.held.snap, gpu);
    case SyncSpecOnly(gpu) => SpecLogged(w, k.held.snap, gpu);
    case Reconcile(v) => ReconcileLogged(w, k, v);
    case Scrape(pod, samples, now) =>
      StatusLogged(w, k.held.snap, Scraped(k.held.snap.rec.status, pod, samples, now).0, ByScrape);
    case _ =>
  }

  lemma PutLogged(w: World, name: string, rec: Record, cause: Cause)
    ensures exists e :: OneWrite(w, Put(w, name, rec, cause), e) && e.cause == cause
  {
    var w' := Put(w, name, rec, cause);
    assert OneWrite(w, w', w'.log[|w.log|]);
  }

  lemma StatusLogged(w: World, s: Snapshot, st: Status, cause: Cause)
    ensures var w' := PutStatus(w, s, st, cause);
      SameRecords(w, w') || exists e :: OneWrite(w, w', e) && e.cause == cause
  {
    if Current(w, s) {
      PutLogged(w, s.name, w.store[s.name].rec.(status := st), cause);
    }
  }

  lemma SpecLogged(w: World, s: Snapshot, gpu: map<string, nat>)
    ensures var w' := PutSpec(w, s, gpu);
      SameRecords(w, w') || exists e :: OneWrite(w, w', e) && e.cause == BySpec
  {
    if Current(w, s) {
      var rec := w.store[s.name].rec;
      PutLogged(w, s.name, rec.(spec := rec.spec.(gpu := gpu)), BySpec);
    }
  }

  lemma ReconcileLogged(w: World, k: Worker, v: View)
    requires k.Busy?
    ensures var w' := Reconciled(w, k, v);
      SameRecords(w, w') || exists e :: OneWrite(w, w', e) && e.cause != ByMark
  {
    var snap := k.held.snap;
    var st := snap.rec.status;
    if k.role == Reconciling && st.phase == Preempting {
      match v.deletion
      case Forbidden => StatusLogged(w, snap, Reverted(st), ByForbidden);
      case Failed =>
      case Removed => StatusLogged(w, snap, Evicted(st, v.now), ByEviction);
    } else if k.role == Reconciling && Terminal(st.phase) {
      RemoveLogged(w, snap.name);
    } else if k.role == Reconciling && !v.ownerExists {
      StatusLogged(w, snap, OwnerGone(st, v.now), ByOwnerGone);
    } else {
      StatusLogged(w, snap, Observed(st, v), ByObserve);
    }
  }

  lemma RemoveLogged(w: World, name: string)
    ensures var w' := Remove(w, name);
      SameRecords(w, w') || exists e :: OneWrite(w, w', e) && e.cause == ByExpiry
  {
    var w' := Remove(w, name);
    if name in w.store {
      assert OneWrite(w, w', w'.log[|w.log|]);
    }
  }

  lemma EvaluateLogged(w: World, e: Eval, a: EvalAction)
    requires EvalEnabled(w, e, a)
    ensures var w' := Evaluate(w, e, a).0;
      SameRecords(w, w') || (a.MarkWrite? && exists v :: OneWrite(w, w', v))
  {
    var w' := Evaluate(w, e, a).0;
    if |w'.log| > |w.log| {
      assert OneWrite(w, w', w'.log[|w'.log| - 1]);
    }
  }

  lemma {:induction false} CarefulRunRuns(s: System, steps: seq<Step>, s': System)
    requires CarefulRun(s, steps, s')
    ensures Runs(s, steps, s')
    decreases |steps|
  {
    if steps != [] {
      CarefulRunRuns(Apply(s, steps[0]), steps[1..], s');
    }
  }

  /**
    The phase machine, for every run and every interleaving: all writes in the history are legal if and
    only if no status write committed from a copy that was read again in a finished or Preempting phase.
    Then every stored status is well-formed too (terminal phases exactly when a finish time is set, idle
    time only in Idle, an attributed victim only in Preempting or Preempted).
   */
  lemma PhaseMachine(s0: System, steps: seq<Step>, s: System)
    requires Init(s0) && Runs(s0, steps, s)
    ensures (forall e :: e in s.world.log ==> LegalEvent(e)) <==> Reachable(s0, steps, s)
    ensures Reachable(s0, steps, s) ==> forall n :: n in s.world.store ==> StatusOK(s.world.store[n].rec.status)
  {
    if Reachable(s0, steps, s) {
      LegalAlong(s0, steps, s);
    } else {
      CarelessAlong(s0, steps, s);
    }
  }

  /** The first careless step of a run leaves an illegal write in the log for good. */
  lemma {:induction false} CarelessAlong(s: System, steps: seq<Step>, s': System)
    requires Inv(s) && Legal(s) && Runs(s, steps, s') && !CarefulRun(s, steps, s')
    ensures exists e :: e in s'.world.log && !LegalEvent(e)
    decreases |steps|
  {
    var s1 := Apply(s, steps[0]);
    if Careful(s, steps[0]) {
      KeepsInv(s, steps[0]);
      KeepsLegal(s, steps[0]);
      CarelessAlong(s1, steps[1..], s');
    } else {
      LogGrows(s1, steps[1..], s');
      var e := CarelessWrite(s.world, WorkerOf(s, steps[0].k), steps[0].work);
      assert s1.world.log <= s'.world.log && e in s'.world.log;
    }
  }

  lemma CarelessWrite(w: World, k: Worker, a: WorkAction) returns (e: Event)
    requires WorkerOK(w, k) && WorkerLegal(k) && WorkEnabled(w, k, a) && !CarefulWork(w, k, a)
    ensures e in Work(w, k, a).0.log && !LegalEvent(e)
  {
    var w' := Work(w, k, a).0;
    var st := k.held.snap.rec.status;
    assert w' == PutStatus(w, k.held.snap, Observed(st, a.view), ByObserve);
    WriteAfterReread(st, a.view);
    e := w'.log[|w.log|];
  }

  /** In a run that does every spec update and the read after it as one step, all steps are careful. */
  lemma AtomicIsCareful(s0: System, steps: seq<Step>, s: System)
    requires Init(s0) && Runs(s0, steps, s) && (forall i :: 0 <= i < |steps| ==> AtomicReread(steps[i]))
    ensures Reachable(s0, steps, s)
  {
    AtomicAlong(s0, steps, s);
  }

  ghost predicate SyncedIsLive(k: Worker) {
    k.Busy? ==> k.role != Rereading && (k.role == Synced ==> Live(k.held.snap.rec.status.phase))
  }

  lemma {:induction false} AtomicAlong(s: System, steps: seq<Step>, s': System)
    requires Inv(s) && Runs(s, steps, s') && (forall i :: 0 <= i < |steps| ==> AtomicReread(steps[i]))
    requires forall k :: k in s.workers ==> SyncedIsLive(s.workers[k])
    ensures CarefulRun(s, steps, s')
    decreases |steps|
  {
    if steps != [] {
      AtomicStep(s, steps[0]);
      KeepsInv(s, steps[0]);
      AtomicAlong(Apply(s, steps[0]), steps[1..], s');
    }
  }

  lemma AtomicStep(s: System, step: Step)
    requires Inv(s) && Enabled(s, step) && AtomicReread(step)
    requires forall k :: k in s.workers ==> SyncedIsLive(s.workers[k])
    ensures Careful(s, step) && forall k :: k in Apply(s, step).workers ==> SyncedIsLive(Apply(s, step).workers[k])
  {
  }

  /** The writes between two states of a run. */
  ghost function Since(s: System, s': System): seq<Event> {
    if |s.world.log| <= |s'.world.log| then s'.world.log[|s.world.log|..] else []
  }

  lemma SinceSplit(s: System, step: Step, s': System)
    requires Enabled(s, step) && Apply(s, step).world.log <= s'.world.log
    ensures Since(s, s') == Since(s, Apply(s, step)) + Since(Apply(s, step), s')
  {
    EveryChangeLogged(s, step);
  }

  /** What one step does to one record: nothing, or one write. */
  lemma StepOn(s: System, step: Step, name: string) returns (e: Option<Event>)
    requires Inv(s) && Enabled(s, step) && name in s.world.store
    ensures var s1 := Apply(s, step);
      match e
      case None =>
        && name in s1.world.store && s1.world.store[name].rec == s.world.store[name].rec
        && (forall v :: v in Since(s, s1) ==> v.name != name)
      case Some(v) =>
        && Since(s, s1) == [v] && v.name == name && SafeEvent(v) && v.before == Some(s.world.store[name].rec)
        && (v.after.Some? ==> name in s1.world.store && s1.world.store[name].rec == v.after.value)
  {
    var s1 := Apply(s, step);
    KeepsInv(s, step);
    EveryChangeLogged(s, step);
    e := None;
    if !SameRecords(s.world, s1.world) {
      var v :| OneWrite(s.world, s1.world, v);
      assert Since(s, s1) == [v] && v in s1.world.log;
      if v.name == name {
        e := Some(v);
      }
    }
  }

  // ----- Finished records -----

  /** The record is written, but not removed. */
  ghost predicate NotRemoved(es: seq<Event>, name: string) {
    forall e :: e in es && e.name == name ==> e.after.Some?
  }

  /** Every write in between leaves the record with this status. */
  ghost predicate StatusKept(es: seq<Event>, name: string, st: Status) {
    forall e :: e in es && e.name == name && e.after.Some? ==> e.after.value.status == st
  }

  /** No reconcile writes a status it has observed. */
  ghost predicate NotObserved(es: seq<Event>, name: string) {
    forall e :: e in es && e.name == name ==> e.cause != ByObserve
  }

  lemma FinishedSplit(a: seq<Event>, b: seq<Event>, name: string, st: Status)
    ensures NotRemoved(a + b, name) <==> NotRemoved(a, name) && NotRemoved(b, name)
    ensures StatusKept(a + b, name, st) <==> StatusKept(a, name, st) && StatusKept(b, name, st)
    ensures NotObserved(a + b, name) <==> NotObserved(a, name) && NotObserved(b, name)
  {
    assert forall e :: e in a + b <==> e in a || e in b;
  }

  /**
    Preempted and Deleted are final, in every run: until the record is removed, its status stays the same if
    and only if no observed status is written to it, which only a reconcile past its spec re-read does.
   */
  lemma FinishedIsFinal(s0: System, before: seq<Step>, s: System, steps: seq<Step>, s': System, name: string)
    requires Init(s0) && Runs(s0, before, s) && Runs(s, steps, s')
    requires name in s.world.store && Terminal(s.world.store[name].rec.status.phase) && NotRemoved(Since(s, s'), name)
    ensures StatusKept(Since(s, s'), name, s.world.store[name].rec.status) <==> NotObserved(Since(s, s'), name)
    ensures NotObserved(Since(s, s'), name) ==>
      name in s'.world.store && s'.world.store[name].rec.status == s.world.store[name].rec.status
  {
    RunInv(s0, before, s);
    FinishedAlong(s, steps, s', name);
  }

  lemma {:induction false} FinishedAlong(s: System, steps: seq<Step>, s': System, name: string)
    requires Inv(s) && Runs(s, steps, s')
    requires name in s.world.store && Terminal(s.world.store[name].rec.status.phase) && NotRemoved(Since(s, s'), name)
    ensures StatusKept(Since(s, s'), name, s.world.store[name].rec.status) <==> NotObserved(Since(s, s'), name)
    ensures NotObserved(Since(s, s'), name) ==>
      name in s'.world.store && s'.world.store[name].rec.status == s.world.store[name].rec.status
    decreases |steps|
  {
    if steps != [] {
      var s1 := Apply(s, steps[0]);
      KeepsInv(s, steps[0]);
      LogGrows(s1, steps[1..], s');
      SinceSplit(s, steps[0], s');
      FinishedSplit(Since(s, s1), Since(s1, s'), name, s.world.store[name].rec.status);
      var kept := FinishedStep(s, steps[0], name);
      if kept {
        FinishedAlong(s1, steps[1..], s', name);
      }
    }
  }

  /** One step leaves the status of a finished record alone, or writes an observed one. */
  lemma FinishedStep(s: System, step: Step, name: string) returns (kept: bool)
    requires Inv(s) && Enabled(s, step) && name in s.world.store
    requires Terminal(s.world.store[name].rec.status.phase) && NotRemoved(Since(s, Apply(s, step)), name)
    ensures var s1 := Apply(s, step); var st := s.world.store[name].rec.status;
      && (kept <==> StatusKept(Since(s, s1), name, st)) && (kept <==> NotObserved(Since(s, s1), name))
      && (kept ==> name in s1.world.store && s1.world.store[name].rec.status == st)
  {
    var e := StepOn(s, step, name);
    if e.Some? {
      assert e.value in Since(s, Apply(s, step));
      FinishedWrite(e.value);
    }
    kept := e.None? || e.value.cause != ByObserve;
  }

  lemma FinishedWrite(e: Event)
    requires SafeEvent(e) && e.before.Some? && e.after.Some? && Terminal(e.before.value.status.phase)
    ensures e.after.value.status == e.before.value.status <==> e.cause != ByObserve
  {
  }

  lemma {:induction false} LogGrows(s: System, steps: seq<Step>, s': System)
    requires Runs(s, steps, s')
    ensures s.world.log <= s'.world.log
    decreases |steps|
  {
    if steps != [] {
      EveryChangeLogged(s, steps[0]);
      LogGrows(Apply(s, steps[0]), steps[1..], s');
    }
  }

  // ----- The scraper -----

  /** A scrape never changes a finished record, whether or not the phase is looked at again. */
  lemma ScrapeLeavesFinished(s0: System, steps: seq<Step>, s: System, k: string, pod: string, samples: seq<Sample>,
                             now: int, name: string)
    requires Init(s0) && Runs(s0, steps, s) && Enabled(s, ByWorker(k, Scrape(pod, samples, now)))
    requires name in s.world.store && Terminal(s.world.store[name].rec.status.phase)
    ensures var w' := Apply(s, ByWorker(k, Scrape(pod, samples, now))).world;
      name in w'.store && w'.store[name] == s.world.store[name]
  {
    RunInv(s0, steps, s);
    ScrapeAt(s.world, WorkerOf(s, k), pod, samples, now, name);
  }

  lemma ScrapeAt(w: World, k: Worker, pod: string, samples: seq<Sample>, now: int, name: string)
    requires WorldOK(w) && WorkerOK(w, k) && WorkEnabled(w, k, Scrape(pod, samples, now))
    requires name in w.store && Terminal(w.store[name].rec.status.phase)
    ensures var w' := Work(w, k, Scrape(pod, samples, now)).0; name in w'.store && w'.store[name] == w.store[name]
  {
    if Scraped(k.held.snap.rec.status, pod, samples, now).1 {
      ScrapedSafe(k.held.snap.rec.status, pod, samples, now);
    }
  }

  /** Every write leaves the record in place, unfinished and tracking the pod. */
  ghost predicate StaysTracked(es: seq<Event>, name: string, pod: string) {
    forall e :: e in es && e.name == name ==>
      e.after.Some? && !Terminal(e.after.value.status.phase) && Tracks(e.after.value.status, pod)
  }

  ghost predicate NotScraped(es: seq<Event>, name: string) {
    forall e :: e in es && e.name == name ==> e.cause != ByScrape
  }

  lemma TrackedSplit(a: seq<Event>, b: seq<Event>, name: string, pod: string)
    ensures StaysTracked(a + b, name, pod) <==> StaysTracked(a, name, pod) && StaysTracked(b, name, pod)
    ensures NotScraped(a + b, name) <==> NotScraped(a, name) && NotScraped(b, name)
  {
    assert forall e :: e in a + b <==> e in a || e in b;
  }

  /** What happens to the samples of a pod between two statuses. */
  ghost predicate SamplesKept(b: Status, a: Status, pod: string, gpu: string, scraped: bool) {
    && (HasSample(b, pod, gpu) ==> HasSample(a, pod, gpu))
    && (!scraped ==> MetricsOf(a.tracked, pod) == MetricsOf(b.tracked, pod))
  }

  /**
    A committed sample survives every later write, as long as its pod stays tracked; without a
    further scrape the samples of the pod stay exactly as they are.
   */
  lemma SamplesSurvive(s0: System, before: seq<Step>, s: System, steps: seq<Step>, s': System,
                       name: string, pod: string, gpu: string)
    requires Init(s0) && Runs(s0, before, s) && Runs(s, steps, s')
    requires name in s.world.store && HasSample(s.world.store[name].rec.status, pod, gpu)
    requires StaysTracked(Since(s, s'), name, pod)
    ensures name in s'.world.store && HasSample(s'.world.store[name].rec.status, pod, gpu)
    ensures NotScraped(Since(s, s'), name) ==>
      MetricsOf(s'.world.store[name].rec.status.tracked, pod) == MetricsOf(s.world.store[name].rec.status.tracked, pod)
  {
    RunInv(s0, before, s);
    SamplesAlong(s, steps, s', name, pod, gpu);
  }

  lemma {:induction false} SamplesAlong(s: System, steps: seq<Step>, s': System, name: string, pod: string, gpu: string)
    requires Inv(s) && Runs(s, steps, s') && name in s.world.store && StaysTracked(Since(s, s'), name, pod)
    ensures name in s'.world.store
    ensures SamplesKept(s.world.store[name].rec.status, s'.world.store[name].rec.status, pod, gpu,
                        !NotScraped(Since(s, s'), name))
    decreases |steps|
  {
    if steps != [] {
      var s1 := Apply(s, steps[0]);
      KeepsInv(s, steps[0]);
      LogGrows(s1, steps[1..], s');
      SinceSplit(s, steps[0], s');
      TrackedSplit(Since(s, s1), Since(s1, s'), name, pod);
      var e := StepOn(s, steps[0], name);
      if e.Some? {
        assert e.value in Since(s, s1);
        SampleWrite(e.value, pod, gpu);
      }
      SamplesAlong(s1, steps[1..], s', name, pod, gpu);
    }
  }

  lemma SampleWrite(e: Event, pod: string, gpu: string)
    requires SafeEvent(e) && e.before.Some? && e.after.Some?
    requires !Terminal(e.after.value.status.phase) && Tracks(e.after.value.status, pod)
    ensures SamplesKept(e.before.value.status, e.after.value.status, pod, gpu, e.cause == ByScrape)
  {
  }

  // ----- The lease -----

  /**
    A replica becomes the evaluator only if it held the lease itself or the lease, released or not,
    is a full lease duration old. A released lease is held by nobody, so this is also how long every
    replica waits after a release.
   */
  lemma TakeoverIsAged(s0: System, steps: seq<Step>, s: System, r: string, now: int, checkAt: int)
    requires Init(s0) && Runs(s0, steps, s) && Enabled(s, ByReplica(r, LeaseWrite(now, checkAt)))
    requires EvalOf(Apply(s, ByReplica(r, LeaseWrite(now, checkAt))), r).Listing?
    ensures s.lease.Some? && s.lease.value.holder != r ==> s.world.clock - s.lease.value.renew >= LEASE_DURATION
    ensures Holds(Apply(s, ByReplica(r, LeaseWrite(now, checkAt))), r, now)
  {
    RunInv(s0, steps, s);
    assert EvalLeaseOK(s, r);
  }

  /** Two replicas evaluate at the same time only once one of their leases has run out. */
  lemma EvaluatorsExclude(s0: System, steps: seq<Step>, s: System, q: string, r: string)
    requires Init(s0) && Runs(s0, steps, s) && q != r
    requires Evaluating(EvalOf(s, q)) && Evaluating(EvalOf(s, r))
    ensures s.world.clock >= EvalOf(s, q).renew + LEASE_DURATION || s.world.clock >= EvalOf(s, r).renew + LEASE_DURATION
  {
    RunInv(s0, steps, s);
    assert EvalLeaseOK(s, q) && EvalLeaseOK(s, r);
  }

  /** A late release never clears a successor's lease. */
  lemma LateReleaseIsHarmless(s0: System, steps: seq<Step>, s: System, r: string)
    requires Init(s0) && Runs(s0, steps, s) && Enabled(s, ByReplica(r, ReleaseWrite))
    requires s.lease.Some? && s.lease.value.holder != r
    ensures Apply(s, ByReplica(r, ReleaseWrite)).lease == s.lease
  {
    RunInv(s0, steps, s);
    assert EvalLeaseOK(s, r);
  }

  /**
    A replica that writes the lease becomes the evaluator if and only if there was and is no lease, or the
    stored lease is the one it has read, and that was its own or at least its duration old at the reading.
   */
  lemma LeaseGranted(s: System, r: string, now: int, checkAt: int)
    requires Enabled(s, ByReplica(r, LeaseWrite(now, checkAt)))
    ensures var s' := Apply(s, ByReplica(r, LeaseWrite(now, checkAt))); var seen := EvalOf(s, r).seen;
      && (EvalOf(s', r).Listing? <==>
            match seen
            case None => s.lease.None?
            case Some(l) =>
              && s.lease.Some? && s.lease.value.version == l.version
              && (l.holder == r || checkAt - l.renew >= l.duration))
      && (EvalOf(s', r).Listing? ==>
            && s'.lease.Some? && s'.lease.value.holder == r && s'.lease.value.renew == now
            && s'.lease.value.duration == 30 && EvalOf(s', r).renew == now)
      && (!EvalOf(s', r).Listing? ==> s'.lease == s.lease && EvalOf(s', r).Off?)
  {
  }

  /** The step is a release that takes effect. */
  ghost predicate Releases(s: System, step: Step, r: string) {
    step == ByReplica(r, ReleaseWrite) && Enabled(s, step) && Apply(s, step).lease != s.lease
  }

  /** A release that takes effect is the holder's own, and blanks the holder: the renew time stays. */
  lemma ReleaseChanges(s0: System, steps: seq<Step>, s: System, r: string)
    requires Init(s0) && Runs(s0, steps, s) && Enabled(s, ByReplica(r, ReleaseWrite))
    ensures var l, l' := s.lease, Apply(s, ByReplica(r, ReleaseWrite)).lease;
      && (l' == l <==> !(EvalOf(s, r).seen.Some? && EvalOf(s, r).seen == l && l.value.holder == r))
      && (l' != l ==>
            && l.Some? && l'.Some? && l.value.holder == r && l'.value.holder == ""
            && l'.value.renew == l.value.renew && l'.value.duration == l.value.duration)
  {
    RunInv(s0, steps, s);
    assert EvalLeaseOK(s, r);
  }

  /** The lease was taken or renewed at `t` or later, by `r`, or has been released since; or it has run out. */
  ghost predicate HeldSince(s: System, r: string, t: int, released: bool) {
    s.world.clock >= t + LEASE_DURATION ||
      (s.lease.Some? && s.lease.value.renew >= t &&
        (s.lease.value.holder == "" || (!released && s.lease.value.holder == r)))
  }

  lemma HeldStep(s: System, step: Step, r: string, t: int, released: bool)
    requires Inv(s) && Enabled(s, step) && HeldSince(s, r, t, released)
    ensures HeldSince(Apply(s, step), r, t, released || Releases(s, step, r))
  {
    ClockGrows(s, step);
    if step.ByReplica? && step.r in s.evals {
      assert EvalLeaseOK(s, step.r);
    }
  }

  /** Within the lease nobody else, and after a release nobody at all, becomes the evaluator. */
  lemma HeldRefuses(s: System, r: string, t: int, released: bool, q: string, now: int, checkAt: int)
    requires Inv(s) && HeldSince(s, r, t, released) && Enabled(s, ByReplica(q, LeaseWrite(now, checkAt)))
    requires EvalOf(Apply(s, ByReplica(q, LeaseWrite(now, checkAt))), q).Listing? && (q != r || released)
    ensures s.world.clock >= t + LEASE_DURATION
  {
    assert EvalLeaseOK(s, q);
  }

  lemma {:induction false} HeldAlong(s: System, steps: seq<Step>, s': System, r: string, t: int, released: bool)
    requires Inv(s) && Runs(s, steps, s') && HeldSince(s, r, t, released)
    ensures Inv(s') && HeldSince(s', r, t, released)
    decreases |steps|
  {
    if steps != [] {
      KeepsInv(s, steps[0]);
      HeldStep(s, steps[0], r, t, released);
      HeldAlong(Apply(s, steps[0]), steps[1..], s', r, t, released);
    }
  }

  /** In the state `s`, replica `q` becomes the evaluator with this renew time. */
  ghost predicate BecomesEvaluator(s: System, q: string, now: int, checkAt: int) {
    && Enabled(s, ByReplica(q, LeaseWrite(now, checkAt)))
    && EvalOf(Apply(s, ByReplica(q, LeaseWrite(now, checkAt))), q).Listing?
  }

  /**
    The lease, from the moment it is taken: if `r` became the evaluator with renew time `t`, no other replica
    does before the lease duration has passed since `t`.
   */
  lemma NobodyTakesOver(s0: System, before: seq<Step>, s: System, r: string, t: int, c: int,
                        steps: seq<Step>, s': System, q: string, now: int, checkAt: int)
    requires Init(s0) && Runs(s0, before, s) && BecomesEvaluator(s, r, t, c)
    requires Runs(Apply(s, ByReplica(r, LeaseWrite(t, c))), steps, s')
    requires BecomesEvaluator(s', q, now, checkAt) && q != r
    ensures s'.world.clock >= t + 30
  {
    RunInv(s0, before, s);
    var s1 := Apply(s, ByReplica(r, LeaseWrite(t, c)));
    KeepsInv(s, ByReplica(r, LeaseWrite(t, c)));
    HeldAlong(s1, steps, s', r, t, false);
    HeldRefuses(s', r, t, false, q, now, checkAt);
  }

  /**
    A release does not shorten that: once `r` has released the lease it took with renew time `t`, nobody, not
    even `r`, becomes the evaluator before the lease duration has passed since `t`.
   */
  lemma ReleasedIsRefused(s0: System, before: seq<Step>, s: System, r: string, t: int, c: int,
                          held: seq<Step>, s1: System, steps: seq<Step>, s': System, q: string, now: int, checkAt: int)
    requires Init(s0) && Runs(s0, before, s) && BecomesEvaluator(s, r, t, c)
    requires Runs(Apply(s, ByReplica(r, LeaseWrite(t, c))), held, s1) && Releases(s1, ByReplica(r, ReleaseWrite), r)
    requires Runs(Apply(s1, ByReplica(r, ReleaseWrite)), steps, s') && BecomesEvaluator(s', q, now, checkAt)
    ensures s'.world.clock >= t + 30
  {
    RunInv(s0, before, s);
    KeepsInv(s, ByReplica(r, LeaseWrite(t, c)));
    HeldAlong(Apply(s, ByReplica(r, LeaseWrite(t, c))), held, s1, r, t, false);
    HeldStep(s1, ByReplica(r, ReleaseWrite), r, t, false);
    KeepsInv(s1, ByReplica(r, ReleaseWrite));
    HeldAlong(Apply(s1, ByReplica(r, ReleaseWrite)), steps, s', r, t, true);
    HeldRefuses(s', r, t, true, q, now, checkAt);
  }

  // ----- What single steps do -----

  /** Stored now: the record `rec` under the name, everything else as before. */
  ghost predicate Stores(w: World, w': World, name: string, rec: Record) {
    && name in w'.store && w'.store[name].rec == rec && w'.store.Keys == w.store.Keys + {name}
    && forall n :: n in w.store && n != name ==> w'.store[n] == w.store[n]
  }

  /** A discovered workload starts without a phase, samples or times, and then waits for something other than GPUs. */
  lemma DiscoveryIs(w: World, k: Worker, name: string, spec: Spec)
    requires WorkEnabled(w, k, Create(name, spec))
    ensures var (w1, k1) := Work(w, k, Create(name, spec)); var w2 := Work(w1, k1, InitStatus).0;
      && Stores(w, w1, name, Record(w.clock, spec, Status(New, [], None, None, None, None, None, "", "")))
      && WorkEnabled(w1, k1, InitStatus)
      && Stores(w, w2, name, Record(w.clock, spec, Status(PendingOther, [], None, None, None, None, None, "", "")))
  {
  }

  /** A worker that reads holds the record as it is stored; a record that is gone ends the reconcile. */
  lemma ReadIs(w: World, k: Worker, a: WorkAction, name: string)
    requires WorkEnabled(w, k, a)
    requires (a.Read? && a.source == name) || (a.Reread? && k.held.snap.name == name)
    ensures var (w', k') := Work(w, k, a);
      && w' == w
      && (name !in w.store ==> k'.Free?)
      && (name in w.store ==>
            && k' == Busy(Held(Snapshot(name, w.store[name].version, w.store[name].rec), w.clock), k'.role)
            && k'.role == if a.Reread? then Synced else if a.scrape then Scraping else Reconciling)
  {
  }

  /** A spec update commits exactly on the current copy and replaces the counts; a reconcile holds on to the result. */
  lemma SpecUpdateIs(w: World, k: Worker, a: WorkAction, gpu: map<string, nat>)
    requires WorkEnabled(w, k, a) && (a == Discover(gpu) || a == SyncSpec(gpu) || a == SyncSpecOnly(gpu))
    ensures var name := k.held.snap.name; var (w', k') := Work(w, k, a);
      if Current(w, k.held.snap) then
        && Stores(w, w', name, w.store[name].rec.(spec := w.store[name].rec.spec.(gpu := gpu)))
        && (a.Discover? ==> k'.Free?)
        && (!a.Discover? ==> k'.Busy? && Current(w', k'.held.snap) && k'.held.snap.name == name
                             && k'.held.snap.rec == w'.store[name].rec
                             && k'.role == if a.SyncSpec? then Synced else Rereading)
      else w' == w && k'.Free?
  {
  }

  /** A mark commits exactly on the current copy of an Idle record; on a conflict the same victim is tried again. */
  lemma MarkOutcome(w: World, e: Eval, reason: string)
    requires EvalEnabled(w, e, MarkWrite(reason))
    ensures var m := CurrentMark(e).value; var snap := e.copy.value.snap;
      var (w', e') := Evaluate(w, e, MarkWrite(reason));
      && (snap.rec.status.phase == Idle && Current(w, snap) ==>
            && e'.copy.None? && (e'.Marking? ==> e'.done == e.done + 1) && (e'.Classifying? ==> e'.mark.None?)
            && var st := w.store[snap.name].rec.status;
               Stores(w, w', snap.name, w.store[snap.name].rec.(status := snap.rec.status.(phase := Preempting,
                 idleSince := None, reason := reason,
                 preemptedFor := if m.pending == "" then snap.rec.status.preemptedFor else m.pending))))
      && (snap.rec.status.phase == Idle && !Current(w, snap) ==>
            w' == w && e'.copy.None? && CurrentMark(e') == CurrentMark(e))
      && (snap.rec.status.phase != Idle ==>
            w' == w && e'.copy.None? && (e'.Marking? ==> e'.done == e.done + 1) && (e'.Classifying? ==> e'.mark.None?))
  {
  }

  /** A scrape commits exactly on the current copy, if a sample changed anything. */
  lemma ScrapeIs(w: World, k: Worker, pod: string, samples: seq<Sample>, now: int)
    requires WorkEnabled(w, k, Scrape(pod, samples, now))
    ensures var snap := k.held.snap; var (st, changed) := Scraped(snap.rec.status, pod, samples, now);
      var (w', k') := Work(w, k, Scrape(pod, samples, now));
      && k'.Free?
      && (changed && Current(w, snap) ==> Stores(w, w', snap.name, w.store[snap.name].rec.(status := st)))
      && (!changed || !Current(w, snap) ==> w' == w)
  {
  }

  /** An outdated copy writes nothing; removing a finished record is the only thing it can still do. */
  lemma OutdatedWritesNothing(w: World, k: Worker, v: View)
    requires WorkEnabled(w, k, Reconcile(v)) && !Current(w, k.held.snap)
    ensures var w' := Work(w, k, Reconcile(v)).0;
      w' == w || (k.role == Reconciling && Terminal(k.held.snap.rec.status.phase)
                  && w'.store == w.store - {k.held.snap.name})
  {
  }

  /** What a reconcile with a current copy stores, by the phase of its copy and what it finds. */
  lemma ReconcileIs(w: World, k: Worker, v: View)
    requires WorkEnabled(w, k, Reconcile(v)) && Current(w, k.held.snap)
    ensures var name, st := k.held.snap.name, k.held.snap.rec.status; var rec := w.store[name].rec;
      var (w', k') := Work(w, k, Reconcile(v)); var first := k.role == Reconciling;
      && k'.Free?
      && (first && st.phase == Preempting && v.deletion.Removed? ==>
            Stores(w, w', name, rec.(status := st.(phase := Preempted, preemptedAt := Some(v.now),
              finishedAt := Some(v.now), idleSince := None, utilization := None, tracked := []))))
      && (first && st.phase == Preempting && v.deletion.Forbidden? ==>
            Stores(w, w', name, rec.(status := st.(phase := Idle, preemptedFor := "", reason := ""))))
      && (first && st.phase == Preempting && v.deletion.Failed? ==> w' == w)
      && (first && Live(st.phase) && !v.ownerExists ==>
            Stores(w, w', name, rec.(status := st.(phase := Deleted, finishedAt := Some(v.now),
              idleSince := None, utilization := None, tracked := []))))
      && (!first || (Live(st.phase) && v.ownerExists) ==> Stores(w, w', name, rec.(status := Observed(st, v))))
  {
  }

  /** A reconcile removes a record exactly when its copy is finished and its time to live, if set, is over. */
  lemma ExpiryIs(w: World, k: Worker, v: View)
    requires WorkEnabled(w, k, Reconcile(v)) && k.role == Reconciling && k.held.snap.name in w.store
    ensures var st := k.held.snap.rec.status; var w' := Work(w, k, Reconcile(v)).0;
      k.held.snap.name !in w'.store <==>
        && (st.phase == Preempted || st.phase == Deleted)
        && v.ttl != 0 && st.finishedAt.Some? && v.now - st.finishedAt.value >= v.ttl
  {
  }
}
