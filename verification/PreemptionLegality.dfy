/**
  The phase machine of the preemption protocol: which status may follow which, and for what reason. It is
  kept by every run in which no status write commits from a copy read again in a finished or Preempting phase.
 */
module PreemptionLegality {
  import opened GpuRecords
  import opened Preemption
  import opened PreemptionSafety

  // ----- Well-formed statuses and legal changes -----

  ghost predicate StatusOK(st: Status) {
    && StatusSafe(st)
    && (st.finishedAt.Some? <==> Terminal(st.phase))
    && (st.preemptedFor != "" ==> st.phase == Preempting || st.phase == Preempted)
  }

  /** The phase machine: which status may follow which, and for what reason. */
  ghost predicate LegalChange(b: Status, a: Status, cause: Cause) {
    && StatusOK(a)
    && SafeChange(b, a, cause)
    && (Terminal(b.phase) ==> a == b)
    && (b.phase == Preempting ==>
          || (a.phase == Preempting && a.preemptedFor == b.preemptedFor)
          || (a.phase == Preempted && cause == ByEviction)
          || (a.phase == Idle && cause == ByForbidden && a.idleSince.None? && a.preemptedFor == ""))
    && (cause == ByForbidden ==> b.phase == Preempting && a.phase == Idle)
    && (a.phase == Preempting && b.phase != Preempting ==> b.phase == Idle && cause == ByMark)
    && (a.phase == Preempted && b.phase != Preempted ==> b.phase == Preempting)
    && (a.phase == Deleted && b.phase != Deleted ==> Live(b.phase) && cause == ByOwnerGone)
  }

  ghost predicate LegalEvent(e: Event) {
    match (e.before, e.after)
    case (None, Some(a)) => a.status == EMPTY_STATUS
    case (Some(b), Some(a)) => LegalChange(b.status, a.status, e.cause)
    case (_, None) => true
  }

  lemma ObservedLegal(st: Status, v: View)
    requires StatusOK(st) && Live(st.phase) && DistinctPods(v.pods)
    ensures LegalChange(st, Observed(st, v), ByObserve)
  {
    ObservedSafe(st, v);
  }

  lemma ScrapedLegal(st: Status, pod: string, samples: seq<Sample>, now: int)
    requires StatusOK(st) && Scraped(st, pod, samples, now).1
    ensures var a := Scraped(st, pod, samples, now).0;
      LegalChange(st, a, ByScrape) && a.phase == st.phase && a.idleSince == st.idleSince
    ensures !Terminal(st.phase)
  {
    ScrapedSafe(st, pod, samples, now);
  }

  lemma MarkedLegal(st: Status, pending: string, reason: string)
    requires StatusOK(st) && st.phase == Idle
    ensures LegalChange(st, Marked(st, pending, reason), ByMark)
  {
    MarkedSafe(st, pending, reason);
  }

  /**
    Past the spec re-read the phase is not dispatched again, so the status write that follows is
    legal exactly when the re-read copy is still live.
   */
  lemma WriteAfterReread(st: Status, v: View)
    requires StatusOK(st) && v.pods != [] && DistinctPods(v.pods)
    ensures LegalChange(st, Observed(st, v), ByObserve) <==> Live(st.phase)
  {
    if Live(st.phase) {
      ObservedLegal(st, v);
    }
  }

  // ----- The invariant -----

  ghost predicate WorldLegal(w: World) {
    && (forall name :: name in w.store ==> StatusOK(w.store[name].rec.status))
    && (forall e :: e in w.log ==> LegalEvent(e))
  }

  ghost predicate WorkerLegal(k: Worker) {
    k.Busy? ==> StatusOK(k.held.snap.rec.status)
  }

  ghost predicate EvalLegal(e: Eval) {
    (e.Classifying? || e.Marking?) && e.copy.Some? ==> StatusOK(e.copy.value.snap.rec.status)
  }

  ghost predicate Legal(s: System) {
    && WorldLegal(s.world)
    && (forall k :: k in s.workers ==> WorkerLegal(s.workers[k]))
    && (forall r :: r in s.evals ==> EvalLegal(s.evals[r]))
  }

  // ----- Every careful step keeps it -----

  lemma PutStatusLegal(w: World, s: Snapshot, readAt: int, st: Status, cause: Cause)
    requires WorldLegal(w) && SnapOK(w, s, readAt) && LegalChange(s.rec.status, st, cause)
    ensures WorldLegal(PutStatus(w, s, st, cause))
  {
  }

  lemma PutSpecLegal(w: World, s: Snapshot, gpu: map<string, nat>)
    requires WorldLegal(w)
    ensures WorldLegal(PutSpec(w, s, gpu))
  {
    if Current(w, s) {
      var st := w.store[s.name].rec.status;
      assert LegalChange(st, st, BySpec);
    }
  }

  lemma ReconcileLegal(w: World, k: Worker, v: View)
    requires WorldLegal(w) && WorkerOK(w, k) && WorkerLegal(k) && k.Busy?
    requires k.role == Reconciling || k.role == Synced
    requires DistinctPods(v.pods) && CarefulWork(w, k, Reconcile(v))
    ensures WorldLegal(Reconciled(w, k, v))
  {
    var snap, readAt := k.held.snap, k.held.readAt;
    var st := snap.rec.status;
    if k.role == Reconciling && st.phase == Preempting {
      match v.deletion
      case Forbidden => PutStatusLegal(w, snap, readAt, Reverted(st), ByForbidden);
      case Failed =>
      case Removed => PutStatusLegal(w, snap, readAt, Evicted(st, v.now), ByEviction);
    } else if k.role == Reconciling && Terminal(st.phase) {
      assert WorldLegal(Remove(w, snap.name));
    } else if k.role == Reconciling && !v.ownerExists {
      PutStatusLegal(w, snap, readAt, OwnerGone(st, v.now), ByOwnerGone);
    } else if Live(st.phase) {
      ObservedLegal(st, v);
      PutStatusLegal(w, snap, readAt, Observed(st, v), ByObserve);
    } else {
      assert Reconciled(w, k, v) == w;
    }
  }

  lemma WorkLegal(w: World, k: Worker, a: WorkAction)
    requires WorldLegal(w) && WorkerOK(w, k) && WorkerLegal(k) && WorkEnabled(w, k, a) && CarefulWork(w, k, a)
    ensures WorldLegal(Work(w, k, a).0) && WorkerLegal(Work(w, k, a).1)
  {
    match a
    case InitStatus =>
      PutStatusLegal(w, k.held.snap, k.held.readAt, k.held.snap.rec.status.(phase := PendingOther), ByInit);
    case Discover(gpu) => PutSpecLegal(w, k.held.snap, gpu);
    case SyncSpec(gpu) => PutSpecLegal(w, k.held.snap, gpu);
    case SyncSpecOnly(gpu) => PutSpecLegal(w, k.held.snap, gpu);
    case Reconcile(v) => ReconcileLegal(w, k, v);
    case Scrape(pod, samples, now) =>
      var (st, changed) := Scraped(k.held.snap.rec.status, pod, samples, now);
      if changed {
        ScrapedLegal(k.held.snap.rec.status, pod, samples, now);
        PutStatusLegal(w, k.held.snap, k.held.readAt, st, ByScrape);
      }
    case _ =>
  }

  lemma EvaluateLegal(w: World, e: Eval, a: EvalAction)
    requires WorldLegal(w) && EvalOK(w, e) && EvalLegal(e) && EvalEnabled(w, e, a)
    ensures WorldLegal(Evaluate(w, e, a).0) && EvalLegal(Evaluate(w, e, a).1)
  {
    if a.MarkWrite? && e.copy.value.snap.rec.status.phase == Idle {
      var snap := e.copy.value.snap;
      MarkedLegal(snap.rec.status, CurrentMark(e).value.pending, a.reason);
      var st := Marked(snap.rec.status, CurrentMark(e).value.pending, a.reason);
      PutStatusLegal(w, snap, e.copy.value.readAt, st, ByMark);
    }
  }

  lemma KeepsLegal(s: System, step: Step)
    requires Inv(s) && Legal(s) && Enabled(s, step) && Careful(s, step)
    ensures Legal(Apply(s, step))
  {
    match step
    case ByWorker(k, a) => KeepsLegalWork(s, k, a);
    case ByEvaluator(r, a) => KeepsLegalEvaluation(s, r, a);
    case _ =>
  }

  lemma KeepsLegalWork(s: System, k: string, a: WorkAction)
    requires Inv(s) && Legal(s) && Enabled(s, ByWorker(k, a)) && Careful(s, ByWorker(k, a))
    ensures Legal(Apply(s, ByWorker(k, a)))
  {
    WorkLegal(s.world, WorkerOf(s, k), a);
  }

  lemma KeepsLegalEvaluation(s: System, r: string, a: EvalAction)
    requires Inv(s) && Legal(s) && Enabled(s, ByEvaluator(r, a))
    ensures Legal(Apply(s, ByEvaluator(r, a)))
  {
    EvaluateLegal(s.world, EvalOf(s, r), a);
  }

  lemma {:induction false} LegalAlong(s: System, steps: seq<Step>, s': System)
    requires Inv(s) && Legal(s) && CarefulRun(s, steps, s')
    ensures Inv(s') && Legal(s')
    decreases |steps|
  {
    if steps != [] {
      KeepsInv(s, steps[0]);
      KeepsLegal(s, steps[0]);
      LegalAlong(Apply(s, steps[0]), steps[1..], s');
    }
  }
}
