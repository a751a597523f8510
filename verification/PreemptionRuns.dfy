/** Building blocks for concrete runs of the preemption protocol. */
module PreemptionRuns {
  import opened Common
  import opened GpuRecords
  import opened Victims
  import opened VictimsOrder
  import opened Preemption
  import opened PreemptionBounds

  // ----- Runs, one step at a time -----

  lemma {:induction false} Extend(h: Rules, s0: System, steps: seq<Step>, s: System, step: Step)
    requires RuledRun(h, s0, steps, s) && Enabled(s, step) && Follows(h, s, step) && Holding(h, Apply(s, step))
    ensures RuledRun(h, s0, steps + [step], Apply(s, step))
    decreases |steps|
  {
    if steps == [] {
      assert [step][1..] == [];
    } else {
      assert (steps + [step])[1..] == steps[1..] + [step];
      Extend(h, Apply(s0, steps[0]), steps[1..], s, step);
    }
  }

  lemma {:induction false} EndsHolding(h: Rules, s0: System, steps: seq<Step>, s: System)
    requires RuledRun(h, s0, steps, s)
    ensures Holding(h, s)
    decreases |steps|
  {
    if steps != [] {
      EndsHolding(h, Apply(s0, steps[0]), steps[1..], s);
    }
  }

  lemma {:induction false} RuledRuns(h: Rules, s0: System, steps: seq<Step>, s: System)
    requires RuledRun(h, s0, steps, s)
    ensures Runs(s0, steps, s) && (h.careful ==> CarefulRun(s0, steps, s))
    decreases |steps|
  {
    if steps != [] {
      RuledRuns(h, Apply(s0, steps[0]), steps[1..], s);
    }
  }

  /** A step that changes no spec. */
  ghost predicate SpecsKept(w: World, w': World) {
    forall n :: n in w'.store ==> n in w.store && w'.store[n].rec.spec == w.store[n].rec.spec
  }

  lemma ExtendKept(h: Rules, s0: System, steps: seq<Step>, s: System, step: Step)
    requires RuledRun(h, s0, steps, s) && Enabled(s, step) && Follows(h, s, step)
    requires SpecsKept(s.world, Apply(s, step).world)
    ensures RuledRun(h, s0, steps + [step], Apply(s, step))
  {
    EndsHolding(h, s0, steps, s);
    Extend(h, s0, steps, s, step);
  }

  // ----- One record -----

  /** The workload `n`, whose owner has UID `n`, as a run sees it. */
  ghost predicate Shows(w: World, n: string, phase: Phase, idleSince: Option<int>, gpu: map<string, nat>) {
    && n in w.store
    && w.store[n].rec.spec == Spec(n, gpu)
    && var st := w.store[n].rec.status;
       st.phase == phase && st.idleSince == idleSince && MetricsOf(st.tracked, n) == []
  }

  ghost predicate OnlyChanged(w: World, w': World, n: string) {
    && w'.clock == w.clock
    && w'.store.Keys == w.store.Keys + {n}
    && forall m :: m in w.store && m != n ==> w'.store[m] == w.store[m]
  }

  /** The attribution of a victim. */
  ghost function VictimOf(w: World, n: string): string
    requires n in w.store
  {
    w.store[n].rec.status.preemptedFor
  }

  /** Whoever is in the middle of an evaluation stays there. */
  ghost predicate SameReplicas(s: System, s': System) {
    s'.lease == s.lease && s'.evals == s.evals
  }

  /** The run's promises allow a workload with these counts. */
  ghost predicate Admits(h: Rules, n: string, gpu: map<string, nat>) {
    && (h.single && n == h.p ==> gpu.Keys <= {h.res})
    && (h.fixed ==> Count(gpu, h.res) == h.count(n))
  }

  lemma CreateRun(h: Rules, s0: System, steps: seq<Step>, s: System, n: string, gpu: map<string, nat>)
    returns (steps': seq<Step>, s': System)
    requires RuledRun(h, s0, steps, s) && n !in s.world.store && n != "" && Admits(h, n, gpu)
    ensures RuledRun(h, s0, steps', s') && SameReplicas(s, s')
    ensures OnlyChanged(s.world, s'.world, n) && Shows(s'.world, n, New, None, gpu)
  {
    var step := ByWorker("c", Create(n, Spec(n, gpu)));
    s' := Apply(s, step);
    steps' := steps + [step];
    EndsHolding(h, s0, steps, s);
    var rec := Record(s.world.clock, Spec(n, gpu), EMPTY_STATUS);
    assert s'.world.store == s.world.store[n := Stored(s.world.next, rec)];
    Extend(h, s0, steps, s, step);
  }

  lemma ReadRun(h: Rules, s0: System, steps: seq<Step>, s: System, k: string, n: string)
    returns (steps': seq<Step>, s': System)
    requires RuledRun(h, s0, steps, s) && n in s.world.store
    ensures RuledRun(h, s0, steps', s') && SameReplicas(s, s') && s'.world == s.world
    ensures WorkerOf(s', k) == Hold(s.world, n, Reconciling)
  {
    var step := ByWorker(k, Read(n, false));
    s' := Apply(s, step);
    ExtendKept(h, s0, steps, s, step);
    steps' := steps + [step];
  }

  /** A reconcile: the record is read and its status written at the same time. */
  lemma ReconcileRun(h: Rules, s0: System, steps: seq<Step>, s: System, n: string, v: View)
    returns (steps': seq<Step>, s': System)
    requires RuledRun(h, s0, steps, s) && n in s.world.store && v.now == s.world.clock && DistinctPods(v.pods)
    requires !Terminal(s.world.store[n].rec.status.phase)
    ensures RuledRun(h, s0, steps', s') && SameReplicas(s, s')
    ensures s'.world == Reconciled(s.world, Hold(s.world, n, Reconciling), v)
  {
    var steps1, s1 := ReadRun(h, s0, steps, s, "k", n);
    var step := ByWorker("k", Reconcile(v));
    s' := Apply(s1, step);
    assert SpecsKept(s1.world, s'.world);
    ExtendKept(h, s0, steps1, s1, step);
    steps' := steps1 + [step];
  }

  /** A reconcile rewrites the counts of a live workload. */
  lemma SyncRun(h: Rules, s0: System, steps: seq<Step>, s: System, n: string,
                phase: Phase, idle: Option<int>, gpu: map<string, nat>, gpu': map<string, nat>)
    returns (steps': seq<Step>, s': System)
    requires RuledRun(h, s0, steps, s) && Admits(h, n, gpu') && Live(phase) && Shows(s.world, n, phase, idle, gpu)
    ensures RuledRun(h, s0, steps', s') && SameReplicas(s, s') && OnlyChanged(s.world, s'.world, n)
    ensures Shows(s'.world, n, phase, idle, gpu')
  {
    var steps1, s1 := ReadRun(h, s0, steps, s, "k", n);
    var step := ByWorker("k", SyncSpec(gpu'));
    s' := Apply(s1, step);
    EndsHolding(h, s0, steps, s);
    Extend(h, s0, steps1, s1, step);
    steps' := steps1 + [step];
  }

  // ----- What reconciles see -----

  /** One running pod without samples, judged against a threshold. */
  function Look(n: string, threshold: int, now: int): View {
    View(Removed, true, [Pod(n, PodRunning, false)], false, threshold, Max, 0, now)
  }

  /** One pod that waits for a GPU. */
  function Wait(n: string, now: int): View {
    View(Removed, true, [Pod(n, PodPending, true)], false, 1, Max, 0, now)
  }

  lemma ObserveLook(st: Status, n: string, threshold: int, now: int)
    requires MetricsOf(st.tracked, n) == []
    ensures var a := Observed(st, Look(n, threshold, now));
      && MetricsOf(a.tracked, n) == []
      && a.phase == (if 0 >= threshold then Active else Idle)
      && a.idleSince == (if 0 >= threshold then None else if st.idleSince.None? then Some(now) else st.idleSince)
  {
    var v := Look(n, threshold, now);
    var a := Observed(st, v);
    assert a.tracked == [TrackedPod(n, [])];
    assert a.tracked[..0] == [] && a.tracked[1..] == [];
    assert v.pods[0] in v.pods && forall p :: p in v.pods ==> p == v.pods[0];
    assert PodAverages(a.tracked) == [];
  }

  lemma ObserveWait(st: Status, n: string, now: int)
    requires MetricsOf(st.tracked, n) == []
    ensures var a := Observed(st, Wait(n, now));
      MetricsOf(a.tracked, n) == [] && a.phase == PendingGpu && a.idleSince == None
  {
    var v := Wait(n, now);
    var a := Observed(st, v);
    assert a.tracked == [TrackedPod(n, [])];
    assert a.tracked[..0] == [];
    assert v.pods[0] in v.pods;
  }

  /** A reconcile finds the workload idle, or active at threshold zero. */
  lemma LookRun(h: Rules, s0: System, steps: seq<Step>, s: System, n: string, threshold: int,
                phase: Phase, idle: Option<int>, gpu: map<string, nat>)
    returns (steps': seq<Step>, s': System)
    requires RuledRun(h, s0, steps, s) && Live(phase) && Shows(s.world, n, phase, idle, gpu)
    ensures RuledRun(h, s0, steps', s') && SameReplicas(s, s') && OnlyChanged(s.world, s'.world, n)
    ensures Shows(s'.world, n, if 0 >= threshold then Active else Idle,
                  if 0 >= threshold then None else if idle.None? then Some(s.world.clock) else idle, gpu)
    ensures VictimOf(s'.world, n) == VictimOf(s.world, n)
  {
    ObserveLook(s.world.store[n].rec.status, n, threshold, s.world.clock);
    steps', s' := ReconcileRun(h, s0, steps, s, n, Look(n, threshold, s.world.clock));
  }

  /** The workload is active for a moment and then idle again. */
  lemma ToggleRun(h: Rules, s0: System, steps: seq<Step>, s: System, n: string, idle: Option<int>,
                  gpu: map<string, nat>)
    returns (steps': seq<Step>, s': System)
    requires RuledRun(h, s0, steps, s) && Shows(s.world, n, Idle, idle, gpu)
    ensures RuledRun(h, s0, steps', s') && SameReplicas(s, s') && OnlyChanged(s.world, s'.world, n)
    ensures Shows(s'.world, n, Idle, Some(s.world.clock), gpu)
  {
    var st1, s1 := LookRun(h, s0, steps, s, n, 0, Idle, idle, gpu);
    steps', s' := LookRun(h, s0, st1, s1, n, 1, Active, None, gpu);
  }

  /** The deletion of the owner is forbidden, and the workload goes back to Idle without an idle time. */
  lemma ForbiddenRun(h: Rules, s0: System, steps: seq<Step>, s: System, n: string, gpu: map<string, nat>)
    returns (steps': seq<Step>, s': System)
    requires RuledRun(h, s0, steps, s) && Shows(s.world, n, Preempting, None, gpu)
    ensures RuledRun(h, s0, steps', s') && SameReplicas(s, s') && OnlyChanged(s.world, s'.world, n)
    ensures Shows(s'.world, n, Idle, None, gpu)
  {
    steps', s' := ReconcileRun(h, s0, steps, s, n, Look(n, 1, s.world.clock).(deletion := Forbidden));
  }

  /** A new workload that is found idle at once. */
  lemma NewIdle(h: Rules, s0: System, steps: seq<Step>, s: System, n: string, gpu: map<string, nat>)
    returns (steps': seq<Step>, s': System)
    requires RuledRun(h, s0, steps, s) && n !in s.world.store && n != "" && Admits(h, n, gpu)
    ensures RuledRun(h, s0, steps', s') && SameReplicas(s, s') && OnlyChanged(s.world, s'.world, n)
    ensures Shows(s'.world, n, Idle, Some(s.world.clock), gpu)
  {
    var steps1, s1 := CreateRun(h, s0, steps, s, n, gpu);
    steps', s' := LookRun(h, s0, steps1, s1, n, 1, New, None, gpu);
  }

  lemma NewWaiting(h: Rules, s0: System, steps: seq<Step>, s: System, n: string, gpu: map<string, nat>)
    returns (steps': seq<Step>, s': System)
    requires RuledRun(h, s0, steps, s) && n !in s.world.store && n != "" && Admits(h, n, gpu)
    ensures RuledRun(h, s0, steps', s') && SameReplicas(s, s') && OnlyChanged(s.world, s'.world, n)
    ensures Shows(s'.world, n, PendingGpu, None, gpu)
  {
    var steps1, s1 := CreateRun(h, s0, steps, s, n, gpu);
    ObserveWait(s1.world.store[n].rec.status, n, s.world.clock);
    steps', s' := ReconcileRun(h, s0, steps1, s1, n, Wait(n, s.world.clock));
  }

  lemma TickRun(h: Rules, s0: System, steps: seq<Step>, s: System, dt: nat) returns (steps': seq<Step>, s': System)
    requires RuledRun(h, s0, steps, s)
    ensures RuledRun(h, s0, steps', s') && s' == s.(world := s.world.(clock := s.world.clock + dt))
  {
    s' := Apply(s, Tick(dt));
    ExtendKept(h, s0, steps, s, Tick(dt));
    steps' := steps + [Tick(dt)];
  }

  // ----- A spec update and the re-read as two steps -----

  /** The worker "a" has rewritten the spec of `n` and is about to read it again. */
  ghost predicate AboutToReread(s: System, n: string) {
    InRole(WorkerOf(s, "a"), Rereading) && WorkerOf(s, "a").held.snap.name == n
  }

  lemma SpecRun(h: Rules, s0: System, steps: seq<Step>, s: System, n: string, phase: Phase, idle: Option<int>,
                gpu: map<string, nat>)
    returns (steps': seq<Step>, s': System)
    requires RuledRun(h, s0, steps, s) && Live(phase) && Shows(s.world, n, phase, idle, gpu)
    ensures RuledRun(h, s0, steps', s') && SameReplicas(s, s') && OnlyChanged(s.world, s'.world, n)
    ensures Shows(s'.world, n, phase, idle, gpu) && AboutToReread(s', n)
  {
    var steps1, s1 := ReadRun(h, s0, steps, s, "a", n);
    var step := ByWorker("a", SyncSpecOnly(gpu));
    s' := Apply(s1, step);
    ExtendKept(h, s0, steps1, s1, step);
    steps' := steps1 + [step];
  }

  lemma RereadRun(h: Rules, s0: System, steps: seq<Step>, s: System, n: string) returns (steps': seq<Step>, s': System)
    requires RuledRun(h, s0, steps, s) && n in s.world.store && AboutToReread(s, n)
    ensures RuledRun(h, s0, steps', s') && SameReplicas(s, s') && s'.world == s.world
    ensures WorkerOf(s', "a") == Hold(s.world, n, Synced)
  {
    var step := ByWorker("a", Reread);
    s' := Apply(s, step);
    ExtendKept(h, s0, steps, s, step);
    steps' := steps + [step];
  }

  /** The reconciler writes the phase it computes, whatever it has read, and leaves the attribution alone. */
  lemma LateWrite(h: Rules, s0: System, steps: seq<Step>, s: System, n: string, gpu: map<string, nat>)
    returns (steps': seq<Step>, s': System)
    requires RuledRun(h, s0, steps, s) && !h.careful && Shows(s.world, n, Preempting, None, gpu)
    requires WorkerOf(s, "a") == Hold(s.world, n, Synced)
    ensures RuledRun(h, s0, steps', s') && SameReplicas(s, s') && OnlyChanged(s.world, s'.world, n)
    ensures Shows(s'.world, n, Active, None, gpu) && VictimOf(s'.world, n) == VictimOf(s.world, n)
    ensures s'.world.log == s.world.log +
      [Event(s.world.clock, n, Some(s.world.store[n].rec), Some(s'.world.store[n].rec), ByObserve)]
  {
    var step := ByWorker("a", Reconcile(Look(n, 0, s.world.clock)));
    ObserveLook(s.world.store[n].rec.status, n, 0, s.world.clock);
    s' := Apply(s, step);
    ExtendKept(h, s0, steps, s, step);
    steps' := steps + [step];
  }

  // ----- Evaluations -----

  /** Only replica `r` moves. */
  ghost predicate OnlyActs(s: System, s': System, r: string) {
    forall q :: q != r ==> EvalOf(s', q) == EvalOf(s, q)
  }

  /** Nothing is stored differently. */
  ghost predicate SameStore(s: System, s': System) {
    && s'.world.store == s.world.store && s'.world.clock == s.world.clock && s'.world.log == s.world.log
    && s'.workers == s.workers
  }

  lemma LeaseReadRun(h: Rules, s0: System, steps: seq<Step>, s: System, r: string)
    returns (steps': seq<Step>, s': System)
    requires RuledRun(h, s0, steps, s) && EvalOf(s, r).Off? && r != ""
    ensures RuledRun(h, s0, steps', s') && s'.world == s.world && s'.workers == s.workers && OnlyActs(s, s', r)
    ensures s'.lease == s.lease && EvalOf(s', r) == Acquiring(s.lease, s.world.clock)
  {
    var step := ByReplica(r, LeaseRead);
    s' := Apply(s, step);
    ExtendKept(h, s0, steps, s, step);
    steps' := steps + [step];
  }

  /** Nobody has the lease, or it has run out. */
  ghost predicate LeaseFree(s: System) {
    s.lease.Some? ==> s.world.clock - s.lease.value.renew >= s.lease.value.duration
  }

  /** Somebody took the lease just now. */
  ghost predicate LeaseTaken(s: System, at: int) {
    s.lease.Some? && s.lease.value.renew == at && s.lease.value.duration == LEASE_DURATION
  }

  lemma LeaseRun(h: Rules, s0: System, steps: seq<Step>, s: System, r: string) returns (steps': seq<Step>, s': System)
    requires RuledRun(h, s0, steps, s) && EvalOf(s, r).Off? && r != "" && LeaseFree(s)
    ensures RuledRun(h, s0, steps', s') && SameStore(s, s') && OnlyActs(s, s', r)
    ensures EvalOf(s', r) == Listing(s.world.clock) && LeaseTaken(s', s.world.clock)
  {
    var steps1, s1 := LeaseReadRun(h, s0, steps, s, r);
    var step := ByReplica(r, LeaseWrite(s.world.clock, s.world.clock));
    s' := Apply(s1, step);
    ExtendKept(h, s0, steps1, s1, step);
    steps' := steps1 + [step];
  }

  /** The rules let a replica go on: it has taken the lease just now, if they ask for one. */
  ghost predicate MayAct(h: Rules, s: System, r: string) {
    h.apart == Nothing || (h.apart == ByLease && Evaluating(EvalOf(s, r)) && s.world.clock == EvalOf(s, r).renew)
  }

  /** One step of an evaluation that stores nothing. */
  lemma ThinkRun(h: Rules, s0: System, steps: seq<Step>, s: System, r: string, a: EvalAction)
    returns (steps': seq<Step>, s': System)
    requires RuledRun(h, s0, steps, s) && EvalEnabled(s.world, EvalOf(s, r), a) && !a.MarkWrite? && MayAct(h, s, r)
    ensures RuledRun(h, s0, steps', s') && SameStore(s, s') && OnlyActs(s, s', r) && s'.lease == s.lease
    ensures s'.world == s.world
    ensures EvalOf(s', r) == Evaluate(s.world, EvalOf(s, r), a).1
  {
    var step := ByEvaluator(r, a);
    s' := Apply(s, step);
    ExtendKept(h, s0, steps, s, step);
    steps' := steps + [step];
  }

  /** What a mark that commits does to the system. */
  ghost predicate Marks(s: System, s': System, r: string, m: Mark, gpu: map<string, nat>) {
    var n := m.victim.gw.name;
    && s'.lease == s.lease && s'.workers == s.workers && OnlyActs(s, s', r)
    && n in s.world.store && OnlyChanged(s.world, s'.world, n) && Shows(s'.world, n, Preempting, None, gpu)
    && VictimOf(s'.world, n) == (if m.pending == "" then VictimOf(s.world, n) else m.pending)
  }

  /** A mark that commits: the victim is read and written at the same time. */
  lemma MarkRun(h: Rules, s0: System, steps: seq<Step>, s: System, r: string, idle: Option<int>, gpu: map<string, nat>)
    returns (steps': seq<Step>, s': System)
    requires RuledRun(h, s0, steps, s) && CurrentMark(EvalOf(s, r)).Some? && EvalOf(s, r).copy.None? && MayAct(h, s, r)
    requires Shows(s.world, CurrentMark(EvalOf(s, r)).value.victim.gw.name, Idle, idle, gpu)
    ensures RuledRun(h, s0, steps', s') && Marks(s, s', r, CurrentMark(EvalOf(s, r)).value, gpu)
    ensures EvalOf(s', r) == Advance(EvalOf(s, r))
  {
    var steps1, s1 := ThinkRun(h, s0, steps, s, r, MarkRead);
    steps', s' := MarkWriteRun(h, s0, steps1, s1, r, idle, gpu);
  }

  lemma MarkWriteRun(h: Rules, s0: System, steps: seq<Step>, s: System, r: string, idle: Option<int>,
                     gpu: map<string, nat>)
    returns (steps': seq<Step>, s': System)
    requires RuledRun(h, s0, steps, s) && CurrentMark(EvalOf(s, r)).Some? && EvalOf(s, r).copy.Some? && MayAct(h, s, r)
    requires Shows(s.world, CurrentMark(EvalOf(s, r)).value.victim.gw.name, Idle, idle, gpu)
    requires EvalOf(s, r).copy.value.snap == SnapshotOf(s.world, CurrentMark(EvalOf(s, r)).value.victim.gw.name)
    ensures RuledRun(h, s0, steps', s') && Marks(s, s', r, CurrentMark(EvalOf(s, r)).value, gpu)
    ensures EvalOf(s', r) == Advance(EvalOf(s, r))
  {
    var step := ByEvaluator(r, MarkWrite(""));
    MarkEffect(s.world, EvalOf(s, r), idle, gpu);
    s' := Apply(s, step);
    ExtendKept(h, s0, steps, s, step);
    steps' := steps + [step];
  }

  lemma MarkEffect(w: World, e: Eval, idle: Option<int>, gpu: map<string, nat>)
    requires CurrentMark(e).Some? && e.copy.Some? && Shows(w, CurrentMark(e).value.victim.gw.name, Idle, idle, gpu)
    requires e.copy.value.snap == SnapshotOf(w, CurrentMark(e).value.victim.gw.name)
    ensures var m := CurrentMark(e).value; var n := m.victim.gw.name; var (w', e') := Evaluate(w, e, MarkWrite(""));
      && OnlyChanged(w, w', n) && SpecsKept(w, w') && Shows(w', n, Preempting, None, gpu)
      && VictimOf(w', n) == (if m.pending == "" then VictimOf(w, n) else m.pending)
      && e' == Advance(e)
  {
  }

  // ----- A whole evaluation -----

  /** A pending workload and two idle ones, by name and counts. */
  datatype Cast = Cast(
    p: string,
    a: string,
    b: string,
    needs: map<string, nat>,
    ofA: map<string, nat>,
    ofB: map<string, nat>)

  ghost predicate Distinguished(c: Cast) {
    c.p != "" && c.a != "" && c.b != "" && c.p != c.a && c.p != c.b && c.a != c.b
  }

  /** The pending workload waits, and the first of the idle ones has been idle longer. */
  ghost predicate Scene(w: World, c: Cast, idleA: int, idleB: int) {
    && Distinguished(c) && w.store.Keys == {c.p, c.a, c.b}
    && Shows(w, c.p, PendingGpu, None, c.needs)
    && Shows(w, c.a, Idle, Some(idleA), c.ofA)
    && Shows(w, c.b, Idle, Some(idleB), c.ofB)
    && idleA < idleB
  }

  /** An idle workload as the evaluation at this moment would list it. */
  ghost function Victim(w: World, n: string, idle: int, grace: int): Entry
    requires n in w.store
  {
    Entry(SnapshotOf(w, n), idle, grace, w.clock)
  }

  ghost function Pending(w: World, n: string): Entry
    requires n in w.store
  {
    Entry(SnapshotOf(w, n), 0, 0, 0)
  }

  lemma SceneAdds(w: World, c: Cast, idleA: int, idleB: int, grace: int)
    requires Scene(w, c, idleA, idleB) && w.clock - idleB >= grace
    ensures var ep, ea, eb := Pending(w, c.p), Victim(w, c.a, idleA, grace), Victim(w, c.b, idleB, grace);
      var one, two := Classified([ep], [], [], []), Classified([ep], [ea], [], []);
      && Add(NOTHING, Listed(SnapshotOf(w, c.p), grace, false), w.clock) == one
      && Add(one, Listed(SnapshotOf(w, c.a), grace, false), w.clock) == two
      && Add(two, Listed(SnapshotOf(w, c.b), grace, false), w.clock) == Classified([ep], [ea, eb], [], [])
  {
  }

  lemma ListRun(h: Rules, s0: System, steps: seq<Step>, s: System, r: string, names: seq<string>)
    returns (steps': seq<Step>, s': System)
    requires RuledRun(h, s0, steps, s) && EvalOf(s, r).Listing? && MayAct(h, s, r)
    requires Distinct(names) && (forall n :: n in names <==> n in s.world.store)
    ensures RuledRun(h, s0, steps', s') && OnlyActs(s, s', r) && s'.lease == s.lease && s'.world == s.world
    ensures s'.workers == s.workers
    ensures EvalOf(s', r) ==
      Classifying(EvalOf(s, r).renew, Snapshots(s.world, names), s.world.clock, 0, NOTHING, None, None)
  {
    steps', s' := ThinkRun(h, s0, steps, s, r, List(names));
  }

  /** One round of classification under the on-demand policy. */
  lemma ClassifyRun(h: Rules, s0: System, steps: seq<Step>, s: System, r: string, grace: int, c: Classified)
    returns (steps': seq<Step>, s': System)
    requires RuledRun(h, s0, steps, s) && EvalOf(s, r).Classifying? && EvalOf(s, r).at < |EvalOf(s, r).listing|
    requires MayAct(h, s, r) && EvalOf(s, r).mark.None?
    requires Add(EvalOf(s, r).acc, Listed(EvalOf(s, r).listing[EvalOf(s, r).at], grace, false), s.world.clock) == c
    ensures RuledRun(h, s0, steps', s') && OnlyActs(s, s', r) && s'.lease == s.lease && s'.world == s.world
    ensures s'.workers == s.workers
    ensures EvalOf(s', r) == EvalOf(s, r).(at := EvalOf(s, r).at + 1, acc := c)
  {
    steps', s' := ThinkRun(h, s0, steps, s, r, ClassifyNext(grace, false));
  }

  lemma ClassifyScene(h: Rules, s0: System, steps: seq<Step>, s: System, r: string, c: Cast, idleA: int, idleB: int,
                      grace: int)
    returns (steps': seq<Step>, s': System)
    requires RuledRun(h, s0, steps, s) && EvalOf(s, r).Listing? && MayAct(h, s, r)
    requires Scene(s.world, c, idleA, idleB) && s.world.clock - idleB >= grace
    ensures RuledRun(h, s0, steps', s') && OnlyActs(s, s', r) && s'.lease == s.lease && s'.world == s.world
    ensures s'.workers == s.workers
    ensures var e := EvalOf(s', r); var w := s.world;
      && e.Classifying? && e.renew == EvalOf(s, r).renew && e.mark.None? && e.copy.None? && e.at == |e.listing|
      && e.acc == Classified([Pending(w, c.p)], [Victim(w, c.a, idleA, grace), Victim(w, c.b, idleB, grace)], [], [])
  {
    var w := s.world;
    var ep, ea, eb := Pending(w, c.p), Victim(w, c.a, idleA, grace), Victim(w, c.b, idleB, grace);
    SceneAdds(w, c, idleA, idleB, grace);
    var steps1, s1 := ListRun(h, s0, steps, s, r, [c.p, c.a, c.b]);
    var steps2, s2 := ClassifyRun(h, s0, steps1, s1, r, grace, Classified([ep], [], [], []));
    var steps3, s3 := ClassifyRun(h, s0, steps2, s2, r, grace, Classified([ep], [ea], [], []));
    steps', s' := ClassifyRun(h, s0, steps3, s3, r, grace, Classified([ep], [ea, eb], [], []));
  }

  /** The maps that matching is run on, and the victims it picks. */
  datatype Picks = Picks(
    order: seq<string>,
    pending: map<string, seq<Entry>>,
    idle: map<string, seq<Entry>>,
    victims: seq<Entry>)

  /** The maps are those of one pending and two idle workloads. */
  ghost predicate ListsFor(k: Picks, ep: Entry, ea: Entry, eb: Entry) {
    && Distinct(k.order) && (forall q :: q in k.order <==> OfResource([ep], q) != [])
    && SortsOf(k.pending, [ep], k.order, false) && SortsOf(k.idle, [ea, eb], k.order, true)
  }

  /** Matching plans these victims in this order. */
  ghost predicate Plans(plan: seq<Mark>, victims: seq<Entry>, p: string) {
    |plan| == |victims| && forall i :: 0 <= i < |plan| ==> plan[i] == Mark(victims[i], p)
  }

  ghost predicate PicksFor(k: Picks, ep: Entry, ea: Entry, eb: Entry) {
    && ListsFor(k, ep, ea, eb)
    && Plans(Plan(Match(k.order, k.pending, k.idle, [], {}).0), k.victims, ep.gw.name)
  }

  /** A replica lists, classifies and matches. */
  lemma EvaluateRun(h: Rules, s0: System, steps: seq<Step>, s: System, r: string, c: Cast, idleA: int, idleB: int,
                    grace: int, k: Picks)
    returns (steps': seq<Step>, s': System)
    requires RuledRun(h, s0, steps, s) && EvalOf(s, r).Listing? && MayAct(h, s, r)
    requires Scene(s.world, c, idleA, idleB) && s.world.clock - idleB >= grace
    requires PicksFor(k, Pending(s.world, c.p), Victim(s.world, c.a, idleA, grace), Victim(s.world, c.b, idleB, grace))
    ensures RuledRun(h, s0, steps', s') && OnlyActs(s, s', r) && s'.lease == s.lease && s'.world == s.world
    ensures s'.workers == s.workers
    ensures var e := EvalOf(s', r);
      && e.Marking? && e.renew == EvalOf(s, r).renew && e.done == 0 && e.copy.None?
      && Plans(e.plan, k.victims, c.p)
  {
    var steps1, s1 := ClassifyScene(h, s0, steps, s, r, c, idleA, idleB, grace);
    steps', s' := ThinkRun(h, s0, steps1, s1, r, MatchVictims(k.order, k.pending, k.idle));
  }
}
