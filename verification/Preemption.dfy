/**
  The preemption protocol as a transition system: GpuWorkload records in an optimistic-concurrency
  store, reconcilers and scrapers that read a record and write it back later, replicas that guard
  evaluations with a lease, and evaluations that list, classify, match and mark step by step.
  Every step carries the values the environment chose, so a run is a sequence of steps.
 */
module Preemption {
  import opened Common
  import opened GpuRecords
  import opened Victims
  import opened VictimsOrder

  const LEASE_DURATION := 30

  // ----- The store -----

  datatype Stored = Stored(version: nat, rec: Record)

  datatype Cause =
    | ByCreate | ByInit | BySpec | ByObserve | ByOwnerGone | ByEviction | ByForbidden | ByMark | ByScrape | ByExpiry

  /** Every committed write is recorded with the record before and after it. */
  datatype Event = Event(time: int, name: string, before: Option<Record>, after: Option<Record>, cause: Cause)

  datatype World = World(clock: int, next: nat, store: map<string, Stored>, log: seq<Event>)

  predicate Current(w: World, s: Snapshot) {
    s.name in w.store && w.store[s.name].version == s.version
  }

  function Put(w: World, name: string, rec: Record, cause: Cause): World {
    var before := if name in w.store then Some(w.store[name].rec) else None;
    w.(next := w.next + 1,
       store := w.store[name := Stored(w.next, rec)],
       log := w.log + [Event(w.clock, name, before, Some(rec), cause)])
  }

  /** A status write commits only on the version it was computed from, and leaves the spec alone. */
  function PutStatus(w: World, s: Snapshot, st: Status, cause: Cause): World {
    if Current(w, s) then Put(w, s.name, w.store[s.name].rec.(status := st), cause) else w
  }

  function PutSpec(w: World, s: Snapshot, gpu: map<string, nat>): World {
    if Current(w, s) then
      var rec := w.store[s.name].rec;
      Put(w, s.name, rec.(spec := rec.spec.(gpu := gpu)), BySpec)
    else w
  }

  /** Deletion names the object only: it is not conditional on a version. */
  function Remove(w: World, name: string): World {
    if name in w.store then
      w.(store := w.store - {name},
         log := w.log + [Event(w.clock, name, Some(w.store[name].rec), None, ByExpiry)])
    else w
  }

  function SnapshotOf(w: World, name: string): Snapshot
    requires name in w.store
  {
    Snapshot(name, w.store[name].version, w.store[name].rec)
  }

  // ----- Reconcilers, scrapers and discovery -----

  datatype Held = Held(snap: Snapshot, readAt: int)

  datatype Role = Creating | Reconciling | Synced | Rereading | Scraping

  datatype Worker = Free | Busy(held: Held, role: Role)

  datatype WorkAction =
    // discovery: create a record and set its first status, or raise the counts of an existing one
    | Create(name: string, spec: Spec)
    | InitStatus
    | Discover(gpu: map<string, nat>)
    // read a record; a reconcile may rewrite the spec and read again, then writes the status
    | Read(source: string, scrape: bool)
    | SyncSpec(newGpu: map<string, nat>)
    | SyncSpecOnly(onlyGpu: map<string, nat>)
    | Reread
    | Reconcile(view: View)
    | Scrape(pod: string, samples: seq<Sample>, now: int)

  ghost predicate DistinctPods(pods: seq<Pod>) {
    forall i, j :: 0 <= i < j < |pods| ==> pods[i].name != pods[j].name
  }

  predicate InRole(k: Worker, role: Role) {
    k.Busy? && k.role == role
  }

  ghost predicate WorkEnabled(w: World, k: Worker, a: WorkAction) {
    match a
    case Create(name, _) => name !in w.store && name != ""
    case InitStatus => InRole(k, Creating)
    case Discover(_) => InRole(k, Reconciling)
    case Read(source, _) => source in w.store
    case SyncSpec(_) => InRole(k, Reconciling) && Live(k.held.snap.rec.status.phase)
    case SyncSpecOnly(_) => InRole(k, Reconciling) && Live(k.held.snap.rec.status.phase)
    case Reread => InRole(k, Rereading)
    case Reconcile(v) =>
      && (InRole(k, Reconciling) || (InRole(k, Synced) && v.pods != []))
      && k.held.readAt <= v.now <= w.clock
      && DistinctPods(v.pods)
    case Scrape(_, _, now) => InRole(k, Scraping) && now <= w.clock
  }

  /** What a reconcile does with the copy it holds. Past the spec re-read the phase is not dispatched again. */
  function Reconciled(w: World, k: Worker, v: View): World
    requires k.Busy?
  {
    var snap := k.held.snap;
    var st := snap.rec.status;
    if k.role == Reconciling && st.phase == Preempting then
      match v.deletion
      case Forbidden => PutStatus(w, snap, Reverted(st), ByForbidden)
      case Failed => w
      case Removed => PutStatus(w, snap, Evicted(st, v.now), ByEviction)
    else if k.role == Reconciling && Terminal(st.phase) then
      if v.ttl != 0 && st.finishedAt.Some? && v.now - st.finishedAt.value >= v.ttl then Remove(w, snap.name) else w
    else if k.role == Reconciling && !v.ownerExists then
      PutStatus(w, snap, OwnerGone(st, v.now), ByOwnerGone)
    else
      PutStatus(w, snap, Observed(st, v), ByObserve)
  }

  function Hold(w: World, name: string, role: Role): Worker
    requires name in w.store
  {
    Busy(Held(SnapshotOf(w, name), w.clock), role)
  }

  ghost function Work(w: World, k: Worker, a: WorkAction): (World, Worker)
    requires WorkEnabled(w, k, a)
  {
    match a
    case Create(name, spec) =>
      var w' := Put(w, name, Record(w.clock, spec, EMPTY_STATUS), ByCreate);
      (w', Hold(w', name, Creating))
    case InitStatus => (PutStatus(w, k.held.snap, k.held.snap.rec.status.(phase := PendingOther), ByInit), Free)
    case Discover(gpu) => (PutSpec(w, k.held.snap, gpu), Free)
    case Read(name, scrape) => (w, Hold(w, name, if scrape then Scraping else Reconciling))
    case SyncSpec(gpu) =>
      var w' := PutSpec(w, k.held.snap, gpu);
      (w', if Current(w, k.held.snap) then Hold(w', k.held.snap.name, Synced) else Free)
    case SyncSpecOnly(gpu) =>
      var w' := PutSpec(w, k.held.snap, gpu);
      (w', if Current(w, k.held.snap) then Hold(w', k.held.snap.name, Rereading) else Free)
    case Reread => (w, if k.held.snap.name in w.store then Hold(w, k.held.snap.name, Synced) else Free)
    case Reconcile(v) => (Reconciled(w, k, v), Free)
    case Scrape(pod, samples, now) =>
      var (st, changed) := Scraped(k.held.snap.rec.status, pod, samples, now);
      (if changed then PutStatus(w, k.held.snap, st, ByScrape) else w, Free)
  }

  // ----- Evaluations -----

  datatype Lease = Lease(version: nat, holder: string, renew: int, duration: int)

  /** A victim the evaluation is about to mark; `pending` is empty for the Always policy. */
  datatype Mark = Mark(victim: Entry, pending: string)

  datatype Eval =
    | Off
    | Acquiring(seen: Option<Lease>, readAt: int)
    | Listing(renew: int)
    | Classifying(renew: int, listing: seq<Snapshot>, listedAt: int, at: nat, acc: Classified,
                  mark: Option<Mark>, copy: Option<Held>)
    | Marking(renew: int, listing: seq<Snapshot>, listedAt: int, plan: seq<Mark>, done: nat, copy: Option<Held>)
    | Releasing(seen: Option<Lease>)

  predicate Evaluating(e: Eval) {
    e.Listing? || e.Classifying? || e.Marking?
  }

  /** The victim the evaluation is at, if it is marking one. */
  function CurrentMark(e: Eval): Option<Mark> {
    match e
    case Classifying(_, _, _, _, _, mark, _) => mark
    case Marking(_, _, _, plan, done, _) => if done < |plan| then Some(plan[done]) else None
    case _ => None
  }

  function Advance(e: Eval): Eval {
    match e
    case Classifying(_, _, _, _, _, _, _) => e.(mark := None, copy := None)
    case Marking(_, _, _, _, _, _) => e.(done := e.done + 1, copy := None)
    case _ => e
  }

  function GroupMarks(g: Group): (ms: seq<Mark>)
    ensures |ms| == |g.victims|
    ensures forall i :: 0 <= i < |ms| ==> ms[i] == Mark(g.victims[i], g.pending.gw.name)
  {
    seq(|g.victims|, i requires 0 <= i < |g.victims| => Mark(g.victims[i], g.pending.gw.name))
  }

  function Plan(gs: seq<Group>): seq<Mark> {
    if gs == [] then [] else GroupMarks(gs[0]) + Plan(gs[1..])
  }

  datatype EvalAction =
    | List(names: seq<string>)
    | ClassifyNext(grace: int, always: bool)
    | MatchVictims(order: seq<string>, pending: map<string, seq<Entry>>, idle: map<string, seq<Entry>>)
    | MarkRead
    | MarkWrite(reason: string)

  ghost predicate EvalEnabled(w: World, e: Eval, a: EvalAction) {
    match a
    case List(names) => e.Listing? && Distinct(names) && (forall n :: n in names <==> n in w.store)
    case ClassifyNext(_, _) => e.Classifying? && e.mark.None? && e.at < |e.listing|
    case MatchVictims(order, pending, idle) =>
      && e.Classifying? && e.mark.None? && e.at == |e.listing|
      && Distinct(order) && (forall q :: q in order <==> OfResource(e.acc.pending, q) != [])
      && SortsOf(pending, e.acc.pending, order, false)
      && SortsOf(idle, e.acc.idle, order, true)
    case MarkRead => CurrentMark(e).Some? && e.copy.None? && CurrentMark(e).value.victim.gw.name in w.store
    case MarkWrite(_) => CurrentMark(e).Some? && e.copy.Some?
  }

  function Snapshots(w: World, names: seq<string>): (ss: seq<Snapshot>)
    requires forall n :: n in names ==> n in w.store
    ensures |ss| == |names|
    ensures forall i :: 0 <= i < |ss| ==> ss[i] == SnapshotOf(w, names[i])
  {
    seq(|names|, i requires 0 <= i < |names| => assert names[i] in names; SnapshotOf(w, names[i]))
  }

  ghost function Evaluate(w: World, e: Eval, a: EvalAction): (World, Eval)
    requires EvalEnabled(w, e, a)
  {
    match a
    case List(names) => (w, Classifying(e.renew, Snapshots(w, names), w.clock, 0, NOTHING, None, None))
    case ClassifyNext(grace, always) =>
      var l := Listed(e.listing[e.at], grace, always);
      var mark := if Judge(l, w.clock) == Evict then Some(Mark(IdleEntry(l, w.clock), "")) else None;
      (w, e.(at := e.at + 1, acc := Add(e.acc, l, w.clock), mark := mark))
    case MatchVictims(order, pending, idle) =>
      var gs := Match(order, pending, idle, e.acc.inFlight, {}).0;
      (w, Marking(e.renew, e.listing, e.listedAt, Plan(gs), 0, None))
    case MarkRead =>
      (w, e.(copy := Some(Held(SnapshotOf(w, CurrentMark(e).value.victim.gw.name), w.clock))))
    case MarkWrite(reason) =>
      var snap := e.copy.value.snap;
      if snap.rec.status.phase != Idle then (w, Advance(e))
      else if Current(w, snap) then
        (PutStatus(w, snap, Marked(snap.rec.status, CurrentMark(e).value.pending, reason), ByMark), Advance(e))
      else (w, e.(copy := None))
  }

  // ----- The lease -----

  datatype LeaseAction =
    | LeaseRead
    | LeaseWrite(now: int, checkAt: int)
    | ReleaseRead
    | ReleaseWrite
    | Crash

  /** The part of the system a lease action of one replica touches. */
  datatype LeaseView = LeaseView(clock: int, next: nat, lease: Option<Lease>, eval: Eval)

  predicate LeaseEnabled(v: LeaseView, r: string, a: LeaseAction) {
    match a
    case LeaseRead => r != "" && v.eval.Off?
    case LeaseWrite(now, checkAt) => v.eval.Acquiring? && v.eval.readAt <= now <= checkAt <= v.clock
    case ReleaseRead => Evaluating(v.eval)
    case ReleaseWrite => v.eval.Releasing?
    case Crash => !v.eval.Off?
  }

  function Guard(v: LeaseView, r: string, a: LeaseAction): LeaseView
    requires LeaseEnabled(v, r, a)
  {
    match a
    case LeaseRead => v.(eval := Acquiring(v.lease, v.clock))
    case LeaseWrite(now, checkAt) =>
      var seen := v.eval.seen;
      var taken := v.(next := v.next + 1, lease := Some(Lease(v.next, r, now, LEASE_DURATION)), eval := Listing(now));
      var refused := v.(eval := Off);
      if seen.None? then
        if v.lease.None? then taken else refused
      else if seen.value.holder != r && checkAt - seen.value.renew < seen.value.duration then refused
      else if v.lease.Some? && v.lease.value.version == seen.value.version then taken
      else refused
    case ReleaseRead => v.(eval := Releasing(v.lease))
    case ReleaseWrite =>
      var seen := v.eval.seen;
      if seen.Some? && seen.value.holder == r && v.lease.Some? && v.lease.value.version == seen.value.version then
        v.(next := v.next + 1, lease := Some(v.lease.value.(version := v.next, holder := "")), eval := Off)
      else v.(eval := Off)
    case Crash => v.(eval := Off)
  }

  // ----- The system -----

  datatype System = System(world: World, lease: Option<Lease>, workers: map<string, Worker>, evals: map<string, Eval>)

  function WorkerOf(s: System, k: string): Worker {
    if k in s.workers then s.workers[k] else Free
  }

  function EvalOf(s: System, r: string): Eval {
    if r in s.evals then s.evals[r] else Off
  }

  function LeaseViewOf(s: System, r: string): LeaseView {
    LeaseView(s.world.clock, s.world.next, s.lease, EvalOf(s, r))
  }

  datatype Step =
    | Tick(dt: nat)
    | ByWorker(k: string, work: WorkAction)
    | ByEvaluator(r: string, eval: EvalAction)
    | ByReplica(r: string, guard: LeaseAction)

  ghost predicate Enabled(s: System, step: Step) {
    match step
    case Tick(_) => true
    case ByWorker(k, a) => WorkEnabled(s.world, WorkerOf(s, k), a)
    case ByEvaluator(r, a) => EvalEnabled(s.world, EvalOf(s, r), a)
    case ByReplica(r, a) => LeaseEnabled(LeaseViewOf(s, r), r, a)
  }

  ghost function Apply(s: System, step: Step): System
    requires Enabled(s, step)
  {
    match step
    case Tick(dt) => s.(world := s.world.(clock := s.world.clock + dt))
    case ByWorker(k, a) =>
      var (w', k') := Work(s.world, WorkerOf(s, k), a);
      s.(world := w', workers := s.workers[k := k'])
    case ByEvaluator(r, a) =>
      var (w', e') := Evaluate(s.world, EvalOf(s, r), a);
      s.(world := w', evals := s.evals[r := e'])
    case ByReplica(r, a) =>
      var v := Guard(LeaseViewOf(s, r), r, a);
      s.(world := s.world.(next := v.next), lease := v.lease, evals := s.evals[r := v.eval])
  }

  /** The spec update and the read after it happen as one step. */
  predicate AtomicReread(step: Step) {
    !(step.ByWorker? && (step.work.SyncSpecOnly? || step.work.Reread?))
  }

  /** A status write that commits from a copy read again after a spec update finds that copy live. */
  ghost predicate CarefulWork(w: World, k: Worker, a: WorkAction) {
    a.Reconcile? && InRole(k, Synced) && Current(w, k.held.snap) ==> Live(k.held.snap.rec.status.phase)
  }

  ghost predicate Careful(s: System, step: Step) {
    step.ByWorker? ==> CarefulWork(s.world, WorkerOf(s, step.k), step.work)
  }

  ghost predicate Init(s: System) {
    s.world.store == map[] && s.world.log == [] && s.lease.None? && s.workers == map[] && s.evals == map[]
  }

  ghost predicate Runs(s: System, steps: seq<Step>, s': System)
    decreases |steps|
  {
    if steps == [] then s' == s
    else Enabled(s, steps[0]) && Runs(Apply(s, steps[0]), steps[1..], s')
  }

  /** A run all of whose steps are careful. */
  ghost predicate CarefulRun(s: System, steps: seq<Step>, s': System)
    decreases |steps|
  {
    if steps == [] then s' == s
    else Enabled(s, steps[0]) && Careful(s, steps[0]) && CarefulRun(Apply(s, steps[0]), steps[1..], s')
  }

  ghost predicate Reachable(s: System, steps: seq<Step>, s': System) {
    Init(s) && CarefulRun(s, steps, s')
  }
}
