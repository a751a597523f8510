/**
  Runs that show why the hypotheses of the protocol's results are needed: a re-read that is not atomic with
  the spec update, an idle time that changes or is cleared between listing and marking, and for the bound on
  over-preemption one run for each of its four hypotheses, with the other three kept.
 */
module PreemptionLimits {
  import opened Common
  import opened GpuRecords
  import opened Victims
  import opened VictimsOrder
  import opened Preemption
  import opened PreemptionLegality
  import opened PreemptionGrace
  import opened PreemptionBounds
  import opened PreemptionRuns

  const RES := "amd.com/gpu"
  const OTHER := "nvidia.com/gpu"

  const ONE := map[RES := 1]

  // ----- The grace period -----

  /** Careful steps, and nothing else. */
  const CAREFUL := Rules(Nothing, true, false, false, "", "", (_: string) => 0)

  /** No promises. */
  const FREE := CAREFUL.(careful := false)

  /** One workload, found idle at time 0. */
  lemma StartRun(h: Rules) returns (s0: System, steps: seq<Step>, s: System)
    requires !h.single && !h.fixed
    ensures Init(s0) && RuledRun(h, s0, steps, s) && s.lease.None? && s.evals == map[]
    ensures s.world.store.Keys == {"w"} && s.world.clock == 0 && Shows(s.world, "w", Idle, Some(0), ONE)
  {
    s0 := System(World(0, 1, map[], []), None, map[], map[]);
    assert RuledRun(h, s0, [], s0);
    steps, s := NewIdle(h, s0, [], s0, "w", ONE);
  }

  /** The evaluation is about to mark the workload under the Always policy. */
  ghost predicate AboutToMark(s: System, r: string, grace: int) {
    var e := EvalOf(s, r);
    && e.Classifying? && e.copy.None?
    && e.mark.Some? && e.mark.value.pending == ""
    && e.mark.value.victim.gw.name == "w" && e.mark.value.victim.grace == grace
  }

  /** A replica takes the lease, lists, and classifies the idle workload. */
  lemma AlwaysRun(h: Rules, s0: System, steps: seq<Step>, s: System, r: string, grace: int)
    returns (steps': seq<Step>, s': System)
    requires RuledRun(h, s0, steps, s) && h.apart == Nothing && EvalOf(s, r).Off? && r != "" && LeaseFree(s)
    requires s.world.store.Keys == {"w"} && Shows(s.world, "w", Idle, Some(0), ONE) && s.world.clock >= grace
    ensures RuledRun(h, s0, steps', s') && SameStore(s, s') && OnlyActs(s, s', r)
    ensures AboutToMark(s', r, grace) && LeaseTaken(s', s.world.clock)
  {
    var steps1, s1 := LeaseRun(h, s0, steps, s, r);
    var steps2, s2 := ListRun(h, s0, steps1, s1, r, ["w"]);
    steps', s' := ThinkRun(h, s0, steps2, s2, r, ClassifyNext(grace, true));
  }

  /** The mark that the replica commits next finds this idle time. */
  ghost predicate CommitsOn(s: System, r: string, idle: Option<int>, grace: int) {
    var step := ByEvaluator(r, MarkWrite(""));
    && Enabled(s, step) && Apply(s, step).world != s.world
    && var v := CurrentMark(EvalOf(s, r)).value.victim;
    && v.grace == grace && v.gw.name == "w" && "w" in s.world.store
    && s.world.store["w"].rec.status.idleSince == idle
  }

  lemma CopyRun(h: Rules, s0: System, steps: seq<Step>, s: System, r: string, idle: Option<int>, grace: int)
    returns (steps': seq<Step>, s': System)
    requires RuledRun(h, s0, steps, s) && h.apart == Nothing
    requires AboutToMark(s, r, grace) && Shows(s.world, "w", Idle, idle, ONE)
    ensures RuledRun(h, s0, steps', s') && s'.world == s.world && CommitsOn(s', r, idle, grace)
  {
    steps', s' := ThinkRun(h, s0, steps, s, r, MarkRead);
  }

  /**
    The mark step looks at the phase of the fresh record only: between listing and marking a workload
    may turn Active and Idle again, and is then marked before its grace period has passed.
   */
  lemma EarlyMark() returns (s0: System, steps: seq<Step>, s: System)
    ensures Reachable(s0, steps, s) && CommitsOn(s, "r", Some(s.world.clock), 10)
    ensures !IdleSinceAtMost(s.world.log, "w", s.world.clock - 10)
  {
    var h := CAREFUL;
    var st1, s1, st2, s2, st3, s3, st4, s4;
    s0, st1, s1 := StartRun(h);
    st2, s2 := TickRun(h, s0, st1, s1, 10);
    st3, s3 := AlwaysRun(h, s0, st2, s2, "r", 10);
    st4, s4 := ToggleRun(h, s0, st3, s3, "w", Some(0), ONE);
    steps, s := CopyRun(h, s0, st4, s4, "r", Some(10), 10);
    RuledRuns(h, s0, steps, s);
    GraceRespected(s0, steps, s, "r", "");
  }

  /**
    Between listing and marking another replica may mark the workload and its preemption may be reverted,
    because deleting the owner is forbidden; it is then marked again without any idle time.
   */
  lemma MarkAfterRevert() returns (s0: System, steps: seq<Step>, s: System)
    ensures Reachable(s0, steps, s) && CommitsOn(s, "r", None, 10)
    ensures !IdleSinceAtMost(s.world.log, "w", s.world.clock - 10)
  {
    var h := CAREFUL;
    var st1, s1, st2, s2, st3, s3, st4, s4, st5, s5, st6, s6;
    s0, st1, s1 := StartRun(h);
    st2, s2 := AlwaysRun(h, s0, st1, s1, "q", 0);
    st3, s3 := TickRun(h, s0, st2, s2, 30);
    assert "q"[0] != "r"[0];
    assert EvalOf(s3, "r") == EvalOf(s1, "r");
    st4, s4 := AlwaysRun(h, s0, st3, s3, "r", 10);
    st5, s5 := MarkRun(h, s0, st4, s4, "q", Some(0), ONE);
    st6, s6 := ForbiddenRun(h, s0, st5, s5, "w", ONE);
    steps, s := CopyRun(h, s0, st6, s6, "r", None, 10);
    RuledRuns(h, s0, steps, s);
    GraceRespected(s0, steps, s, "r", "");
  }

  // ----- The re-read -----

  ghost predicate Resurrects(e: Event) {
    && e.before.Some? && e.before.value.status.phase == Preempting
    && e.after.Some? && e.after.value.status.phase == Active
  }

  /**
    With the spec update and the read after it as two steps, an evaluation can mark the workload in
    between, and the reconcile then takes it out of Preempting as if nothing had happened.
   */
  lemma SplitRereadResurrects() returns (s0: System, steps: seq<Step>, s: System)
    ensures Init(s0) && Runs(s0, steps, s)
    ensures exists e :: e in s.world.log && Resurrects(e) && !LegalEvent(e)
  {
    var st1, s1, st2, s2;
    s0, st1, s1 := StartRun(FREE);
    st2, s2 := MarkedMeanwhile(s0, st1, s1);
    steps, s := LateWrite(FREE, s0, st2, s2, "w", ONE);
    RuledRuns(FREE, s0, steps, s);
    var e := s.world.log[|s2.world.log|];
    ResurrectionIsIllegal(e);
    assert e in s.world.log;
  }

  lemma ResurrectionIsIllegal(e: Event)
    requires e.before.Some? && e.before.value.status.phase == Preempting && e.cause == ByObserve
    requires e.after.Some? && e.after.value.status.phase == Active
    ensures Resurrects(e) && !LegalEvent(e)
  {
  }

  /** The workload is marked between the spec update and the re-read. */
  lemma MarkedMeanwhile(s0: System, steps: seq<Step>, s: System) returns (steps': seq<Step>, s': System)
    requires RuledRun(FREE, s0, steps, s) && s.lease.None? && s.evals == map[]
    requires s.world.store.Keys == {"w"} && s.world.clock == 0 && Shows(s.world, "w", Idle, Some(0), ONE)
    ensures RuledRun(FREE, s0, steps', s') && Shows(s'.world, "w", Preempting, None, ONE)
    ensures WorkerOf(s', "a") == Hold(s'.world, "w", Synced)
  {
    var st1, s1 := SpecRun(FREE, s0, steps, s, "w", Idle, Some(0), ONE);
    var st2, s2 := AlwaysRun(FREE, s0, st1, s1, "r", 0);
    var st3, s3 := MarkRun(FREE, s0, st2, s2, "r", Some(0), ONE);
    steps', s' := RereadRun(FREE, s0, st3, s3, "w");
  }

  // ----- Bounded overshoot: what the runs share -----

  const ONE_EACH: string -> nat := (_: string) => 1

  /** More victims are being freed for the workload than its demand asks for, by a whole victim. */
  ghost predicate Overshoots(h: Rules, s: System) {
    !Bounded(Attributed(s.world.store, h.p), h.count(h.p), h.count)
  }

  ghost predicate AdmitsCast(h: Rules, c: Cast) {
    Admits(h, c.p, c.needs) && Admits(h, c.a, c.ofA) && Admits(h, c.b, c.ofB)
  }

  /** The pending workload, and `a` that is idle since time 0. */
  lemma FirstTwo(h: Rules, s0: System, c: Cast) returns (steps: seq<Step>, s: System)
    requires Init(s0) && s0.world.clock == 0 && AdmitsCast(h, c) && Distinguished(c)
    ensures RuledRun(h, s0, steps, s) && s.lease.None? && s.evals == map[]
    ensures s.world.clock == 5 && s.world.store.Keys == {c.p, c.a}
    ensures Shows(s.world, c.p, PendingGpu, None, c.needs) && Shows(s.world, c.a, Idle, Some(0), c.ofA)
  {
    assert RuledRun(h, s0, [], s0);
    var st1, s1 := NewWaiting(h, s0, [], s0, c.p, c.needs);
    var st2, s2 := NewIdle(h, s0, st1, s1, c.a, c.ofA);
    steps, s := TickRun(h, s0, st2, s2, 5);
  }

  /** Then `b`, idle since time 5; now it is 10. */
  lemma SceneRun(h: Rules, c: Cast) returns (s0: System, steps: seq<Step>, s: System)
    requires AdmitsCast(h, c) && Distinguished(c)
    ensures Init(s0) && RuledRun(h, s0, steps, s) && s.lease.None? && s.evals == map[]
    ensures s.world.clock == 10 && Scene(s.world, c, 0, 5)
  {
    s0 := System(World(0, 1, map[], []), None, map[], map[]);
    var st1, s1 := FirstTwo(h, s0, c);
    var st2, s2 := NewIdle(h, s0, st1, s1, c.b, c.ofB);
    steps, s := TickRun(h, s0, st2, s2, 5);
  }

  ghost predicate FreedFor(w: World, n: string, p: string, gpu: map<string, nat>) {
    Shows(w, n, Preempting, None, gpu) && VictimOf(w, n) == p
  }

  /** Both idle workloads are being freed for the pending one. */
  ghost predicate BothFreed(w: World, c: Cast) {
    && Distinguished(c) && w.store.Keys == {c.p, c.a, c.b}
    && Shows(w, c.p, PendingGpu, None, c.needs)
    && FreedFor(w, c.a, c.p, c.ofA) && FreedFor(w, c.b, c.p, c.ofB)
  }

  lemma TwoForOne(h: Rules, s: System, c: Cast)
    requires BothFreed(s.world, c) && h.p == c.p && h.count == ONE_EACH
    ensures Overshoots(h, s)
  {
    assert Attributed(s.world.store, c.p) == {c.a, c.b};
    forall x | x in {c.a, c.b}
      ensures Sum({c.a, c.b} - {x}, ONE_EACH) == 1
    {
      var y := if x == c.a then c.b else c.a;
      assert {c.a, c.b} - {x} == {y};
      SumRemove({y}, ONE_EACH, y);
      assert {y} - {y} == {};
    }
  }

  /** The replica is about to mark `n` for `p`. */
  ghost predicate PlansTo(e: Eval, n: string, p: string) {
    && e.Marking? && e.copy.None? && CurrentMark(e).Some?
    && CurrentMark(e).value.victim.gw.name == n && CurrentMark(e).value.pending == p
  }

  /** A replica takes the lease and plans its victims. */
  lemma PlanRun(h: Rules, s0: System, steps: seq<Step>, s: System, r: string, c: Cast, idleA: int, idleB: int, k: Picks)
    returns (steps': seq<Step>, s': System)
    requires RuledRun(h, s0, steps, s) && h.apart != ByExclusion && EvalOf(s, r).Off? && r != "" && LeaseFree(s)
    requires Scene(s.world, c, idleA, idleB) && s.world.clock - idleB >= 5 && k.victims != []
    requires PicksFor(k, Pending(s.world, c.p), Victim(s.world, c.a, idleA, 5), Victim(s.world, c.b, idleB, 5))
    ensures RuledRun(h, s0, steps', s') && SameStore(s, s') && OnlyActs(s, s', r) && LeaseTaken(s', s.world.clock)
    ensures var e := EvalOf(s', r);
      && PlansTo(e, k.victims[0].gw.name, c.p) && e.renew == s.world.clock && |e.plan| == |k.victims| && e.done == 0
      && (|e.plan| > 1 ==> e.plan[1].victim.gw.name == k.victims[1].gw.name && e.plan[1].pending == c.p)
  {
    var st1, s1 := LeaseRun(h, s0, steps, s, r);
    steps', s' := EvaluateRun(h, s0, st1, s1, r, c, idleA, idleB, 5, k);
    FirstPlanned(EvalOf(s', r), k.victims, c.p);
  }

  lemma FirstPlanned(e: Eval, victims: seq<Entry>, p: string)
    requires e.Marking? && e.done == 0 && e.copy.None? && Plans(e.plan, victims, p) && victims != []
    ensures PlansTo(e, victims[0].gw.name, p) && |e.plan| == |victims|
    ensures |e.plan| > 1 ==> e.plan[1].victim.gw.name == victims[1].gw.name && e.plan[1].pending == p
  {
  }

  /** A replica that has planned both victims marks both. */
  lemma BothMarked(h: Rules, s0: System, steps: seq<Step>, s: System, r: string, c: Cast)
    returns (steps': seq<Step>, s': System)
    requires RuledRun(h, s0, steps, s) && MayAct(h, s, r) && Scene(s.world, c, 0, 5)
    requires PlansTo(EvalOf(s, r), c.a, c.p) && EvalOf(s, r).done == 0 && |EvalOf(s, r).plan| == 2
    requires EvalOf(s, r).plan[1].victim.gw.name == c.b && EvalOf(s, r).plan[1].pending == c.p
    ensures RuledRun(h, s0, steps', s') && BothFreed(s'.world, c)
  {
    var st1, s1 := MarkRun(h, s0, steps, s, r, Some(0), c.ofA);
    steps', s' := MarkRun(h, s0, st1, s1, r, Some(5), c.ofB);
  }

  // ----- Victims of one resource -----

  lemma {:induction false} OfOneResource(es: seq<Entry>, r: string, q: string)
    requires forall e :: e in es ==> e.gw.rec.spec.gpu.Keys == {r}
    ensures OfResource(es, q) == if q == r then es else []
  {
    if es != [] {
      assert es == es[..|es| - 1] + [es[|es| - 1]];
      OfOneResource(es[..|es| - 1], r, q);
    }
  }

  ghost function OnePick(ep: Entry, ea: Entry, eb: Entry, r: string, demand: nat): Picks {
    Picks([r], map[r := [ep]], map[r := [ea, eb]], if demand == 1 then [ea] else [ea, eb])
  }

  lemma TakeTwo(ea: Entry, eb: Entry, r: string, demand: nat)
    requires 1 <= demand <= 2 && Gpus(ea, r) == 1 && Gpus(eb, r) == 1
    ensures var vs := if demand == 1 then [ea] else [ea, eb];
      Take([ea, eb], r, {}, demand) == vs && Total(vs, r) == demand
  {
    assert [ea, eb][1..] == [eb] && [ea][1..] == [];
    assert Take([eb], r, {}, 1) == [eb] && Total([eb], r) == 1;
  }

  /** One pending workload gets what the greedy pass takes. */
  lemma ServePicks(p: Entry, pool: seq<Entry>, r: string, vs: seq<Entry>)
    requires Gpus(p, r) > 0 && Take(pool, r, {}, Gpus(p, r)) == vs && Total(vs, r) >= Gpus(p, r)
    ensures Match([r], map[r := [p]], map[r := pool], [], {}).0 == [Group(p, r, Gpus(p, r), vs)]
  {
    assert Residual(p, r, []) == Gpus(p, r);
    assert [p][1..] == [] && [r][1..] == [];
    assert MatchResource([], pool, r, [], {} + Uids(vs)) == ([], {} + Uids(vs));
    var g := Group(p, r, Gpus(p, r), vs);
    assert MatchResource([p], pool, r, [], {}).0 == [g] + [];
    assert [g] + [] + [] == [g];
  }

  lemma OneMatch(ep: Entry, ea: Entry, eb: Entry, r: string, demand: nat)
    requires Gpus(ep, r) == demand && 1 <= demand <= 2 && Gpus(ea, r) == 1 && Gpus(eb, r) == 1
    ensures var k := OnePick(ep, ea, eb, r, demand);
      Plans(Plan(Match(k.order, k.pending, k.idle, [], {}).0), k.victims, ep.gw.name)
  {
    var vs := if demand == 1 then [ea] else [ea, eb];
    TakeTwo(ea, eb, r, demand);
    ServePicks(ep, [ea, eb], r, vs);
    GroupPlan(Group(ep, r, demand, vs));
  }

  lemma GroupPlan(g: Group)
    ensures Plans(Plan([g]), g.victims, g.pending.gw.name)
  {
    assert [g][1..] == [] && Plan([g]) == GroupMarks(g) + [];
  }

  lemma OnePicks(ep: Entry, ea: Entry, eb: Entry, r: string, demand: nat) returns (k: Picks)
    requires ep.gw.rec.spec.gpu == map[r := demand] && 1 <= demand <= 2
    requires ea.gw.rec.spec.gpu == map[r := 1] && eb.gw.rec.spec.gpu == map[r := 1] && ea.idleSince < eb.idleSince
    ensures PicksFor(k, ep, ea, eb) && k.victims == if demand == 1 then [ea] else [ea, eb]
  {
    k := OnePick(ep, ea, eb, r, demand);
    OneMatch(ep, ea, eb, r, demand);
    OnePending(ep, r);
    OneIdle(ea, eb, r);
  }

  lemma OnePending(ep: Entry, r: string)
    requires ep.gw.rec.spec.gpu.Keys == {r}
    ensures Distinct([r]) && forall q :: q in [r] <==> OfResource([ep], q) != []
    ensures SortsOf(map[r := [ep]], [ep], [r], false)
  {
    forall q
      ensures OfResource([ep], q) == if q == r then [ep] else []
    {
      OfOneResource([ep], r, q);
    }
    Sorted(map[r := [ep]], [ep], [r], false);
  }

  lemma OneIdle(ea: Entry, eb: Entry, r: string)
    requires ea.gw.rec.spec.gpu.Keys == {r} && eb.gw.rec.spec.gpu.Keys == {r} && ea.idleSince < eb.idleSince
    ensures SortsOf(map[r := [ea, eb]], [ea, eb], [r], true)
  {
    OfOneResource([ea, eb], r, r);
    Sorted(map[r := [ea, eb]], [ea, eb], [r], true);
  }

  /** Lists in listing order are sorted if their keys ascend. */
  lemma Sorted(m: map<string, seq<Entry>>, es: seq<Entry>, order: seq<string>, byIdle: bool)
    requires forall q :: q in order ==> q in m && m[q] == OfResource(es, q) && Ordered(m[q], byIdle)
    ensures SortsOf(m, es, order, byIdle)
  {
    forall q | q in order
      ensures SortOf(Lookup(m, q), es, q, byIdle)
    {
    }
  }

  /** A replica takes the lease and plans as many victims as the demand asks for. */
  lemma PlanOne(h: Rules, s0: System, steps: seq<Step>, s: System, r: string, c: Cast, demand: nat, idleA: int,
                idleB: int)
    returns (steps': seq<Step>, s': System)
    requires RuledRun(h, s0, steps, s) && h.apart != ByExclusion && EvalOf(s, r).Off? && r != "" && LeaseFree(s)
    requires Scene(s.world, c, idleA, idleB) && s.world.clock - idleB >= 5
    requires c.needs == map[RES := demand] && 1 <= demand <= 2 && c.ofA == ONE && c.ofB == ONE
    ensures RuledRun(h, s0, steps', s') && SameStore(s, s') && OnlyActs(s, s', r) && LeaseTaken(s', s.world.clock)
    ensures var e := EvalOf(s', r);
      && PlansTo(e, c.a, c.p) && e.renew == s.world.clock && |e.plan| == demand && e.done == 0
      && (demand > 1 ==> e.plan[1].victim.gw.name == c.b && e.plan[1].pending == c.p)
  {
    var ep, ea, eb := Pending(s.world, c.p), Victim(s.world, c.a, idleA, 5), Victim(s.world, c.b, idleB, 5);
    var k := OnePicks(ep, ea, eb, RES, demand);
    steps', s' := PlanRun(h, s0, steps, s, r, c, idleA, idleB, k);
  }

  // ----- Counts that change -----

  /**
    Counts must be fixed: a workload that lowers its demand after two victims were marked for it, by one
    replica and within its lease, keeps both.
   */
  lemma LoweredDemandOvershoots(p: string, a: string, b: string)
    returns (h: Rules, s0: System, steps: seq<Step>, s: System)
    requires Distinguished(Cast(p, a, b, map[RES := 2], ONE, ONE))
    ensures h == Rules(ByLease, true, true, false, p, RES, ONE_EACH)
    ensures Init(s0) && RuledRun(h, s0, steps, s) && SameCounts(s, RES, ONE_EACH) && Overshoots(h, s)
  {
    h := Rules(ByLease, true, true, false, p, RES, ONE_EACH);
    var c := Cast(p, a, b, map[RES := 2], ONE, ONE);
    var st1, s1, st2, s2, st3, s3;
    s0, st1, s1 := SceneRun(h, c);
    st2, s2 := PlanOne(h, s0, st1, s1, "r", c, 2, 0, 5);
    st3, s3 := BothMarked(h, s0, st2, s2, "r", c);
    steps, s := LowerRun(h, s0, st3, s3, c);
    TwoForOne(h, s, c.(needs := ONE));
  }

  lemma LowerRun(h: Rules, s0: System, steps: seq<Step>, s: System, c: Cast) returns (steps': seq<Step>, s': System)
    requires RuledRun(h, s0, steps, s) && BothFreed(s.world, c) && Admits(h, c.p, ONE) && c.ofA == ONE && c.ofB == ONE
    ensures RuledRun(h, s0, steps', s') && BothFreed(s'.world, c.(needs := ONE)) && SameCounts(s', RES, ONE_EACH)
  {
    steps', s' := SyncRun(h, s0, steps, s, c.p, PendingGpu, None, c.needs, ONE);
  }

  // ----- Evaluations that are not kept apart -----

  /**
    Evaluations must not mark from outdated listings: replica `q` has picked `a`, outlives its lease, and
    marks it after replica `r` has listed and marked `b` for the same demand, because `a` was idle for less
    time by then.
   */
  lemma LateEvaluationOvershoots(p: string, a: string, b: string, q: string, r: string)
    returns (h: Rules, s0: System, steps: seq<Step>, s: System)
    requires Distinguished(Cast(p, a, b, ONE, ONE, ONE)) && q != "" && r != "" && q != r
    ensures h == Rules(Nothing, true, true, true, p, RES, ONE_EACH)
    ensures Init(s0) && RuledRun(h, s0, steps, s) && Overshoots(h, s)
  {
    h := Rules(Nothing, true, true, true, p, RES, ONE_EACH);
    var c := Cast(p, a, b, ONE, ONE, ONE);
    var st1, s1, st2, s2, st3, s3;
    s0, st1, s1 := SceneRun(h, c);
    st2, s2 := PickedEarly(h, s0, st1, s1, c, q, r);
    st3, s3 := PickedLate(h, s0, st2, s2, c, q, r);
    steps, s := MarkedTwice(h, s0, st3, s3, c, q, r);
    TwoForOne(h, s, c);
  }

  /** The same workloads, with the idle ones in the other order. */
  function Swapped(c: Cast): Cast {
    Cast(c.p, c.b, c.a, c.needs, c.ofB, c.ofA)
  }

  predicate OneEach(c: Cast) {
    c.needs == ONE && c.ofA == ONE && c.ofB == ONE
  }

  /** At time 10 `q` picks `a`; at time 40 its lease has run out, and `a` is idle since 20. */
  lemma PickedEarly(h: Rules, s0: System, steps: seq<Step>, s: System, c: Cast, q: string, r: string)
    returns (steps': seq<Step>, s': System)
    requires RuledRun(h, s0, steps, s) && s.lease.None? && s.evals == map[] && h.apart == Nothing && q != "" && q != r
    requires s.world.clock == 10 && Scene(s.world, c, 0, 5) && OneEach(c)
    ensures RuledRun(h, s0, steps', s') && PlansTo(EvalOf(s', q), c.a, c.p) && EvalOf(s', r).Off? && LeaseTaken(s', 10)
    ensures s'.world.clock == 40 && Scene(s'.world, Swapped(c), 5, 20)
  {
    var st1, s1 := PlanOne(h, s0, steps, s, q, c, 1, 0, 5);
    assert EvalOf(s1, r) == EvalOf(s, r);
    var st2, s2 := TickRun(h, s0, st1, s1, 10);
    var st3, s3 := ToggleRun(h, s0, st2, s2, c.a, Some(0), ONE);
    steps', s' := TickRun(h, s0, st3, s3, 20);
  }

  lemma PickedLate(h: Rules, s0: System, steps: seq<Step>, s: System, c: Cast, q: string, r: string)
    returns (steps': seq<Step>, s': System)
    requires RuledRun(h, s0, steps, s) && h.apart == Nothing && r != "" && q != r
    requires PlansTo(EvalOf(s, q), c.a, c.p) && EvalOf(s, r).Off? && LeaseTaken(s, 10)
    requires s.world.clock == 40 && Scene(s.world, Swapped(c), 5, 20) && OneEach(c)
    ensures RuledRun(h, s0, steps', s') && Scene(s'.world, Swapped(c), 5, 20)
    ensures PlansTo(EvalOf(s', q), c.a, c.p) && PlansTo(EvalOf(s', r), c.b, c.p)
  {
    steps', s' := PlanOne(h, s0, steps, s, r, Swapped(c), 1, 5, 20);
    assert EvalOf(s', q) == EvalOf(s, q);
  }

  lemma MarkedTwice(h: Rules, s0: System, steps: seq<Step>, s: System, c: Cast, q: string, r: string)
    returns (steps': seq<Step>, s': System)
    requires RuledRun(h, s0, steps, s) && h.apart == Nothing && q != r && Scene(s.world, Swapped(c), 5, 20)
    requires OneEach(c)
    requires PlansTo(EvalOf(s, r), c.b, c.p) && PlansTo(EvalOf(s, q), c.a, c.p)
    ensures RuledRun(h, s0, steps', s') && BothFreed(s'.world, c)
  {
    var st1, s1 := MarkRun(h, s0, steps, s, r, Some(5), ONE);
    assert EvalOf(s1, q) == EvalOf(s, q);
    steps', s' := MarkedLast(h, s0, st1, s1, c, q, Some(20));
  }

  lemma MarkedLast(h: Rules, s0: System, steps: seq<Step>, s: System, c: Cast, q: string, idle: Option<int>)
    returns (steps': seq<Step>, s': System)
    requires RuledRun(h, s0, steps, s) && MayAct(h, s, q) && PlansTo(EvalOf(s, q), c.a, c.p)
    requires Distinguished(c) && OneEach(c) && s.world.store.Keys == {c.p, c.a, c.b}
    requires Shows(s.world, c.p, PendingGpu, None, ONE) && FreedFor(s.world, c.b, c.p, ONE)
    requires Shows(s.world, c.a, Idle, idle, ONE)
    ensures RuledRun(h, s0, steps', s') && BothFreed(s'.world, c)
  {
    steps', s' := MarkRun(h, s0, steps, s, q, idle, ONE);
  }

  // ----- A write past the re-read -----

  /**
    Steps must be careful: `a` is being freed for `p` when a reconcile past its re-read makes it Active and
    leaves the attribution behind. The next evaluation does not see it in flight and marks `b`; once `a` is
    idle again and falls under the Always policy, its mark brings the old attribution back.
   */
  lemma StaleAttributionOvershoots(p: string, a: string, b: string, q: string, r: string, t: string)
    returns (h: Rules, s0: System, steps: seq<Step>, s: System)
    requires Distinguished(Cast(p, a, b, ONE, ONE, ONE)) && q != "" && r != "" && t != "" && q != r && t != r && q != t
    ensures h == Rules(ByLease, false, true, true, p, RES, ONE_EACH)
    ensures Init(s0) && RuledRun(h, s0, steps, s) && Overshoots(h, s)
  {
    h := Rules(ByLease, false, true, true, p, RES, ONE_EACH);
    var c := Cast(p, a, b, ONE, ONE, ONE);
    var st1, s1, st2, s2, st3, s3, st4, s4;
    s0, st1, s1 := SceneRun(h, c);
    st2, s2 := MarkedAndActive(h, s0, st1, s1, c, q, r, t);
    st3, s3 := IdleAgain(h, s0, st2, s2, c, q, t);
    st4, s4 := OtherMarked(h, s0, st3, s3, c, q, t);
    steps, s := MarkedAlways(h, s0, st4, s4, c, t);
    TwoForOne(h, s, c);
  }

  /** `r` marks `a` while its spec is being rewritten, and the reconcile makes it Active. */
  lemma MarkedAndActive(h: Rules, s0: System, steps: seq<Step>, s: System, c: Cast, q: string, r: string, t: string)
    returns (steps': seq<Step>, s': System)
    requires RuledRun(h, s0, steps, s) && s.lease.None? && s.evals == map[] && r != "" && q != r && t != r
    requires h.apart == ByLease && !h.careful && s.world.clock == 10 && Scene(s.world, c, 0, 5) && OneEach(c)
    ensures RuledRun(h, s0, steps', s') && EvalOf(s', q).Off? && EvalOf(s', t).Off? && LeaseTaken(s', 10)
    ensures s'.world.clock == 10 && s'.world.store.Keys == {c.p, c.a, c.b}
    ensures Shows(s'.world, c.p, PendingGpu, None, ONE)
    ensures Shows(s'.world, c.b, Idle, Some(5), ONE) && Shows(s'.world, c.a, Active, None, ONE)
    ensures VictimOf(s'.world, c.a) == c.p
  {
    var st1, s1 := SpecRun(h, s0, steps, s, c.a, Idle, Some(0), ONE);
    var st2, s2 := PlanOne(h, s0, st1, s1, r, c, 1, 0, 5);
    assert EvalOf(s2, q) == EvalOf(s, q) && EvalOf(s2, t) == EvalOf(s, t);
    steps', s' := MarkedThenActive(h, s0, st2, s2, c, r);
    assert EvalOf(s', q) == EvalOf(s2, q) && EvalOf(s', t) == EvalOf(s2, t);
  }

  lemma MarkedThenActive(h: Rules, s0: System, steps: seq<Step>, s: System, c: Cast, r: string)
    returns (steps': seq<Step>, s': System)
    requires RuledRun(h, s0, steps, s) && MayAct(h, s, r) && !h.careful && PlansTo(EvalOf(s, r), c.a, c.p)
    requires Scene(s.world, c, 0, 5) && OneEach(c) && AboutToReread(s, c.a)
    ensures RuledRun(h, s0, steps', s') && OnlyActs(s, s', r) && s'.lease == s.lease
    ensures OnlyChanged(s.world, s'.world, c.a)
    ensures Shows(s'.world, c.a, Active, None, ONE) && VictimOf(s'.world, c.a) == c.p
  {
    var st1, s1 := MarkRun(h, s0, steps, s, r, Some(0), ONE);
    var st2, s2 := RereadRun(h, s0, st1, s1, c.a);
    steps', s' := LateWrite(h, s0, st2, s2, c.a, ONE);
  }

  /** `a` turns idle at time 20; now it is 40. */
  lemma IdleAgain(h: Rules, s0: System, steps: seq<Step>, s: System, c: Cast, q: string, t: string)
    returns (steps': seq<Step>, s': System)
    requires RuledRun(h, s0, steps, s) && EvalOf(s, q).Off? && EvalOf(s, t).Off? && LeaseTaken(s, 10)
    requires Distinguished(c) && s.world.clock == 10 && s.world.store.Keys == {c.p, c.a, c.b} && OneEach(c)
    requires Shows(s.world, c.p, PendingGpu, None, ONE) && Shows(s.world, c.b, Idle, Some(5), ONE)
    requires Shows(s.world, c.a, Active, None, ONE) && VictimOf(s.world, c.a) == c.p
    ensures RuledRun(h, s0, steps', s') && EvalOf(s', q).Off? && EvalOf(s', t).Off? && LeaseTaken(s', 10)
    ensures s'.world.clock == 40 && Scene(s'.world, Swapped(c), 5, 20) && VictimOf(s'.world, c.a) == c.p
  {
    var st1, s1 := TickRun(h, s0, steps, s, 10);
    var st2, s2 := LookRun(h, s0, st1, s1, c.a, 1, Active, None, ONE);
    steps', s' := TickRun(h, s0, st2, s2, 20);
  }

  /** `q` marks `b`, which has been idle longer; then its lease runs out. */
  lemma OtherMarked(h: Rules, s0: System, steps: seq<Step>, s: System, c: Cast, q: string, t: string)
    returns (steps': seq<Step>, s': System)
    requires RuledRun(h, s0, steps, s) && h.apart == ByLease && EvalOf(s, q).Off? && EvalOf(s, t).Off? && q != ""
    requires q != t
    requires LeaseTaken(s, 10) && s.world.clock == 40 && Scene(s.world, Swapped(c), 5, 20) && OneEach(c)
    requires VictimOf(s.world, c.a) == c.p
    ensures RuledRun(h, s0, steps', s') && EvalOf(s', t).Off? && LeaseTaken(s', 40) && s'.world.clock == 70
    ensures s'.world.store.Keys == {c.p, c.a, c.b} && Shows(s'.world, c.p, PendingGpu, None, ONE)
    ensures FreedFor(s'.world, c.b, c.p, ONE) && Shows(s'.world, c.a, Idle, Some(20), ONE)
    ensures VictimOf(s'.world, c.a) == c.p
  {
    var st1, s1 := PlanOne(h, s0, steps, s, q, Swapped(c), 1, 5, 20);
    assert EvalOf(s1, t) == EvalOf(s, t);
    var st2, s2 := MarkRun(h, s0, st1, s1, q, Some(5), ONE);
    assert EvalOf(s2, t) == EvalOf(s1, t);
    steps', s' := TickRun(h, s0, st2, s2, 30);
  }

  /** `t` finds `a` idle for long, under the Always policy. */
  lemma MarkedAlways(h: Rules, s0: System, steps: seq<Step>, s: System, c: Cast, t: string)
    returns (steps': seq<Step>, s': System)
    requires RuledRun(h, s0, steps, s) && h.apart == ByLease && EvalOf(s, t).Off? && t != "" && LeaseTaken(s, 40)
    requires Distinguished(c) && OneEach(c) && s.world.clock == 70 && s.world.store.Keys == {c.p, c.a, c.b}
    requires Shows(s.world, c.p, PendingGpu, None, ONE) && FreedFor(s.world, c.b, c.p, ONE)
    requires Shows(s.world, c.a, Idle, Some(20), ONE) && VictimOf(s.world, c.a) == c.p
    ensures RuledRun(h, s0, steps', s') && BothFreed(s'.world, c)
  {
    var st1, s1 := LeaseRun(h, s0, steps, s, t);
    var st2, s2 := AlwaysFirst(h, s0, st1, s1, t, c);
    steps', s' := MarkRun(h, s0, st2, s2, t, Some(20), ONE);
  }

  lemma AlwaysFirst(h: Rules, s0: System, steps: seq<Step>, s: System, t: string, c: Cast)
    returns (steps': seq<Step>, s': System)
    requires RuledRun(h, s0, steps, s) && MayAct(h, s, t) && EvalOf(s, t).Listing?
    requires Distinguished(c) && s.world.clock == 70 && s.world.store.Keys == {c.p, c.a, c.b}
    requires Shows(s.world, c.a, Idle, Some(20), ONE)
    ensures RuledRun(h, s0, steps', s') && s'.world == s.world && MayAct(h, s', t)
    ensures var e := EvalOf(s', t);
      e.Classifying? && e.copy.None? && e.mark.Some? && e.mark.value.pending == "" && e.mark.value.victim.gw.name == c.a
  {
    var st1, s1 := ListRun(h, s0, steps, s, t, [c.a, c.p, c.b]);
    steps', s' := ThinkRun(h, s0, st1, s1, t, ClassifyNext(5, true));
  }

  // ----- Two resources -----

  lemma TakeOne(e: Entry, rest: seq<Entry>, r: string, claimed: set<string>, demand: int)
    requires Uid(e) !in claimed && Gpus(e, r) >= demand > 0
    ensures Take([e] + rest, r, claimed, demand) == [e] && Total([e], r) == Gpus(e, r)
  {
    assert ([e] + rest)[1..] == rest;
  }

  lemma ServeOne(p: Entry, pool: seq<Entry>, r: string, claimed: set<string>, v: Entry)
    requires Gpus(p, r) > 0 && Take(pool, r, claimed, Gpus(p, r)) == [v] && Total([v], r) >= Gpus(p, r)
    ensures MatchResource([p], pool, r, [], claimed) == ([Group(p, r, Gpus(p, r), [v])], claimed + {Uid(v)})
  {
    assert v in [v] && Uids([v]) == {Uid(v)};
    assert Residual(p, r, []) == Gpus(p, r);
    assert [p][1..] == [];
    assert MatchResource([], pool, r, [], claimed + {Uid(v)}) == ([], claimed + {Uid(v)});
    assert [Group(p, r, Gpus(p, r), [v])] + [] == [Group(p, r, Gpus(p, r), [v])];
  }

  /**
    Claims are per victim but demand is matched per resource: a workload that waits for two resources
    gets a second victim although the first one alone frees enough of both.
   */
  lemma SecondResourceTakesAnother(p: Entry, a: Entry, b: Entry, r1: string, r2: string)
    requires r1 != r2 && Gpus(p, r1) > 0 && Gpus(p, r2) > 0 && Uid(a) != Uid(b)
    requires Gpus(a, r1) >= Gpus(p, r1) && Gpus(a, r2) >= Gpus(p, r2) && Gpus(b, r2) >= Gpus(p, r2)
    ensures Match([r1, r2], map[r1 := [p], r2 := [p]], map[r1 := [a], r2 := [a, b]], [], {}).0 ==
      [Group(p, r1, Gpus(p, r1), [a]), Group(p, r2, Gpus(p, r2), [b])]
  {
    var pending, idle := map[r1 := [p], r2 := [p]], map[r1 := [a], r2 := [a, b]];
    TakeOne(a, [], r1, {}, Gpus(p, r1));
    assert [a] + [] == [a];
    ServeOne(p, [a], r1, {}, a);
    assert [a, b][1..] == [b] + [];
    TakeOne(b, [], r2, {Uid(a)}, Gpus(p, r2));
    assert Take([a, b], r2, {Uid(a)}, Gpus(p, r2)) == [b];
    assert {} + {Uid(a)} == {Uid(a)};
    ServeOne(p, [a, b], r2, {Uid(a)}, b);
    assert [r1, r2][1..] == [r2] && [r2][1..] == [];
    assert Match([], pending, idle, [], {Uid(a)} + {Uid(b)}).0 == [];
  }

  const BOTH := map[RES := 1, OTHER := 1]
  const SECOND := map[OTHER := 1]

  ghost function TwoPick(ep: Entry, ea: Entry, eb: Entry, r1: string, r2: string): Picks {
    Picks([r1, r2], map[r1 := [ep], r2 := [ep]], map[r1 := [ea], r2 := [ea, eb]], [ea, eb])
  }

  lemma TwoLists(ea: Entry, eb: Entry, r1: string, r2: string, q: string)
    requires r1 != r2 && ea.gw.rec.spec.gpu.Keys == {r1, r2} && eb.gw.rec.spec.gpu.Keys == {r2}
    ensures OfResource([ea], q) == if q == r1 || q == r2 then [ea] else []
    ensures OfResource([ea, eb], q) == if q == r1 then [ea] else if q == r2 then [ea, eb] else []
  {
    assert [ea, eb][..1] == [ea] && [ea][..0] == [];
  }

  lemma TwoPlan(ep: Entry, ea: Entry, eb: Entry, r1: string, r2: string)
    requires r1 != r2 && ep.gw.rec.spec.gpu == map[r1 := 1, r2 := 1] && Uid(ea) != Uid(eb)
    requires ea.gw.rec.spec.gpu == map[r1 := 1, r2 := 1] && eb.gw.rec.spec.gpu == map[r2 := 1]
    ensures var k := TwoPick(ep, ea, eb, r1, r2);
      Plans(Plan(Match(k.order, k.pending, k.idle, [], {}).0), k.victims, ep.gw.name)
  {
    SecondResourceTakesAnother(ep, ea, eb, r1, r2);
    var g1, g2 := Group(ep, r1, 1, [ea]), Group(ep, r2, 1, [eb]);
    assert [g1, g2][1..] == [g2] && [g2][1..] == [];
    assert Plan([g2]) == GroupMarks(g2) + [];
  }

  lemma TwoPending(ep: Entry, other: Entry, r1: string, r2: string)
    requires r1 != r2 && ep.gw.rec.spec.gpu.Keys == {r1, r2} && other.gw.rec.spec.gpu.Keys == {r2}
    ensures Distinct([r1, r2]) && forall q :: q in [r1, r2] <==> OfResource([ep], q) != []
    ensures SortsOf(map[r1 := [ep], r2 := [ep]], [ep], [r1, r2], false)
  {
    forall q
      ensures OfResource([ep], q) == if q == r1 || q == r2 then [ep] else []
    {
      TwoLists(ep, other, r1, r2, q);
    }
    Sorted(map[r1 := [ep], r2 := [ep]], [ep], [r1, r2], false);
  }

  lemma TwoIdle(ea: Entry, eb: Entry, r1: string, r2: string)
    requires r1 != r2 && ea.gw.rec.spec.gpu.Keys == {r1, r2} && eb.gw.rec.spec.gpu.Keys == {r2}
    requires ea.idleSince < eb.idleSince
    ensures SortsOf(map[r1 := [ea], r2 := [ea, eb]], [ea, eb], [r1, r2], true)
  {
    TwoLists(ea, eb, r1, r2, r1);
    TwoLists(ea, eb, r1, r2, r2);
    Sorted(map[r1 := [ea], r2 := [ea, eb]], [ea, eb], [r1, r2], true);
  }

  lemma TwoPicks(ep: Entry, ea: Entry, eb: Entry, r1: string, r2: string) returns (k: Picks)
    requires r1 != r2 && ep.gw.rec.spec.gpu == map[r1 := 1, r2 := 1] && Uid(ea) != Uid(eb)
    requires ea.idleSince < eb.idleSince
    requires ea.gw.rec.spec.gpu == map[r1 := 1, r2 := 1] && eb.gw.rec.spec.gpu == map[r2 := 1]
    ensures PicksFor(k, ep, ea, eb) && k.victims == [ea, eb]
  {
    k := TwoPick(ep, ea, eb, r1, r2);
    TwoPlan(ep, ea, eb, r1, r2);
    TwoPending(ep, eb, r1, r2);
    TwoIdle(ea, eb, r1, r2);
  }

  /** The workload must name one resource: by one replica and within its lease, it gets two victims for one GPU. */
  lemma SecondResourceOvershoots(p: string, a: string, b: string)
    returns (h: Rules, s0: System, steps: seq<Step>, s: System)
    requires Distinguished(Cast(p, a, b, BOTH, BOTH, SECOND))
    ensures h == Rules(ByLease, true, false, true, p, OTHER, ONE_EACH)
    ensures Init(s0) && RuledRun(h, s0, steps, s) && Overshoots(h, s)
  {
    h := Rules(ByLease, true, false, true, p, OTHER, ONE_EACH);
    var c := Cast(p, a, b, BOTH, BOTH, SECOND);
    var st1, s1, st2, s2;
    s0, st1, s1 := SceneRun(h, c);
    var ep, ea, eb := Pending(s1.world, p), Victim(s1.world, a, 0, 5), Victim(s1.world, b, 5, 5);
    assert RES[0] != OTHER[0];
    var k := TwoPicks(ep, ea, eb, RES, OTHER);
    st2, s2 := PlanRun(h, s0, st1, s1, "r", c, 0, 5, k);
    steps, s := BothMarked(h, s0, st2, s2, "r", c);
    TwoForOne(h, s, c);
  }
}
