/**
  No over-preemption: for a pending workload that names one GPU resource, in a cluster with any number of
  them, the victims being freed for it never exceed its demand by a whole victim, in every run in which
  counts are fixed and no evaluation marks a victim for it from a listing that another evaluation's mark
  for it has outdated. The lease gives that as long as evaluations act within it, and so does any other way of
  keeping evaluations apart.
 */
module PreemptionBounds {
  import opened Common
  import opened GpuRecords
  import opened Victims
  import opened VictimsOrder
  import opened Preemption
  import opened PreemptionSafety
  import opened PreemptionLegality
  import opened PreemptionTheorems

  // ----- Sums over sets of workloads -----

  ghost function Sum(names: set<string>, count: string -> nat): nat {
    if names == {} then 0
    else
      var x :| x in names;
      count(x) + Sum(names - {x}, count)
  }

  lemma {:induction false} SumRemove(names: set<string>, count: string -> nat, x: string)
    requires x in names
    ensures Sum(names, count) == count(x) + Sum(names - {x}, count)
    decreases |names|
  {
    var y :| y in names && Sum(names, count) == count(y) + Sum(names - {y}, count);
    if y != x {
      SumRemove(names - {y}, count, x);
      SumRemove(names - {x}, count, y);
      assert names - {y} - {x} == names - {x} - {y};
    }
  }

  lemma {:induction false} SumSubset(a: set<string>, b: set<string>, count: string -> nat)
    requires a <= b
    ensures Sum(a, count) <= Sum(b, count)
    decreases |a|
  {
    if a != {} {
      var x :| x in a;
      SumRemove(a, count, x);
      SumRemove(b, count, x);
      SumSubset(a - {x}, b - {x}, count);
    }
  }

  lemma {:induction false} SumUnion(a: set<string>, b: set<string>, count: string -> nat)
    ensures Sum(a + b, count) <= Sum(a, count) + Sum(b, count)
    decreases |a|
  {
    if a == {} {
      assert a + b == b;
    } else {
      var x :| x in a;
      SumRemove(a, count, x);
      SumRemove(a + b, count, x);
      SumUnion(a - {x}, b, count);
      SumSubset(a + b - {x}, a - {x} + b, count);
    }
  }

  /** Nothing, or something that falls short of the demand once one member is left out. */
  ghost predicate Bounded(names: set<string>, demand: int, count: string -> nat) {
    names == {} || exists x :: x in names && Sum(names - {x}, count) < demand
  }

  lemma BoundedSubset(a: set<string>, b: set<string>, demand: int, count: string -> nat)
    requires a <= b && Bounded(b, demand, count)
    ensures Bounded(a, demand, count)
  {
    if a != {} {
      var x :| x in b && Sum(b - {x}, count) < demand;
      if x in a {
        SumSubset(a - {x}, b - {x}, count);
      } else {
        var y :| y in a;
        SumSubset(a - {y}, b - {x}, count);
      }
    }
  }

  // ----- Victims per pending workload -----

  /** The victims being freed for `p`. */
  ghost function Attributed(store: map<string, Stored>, p: string): set<string> {
    set n | n in store && store[n].rec.status.phase == Preempting && store[n].rec.status.preemptedFor == p
  }

  ghost predicate FreesFor(s: Snapshot, p: string) {
    s.rec.status.phase == Preempting && s.rec.status.preemptedFor == p
  }

  /** Those among the first `at` listed workloads. */
  ghost function ListedFor(listing: seq<Snapshot>, at: nat, p: string): set<string>
    requires at <= |listing|
  {
    set i | 0 <= i < at && FreesFor(listing[i], p) :: listing[i].name
  }

  ghost function PlannedFor(plan: seq<Mark>, p: string): set<string> {
    set m | m in plan && m.pending == p :: m.victim.gw.name
  }

  /** The workload `p` names no resource but `res`. */
  ghost predicate NamesOnly(rec: Record, name: string, p: string, res: string) {
    name == p ==> rec.spec.gpu.Keys <= {res}
  }

  ghost predicate FixedCount(rec: Record, name: string, p: string, res: string, count: string -> nat) {
    NamesOnly(rec, name, p, res) && Count(rec.spec.gpu, res) == count(name)
  }

  ghost predicate OneResource(s: System, p: string, res: string) {
    forall n :: n in s.world.store ==> NamesOnly(s.world.store[n].rec, n, p, res)
  }

  /** The counts of one resource do not change. */
  ghost predicate SameCounts(s: System, res: string, count: string -> nat) {
    forall n :: n in s.world.store ==> Count(s.world.store[n].rec.spec.gpu, res) == count(n)
  }

  /** The workload `p` names one GPU resource, and counts of that resource never change. */
  ghost predicate FixedCounts(s: System, p: string, res: string, count: string -> nat) {
    forall n :: n in s.world.store ==> FixedCount(s.world.store[n].rec, n, p, res, count)
  }

  // ----- Runs in which no mark relies on an outdated listing -----

  /** The step commits a mark for `p`. */
  ghost predicate MarksFor(s: System, step: Step, p: string)
    requires Enabled(s, step)
  {
    && step.ByEvaluator? && step.eval.MarkWrite?
    && CurrentMark(EvalOf(s, step.r)).value.pending == p
    && Apply(s, step).world != s.world
  }

  /** The replicas whose last listing shows every mark for `p` but their own. */
  ghost function Informed(s: System, step: Step, p: string, informed: set<string>): set<string>
    requires Enabled(s, step)
  {
    if step.ByEvaluator? && step.eval.List? then informed + {step.r}
    else if MarksFor(s, step, p) then informed * {step.r}
    else informed
  }

  /** Counts are fixed, and a replica marks for `p` only if nobody else did since it listed. */
  ghost predicate InformedRun(s: System, steps: seq<Step>, s': System, informed: set<string>, p: string, res: string,
                              count: string -> nat)
    decreases |steps|
  {
    FixedCounts(s, p, res, count) &&
    if steps == [] then s' == s
    else
      && Enabled(s, steps[0]) && Careful(s, steps[0])
      && (MarksFor(s, steps[0], p) ==> steps[0].r in informed)
      && InformedRun(Apply(s, steps[0]), steps[1..], s', Informed(s, steps[0], p, informed), p, res, count)
  }

  // ----- The invariant -----

  ghost predicate DistinctNames(es: seq<Entry>) {
    forall i, j :: 0 <= i < j < |es| ==> es[i].gw.name != es[j].gw.name
  }

  ghost predicate DistinctListing(listing: seq<Snapshot>) {
    forall i, j :: 0 <= i < j < |listing| ==> listing[i].name != listing[j].name
  }

  /** A listing of distinct workloads with the fixed counts. */
  ghost predicate FixedListing(listing: seq<Snapshot>, p: string, res: string, count: string -> nat) {
    DistinctListing(listing) && forall s :: s in listing ==> FixedCount(s.rec, s.name, p, res, count)
  }

  /** What classification has collected from the first `at` listed workloads. */
  ghost predicate Collected(listing: seq<Snapshot>, at: nat, acc: Classified, p: string, res: string,
                            count: string -> nat)
    requires at <= |listing|
  {
    && FreeingFor(acc.inFlight, p, res) == Sum(ListedFor(listing, at, p), count)
    && PendingListed(listing, at, acc.pending)
    && IdleListed(listing, acc.idle)
  }

  ghost predicate IdleListed(listing: seq<Snapshot>, idle: seq<Entry>) {
    forall e :: e in idle ==> e.gw in listing
  }

  /** Distinct listed workloads, none of which is still to come. */
  ghost predicate PendingListed(listing: seq<Snapshot>, at: nat, pending: seq<Entry>) {
    && DistinctNames(pending)
    && (forall e :: e in pending ==> e.gw in listing)
    && (forall e, j :: e in pending && at <= j < |listing| ==> e.gw.name != listing[j].name)
  }

  ghost predicate ClassifyingBound(store: map<string, Stored>, listing: seq<Snapshot>, at: nat, acc: Classified,
                                   p: string, res: string, count: string -> nat)
  {
    && at <= |listing|
    && FixedListing(listing, p, res, count)
    && Collected(listing, at, acc, p, res, count)
    && Attributed(store, p) <= ListedFor(listing, |listing|, p)
    && Bounded(ListedFor(listing, |listing|, p), count(p), count)
  }

  ghost predicate EvalBound(store: map<string, Stored>, e: Eval, p: string, res: string, count: string -> nat) {
    match e
    case Classifying(_, listing, _, at, acc, mark, _) =>
      && ClassifyingBound(store, listing, at, acc, p, res, count)
      && (mark.Some? ==> mark.value.pending == "")
    case Marking(_, listing, _, plan, done, _) =>
      && done <= |plan|
      && Attributed(store, p) <= ListedFor(listing, |listing|, p) + PlannedFor(plan[..done], p)
      && Bounded(ListedFor(listing, |listing|, p) + PlannedFor(plan, p), count(p), count)
    case _ => true
  }

  ghost predicate BoundInv(s: System, informed: set<string>, p: string, res: string, count: string -> nat) {
    && Bounded(Attributed(s.world.store, p), count(p), count)
    && (forall r :: r in informed ==> EvalBound(s.world.store, EvalOf(s, r), p, res, count))
  }

  // ----- Steps that mark nobody for the workload -----

  lemma WriteShrinks(w: World, w': World, e: Event, p: string)
    requires OneWrite(w, w', e) && LegalEvent(e) && e.cause != ByMark
    ensures Attributed(w'.store, p) <= Attributed(w.store, p)
  {
  }

  lemma WorkShrinks(s: System, step: Step, p: string)
    requires Inv(s) && Legal(s) && Enabled(s, step) && Careful(s, step) && step.ByWorker?
    ensures Attributed(Apply(s, step).world.store, p) <= Attributed(s.world.store, p)
  {
    var w, w' := s.world, Apply(s, step).world;
    KeepsLegal(s, step);
    WorkLogged(w, WorkerOf(s, step.k), step.work);
    if !SameRecords(w, w') {
      var e :| OneWrite(w, w', e) && e.cause != ByMark;
      assert e == w'.log[|w.log|] && e in w'.log;
      WriteShrinks(w, w', e, p);
    }
  }

  lemma OtherMarksShrink(s: System, step: Step, p: string)
    requires Inv(s) && Legal(s) && Enabled(s, step) && Careful(s, step) && !MarksFor(s, step, p) && p != ""
    ensures Attributed(Apply(s, step).world.store, p) <= Attributed(s.world.store, p)
  {
    if step.ByWorker? {
      WorkShrinks(s, step, p);
    } else if step.ByEvaluator? {
      var w, w' := s.world, Apply(s, step).world;
      if step.eval.MarkWrite? {
        MarkAdds(w, EvalOf(s, step.r), step.eval.reason, p);
      } else {
        EvaluateLogged(w, EvalOf(s, step.r), step.eval);
      }
    }
  }

  lemma EvalBoundShrinks(store: map<string, Stored>, store': map<string, Stored>, e: Eval, p: string, res: string,
                         count: string -> nat)
    requires EvalBound(store, e, p, res, count)
    requires Attributed(store', p) <= Attributed(store, p)
    ensures EvalBound(store', e, p, res, count)
  {
  }

  // ----- Listing and classifying -----

  lemma ListBound(w: World, e: Eval, names: seq<string>, p: string, res: string, count: string -> nat)
    requires EvalEnabled(w, e, List(names))
    requires forall n :: n in w.store ==> FixedCount(w.store[n].rec, n, p, res, count)
    requires Bounded(Attributed(w.store, p), count(p), count)
    ensures EvalBound(w.store, Evaluate(w, e, List(names)).1, p, res, count)
  {
    var listing := Snapshots(w, names);
    assert ListedFor(listing, 0, p) == {};
    assert ListedFor(listing, |listing|, p) == Attributed(w.store, p) by {
      forall n | n in Attributed(w.store, p)
        ensures n in ListedFor(listing, |listing|, p)
      {
        var i :| 0 <= i < |names| && names[i] == n;
        assert listing[i] == SnapshotOf(w, n) && FreesFor(listing[i], p);
      }
    }
    assert Collected(listing, 0, NOTHING, p, res, count);
  }

  lemma ListedForNext(listing: seq<Snapshot>, at: nat, p: string)
    requires at < |listing| && DistinctListing(listing)
    ensures ListedFor(listing, at + 1, p) ==
      if FreesFor(listing[at], p) then ListedFor(listing, at, p) + {listing[at].name} else ListedFor(listing, at, p)
    ensures listing[at].name !in ListedFor(listing, at, p)
  {
  }

  lemma FreeingAdd(acc: Classified, l: Listed, now: int, p: string, res: string)
    requires p != ""
    ensures FreeingFor(Add(acc, l, now).inFlight, p, res)
         == FreeingFor(acc.inFlight, p, res) + if FreesFor(l.w, p) then Count(l.w.rec.spec.gpu, res) else 0
  {
    var inFlight := Add(acc, l, now).inFlight;
    if Judge(l, now) == Freeing {
      assert inFlight[..|inFlight| - 1] == acc.inFlight;
    } else {
      assert inFlight == acc.inFlight && !FreesFor(l.w, p);
    }
  }

  lemma SumAdd(names: set<string>, x: string, count: string -> nat)
    requires x !in names
    ensures Sum(names + {x}, count) == Sum(names, count) + count(x)
  {
    SumRemove(names + {x}, count, x);
    assert names + {x} - {x} == names;
  }

  /** In-flight capacity counted so far is the capacity of the listed victims of `p`. */
  lemma FreeingNext(listing: seq<Snapshot>, at: nat, acc: Classified, l: Listed, now: int, p: string, res: string,
                    count: string -> nat)
    requires at < |listing| && l.w == listing[at] && DistinctListing(listing) && p != ""
    requires FixedCount(l.w.rec, l.w.name, p, res, count)
    requires FreeingFor(acc.inFlight, p, res) == Sum(ListedFor(listing, at, p), count)
    ensures FreeingFor(Add(acc, l, now).inFlight, p, res) == Sum(ListedFor(listing, at + 1, p), count)
  {
    ListedForNext(listing, at, p);
    FreeingAdd(acc, l, now, p, res);
    SumAdd(ListedFor(listing, at, p), l.w.name, count);
  }

  lemma CollectedNext(listing: seq<Snapshot>, at: nat, acc: Classified, l: Listed, now: int, p: string, res: string,
                      count: string -> nat)
    requires at < |listing| && l.w == listing[at] && FixedListing(listing, p, res, count) && p != ""
    requires Collected(listing, at, acc, p, res, count)
    ensures Collected(listing, at + 1, Add(acc, l, now), p, res, count)
  {
    assert l.w in listing;
    FreeingNext(listing, at, acc, l, now, p, res, count);
    PendingNext(listing, at, acc, l, now);
    IdleNext(listing, acc, l, now);
  }

  lemma IdleNext(listing: seq<Snapshot>, acc: Classified, l: Listed, now: int)
    requires l.w in listing && IdleListed(listing, acc.idle)
    ensures IdleListed(listing, Add(acc, l, now).idle)
  {
  }

  lemma PendingNext(listing: seq<Snapshot>, at: nat, acc: Classified, l: Listed, now: int)
    requires at < |listing| && l.w == listing[at] && DistinctListing(listing) && PendingListed(listing, at, acc.pending)
    ensures PendingListed(listing, at + 1, Add(acc, l, now).pending)
  {
  }

  lemma ClassifyBound(w: World, e: Eval, grace: int, always: bool, p: string, res: string, count: string -> nat)
    requires EvalEnabled(w, e, ClassifyNext(grace, always)) && EvalBound(w.store, e, p, res, count) && p != ""
    ensures EvalBound(w.store, Evaluate(w, e, ClassifyNext(grace, always)).1, p, res, count)
  {
    ClassifyFields(w, e, grace, always);
    var l := Listed(e.listing[e.at], grace, always);
    ClassifiedBound(w.store, e, Evaluate(w, e, ClassifyNext(grace, always)).1, l, w.clock, p, res, count);
  }

  /** What one round of classification leaves in the evaluation. */
  ghost predicate ClassifiesNext(e: Eval, e': Eval, l: Listed, now: int) {
    && e.Classifying? && e.at < |e.listing| && l.w == e.listing[e.at]
    && e'.Classifying? && e'.listing == e.listing && e'.at == e.at + 1 && e'.acc == Add(e.acc, l, now)
    && (e'.mark.Some? ==> e'.mark.value.pending == "")
  }

  lemma ClassifyFields(w: World, e: Eval, grace: int, always: bool)
    requires EvalEnabled(w, e, ClassifyNext(grace, always))
    ensures var l := Listed(e.listing[e.at], grace, always);
      ClassifiesNext(e, Evaluate(w, e, ClassifyNext(grace, always)).1, l, w.clock)
  {
  }

  lemma ClassifiedBound(store: map<string, Stored>, e: Eval, e': Eval, l: Listed, now: int, p: string, res: string,
                        count: string -> nat)
    requires ClassifiesNext(e, e', l, now) && EvalBound(store, e, p, res, count) && p != ""
    ensures EvalBound(store, e', p, res, count)
  {
    ClassifyingNext(store, e.listing, e.at, e.acc, l, now, p, res, count);
  }

  lemma ClassifyingNext(store: map<string, Stored>, listing: seq<Snapshot>, at: nat, acc: Classified, l: Listed,
                        now: int,
                        p: string, res: string, count: string -> nat)
    requires at < |listing| && l.w == listing[at] && p != "" && ClassifyingBound(store, listing, at, acc, p, res, count)
    ensures ClassifyingBound(store, listing, at + 1, Add(acc, l, now), p, res, count)
  {
    CollectedNext(listing, at, acc, l, now, p, res, count);
  }

  // ----- Matching -----

  ghost function NamesOf(vs: seq<Entry>): set<string> {
    set v | v in vs :: v.gw.name
  }

  lemma NamesConcat(a: seq<Entry>, b: seq<Entry>)
    ensures NamesOf(a + b) == NamesOf(a) + NamesOf(b)
  {
    assert forall v :: v in a + b <==> v in a || v in b;
  }

  lemma NameOfOne(v: Entry)
    ensures NamesOf([v]) == {v.gw.name}
  {
    assert v in [v];
  }

  lemma {:induction false} NamesOfVictims(vs: seq<Entry>, res: string, count: string -> nat)
    requires forall v :: v in vs ==> Gpus(v, res) == count(v.gw.name)
    ensures Sum(NamesOf(vs), count) <= Total(vs, res)
  {
    if vs != [] {
      var x := vs[0].gw.name;
      NamesOfVictims(vs[1..], res, count);
      assert vs == [vs[0]] + vs[1..];
      NamesConcat([vs[0]], vs[1..]);
      NameOfOne(vs[0]);
      SumUnion({x}, NamesOf(vs[1..]), count);
      SumRemove({x}, count, x);
      assert {x} - {x} == {};
    }
  }

  /** At most one group for each pending workload and resource. */
  ghost predicate OneGroupPerResource(gs: seq<Group>) {
    forall g, h :: g in gs && h in gs && g.pending.gw.name == h.pending.gw.name && g.resource == h.resource ==> g == h
  }

  lemma {:induction false} GroupsDistinct(ps: seq<Entry>, pool: seq<Entry>, r: string, inFlight: seq<Snapshot>,
                                          claimed: set<string>)
    requires DistinctNames(ps)
    ensures forall g :: g in MatchResource(ps, pool, r, inFlight, claimed).0 ==> g.pending in ps && g.resource == r
    ensures OneGroupPerResource(MatchResource(ps, pool, r, inFlight, claimed).0)
    decreases |ps|
  {
    if ps != [] {
      var d := Residual(ps[0], r, inFlight);
      var vs := Take(pool, r, claimed, d);
      GroupsDistinct(ps[1..], pool, r, inFlight, claimed);
      GroupsDistinct(ps[1..], pool, r, inFlight, claimed + Uids(vs));
      assert forall e :: e in ps[1..] ==> e in ps && e.gw.name != ps[0].gw.name;
    }
  }

  lemma {:induction false} MatchDistinct(order: seq<string>, pending: map<string, seq<Entry>>,
                                         idle: map<string, seq<Entry>>,
                                        inFlight: seq<Snapshot>, claimed: set<string>)
    requires Distinct(order) && forall r :: r in order ==> DistinctNames(Lookup(pending, r))
    ensures forall g :: g in Match(order, pending, idle, inFlight, claimed).0 ==> g.resource in order
    ensures OneGroupPerResource(Match(order, pending, idle, inFlight, claimed).0)
  {
    if order != [] {
      var r := order[0];
      assert r in order && r !in order[1..];
      var (gs, c) := MatchResource(Lookup(pending, r), Lookup(idle, r), r, inFlight, claimed);
      GroupsDistinct(Lookup(pending, r), Lookup(idle, r), r, inFlight, claimed);
      MatchDistinct(order[1..], pending, idle, inFlight, c);
    }
  }

  lemma PlanContains(gs: seq<Group>, g: Group, v: Entry)
    requires g in gs && v in g.victims
    ensures Mark(v, g.pending.gw.name) in Plan(gs)
  {
    if g == gs[0] {
      var i :| 0 <= i < |g.victims| && g.victims[i] == v;
      assert GroupMarks(g)[i] == Mark(v, g.pending.gw.name);
      assert GroupMarks(g)[i] in GroupMarks(g);
    } else {
      PlanContains(gs[1..], g, v);
    }
  }

  /** The victims planned for one group, together with those in flight, stay bounded. */
  lemma GroupBounded(listed: set<string>, g: Group, res: string, count: string -> nat, pool: seq<Entry>,
                     inFlight: seq<Snapshot>)
    requires Sound(g, pool, inFlight) && g.resource == res
    requires forall v :: v in g.victims ==> Gpus(v, res) == count(v.gw.name)
    requires Gpus(g.pending, res) == count(g.pending.gw.name)
    requires FreeingFor(inFlight, g.pending.gw.name, res) == Sum(listed, count)
    ensures Bounded(listed + NamesOf(g.victims), count(g.pending.gw.name), count)
  {
    var vs := g.victims;
    var init, last := vs[..|vs| - 1], vs[|vs| - 1].gw.name;
    NamesOfVictims(init, res, count);
    assert vs == init + [vs[|vs| - 1]];
    NamesConcat(init, [vs[|vs| - 1]]);
    NameOfOne(vs[|vs| - 1]);
    SumUnion(listed, NamesOf(init), count);
    OneOver(listed, NamesOf(init), last, count(g.pending.gw.name), count);
    assert listed + NamesOf(vs) == listed + NamesOf(init) + {last};
  }

  lemma OneOver(a: set<string>, b: set<string>, last: string, demand: int, count: string -> nat)
    requires Sum(a + b, count) < demand
    ensures Bounded(a + b + {last}, demand, count)
  {
    assert last in a + b + {last};
    SumSubset(a + b + {last} - {last}, a + b, count);
  }

  lemma MatchBound(w: World, e: Eval, order: seq<string>, pending: map<string, seq<Entry>>,
                   idle: map<string, seq<Entry>>,
                   p: string, res: string, count: string -> nat)
    requires EvalEnabled(w, e, MatchVictims(order, pending, idle)) && EvalBound(w.store, e, p, res, count)
    ensures EvalBound(w.store, Evaluate(w, e, MatchVictims(order, pending, idle)).1, p, res, count)
  {
    GroupsOfMatch(e, order, pending, idle, p, res, count);
    PlanBounded(ListedFor(e.listing, |e.listing|, p), order, pending, idle, e.acc.inFlight, p, res, count);
  }

  /** A group for `p` is about its one resource, with the fixed counts. */
  ghost predicate FixedGroup(g: Group, p: string, res: string, count: string -> nat) {
    g.pending.gw.name == p ==>
      && g.resource == res
      && Gpus(g.pending, res) == count(p)
      && forall v :: v in g.victims ==> Gpus(v, res) == count(v.gw.name)
  }

  lemma PlanBounded(listed: set<string>, order: seq<string>, pending: map<string, seq<Entry>>,
                    idle: map<string, seq<Entry>>,
                    inFlight: seq<Snapshot>, p: string, res: string, count: string -> nat)
    requires var gs := Match(order, pending, idle, inFlight, {}).0;
      OneGroupPerResource(gs) && forall g :: g in gs ==> FixedGroup(g, p, res, count)
    requires FreeingFor(inFlight, p, res) == Sum(listed, count)
    requires Bounded(listed, count(p), count)
    ensures Bounded(listed + PlannedFor(Plan(Match(order, pending, idle, inFlight, {}).0), p), count(p), count)
  {
    var gs := Match(order, pending, idle, inFlight, {}).0;
    if g :| g in gs && g.pending.gw.name == p {
      MatchProperties(order, pending, idle, inFlight, {});
      var k :| 0 <= k < |gs| && gs[k] == g;
      assert FixedGroup(g, p, res, count) && Sound(gs[k], Lookup(idle, res), inFlight);
      PlannedForGroup(gs, g, p, res, count);
      GroupBounded(listed, g, res, count, Lookup(idle, res), inFlight);
    } else {
      PlannedForNone(gs, p);
      assert listed + {} == listed;
    }
  }

  lemma PlannedForGroup(gs: seq<Group>, g: Group, p: string, res: string, count: string -> nat)
    requires OneGroupPerResource(gs) && g in gs && g.pending.gw.name == p
    requires forall h :: h in gs ==> FixedGroup(h, p, res, count)
    ensures PlannedFor(Plan(gs), p) == NamesOf(g.victims)
  {
    forall m | m in Plan(gs) && m.pending == p
      ensures m.victim in g.victims
    {
      PlanMembers(gs, m);
      var h, v :| h in gs && v in h.victims && m == Mark(v, h.pending.gw.name);
      assert FixedGroup(h, p, res, count) && FixedGroup(g, p, res, count);
    }
    forall v | v in g.victims
      ensures v.gw.name in PlannedFor(Plan(gs), p)
    {
      PlanContains(gs, g, v);
      var m := Mark(v, p);
      assert m in Plan(gs) && m.victim.gw.name == v.gw.name;
    }
  }

  lemma PlannedForNone(gs: seq<Group>, p: string)
    requires forall g :: g in gs ==> g.pending.gw.name != p
    ensures PlannedFor(Plan(gs), p) == {}
  {
    forall m | m in Plan(gs)
      ensures m.pending != p
    {
      PlanMembers(gs, m);
    }
  }

  /** The workload has at most one group, for its one resource, whatever others ask for. */
  lemma GroupsOfMatch(e: Eval, order: seq<string>, pending: map<string, seq<Entry>>, idle: map<string, seq<Entry>>,
                      p: string, res: string, count: string -> nat)
    requires e.Classifying? && e.at == |e.listing| && Collected(e.listing, e.at, e.acc, p, res, count)
    requires FixedListing(e.listing, p, res, count)
    requires Distinct(order) && SortsOf(pending, e.acc.pending, order, false) && SortsOf(idle, e.acc.idle, order, true)
    ensures var gs := Match(order, pending, idle, e.acc.inFlight, {}).0;
      OneGroupPerResource(gs) && forall g :: g in gs ==> FixedGroup(g, p, res, count)
  {
    var acc := e.acc;
    forall q | q in order
      ensures DistinctNames(Lookup(pending, q))
    {
      assert SortOf(Lookup(pending, q), acc.pending, q, false);
      SortedDistinct(Lookup(pending, q), acc.pending, q);
    }
    MatchDistinct(order, pending, idle, acc.inFlight, {});
    MatchProperties(order, pending, idle, acc.inFlight, {});
    forall g | g in Match(order, pending, idle, acc.inFlight, {}).0
      ensures FixedGroup(g, p, res, count)
    {
      var q := g.resource;
      assert SortOf(Lookup(pending, q), acc.pending, q, false) && SortOf(Lookup(idle, q), acc.idle, q, true);
      PermutationMember(Lookup(pending, q), OfResource(acc.pending, q), g.pending);
      assert FixedCount(g.pending.gw.rec, g.pending.gw.name, p, res, count);
      if g.pending.gw.name == p {
        assert q in g.pending.gw.rec.spec.gpu && q == res;
        forall v | v in g.victims
          ensures Gpus(v, res) == count(v.gw.name)
        {
          VictimInPool(order, pending, idle, acc.inFlight, g, v);
          PermutationMember(Lookup(idle, q), OfResource(acc.idle, q), v);
          assert FixedCount(v.gw.rec, v.gw.name, p, res, count);
        }
      }
    }
  }

  lemma SortedDistinct(ps: seq<Entry>, es: seq<Entry>, r: string)
    requires DistinctNames(es) && Permutation(ps, OfResource(es, r))
    ensures DistinctNames(ps)
  {
    OfResourceDistinct(es, r);
    PermutationDistinct(OfResource(es, r), ps);
    forall i, j | 0 <= i < j < |ps|
      ensures ps[i].gw.name != ps[j].gw.name
    {
      PermutationMember(ps, OfResource(es, r), ps[i]);
      PermutationMember(ps, OfResource(es, r), ps[j]);
    }
  }

  lemma {:induction false} OfResourceDistinct(es: seq<Entry>, r: string)
    requires DistinctNames(es)
    ensures Distinct(OfResource(es, r))
  {
    if es != [] {
      var init, e := es[..|es| - 1], es[|es| - 1];
      OfResourceDistinct(init, r);
      assert e !in init;
    }
  }

  // ----- Marking -----

  /** The names a mark may add to the victims of `p`. */
  ghost function Added(m: Mark, p: string): set<string> {
    if m.pending == p then {m.victim.gw.name} else {}
  }

  lemma MarkEvalBound(w: World, e: Eval, reason: string, p: string, res: string, count: string -> nat)
    requires EvalOK(w, e) && EvalLegal(e) && EvalEnabled(w, e, MarkWrite(reason))
    requires EvalBound(w.store, e, p, res, count) && p != ""
    ensures var (w', e') := Evaluate(w, e, MarkWrite(reason)); EvalBound(w'.store, e', p, res, count)
  {
    var (w', e') := Evaluate(w, e, MarkWrite(reason));
    var m := CurrentMark(e).value;
    MarkAdds(w, e, reason, p);
    if e.Marking? && e' == Advance(e) {
      assert e.plan[..e.done + 1] == e.plan[..e.done] + [m];
      assert PlannedFor(e.plan[..e.done], p) + Added(m, p) <= PlannedFor(e.plan[..e.done + 1], p);
    }
  }

  lemma BoundedByEval(store: map<string, Stored>, e: Eval, p: string, res: string, count: string -> nat)
    requires EvalBound(store, e, p, res, count) && (e.Classifying? || e.Marking?)
    ensures Bounded(Attributed(store, p), count(p), count)
  {
    if e.Marking? {
      assert PlannedFor(e.plan[..e.done], p) <= PlannedFor(e.plan, p);
      var freed := ListedFor(e.listing, |e.listing|, p) + PlannedFor(e.plan, p);
      BoundedSubset(Attributed(store, p), freed, count(p), count);
    } else {
      BoundedSubset(Attributed(store, p), ListedFor(e.listing, |e.listing|, p), count(p), count);
    }
  }

  lemma MarkAdds(w: World, e: Eval, reason: string, p: string)
    requires EvalOK(w, e) && EvalLegal(e) && EvalEnabled(w, e, MarkWrite(reason)) && p != ""
    ensures var w' := Evaluate(w, e, MarkWrite(reason)).0;
      Attributed(w'.store, p) <= Attributed(w.store, p) + Added(CurrentMark(e).value, p)
  {
    assert StatusOK(e.copy.value.snap.rec.status);
  }

  lemma MarkBound(s: System, step: Step, p: string, res: string, count: string -> nat)
    requires Inv(s) && Legal(s) && Enabled(s, step) && MarksFor(s, step, p) && p != ""
    requires EvalBound(s.world.store, EvalOf(s, step.r), p, res, count)
    ensures BoundInv(Apply(s, step), {step.r}, p, res, count)
  {
    var s' := Apply(s, step);
    MarkEvalBound(s.world, EvalOf(s, step.r), step.eval.reason, p, res, count);
    BoundedByEval(s'.world.store, EvalOf(s', step.r), p, res, count);
  }

  // ----- Whole runs -----

  lemma BoundStep(s: System, step: Step, informed: set<string>, p: string, res: string, count: string -> nat)
    requires Inv(s) && Legal(s) && BoundInv(s, informed, p, res, count) && FixedCounts(s, p, res, count) && p != ""
    requires Enabled(s, step) && Careful(s, step) && (MarksFor(s, step, p) ==> step.r in informed)
    ensures BoundInv(Apply(s, step), Informed(s, step, p, informed), p, res, count)
  {
    if MarksFor(s, step, p) {
      MarkBound(s, step, p, res, count);
      assert Informed(s, step, p, informed) == {step.r};
    } else {
      var s' := Apply(s, step);
      OtherMarksShrink(s, step, p);
      BoundedSubset(Attributed(s'.world.store, p), Attributed(s.world.store, p), count(p), count);
      forall q | q in Informed(s, step, p, informed)
        ensures EvalBound(s'.world.store, EvalOf(s', q), p, res, count)
      {
        InformedBound(s, step, informed, q, p, res, count);
      }
    }
  }

  /** A replica that stays informed, or becomes it, over a step that marks nobody for the workload. */
  lemma InformedBound(s: System, step: Step, informed: set<string>, q: string, p: string, res: string,
                      count: string -> nat)
    requires Inv(s) && Legal(s) && BoundInv(s, informed, p, res, count) && FixedCounts(s, p, res, count) && p != ""
    requires Enabled(s, step) && Careful(s, step) && !MarksFor(s, step, p)
    requires Attributed(Apply(s, step).world.store, p) <= Attributed(s.world.store, p)
    requires q in Informed(s, step, p, informed)
    ensures EvalBound(Apply(s, step).world.store, EvalOf(Apply(s, step), q), p, res, count)
  {
    var s' := Apply(s, step);
    if step.ByEvaluator? && step.r == q {
      if step.eval.MarkWrite? {
        MarkEvalBound(s.world, EvalOf(s, q), step.eval.reason, p, res, count);
      } else {
        EvalChange(s.world, EvalOf(s, q), step.eval, p, res, count);
        EvalBoundShrinks(s.world.store, s'.world.store, EvalOf(s', q), p, res, count);
      }
    } else if EvalOf(s', q) == EvalOf(s, q) {
      EvalBoundShrinks(s.world.store, s'.world.store, EvalOf(s', q), p, res, count);
    }
  }

  lemma EvalChange(w: World, e: Eval, a: EvalAction, p: string, res: string, count: string -> nat)
    requires EvalEnabled(w, e, a) && !a.MarkWrite? && (a.List? || EvalBound(w.store, e, p, res, count)) && p != ""
    requires forall n :: n in w.store ==> FixedCount(w.store[n].rec, n, p, res, count)
    requires Bounded(Attributed(w.store, p), count(p), count)
    ensures EvalBound(w.store, Evaluate(w, e, a).1, p, res, count)
  {
    match a
    case List(names) => ListBound(w, e, names, p, res, count);
    case ClassifyNext(grace, always) => ClassifyBound(w, e, grace, always, p, res, count);
    case MatchVictims(order, pending, idle) => MatchBound(w, e, order, pending, idle, p, res, count);
    case MarkRead =>
  }

  lemma {:induction false} BoundAlong(s: System, steps: seq<Step>, s': System, informed: set<string>, p: string,
                                      res: string, count: string -> nat)
    requires Inv(s) && Legal(s) && BoundInv(s, informed, p, res, count)
    requires InformedRun(s, steps, s', informed, p, res, count) && p != ""
    ensures Bounded(Attributed(s'.world.store, p), count(p), count)
    decreases |steps|
  {
    if steps != [] {
      KeepsInv(s, steps[0]);
      KeepsLegal(s, steps[0]);
      BoundStep(s, steps[0], informed, p, res, count);
      BoundAlong(Apply(s, steps[0]), steps[1..], s', Informed(s, steps[0], p, informed), p, res, count);
    }
  }

  /**
    Bounded overshoot, over every run: the victims being freed for a workload that names one resource are
    none, or leave out one of them and the rest falls short of its demand.
   */
  lemma BoundedOvershoot(s0: System, steps: seq<Step>, s: System, p: string, res: string, count: string -> nat)
    requires Init(s0) && InformedRun(s0, steps, s, {}, p, res, count) && p != ""
    ensures Bounded(Attributed(s.world.store, p), count(p), count)
  {
    assert Attributed(s0.world.store, p) == {};
    BoundAlong(s0, steps, s, {}, p, res, count);
  }

  // ----- What keeps evaluations informed -----

  /** The replica works from a listing. */
  predicate HasListing(e: Eval) {
    e.Classifying? || e.Marking?
  }

  /** Evaluations act only within their lease. */
  ghost predicate WithinLease(s: System, step: Step) {
    step.ByEvaluator? && Evaluating(EvalOf(s, step.r)) ==> s.world.clock < EvalOf(s, step.r).renew + LEASE_DURATION
  }

  /** An evaluation acts only while no other replica works from a listing. */
  ghost predicate Alone(s: System, step: Step) {
    step.ByEvaluator? ==> forall q :: q != step.r ==> !HasListing(EvalOf(s, q))
  }

  /** What keeps evaluations apart. */
  datatype Apart = ByLease | ByExclusion | Nothing

  /**
    What a run promises: evaluations kept apart, careful steps, one resource `res` for the workload `p`, and
    fixed counts of that resource.
   */
  datatype Rules = Rules(
    apart: Apart,
    careful: bool,
    single: bool,
    fixed: bool,
    p: string,
    res: string,
    count: string -> nat)

  ghost predicate Follows(h: Rules, s: System, step: Step) {
    && (h.careful ==> Careful(s, step))
    && match h.apart
       case ByLease => WithinLease(s, step)
       case ByExclusion => Alone(s, step)
       case Nothing => true
  }

  ghost predicate Holding(h: Rules, s: System) {
    && (h.single ==> OneResource(s, h.p, h.res))
    && (h.fixed ==> SameCounts(s, h.res, h.count))
  }

  ghost predicate RuledRun(h: Rules, s: System, steps: seq<Step>, s': System)
    decreases |steps|
  {
    Holding(h, s) &&
    if steps == [] then s' == s
    else
      && Enabled(s, steps[0]) && Follows(h, s, steps[0])
      && RuledRun(h, Apply(s, steps[0]), steps[1..], s')
  }

  /** All promises are made. */
  ghost predicate Complete(h: Rules) {
    h.apart != Nothing && h.careful && h.single && h.fixed
  }

  /** The replica may still act on its listing. */
  ghost predicate MayActLater(h: Rules, s: System, r: string) {
    && HasListing(EvalOf(s, r))
    && (h.apart == ByLease ==> s.world.clock < EvalOf(s, r).renew + LEASE_DURATION)
  }

  /** Replicas that may still act on their listing are informed. */
  ghost predicate ActorsInformed(h: Rules, s: System, informed: set<string>) {
    forall r :: MayActLater(h, s, r) ==> r in informed
  }

  lemma ApartStep(h: Rules, s: System, step: Step, informed: set<string>)
    requires Inv(s) && Enabled(s, step) && ActorsInformed(h, s, informed)
    requires Follows(h, s, step) && h.apart != Nothing
    ensures MarksFor(s, step, h.p) ==> step.r in informed
    ensures ActorsInformed(h, Apply(s, step), Informed(s, step, h.p, informed))
  {
    var s' := Apply(s, step);
    ClockGrows(s, step);
    forall r | MayActLater(h, s', r)
      ensures r in Informed(s, step, h.p, informed)
    {
      if EvalOf(s', r) == EvalOf(s, r) && step.ByEvaluator? && step.r != r && h.apart == ByLease {
        OneWithinLease(s, r, step.r);
      }
    }
  }

  lemma OneWithinLease(s: System, q: string, r: string)
    requires Inv(s) && q != r && Evaluating(EvalOf(s, r)) && Evaluating(EvalOf(s, q))
    requires s.world.clock < EvalOf(s, r).renew + LEASE_DURATION
    ensures s.world.clock >= EvalOf(s, q).renew + LEASE_DURATION
  {
    assert EvalLeaseOK(s, r) && EvalLeaseOK(s, q);
  }

  lemma {:induction false} ApartAlong(h: Rules, s: System, steps: seq<Step>, s': System, informed: set<string>)
    requires Inv(s) && RuledRun(h, s, steps, s') && Complete(h) && ActorsInformed(h, s, informed)
    ensures InformedRun(s, steps, s', informed, h.p, h.res, h.count)
    decreases |steps|
  {
    if steps != [] {
      ApartStep(h, s, steps[0], informed);
      KeepsInv(s, steps[0]);
      ApartAlong(h, Apply(s, steps[0]), steps[1..], s', Informed(s, steps[0], h.p, informed));
    }
  }

  /** Evaluations that act within their lease, and evaluations that do not overlap, are always informed. */
  lemma ApartIsInformed(h: Rules, s0: System, steps: seq<Step>, s: System)
    requires Init(s0) && RuledRun(h, s0, steps, s) && Complete(h)
    ensures InformedRun(s0, steps, s, {}, h.p, h.res, h.count)
    ensures h.p != "" ==> Bounded(Attributed(s.world.store, h.p), h.count(h.p), h.count)
  {
    ApartAlong(h, s0, steps, s, {});
    if h.p != "" {
      BoundedOvershoot(s0, steps, s, h.p, h.res, h.count);
    }
  }
}
