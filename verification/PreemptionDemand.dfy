/**
  Whom evaluations preempt for, in every run: a mark serves a workload that was listed waiting for a GPU, and
  the victims of a matching are the ones idle longest among the listed candidates.
 */
module PreemptionDemand {
  import opened Common
  import opened GpuRecords
  import opened Victims
  import opened VictimsOrder
  import opened Preemption
  import opened PreemptionSafety
  import opened PreemptionTheorems

  // ----- Listing and classifying -----

  /** A listing holds every stored record once, as it is. */
  lemma ListIs(w: World, e: Eval, names: seq<string>)
    requires EvalEnabled(w, e, List(names))
    ensures var (w', e') := Evaluate(w, e, List(names));
      && w' == w && e'.Classifying? && e'.listedAt == w.clock && e'.at == 0 && e'.acc == NOTHING
      && (forall n :: n in w.store ==> Snapshot(n, w.store[n].version, w.store[n].rec) in e'.listing)
      && (forall x :: x in e'.listing ==> x.name in w.store && x.rec == w.store[x.name].rec)
      && forall i, j :: 0 <= i < j < |e'.listing| ==> e'.listing[i].name != e'.listing[j].name
  {
    var listing := Evaluate(w, e, List(names)).1.listing;
    forall n | n in w.store
      ensures Snapshot(n, w.store[n].version, w.store[n].rec) in listing
    {
      var i :| 0 <= i < |names| && names[i] == n;
      assert listing[i] == SnapshotOf(w, n);
    }
  }

  /**
    One listed workload is classified: it is marked at once exactly if it has been idle for its grace period under
    the Always policy, and joins the lists of those that wait, are idle for long enough, or free GPUs for another.
   */
  lemma ClassifyNextIs(w: World, e: Eval, grace: int, always: bool)
    requires EvalEnabled(w, e, ClassifyNext(grace, always))
    ensures var x := e.listing[e.at]; var st := x.rec.status;
      var (w', e') := Evaluate(w, e, ClassifyNext(grace, always));
      var over := st.phase == Idle && st.idleSince.Some? && w.clock - st.idleSince.value >= grace;
      && w' == w && e'.Classifying? && e'.listing == e.listing && e'.at == e.at + 1
      && (e'.mark.Some? <==> over && always)
      && (e'.mark.Some? ==> e'.mark.value.victim.gw == x && e'.mark.value.pending == "")
      && e'.acc.pending == e.acc.pending + (if st.phase == PendingGpu then [Entry(x, 0, 0, 0)] else [])
      && e'.acc.idle == e.acc.idle + (if over && !always then [Entry(x, st.idleSince.value, grace, w.clock)] else [])
      && e'.acc.inFlight == e.acc.inFlight + (if st.phase == Preempting && st.preemptedFor != "" then [x] else [])
  {
  }

  /** The plan goes through the groups in their order, and through the victims of each in theirs. */
  lemma {:induction false} PlanConcat(a: seq<Group>, b: seq<Group>)
    ensures Plan(a + b) == Plan(a) + Plan(b)
  {
    if a == [] {
      assert a + b == b;
    } else {
      PlanConcat(a[1..], b);
      assert (a + b)[1..] == a[1..] + b;
      Regroup(GroupMarks(a[0]), Plan(a[1..]), Plan(b));
    }
  }

  lemma Regroup(a: seq<Mark>, b: seq<Mark>, c: seq<Mark>)
    ensures (a + b) + c == a + (b + c)
  {
  }

  lemma PlanOne(g: Group)
    ensures |Plan([g])| == |g.victims|
    ensures forall i :: 0 <= i < |g.victims| ==> Plan([g])[i] == Mark(g.victims[i], g.pending.gw.name)
  {
    assert [g][1..] == [];
  }

  lemma {:induction false} VictimsPlanned(gs: seq<Group>, g: Group, v: Entry)
    requires g in gs && v in g.victims
    ensures Mark(v, g.pending.gw.name) in Plan(gs)
  {
    if g == gs[0] {
      var i :| 0 <= i < |g.victims| && g.victims[i] == v;
      assert GroupMarks(g)[i] in Plan(gs);
    } else {
      VictimsPlanned(gs[1..], g, v);
    }
  }

  /** The classified workloads are matched with their own capacity in flight, and all victims are to be marked. */
  lemma MatchStepIs(w: World, e: Eval, order: seq<string>, pending: map<string, seq<Entry>>,
                    idle: map<string, seq<Entry>>)
    requires EvalEnabled(w, e, MatchVictims(order, pending, idle))
    ensures var (w', e') := Evaluate(w, e, MatchVictims(order, pending, idle));
      var gs := Match(order, pending, idle, e.acc.inFlight, {}).0;
      && w' == w && e'.Marking? && e'.done == 0 && e'.copy.None? && e'.listing == e.listing
      && forall m :: m in e'.plan <==> exists g, v :: g in gs && v in g.victims && m == Mark(v, g.pending.gw.name)
  {
    var gs := Match(order, pending, idle, e.acc.inFlight, {}).0;
    forall m
      ensures m in Plan(gs) <==> exists g, v :: g in gs && v in g.victims && m == Mark(v, g.pending.gw.name)
    {
      if m in Plan(gs) {
        PlanMembers(gs, m);
      }
      if g, v :| g in gs && v in g.victims && m == Mark(v, g.pending.gw.name) {
        VictimsPlanned(gs, g, v);
      }
    }
  }

  // ----- Whom a mark serves -----

  /** The name belongs to a workload listed as waiting for a GPU. */
  ghost predicate ListedWaiting(listing: seq<Snapshot>, name: string) {
    exists x :: x in listing && x.name == name && x.rec.status.phase == PendingGpu
  }

  ghost predicate EvalDemand(e: Eval) {
    match e
    case Classifying(_, listing, _, _, acc, mark, _) =>
      && (forall v :: v in acc.pending ==> ListedWaiting(listing, v.gw.name))
      && (mark.Some? ==> mark.value.pending == "")
    case Marking(_, listing, _, plan, _, _) => forall m :: m in plan ==> ListedWaiting(listing, m.pending)
    case _ => true
  }

  lemma WaitsListed(listing: seq<Snapshot>, l: Listed, now: int)
    requires l.w in listing && Judge(l, now) == Waiting
    ensures ListedWaiting(listing, l.w.name)
  {
  }

  lemma PlanDemand(e: Eval, order: seq<string>, pending: map<string, seq<Entry>>, idle: map<string, seq<Entry>>)
    requires e.Classifying? && EvalDemand(e) && SortsOf(pending, e.acc.pending, order, false)
    ensures forall m :: m in Plan(Match(order, pending, idle, e.acc.inFlight, {}).0) ==>
      ListedWaiting(e.listing, m.pending)
  {
    var gs := Match(order, pending, idle, e.acc.inFlight, {}).0;
    MatchProperties(order, pending, idle, e.acc.inFlight, {});
    forall m | m in Plan(gs)
      ensures ListedWaiting(e.listing, m.pending)
    {
      PlanMembers(gs, m);
      var g, v :| g in gs && v in g.victims && m == Mark(v, g.pending.gw.name);
      assert SortOf(Lookup(pending, g.resource), e.acc.pending, g.resource, false);
      PermutationMember(Lookup(pending, g.resource), OfResource(e.acc.pending, g.resource), g.pending);
    }
  }

  lemma DemandChange(w: World, e: Eval, a: EvalAction)
    requires EvalEnabled(w, e, a) && EvalDemand(e)
    ensures EvalDemand(Evaluate(w, e, a).1)
  {
    match a
    case ClassifyNext(grace, always) =>
      var l := Listed(e.listing[e.at], grace, always);
      if Judge(l, w.clock) == Waiting {
        WaitsListed(e.listing, l, w.clock);
      }
    case MatchVictims(order, pending, idle) => PlanDemand(e, order, pending, idle);
    case _ =>
  }

  lemma DemandStep(s: System, step: Step)
    requires Enabled(s, step) && forall r :: EvalDemand(EvalOf(s, r))
    ensures forall r :: EvalDemand(EvalOf(Apply(s, step), r))
  {
    var s' := Apply(s, step);
    forall r
      ensures EvalDemand(EvalOf(s', r))
    {
      if step.ByEvaluator? && step.r == r {
        DemandChange(s.world, EvalOf(s, r), step.eval);
      }
      assert EvalOf(s', r) == EvalOf(s, r) || !(step.ByWorker? || step.Tick?);
    }
  }

  lemma {:induction false} DemandAlong(s: System, steps: seq<Step>, s': System)
    requires Runs(s, steps, s') && forall r :: EvalDemand(EvalOf(s, r))
    ensures forall r :: EvalDemand(EvalOf(s', r))
    decreases |steps|
  {
    if steps != [] {
      DemandStep(s, steps[0]);
      DemandAlong(Apply(s, steps[0]), steps[1..], s');
    }
  }

  /**
    In every run, whoever is about to be marked is marked for a workload that was listed waiting for a GPU, or
    under the Always policy for nobody; the victim itself was listed idle for its grace period.
   */
  lemma MarksServeDemand(s0: System, steps: seq<Step>, s: System, r: string)
    requires Init(s0) && Runs(s0, steps, s) && CurrentMark(EvalOf(s, r)).Some?
    ensures var e := EvalOf(s, r); var m := CurrentMark(e).value; var st := m.victim.gw.rec.status;
      && (if e.Marking? then ListedWaiting(e.listing, m.pending) else m.pending == "")
      && st.phase == Idle && st.idleSince.Some? && s.world.clock - st.idleSince.value >= m.victim.grace
  {
    DemandAlong(s0, steps, s);
    RunInv(s0, steps, s);
    var e := EvalOf(s, r);
    assert EvalOK(s.world, e);
    if e.Marking? {
      assert CurrentMark(e).value in e.plan;
    }
  }

  /** A group serves a listed pending workload for one of its resources, from those idle longest. */
  ghost predicate Serves(g: Group, c: Classified, pool: seq<Entry>, before: set<string>) {
    && g.pending in c.pending && g.resource in g.pending.gw.rec.spec.gpu
    && Sound(g, pool, c.inFlight)
    && LongestIdleFirst(g, pool, before)
  }

  lemma GroupIs(c: Classified, order: seq<string>, pending: map<string, seq<Entry>>, idle: map<string, seq<Entry>>,
                k: nat)
    requires k < |Match(order, pending, idle, c.inFlight, {}).0|
    ensures var gs := Match(order, pending, idle, c.inFlight, {}).0; var g := gs[k];
      var pool := Lookup(idle, g.resource);
      && g.resource in order && g.pending in Lookup(pending, g.resource)
      && Sound(g, pool, c.inFlight)
      && (SortedByIdle(pool) ==> LongestIdleFirst(g, pool, GroupUids(gs[..k])))
  {
    MatchProperties(order, pending, idle, c.inFlight, {});
    var gs := Match(order, pending, idle, c.inFlight, {}).0;
    assert gs[k] in gs && {} + GroupUids(gs[..k]) == GroupUids(gs[..k]);
  }

  lemma GroupServes(c: Classified, order: seq<string>, pending: map<string, seq<Entry>>, idle: map<string, seq<Entry>>,
                    k: nat)
    requires SortsOf(pending, c.pending, order, false) && SortsOf(idle, c.idle, order, true)
    requires k < |Match(order, pending, idle, c.inFlight, {}).0|
    ensures var gs := Match(order, pending, idle, c.inFlight, {}).0;
      Serves(gs[k], c, Lookup(idle, gs[k].resource), GroupUids(gs[..k]))
  {
    GroupIs(c, order, pending, idle, k);
    SortsMean(pending, idle, c, order);
  }

  /**
    The matching of a classified listing: every group covers the residual demand of a pending workload for one
    of its resources without its last victim being superfluous, takes those idle longest of the candidates that
    nobody claimed, and whoever is left unserved needs more than all that is unclaimed.
   */
  lemma MatchingIsSound(c: Classified, order: seq<string>, pending: map<string, seq<Entry>>,
                        idle: map<string, seq<Entry>>)
    requires SortsOf(pending, c.pending, order, false) && SortsOf(idle, c.idle, order, true)
    ensures var (gs, claimed) := Match(order, pending, idle, c.inFlight, {});
      && (forall k :: 0 <= k < |gs| ==> Serves(gs[k], c, Lookup(idle, gs[k].resource), GroupUids(gs[..k])))
      && (forall r :: r in order ==> NoneLeftServable(gs, Lookup(pending, r), Lookup(idle, r), r, c.inFlight, claimed))
  {
    var gs := Match(order, pending, idle, c.inFlight, {}).0;
    forall k | 0 <= k < |gs|
      ensures Serves(gs[k], c, Lookup(idle, gs[k].resource), GroupUids(gs[..k]))
    {
      GroupServes(c, order, pending, idle, k);
    }
    MatchProperties(order, pending, idle, c.inFlight, {});
  }
}
