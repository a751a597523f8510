/**
  Victim allocation: the evaluator sorts the listed workloads into pending, in-flight and
  idle ones and picks idle victims for every pending workload, all or nothing per
  (pending workload, resource).
 */
module Victims {
  import opened Common
  import opened GpuRecords

  /**
    A workload in one of the evaluator's lists. For an idle workload, `idleSince` is its recorded
    idle time, which was at least `grace` old at the clock reading `seenAt`.
   */
  datatype Entry = Entry(gw: Snapshot, idleSince: int, grace: int, seenAt: int)

  /** A listed workload with the grace period and policy resolved for it. */
  datatype Listed = Listed(w: Snapshot, grace: int, always: bool)

  datatype Verdict = Ignored | Waiting | Freeing | Evict | Candidate

  datatype Classified = Classified(pending: seq<Entry>, idle: seq<Entry>, inFlight: seq<Snapshot>, evict: seq<Snapshot>)

  const NOTHING := Classified([], [], [], [])

  /** Victims of one pending workload for one resource, with the demand they were picked for. */
  datatype Group = Group(pending: Entry, resource: string, demand: int, victims: seq<Entry>)

  function Judge(l: Listed, now: int): Verdict {
    var st := l.w.rec.status;
    match st.phase
    case PendingGpu => Waiting
    case Preempting => if st.preemptedFor != "" then Freeing else Ignored
    case Idle =>
      if st.idleSince.None? || now - st.idleSince.value < l.grace then Ignored
      else if l.always then Evict
      else Candidate
    case _ => Ignored
  }

  function IdleEntry(l: Listed, now: int): Entry
    requires l.w.rec.status.idleSince.Some?
  {
    Entry(l.w, l.w.rec.status.idleSince.value, l.grace, now)
  }

  function Add(c: Classified, l: Listed, now: int): Classified {
    match Judge(l, now)
    case Waiting => c.(pending := c.pending + [Entry(l.w, 0, 0, 0)])
    case Freeing => c.(inFlight := c.inFlight + [l.w])
    case Evict => c.(evict := c.evict + [l.w])
    case Candidate => c.(idle := c.idle + [IdleEntry(l, now)])
    case Ignored => c
  }

  function Classify(ls: seq<Listed>, now: int): Classified {
    if ls == [] then NOTHING else Add(Classify(ls[..|ls| - 1], now), ls[|ls| - 1], now)
  }

  // ----- What classification sorts where -----

  /** The listed workloads that satisfy a condition, in listing order. */
  ghost function Those(ls: seq<Listed>, which: Listed -> bool): seq<Listed> {
    if ls == [] then []
    else
      var rest, l := Those(ls[..|ls| - 1], which), ls[|ls| - 1];
      if which(l) then rest + [l] else rest
  }

  ghost predicate WaitsForGpu(l: Listed) {
    l.w.rec.status.phase == PendingGpu
  }

  ghost predicate FreesGpus(l: Listed) {
    l.w.rec.status.phase == Preempting && l.w.rec.status.preemptedFor != ""
  }

  /** Idle, and for at least its grace period. */
  ghost predicate IdleLongEnough(l: Listed, now: int) {
    var st := l.w.rec.status;
    st.phase == Idle && st.idleSince.Some? && now - st.idleSince.value >= l.grace
  }

  /** The entries list exactly these workloads, in this order. */
  ghost predicate Entries(es: seq<Entry>, ls: seq<Listed>) {
    |es| == |ls| && forall i :: 0 <= i < |es| ==> es[i].gw == ls[i].w
  }

  ghost predicate Copies(ws: seq<Snapshot>, ls: seq<Listed>) {
    |ws| == |ls| && forall i :: 0 <= i < |ws| ==> ws[i] == ls[i].w
  }

  /** Idle entries carry the recorded idle time, the grace period and the clock reading. */
  ghost predicate IdleEntries(es: seq<Entry>, ls: seq<Listed>, now: int) {
    && Entries(es, ls)
    && forall i :: 0 <= i < |es| ==>
         Some(es[i].idleSince) == ls[i].w.rec.status.idleSince && es[i].grace == ls[i].grace && es[i].seenAt == now
  }

  /**
    The four lists: who waits is exactly who is PendingGpu, in flight exactly the Preempting ones with an
    attribution, candidates exactly those idle for their grace period under the on-demand policy, and evicted
    outright exactly those under the Always policy. Everybody else is in none of them.
   */
  lemma {:induction false} ClassifiedExactly(ls: seq<Listed>, now: int)
    ensures var c := Classify(ls, now);
      && Entries(c.pending, Those(ls, l => WaitsForGpu(l)))
      && Copies(c.inFlight, Those(ls, l => FreesGpus(l)))
      && IdleEntries(c.idle, Those(ls, l => IdleLongEnough(l, now) && !l.always), now)
      && Copies(c.evict, Those(ls, l => IdleLongEnough(l, now) && l.always))
  {
    if ls != [] {
      ClassifiedExactly(ls[..|ls| - 1], now);
    }
  }

  /** The entries of the per-resource list, in the order they were appended. */
  function OfResource(es: seq<Entry>, r: string): (rs: seq<Entry>)
    ensures forall e :: e in rs <==> e in es && r in e.gw.rec.spec.gpu
  {
    if es == [] then []
    else
      var rest := OfResource(es[..|es| - 1], r);
      var e := es[|es| - 1];
      if r in e.gw.rec.spec.gpu then rest + [e] else rest
  }

  /** GPUs of resource `r` already being freed for the pending workload `p`. */
  function FreeingFor(inFlight: seq<Snapshot>, p: string, r: string): nat {
    if inFlight == [] then 0
    else
      var w := inFlight[|inFlight| - 1];
      FreeingFor(inFlight[..|inFlight| - 1], p, r)
      + if w.rec.status.preemptedFor == p then Count(w.rec.spec.gpu, r) else 0
  }

  function Gpus(e: Entry, r: string): nat {
    Count(e.gw.rec.spec.gpu, r)
  }

  function Uid(e: Entry): string {
    e.gw.rec.spec.uid
  }

  function Total(es: seq<Entry>, r: string): nat {
    if es == [] then 0 else Gpus(es[0], r) + Total(es[1..], r)
  }

  function Uids(es: seq<Entry>): set<string> {
    set e | e in es :: Uid(e)
  }

  /** Demand left once the capacity in flight is subtracted. */
  function Residual(p: Entry, r: string, inFlight: seq<Snapshot>): int {
    Gpus(p, r) - FreeingFor(inFlight, p.gw.name, r)
  }

  /** The greedy pass over the idle pool: skip claimed and empty entries, stop once covered. */
  function Take(pool: seq<Entry>, r: string, claimed: set<string>, demand: int): seq<Entry> {
    if pool == [] then []
    else
      var e := pool[0];
      if Uid(e) in claimed || Gpus(e, r) <= 0 then Take(pool[1..], r, claimed, demand)
      else if Gpus(e, r) >= demand then [e]
      else [e] + Take(pool[1..], r, claimed, demand - Gpus(e, r))
  }

  /** All pending workloads of one resource, in list order. */
  function MatchResource(ps: seq<Entry>, pool: seq<Entry>, r: string, inFlight: seq<Snapshot>, claimed: set<string>):
    (seq<Group>, set<string>)
  {
    if ps == [] then ([], claimed)
    else
      var d := Residual(ps[0], r, inFlight);
      var vs := Take(pool, r, claimed, d);
      if d <= 0 || Total(vs, r) < d then MatchResource(ps[1..], pool, r, inFlight, claimed)
      else
        var (gs, c) := MatchResource(ps[1..], pool, r, inFlight, claimed + Uids(vs));
        ([Group(ps[0], r, d, vs)] + gs, c)
  }

  function Lookup(m: map<string, seq<Entry>>, r: string): seq<Entry> {
    if r in m then m[r] else []
  }

  /** All resources, in the order the map of pending lists is iterated in. */
  function Match(order: seq<string>, pending: map<string, seq<Entry>>, idle: map<string, seq<Entry>>,
                 inFlight: seq<Snapshot>, claimed: set<string>): (seq<Group>, set<string>)
  {
    if order == [] then ([], claimed)
    else
      var r := order[0];
      var (gs, c) := MatchResource(Lookup(pending, r), Lookup(idle, r), r, inFlight, claimed);
      var (gs', c') := Match(order[1..], pending, idle, inFlight, c);
      (gs + gs', c')
  }

  // ----- The greedy pass -----

  /** Idle capacity of the pool that nobody has claimed. */
  function Unclaimed(pool: seq<Entry>, r: string, claimed: set<string>): nat {
    if pool == [] then 0
    else (if Uid(pool[0]) in claimed then 0 else Gpus(pool[0], r)) + Unclaimed(pool[1..], r, claimed)
  }

  ghost predicate SortedByIdle(es: seq<Entry>) {
    forall i, j :: 0 <= i < j < |es| ==> es[i].idleSince <= es[j].idleSince
  }

  ghost predicate UniqueUids(es: seq<Entry>) {
    forall i, j :: 0 <= i < j < |es| ==> Uid(es[i]) != Uid(es[j])
  }

  /** What was picked: unclaimed positive members of the pool. */
  lemma {:induction false} TakeMembers(pool: seq<Entry>, r: string, claimed: set<string>, demand: int)
    ensures forall v :: v in Take(pool, r, claimed, demand) ==> v in pool && Uid(v) !in claimed && Gpus(v, r) > 0
  {
    if pool != [] {
      TakeMembers(pool[1..], r, claimed, demand);
      TakeMembers(pool[1..], r, claimed, demand - Gpus(pool[0], r));
    }
  }

  lemma TotalSnoc(es: seq<Entry>, e: Entry, r: string)
    ensures Total(es + [e], r) == Total(es, r) + Gpus(e, r)
  {
    if es == [] {
      assert es + [e] == [e];
    } else {
      assert (es + [e])[1..] == es[1..] + [e];
      TotalSnoc(es[1..], e, r);
    }
  }

  /** No pick can be dropped from the end: the demand is not covered without the last one. */
  lemma {:induction false} TakeMinimal(pool: seq<Entry>, r: string, claimed: set<string>, demand: int)
    requires demand > 0
    ensures var vs := Take(pool, r, claimed, demand); vs != [] ==> Total(vs[..|vs| - 1], r) < demand
  {
    if pool != [] {
      var e := pool[0];
      var rest := pool[1..];
      if Uid(e) in claimed || Gpus(e, r) <= 0 {
        TakeMinimal(rest, r, claimed, demand);
      } else if Gpus(e, r) < demand {
        var d := demand - Gpus(e, r);
        TakeMinimal(rest, r, claimed, d);
        var vs := Take(rest, r, claimed, d);
        if vs != [] {
          assert ([e] + vs)[..|vs|] == [e] + vs[..|vs| - 1];
        }
      }
    }
  }

  /** The pass falls short exactly when the whole unclaimed capacity does. */
  lemma {:induction false} TakeShort(pool: seq<Entry>, r: string, claimed: set<string>, demand: int)
    requires demand > 0
    ensures Total(Take(pool, r, claimed, demand), r) < demand <==> Unclaimed(pool, r, claimed) < demand
  {
    if pool != [] {
      var e := pool[0];
      if Uid(e) in claimed || Gpus(e, r) <= 0 {
        TakeShort(pool[1..], r, claimed, demand);
      } else if Gpus(e, r) < demand {
        TakeShort(pool[1..], r, claimed, demand - Gpus(e, r));
      }
    }
  }

  /** The picks are exactly the eligible entries of a prefix of the pool. */
  lemma {:induction false} TakePrefix(pool: seq<Entry>, r: string, claimed: set<string>, demand: int)
    returns (n: nat)
    ensures n <= |pool|
    ensures var vs := Take(pool, r, claimed, demand);
      && (forall i :: 0 <= i < n && Uid(pool[i]) !in claimed && Gpus(pool[i], r) > 0 ==> pool[i] in vs)
      && (forall v :: v in vs ==> v in pool[..n])
  {
    n := 0;
    if pool != [] {
      var e := pool[0];
      if Uid(e) in claimed || Gpus(e, r) <= 0 {
        var m := TakePrefix(pool[1..], r, claimed, demand);
        n := m + 1;
        assert pool[..n] == [e] + pool[1..][..m];
      } else if Gpus(e, r) >= demand {
        n := 1;
        assert pool[..1] == [e];
      } else {
        var m := TakePrefix(pool[1..], r, claimed, demand - Gpus(e, r));
        n := m + 1;
        assert pool[..n] == [e] + pool[1..][..m];
      }
    }
  }

  /** Nobody idle strictly longer than a victim is passed over. */
  lemma {:induction false} TakeLongestIdle(pool: seq<Entry>, r: string, claimed: set<string>, demand: int, v: Entry,
                                           e: Entry)
    requires SortedByIdle(pool)
    requires v in Take(pool, r, claimed, demand)
    requires e in pool && e.idleSince < v.idleSince && Uid(e) !in claimed && Gpus(e, r) > 0
    ensures e in Take(pool, r, claimed, demand)
  {
    var n := TakePrefix(pool, r, claimed, demand);
    var i :| 0 <= i < n && pool[i] == v;
    var j :| 0 <= j < |pool| && pool[j] == e;
    assert j < i;
  }

  lemma {:induction false} TakeUnique(pool: seq<Entry>, r: string, claimed: set<string>, demand: int)
    requires UniqueUids(pool)
    ensures UniqueUids(Take(pool, r, claimed, demand))
  {
    if pool != [] {
      TakeMembers(pool[1..], r, claimed, demand - Gpus(pool[0], r));
      TakeUnique(pool[1..], r, claimed, demand);
      TakeUnique(pool[1..], r, claimed, demand - Gpus(pool[0], r));
    }
  }

  lemma {:induction false} UnclaimedShrinks(pool: seq<Entry>, r: string, c0: set<string>, c1: set<string>)
    requires c0 <= c1
    ensures Unclaimed(pool, r, c1) <= Unclaimed(pool, r, c0)
  {
    if pool != [] {
      UnclaimedShrinks(pool[1..], r, c0, c1);
    }
  }

  // ----- Groups over all pending workloads and resources -----

  /** The UIDs claimed by a sequence of groups. */
  function GroupUids(gs: seq<Group>): set<string> {
    set g, e | g in gs && e in g.victims :: Uid(e)
  }

  /** One group is sound for the pool it was picked from. */
  ghost predicate Sound(g: Group, pool: seq<Entry>, inFlight: seq<Snapshot>) {
    && g.demand == Residual(g.pending, g.resource, inFlight) > 0
    && g.victims != []
    && (forall v :: v in g.victims ==> v in pool && Gpus(v, g.resource) > 0)
    && Total(g.victims, g.resource) >= g.demand
    && Total(g.victims[..|g.victims| - 1], g.resource) < g.demand
    && (UniqueUids(pool) ==> UniqueUids(g.victims))
  }

  /** Whoever was idle strictly longer than a victim is in the group or was claimed before it. */
  ghost predicate LongestIdleFirst(g: Group, pool: seq<Entry>, before: set<string>) {
    forall v, e :: v in g.victims && e in pool && e.idleSince < v.idleSince && Gpus(e, g.resource) > 0 ==>
      e in g.victims || Uid(e) in before
  }

  ghost predicate DisjointFrom(g: Group, before: set<string>) {
    forall v :: v in g.victims ==> Uid(v) !in before
  }

  /** The groups of one resource. `claimed` is what earlier resources claimed. */
  ghost predicate GoodGroups(gs: seq<Group>, idle: map<string, seq<Entry>>, inFlight: seq<Snapshot>,
                             claimed: set<string>) {
    forall k :: 0 <= k < |gs| ==>
      var pool := Lookup(idle, gs[k].resource);
      var before := claimed + GroupUids(gs[..k]);
      && Sound(gs[k], pool, inFlight)
      && (SortedByIdle(pool) ==> LongestIdleFirst(gs[k], pool, before))
      && DisjointFrom(gs[k], before)
  }

  ghost predicate Served(gs: seq<Group>, p: Entry, r: string) {
    exists g :: g in gs && g.pending == p && g.resource == r
  }

  /** Every pending workload left unserved needs more than all that is still unclaimed. */
  ghost predicate NoneLeftServable(gs: seq<Group>, ps: seq<Entry>, pool: seq<Entry>, r: string,
                                   inFlight: seq<Snapshot>, claimed: set<string>) {
    forall p :: p in ps && Residual(p, r, inFlight) > 0 && !Served(gs, p, r) ==>
      Residual(p, r, inFlight) > Unclaimed(pool, r, claimed)
  }

  lemma GroupUidsConcat(a: seq<Group>, b: seq<Group>)
    ensures GroupUids(a + b) == GroupUids(a) + GroupUids(b)
  {
    assert forall g :: g in a + b <==> g in a || g in b;
  }

  lemma GroupUidsOne(g: Group)
    ensures GroupUids([g]) == Uids(g.victims)
  {
    assert forall h :: h in [g] <==> h == g;
  }

  lemma GoodGroupsConcat(a: seq<Group>, b: seq<Group>, idle: map<string, seq<Entry>>, inFlight: seq<Snapshot>,
                         claimed: set<string>)
    requires GoodGroups(a, idle, inFlight, claimed)
    requires GoodGroups(b, idle, inFlight, claimed + GroupUids(a))
    ensures GoodGroups(a + b, idle, inFlight, claimed)
  {
    forall k | 0 <= k < |a + b|
      ensures var g := (a + b)[k];
        var pool := Lookup(idle, g.resource);
        var before := claimed + GroupUids((a + b)[..k]);
        && Sound(g, pool, inFlight)
        && (SortedByIdle(pool) ==> LongestIdleFirst(g, pool, before))
        && DisjointFrom(g, before)
    {
      if k < |a| {
        assert (a + b)[..k] == a[..k] && (a + b)[k] == a[k];
      } else {
        assert (a + b)[..k] == a + b[..k - |a|] && (a + b)[k] == b[k - |a|];
        GroupUidsConcat(a, b[..k - |a|]);
        assert claimed + (GroupUids(a) + GroupUids(b[..k - |a|])) == claimed + GroupUids(a) + GroupUids(b[..k - |a|]);
      }
    }
  }

  lemma {:induction false} MatchResourceGood(ps: seq<Entry>, r: string, idle: map<string, seq<Entry>>,
                                            inFlight: seq<Snapshot>, claimed: set<string>)
    ensures var (gs, c) := MatchResource(ps, Lookup(idle, r), r, inFlight, claimed);
      && c == claimed + GroupUids(gs)
      && (forall g :: g in gs ==> g.resource == r && g.pending in ps)
      && GoodGroups(gs, idle, inFlight, claimed)
    decreases |ps|
  {
    var pool := Lookup(idle, r);
    if ps != [] {
      var d := Residual(ps[0], r, inFlight);
      var vs := Take(pool, r, claimed, d);
      if d <= 0 || Total(vs, r) < d {
        MatchResourceGood(ps[1..], r, idle, inFlight, claimed);
      } else {
        var g := Group(ps[0], r, d, vs);
        GroupIsGood(g, pool, inFlight, claimed);
        GroupUidsOne(g);
        assert GoodGroups([g], idle, inFlight, claimed) by {
          assert [g][..0] == [] && claimed + GroupUids([]) == claimed;
        }
        MatchResourceGood(ps[1..], r, idle, inFlight, claimed + Uids(vs));
        var rest := MatchResource(ps[1..], pool, r, inFlight, claimed + Uids(vs)).0;
        GroupUidsConcat([g], rest);
        GoodGroupsConcat([g], rest, idle, inFlight, claimed);
      }
    }
  }

  lemma {:induction false} MatchResourceMaximal(ps: seq<Entry>, r: string, idle: map<string, seq<Entry>>,
                                               inFlight: seq<Snapshot>, claimed: set<string>)
    ensures var pool := Lookup(idle, r); var (gs, c) := MatchResource(ps, pool, r, inFlight, claimed);
      NoneLeftServable(gs, ps, pool, r, inFlight, c)
    decreases |ps|
  {
    var pool := Lookup(idle, r);
    if ps != [] {
      var p := ps[0];
      var d := Residual(p, r, inFlight);
      var vs := Take(pool, r, claimed, d);
      if d <= 0 || Total(vs, r) < d {
        MatchResourceMaximal(ps[1..], r, idle, inFlight, claimed);
        if d > 0 {
          TakeShort(pool, r, claimed, d);
          MatchResourceGood(ps[1..], r, idle, inFlight, claimed);
          UnclaimedShrinks(pool, r, claimed, MatchResource(ps, pool, r, inFlight, claimed).1);
        }
      } else {
        MatchResourceMaximal(ps[1..], r, idle, inFlight, claimed + Uids(vs));
        var g := Group(p, r, d, vs);
        var rest := MatchResource(ps[1..], pool, r, inFlight, claimed + Uids(vs)).0;
        assert g in [g] + rest && (forall h :: h in rest ==> h in [g] + rest);
      }
    }
  }

  lemma {:induction false} GroupIsGood(g: Group, pool: seq<Entry>, inFlight: seq<Snapshot>, claimed: set<string>)
    requires g.demand == Residual(g.pending, g.resource, inFlight) > 0
    requires g.victims == Take(pool, g.resource, claimed, g.demand)
    requires Total(g.victims, g.resource) >= g.demand
    ensures Sound(g, pool, inFlight)
    ensures SortedByIdle(pool) ==> LongestIdleFirst(g, pool, claimed)
    ensures DisjointFrom(g, claimed)
  {
    TakeMembers(pool, g.resource, claimed, g.demand);
    TakeMinimal(pool, g.resource, claimed, g.demand);
    if UniqueUids(pool) {
      TakeUnique(pool, g.resource, claimed, g.demand);
    }
    if SortedByIdle(pool) {
      forall v, e |
        v in g.victims && e in pool && e.idleSince < v.idleSince && Gpus(e, g.resource) > 0 && Uid(e) !in claimed
        ensures e in g.victims
      {
        TakeLongestIdle(pool, g.resource, claimed, g.demand, v, e);
      }
    }
  }

  /**
    Victim selection and maximality over the whole evaluation: every group is sound, minimal and
    longest-idle-first, groups never share a UID, and whoever is left unserved needs more than
    everything still unclaimed when matching ends.
   */
  lemma {:induction false} MatchProperties(order: seq<string>, pending: map<string, seq<Entry>>,
                                           idle: map<string, seq<Entry>>,
                                          inFlight: seq<Snapshot>, claimed: set<string>)
    ensures var (gs, c) := Match(order, pending, idle, inFlight, claimed);
      && c == claimed + GroupUids(gs)
      && (forall g :: g in gs ==> g.resource in order && g.pending in Lookup(pending, g.resource))
      && GoodGroups(gs, idle, inFlight, claimed)
      && (forall r :: r in order ==> NoneLeftServable(gs, Lookup(pending, r), Lookup(idle, r), r, inFlight, c))
  {
    if order != [] {
      var r := order[0];
      var (gs0, c0) := MatchResource(Lookup(pending, r), Lookup(idle, r), r, inFlight, claimed);
      MatchResourceGood(Lookup(pending, r), r, idle, inFlight, claimed);
      MatchResourceMaximal(Lookup(pending, r), r, idle, inFlight, claimed);
      MatchProperties(order[1..], pending, idle, inFlight, c0);
      var (gs1, c1) := Match(order[1..], pending, idle, inFlight, c0);
      var gs := gs0 + gs1;
      GroupUidsConcat(gs0, gs1);
      GoodGroupsConcat(gs0, gs1, idle, inFlight, claimed);
      forall q | q in order
        ensures NoneLeftServable(gs, Lookup(pending, q), Lookup(idle, q), q, inFlight, c1)
      {
        if q == r {
          UnclaimedShrinks(Lookup(idle, r), r, c0, c1);
          assert forall p :: Served(gs0, p, q) ==> Served(gs, p, q);
        } else {
          assert q in order[1..];
          assert forall p :: Served(gs1, p, q) ==> Served(gs, p, q);
        }
      }
    }
  }

  lemma VictimInPool(order: seq<string>, pending: map<string, seq<Entry>>, idle: map<string, seq<Entry>>,
                     inFlight: seq<Snapshot>, g: Group, v: Entry)
    requires g in Match(order, pending, idle, inFlight, {}).0 && v in g.victims
    ensures g.resource in order && v in Lookup(idle, g.resource)
  {
    MatchProperties(order, pending, idle, inFlight, {});
    var gs := Match(order, pending, idle, inFlight, {}).0;
    var k :| 0 <= k < |gs| && gs[k] == g;
    assert Sound(gs[k], Lookup(idle, g.resource), inFlight);
  }

  /** No workload with a UID of its own is picked twice, within or across groups. */
  lemma NoDoubleClaim(order: seq<string>, pending: map<string, seq<Entry>>, idle: map<string, seq<Entry>>,
                      inFlight: seq<Snapshot>, k: nat, i: nat, l: nat, j: nat)
    requires forall r, x, y :: r in idle && 0 <= x < y < |idle[r]| ==>
      idle[r][x].gw.rec.spec.uid != idle[r][y].gw.rec.spec.uid
    requires var gs := Match(order, pending, idle, inFlight, {}).0;
      k < |gs| && i < |gs[k].victims| && l < |gs| && j < |gs[l].victims| && (k != l || i != j)
    ensures var gs := Match(order, pending, idle, inFlight, {}).0;
      gs[k].victims[i].gw.rec.spec.uid != gs[l].victims[j].gw.rec.spec.uid
  {
    MatchProperties(order, pending, idle, inFlight, {});
    var gs := Match(order, pending, idle, inFlight, {}).0;
    if k == l {
      assert Sound(gs[k], Lookup(idle, gs[k].resource), inFlight);
    } else {
      var (a, x, b, y) := if k < l then (k, i, l, j) else (l, j, k, i);
      var before := {} + GroupUids(gs[..b]);
      assert gs[a] in gs[..b] && gs[a].victims[x] in gs[a].victims;
      assert Uid(gs[a].victims[x]) in before;
      assert DisjointFrom(gs[b], before);
      assert gs[b].victims[y] in gs[b].victims;
    }
  }
}
