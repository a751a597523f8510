/**
  The evaluator's loops as the controller runs them, proved to compute `Victims.Classify` and
  `Victims.Match`.
 */
module Evaluator {
  import opened GpuRecords
  import opened Victims

  /** The nested map of capacity in flight, as the list of in-flight workloads it was filled from. */
  ghost predicate Counts(m: map<string, map<string, nat>>, flights: seq<Snapshot>) {
    forall p, r :: InFlightOf(m, p, r) == FreeingFor(flights, p, r)
  }

  function InFlightOf(m: map<string, map<string, nat>>, p: string, r: string): nat {
    if p in m then Count(m[p], r) else 0
  }

  /** The per-resource lists hold the entries collected so far. */
  ghost predicate Lists(m: map<string, seq<Entry>>, es: seq<Entry>) {
    forall r :: Lookup(m, r) == OfResource(es, r)
  }

  lemma ListsAppend(m: map<string, seq<Entry>>, es: seq<Entry>, e: Entry, m': map<string, seq<Entry>>)
    requires Lists(m, es)
    requires forall r :: Lookup(m', r) == if r in e.gw.rec.spec.gpu then Lookup(m, r) + [e] else Lookup(m, r)
    ensures Lists(m', es + [e])
  {
    assert (es + [e])[..|es|] == es;
  }

  /** Appends a workload to the list of each resource it names. */
  method AppendPerResource(m: map<string, seq<Entry>>, e: Entry, ghost es: seq<Entry>)
    returns (m': map<string, seq<Entry>>)
    requires Lists(m, es)
    ensures Lists(m', es + [e])
  {
    m' := m;
    var gpu := e.gw.rec.spec.gpu.Keys;
    var todo := gpu;
    while todo != {}
      invariant todo <= gpu
      invariant forall r :: Lookup(m', r) == if r in gpu && r !in todo then Lookup(m, r) + [e] else Lookup(m, r)
      decreases |todo|
    {
      var r :| r in todo;
      m' := m'[r := Lookup(m', r) + [e]];
      todo := todo - {r};
    }
    ListsAppend(m, es, e, m');
  }

  /** Adds the counts of a Preempting workload to those freed for the workload it is preempted for. */
  method AddInFlight(m: map<string, map<string, nat>>, w: Snapshot, ghost flights: seq<Snapshot>)
    returns (m': map<string, map<string, nat>>)
    requires Counts(m, flights)
    ensures Counts(m', flights + [w])
  {
    var p := w.rec.status.preemptedFor;
    var counts: map<string, nat> := if p in m then m[p] else map[];
    var todo := w.rec.spec.gpu.Keys;
    while todo != {}
      invariant todo <= w.rec.spec.gpu.Keys
      invariant forall r :: Count(counts, r) == InFlightOf(m, p, r) + if r in todo then 0 else Count(w.rec.spec.gpu, r)
      decreases |todo|
    {
      var r :| r in todo;
      counts := counts[r := Count(counts, r) + w.rec.spec.gpu[r]];
      todo := todo - {r};
    }
    m' := m[p := counts];
    forall q, r
      ensures InFlightOf(m', q, r) == FreeingFor(flights + [w], q, r)
    {
      assert (flights + [w])[..|flights|] == flights;
      assert InFlightOf(m, q, r) == FreeingFor(flights, q, r);
    }
  }

  /** The evaluator's state: per-resource lists of pending and idle workloads, and capacity in flight. */
  datatype State = State(pending: map<string, seq<Entry>>, idle: map<string, seq<Entry>>,
                         inFlight: map<string, map<string, nat>>, evict: seq<Snapshot>)

  ghost predicate Holds(st: State, c: Classified) {
    && Lists(st.pending, c.pending)
    && Lists(st.idle, c.idle)
    && Counts(st.inFlight, c.inFlight)
    && st.evict == c.evict
  }

  /** One round of the classification loop. */
  method ClassifyOne(st: State, l: Listed, now: int, ghost c: Classified) returns (st': State)
    requires Holds(st, c)
    ensures Holds(st', Add(c, l, now))
  {
    match Judge(l, now) {
      case Waiting =>
        var pending := AppendPerResource(st.pending, Entry(l.w, 0, 0, 0), c.pending);
        st' := st.(pending := pending);
      case Freeing =>
        var inFlight := AddInFlight(st.inFlight, l.w, c.inFlight);
        st' := st.(inFlight := inFlight);
      case Evict =>
        st' := st.(evict := st.evict + [l.w]);
      case Candidate =>
        var idle := AppendPerResource(st.idle, IdleEntry(l, now), c.idle);
        st' := st.(idle := idle);
      case Ignored =>
        st' := st;
    }
  }

  method ClassifyWorkloads(ls: seq<Listed>, now: int) returns (st: State)
    ensures Holds(st, Classify(ls, now))
  {
    st := State(map[], map[], map[], []);
    for i := 0 to |ls|
      invariant Holds(st, Classify(ls[..i], now))
    {
      ClassifyPrefix(ls, i, now);
      st := ClassifyOne(st, ls[i], now, Classify(ls[..i], now));
    }
    assert ls[..|ls|] == ls;
  }

  lemma ClassifyPrefix(ls: seq<Listed>, i: nat, now: int)
    requires i < |ls|
    ensures Classify(ls[..i + 1], now) == Add(Classify(ls[..i], now), ls[i], now)
  {
    assert ls[..i + 1][..i] == ls[..i];
  }

  /** The greedy pass over the idle pool for one pending workload. */
  method AccumulateVictims(pool: seq<Entry>, r: string, claimed: set<string>, demand: int)
    returns (victims: seq<Entry>, accumulated: nat)
    requires demand > 0
    ensures victims == Take(pool, r, claimed, demand)
    ensures accumulated == Total(victims, r)
  {
    victims, accumulated := [], 0;
    var k := 0;
    while k < |pool|
      invariant k <= |pool| && accumulated == Total(victims, r) < demand
      invariant Take(pool, r, claimed, demand) == victims + Take(pool[k..], r, claimed, demand - accumulated)
    {
      var e := pool[k];
      assert pool[k..][1..] == pool[k + 1..];
      k := k + 1;
      if Uid(e) in claimed || Gpus(e, r) <= 0 {
        continue;
      }
      TotalSnoc(victims, e, r);
      victims := victims + [e];
      accumulated := accumulated + Gpus(e, r);
      if accumulated >= demand {
        return;
      }
    }
  }

  lemma {:induction false} EmptyPoolServesNobody(ps: seq<Entry>, r: string, inFlight: seq<Snapshot>,
                                                 claimed: set<string>)
    ensures MatchResource(ps, [], r, inFlight, claimed) == ([], claimed)
    decreases |ps|
  {
    if ps != [] {
      EmptyPoolServesNobody(ps[1..], r, inFlight, claimed);
    }
  }

  /** One pending workload: its residual demand, and victims for it if they cover it. */
  method ServePending(p: Entry, pool: seq<Entry>, r: string, inFlight: map<string, map<string, nat>>,
                      claimed: set<string>, ghost flights: seq<Snapshot>)
    returns (served: bool, demand: int, victims: seq<Entry>)
    requires Counts(inFlight, flights)
    ensures var d := Residual(p, r, flights); var vs := Take(pool, r, claimed, d);
      && (served <==> d > 0 && Total(vs, r) >= d)
      && (served ==> demand == d && victims == vs)
  {
    served, victims := false, [];
    demand := Gpus(p, r);
    assert InFlightOf(inFlight, p.gw.name, r) == FreeingFor(flights, p.gw.name, r);
    if demand <= 0 {
      return;
    }
    if p.gw.name in inFlight {
      demand := demand - Count(inFlight[p.gw.name], r);
      if demand <= 0 {
        return;
      }
    }
    var accumulated;
    victims, accumulated := AccumulateVictims(pool, r, claimed, demand);
    served := accumulated >= demand;
  }

  /** The pending workloads of one resource, oldest first. */
  method MatchPending(ps: seq<Entry>, pool: seq<Entry>, r: string, inFlight: map<string, map<string, nat>>,
                      claimed: set<string>, ghost flights: seq<Snapshot>)
    returns (groups: seq<Group>, claimed': set<string>)
    requires Counts(inFlight, flights)
    ensures groups == MatchResource(ps, pool, r, flights, claimed).0
    ensures claimed' == MatchResource(ps, pool, r, flights, claimed).1
  {
    groups, claimed' := [], claimed;
    for j := 0 to |ps|
      invariant MatchResource(ps, pool, r, flights, claimed).0 ==
        groups + MatchResource(ps[j..], pool, r, flights, claimed').0
      invariant MatchResource(ps, pool, r, flights, claimed).1 == MatchResource(ps[j..], pool, r, flights, claimed').1
    {
      assert ps[j..][0] == ps[j] && ps[j..][1..] == ps[j + 1..];
      var served, demand, victims := ServePending(ps[j], pool, r, inFlight, claimed', flights);
      if served {
        groups := groups + [Group(ps[j], r, demand, victims)];
        claimed' := claimed' + Uids(victims);
      }
    }
  }

  /** The whole matching; `order` is the order the map of pending lists happens to be iterated in. */
  method MatchVictims(order: seq<string>, pending: map<string, seq<Entry>>, idle: map<string, seq<Entry>>,
                      inFlight: map<string, map<string, nat>>, ghost flights: seq<Snapshot>)
    returns (groups: seq<Group>)
    requires Counts(inFlight, flights)
    ensures groups == Match(order, pending, idle, flights, {}).0
  {
    var claimed: set<string> := {};
    groups := [];
    var i := 0;
    while i < |order|
      invariant i <= |order|
      invariant Match(order, pending, idle, flights, {}).0 ==
        groups + Match(order[i..], pending, idle, flights, claimed).0
    {
      var r := order[i];
      assert order[i..][1..] == order[i + 1..];
      i := i + 1;
      var ps := Lookup(pending, r);
      if r !in idle || |idle[r]| == 0 {
        EmptyPoolServesNobody(ps, r, flights, claimed);
        continue;
      }
      var gs, claimed' := MatchPending(ps, idle[r], r, inFlight, claimed, flights);
      groups := groups + gs;
      claimed := claimed';
    }
  }
}
