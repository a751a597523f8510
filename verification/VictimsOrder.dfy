/**
  The outcome of an evaluation does not depend on the order in which the API server lists the
  workloads. `sort.Slice` is not stable, so sorting is a relation here: any ordered permutation.
 */
module VictimsOrder {
  import opened Common
  import opened GpuRecords
  import opened Victims

  function Key(e: Entry, byIdle: bool): int {
    if byIdle then e.idleSince else e.gw.rec.created
  }

  ghost predicate Ordered(es: seq<Entry>, byIdle: bool) {
    forall i, j :: 0 <= i < j < |es| ==> Key(es[i], byIdle) <= Key(es[j], byIdle)
  }

  ghost predicate KeysIdentify(es: seq<Entry>, byIdle: bool) {
    forall x, y :: x in es && y in es && Key(x, byIdle) == Key(y, byIdle) ==> x == y
  }

  /** `sorted` is what sorting the per-resource list of `es` may leave behind. */
  ghost predicate SortOf(sorted: seq<Entry>, es: seq<Entry>, r: string, byIdle: bool) {
    Permutation(sorted, OfResource(es, r)) && Ordered(sorted, byIdle)
  }

  ghost predicate SortsOf(sorted: map<string, seq<Entry>>, es: seq<Entry>, order: seq<string>, byIdle: bool) {
    forall r :: r in order ==> SortOf(Lookup(sorted, r), es, r, byIdle)
  }

  lemma FirstIsLeast(a: seq<Entry>, b: seq<Entry>, byIdle: bool)
    requires Permutation(a, b) && a != [] && b != [] && Ordered(a, byIdle)
    ensures Key(a[0], byIdle) <= Key(b[0], byIdle)
  {
    PermutationMember(b, a, b[0]);
  }

  lemma {:induction false} SortUnique(a: seq<Entry>, b: seq<Entry>, byIdle: bool)
    requires Permutation(a, b) && Ordered(a, byIdle) && Ordered(b, byIdle) && KeysIdentify(a, byIdle)
    ensures a == b
  {
    PermutationLength(a, b);
    if a != [] {
      FirstIsLeast(a, b, byIdle);
      FirstIsLeast(b, a, byIdle);
      PermutationMember(b, a, b[0]);
      assert a[0] == b[0];
      PermutationTail(a, b);
      assert forall x :: x in a[1..] ==> x in a;
      SortUnique(a[1..], b[1..], byIdle);
    }
  }

  // ----- Classification of a permuted listing -----

  function Join(c: Classified, d: Classified): Classified {
    Classified(c.pending + d.pending, c.idle + d.idle, c.inFlight + d.inFlight, c.evict + d.evict)
  }

  lemma {:induction false} ClassifyConcat(a: seq<Listed>, b: seq<Listed>, now: int)
    ensures Classify(a + b, now) == Join(Classify(a, now), Classify(b, now))
  {
    if b == [] {
      assert a + b == a;
    } else {
      var l := b[|b| - 1];
      assert (a + b)[..|a + b| - 1] == a + b[..|b| - 1];
      ClassifyConcat(a, b[..|b| - 1], now);
    }
  }

  ghost predicate SameContents(c: Classified, d: Classified) {
    && Permutation(c.pending, d.pending)
    && Permutation(c.idle, d.idle)
    && Permutation(c.inFlight, d.inFlight)
    && Permutation(c.evict, d.evict)
  }

  lemma JoinPermuted(c: Classified, a: Classified, m: Classified, b: Classified)
    requires SameContents(c, Join(a, b))
    ensures SameContents(Join(c, m), Join(Join(a, m), b))
  {
    PermutationInsert(c.pending, a.pending, m.pending, b.pending);
    PermutationInsert(c.idle, a.idle, m.idle, b.idle);
    PermutationInsert(c.inFlight, a.inFlight, m.inFlight, b.inFlight);
    PermutationInsert(c.evict, a.evict, m.evict, b.evict);
  }

  lemma {:induction false} ClassifyPermuted(ls: seq<Listed>, ls': seq<Listed>, now: int)
    requires Permutation(ls, ls')
    ensures SameContents(Classify(ls, now), Classify(ls', now))
  {
    PermutationLength(ls, ls');
    if ls != [] {
      var init, l := ls[..|ls| - 1], ls[|ls| - 1];
      assert ls == init + [l];
      PermutationMember(ls, ls', l);
      var j :| 0 <= j < |ls'| && ls'[j] == l;
      var a, b := ls'[..j], ls'[j + 1..];
      PermutationRemove(init, l, ls', j);
      ClassifyPermuted(init, a + b, now);
      assert ls' == (a + [l]) + b;
      ClassifyConcat(a, b, now);
      ClassifyConcat(a, [l], now);
      ClassifyConcat(a + [l], b, now);
      ClassifyConcat(init, [l], now);
      JoinPermuted(Classify(init, now), Classify(a, now), Classify([l], now), Classify(b, now));
    }
  }

  lemma {:induction false} OfResourcePermuted(es: seq<Entry>, es': seq<Entry>, r: string)
    requires Permutation(es, es')
    ensures Permutation(OfResource(es, r), OfResource(es', r))
  {
    PermutationLength(es, es');
    if es != [] {
      var init, e := es[..|es| - 1], es[|es| - 1];
      assert es == init + [e];
      PermutationMember(es, es', e);
      var j :| 0 <= j < |es'| && es'[j] == e;
      var a, b := es'[..j], es'[j + 1..];
      PermutationRemove(init, e, es', j);
      OfResourcePermuted(init, a + b, r);
      assert es' == (a + [e]) + b;
      OfResourceConcat(a, b, r);
      OfResourceConcat(a, [e], r);
      OfResourceConcat(a + [e], b, r);
      OfResourceConcat(init, [e], r);
    }
  }

  lemma {:induction false} OfResourceConcat(a: seq<Entry>, b: seq<Entry>, r: string)
    ensures OfResource(a + b, r) == OfResource(a, r) + OfResource(b, r)
  {
    if b == [] {
      assert a + b == a;
    } else {
      assert (a + b)[..|a + b| - 1] == a + b[..|b| - 1];
      OfResourceConcat(a, b[..|b| - 1], r);
    }
  }

  lemma {:induction false} FreeingConcat(a: seq<Snapshot>, b: seq<Snapshot>, p: string, r: string)
    ensures FreeingFor(a + b, p, r) == FreeingFor(a, p, r) + FreeingFor(b, p, r)
  {
    if b == [] {
      assert a + b == a;
    } else {
      assert (a + b)[..|a + b| - 1] == a + b[..|b| - 1];
      FreeingConcat(a, b[..|b| - 1], p, r);
    }
  }

  lemma {:induction false} FreeingPermuted(a: seq<Snapshot>, a': seq<Snapshot>, p: string, r: string)
    requires Permutation(a, a')
    ensures FreeingFor(a, p, r) == FreeingFor(a', p, r)
  {
    PermutationLength(a, a');
    if a != [] {
      var init, w := a[..|a| - 1], a[|a| - 1];
      assert a == init + [w];
      PermutationMember(a, a', w);
      var j :| 0 <= j < |a'| && a'[j] == w;
      var x, y := a'[..j], a'[j + 1..];
      PermutationRemove(init, w, a', j);
      FreeingPermuted(init, x + y, p, r);
      assert a' == (x + [w]) + y;
      FreeingConcat(x, y, p, r);
      FreeingConcat(x, [w], p, r);
      FreeingConcat(x + [w], y, p, r);
      FreeingConcat(init, [w], p, r);
    }
  }

  // ----- Matching on equal lists -----

  lemma {:induction false} MatchResourceSame(ps: seq<Entry>, pool: seq<Entry>, r: string, f: seq<Snapshot>,
                                             f': seq<Snapshot>, claimed: set<string>)
    requires forall p :: FreeingFor(f, p, r) == FreeingFor(f', p, r)
    ensures MatchResource(ps, pool, r, f, claimed) == MatchResource(ps, pool, r, f', claimed)
    decreases |ps|
  {
    if ps != [] {
      var d := Residual(ps[0], r, f);
      assert d == Residual(ps[0], r, f') by {
        assert FreeingFor(f, ps[0].gw.name, r) == FreeingFor(f', ps[0].gw.name, r);
      }
      MatchResourceSame(ps[1..], pool, r, f, f', claimed);
      MatchResourceSame(ps[1..], pool, r, f, f', claimed + Uids(Take(pool, r, claimed, d)));
    }
  }

  lemma {:induction false} MatchSame(order: seq<string>, pending: map<string, seq<Entry>>,
                                     pending': map<string, seq<Entry>>,
                                    idle: map<string, seq<Entry>>, idle': map<string, seq<Entry>>,
                                    f: seq<Snapshot>, f': seq<Snapshot>, claimed: set<string>)
    requires forall r :: r in order ==> Lookup(pending, r) == Lookup(pending', r) && Lookup(idle, r) == Lookup(idle', r)
    requires forall p, r :: FreeingFor(f, p, r) == FreeingFor(f', p, r)
    ensures Match(order, pending, idle, f, claimed) == Match(order, pending', idle', f', claimed)
  {
    if order != [] {
      var r := order[0];
      MatchResourceSame(Lookup(pending, r), Lookup(idle, r), r, f, f', claimed);
      var c := MatchResource(Lookup(pending, r), Lookup(idle, r), r, f, claimed).1;
      MatchSame(order[1..], pending, pending', idle, idle', f, f', c);
    }
  }

  // ----- What the sorts mean -----

  /** Pending workloads of a resource are listed oldest first, candidates longest idle first. */
  lemma SortsMean(pending: map<string, seq<Entry>>, idle: map<string, seq<Entry>>, c: Classified, order: seq<string>)
    requires SortsOf(pending, c.pending, order, false) && SortsOf(idle, c.idle, order, true)
    ensures forall r, e :: r in order ==> (e in Lookup(pending, r) <==> e in c.pending && r in e.gw.rec.spec.gpu)
    ensures forall r, e :: r in order ==> (e in Lookup(idle, r) <==> e in c.idle && r in e.gw.rec.spec.gpu)
    ensures forall r, i, j :: r in order && 0 <= i < j < |Lookup(pending, r)| ==>
      Lookup(pending, r)[i].gw.rec.created <= Lookup(pending, r)[j].gw.rec.created
    ensures forall r :: r in order ==> SortedByIdle(Lookup(idle, r))
  {
    forall r, e | r in order
      ensures e in Lookup(pending, r) <==> e in c.pending && r in e.gw.rec.spec.gpu
      ensures e in Lookup(idle, r) <==> e in c.idle && r in e.gw.rec.spec.gpu
    {
      SameMembers(Lookup(pending, r), OfResource(c.pending, r), e);
      SameMembers(Lookup(idle, r), OfResource(c.idle, r), e);
    }
    forall r | r in order
      ensures Ordered(Lookup(pending, r), false) && Ordered(Lookup(idle, r), true)
    {
      assert SortOf(Lookup(pending, r), c.pending, r, false) && SortOf(Lookup(idle, r), c.idle, r, true);
    }
  }

  lemma SameMembers(xs: seq<Entry>, ys: seq<Entry>, e: Entry)
    requires Permutation(xs, ys)
    ensures e in xs <==> e in ys
  {
    if e in xs {
      PermutationMember(xs, ys, e);
    }
    if e in ys {
      PermutationMember(ys, xs, e);
    }
  }

  ghost predicate OldestFirst(gs: seq<Group>) {
    forall i, j :: 0 <= i < j < |gs| ==> gs[i].pending.gw.rec.created <= gs[j].pending.gw.rec.created
  }

  lemma OldestFirstCons(g: Group, rest: seq<Group>)
    requires OldestFirst(rest) && forall x :: x in rest ==> g.pending.gw.rec.created <= x.pending.gw.rec.created
    ensures OldestFirst([g] + rest)
  {
  }

  lemma HeadIsOldest(ps: seq<Entry>, p: Entry)
    requires ps != [] && p in ps[1..]
    requires forall i, j :: 0 <= i < j < |ps| ==> ps[i].gw.rec.created <= ps[j].gw.rec.created
    ensures ps[0].gw.rec.created <= p.gw.rec.created
  {
    var k :| 0 <= k < |ps[1..]| && ps[1..][k] == p;
    assert ps[k + 1] == p;
  }

  /** Whoever is served for a resource is served in list order: oldest first. */
  lemma {:induction false} ServedOldestFirst(ps: seq<Entry>, pool: seq<Entry>, r: string, inFlight: seq<Snapshot>,
                                            claimed: set<string>)
    requires forall i, j :: 0 <= i < j < |ps| ==> ps[i].gw.rec.created <= ps[j].gw.rec.created
    ensures var gs := MatchResource(ps, pool, r, inFlight, claimed).0;
      (forall g :: g in gs ==> g.pending in ps) && OldestFirst(gs)
    decreases |ps|
  {
    if ps != [] {
      var d := Residual(ps[0], r, inFlight);
      var vs := Take(pool, r, claimed, d);
      ServedOldestFirst(ps[1..], pool, r, inFlight, claimed);
      ServedOldestFirst(ps[1..], pool, r, inFlight, claimed + Uids(vs));
      if d > 0 && Total(vs, r) >= d {
        var rest := MatchResource(ps[1..], pool, r, inFlight, claimed + Uids(vs)).0;
        forall g | g in rest
          ensures ps[0].gw.rec.created <= g.pending.gw.rec.created
        {
          HeadIsOldest(ps, g.pending);
        }
        OldestFirstCons(Group(ps[0], r, d, vs), rest);
      }
    }
  }

  // ----- Order independence -----

  /** Creation times of pending workloads and idle times of candidates identify them. */
  ghost predicate TimesIdentify(ls: seq<Listed>, now: int) {
    var c := Classify(ls, now);
    KeysIdentify(c.pending, false) && KeysIdentify(c.idle, true)
  }

  lemma SortsAgree(a: map<string, seq<Entry>>, b: map<string, seq<Entry>>, es: seq<Entry>, es': seq<Entry>,
                   order: seq<string>, byIdle: bool)
    requires Permutation(es, es') && KeysIdentify(es, byIdle)
    requires SortsOf(a, es, order, byIdle) && SortsOf(b, es', order, byIdle)
    ensures forall r :: r in order ==> Lookup(a, r) == Lookup(b, r)
  {
    forall r | r in order
      ensures Lookup(a, r) == Lookup(b, r)
    {
      OfResourcePermuted(es, es', r);
      assert SortOf(Lookup(a, r), es, r, byIdle) && SortOf(Lookup(b, r), es', r, byIdle);
      forall x | x in Lookup(a, r)
        ensures x in es
      {
        PermutationMember(Lookup(a, r), OfResource(es, r), x);
      }
      SortUnique(Lookup(a, r), Lookup(b, r), byIdle);
    }
  }

  /**
    For every permutation of the listing, and whatever the sorts do with ties elsewhere, the same
    victims are matched to the same pending workloads and the same workloads are evicted outright.
   */
  lemma OrderIndependence(ls: seq<Listed>, ls': seq<Listed>, now: int, order: seq<string>,
                          pending: map<string, seq<Entry>>, pending': map<string, seq<Entry>>,
                          idle: map<string, seq<Entry>>, idle': map<string, seq<Entry>>)
    requires Permutation(ls, ls') && TimesIdentify(ls, now)
    requires SortsOf(pending, Classify(ls, now).pending, order, false)
    requires SortsOf(pending', Classify(ls', now).pending, order, false)
    requires SortsOf(idle, Classify(ls, now).idle, order, true)
    requires SortsOf(idle', Classify(ls', now).idle, order, true)
    ensures Match(order, pending, idle, Classify(ls, now).inFlight, {})
         == Match(order, pending', idle', Classify(ls', now).inFlight, {})
    ensures Permutation(Classify(ls, now).evict, Classify(ls', now).evict)
  {
    var c, c' := Classify(ls, now), Classify(ls', now);
    ClassifyPermuted(ls, ls', now);
    SortsAgree(pending, pending', c.pending, c'.pending, order, false);
    SortsAgree(idle, idle', c.idle, c'.idle, order, true);
    forall p, r
      ensures FreeingFor(c.inFlight, p, r) == FreeingFor(c'.inFlight, p, r)
    {
      FreeingPermuted(c.inFlight, c'.inFlight, p, r);
    }
    MatchSame(order, pending, pending', idle, idle', c.inFlight, c'.inFlight, {});
  }
}
