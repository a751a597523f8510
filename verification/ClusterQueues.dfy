/**
  The ClusterQueue built from the node pools: every flavor lists every covered resource once, and the
  quotas of a resource add up to the capacity of the eligible nodes.
 */
module ClusterQueues {
  import opened Common
  import opened Quota

  datatype Share = Share(res: Resource, amount: nat)

  datatype Flavor = Flavor(name: string, shares: seq<Share>)

  function Amount(shares: seq<Share>, r: Resource): nat {
    if shares == [] then 0
    else Amount(shares[..|shares| - 1], r) + if shares[|shares| - 1].res == r then shares[|shares| - 1].amount else 0
  }

  function TotalQuota(flavors: seq<Flavor>, r: Resource): nat {
    if flavors == [] then 0 else TotalQuota(flavors[..|flavors| - 1], r) + Amount(flavors[|flavors| - 1].shares, r)
  }

  ghost predicate OncePerResource(shares: seq<Share>) {
    forall i, j :: 0 <= i < j < |shares| ==> shares[i].res != shares[j].res
  }

  function Listed(shares: seq<Share>): set<Resource> {
    set s | s in shares :: s.res
  }

  lemma {:induction false} AmountAbsent(shares: seq<Share>, r: Resource)
    requires r !in Listed(shares)
    ensures Amount(shares, r) == 0
  {
    if shares != [] {
      assert shares[|shares| - 1] in shares;
      assert forall s :: s in shares[..|shares| - 1] ==> s in shares;
      AmountAbsent(shares[..|shares| - 1], r);
    }
  }

  lemma AmountSnoc(shares: seq<Share>, s: Share, r: Resource)
    ensures Amount(shares + [s], r) == Amount(shares, r) + if s.res == r then s.amount else 0
  {
    assert (shares + [s])[..|shares|] == shares;
  }

  lemma ListedSnoc(shares: seq<Share>, s: Share)
    ensures Listed(shares + [s]) == Listed(shares) + {s.res}
    ensures OncePerResource(shares) && s.res !in Listed(shares) ==> OncePerResource(shares + [s])
  {
    assert s in shares + [s];
    forall i | 0 <= i < |shares|
      ensures shares[i].res in Listed(shares)
    {
      assert shares[i] in shares;
    }
  }

  // ----- Quotas of one flavor -----

  ghost predicate Covers(shares: seq<Share>, sums: map<Resource, nat>) {
    && OncePerResource(shares)
    && Listed(shares) == sums.Keys
    && forall r :: Amount(shares, r) == if r in sums then sums[r] else 0
  }

  ghost predicate PartlyCovers(shares: seq<Share>, done: set<Resource>, sums: map<Resource, nat>) {
    && done <= sums.Keys
    && OncePerResource(shares)
    && Listed(shares) == done
    && forall r :: Amount(shares, r) == if r in done then sums[r] else 0
  }

  /** One more quota of the pool. */
  method AppendShare(shares: seq<Share>, r: Resource, sums: map<Resource, nat>, ghost done: set<Resource>)
    returns (shares': seq<Share>)
    requires PartlyCovers(shares, done, sums) && r in sums && r !in done
    ensures PartlyCovers(shares', done + {r}, sums)
  {
    shares' := shares + [Share(r, sums[r])];
    ListedSnoc(shares, Share(r, sums[r]));
    forall q
      ensures Amount(shares', q) == if q in done + {r} then sums[q] else 0
    {
      AmountSnoc(shares, Share(r, sums[r]), q);
    }
  }

  /** The quotas of a pool: CPU and memory first, then whatever else it counts. */
  method PoolShares(sums: map<Resource, nat>) returns (shares: seq<Share>)
    requires Cpu in sums && Memory in sums
    ensures Covers(shares, sums)
  {
    assert PartlyCovers([], {}, sums);
    shares := AppendShare([], Cpu, sums, {});
    shares := AppendShare(shares, Memory, sums, {} + {Cpu});
    shares := AppendRest(shares, sums, {} + {Cpu} + {Memory});
  }

  ghost predicate Splits(sums: map<Resource, nat>, listed: set<Resource>, todo: set<Resource>) {
    todo !! listed && listed + todo == sums.Keys
  }

  lemma SplitsNext(sums: map<Resource, nat>, listed: set<Resource>, todo: set<Resource>, r: Resource)
    requires Splits(sums, listed, todo) && r in todo
    ensures r in sums && r !in listed && Splits(sums, listed + {r}, todo - {r})
  {
  }

  lemma AllListed(shares: seq<Share>, listed: set<Resource>, sums: map<Resource, nat>)
    requires PartlyCovers(shares, listed, sums) && Splits(sums, listed, {})
    ensures Covers(shares, sums)
  {
  }

  method AppendRest(shares: seq<Share>, sums: map<Resource, nat>, ghost done: set<Resource>) returns (full: seq<Share>)
    requires PartlyCovers(shares, done, sums) && done == {Cpu, Memory}
    ensures Covers(full, sums)
  {
    full := shares;
    var todo := sums.Keys - {Cpu, Memory};
    ghost var listed := done;
    while todo != {}
      invariant PartlyCovers(full, listed, sums) && Splits(sums, listed, todo)
      decreases |todo|
    {
      var r :| r in todo;
      SplitsNext(sums, listed, todo, r);
      full := AppendShare(full, r, sums, listed);
      listed, todo := listed + {r}, todo - {r};
    }
    AllListed(full, listed, sums);
  }

  // ----- The queue -----

  /** Each covered resource once, and nothing else. */
  ghost predicate ListsExactly(shares: seq<Share>, covered: set<Resource>) {
    OncePerResource(shares) && Listed(shares) == covered
  }

  /** Fills up a flavor with zero quotas for the covered resources it lacks. */
  method FillUp(shares: seq<Share>, covered: seq<Resource>) returns (full: seq<Share>)
    requires OncePerResource(shares) && (forall s :: s in shares ==> s.res in covered)
    ensures ListsExactly(full, set r | r in covered)
    ensures forall r :: Amount(full, r) == Amount(shares, r)
  {
    full := shares;
    for i := 0 to |covered|
      invariant OncePerResource(full)
      invariant Listed(full) == Listed(shares) + set r | r in covered[..i]
      invariant forall r :: Amount(full, r) == Amount(shares, r)
    {
      assert covered[..i + 1] == covered[..i] + [covered[i]];
      if covered[i] !in Listed(full) {
        ListedSnoc(full, Share(covered[i], 0));
        forall r
          ensures Amount(full + [Share(covered[i], 0)], r) == Amount(full, r)
        {
          AmountSnoc(full, Share(covered[i], 0), r);
        }
        full := full + [Share(covered[i], 0)];
      }
    }
    assert covered[..|covered|] == covered;
  }

  ghost predicate Pools(pools: map<string, Flavor>) {
    forall f :: f in pools ==> OncePerResource(pools[f].shares)
  }

  /**
    Builds the queue. `order` is the order the flavors end up in after the map is listed and sorted;
    the covered resources are collected in no particular order.
   */
  method CreateClusterQueue(order: seq<string>, pools: map<string, Flavor>)
    returns (covered: seq<Resource>, flavors: seq<Flavor>)
    requires Pools(pools) && (forall f :: f in order ==> f in pools)
    ensures Distinct(covered)
    ensures forall r :: r in covered <==> exists i :: 0 <= i < |order| && r in Listed(pools[order[i]].shares)
    ensures |flavors| == |order|
    ensures forall i :: 0 <= i < |order| ==>
      && flavors[i].name == pools[order[i]].name
      && ListsExactly(flavors[i].shares, set r | r in covered)
      && forall r :: Amount(flavors[i].shares, r) == Amount(pools[order[i]].shares, r)
  {
    var resources: set<Resource> := {};
    for i := 0 to |order|
      invariant forall r :: r in resources <==> exists j :: 0 <= j < i && r in Listed(pools[order[j]].shares)
    {
      resources := resources + Listed(pools[order[i]].shares);
    }
    covered := Enumerate(resources);
    flavors := [];
    for i := 0 to |order|
      invariant |flavors| == i
      invariant forall j :: 0 <= j < i ==>
        && flavors[j].name == pools[order[j]].name
        && ListsExactly(flavors[j].shares, set r | r in covered)
        && forall r :: Amount(flavors[j].shares, r) == Amount(pools[order[j]].shares, r)
    {
      var pool := pools[order[i]];
      forall s | s in pool.shares
        ensures s.res in covered
      {
        assert s.res in Listed(pool.shares);
      }
      var full := FillUp(pool.shares, covered);
      flavors := flavors + [Flavor(pool.name, full)];
    }
  }

  method Enumerate(rs: set<Resource>) returns (xs: seq<Resource>)
    ensures Distinct(xs) && (forall r :: r in xs <==> r in rs)
  {
    xs := [];
    var todo := rs;
    while todo != {}
      invariant todo <= rs && Distinct(xs) && (forall r :: r in xs <==> r in rs - todo)
      decreases |todo|
    {
      var r :| r in todo;
      assert r !in xs;
      xs := xs + [r];
      todo := todo - {r};
    }
  }

  // ----- The reordering before the queue is applied -----

  /** The quota that stands for a resource when a flavor is read into a map: the last one. */
  function LastShare(shares: seq<Share>, r: Resource): (s: Option<Share>)
    ensures s.Some? ==> s.value in shares && s.value.res == r
    ensures s.None? ==> forall x :: x in shares ==> x.res != r
  {
    if shares == [] then None
    else if shares[|shares| - 1].res == r then Some(shares[|shares| - 1])
    else LastShare(shares[..|shares| - 1], r)
  }

  /** The quotas of the covered resources, in their order, as far as the flavor has them. */
  function Reordered(shares: seq<Share>, covered: seq<Resource>): seq<Share> {
    if covered == [] then []
    else
      var rest := Reordered(shares, covered[..|covered| - 1]);
      var s := LastShare(shares, covered[|covered| - 1]);
      if s.Some? then rest + [s.value] else rest
  }

  /** Every quota is the only one of its resource, up to repetition, and is covered as often as it is listed. */
  ghost predicate CoveredExactly(shares: seq<Share>, covered: seq<Resource>) {
    forall s :: s in shares ==> LastShare(shares, s.res) == Some(s) && multiset(shares)[s] == multiset(covered)[s.res]
  }

  lemma {:induction false} ReorderedCount(shares: seq<Share>, covered: seq<Resource>, s: Share)
    ensures multiset(Reordered(shares, covered))[s] ==
      if LastShare(shares, s.res) == Some(s) then multiset(covered)[s.res] else 0
  {
    if covered != [] {
      var init, last := covered[..|covered| - 1], covered[|covered| - 1];
      assert covered == init + [last];
      assert multiset(covered)[s.res] == multiset(init)[s.res] + if last == s.res then 1 else 0;
      ReorderedCount(shares, init, s);
    }
  }

  /** The reordering loses and repeats nothing if and only if every quota is covered exactly. */
  lemma ReorderKeeps(shares: seq<Share>, covered: seq<Resource>)
    ensures Permutation(Reordered(shares, covered), shares) <==> CoveredExactly(shares, covered)
  {
    var sorted := Reordered(shares, covered);
    forall s: Share
      ensures multiset(sorted)[s] == if LastShare(shares, s.res) == Some(s) then multiset(covered)[s.res] else 0
    {
      ReorderedCount(shares, covered, s);
    }
    if CoveredExactly(shares, covered) {
      forall s
        ensures multiset(sorted)[s] == multiset(shares)[s]
      {
        assert s in shares <==> s in multiset(shares);
      }
    }
    if Permutation(sorted, shares) {
      forall s | s in shares
        ensures LastShare(shares, s.res) == Some(s) && multiset(shares)[s] == multiset(covered)[s.res]
      {
        assert s in multiset(shares);
      }
    }
  }

  /** The shares of a flavor in the order of the covered resources. */
  method Reorder(shares: seq<Share>, covered: seq<Resource>) returns (sorted: seq<Share>)
    ensures sorted == Reordered(shares, covered)
    ensures Permutation(sorted, shares) <==> CoveredExactly(shares, covered)
  {
    var byName: map<Resource, Share> := map[];
    for i := 0 to |shares|
      invariant forall r :: LastShare(shares[..i], r) == if r in byName then Some(byName[r]) else None
    {
      assert shares[..i + 1][..i] == shares[..i];
      byName := byName[shares[i].res := shares[i]];
    }
    assert shares[..|shares|] == shares;
    sorted := [];
    for i := 0 to |covered|
      invariant sorted == Reordered(shares, covered[..i])
    {
      assert covered[..i + 1][..i] == covered[..i];
      if covered[i] in byName {
        sorted := sorted + [byName[covered[i]]];
      }
    }
    assert covered[..|covered|] == covered;
    ReorderKeeps(shares, covered);
  }

  lemma OnceIsLast(shares: seq<Share>, s: Share)
    requires OncePerResource(shares) && s in shares
    ensures LastShare(shares, s.res) == Some(s)
  {
    var t := LastShare(shares, s.res).value;
    var i :| 0 <= i < |shares| && shares[i] == s;
    var j :| 0 <= j < |shares| && shares[j] == t;
    assert i == j;
  }

  /** With each resource listed and covered at most once, just the resources that are not covered are dropped. */
  lemma DropsUncovered(shares: seq<Share>, covered: seq<Resource>)
    requires OncePerResource(shares) && Distinct(covered)
    ensures Permutation(Reordered(shares, covered), shares) <==> Listed(shares) <= set r | r in covered
    ensures forall s :: s in shares ==> (s in Reordered(shares, covered) <==> s.res in covered)
  {
    ReorderKeeps(shares, covered);
    forall s | s in shares
      ensures LastShare(shares, s.res) == Some(s) && multiset(shares)[s] == 1
      ensures multiset(covered)[s.res] == if s.res in covered then 1 else 0
      ensures s in Reordered(shares, covered) <==> s.res in covered
      ensures s.res in Listed(shares)
    {
      OnceIsLast(shares, s);
      ReorderedCount(shares, covered, s);
      DistinctCount(covered, s.res);
      DistinctCount(shares, s);
      assert s in multiset(shares) && (s.res in covered <==> s.res in multiset(covered));
      assert s in Reordered(shares, covered) <==> s in multiset(Reordered(shares, covered));
    }
  }

  // ----- Conservation -----

  /** Sum over a list of flavors. */
  function OrderSum(order: seq<string>, ms: seq<Member>, r: Resource): nat {
    if order == [] then 0 else OrderSum(order[..|order| - 1], ms, r) + FlavorSum(ms, order[|order| - 1], r)
  }

  lemma {:induction false} OrderSumSnoc(order: seq<string>, ms: seq<Member>, m: Member, r: Resource)
    requires Distinct(order)
    ensures OrderSum(order, ms + [m], r) == OrderSum(order, ms, r) + if m.flavor in order then Contribution(m, r) else 0
  {
    if order != [] {
      var init, last := order[..|order| - 1], order[|order| - 1];
      assert order == init + [last] && last !in init;
      OrderSumSnoc(init, ms, m, r);
      FlavorSumSnoc(ms, m, last, r);
    }
  }

  lemma {:induction false} OrderSumEmpty(order: seq<string>, r: Resource)
    ensures OrderSum(order, [], r) == 0
  {
    if order != [] {
      OrderSumEmpty(order[..|order| - 1], r);
    }
  }

  /** Flavors partition the nodes: every node is counted in exactly one of them. */
  lemma {:induction false} PartitionSum(order: seq<string>, ms: seq<Member>, r: Resource)
    requires Distinct(order) && (forall m :: m in ms ==> m.flavor in order)
    ensures OrderSum(order, ms, r) == MemberSum(ms, r)
  {
    if ms == [] {
      OrderSumEmpty(order, r);
    } else {
      var init, last := ms[..|ms| - 1], ms[|ms| - 1];
      assert ms == init + [last] && last in ms;
      PartitionSum(order, init, r);
      OrderSumSnoc(order, init, last, r);
    }
  }

  lemma {:induction false} FlavorSumZero(ms: seq<Member>, flavor: string, r: Resource)
    requires forall m :: m in ms && m.flavor == flavor ==> r !in Resources(m.id)
    ensures FlavorSum(ms, flavor, r) == 0
  {
    if ms != [] {
      assert ms[|ms| - 1] in ms;
      FlavorSumZero(ms[..|ms| - 1], flavor, r);
    }
  }

  /** A pool's quota for a resource is the capacity of its nodes, also for resources it does not list. */
  lemma PoolQuota(agg: Aggregates, ms: seq<Member>, flavor: string, shares: seq<Share>, r: Resource)
    requires Aggregated(agg, ms) && flavor in agg && Covers(shares, agg[flavor])
    ensures Amount(shares, r) == FlavorSum(ms, flavor, r)
  {
    if r !in agg[flavor] {
      assert forall m :: m in ms && m.flavor == flavor ==> agg[flavor].Keys == Resources(m.id);
      FlavorSumZero(ms, flavor, r);
    }
  }

  lemma {:induction false} QuotasAddUp(order: seq<string>, flavors: seq<Flavor>, agg: Aggregates, ms: seq<Member>,
                                      pools: map<string, Flavor>, r: Resource)
    requires Aggregated(agg, ms) && |flavors| == |order|
    requires forall f :: f in order ==> f in agg && f in pools && Covers(pools[f].shares, agg[f])
    requires forall i :: 0 <= i < |order| ==> Amount(flavors[i].shares, r) == Amount(pools[order[i]].shares, r)
    ensures TotalQuota(flavors, r) == OrderSum(order, ms, r)
  {
    if order != [] {
      var n := |order| - 1;
      assert order[n] in order;
      QuotasAddUp(order[..n], flavors[..n], agg, ms, pools, r);
      PoolQuota(agg, ms, order[n], pools[order[n]].shares, r);
    }
  }

  /** The pools of the aggregated flavors, each with its quotas, in the order the map is listed. */
  ghost predicate PoolsOf(order: seq<string>, pools: map<string, Flavor>, agg: Aggregates) {
    && Distinct(order)
    && (forall f :: f in order <==> f in agg)
    && forall f :: f in order ==> f in pools && pools[f].name == f && Covers(pools[f].shares, agg[f])
  }

  method BuildPools(agg: Aggregates) returns (order: seq<string>, pools: map<string, Flavor>)
    requires forall f :: f in agg ==> Cpu in agg[f] && Memory in agg[f]
    ensures PoolsOf(order, pools, agg)
    ensures pools.Keys == agg.Keys
  {
    pools, order := map[], [];
    var todo := agg.Keys;
    while todo != {}
      invariant todo <= agg.Keys && pools.Keys == agg.Keys - todo && Distinct(order)
      invariant forall f :: f in order <==> f in pools
      invariant forall f :: f in pools ==> pools[f].name == f && Covers(pools[f].shares, agg[f])
      decreases |todo|
    {
      var f :| f in todo;
      assert f !in order;
      var shares := PoolShares(agg[f]);
      pools := pools[f := Flavor(f, shares)];
      order := order + [f];
      todo := todo - {f};
    }
  }

  lemma AggregatedPools(agg: Aggregates, ms: seq<Member>)
    requires Aggregated(agg, ms)
    ensures forall f :: f in agg ==> Cpu in agg[f] && Memory in agg[f]
  {
    forall f | f in agg
      ensures Cpu in agg[f] && Memory in agg[f]
    {
      var m :| m in ms && m.flavor == f;
      assert agg[m.flavor].Keys == Resources(m.id);
    }
  }

  lemma QuotaConserved(order: seq<string>, flavors: seq<Flavor>, agg: Aggregates, ms: seq<Member>,
                       pools: map<string, Flavor>, r: Resource)
    requires Aggregated(agg, ms) && PoolsOf(order, pools, agg) && |flavors| == |order|
    requires forall i :: 0 <= i < |order| ==> Amount(flavors[i].shares, r) == Amount(pools[order[i]].shares, r)
    ensures TotalQuota(flavors, r) == MemberSum(ms, r)
  {
    QuotasAddUp(order, flavors, agg, ms, pools, r);
    forall m | m in ms
      ensures m.flavor in order
    {
      assert m.flavor in Flavors(ms);
    }
    PartitionSum(order, ms, r);
  }

  lemma FlavorsNamed(order: seq<string>, flavors: seq<Flavor>, agg: Aggregates, ms: seq<Member>)
    requires Aggregated(agg, ms) && |flavors| == |order|
    requires forall f :: f in order <==> f in agg
    requires forall i :: 0 <= i < |order| ==> flavors[i].name == order[i]
    ensures (set i | 0 <= i < |flavors| :: flavors[i].name) == Flavors(ms)
  {
    forall f | f in Flavors(ms)
      ensures f in set i | 0 <= i < |flavors| :: flavors[i].name
    {
      assert f in order;
      var i :| 0 <= i < |order| && order[i] == f;
      assert flavors[i].name == f;
    }
    forall i | 0 <= i < |flavors|
      ensures flavors[i].name in Flavors(ms)
    {
      assert order[i] in order;
    }
  }

  /** The resources that some node counts towards: CPU and memory always, GPUs where a label counts any. */
  predicate Provided(ns: seq<Node>, r: Resource) {
    exists n :: n in ns && (r in {Cpu, Memory} || Capacity(n, r) > 0)
  }

  lemma ResourcesAre(n: Node, r: Resource)
    ensures r in Resources(Identify(n)) <==> r in {Cpu, Memory} || Capacity(n, r) > 0
  {
  }

  lemma {:induction false} MembersAre(ns: seq<Node>, exclude: bool, m: Member)
    ensures m in Members(ns, exclude) <==> exists n :: n in Available(ns, exclude) && m == MemberOf(n)
  {
    if ns != [] {
      var init, n := ns[..|ns| - 1], ns[|ns| - 1];
      MembersAre(init, exclude, m);
      assert n in Available(init, exclude) + [n];
    }
  }

  /** What a queue covers: the resources that the available nodes count towards. */
  lemma CoveredAre(ns: seq<Node>, exclude: bool, agg: Aggregates, r: Resource)
    requires Aggregated(agg, Members(ns, exclude))
    ensures (exists f :: f in agg && r in agg[f]) <==> Provided(Available(ns, exclude), r)
  {
    var ms, av := Members(ns, exclude), Available(ns, exclude);
    if f :| f in agg && r in agg[f] {
      var m :| m in ms && m.flavor == f;
      MembersAre(ns, exclude, m);
      var n :| n in av && m == MemberOf(n);
      ResourcesAre(n, r);
    }
    if Provided(av, r) {
      var n :| n in av && (r in {Cpu, Memory} || Capacity(n, r) > 0);
      MembersAre(ns, exclude, MemberOf(n));
      ResourcesAre(n, r);
      assert r in agg[MemberOf(n).flavor];
    }
  }

  lemma CoveredByPools(order: seq<string>, pools: map<string, Flavor>, agg: Aggregates, r: Resource)
    requires PoolsOf(order, pools, agg)
    ensures (exists i :: 0 <= i < |order| && r in Listed(pools[order[i]].shares)) <==>
      exists f :: f in agg && r in agg[f]
  {
    if i :| 0 <= i < |order| && r in Listed(pools[order[i]].shares) {
      assert order[i] in order;
    }
    if f :| f in agg && r in agg[f] {
      var i :| 0 <= i < |order| && order[i] == f;
    }
  }

  /** The flavors carry the quotas of their pools. */
  ghost predicate Carries(flavors: seq<Flavor>, order: seq<string>, pools: map<string, Flavor>) {
    && |flavors| == |order|
    && forall i :: 0 <= i < |order| ==>
         && flavors[i].name == order[i] && order[i] in pools
         && forall r :: Amount(flavors[i].shares, r) == Amount(pools[order[i]].shares, r)
  }

  /** The quota of each flavor is what its nodes have, and all quotas together are what all the nodes have. */
  ghost predicate QuotasMatch(flavors: seq<Flavor>, nodes: seq<Node>, r: Resource) {
    && TotalQuota(flavors, r) == Capacities(nodes, r)
    && forall i :: 0 <= i < |flavors| ==>
         Amount(flavors[i].shares, r) == Capacities(InFlavor(nodes, flavors[i].name), r)
  }

  /** The quota of each flavor, and of all together, by the fields of the nodes. */
  lemma QuotasByNodes(ns: seq<Node>, exclude: bool, order: seq<string>, flavors: seq<Flavor>, agg: Aggregates,
                      pools: map<string, Flavor>, r: Resource)
    requires Aggregated(agg, Members(ns, exclude)) && PoolsOf(order, pools, agg) && Carries(flavors, order, pools)
    ensures QuotasMatch(flavors, Available(ns, exclude), r)
  {
    var ms := Members(ns, exclude);
    QuotaConserved(order, flavors, agg, ms, pools, r);
    TotalCapacity(ns, exclude, r);
    forall i | 0 <= i < |flavors|
      ensures Amount(flavors[i].shares, r) == Capacities(InFlavor(Available(ns, exclude), flavors[i].name), r)
    {
      assert order[i] in order;
      PoolQuota(agg, ms, order[i], pools[order[i]].shares, r);
      FlavorCapacity(ns, exclude, order[i], r);
    }
  }

  /**
    Quota conservation: from the listed nodes to the queue, for every resource the quota of a flavor is
    what the labels of its available nodes count, and all quotas add up to what the available nodes have;
    every flavor lists each covered resource once, covered are the resources some available node counts,
    and the reordering before the queue is applied drops nothing.
   */
  method BuildQueue(ns: seq<Node>, exclude: bool) returns (covered: seq<Resource>, flavors: seq<Flavor>)
    ensures forall r :: QuotasMatch(flavors, Available(ns, exclude), r)
    ensures (set i | 0 <= i < |flavors| :: flavors[i].name) == set n | n in Available(ns, exclude) :: FlavorName(n)
    ensures forall i, j :: 0 <= i < j < |flavors| ==> flavors[i].name != flavors[j].name
    ensures Distinct(covered) && forall r :: r in covered <==> Provided(Available(ns, exclude), r)
    ensures forall i :: 0 <= i < |flavors| ==> ListsExactly(flavors[i].shares, set r | r in covered)
    ensures forall i :: 0 <= i < |flavors| ==> Permutation(Reordered(flavors[i].shares, covered), flavors[i].shares)
  {
    ghost var ms := Members(ns, exclude);
    var agg := AggregateNodes(ns, exclude);
    AggregatedPools(agg, ms);
    var order, pools := BuildPools(agg);
    covered, flavors := CreateClusterQueue(order, pools);
    assert forall i :: 0 <= i < |order| ==> order[i] in order;
    assert Carries(flavors, order, pools);
    NamesAre(ns, exclude, order, flavors, agg);
    forall r
      ensures QuotasMatch(flavors, Available(ns, exclude), r)
      ensures r in covered <==> Provided(Available(ns, exclude), r)
    {
      QuotasByNodes(ns, exclude, order, flavors, agg, pools, r);
      CoveredAre(ns, exclude, agg, r);
      CoveredByPools(order, pools, agg, r);
    }
    ReorderingKeeps(flavors, covered);
  }

  lemma NamesAre(ns: seq<Node>, exclude: bool, order: seq<string>, flavors: seq<Flavor>, agg: Aggregates)
    requires Aggregated(agg, Members(ns, exclude)) && |flavors| == |order|
    requires forall f :: f in order <==> f in agg
    requires forall i :: 0 <= i < |order| ==> flavors[i].name == order[i]
    ensures (set i | 0 <= i < |flavors| :: flavors[i].name) == set n | n in Available(ns, exclude) :: FlavorName(n)
  {
    FlavorsNamed(order, flavors, agg, Members(ns, exclude));
    FlavorsAre(ns, exclude);
  }

  lemma ReorderingKeeps(flavors: seq<Flavor>, covered: seq<Resource>)
    requires Distinct(covered)
    requires forall i :: 0 <= i < |flavors| ==> ListsExactly(flavors[i].shares, set r | r in covered)
    ensures forall i :: 0 <= i < |flavors| ==> Permutation(Reordered(flavors[i].shares, covered), flavors[i].shares)
  {
    forall i | 0 <= i < |flavors|
      ensures Permutation(Reordered(flavors[i].shares, covered), flavors[i].shares)
    {
      DropsUncovered(flavors[i].shares, covered);
    }
  }
}
