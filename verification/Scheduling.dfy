/** GPU statistics of the cluster and the split of a GPU request into replicas. */
module Scheduling {
  import opened Common

  const MAX_INT32 := 0x7fff_ffff

  /**
    A node by name, as its pool label shows it: the vendor (absent without a well-formed label), the GPU count
    (absent when it does not parse), and the allocatable GPUs it reports.
   */
  datatype Node = Node(name: string, vendor: Option<string>, gpus: Option<int>, allocatable: Option<int>)

  datatype Stats = Stats(
    total: int,
    totalAllocatable: int,
    minAllocatable: int,
    minPerNode: int,
    nodeGpus: map<string, int>)

  predicate Matches(n: Node, vendor: string) {
    n.vendor == Some(vendor) && n.gpus.Some?
  }

  predicate Allocates(n: Node, vendor: string) {
    Matches(n, vendor) && n.allocatable.Some? && n.allocatable.value != 0
  }

  function TotalGpus(ns: seq<Node>, vendor: string): int {
    if ns == [] then 0
    else TotalGpus(ns[..|ns| - 1], vendor) + if Matches(ns[|ns| - 1], vendor) then ns[|ns| - 1].gpus.value else 0
  }

  function TotalAllocatable(ns: seq<Node>, vendor: string): int {
    if ns == [] then 0
    else TotalAllocatable(ns[..|ns| - 1], vendor)
         + if Allocates(ns[|ns| - 1], vendor) then ns[|ns| - 1].allocatable.value else 0
  }

  /** `m` is the least GPU count of the matching nodes, capped at the initial value. */
  ghost predicate IsMinPerNode(m: int, ns: seq<Node>, vendor: string) {
    && m <= MAX_INT32
    && (forall n :: n in ns && Matches(n, vendor) ==> m <= n.gpus.value)
    && (m == MAX_INT32 || exists n :: n in ns && Matches(n, vendor) && m == n.gpus.value)
  }

  ghost predicate IsMinAllocatable(m: int, ns: seq<Node>, vendor: string) {
    && m <= MAX_INT32
    && (forall n :: n in ns && Allocates(n, vendor) ==> m <= n.allocatable.value)
    && (m == MAX_INT32 || exists n :: n in ns && Allocates(n, vendor) && m == n.allocatable.value)
  }

  /** The GPU count of every matching node by name; of nodes with the same name, the last one. */
  ghost predicate MapsNodes(m: map<string, int>, ns: seq<Node>, vendor: string) {
    && (forall n :: n in ns && Matches(n, vendor) ==> n.name in m)
    && (forall k :: k in m ==> exists i :: 0 <= i < |ns| && ns[i].name == k && CountsFor(ns, i, vendor, m[k]))
  }

  ghost predicate CountsFor(ns: seq<Node>, i: nat, vendor: string, gpus: int)
    requires i < |ns|
  {
    && Matches(ns[i], vendor) && ns[i].gpus.value == gpus
    && forall j :: i < j < |ns| && Matches(ns[j], vendor) ==> ns[j].name != ns[i].name
  }

  lemma MapsNodesNext(m: map<string, int>, ns: seq<Node>, n: Node, vendor: string)
    requires MapsNodes(m, ns, vendor)
    ensures MapsNodes(if Matches(n, vendor) then m[n.name := n.gpus.value] else m, ns + [n], vendor)
  {
    var m' := if Matches(n, vendor) then m[n.name := n.gpus.value] else m;
    forall k | k in m'
      ensures exists i :: 0 <= i < |ns + [n]| && (ns + [n])[i].name == k && CountsFor(ns + [n], i, vendor, m'[k])
    {
      if Matches(n, vendor) && k == n.name {
        assert (ns + [n])[|ns|] == n && CountsFor(ns + [n], |ns|, vendor, m'[k]);
      } else {
        var i :| 0 <= i < |ns| && ns[i].name == k && CountsFor(ns, i, vendor, m[k]);
        assert (ns + [n])[i] == ns[i] && CountsFor(ns + [n], i, vendor, m'[k]);
      }
    }
  }

  ghost predicate Summarizes(st: Stats, ns: seq<Node>, vendor: string) {
    && st.total == TotalGpus(ns, vendor)
    && st.totalAllocatable == TotalAllocatable(ns, vendor)
    && IsMinPerNode(st.minPerNode, ns, vendor)
    && IsMinAllocatable(st.minAllocatable, ns, vendor)
  }

  /** The smaller of `m` and what the node allocates, if it does. */
  function LessAllocatable(m: int, n: Node, vendor: string): int {
    if Allocates(n, vendor) && n.allocatable.value < m then n.allocatable.value else m
  }

  lemma PerNodeNext(m: int, ns: seq<Node>, n: Node, vendor: string)
    requires IsMinPerNode(m, ns, vendor)
    ensures IsMinPerNode(if Matches(n, vendor) && n.gpus.value < m then n.gpus.value else m, ns + [n], vendor)
  {
    assert n in ns + [n] && forall x :: x in ns ==> x in ns + [n];
  }

  lemma AllocatableNext(m: int, ns: seq<Node>, n: Node, vendor: string)
    requires IsMinAllocatable(m, ns, vendor)
    ensures IsMinAllocatable(LessAllocatable(m, n, vendor), ns + [n], vendor)
  {
    assert n in ns + [n] && forall x :: x in ns ==> x in ns + [n];
  }

  lemma TotalsNext(ns: seq<Node>, n: Node, vendor: string)
    ensures TotalGpus(ns + [n], vendor) == TotalGpus(ns, vendor) + if Matches(n, vendor) then n.gpus.value else 0
    ensures TotalAllocatable(ns + [n], vendor) ==
      TotalAllocatable(ns, vendor) + if Allocates(n, vendor) then n.allocatable.value else 0
  {
    assert (ns + [n])[..|ns|] == ns;
  }

  /** What a node adds. */
  function Counted(st: Stats, n: Node, vendor: string): Stats {
    if !Matches(n, vendor) then st
    else
      Stats(st.total + n.gpus.value,
            st.totalAllocatable + (if Allocates(n, vendor) then n.allocatable.value else 0),
            LessAllocatable(st.minAllocatable, n, vendor),
            if n.gpus.value < st.minPerNode then n.gpus.value else st.minPerNode,
            st.nodeGpus[n.name := n.gpus.value])
  }

  lemma SummarizesNext(st: Stats, ns: seq<Node>, n: Node, vendor: string)
    requires Summarizes(st, ns, vendor)
    ensures Summarizes(Counted(st, n, vendor), ns + [n], vendor)
  {
    PerNodeNext(st.minPerNode, ns, n, vendor);
    AllocatableNext(st.minAllocatable, ns, n, vendor);
    TotalsNext(ns, n, vendor);
  }

  /** One round of the loop. */
  method CountNode(st: Stats, n: Node, vendor: string) returns (st': Stats)
    ensures st' == Counted(st, n, vendor)
  {
    if n.vendor != Some(vendor) || n.gpus.None? {
      return st;
    }
    var g := n.gpus.value;
    st' := st.(total := st.total + g, minPerNode := if g < st.minPerNode then g else st.minPerNode,
               nodeGpus := st.nodeGpus[n.name := g]);
    if n.allocatable.Some? {
      var a := n.allocatable.value;
      if a == 0 {
        return;
      }
      st' := st'.(totalAllocatable := st.totalAllocatable + a,
                  minAllocatable := if a < st.minAllocatable then a else st.minAllocatable);
    }
  }

  method FillGpuStats(ns: seq<Node>, vendor: string) returns (st: Stats)
    ensures Summarizes(st, ns, vendor) && MapsNodes(st.nodeGpus, ns, vendor)
  {
    st := Stats(0, 0, MAX_INT32, MAX_INT32, map[]);
    for i := 0 to |ns|
      invariant Summarizes(st, ns[..i], vendor) && MapsNodes(st.nodeGpus, ns[..i], vendor)
    {
      assert ns[..i + 1] == ns[..i] + [ns[i]];
      SummarizesNext(st, ns[..i], ns[i], vendor);
      MapsNodesNext(st.nodeGpus, ns[..i], ns[i], vendor);
      st := CountNode(st, ns[i], vendor);
    }
    assert ns[..|ns|] == ns;
  }

  // ----- The split -----

  datatype Request = Request(gpus: int, replicas: Option<int>, gpusPerReplica: int)

  datatype Config = Config(total: int, replicas: int, perReplica: int)

  function Requested(r: Request): int {
    var byReplicas := if r.replicas.Some? then r.replicas.value * r.gpusPerReplica else 0;
    if byReplicas > r.gpus then byReplicas else r.gpus
  }

  predicate ByUser(r: Request, st: Stats) {
    r.replicas.Some? && r.replicas.value > 0 && r.gpusPerReplica > 0 && Requested(r) <= st.total
  }

  /** The split goes by what is available rather than by what is there. */
  predicate ByAvailability(r: Request, st: Stats, useAvailability: bool) {
    useAvailability && st.totalAllocatable >= Requested(r)
  }

  /** The node minimum the split divides by. */
  function SplitMinimum(r: Request, st: Stats, useAvailability: bool): int {
    if ByAvailability(r, st, useAvailability) then st.minAllocatable else st.minPerNode
  }

  /** The nodes that minimum ranges over. */
  predicate Ranges(n: Node, vendor: string, available: bool) {
    if available then Allocates(n, vendor) else Matches(n, vendor)
  }

  function Offers(n: Node, vendor: string, available: bool): int
    requires Ranges(n, vendor, available)
  {
    if available then n.allocatable.value else n.gpus.value
  }

  /** Go's integer division truncates toward zero. */
  function Quotient(a: int, b: int): int
    requires b != 0
  {
    if a >= 0 then a / b else -((-a) / b)
  }

  /** What is left over has the sign of the dividend. */
  lemma QuotientIs(a: int, b: int)
    requires b != 0
    ensures var rest, size := a - Quotient(a, b) * b, if b > 0 then b else -b;
      && (a >= 0 ==> 0 <= rest < size)
      && (a <= 0 ==> -size < rest <= 0)
  {
    var c := if a >= 0 then a else -a;
    assert c == (c / b) * b + c % b;
    if a < 0 {
      assert Quotient(a, b) * b == -((c / b) * b);
    }
  }

  /** None is a division by zero. */
  function CalculateResourceConfig(r: Request, st: Stats, useAvailability: bool): Option<Config> {
    var total := Requested(r);
    if total == 0 then Some(Config(0, if r.replicas.Some? then r.replicas.value else 1, 0))
    else if ByUser(r, st) then Some(Config(total, r.replicas.value, r.gpusPerReplica))
    else
      var m := SplitMinimum(r, st, useAvailability);
      if m == 0 then None
      else
        var replicas := Quotient(total + m - 1, m);
        if replicas == 0 then None else Some(Config(total, replicas, Quotient(total, replicas)))
  }

  lemma Product(a: int, b: int, c: int)
    requires a <= b && c >= 0
    ensures a * c <= b * c
  {
  }

  lemma CeilingIsLeast(total: int, m: int)
    requires total > 0 && m > 0
    ensures var k := (total + m - 1) / m; 1 <= k && k * m >= total && (k - 1) * m < total
  {
    var k := (total + m - 1) / m;
    assert total + m - 1 == k * m + (total + m - 1) % m;
    assert (k - 1) * m == k * m - m;
  }

  /** An equal share of a request that `k` nodes of `m` GPUs cover is at most `m`. */
  lemma ShareAtMost(total: int, m: int, k: int)
    requires total > 0 && m > 0 && k >= 1 && k * m >= total
    ensures total / k <= m
  {
    var share := total / k;
    assert total == k * share + total % k;
    assert (m + 1) * k == k * m + k;
    if share > m {
      Product(m + 1, share, k);
    }
  }

  /** It is at least one, because fewer than `total` nodes are needed. */
  lemma ShareAtLeast(total: int, m: int, k: int)
    requires total > 0 && m > 0 && k >= 1 && (k - 1) * m < total
    ensures total / k >= 1
  {
    Product(1, m, k - 1);
    assert (k - 1) * m == m * (k - 1);
    assert k <= total;
  }

  lemma SplitArithmetic(total: int, m: int)
    requires total > 0 && m > 0
    ensures var k := (total + m - 1) / m;
      && k >= 1 && k * m >= total && (forall j: int :: j * m >= total ==> j >= k)
      && 1 <= total / k <= m
      && 0 <= total - k * (total / k) < k
      && (k * (total / k) == total <==> total % k == 0)
  {
    CeilingIsLeast(total, m);
    var k := (total + m - 1) / m;
    ShareAtMost(total, m, k);
    ShareAtLeast(total, m, k);
    forall j: int | j * m >= total
      ensures j >= k
    {
      if j < k {
        Product(j, k - 1, m);
      }
    }
    assert total == k * (total / k) + total % k;
  }

  ghost predicate IsLarger(m: int, a: int, b: int) {
    m >= a && m >= b && (m == a || m == b)
  }

  /**
    `total` is what a request comes to: its plain count of GPUs or that of its replicas, whichever is larger.
   */
  ghost predicate AsksFor(r: Request, total: int) {
    IsLarger(total, r.gpus, if r.replicas.Some? then r.replicas.value * r.gpusPerReplica else 0)
  }

  /** The request sets replicas and GPUs per replica, and there are enough GPUs in the cluster. */
  ghost predicate Given(r: Request, total: int, st: Stats) {
    r.replicas.Some? && r.replicas.value >= 1 && r.gpusPerReplica >= 1 && st.total >= total
  }

  /**
    A request for no GPUs gets none, on one replica unless it says how many; one that gives the split gets
    it as given, and what its replicas get is all of the request exactly if the plain count asks for no more.
   */
  lemma SplitAsGiven(st: Stats, r: Request, useAvailability: bool, total: int)
    requires AsksFor(r, total) && (total == 0 || Given(r, total, st))
    ensures var c := CalculateResourceConfig(r, st, useAvailability);
      && c.Some? && c.value.total == total
      && (r.replicas.Some? ==> c.value.replicas == r.replicas.value)
      && (r.replicas.None? ==> c.value.replicas == 1)
      && (total == 0 ==> c.value.perReplica == 0)
      && (total != 0 ==> c.value.perReplica == r.gpusPerReplica)
      && c.value.replicas * c.value.perReplica <= total
      && (total != 0 ==>
            (c.value.replicas * c.value.perReplica == total <==> r.gpus <= r.replicas.value * r.gpusPerReplica))
  {
  }

  /**
    The replica split: the number of replicas is least such that replicas at the node minimum cover the
    request, every share is at least one and fits every node the minimum ranges over, and what the
    replicas get falls short of the request by less than one GPU each; nothing is lost exactly when the
    replicas divide the request. The minimum is that of the allocatable GPUs if the caller asks for it and
    enough of them are there.
   */
  lemma ReplicaSplit(ns: seq<Node>, vendor: string, st: Stats, r: Request, useAvailability: bool, total: int)
    requires Summarizes(st, ns, vendor)
    requires forall n :: n in ns && Matches(n, vendor) ==>
      n.gpus.value >= 1 && (n.allocatable.Some? ==> n.allocatable.value >= 0)
    requires AsksFor(r, total) && total > 0 && !Given(r, total, st)
    ensures var available := useAvailability && st.totalAllocatable >= total;
      var m := if available then st.minAllocatable else st.minPerNode;
      var c := CalculateResourceConfig(r, st, useAvailability);
      && c.Some? && c.value.total == total
      && var k := c.value.replicas;
      && (forall j: int :: j * m >= total ==> j >= k) && k * m >= total
      && 1 <= c.value.perReplica <= m
      && (forall n :: n in ns && Ranges(n, vendor, available) ==> c.value.perReplica <= Offers(n, vendor, available))
      && 0 <= total - k * c.value.perReplica < k
      && (k * c.value.perReplica == total <==> total % k == 0)
  {
    var m := SplitMinimum(r, st, useAvailability);
    assert m >= 1;
    SplitArithmetic(total, m);
  }
}
