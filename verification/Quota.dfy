/**
  Node pools and quotas: nodes are grouped into flavors by name, their capacity is summed per flavor,
  and the ClusterQueue built from the flavors hands out exactly the capacity of the eligible nodes.
 */
module Quota {
  import opened Common

  datatype Resource = Cpu | Memory | AmdGpu | NvidiaGpu

  /**
    A node: whether it is cordoned or a control-plane node, the product and count labels of the two
    vendors (a count that does not parse reads as zero), and its discounted CPU and memory.
   */
  datatype Node = Node(
    cordoned: bool,
    controlPlane: bool,
    amdProduct: Option<string>,
    amdCount: Option<nat>,
    nvidiaProduct: Option<string>,
    nvidiaCount: Option<nat>,
    cpu: nat,
    memory: nat)

  /** What a node is counted as. */
  datatype Identity = Identity(vendor: string, model: string, gpus: nat)

  const GI := 1024 * 1024 * 1024

  function Identify(n: Node): (id: Identity)
    ensures id.vendor in {"cpu", "amd", "nvidia"}
    ensures id.gpus > 0 ==> id.vendor != "cpu"
  {
    var id := Identity("cpu", "only", 0);
    var id1 := if n.amdProduct.None? then id
               else if n.amdCount.None? then id.(model := n.amdProduct.value)
               else Identity("amd", n.amdProduct.value, n.amdCount.value);
    if n.nvidiaProduct.None? then id1
    else if n.nvidiaCount.None? then id1.(model := n.nvidiaProduct.value)
    else Identity("nvidia", n.nvidiaProduct.value, n.nvidiaCount.value)
  }

  predicate Eligible(n: Node, excludeControlPlane: bool) {
    !n.cordoned && !(excludeControlPlane && n.controlPlane)
  }

  function GpuResource(vendor: string): Resource {
    if vendor == "nvidia" then NvidiaGpu else AmdGpu
  }

  // ----- Flavor names -----

  function Digit(d: nat): char
    requires d < 10
  {
    ['0', '1', '2', '3', '4', '5', '6', '7', '8', '9'][d]
  }

  function Decimal(n: nat): (s: string)
    ensures s != [] && '-' !in s
  {
    if n < 10 then [Digit(n)] else Decimal(n / 10) + [Digit(n % 10)]
  }

  function FlavorName(n: Node): string {
    var id := Identify(n);
    ((((id.vendor + "-") + id.model + "-") + (Decimal(id.gpus) + "gpu") + "-") + (Decimal(n.cpu) + "core") + "-")
    + (Decimal(n.memory / GI) + "gi")
  }

  /** What a row of digits stands for. */
  function ReadDecimal(s: string): int {
    if s == [] then 0 else 10 * ReadDecimal(s[..|s| - 1]) + s[|s| - 1] as int - '0' as int
  }

  lemma {:induction false} DecimalReads(n: nat)
    ensures ReadDecimal(Decimal(n)) == n
    ensures forall c :: c in Decimal(n) ==> '0' <= c <= '9'
  {
    var s := Decimal(n);
    if n >= 10 {
      DecimalReads(n / 10);
      assert s[..|s| - 1] == Decimal(n / 10);
    } else {
      assert s[..0] == [];
    }
    assert s[|s| - 1] == Digit(n % 10) == '0' + (n % 10) as char;
  }

  lemma SamePosition(a: string, b: string, a': string, b': string)
    requires a + "-" + b == a' + "-" + b' && |a| == |a'|
    ensures a == a' && b == b'
  {
    var s, s' := a + "-" + b, a' + "-" + b';
    assert a == s[..|a|] && a' == s'[..|a|] && b == s[|a| + 1..] && b' == s'[|a| + 1..];
  }

  /** The part behind the last hyphen is determined by the string. */
  lemma SplitLast(a: string, b: string, a': string, b': string)
    requires a + "-" + b == a' + "-" + b' && '-' !in b && '-' !in b'
    ensures a == a' && b == b'
  {
    var s := a + "-" + b;
    assert s[|a|] == '-' && s[|a'|] == '-';
    assert |a| == |a'|;
    SamePosition(a, b, a', b');
  }

  /** The part before the first hyphen is determined by the string. */
  lemma SplitFirst(a: string, b: string, a': string, b': string)
    requires a + "-" + b == a' + "-" + b' && '-' !in a && '-' !in a'
    ensures a == a' && b == b'
  {
    var s := a + "-" + b;
    assert s[|a|] == '-' && s[|a'|] == '-';
    assert |a| == |a'|;
    SamePosition(a, b, a', b');
  }

  lemma SameSuffix(a: string, b: string, suffix: string)
    requires a + suffix == b + suffix
    ensures a == b
  {
    assert a == (a + suffix)[..|a|] && b == (b + suffix)[..|b|];
  }

  lemma NoHyphens(n: nat)
    ensures '-' !in Decimal(n) + "gpu" && '-' !in Decimal(n) + "core" && '-' !in Decimal(n) + "gi"
  {
  }

  /** A flavor name determines vendor, model and GPU count of its nodes, whatever the model string is. */
  lemma FlavorNameInjective(m: Node, n: Node)
    requires FlavorName(m) == FlavorName(n)
    ensures Identify(m) == Identify(n)
  {
    var i, j := Identify(m), Identify(n);
    var a, a' := (i.vendor + "-") + i.model, (j.vendor + "-") + j.model;
    var b, b' := a + "-" + (Decimal(i.gpus) + "gpu"), a' + "-" + (Decimal(j.gpus) + "gpu");
    var c, c' := b + "-" + (Decimal(m.cpu) + "core"), b' + "-" + (Decimal(n.cpu) + "core");
    NoHyphens(m.memory / GI);
    NoHyphens(n.memory / GI);
    NoHyphens(m.cpu);
    NoHyphens(n.cpu);
    NoHyphens(i.gpus);
    NoHyphens(j.gpus);
    SplitLast(c, Decimal(m.memory / GI) + "gi", c', Decimal(n.memory / GI) + "gi");
    SplitLast(b, Decimal(m.cpu) + "core", b', Decimal(n.cpu) + "core");
    SplitLast(a, Decimal(i.gpus) + "gpu", a', Decimal(j.gpus) + "gpu");
    SameSuffix(Decimal(i.gpus), Decimal(j.gpus), "gpu");
    DecimalReads(i.gpus);
    DecimalReads(j.gpus);
    SplitFirst(i.vendor, i.model, j.vendor, j.model);
  }

  /** The pieces of a string between its hyphens. */
  function Split(s: string): (parts: seq<string>)
    ensures parts != []
  {
    if s == [] then [""]
    else
      Prepended(s[0], Split(s[1..]))
  }

  lemma {:induction false} SplitAt(a: string, b: string)
    ensures Split(a + "-" + b) == Split(a) + Split(b)
  {
    var s := a + "-" + b;
    if a == [] {
      assert s[1..] == b;
    } else {
      assert s[0] == a[0] && s[1..] == a[1..] + "-" + b;
      SplitAt(a[1..], b);
      PrependAssociates(a[0], Split(a[1..]), Split(b));
    }
  }

  /** A string's pieces, one character later. */
  function Prepended(c: char, parts: seq<string>): seq<string>
    requires parts != []
  {
    if c == '-' then [""] + parts else [[c] + parts[0]] + parts[1..]
  }

  lemma PrependAssociates(c: char, xs: seq<string>, ys: seq<string>)
    requires xs != []
    ensures Prepended(c, xs + ys) == Prepended(c, xs) + ys
  {
  }

  lemma {:induction false} SplitWhole(a: string)
    requires '-' !in a
    ensures Split(a) == [a]
  {
    if a != [] {
      assert forall c :: c in a[1..] ==> c in a;
      SplitWhole(a[1..]);
      assert [a[0]] + a[1..] == a;
    }
  }

  lemma SplitFive(a: string, b: string, c: string, d: string, e: string)
    requires '-' !in a && '-' !in c && '-' !in d && '-' !in e
    ensures Split(((((a + "-") + b + "-") + c + "-") + d + "-") + e) == [a] + Split(b) + [c, d, e]
  {
    SplitAt(((((a + "-") + b) + "-" + c) + "-") + d, e);
    SplitAt((((a + "-") + b) + "-") + c, d);
    SplitAt((a + "-") + b, c);
    SplitAt(a, b);
    SplitWhole(a);
    SplitWhole(c);
    SplitWhole(d);
    SplitWhole(e);
  }

  // ----- What the labels of a node say -----

  predicate NvidiaLabelled(n: Node) {
    n.nvidiaProduct.Some? && n.nvidiaCount.Some?
  }

  predicate AmdLabelled(n: Node) {
    n.amdProduct.Some? && n.amdCount.Some?
  }

  /** The capacity of a node by its own fields: Nvidia's labels win if both of them are there. */
  function Capacity(n: Node, r: Resource): nat {
    match r
    case Cpu => n.cpu
    case Memory => n.memory
    case NvidiaGpu => if NvidiaLabelled(n) then n.nvidiaCount.value else 0
    case AmdGpu => if AmdLabelled(n) && !NvidiaLabelled(n) then n.amdCount.value else 0
  }

  function Capacities(ns: seq<Node>, r: Resource): nat {
    if ns == [] then 0 else Capacities(ns[..|ns| - 1], r) + Capacity(ns[|ns| - 1], r)
  }

  /** The nodes that are neither cordoned nor excluded as control plane. */
  function Available(ns: seq<Node>, exclude: bool): seq<Node> {
    if ns == [] then []
    else
      var rest := Available(ns[..|ns| - 1], exclude);
      var n := ns[|ns| - 1];
      if n.cordoned || (n.controlPlane && exclude) then rest else rest + [n]
  }

  /** The nodes of one flavor. */
  function InFlavor(ns: seq<Node>, flavor: string): seq<Node> {
    if ns == [] then []
    else
      var rest := InFlavor(ns[..|ns| - 1], flavor);
      if FlavorName(ns[|ns| - 1]) == flavor then rest + [ns[|ns| - 1]] else rest
  }

  /** What a flavor is called: vendor, model, GPUs, CPU and memory in GiB, as the labels and fields say. */
  lemma FlavorParts(n: Node)
    ensures var vendor := if NvidiaLabelled(n) then "nvidia" else if AmdLabelled(n) then "amd" else "cpu";
      var model := if n.nvidiaProduct.Some? then n.nvidiaProduct.value
                   else if n.amdProduct.Some? then n.amdProduct.value else "only";
      var gpus := Capacity(n, NvidiaGpu) + Capacity(n, AmdGpu);
      Split(FlavorName(n)) ==
        [vendor] + Split(model)
        + [Decimal(gpus) + "gpu", Decimal(n.cpu) + "core", Decimal(n.memory / 0x4000_0000) + "gi"]
  {
    var id := Identify(n);
    NoHyphens(id.gpus);
    NoHyphens(n.cpu);
    NoHyphens(n.memory / GI);
    SplitFive(id.vendor, id.model, Decimal(id.gpus) + "gpu", Decimal(n.cpu) + "core", Decimal(n.memory / GI) + "gi");
  }

  // ----- Aggregation -----

  /** An eligible node in its pool. */
  datatype Member = Member(flavor: string, id: Identity, cpu: nat, memory: nat)

  function MemberOf(n: Node): Member {
    Member(FlavorName(n), Identify(n), n.cpu, n.memory)
  }

  /** Capacity a pool member contributes to a resource. */
  function Contribution(m: Member, r: Resource): nat {
    match r
    case Cpu => m.cpu
    case Memory => m.memory
    case _ => if m.id.gpus > 0 && r == GpuResource(m.id.vendor) then m.id.gpus else 0
  }

  function Members(ns: seq<Node>, exclude: bool): seq<Member> {
    if ns == [] then []
    else
      var rest := Members(ns[..|ns| - 1], exclude);
      if Eligible(ns[|ns| - 1], exclude) then rest + [MemberOf(ns[|ns| - 1])] else rest
  }

  /** Nodes that share a flavor agree on vendor and GPU count. */
  ghost predicate Coherent(ms: seq<Member>) {
    forall x, y :: x in ms && y in ms && x.flavor == y.flavor ==> x.id == y.id
  }

  ghost predicate FromNodes(m: Member) {
    exists n :: m == MemberOf(n)
  }

  lemma {:induction false} MembersFromNodes(ns: seq<Node>, exclude: bool)
    ensures forall m :: m in Members(ns, exclude) ==> FromNodes(m)
  {
    if ns != [] {
      MembersFromNodes(ns[..|ns| - 1], exclude);
      assert FromNodes(MemberOf(ns[|ns| - 1]));
    }
  }

  lemma MembersCoherent(ns: seq<Node>, exclude: bool)
    ensures Coherent(Members(ns, exclude))
  {
    MembersFromNodes(ns, exclude);
    forall x, y | x in Members(ns, exclude) && y in Members(ns, exclude) && x.flavor == y.flavor
      ensures x.id == y.id
    {
      var m :| x == MemberOf(m);
      var n :| y == MemberOf(n);
      FlavorNameInjective(m, n);
    }
  }

  /** Capacity of the members of one flavor. */
  function FlavorSum(ms: seq<Member>, flavor: string, r: Resource): nat {
    if ms == [] then 0
    else
      var m := ms[|ms| - 1];
      FlavorSum(ms[..|ms| - 1], flavor, r) + if m.flavor == flavor then Contribution(m, r) else 0
  }

  /** Capacity of all members. */
  function MemberSum(ms: seq<Member>, r: Resource): nat {
    if ms == [] then 0 else MemberSum(ms[..|ms| - 1], r) + Contribution(ms[|ms| - 1], r)
  }

  lemma ContributionIs(n: Node, r: Resource)
    ensures Contribution(MemberOf(n), r) == Capacity(n, r)
  {
  }

  lemma CapacitiesSnoc(ns: seq<Node>, n: Node, r: Resource)
    ensures Capacities(ns + [n], r) == Capacities(ns, r) + Capacity(n, r)
  {
    assert (ns + [n])[..|ns|] == ns;
  }

  lemma InFlavorSnoc(ns: seq<Node>, n: Node, flavor: string)
    ensures InFlavor(ns + [n], flavor) == InFlavor(ns, flavor) + if FlavorName(n) == flavor then [n] else []
  {
    assert (ns + [n])[..|ns|] == ns;
  }

  lemma MemberSumSnoc(ms: seq<Member>, m: Member, r: Resource)
    ensures MemberSum(ms + [m], r) == MemberSum(ms, r) + Contribution(m, r)
  {
    assert (ms + [m])[..|ms|] == ms;
  }

  /** What the members contribute is what the fields of the available nodes say. */
  lemma {:induction false} TotalCapacity(ns: seq<Node>, exclude: bool, r: Resource)
    ensures MemberSum(Members(ns, exclude), r) == Capacities(Available(ns, exclude), r)
  {
    if ns != [] {
      var init, n := ns[..|ns| - 1], ns[|ns| - 1];
      TotalCapacity(init, exclude, r);
      ContributionIs(n, r);
      MemberSumSnoc(Members(init, exclude), MemberOf(n), r);
      CapacitiesSnoc(Available(init, exclude), n, r);
    }
  }

  /** The same for the members of one flavor. */
  lemma {:induction false} FlavorCapacity(ns: seq<Node>, exclude: bool, flavor: string, r: Resource)
    ensures FlavorSum(Members(ns, exclude), flavor, r) == Capacities(InFlavor(Available(ns, exclude), flavor), r)
  {
    if ns != [] {
      var init, n := ns[..|ns| - 1], ns[|ns| - 1];
      FlavorCapacity(init, exclude, flavor, r);
      ContributionIs(n, r);
      FlavorSumSnoc(Members(init, exclude), MemberOf(n), flavor, r);
      InFlavorSnoc(Available(init, exclude), n, flavor);
      CapacitiesSnoc(InFlavor(Available(init, exclude), flavor), n, r);
    }
  }

  lemma {:induction false} FlavorsAre(ns: seq<Node>, exclude: bool)
    ensures Flavors(Members(ns, exclude)) == set n | n in Available(ns, exclude) :: FlavorName(n)
  {
    if ns != [] {
      var init, n := ns[..|ns| - 1], ns[|ns| - 1];
      FlavorsAre(init, exclude);
      if Eligible(n, exclude) {
        FlavorsSnoc(Members(init, exclude), MemberOf(n));
        assert n in Available(init, exclude) + [n];
      }
    }
  }

  type Aggregates = map<string, map<Resource, nat>>

  function Resources(id: Identity): set<Resource> {
    {Cpu, Memory} + if id.gpus > 0 then {GpuResource(id.vendor)} else {}
  }

  function Flavors(ms: seq<Member>): set<string> {
    set m | m in ms :: m.flavor
  }

  /** Every member's flavor has counters for exactly the resources of the member. */
  ghost predicate Countered(agg: Aggregates, ms: seq<Member>) {
    forall m :: m in ms ==> m.flavor in agg && agg[m.flavor].Keys == Resources(m.id)
  }

  ghost predicate Summed(agg: Aggregates, ms: seq<Member>) {
    forall f, r :: f in agg && r in agg[f] ==> agg[f][r] == FlavorSum(ms, f, r)
  }

  ghost predicate Aggregated(agg: Aggregates, ms: seq<Member>) {
    agg.Keys == Flavors(ms) && Countered(agg, ms) && Summed(agg, ms)
  }

  lemma {:induction false} FlavorSumUnseen(ms: seq<Member>, flavor: string, r: Resource)
    requires flavor !in Flavors(ms)
    ensures FlavorSum(ms, flavor, r) == 0
  {
    if ms != [] {
      assert ms[|ms| - 1] in ms;
      assert forall m :: m in ms[..|ms| - 1] ==> m in ms;
      FlavorSumUnseen(ms[..|ms| - 1], flavor, r);
    }
  }

  lemma FlavorsSnoc(ms: seq<Member>, m: Member)
    ensures Flavors(ms + [m]) == Flavors(ms) + {m.flavor}
  {
    assert m in ms + [m];
  }

  /** The counters of a flavor before a member is added: present already, or all zero. */
  method Counters(agg: Aggregates, m: Member, ghost ms: seq<Member>) returns (sums: map<Resource, nat>)
    requires Aggregated(agg, ms) && Coherent(ms + [m])
    ensures sums.Keys == Resources(m.id)
    ensures forall r :: r in sums ==> sums[r] == FlavorSum(ms, m.flavor, r)
  {
    if m.flavor !in agg {
      sums := map[Cpu := 0, Memory := 0];
      if m.id.gpus > 0 {
        sums := sums[GpuResource(m.id.vendor) := 0];
      }
      forall r | r in sums
        ensures sums[r] == FlavorSum(ms, m.flavor, r)
      {
        FlavorSumUnseen(ms, m.flavor, r);
      }
    } else {
      sums := agg[m.flavor];
      ghost var x :| x in ms && x.flavor == m.flavor;
      assert x in ms + [m] && m in ms + [m];
    }
  }

  /** Adds one eligible node; the lookups of its counters cannot miss. */
  method AddNode(agg: Aggregates, m: Member, ghost ms: seq<Member>) returns (agg': Aggregates)
    requires Aggregated(agg, ms) && Coherent(ms + [m])
    ensures Aggregated(agg', ms + [m])
  {
    var sums := Counters(agg, m, ms);
    ghost var before := sums;
    sums := sums[Cpu := sums[Cpu] + m.cpu];
    sums := sums[Memory := sums[Memory] + m.memory];
    if m.id.gpus > 0 {
      sums := sums[GpuResource(m.id.vendor) := sums[GpuResource(m.id.vendor)] + m.id.gpus];
    }
    assert forall r :: r in sums ==> sums[r] == before[r] + Contribution(m, r);
    agg' := agg[m.flavor := sums];
    AggregatedSnoc(agg, m, ms, sums);
  }

  lemma AggregatedSnoc(agg: Aggregates, m: Member, ms: seq<Member>, sums: map<Resource, nat>)
    requires Aggregated(agg, ms) && Coherent(ms + [m])
    requires sums.Keys == Resources(m.id)
    requires forall r :: r in sums ==> sums[r] == FlavorSum(ms, m.flavor, r) + Contribution(m, r)
    ensures Aggregated(agg[m.flavor := sums], ms + [m])
  {
    FlavorsSnoc(ms, m);
    CounteredSnoc(agg, m, ms, sums);
    SummedSnoc(agg, m, ms, sums);
  }

  lemma CounteredSnoc(agg: Aggregates, m: Member, ms: seq<Member>, sums: map<Resource, nat>)
    requires Countered(agg, ms) && Coherent(ms + [m]) && sums.Keys == Resources(m.id)
    ensures Countered(agg[m.flavor := sums], ms + [m])
  {
    var agg' := agg[m.flavor := sums];
    forall x | x in ms + [m]
      ensures x.flavor in agg' && agg'[x.flavor].Keys == Resources(x.id)
    {
      assert m in ms + [m];
      if x.flavor == m.flavor {
        assert x.id == m.id;
      } else {
        assert x in ms;
      }
    }
  }

  lemma SummedSnoc(agg: Aggregates, m: Member, ms: seq<Member>, sums: map<Resource, nat>)
    requires Summed(agg, ms)
    requires forall r :: r in sums ==> sums[r] == FlavorSum(ms, m.flavor, r) + Contribution(m, r)
    ensures Summed(agg[m.flavor := sums], ms + [m])
  {
    var agg' := agg[m.flavor := sums];
    forall f, r | f in agg' && r in agg'[f]
      ensures agg'[f][r] == FlavorSum(ms + [m], f, r)
    {
      FlavorSumSnoc(ms, m, f, r);
    }
  }

  lemma FlavorSumSnoc(ms: seq<Member>, m: Member, flavor: string, r: Resource)
    ensures FlavorSum(ms + [m], flavor, r) ==
      FlavorSum(ms, flavor, r) + if m.flavor == flavor then Contribution(m, r) else 0
  {
    assert (ms + [m])[..|ms|] == ms;
  }

  /** Capacity per flavor and resource, over the listed nodes. */
  method AggregateNodes(ns: seq<Node>, exclude: bool) returns (agg: Aggregates)
    ensures Aggregated(agg, Members(ns, exclude))
    ensures agg.Keys == set n | n in Available(ns, exclude) :: FlavorName(n)
    ensures forall f, r :: f in agg && r in agg[f] ==> agg[f][r] == Capacities(InFlavor(Available(ns, exclude), f), r)
  {
    agg := map[];
    for i := 0 to |ns|
      invariant Aggregated(agg, Members(ns[..i], exclude))
    {
      assert ns[..i + 1][..i] == ns[..i];
      if ns[i].cordoned || (exclude && ns[i].controlPlane) {
        continue;
      }
      MembersCoherent(ns[..i + 1], exclude);
      agg := AddNode(agg, MemberOf(ns[i]), Members(ns[..i], exclude));
    }
    assert ns[..|ns|] == ns;
    FlavorsAre(ns, exclude);
    forall f, r | f in agg && r in agg[f]
      ensures agg[f][r] == Capacities(InFlavor(Available(ns, exclude), f), r)
    {
      FlavorCapacity(ns, exclude, f, r);
    }
  }
}
