/**
  The two walks over owner references: from a pod up to its root owner, and from a pod towards the
  owner a GpuWorkload record names. An object that cannot be read, for whatever reason, is absent
  from the cluster map.
 */
module OwnerWalk {
  import opened Common

  const MAX_OWNER_DEPTH: nat := 10

  /** A resolved group, version and kind, and a name, in the namespace of the pod. */
  datatype Key = Key(gvk: string, name: string)

  datatype Ref = Ref(key: Key, uid: string, controller: bool)

  datatype Object = Object(kind: string, uid: string, refs: seq<Ref>)

  type Cluster = map<Key, Object>

  /** The first reference that is marked as controller. */
  function ControllerRef(refs: seq<Ref>): (r: Option<Ref>)
    ensures r.Some? ==> r.value in refs && r.value.controller
    ensures r.None? ==> forall q :: q in refs ==> !q.controller
  {
    if refs == [] then None else if refs[0].controller then Some(refs[0]) else ControllerRef(refs[1..])
  }

  /** Behind references that are not marked, the one that is marked is chosen, whatever follows. */
  lemma {:induction false} ControllerRefIsFirst(refs: seq<Ref>, i: nat)
    requires i < |refs| && (forall j :: 0 <= j < i ==> !refs[j].controller)
    ensures ControllerRef(refs) == Some(refs[i]) <==> refs[i].controller
  {
    if i > 0 {
      ControllerRefIsFirst(refs[1..], i - 1);
    }
  }

  /** `path` follows controller references from object to object and ends at an object without one. */
  ghost predicate OwnerPath(c: Cluster, path: seq<Key>) {
    && path != []
    && (forall i :: 0 <= i < |path| ==> path[i] in c)
    && (forall i :: 0 <= i < |path| - 1 ==>
          ControllerRef(c[path[i]].refs).Some? && ControllerRef(c[path[i]].refs).value.key == path[i + 1])
    && ControllerRef(c[path[|path| - 1]].refs).None?
  }

  /** The root owner reached with at most `n` reads. */
  function Climb(c: Cluster, key: Key, n: nat): Option<Key>
    decreases n
  {
    if n == 0 || key !in c then None
    else
      var next := ControllerRef(c[key].refs);
      if next.None? then Some(key) else Climb(c, next.value.key, n - 1)
  }

  function Chain(c: Cluster, key: Key, n: nat): seq<Key>
    decreases n
  {
    if n == 0 || key !in c then [key]
    else
      var next := ControllerRef(c[key].refs);
      if next.None? then [key] else [key] + Chain(c, next.value.key, n - 1)
  }

  lemma {:induction false} ClimbSound(c: Cluster, key: Key, n: nat)
    requires Climb(c, key, n).Some?
    ensures var chain := Chain(c, key, n);
      OwnerPath(c, chain) && |chain| <= n && chain[0] == key && chain[|chain| - 1] == Climb(c, key, n).value
    decreases n
  {
    if ControllerRef(c[key].refs).Some? {
      ClimbSound(c, ControllerRef(c[key].refs).value.key, n - 1);
    }
  }

  lemma {:induction false} ClimbComplete(c: Cluster, path: seq<Key>, n: nat)
    requires OwnerPath(c, path) && |path| <= n
    ensures Climb(c, path[0], n) == Some(path[|path| - 1])
    decreases n
  {
    if |path| > 1 {
      ClimbComplete(c, path[1..], n - 1);
    }
  }

  /** The walk finds a root exactly when an owner path of at most `n` objects leads to it. */
  lemma RootByOwnerPath(c: Cluster, key: Key, root: Key, n: nat)
    ensures Climb(c, key, n) == Some(root) <==>
      exists path :: OwnerPath(c, path) && |path| <= n && path[0] == key && path[|path| - 1] == root
  {
    if Climb(c, key, n) == Some(root) {
      ClimbSound(c, key, n);
    }
    if path :| OwnerPath(c, path) && |path| <= n && path[0] == key && path[|path| - 1] == root {
      ClimbComplete(c, path, n);
    }
  }

  /** A path of at most ten objects leads from `start` to `root`. */
  ghost predicate Leads(c: Cluster, start: Key, root: Key) {
    exists path :: OwnerPath(c, path) && |path| <= 10 && path[0] == start && path[|path| - 1] == root
  }

  method ResolveRootOwner(c: Cluster, start: Key) returns (root: Option<Key>)
    ensures root == Climb(c, start, MAX_OWNER_DEPTH)
    ensures forall k :: Leads(c, start, k) <==> root == Some(k)
  {
    forall k
      ensures Leads(c, start, k) <==> Climb(c, start, MAX_OWNER_DEPTH) == Some(k)
    {
      RootByOwnerPath(c, start, k, MAX_OWNER_DEPTH);
    }
    var current := start;
    for i := 0 to MAX_OWNER_DEPTH
      invariant Climb(c, start, MAX_OWNER_DEPTH) == Climb(c, current, MAX_OWNER_DEPTH - i)
    {
      if current !in c {
        return None;
      }
      var next := ControllerRef(c[current].refs);
      if next.None? {
        return Some(current);
      }
      current := next.value.key;
    }
    return None;
  }

  lemma {:induction false} ChainStable(c: Cluster, key: Key, n: nat, m: nat)
    requires Climb(c, key, n).Some? && Climb(c, key, m).Some?
    ensures Chain(c, key, n) == Chain(c, key, m)
    decreases n
  {
    if ControllerRef(c[key].refs).Some? {
      ChainStable(c, ControllerRef(c[key].refs).value.key, n - 1, m - 1);
    }
  }

  lemma {:induction false} ChainSuffix(c: Cluster, key: Key, n: nat, j: nat)
    requires Climb(c, key, n).Some? && j < |Chain(c, key, n)|
    ensures j <= n && Climb(c, Chain(c, key, n)[j], n - j) == Climb(c, key, n)
    ensures Chain(c, Chain(c, key, n)[j], n - j) == Chain(c, key, n)[j..]
    decreases n
  {
    if j > 0 {
      ChainSuffix(c, ControllerRef(c[key].refs).value.key, n - 1, j - 1);
    }
  }

  /** A chain that ends at a root never meets an object twice, so no cycle has a root. */
  lemma ChainDistinct(c: Cluster, key: Key, n: nat)
    requires Climb(c, key, n).Some?
    ensures Distinct(Chain(c, key, n))
  {
    var chain := Chain(c, key, n);
    forall i, j | 0 <= i < j < |chain|
      ensures chain[i] != chain[j]
    {
      ChainSuffix(c, key, n, i);
      ChainSuffix(c, key, n, j);
      if chain[i] == chain[j] {
        ChainStable(c, chain[i], n - i, n - j);
      }
    }
  }

  // ----- Ownership by a record -----

  predicate Names(refs: seq<Ref>, uid: string) {
    exists q :: q in refs && q.uid == uid
  }

  /** The walk towards `target`: at most `n` reads, stopping at a controller UID seen before. */
  predicate Walk(c: Cluster, ref: Ref, seen: set<string>, n: nat, target: string)
    decreases n
  {
    if n == 0 || ref.key !in c then false
    else if Names(c[ref.key].refs, target) then true
    else
      var next := ControllerRef(c[ref.key].refs);
      if next.None? || next.value.uid in seen then false
      else Walk(c, next.value, seen + {next.value.uid}, n - 1, target)
  }

  method IsAncestorOf(c: Cluster, start: Ref, target: string) returns (found: bool)
    ensures found == Walk(c, start, {start.uid}, MAX_OWNER_DEPTH, target)
  {
    var seen, current := {start.uid}, start;
    for i := 0 to MAX_OWNER_DEPTH
      invariant Walk(c, start, {start.uid}, MAX_OWNER_DEPTH, target) ==
        Walk(c, current, seen, MAX_OWNER_DEPTH - i, target)
    {
      if current.key !in c {
        return false;
      }
      if Names(c[current.key].refs, target) {
        return true;
      }
      var next := ControllerRef(c[current.key].refs);
      if next.None? || next.value.uid in seen {
        return false;
      }
      seen := seen + {next.value.uid};
      current := next.value;
    }
    return false;
  }

  /** Whether a pod belongs to the record of an owner of this kind and UID. */
  predicate Owned(c: Cluster, pod: Object, kind: string, uid: string, namesGpu: bool) {
    || (kind == "Pod" && pod.uid == uid)
    || Names(pod.refs, uid)
    || (namesGpu && ControllerRef(pod.refs).Some?
        && Walk(c, ControllerRef(pod.refs).value, {ControllerRef(pod.refs).value.uid}, MAX_OWNER_DEPTH, uid))
  }

  method IsPodOwnedByWorkload(c: Cluster, pod: Object, kind: string, uid: string, namesGpu: bool) returns (owned: bool)
    ensures owned == Owned(c, pod, kind, uid, namesGpu)
  {
    if kind == "Pod" && pod.uid == uid {
      return true;
    }
    for i := 0 to |pod.refs|
      invariant forall j :: 0 <= j < i ==> pod.refs[j].uid != uid
    {
      if pod.refs[i].uid == uid {
        assert pod.refs[i] in pod.refs;
        return true;
      }
    }
    if namesGpu {
      var next := ControllerRef(pod.refs);
      if next.Some? {
        owned := IsAncestorOf(c, next.value, uid);
        return owned;
      }
    }
    return false;
  }

  /** References carry the UID of the object they name, and no two objects share a UID. */
  ghost predicate Consistent(c: Cluster) {
    && (forall k, q :: k in c && q in c[k].refs && q.key in c ==> q.uid == c[q.key].uid)
    && (forall k, l :: k in c && l in c && c[k].uid == c[l].uid ==> k == l)
  }

  /** The UIDs of the owners strictly above `key`. */
  ghost predicate Unseen(c: Cluster, key: Key, m: nat, seen: set<string>) {
    forall k :: k in Chain(c, key, m)[1..] && k in c ==> c[k].uid !in seen
  }

  lemma UnseenNext(c: Cluster, key: Key, m: nat, seen: set<string>)
    requires Consistent(c) && Climb(c, key, m).Some? && ControllerRef(c[key].refs).Some?
    requires Unseen(c, key, m, seen)
    ensures var next := ControllerRef(c[key].refs).value;
      && Climb(c, next.key, m - 1) == Climb(c, key, m)
      && next.key in c && next.uid == c[next.key].uid && next.uid !in seen
      && Unseen(c, next.key, m - 1, seen + {next.uid})
  {
    var next := ControllerRef(c[key].refs).value;
    var chain, rest := Chain(c, key, m), Chain(c, next.key, m - 1);
    assert chain == [key] + rest;
    ClimbSound(c, next.key, m - 1);
    ChainDistinct(c, next.key, m - 1);
    assert rest[0] == next.key && chain[1..] == rest;
    forall k | k in rest[1..] && k in c
      ensures c[k].uid !in seen + {next.uid}
    {
      assert k in rest;
      var i :| 0 < i < |rest| && rest[i] == k;
      assert rest[0] != rest[i];
    }
  }

  lemma {:induction false} WalkFinds(c: Cluster, ref: Ref, seen: set<string>, n: nat, m: nat)
    requires Consistent(c) && m <= n
    requires Climb(c, ref.key, m).Some? && Climb(c, ref.key, m).value != ref.key
    requires Unseen(c, ref.key, m, seen)
    ensures Climb(c, ref.key, m).value in c && Walk(c, ref, seen, n, c[Climb(c, ref.key, m).value].uid)
    decreases n
  {
    var root := Climb(c, ref.key, m).value;
    ClimbSound(c, ref.key, m);
    var next := ControllerRef(c[ref.key].refs).value;
    UnseenNext(c, ref.key, m, seen);
    if next.key == root {
      assert Names(c[ref.key].refs, c[root].uid);
    } else {
      WalkFinds(c, next, seen + {next.uid}, n - 1, m - 1);
    }
  }

  /** With a GPU named, the walk from a pod's controller finds the root above the pod. */
  lemma WalkReachesRoot(c: Cluster, pod: Key)
    requires Consistent(c) && pod in c
    requires Climb(c, pod, MAX_OWNER_DEPTH).Some? && Climb(c, pod, MAX_OWNER_DEPTH).value != pod
    ensures var root := Climb(c, pod, MAX_OWNER_DEPTH).value; root in c && Owned(c, c[pod], "", c[root].uid, true)
  {
    var root := Climb(c, pod, MAX_OWNER_DEPTH).value;
    ClimbSound(c, pod, MAX_OWNER_DEPTH);
    var next := ControllerRef(c[pod].refs).value;
    UnseenNext(c, pod, MAX_OWNER_DEPTH, {});
    if next.key == root {
      assert Names(c[pod].refs, c[root].uid);
    } else {
      assert {} + {next.uid} == {next.uid};
      WalkFinds(c, next, {next.uid}, MAX_OWNER_DEPTH, MAX_OWNER_DEPTH - 1);
    }
  }

  /**
    The walks agree: when a pod resolves to a root, the record of that root owns the pod if and only
    if a regular container names a GPU, the pod is its own root, or the root is a direct owner.
   */
  lemma WalksAgree(c: Cluster, pod: Key, namesGpu: bool)
    requires Consistent(c) && pod in c && c[pod].kind == "Pod"
    requires Climb(c, pod, MAX_OWNER_DEPTH).Some?
    ensures var root := Climb(c, pod, MAX_OWNER_DEPTH).value;
      && root in c
      && (Owned(c, c[pod], c[root].kind, c[root].uid, namesGpu) <==>
            namesGpu || root == pod || Names(c[pod].refs, c[root].uid))
  {
    var root := Climb(c, pod, MAX_OWNER_DEPTH).value;
    ClimbSound(c, pod, MAX_OWNER_DEPTH);
    if root != pod && namesGpu {
      WalkReachesRoot(c, pod);
    }
  }

  lemma {:induction false} WalkSound(c: Cluster, ref: Ref, seen: set<string>, n: nat, target: string)
    requires Walk(c, ref, seen, n, target)
    ensures exists k :: k in Chain(c, ref.key, n) && k in c && Names(c[k].refs, target)
    decreases n
  {
    if !Names(c[ref.key].refs, target) {
      var next := ControllerRef(c[ref.key].refs).value;
      WalkSound(c, next, seen + {next.uid}, n - 1, target);
      var k :| k in Chain(c, next.key, n - 1) && k in c && Names(c[k].refs, target);
      assert k in Chain(c, ref.key, n);
    } else {
      assert Chain(c, ref.key, n)[0] == ref.key;
    }
  }

  /** Ownership is never claimed without a reference: the pod or an object above it names the owner. */
  lemma OwnedHasReference(c: Cluster, pod: Key, kind: string, uid: string, namesGpu: bool)
    requires pod in c && Owned(c, c[pod], kind, uid, namesGpu)
    ensures (kind == "Pod" && c[pod].uid == uid) ||
      exists k :: k in Chain(c, pod, MAX_OWNER_DEPTH + 1) && k in c && Names(c[k].refs, uid)
  {
    var chain := Chain(c, pod, MAX_OWNER_DEPTH + 1);
    if Names(c[pod].refs, uid) {
      assert chain[0] == pod;
    } else if !(kind == "Pod" && c[pod].uid == uid) {
      var next := ControllerRef(c[pod].refs).value;
      WalkSound(c, next, {next.uid}, MAX_OWNER_DEPTH, uid);
      var k :| k in Chain(c, next.key, MAX_OWNER_DEPTH) && k in c && Names(c[k].refs, uid);
      assert k in chain;
    }
  }

  /** A pod that asks for GPUs in init containers only, two hops below its root, is not owned by it. */
  lemma InitContainerPodIsLost()
    ensures var pod, rs, d := Key("Pod", "p"), Key("ReplicaSet", "r"), Key("Deployment", "d");
      var c: Cluster := map[
        pod := Object("Pod", "1", [Ref(rs, "2", true)]),
        rs := Object("ReplicaSet", "2", [Ref(d, "3", true)]),
        d := Object("Deployment", "3", [])];
      && Consistent(c)
      && Climb(c, pod, MAX_OWNER_DEPTH) == Some(d)
      && !Owned(c, c[pod], c[d].kind, c[d].uid, false)
  {
    var pod, rs, d := Key("Pod", "p"), Key("ReplicaSet", "r"), Key("Deployment", "d");
    var c: Cluster := map[
      pod := Object("Pod", "1", [Ref(rs, "2", true)]),
      rs := Object("ReplicaSet", "2", [Ref(d, "3", true)]),
      d := Object("Deployment", "3", [])];
    assert "1" != "2" && "1" != "3" && "2" != "3" by {
      assert "1"[0] != "2"[0] && "1"[0] != "3"[0] && "2"[0] != "3"[0];
    }
    assert Climb(c, d, 8) == Some(d);
    assert Climb(c, rs, 9) == Some(d);
    assert Climb(c, pod, 10) == Some(d);
  }
}
