/**
  LocalQueues kept in line with the namespaces that the configured ClusterQueues list. One pass works on
  the LocalQueues listed at its start, creates the missing ones and deletes the stale ones. What each API
  call answers is an input, so failing calls are part of the model.
 */
module LocalQueues {

  /** A configured ClusterQueue. */
  datatype Queue = Queue(name: string, namespaces: seq<string>)

  /** A LocalQueue: it carries the name of its ClusterQueue. */
  datatype Key = Key(name: string, namespace: string)

  datatype Read = Found | NotFound | Failed

  /** Answers of the API during the pass: reads of ClusterQueues, and the LocalQueue calls that fail. */
  datatype Api = Api(
    answers: map<string, Read>,
    getFails: set<Key>,
    createFails: set<Key>,
    deleteFails: set<Key>)
  {
    function ReadOf(name: string): Read {
      if name in answers then answers[name] else NotFound
    }
  }

  // ----- What a pass amounts to -----

  /** The namespaces on record for a name: the last entry counts, an unknown name has none. */
  function Allowed(spec: seq<Queue>, name: string): seq<string> {
    if spec == [] then []
    else if spec[|spec| - 1].name == name then spec[|spec| - 1].namespaces
    else Allowed(spec[..|spec| - 1], name)
  }

  /** Some readable ClusterQueue asks for this LocalQueue. */
  ghost predicate Wanted(spec: seq<Queue>, api: Api, k: Key) {
    exists q :: q in spec && q.name == k.name && api.ReadOf(q.name).Found? && k.namespace in q.namespaces
  }

  /** The pass has seen that this LocalQueue is wanted. */
  ghost predicate Confirmed(spec: seq<Queue>, api: Api, k: Key) {
    Wanted(spec, api, k) && k !in api.getFails
  }

  ghost predicate ExistsAfter(spec: seq<Queue>, api: Api, before: set<Key>, k: Key) {
    if Confirmed(spec, api, k) then k in before || k !in api.createFails
    else k in before && (Allowed(spec, k.name) == [] || k in api.deleteFails)
  }

  /** No call of the pass failed; an absent ClusterQueue is no failure. */
  ghost predicate Succeeds(spec: seq<Queue>, api: Api, before: set<Key>) {
    && (forall q :: q in spec ==> !api.ReadOf(q.name).Failed?)
    && (forall k :: Wanted(spec, api, k) ==> k !in api.getFails && (k in before || k !in api.createFails))
    && (forall k :: k in before && !Confirmed(spec, api, k) && Allowed(spec, k.name) != [] ==> k !in api.deleteFails)
  }

  // ----- The pass -----

  /** ClusterQueue name to namespaces. */
  type Stale = map<string, set<string>>

  predicate InStale(stale: Stale, k: Key) {
    k.name in stale && k.namespace in stale[k.name]
  }

  method BuildStale(listed: seq<Key>) returns (stale: Stale)
    ensures forall k :: InStale(stale, k) <==> k in listed
  {
    stale := map[];
    for i := 0 to |listed|
      invariant forall k :: InStale(stale, k) <==> k in listed[..i]
    {
      assert listed[..i + 1] == listed[..i] + [listed[i]];
      if listed[i].name !in stale {
        stale := stale[listed[i].name := {}];
      }
      stale := stale[listed[i].name := stale[listed[i].name] + {listed[i].namespace}];
    }
    assert listed[..|listed|] == listed;
  }

  method DropStale(stale: Stale, k: Key) returns (stale': Stale)
    ensures forall x :: InStale(stale', x) <==> InStale(stale, x) && x != k
  {
    stale' := stale;
    if k.name in stale {
      stale' := stale[k.name := stale[k.name] - {k.namespace}];
      assert forall x :: InStale(stale', x) <==> InStale(stale, x) && (x.name != k.name || x.namespace != k.namespace);
      if stale'[k.name] == {} {
        stale' := stale' - {k.name};
      }
    }
  }

  /** Progress after the LocalQueues `seen` have been looked up. */
  ghost predicate Looked(before: set<Key>, api: Api, seen: set<Key>, queues: set<Key>, stale: Stale) {
    && (forall k :: k in queues <==> k in before || (k in seen && k !in api.getFails && k !in api.createFails))
    && (forall k :: InStale(stale, k) <==> k in before && !(k in seen && k !in api.getFails))
  }

  ghost predicate LookedWell(before: set<Key>, api: Api, seen: set<Key>) {
    forall k :: k in seen ==> k !in api.getFails && (k in before || k !in api.createFails)
  }

  method EnsureLocalQueue(k: Key, api: Api, queues: set<Key>, stale: Stale, success: bool, ghost before: set<Key>,
                          ghost seen: set<Key>)
    returns (queues': set<Key>, stale': Stale, success': bool)
    requires Looked(before, api, seen, queues, stale)
    ensures Looked(before, api, seen + {k}, queues', stale')
    ensures success' <==> success && k !in api.getFails && (k in before || k !in api.createFails || k in queues)
  {
    queues', stale', success' := queues, stale, success;
    if k in api.getFails {
      success' := false;
    } else if k in queues {
      stale' := DropStale(stale, k);
    } else if k in api.createFails {
      success' := false;
    } else {
      queues' := queues + {k};
    }
  }

  method EnsureNamespaces(q: Queue, api: Api, queues: set<Key>, stale: Stale, success: bool, ghost before: set<Key>,
                          ghost seen: set<Key>)
    returns (queues': set<Key>, stale': Stale, success': bool, ghost seen': set<Key>)
    requires Looked(before, api, seen, queues, stale)
    ensures Looked(before, api, seen', queues', stale')
    ensures forall k :: k in seen' <==> k in seen || (k.name == q.name && k.namespace in q.namespaces)
    ensures success && LookedWell(before, api, seen) ==> (success' <==> LookedWell(before, api, seen'))
    ensures !success ==> !success'
  {
    queues', stale', success', seen' := queues, stale, success, seen;
    for i := 0 to |q.namespaces|
      invariant Looked(before, api, seen', queues', stale')
      invariant forall k :: k in seen' <==> k in seen || (k.name == q.name && k.namespace in q.namespaces[..i])
      invariant success && LookedWell(before, api, seen) ==> (success' <==> LookedWell(before, api, seen'))
      invariant !success ==> !success'
    {
      assert q.namespaces[..i + 1] == q.namespaces[..i] + [q.namespaces[i]];
      var k := Key(q.name, q.namespaces[i]);
      queues', stale', success' := EnsureLocalQueue(k, api, queues', stale', success', before, seen');
      seen' := seen' + {k};
    }
    assert q.namespaces[..|q.namespaces|] == q.namespaces;
  }

  /** The namespaces on record, by name. */
  ghost predicate LooksUp(lookup: map<string, seq<string>>, spec: seq<Queue>) {
    forall n :: (if n in lookup then lookup[n] else []) == Allowed(spec, n)
  }

  ghost predicate SpecSeen(spec: seq<Queue>, api: Api, seen: set<Key>) {
    forall k :: k in seen <==> Wanted(spec, api, k)
  }

  ghost predicate NoneFailed(spec: seq<Queue>, api: Api) {
    forall q :: q in spec ==> !api.ReadOf(q.name).Failed?
  }

  lemma WantedSnoc(spec: seq<Queue>, q: Queue, api: Api, k: Key)
    ensures Wanted(spec + [q], api, k) <==>
      Wanted(spec, api, k) || (q.name == k.name && api.ReadOf(q.name).Found? && k.namespace in q.namespaces)
  {
    if Wanted(spec, api, k) {
      var x :| x in spec && x.name == k.name && api.ReadOf(x.name).Found? && k.namespace in x.namespaces;
      assert x in spec + [q];
    }
    assert q in spec + [q];
  }

  method EnsureAll(spec: seq<Queue>, api: Api, before: set<Key>, stale: Stale)
    returns (queues: set<Key>, stale': Stale, lookup: map<string, seq<string>>, success: bool, ghost seen: set<Key>)
    requires Looked(before, api, {}, before, stale)
    ensures Looked(before, api, seen, queues, stale') && SpecSeen(spec, api, seen) && LooksUp(lookup, spec)
    ensures success <==> NoneFailed(spec, api) && LookedWell(before, api, seen)
  {
    queues, stale', lookup, success, seen := before, stale, map[], true, {};
    for i := 0 to |spec|
      invariant Looked(before, api, seen, queues, stale')
      invariant SpecSeen(spec[..i], api, seen)
      invariant LooksUp(lookup, spec[..i])
      invariant success <==> NoneFailed(spec[..i], api) && LookedWell(before, api, seen)
    {
      var q := spec[i];
      ghost var seen0 := seen;
      assert spec[..i + 1] == spec[..i] + [q];
      assert spec[..i + 1][..i] == spec[..i];
      lookup := lookup[q.name := q.namespaces];
      match api.ReadOf(q.name) {
        case NotFound =>
        case Failed =>
          success := false;
        case Found =>
          if q.namespaces == [] {
            if q.name in stale' && stale'[q.name] == {} {
              stale' := stale' - {q.name};
            }
          } else {
            queues, stale', success, seen := EnsureNamespaces(q, api, queues, stale', success, before, seen);
          }
      }
      SeenSnoc(spec[..i], q, api, seen0, seen);
    }
    assert spec[..|spec|] == spec;
  }

  lemma SeenSnoc(spec: seq<Queue>, q: Queue, api: Api, seen: set<Key>, seen': set<Key>)
    requires SpecSeen(spec, api, seen)
    requires forall k :: k in seen' <==>
      k in seen || (api.ReadOf(q.name).Found? && k.name == q.name && k.namespace in q.namespaces)
    ensures SpecSeen(spec + [q], api, seen')
  {
    forall k
      ensures k in seen' <==> Wanted(spec + [q], api, k)
    {
      WantedSnoc(spec, q, api, k);
    }
  }

  method DeleteNamespaces(name: string, namespaces: set<string>, api: Api, queues: set<Key>, success: bool)
    returns (queues': set<Key>, success': bool)
    ensures forall k :: k in queues' <==>
      k in queues && !(k.name == name && k.namespace in namespaces && k !in api.deleteFails)
    ensures success' <==> success && forall n :: n in namespaces ==> Key(name, n) !in api.deleteFails
  {
    queues', success' := queues, success;
    var todo := namespaces;
    while todo != {}
      invariant todo <= namespaces
      invariant forall k :: k in queues' <==>
        k in queues && !(k.name == name && k.namespace in namespaces - todo && k !in api.deleteFails)
      invariant success' <==> success && forall n :: n in namespaces - todo ==> Key(name, n) !in api.deleteFails
      decreases |todo|
    {
      var n :| n in todo;
      if Key(name, n) in api.deleteFails {
        success' := false;
      } else {
        queues' := queues' - {Key(name, n)};
      }
      todo := todo - {n};
    }
  }

  /** Stale LocalQueues under the given names, of ClusterQueues that limit their namespaces. */
  ghost predicate Doomed(stale: Stale, names: set<string>, spec: seq<Queue>, k: Key) {
    InStale(stale, k) && k.name in names && Allowed(spec, k.name) != []
  }

  method DeleteStale(stale: Stale, lookup: map<string, seq<string>>, api: Api, queues: set<Key>, success: bool,
                     ghost spec: seq<Queue>)
    returns (queues': set<Key>, success': bool)
    requires LooksUp(lookup, spec)
    ensures forall k :: k in queues' <==> k in queues && !(Doomed(stale, stale.Keys, spec, k) && k !in api.deleteFails)
    ensures success' <==> success && forall k :: Doomed(stale, stale.Keys, spec, k) ==> k !in api.deleteFails
  {
    queues', success' := queues, success;
    var todo := stale.Keys;
    while todo != {}
      invariant todo <= stale.Keys
      invariant forall k :: k in queues' <==>
        k in queues && !(Doomed(stale, stale.Keys - todo, spec, k) && k !in api.deleteFails)
      invariant success' <==> success && forall k :: Doomed(stale, stale.Keys - todo, spec, k) ==> k !in api.deleteFails
      decreases |todo|
    {
      var name :| name in todo;
      var namespaces := if name in lookup then lookup[name] else [];
      if namespaces != [] {
        queues', success' := DeleteNamespaces(name, stale[name], api, queues', success');
      }
      todo := todo - {name};
    }
  }

  function AsSet(listed: seq<Key>): set<Key> {
    set k | k in listed
  }

  /** One pass over the configuration, given the LocalQueues that exist. */
  method SyncLocalQueues(spec: seq<Queue>, api: Api, listed: seq<Key>) returns (queues: set<Key>, success: bool)
    ensures forall k :: k in queues <==> ExistsAfter(spec, api, AsSet(listed), k)
    ensures success <==> Succeeds(spec, api, AsSet(listed))
  {
    var before := AsSet(listed);
    var stale := BuildStale(listed);
    var lookup;
    ghost var seen;
    queues, stale, lookup, success, seen := EnsureAll(spec, api, before, stale);
    queues, success := DeleteStale(stale, lookup, api, queues, success, spec);
  }

  // ----- What a pass achieves -----

  ghost predicate UniqueNames(spec: seq<Queue>) {
    forall i, j :: 0 <= i < j < |spec| ==> spec[i].name != spec[j].name
  }

  ghost predicate After(spec: seq<Queue>, api: Api, before: set<Key>, after: set<Key>) {
    forall k :: k in after <==> ExistsAfter(spec, api, before, k)
  }

  ghost function NamespacesOf(queues: set<Key>, name: string): set<string> {
    set k | k in queues && k.name == name :: k.namespace
  }

  ghost function AsNames(namespaces: seq<string>): set<string> {
    set n | n in namespaces
  }

  lemma {:induction false} AllowedUnique(spec: seq<Queue>, q: Queue)
    requires UniqueNames(spec) && q in spec
    ensures Allowed(spec, q.name) == q.namespaces
  {
    var init, last := spec[..|spec| - 1], spec[|spec| - 1];
    assert spec == init + [last];
    if q != last {
      AllowedUnique(init, q);
      var i :| 0 <= i < |init| && init[i] == q;
      assert spec[i].name != last.name;
    }
  }

  lemma WantedUnique(spec: seq<Queue>, api: Api, q: Queue, namespace: string)
    requires UniqueNames(spec) && q in spec
    ensures Wanted(spec, api, Key(q.name, namespace)) <==> api.ReadOf(q.name).Found? && namespace in q.namespaces
  {
    if Wanted(spec, api, Key(q.name, namespace)) {
      var x :| x in spec && x.name == q.name && api.ReadOf(x.name).Found? && namespace in x.namespaces;
      var i :| 0 <= i < |spec| && spec[i] == x;
      var j :| 0 <= j < |spec| && spec[j] == q;
      assert i == j;
    }
  }

  /**
    A successful pass leaves a queue that lists namespaces with LocalQueues in exactly those namespaces
    if and only if its ClusterQueue could be read. One that is absent loses every LocalQueue it has.
   */
  lemma Convergence(spec: seq<Queue>, api: Api, before: set<Key>, after: set<Key>, q: Queue)
    requires UniqueNames(spec) && q in spec && q.namespaces != []
    requires After(spec, api, before, after) && Succeeds(spec, api, before)
    ensures NamespacesOf(after, q.name) == AsNames(q.namespaces) <==> api.ReadOf(q.name).Found?
    ensures api.ReadOf(q.name).NotFound? ==> NamespacesOf(after, q.name) == {}
  {
    AllowedUnique(spec, q);
    forall n
      ensures Key(q.name, n) in after <==> api.ReadOf(q.name).Found? && n in q.namespaces
    {
      WantedUnique(spec, api, q, n);
      assert ExistsAfter(spec, api, before, Key(q.name, n)) <==> Key(q.name, n) in after;
    }
    forall n
      ensures n in NamespacesOf(after, q.name) <==> Key(q.name, n) in after
    {
      if Key(q.name, n) in after {
        assert Key(q.name, n).name == q.name;
      }
    }
    assert q.namespaces[0] in AsNames(q.namespaces);
  }

  /** Names outside the configuration, and queues that list no namespaces, keep their LocalQueues. */
  lemma Frame(spec: seq<Queue>, api: Api, before: set<Key>, after: set<Key>, name: string)
    requires After(spec, api, before, after)
    requires forall q :: q in spec && q.name == name ==> q.namespaces == []
    ensures NamespacesOf(after, name) == NamespacesOf(before, name)
    ensures forall k: Key :: k.name == name ==> (k in after <==> k in before)
  {
    AllowedNone(spec, name);
    forall k: Key | k.name == name
      ensures k in after <==> k in before
    {
      assert k in after <==> ExistsAfter(spec, api, before, k);
    }
  }

  lemma {:induction false} AllowedNone(spec: seq<Queue>, name: string)
    requires forall q :: q in spec && q.name == name ==> q.namespaces == []
    ensures Allowed(spec, name) == []
  {
    if spec != [] {
      assert spec[|spec| - 1] in spec;
      AllowedNone(spec[..|spec| - 1], name);
    }
  }

  /** A second pass with the same answers changes nothing. */
  lemma Idempotent(spec: seq<Queue>, api: Api, before: set<Key>, after: set<Key>, again: set<Key>)
    requires After(spec, api, before, after) && After(spec, api, after, again)
    ensures again == after
  {
    forall k
      ensures k in again <==> k in after
    {
      assert k in after <==> ExistsAfter(spec, api, before, k);
      assert k in again <==> ExistsAfter(spec, api, after, k);
    }
  }

  /** A lookup that fails costs the LocalQueue it was about: it is taken for stale and deleted. */
  lemma FailedLookupDeletes(spec: seq<Queue>, api: Api, before: set<Key>, after: set<Key>, k: Key)
    requires After(spec, api, before, after) && k in before && k !in api.deleteFails
    requires Allowed(spec, k.name) != []
    ensures k !in after <==> !Wanted(spec, api, k) || k in api.getFails
  {
    assert k in after <==> ExistsAfter(spec, api, before, k);
  }
}
