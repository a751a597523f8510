/**
  Settling: over an unchanged cluster, repeated reconciles stop writing the status after at most
  two writes, exactly when every stored condition type is among those observed.
 */
module Settling {
  import opened Common
  import opened Lifecycle
  import opened Reconciler
  import opened Observation

  /** Status writes made by reconciles at the given times. */
  function Writes(st: Stored, spec: Spec, v: View, nows: seq<int>): nat
    decreases |nows|
  {
    if nows == [] then 0
    else
      var r := Reconcile(st, spec, v, nows[0]);
      (if r.wrote then 1 else 0) + Writes(r.stored, spec, v, nows[1..])
  }

  /** Reconciles at the given times that apply the workload resources. */
  function Applications(st: Stored, spec: Spec, v: View, nows: seq<int>): nat
    decreases |nows|
  {
    if nows == [] then 0
    else
      var r := Reconcile(st, spec, v, nows[0]);
      (if r.workloadApplied then 1 else 0) + Applications(r.stored, spec, v, nows[1..])
  }

  // ----- Observation remembers only whether the workload was running -----

  /** What is observed for a workload without a duration, as a function of the previous status. */
  function Seen(previous: Phase, spec: Spec, v: View): Outcome<(Phase, Conditions)> {
    Observe(Stored(previous, map[], None, 0), spec, v, 0)
  }

  lemma ObserveIsSeen(st: Stored, spec: Spec, v: View, now: int)
    requires spec.duration.None?
    ensures Observe(st, spec, v, now) == Seen(st.status, spec, v)
  {
  }

  ghost predicate SameMemory(p: Phase, q: Phase) {
    p == Running <==> q == Running
  }

  lemma JobForgets(job: Job, p: Phase, q: Phase)
    requires SameMemory(p, q)
    ensures ObserveBatchJob(job, p) == ObserveBatchJob(job, q)
  {
  }

  lemma ObjectForgets(obj: Object, p: Phase, q: Phase)
    requires SameMemory(p, q)
    ensures ObserveObject(obj, p) == ObserveObject(obj, q)
  {
    match obj
    case DownloadJob(job) => JobForgets(job, p, q);
    case BatchJob(job) => JobForgets(job, p, q);
    case _ =>
  }

  lemma {:induction false} GatherForgets(rs: seq<Fetched>, p: Phase, q: Phase)
    requires SameMemory(p, q)
    ensures Gather(rs, p) == Gather(rs, q)
  {
    if rs != [] {
      var last := rs[|rs| - 1];
      GatherForgets(rs[..|rs| - 1], p, q);
      if last.Found? {
        ObjectForgets(last.obj, p, q);
      }
    }
  }

  lemma StorageForgets(spec: Spec, v: View, p: Phase, q: Phase)
    requires SameMemory(p, q)
    ensures ObserveStorage(spec, v, p) == ObserveStorage(spec, v, q)
  {
    if HandlesStorage(spec) {
      OverallForgets(StorageResources(spec.storage.value, v), p, q);
    }
  }

  lemma OverallForgets(rs: seq<Fetched>, p: Phase, q: Phase)
    requires SameMemory(p, q)
    ensures Overall(rs, p) == Overall(rs, q)
  {
    GatherForgets(rs, p, q);
  }

  lemma SeenForgets(p: Phase, q: Phase, spec: Spec, v: View)
    requires SameMemory(p, q) && spec.duration.None?
    ensures Seen(p, spec, v) == Seen(q, spec, v)
  {
    StorageForgets(spec, v, p, q);
    RestForgets(p, q, spec, v);
  }

  lemma RestForgets(p: Phase, q: Phase, spec: Spec, v: View)
    requires SameMemory(p, q) && spec.duration.None?
    ensures RestSeen(p, spec, v) == RestSeen(q, spec, v)
  {
  }

  // ----- Running remembered against not -----

  lemma DownloadMemory(job: Job)
    ensures var a, b := ObserveDownload(job, Running), ObserveDownload(job, New);
      a == b || (a.0 in {Running, Starting} && b.0 in {Running, Starting} && a.1.ctype == b.1.ctype)
  {
  }

  /** Two observations of a download that is under way. */
  ghost predicate UnderWay(a: Outcome<(Phase, seq<Condition>)>, b: Outcome<(Phase, seq<Condition>)>) {
    && a.Ok? && b.Ok? && a.value.0 in {Running, Starting} && b.value.0 in {Running, Starting}
    && Types(a.value.1) == Types(b.value.1)
  }

  /** The storage part is the same, or the download is under way either way with the same condition types. */
  lemma StorageMemory(spec: StorageSpec, v: View)
    ensures var a, b := Overall(StorageResources(spec, v), Running), Overall(StorageResources(spec, v), New);
      a == b || (UnderWay(a, b) && (HasObjectStorageDownloads(spec) || HasHfDownloads(spec)))
  {
    if HasObjectStorageDownloads(spec) || HasHfDownloads(spec) {
      StorageGathered(spec, v, Running);
      StorageGathered(spec, v, New);
      if StoragePresent(spec, v) {
        var claims := Gather(Pvcs(Claims(spec, v)), New).value;
        var a, b := ObserveDownload(v.downloadJob.it, Running), ObserveDownload(v.downloadJob.it, New);
        LastReported(StorageResources(spec, v), Running, claims.statuses, a.0, claims.conditions + [a.1]);
        LastReported(StorageResources(spec, v), New, claims.statuses, b.0, claims.conditions + [b.1]);
        DownloadMemory(v.downloadJob.it);
        TypesSnoc(claims.conditions, a.1);
        TypesSnoc(claims.conditions, b.1);
      } else {
        GatherSameShape(StorageResources(spec, v));
      }
    } else {
      PvcsGathered(Claims(spec, v), Running);
    }
  }

  lemma TypesSnoc(cs: seq<Condition>, c: Condition)
    ensures Types(cs + [c]) == Types(cs) + {c.ctype}
  {
    assert c in cs + [c];
  }

  lemma {:induction false} GatherSameShape(rs: seq<Fetched>)
    ensures var a, b := Gather(rs, Running), Gather(rs, New);
      (a.Err? <==> b.Err?) && (a.Ok? ==> (a.value.Missing? <==> b.value.Missing?))
  {
    if rs != [] {
      GatherSameShape(rs[..|rs| - 1]);
    }
  }

  function RestSeen(previous: Phase, spec: Spec, v: View): Outcome<(Phase, seq<Condition>)> {
    ObserveWorkload(Stored(previous, map[], None, 0), spec, v, 0)
  }

  /** How an observation that remembers Running relates to one that does not. */
  ghost predicate SameOrRunning(a: Outcome<(Phase, Conditions)>, b: Outcome<(Phase, Conditions)>) {
    && (a.Err? <==> b.Err?)
    && (a.Ok? ==>
          && a.value.1.Keys == b.value.1.Keys && a.value.0 != Terminating && b.value.0 != Terminating
          && (a.value.0 != Running || b.value.0 == Running ==> a.value.0 == b.value.0))
  }

  /** The same for the part of the workload itself. */
  ghost predicate PartSameOrRunning(a: Outcome<(Phase, seq<Condition>)>, b: Outcome<(Phase, seq<Condition>)>) {
    && (a.Err? <==> b.Err?)
    && (a.Ok? ==>
          && a.value.1 == b.value.1 && a.value.0 != Terminating && b.value.0 != Terminating
          && (a.value.0 != Running || b.value.0 == Running ==> a.value.0 == b.value.0))
  }

  /** A remembered Running only ever turns Starting or Pending into Running. */
  lemma RestMemory(spec: Spec, v: View)
    requires spec.duration.None?
    ensures PartSameOrRunning(RestSeen(Running, spec, v), RestSeen(New, spec, v))
  {
  }

  lemma CombineMemory(spec: Spec, schedulable: Details, c: Outcome<(Phase, seq<Condition>)>,
                      d: Outcome<(Phase, seq<Condition>)>,
                      a: Outcome<(Phase, seq<Condition>)>, b: Outcome<(Phase, seq<Condition>)>)
    requires c == d || (UnderWay(c, d) && HasDownloads(spec))
    requires PartSameOrRunning(a, b)
    ensures SameOrRunning(Combine(spec, schedulable, c, a), Combine(spec, schedulable, d, b))
  {
  }

  lemma SeenMemory(spec: Spec, v: View)
    requires spec.duration.None?
    ensures SameOrRunning(Seen(Running, spec, v), Seen(New, spec, v))
  {
    RestMemory(spec, v);
    if HandlesStorage(spec) {
      StorageMemory(spec.storage.value, v);
    }
    CombineMemory(spec, v.schedulable, ObserveStorage(spec, v, Running), ObserveStorage(spec, v, New),
                  RestSeen(Running, spec, v), RestSeen(New, spec, v));
  }

  /** What is observed again once the observed status has been stored. */
  lemma SeenAgain(spec: Spec, v: View, previous: Phase)
    requires spec.duration.None? && Seen(previous, spec, v).Ok?
    ensures var a := Seen(previous, spec, v).value; var b := Seen(a.0, spec, v);
      && b.Ok? && b.value.0 == a.0 && b.value.1.Keys == a.1.Keys
      && a.0 != Terminating
  {
    SeenMemory(spec, v);
    SeenForgets(previous, if previous == Running then Running else New, spec, v);
    var s := Seen(previous, spec, v).value.0;
    SeenForgets(s, if s == Running then Running else New, spec, v);
  }

  // ----- Settling -----

  ghost predicate Settled(st: Stored, spec: Spec, v: View) {
    IsTerminal(st.status) || (st.status != Terminating && (Seen(st.status, spec, v).Err?
      || Seen(st.status, spec, v).value == (st.status, st.conditions)))
  }

  lemma {:induction false} NoMoreWrites(st: Stored, spec: Spec, v: View, nows: seq<int>)
    requires spec.duration.None? && Settled(st, spec, v)
    ensures Writes(st, spec, v, nows) == 0
    decreases |nows|
  {
    if nows != [] {
      ObserveIsSeen(st, spec, v, nows[0]);
      NoMoreWrites(st, spec, v, nows[1..]);
    }
  }

  lemma MergeCovered(stored: Conditions, observed: Conditions)
    requires stored.Keys <= observed.Keys
    ensures stored + observed == observed
  {
  }

  /** One write leaves the record settled, or off by the details of the conditions only. */
  lemma AfterWrite(st: Stored, spec: Spec, v: View, now: int)
    requires spec.duration.None? && !IsTerminal(st.status) && st.status != Terminating
    requires Seen(st.status, spec, v).Ok? && st.conditions.Keys <= Seen(st.status, spec, v).value.1.Keys
    ensures var r := Reconcile(st, spec, v, now); var (s, cs) := Seen(st.status, spec, v).value;
      r.stored.status == s && r.stored.conditions == cs
  {
    ObserveIsSeen(st, spec, v, now);
    MergeCovered(st.conditions, Seen(st.status, spec, v).value.1);
  }

  lemma Settling(st: Stored, spec: Spec, v: View, nows: seq<int>)
    requires spec.duration.None?
    requires IsTerminal(st.status) || st.status == Terminating || Seen(st.status, spec, v).Err?
      || st.conditions.Keys <= Seen(st.status, spec, v).value.1.Keys
    ensures Writes(st, spec, v, nows) <= 2
  {
    if Settled(st, spec, v) {
      NoMoreWrites(st, spec, v, nows);
    } else if nows != [] {
      var st1 := Reconcile(st, spec, v, nows[0]).stored;
      var rest := nows[1..];
      if st.status == Terminating {
        NoMoreWrites(st1, spec, v, rest);
      } else {
        AfterWrite(st, spec, v, nows[0]);
        SeenAgain(spec, v, st.status);
        if Settled(st1, spec, v) {
          NoMoreWrites(st1, spec, v, rest);
        } else if rest != [] {
          AfterWrite(st1, spec, v, rest[0]);
          NoMoreWrites(Reconcile(st1, spec, v, rest[0]).stored, spec, v, rest[1..]);
        }
      }
    }
  }

  /** The record agrees with what is observed, in a status in which the workload is to be there. */
  ghost predicate SettledActive(st: Stored, spec: Spec, v: View) {
    Seen(st.status, spec, v) == Ok((st.status, st.conditions)) && st.status in {Pending, Starting, Running}
  }

  lemma {:induction false} AllApply(st: Stored, spec: Spec, v: View, nows: seq<int>)
    requires spec.duration.None? && SettledActive(st, spec, v)
    ensures Applications(st, spec, v, nows) == |nows|
    decreases |nows|
  {
    if nows != [] {
      ObserveIsSeen(st, spec, v, nows[0]);
      AppliedIff(st, spec, v, nows[0]);
      WrittenIff(st, spec, v, nows[0]);
      AllApply(st, spec, v, nows[1..]);
    }
  }

  /**
    The other half of settling: if the workload is observed pending, starting or running, all but at most two
    of the reconciles over an unchanged cluster apply its resources.
   */
  lemma SettledIsApplied(st: Stored, spec: Spec, v: View, nows: seq<int>)
    requires spec.duration.None? && Reconciles(st) && Seen(st.status, spec, v).Ok?
    requires st.conditions.Keys <= Seen(st.status, spec, v).value.1.Keys
    requires Seen(st.status, spec, v).value.0 in {Pending, Starting, Running}
    ensures Applications(st, spec, v, nows) >= |nows| - 2
  {
    if SettledActive(st, spec, v) {
      AllApply(st, spec, v, nows);
    } else if nows != [] {
      var st1 := Reconcile(st, spec, v, nows[0]).stored;
      var rest := nows[1..];
      AfterWrite(st, spec, v, nows[0]);
      SeenAgain(spec, v, st.status);
      if SettledActive(st1, spec, v) {
        AllApply(st1, spec, v, rest);
      } else if rest != [] {
        AfterWrite(st1, spec, v, rest[0]);
        AllApply(Reconcile(st1, spec, v, rest[0]).stored, spec, v, rest[1..]);
      }
    }
  }

  /** A stored condition of a type that is never observed makes every reconcile write and none apply the workload. */
  lemma {:induction false} NeverSettles(st: Stored, spec: Spec, v: View, nows: seq<int>)
    requires spec.duration.None? && !IsTerminal(st.status) && st.status != Terminating
    requires Seen(st.status, spec, v).Ok? && !IsTerminal(Seen(st.status, spec, v).value.0)
    requires !(st.conditions.Keys <= Seen(st.status, spec, v).value.1.Keys)
    ensures Writes(st, spec, v, nows) == |nows| && Applications(st, spec, v, nows) == 0
    decreases |nows|
  {
    if nows != [] {
      ObserveIsSeen(st, spec, v, nows[0]);
      SeenAgain(spec, v, st.status);
      var (s, cs) := Seen(st.status, spec, v).value;
      var t :| t in st.conditions.Keys && t !in cs.Keys;
      assert cs != st.conditions by {
        assert cs.Keys != st.conditions.Keys;
      }
      var st1 := Reconcile(st, spec, v, nows[0]).stored;
      assert st1.conditions == st.conditions + cs && t in st1.conditions.Keys;
      NeverSettles(st1, spec, v, nows[1..]);
    }
  }

  /** The exact condition under which a workload that is still being reconciled settles. */
  lemma SettlesIff(st: Stored, spec: Spec, v: View)
    requires spec.duration.None? && !IsTerminal(st.status) && st.status != Terminating
    requires Seen(st.status, spec, v).Ok? && !IsTerminal(Seen(st.status, spec, v).value.0)
    ensures (forall nows :: Writes(st, spec, v, nows) <= 2) <==>
      st.conditions.Keys <= Seen(st.status, spec, v).value.1.Keys
  {
    if st.conditions.Keys <= Seen(st.status, spec, v).value.1.Keys {
      forall nows
        ensures Writes(st, spec, v, nows) <= 2
      {
        Settling(st, spec, v, nows);
      }
    } else {
      NeverSettles(st, spec, v, [0, 0, 0]);
      assert Writes(st, spec, v, [0, 0, 0]) == 3;
    }
  }

  // ----- The condition of the metrics watcher -----

  lemma SeenTypes(previous: Phase, spec: Spec, v: View)
    requires spec.duration.None? && Seen(previous, spec, v).Ok?
    ensures Seen(previous, spec, v).value.1.Keys <= {SCHEDULABLE, PVC_READY, DOWNLOAD_SUCCEEDED, ADMITTED}
  {
    var storage, rest := ObserveStorage(spec, v, previous), RestSeen(previous, spec, v);
    assert rest.Ok? ==> Types(rest.value.1) <= {ADMITTED};
    if HandlesStorage(spec) {
      StorageTypes(spec.storage.value, v, previous);
    }
    assert storage.Ok? ==> Types(storage.value.1) <= {PVC_READY, DOWNLOAD_SUCCEEDED};
    CombinedTypes(spec, v.schedulable, storage, rest);
  }

  lemma CombinedTypes(spec: Spec, schedulable: Details, storage: Outcome<(Phase, seq<Condition>)>,
                      rest: Outcome<(Phase, seq<Condition>)>)
    requires storage.Ok? ==> Types(storage.value.1) <= {PVC_READY, DOWNLOAD_SUCCEEDED}
    requires rest.Ok? ==> Types(rest.value.1) <= {ADMITTED}
    ensures var seen := Combine(spec, schedulable, storage, rest);
      seen.Ok? ==> seen.value.1.Keys <= {SCHEDULABLE, PVC_READY, DOWNLOAD_SUCCEEDED, ADMITTED}
  {
  }

  /**
    The metrics watcher adds a condition that no reconcile observes: once it has, a workload that is
    still being reconciled writes on every reconcile and its resources are not applied any more.
   */
  lemma WatcherConditionPreventsSettling(st: Stored, spec: Spec, v: View, nows: seq<int>)
    requires spec.duration.None? && !IsTerminal(st.status) && st.status != Terminating
    requires Seen(st.status, spec, v).Ok? && !IsTerminal(Seen(st.status, spec, v).value.0)
    requires UNDERUTILIZED in st.conditions
    ensures Writes(st, spec, v, nows) == |nows| && Applications(st, spec, v, nows) == 0
  {
    UtilizationNotSeen(st.status, spec, v);
    NeverSettles(st, spec, v, nows);
  }

  lemma UtilizationNotSeen(previous: Phase, spec: Spec, v: View)
    requires spec.duration.None? && Seen(previous, spec, v).Ok?
    ensures UNDERUTILIZED !in Seen(previous, spec, v).value.1
  {
    SeenTypes(previous, spec, v);
    UtilizationIsDifferent();
  }

  lemma UtilizationIsDifferent()
    ensures UNDERUTILIZED !in {SCHEDULABLE, PVC_READY, DOWNLOAD_SUCCEEDED, ADMITTED}
  {
    assert UNDERUTILIZED[0] == 'R' && SCHEDULABLE[0] == 'S' && PVC_READY[0] == 'P';
    assert DOWNLOAD_SUCCEEDED[0] == 'D' && ADMITTED[0] == 'A';
  }
}
