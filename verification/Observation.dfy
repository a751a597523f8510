/**
  What a reconcile of a KaiwoJob or KaiwoService observes and applies, stated on what the cluster shows and on
  the stored status.
 */
module Observation {
  import opened Common
  import opened Lifecycle
  import opened Reconciler

  // ----- Conditions -----

  /** Setting a list of conditions keeps the types that are not in it. */
  lemma {:induction false} SetAllKeeps(cs: Conditions, added: seq<Condition>, t: string)
    requires forall c :: c in added ==> c.ctype != t
    ensures t in SetAll(cs, added) <==> t in cs
    ensures t in cs ==> SetAll(cs, added)[t] == cs[t]
    decreases |added|
  {
    if added != [] {
      assert added[0] in added && forall c :: c in added[1..] ==> c in added;
      SetAllKeeps(Set(cs, added[0]), added[1..], t);
    }
  }

  /** Of each type in the list, the last condition is the one that is left. */
  lemma {:induction false} SetAllLast(cs: Conditions, added: seq<Condition>, i: nat)
    requires i < |added| && forall j :: i < j < |added| ==> added[j].ctype != added[i].ctype
    ensures var c := added[i]; var r := SetAll(cs, added);
      c.ctype in r && r[c.ctype] == Details(c.status, c.reason, c.message)
    decreases |added|
  {
    if i > 0 {
      SetAllLast(Set(cs, added[0]), added[1..], i - 1);
    } else {
      SetAllKeeps(Set(cs, added[0]), added[1..], added[0].ctype);
    }
  }

  // ----- Duration -----

  /** The workload is running and has both a duration and a start time. */
  ghost predicate Timed(st: Stored, spec: Spec) {
    st.status == Running && spec.duration.Some? && st.startTime.Some?
  }

  /** A condition for preemption exists only for a timed workload, and is true from the end of its duration on. */
  lemma PreemptableIs(st: Stored, spec: Spec, now: int)
    ensures var c := PreemptableCondition(st, spec, now);
      && (c.Some? <==> Timed(st, spec))
      && (c.Some? ==>
            && c.value.ctype == PREEMPTABLE
            && (c.value.status == True <==> now - st.startTime.value >= spec.duration.value)
            && (c.value.status == False <==> now - st.startTime.value < spec.duration.value))
  {
  }

  /** Past its duration, not at its end, a timed workload is preempted if the cluster has demand. */
  lemma ShouldPreemptIs(st: Stored, spec: Spec, v: View, now: int)
    ensures ShouldPreempt(st, spec, v, now) ==
      if Timed(st, spec) && now - st.startTime.value > spec.duration.value then v.gpuDemand else Ok(false)
  {
  }

  // ----- The workload part -----

  /** What the main object reports: nothing for an object that is not there. */
  ghost predicate Reports(main: Slot<Main>, previous: Phase, status: Phase) {
    match main
    case Present(Batch(job)) => status == ObserveBatchJob(job, previous)
    case Present(Other(reported)) => reported.Ok? && status == reported.value
    case Absent => status == New
    case Broken => false
  }

  /** A workload that is not admitted is Pending, whatever its object reports. */
  lemma NotAdmittedIsPending(st: Stored, spec: Spec, v: View, now: int, status: Phase)
    requires v.admitted == Ok(false) && Reports(v.workload, st.status, status)
    ensures ObserveWorkload(st, spec, v, now) ==
      Ok((Pending, [Condition(ADMITTED, False, "Pending", NOT_ADMITTED.message)]))
  {
  }

  /**
    An admitted workload has the status its object reports, or Starting without one, unless it is preempted for
    demand past its duration; then it is Terminating.
   */
  lemma AdmittedIs(st: Stored, spec: Spec, v: View, now: int, status: Phase)
    requires v.admitted == Ok(true) && Reports(v.workload, st.status, status)
    ensures var o := ObserveWorkload(st, spec, v, now);
      var past := Timed(st, spec) && now - st.startTime.value > spec.duration.value;
      && (o.Err? <==> past && v.gpuDemand.Err?)
      && (o.Ok? ==>
            && o.value.0 ==
                 (if past && v.gpuDemand.value then Terminating else if status == New then Starting else status)
            && IS_ADMITTED in o.value.1 && IS_ADMITTED.status == True && IS_ADMITTED.ctype == ADMITTED
            && (PREEMPTABLE in Types(o.value.1) <==> Timed(st, spec))
            && (PREEMPTED_FOR_DEMAND in o.value.1 <==> past && v.gpuDemand.value))
  {
    PreemptableIs(st, spec, now);
    ShouldPreemptIs(st, spec, v, now);
    TypeNames();
    var o := ObserveWorkload(st, spec, v, now);
    if o.Ok? {
      assert o.value.1[0] == IS_ADMITTED && IS_ADMITTED in o.value.1;
      if Timed(st, spec) {
        assert o.value.1[1].ctype == PREEMPTABLE && o.value.1[1] in o.value.1;
      }
    }
  }

  lemma TypeNames()
    ensures ADMITTED != PREEMPTABLE && ADMITTED != EARLY && PREEMPTABLE != EARLY
  {
    assert ADMITTED[0] == 'A' && PREEMPTABLE[0] == 'P' && EARLY[0] == 'W';
  }

  /** The workload part cannot be observed exactly when one of the reads it needs fails. */
  lemma UnreadableWorkload(st: Stored, spec: Spec, v: View, now: int)
    ensures v.admitted.Err? || (forall status :: !Reports(v.workload, st.status, status)) ==>
      ObserveWorkload(st, spec, v, now).Err?
  {
    if v.admitted.Ok? && ObserveWorkload(st, spec, v, now).Ok? {
      assert Reports(v.workload, st.status, MainStatus(v.workload, st.status).value);
    }
  }

  // ----- Storage -----

  /** A claim is complete when bound, fails when lost, and is otherwise not ready. */
  lemma ClaimIs(p: PvcPhase)
    ensures var (status, c) := ObservePvc(p);
      && (status == Complete <==> p == Bound) && (status == Failed <==> p == Lost)
      && (status == Pending <==> p == ClaimPending)
      && c.ctype == PVC_READY && (c.status == True <==> p == Bound)
      && (c.status == False <==> p == ClaimPending || p == Lost)
  {
  }

  /** The download job has succeeded, or has failed. */
  ghost predicate JobSucceeds(job: Job) {
    Decisive(job.conditions) == Some(Complete)
  }

  ghost predicate JobFails(job: Job) {
    Decisive(job.conditions) == Some(Failed) || (Decisive(job.conditions).None? && job.failed > 0)
  }

  /** Between the two, the download is under way; its condition is true exactly once it has succeeded. */
  lemma DownloadIs(job: Job, previous: Phase)
    ensures var (status, c) := ObserveDownload(job, previous);
      && (status == Complete <==> JobSucceeds(job)) && (status == Failed <==> JobFails(job))
      && (!JobSucceeds(job) && !JobFails(job) ==> status == Running || status == Starting)
      && c.ctype == DOWNLOAD_SUCCEEDED && (c.status == True <==> JobSucceeds(job))
      && (c.status == False <==> !JobSucceeds(job))
  {
    BatchJobMemory(job, previous, New);
  }

  /** A workload that cannot be scheduled is in Error, whatever else the cluster shows. */
  lemma UnschedulableIsError(st: Stored, spec: Spec, v: View, now: int)
    requires v.schedulable.status == False
    ensures Observe(st, spec, v, now) == Ok((Error, map[SCHEDULABLE := v.schedulable]))
  {
  }

  /** The first claim that is not there is one that could not be read. */
  ghost predicate FirstBroken(claims: seq<Slot<PvcPhase>>) {
    exists i :: 0 <= i < |claims| && claims[i].Broken? && forall j :: 0 <= j < i ==> claims[j].Present?
  }

  lemma FirstBrokenSnoc(claims: seq<Slot<PvcPhase>>, last: Slot<PvcPhase>)
    ensures FirstBroken(claims + [last]) <==>
      FirstBroken(claims) || (last.Broken? && forall c :: c in claims ==> c.Present?)
  {
    var all := claims + [last];
    if i :| 0 <= i < |all| && all[i].Broken? && forall j :: 0 <= j < i ==> all[j].Present? {
      if i < |claims| {
        assert claims[i].Broken? && forall j :: 0 <= j < i ==> claims[j] == all[j];
      } else {
        assert forall j :: 0 <= j < |claims| ==> claims[j] == all[j];
      }
    }
    if i :| 0 <= i < |claims| && claims[i].Broken? && forall j :: 0 <= j < i ==> claims[j].Present? {
      assert all[i].Broken? && forall j :: 0 <= j < i ==> all[j] == claims[j];
    }
    if last.Broken? && forall c :: c in claims ==> c.Present? {
      assert all[|claims|].Broken? && forall j :: 0 <= j < |claims| ==> all[j] == claims[j] && claims[j] in claims;
    }
  }

  lemma {:induction false} ClaimsUnreadable(claims: seq<Slot<PvcPhase>>, previous: Phase)
    ensures Gather(Pvcs(claims), previous).Err? <==> FirstBroken(claims)
  {
    if claims != [] {
      var init, last := claims[..|claims| - 1], claims[|claims| - 1];
      assert claims == init + [last];
      ClaimsUnreadable(init, previous);
      FirstBrokenSnoc(init, last);
      PvcsGathered(init, previous);
      GatherSnoc(Pvcs(init), PvcOf(last), previous);
    }
  }

  /** Of the storage objects in their order, the first that is not there could not be read. */
  ghost predicate StorageBroken(s: StorageSpec, v: View) {
    if s.dataSize && !v.dataPvc.Present? then v.dataPvc.Broken?
    else if s.hfRepos > 0 && !v.hfPvc.Present? then v.hfPvc.Broken?
    else if !v.configMap.Present? then v.configMap.Broken?
    else v.downloadJob.Broken?
  }

  lemma BrokenClaims(s: StorageSpec, v: View)
    ensures FirstBroken(Claims(s, v)) <==>
      if s.dataSize && !v.dataPvc.Present? then v.dataPvc.Broken? else s.hfRepos > 0 && v.hfPvc.Broken?
  {
    var claims := Claims(s, v);
    if s.dataSize {
      assert claims[0] == v.dataPvc;
    }
    if s.hfRepos > 0 {
      assert claims[|claims| - 1] == v.hfPvc;
    }
  }

  lemma StorageUnreadable(s: StorageSpec, v: View, previous: Phase)
    requires HasObjectStorageDownloads(s) || HasHfDownloads(s)
    ensures Overall(StorageResources(s, v), previous).Err? <==> StorageBroken(s, v)
  {
    var rs := Pvcs(Claims(s, v));
    BrokenClaims(s, v);
    ClaimsUnreadable(Claims(s, v), previous);
    PvcsGathered(Claims(s, v), previous);
    ClaimsAllPresent(s, v);
    GatherSnoc(rs, ConfigMapOf(v.configMap), previous);
    GatherSnoc(rs + [ConfigMapOf(v.configMap)], DownloadJobOf(v.downloadJob), previous);
  }

  /**
    With downloads: Downloading until every storage object is there and the download job has come to an end,
    Failed if it fails, and what the workload part says once it succeeds. The observation fails when the first
    object that is not there could not be read.
   */
  lemma DownloadPhases(st: Stored, spec: Spec, v: View, now: int)
    requires spec.storage.Some? && spec.storage.value.enabled && v.schedulable.status != False
    requires (spec.storage.value.dataSize && spec.storage.value.objectSources > 0) || spec.storage.value.hfRepos > 0
    ensures var s := spec.storage.value;
      var present := (s.dataSize ==> v.dataPvc.Present?) && (s.hfRepos > 0 ==> v.hfPvc.Present?)
                     && v.configMap.Present? && v.downloadJob.Present?;
      var o, w := Observe(st, spec, v, now), ObserveWorkload(st, spec, v, now);
      && (!present ==> (o.Err? <==> StorageBroken(s, v)) && (o.Ok? ==> o.value.0 == Downloading))
      && (present && JobFails(v.downloadJob.it) ==> o.Ok? && o.value.0 == Failed)
      && (present && JobSucceeds(v.downloadJob.it) ==> (o.Ok? <==> w.Ok?) && (o.Ok? ==> o.value.0 == w.value.0))
      && (present && !JobFails(v.downloadJob.it) && !JobSucceeds(v.downloadJob.it) ==>
            o.Ok? && o.value.0 == Downloading)
  {
    StorageStatus(spec.storage.value, v, st.status);
    StorageUnreadable(spec.storage.value, v, st.status);
    if v.downloadJob.Present? {
      DownloadIs(v.downloadJob.it, st.status);
    }
  }

  /** Without downloads, only a lost claim stops the workload; nothing else about storage is waited for. */
  lemma StoragePhases(st: Stored, spec: Spec, v: View, now: int)
    requires spec.storage.Some? && spec.storage.value.enabled && v.schedulable.status != False
    requires spec.storage.value.hfRepos == 0 && (spec.storage.value.dataSize ==> spec.storage.value.objectSources == 0)
    ensures var o, w := Observe(st, spec, v, now), ObserveWorkload(st, spec, v, now);
      if spec.storage.value.dataSize && v.dataPvc == Broken then o.Err?
      else if spec.storage.value.dataSize && v.dataPvc == Present(Lost) then o.Ok? && o.value.0 == Failed
      else (o.Ok? <==> w.Ok?) && (o.Ok? ==> o.value.0 == w.value.0)
  {
    var s := spec.storage.value;
    assert Claims(s, v) == if s.dataSize then [v.dataPvc] else [];
    if s.dataSize {
      OneClaim(v.dataPvc, st.status);
      if v.dataPvc.Present? {
        ClaimIs(v.dataPvc.it);
      }
    } else {
      assert Pvcs([]) == [] && Overall([], st.status) == Ok((New, []));
    }
  }

  lemma OneClaim(claim: Slot<PvcPhase>, previous: Phase)
    ensures var o := Overall(Pvcs([claim]), previous);
      && (claim == Broken ==> o == Err)
      && (claim == Absent ==> o == Ok((New, [])))
      && (claim.Present? ==> o == Ok((ObservePvc(claim.it).0, [ObservePvc(claim.it).1])))
  {
    OnePvc(claim);
    OneResource(PvcOf(claim), previous);
    LastOnly(PvcOf(claim), previous);
  }

  lemma OnePvc(claim: Slot<PvcPhase>)
    ensures Pvcs([claim]) == [PvcOf(claim)]
  {
    assert [claim][..0] == [];
  }

  /** One resource alone decides the overall status. */
  lemma LastOnly(r: Fetched, previous: Phase)
    ensures var g, o := Gather([r], previous), Overall([r], previous);
      && (g == Err ==> o == Err)
      && (g == Ok(Missing) ==> o == Ok((New, [])))
      && (forall s, c :: g == Ok(Gathered([s], [c])) ==> o == Ok((s, [c])))
  {
  }

  lemma OneResource(r: Fetched, previous: Phase)
    ensures var g := Gather([r], previous);
      && (r == Unreadable ==> g == Err)
      && (r == NotFound ==> g == Ok(Missing))
      && (r.Found? && r.obj.Pvc? ==> g == Ok(Gathered([ObservePvc(r.obj.phase).0], [ObservePvc(r.obj.phase).1])))
  {
    GatherSnoc([], r, previous);
    assert [] + [r] == [r] && Gather([], previous) == Ok(Gathered([], []));
    if r.Found? && r.obj.Pvc? {
      var (status, c) := ObservePvc(r.obj.phase);
      assert [] + [status] == [status] && [] + [c] == [c];
    }
  }

  /** Without a storage handler the workload part alone decides. */
  lemma NoStoragePhases(st: Stored, spec: Spec, v: View, now: int)
    requires (spec.storage.None? || !spec.storage.value.enabled) && v.schedulable.status != False
    ensures var o, w := Observe(st, spec, v, now), ObserveWorkload(st, spec, v, now);
      (o.Ok? <==> w.Ok?) && (o.Ok? ==> o.value.0 == w.value.0)
  {
  }

  /** The condition for preemption comes from the workload part alone. */
  lemma PreemptableFromWorkload(st: Stored, spec: Spec, v: View, now: int)
    requires Observe(st, spec, v, now).Ok? && PREEMPTABLE in Observe(st, spec, v, now).value.1
    ensures var c := PreemptableCondition(st, spec, now);
      c.Some? && Observe(st, spec, v, now).value.1[PREEMPTABLE].status == c.value.status
  {
    var storage, w := ObserveStorage(spec, v, st.status), ObserveWorkload(st, spec, v, now);
    if HandlesStorage(spec) {
      StorageTypes(spec.storage.value, v, st.status);
    }
    var c := CombinePreemptable(spec, v.schedulable, storage, w);
    WorkloadPreemptable(st, spec, v, now, c);
  }

  /** Scheduling and storage have no such condition. */
  lemma CombinePreemptable(spec: Spec, schedulable: Details, storage: Outcome<(Phase, seq<Condition>)>,
                           workload: Outcome<(Phase, seq<Condition>)>) returns (c: Conditions)
    requires HandlesStorage(spec) && storage.Ok? ==> Types(storage.value.1) <= {PVC_READY, DOWNLOAD_SUCCEEDED}
    requires var o := Combine(spec, schedulable, storage, workload); o.Ok? && PREEMPTABLE in o.value.1
    ensures PREEMPTABLE !in c && workload.Ok?
    ensures Combine(spec, schedulable, storage, workload).value.1 == SetAll(c, workload.value.1)
  {
    PreemptableType();
    c := map[SCHEDULABLE := schedulable];
    if HandlesStorage(spec) {
      c := SetAll(c, storage.value.1);
    }
  }

  lemma WorkloadPreemptable(st: Stored, spec: Spec, v: View, now: int, c: Conditions)
    requires ObserveWorkload(st, spec, v, now).Ok? && PREEMPTABLE !in c
    ensures var r, p := SetAll(c, ObserveWorkload(st, spec, v, now).value.1), PreemptableCondition(st, spec, now);
      PREEMPTABLE in r ==> p.Some? && r[PREEMPTABLE].status == p.value.status
  {
    var cs := ObserveWorkload(st, spec, v, now).value.1;
    TypeNames();
    PreemptableIs(st, spec, now);
    if v.admitted.value && Timed(st, spec) {
      assert cs[1] == PreemptableCondition(st, spec, now).value;
      assert forall j :: 1 < j < |cs| ==> cs[j] == PREEMPTED_FOR_DEMAND;
      SetAllLast(c, cs, 1);
    } else {
      SetAllKeeps(c, cs, PREEMPTABLE);
    }
  }

  lemma PreemptableType()
    ensures PREEMPTABLE != SCHEDULABLE && PREEMPTABLE !in {PVC_READY, DOWNLOAD_SUCCEEDED}
  {
    assert PREEMPTABLE[1] == 'r' && SCHEDULABLE[0] == 'S' && PVC_READY[1] == 'v' && DOWNLOAD_SUCCEEDED[0] == 'D';
  }

  // ----- What a reconcile does -----

  /** Neither finished nor on its way out. */
  ghost predicate Reconciles(st: Stored) {
    st.status != Complete && st.status != Failed && st.status != Terminated && st.status != Terminating
  }

  /** Observation agrees with what is stored. */
  ghost predicate Stable(st: Stored, spec: Spec, v: View, now: int) {
    Observe(st, spec, v, now) == Ok((st.status, st.conditions))
  }

  /** The spec asks for downloads. */
  ghost predicate AsksForDownloads(spec: Spec) {
    spec.storage.Some? &&
    ((spec.storage.value.dataSize && spec.storage.value.objectSources > 0) || spec.storage.value.hfRepos > 0)
  }

  ghost predicate Downloaded(cs: Conditions) {
    DOWNLOAD_SUCCEEDED in cs && cs[DOWNLOAD_SUCCEEDED].status == True
  }

  /**
    What is applied, and when: only by a reconcile that finds the record stable. Storage is applied in every
    active status, if it is enabled. The workload is applied when it is pending, starting or running, and when
    it has no status yet unless a download it needs has not succeeded.
   */
  lemma AppliedIff(st: Stored, spec: Spec, v: View, now: int)
    ensures var r := Reconcile(st, spec, v, now);
      && (r.workloadApplied <==>
            && Reconciles(st) && Stable(st, spec, v, now)
            && (st.status in {Pending, Starting, Running}
                || (st.status == New && (AsksForDownloads(spec) ==> Downloaded(st.conditions)))))
      && (r.storageApplied <==>
            && Reconciles(st) && Stable(st, spec, v, now)
            && st.status in {New, Downloading, Pending, Starting, Running}
            && spec.storage.Some? && spec.storage.value.enabled)
  {
    ActApplies(st, spec, Observe(st, spec, v, now), now);
  }

  lemma ActApplies(st: Stored, spec: Spec, seen: Outcome<(Phase, Conditions)>, now: int)
    ensures var r := Act(st, spec, seen, now); var stable := seen == Ok((st.status, st.conditions));
      && (r.workloadApplied <==>
            && Reconciles(st) && stable
            && (st.status in {Pending, Starting, Running}
                || (st.status == New && (AsksForDownloads(spec) ==> Downloaded(st.conditions)))))
      && (r.storageApplied <==>
            && Reconciles(st) && stable
            && st.status in {New, Downloading, Pending, Starting, Running}
            && spec.storage.Some? && spec.storage.value.enabled)
  {
    assert seen.Ok? ==> seen == Ok((seen.value.0, seen.value.1));
  }

  /** The stored record after an observation was written: its conditions merged over the old ones. */
  ghost predicate Merged(before: Conditions, observed: Conditions, merged: Conditions) {
    && (forall t :: t in observed ==> t in merged && merged[t] == observed[t])
    && (forall t :: t !in observed ==> (t in merged <==> t in before) && (t in before ==> merged[t] == before[t]))
  }

  /** What is written, and when: the observation if it differs, the termination of a workload on its way out. */
  lemma WrittenIff(st: Stored, spec: Spec, v: View, now: int)
    ensures var r := Reconcile(st, spec, v, now); var o := Observe(st, spec, v, now);
      && (r.wrote <==> st.status == Terminating || (Reconciles(st) && o.Ok? && !Stable(st, spec, v, now)))
      && (r.failed <==> Reconciles(st) && o.Err?)
      && (!r.wrote ==> r.stored == st)
      && (r.wrote && st.status != Terminating ==>
            && r.stored.status == o.value.0 && Merged(st.conditions, o.value.1, r.stored.conditions)
            && r.stored.startTime ==
                 (if o.value.0 == Running && st.status != Running then Some(now) else st.startTime))
      && (r.wrote && st.status == Terminating ==> r.stored.status == Terminated)
  {
    ActWrites(st, spec, Observe(st, spec, v, now), now);
  }

  lemma ActWrites(st: Stored, spec: Spec, seen: Outcome<(Phase, Conditions)>, now: int)
    ensures var r := Act(st, spec, seen, now); var stable := seen == Ok((st.status, st.conditions));
      && (r.wrote <==> st.status == Terminating || (Reconciles(st) && seen.Ok? && !stable))
      && (r.failed <==> Reconciles(st) && seen.Err?)
      && (!r.wrote ==> r.stored == st)
      && (r.wrote && st.status != Terminating ==>
            && r.stored.status == seen.value.0 && Merged(st.conditions, seen.value.1, r.stored.conditions)
            && r.stored.startTime ==
                 (if seen.value.0 == Running && st.status != Running then Some(now) else st.startTime))
      && (r.wrote && st.status == Terminating ==> r.stored.status == Terminated)
  {
    assert seen.Ok? ==> seen == Ok((seen.value.0, seen.value.1));
  }
}
