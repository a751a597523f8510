/**
  One reconcile of a KaiwoJob or KaiwoService as a function of the stored status and of what the
  cluster shows, and its download gate.
 */
module Reconciler {
  import opened Common
  import opened Lifecycle

  /** Statuses that the RayJob, Deployment and RayService handlers report. */
  type Report = s: Phase | s in {Starting, Running, Failed, Complete, Terminated, Error} witness Starting

  datatype Slot<+T> = Present(it: T) | Absent | Broken

  datatype Main = Batch(job: Job) | Other(reported: Outcome<Report>)

  datatype StorageSpec = StorageSpec(enabled: bool, dataSize: bool, objectSources: nat, hfRepos: nat)

  datatype Spec = Spec(storage: Option<StorageSpec>, duration: Option<int>)

  /** What the cluster shows; an error is a failed API call. */
  datatype View = View(
    schedulable: Details,
    dataPvc: Slot<PvcPhase>,
    hfPvc: Slot<PvcPhase>,
    configMap: Slot<()>,
    downloadJob: Slot<Job>,
    admitted: Outcome<bool>,
    workload: Slot<Main>,
    gpuDemand: Outcome<bool>)

  datatype Stored = Stored(status: Phase, conditions: Conditions, startTime: Option<int>, ran: int)

  predicate HasData(s: StorageSpec) {
    s.dataSize
  }

  predicate HasObjectStorageDownloads(s: StorageSpec) {
    HasData(s) && s.objectSources > 0
  }

  predicate HasHfDownloads(s: StorageSpec) {
    s.hfRepos > 0
  }

  predicate HasDownloads(spec: Spec) {
    spec.storage.Some? && (HasObjectStorageDownloads(spec.storage.value) || HasHfDownloads(spec.storage.value))
  }

  predicate HandlesStorage(spec: Spec) {
    spec.storage.Some? && spec.storage.value.enabled
  }

  function PvcOf(s: Slot<PvcPhase>): Fetched {
    match s
    case Present(p) => Found(Pvc(p))
    case Absent => NotFound
    case Broken => Unreadable
  }

  function ConfigMapOf(s: Slot<()>): Fetched {
    match s
    case Present(_) => Found(ConfigMap)
    case Absent => NotFound
    case Broken => Unreadable
  }

  function DownloadJobOf(s: Slot<Job>): Fetched {
    match s
    case Present(j) => Found(DownloadJob(j))
    case Absent => NotFound
    case Broken => Unreadable
  }

  function MainOf(s: Slot<Main>): Fetched {
    match s
    case Present(Batch(j)) => Found(BatchJob(j))
    case Present(Other(r)) => Found(OtherWorkload(if r.Ok? then Ok(r.value) else Err))
    case Absent => NotFound
    case Broken => Unreadable
  }

  /** The storage resources in the order they are reconciled: the download job comes last. */
  function StorageResources(spec: StorageSpec, v: View): seq<Fetched> {
    var claims := Pvcs(Claims(spec, v));
    if HasObjectStorageDownloads(spec) || HasHfDownloads(spec)
    then claims + [ConfigMapOf(v.configMap)] + [DownloadJobOf(v.downloadJob)]
    else claims
  }

  function Claims(spec: StorageSpec, v: View): seq<Slot<PvcPhase>> {
    (if HasData(spec) then [v.dataPvc] else []) + (if HasHfDownloads(spec) then [v.hfPvc] else [])
  }

  function Pvcs(claims: seq<Slot<PvcPhase>>): seq<Fetched> {
    if claims == [] then [] else Pvcs(claims[..|claims| - 1]) + [PvcOf(claims[|claims| - 1])]
  }

  // ----- Duration and preemption -----

  function Remaining(st: Stored, spec: Spec, now: int): Option<int> {
    if st.status != Running || spec.duration.None? || st.startTime.None? then None
    else Some(spec.duration.value - (now - st.startTime.value))
  }

  function PreemptableCondition(st: Stored, spec: Spec, now: int): Option<Condition> {
    var left := Remaining(st, spec, now);
    if left.None? then None
    else if left.value > 0 then
      Some(Condition(PREEMPTABLE, False, "DurationNotExceeded",
                     "Workload is running and the duration has not been exceeded"))
    else Some(Condition(PREEMPTABLE, True, "DurationExceeded", "Workload duration has exceeded"))
  }

  function ShouldPreempt(st: Stored, spec: Spec, v: View, now: int): Outcome<bool> {
    var left := Remaining(st, spec, now);
    if left.None? || left.value >= 0 then Ok(false) else v.gpuDemand
  }

  // ----- Observation -----

  const IS_ADMITTED := Condition(ADMITTED, True, "Admitted", "Workload is admitted")
  const NOT_ADMITTED := Condition(ADMITTED, False, "Pending", "Workload is pending admission")
  const PREEMPTED_FOR_DEMAND := Condition(EARLY, False, "DurationExceededWithActiveGpuDemand",
                                          "Terminated since duration was exceeded and there is active GPU demand")

  /** `Overall` of the one resource of the workload handler; see MainStatusIsOverall. */
  function MainStatus(main: Slot<Main>, previous: Phase): Outcome<Phase> {
    match main
    case Present(Batch(job)) => Ok(ObserveBatchJob(job, previous))
    case Present(Other(reported)) => if reported.Ok? then Ok(reported.value) else Err
    case Absent => Ok(New)
    case Broken => Err
  }

  lemma MainStatusIsOverall(main: Slot<Main>, previous: Phase)
    ensures Overall([MainOf(main)], previous) ==
      var s := MainStatus(main, previous); if s.Err? then Err else Ok((s.value, []))
  {
    GatherSnoc([], MainOf(main), previous);
    assert [] + [MainOf(main)] == [MainOf(main)];
    var g := Gather([MainOf(main)], previous);
    if g.Ok? && g.value.Gathered? {
      assert g.value.conditions == [] && |g.value.statuses| == 1;
    }
  }

  function ObserveWorkload(st: Stored, spec: Spec, v: View, now: int): Outcome<(Phase, seq<Condition>)> {
    if v.admitted.Err? then Err
    else
      var seen := MainStatus(v.workload, st.status);
      if seen.Err? then Err
      else if !v.admitted.value then Ok((Pending, [NOT_ADMITTED]))
      else
        var status := if seen.value == New then Starting else seen.value;
        var conditions := [IS_ADMITTED];
        var preemptable := PreemptableCondition(st, spec, now);
        if preemptable.None? then Ok((status, conditions))
        else
          var preempt := ShouldPreempt(st, spec, v, now);
          if preempt.Err? then Err
          else if preempt.value then Ok((Terminating, conditions + [preemptable.value, PREEMPTED_FOR_DEMAND]))
          else Ok((status, conditions + [preemptable.value]))
  }

  /** The status of the storage resources; not looked at without a storage handler. */
  function ObserveStorage(spec: Spec, v: View, previous: Phase): Outcome<(Phase, seq<Condition>)> {
    if HandlesStorage(spec) then Overall(StorageResources(spec.storage.value, v), previous) else Ok((New, []))
  }

  /** The overall status: scheduling first, then storage, then the workload itself. */
  function Combine(spec: Spec, schedulable: Details, storage: Outcome<(Phase, seq<Condition>)>,
                   workload: Outcome<(Phase, seq<Condition>)>): Outcome<(Phase, Conditions)>
  {
    var base: Conditions := map[SCHEDULABLE := schedulable];
    if schedulable.status == False then Ok((Error, base))
    else if !HandlesStorage(spec) then WithWorkload(base, workload)
    else if storage.Err? then Err
    else
      var (status, added) := storage.value;
      var conditions := SetAll(base, added);
      if HasDownloads(spec) then
        match status
        case New => Ok((Downloading, conditions))
        case Pending => Ok((Downloading, conditions))
        case Running => Ok((Downloading, conditions))
        case Starting => Ok((Downloading, conditions))
        case Failed => Ok((Failed, conditions))
        case Complete => WithWorkload(conditions, workload)
        case _ => Err
      else if status == Failed then Ok((Failed, conditions))
      else WithWorkload(conditions, workload)
  }

  function WithWorkload(conditions: Conditions, workload: Outcome<(Phase, seq<Condition>)>):
    Outcome<(Phase, Conditions)>
  {
    if workload.Err? then Err else Ok((workload.value.0, SetAll(conditions, workload.value.1)))
  }

  function Observe(st: Stored, spec: Spec, v: View, now: int): Outcome<(Phase, Conditions)> {
    Combine(spec, v.schedulable, ObserveStorage(spec, v, st.status), ObserveWorkload(st, spec, v, now))
  }

  // ----- Writes -----

  function Transition(st: Stored, status: Phase, conditions: Conditions, now: int): Stored {
    var start := if status != st.status && status == Running then Some(now) else st.startTime;
    var ran := if status in {Complete, Failed, Terminating, Running} && start.Some? then now - start.value else st.ran;
    Stored(status, st.conditions + conditions, start, ran)
  }

  const TERMINATED_EARLY := Details(True, "EarlyTermination",
                                    "Workload terminated early (check events and other conditions for likely causes)")

  function Terminate(st: Stored): Stored {
    var early := if EARLY in st.conditions then st.conditions[EARLY].(status := True)
                 else TERMINATED_EARLY;
    st.(status := Terminated, conditions := st.conditions[EARLY := early])
  }

  /** What a reconcile does: the stored status after it, whether it wrote, and what it applied. */
  datatype Result = Result(stored: Stored, wrote: bool, failed: bool, storageApplied: bool, workloadApplied: bool)

  predicate StorageOnly(spec: Spec, status: Phase, conditions: Conditions) {
    match status
    case New => HasDownloads(spec) && !TrueIn(conditions, DOWNLOAD_SUCCEEDED)
    case Downloading => true
    case _ => false
  }

  /** The same once the observation is made. */
  function Act(st: Stored, spec: Spec, seen: Outcome<(Phase, Conditions)>, now: int): Result {
    if IsTerminal(st.status) then Result(st, false, false, false, false)
    else if st.status == Terminating then Result(Terminate(st), true, false, false, false)
    else if seen.Err? then Result(st, false, true, false, false)
    else
      var (status, conditions) := seen.value;
      if status != st.status || conditions != st.conditions then
        Result(Transition(st, status, conditions, now), true, false, false, false)
      else if IsActive(status) then
        Result(st, false, false, HandlesStorage(spec), !StorageOnly(spec, status, conditions))
      else Result(st, false, false, false, false)
  }

  function Reconcile(st: Stored, spec: Spec, v: View, now: int): Result {
    Act(st, spec, Observe(st, spec, v, now), now)
  }

  // ----- The download gate -----

  /** Every storage object the spec asks for was found. */
  predicate StoragePresent(spec: StorageSpec, v: View) {
    ClaimsPresent(spec, v) && v.configMap.Present? && v.downloadJob.Present?
  }

  predicate DownloadComplete(v: View) {
    v.downloadJob.Present? && Decisive(v.downloadJob.it.conditions) == Some(Complete)
  }

  lemma GatherSnoc(rs: seq<Fetched>, r: Fetched, previous: Phase)
    ensures Gather(rs + [r], previous) ==
      var g := Gather(rs, previous);
      if g.Err? || g.value.Missing? then g
      else
        match r
        case NotFound => Ok(Missing)
        case Unreadable => Err
        case Found(obj) =>
          var seen := ObserveObject(obj, previous);
          if seen.Err? then Err
          else Ok(Gathered(if seen.value.0.Some? then g.value.statuses + [seen.value.0.value] else g.value.statuses,
                           g.value.conditions + seen.value.1))
  {
    assert (rs + [r])[..|rs|] == rs;
  }

  /** Claims report one PvcReady condition each, and do not look at the previous status. */
  lemma {:induction false} PvcsGathered(claims: seq<Slot<PvcPhase>>, previous: Phase)
    ensures var g := Gather(Pvcs(claims), previous);
      && (g.Ok? && g.value.Gathered? <==> forall c :: c in claims ==> c.Present?)
      && (g.Ok? && g.value.Gathered? ==>
            |g.value.conditions| == |claims| && forall c :: c in g.value.conditions ==> c.ctype == PVC_READY)
      && g == Gather(Pvcs(claims), New)
  {
    if claims != [] {
      var init, last := claims[..|claims| - 1], claims[|claims| - 1];
      assert claims == init + [last];
      PvcsGathered(init, previous);
      GatherSnoc(Pvcs(init), PvcOf(last), previous);
      GatherSnoc(Pvcs(init), PvcOf(last), New);
      assert forall c :: c in claims <==> c in init || c == last;
    }
  }

  /** Behind the claims: the config map, which reports nothing, and the download job. */
  lemma DownloadGathered(rs: seq<Fetched>, cm: Slot<()>, job: Slot<Job>, previous: Phase)
    ensures var g := Gather(rs, previous); var all := Gather(rs + [ConfigMapOf(cm)] + [DownloadJobOf(job)], previous);
      if g.Ok? && g.value.Gathered? && cm.Present? && job.Present? then
        var (s, c) := ObserveDownload(job.it, previous);
        all == Ok(Gathered(g.value.statuses + [s], g.value.conditions + [c]))
      else all.Err? || all.value.Missing?
  {
    GatherSnoc(rs, ConfigMapOf(cm), previous);
    GatherSnoc(rs + [ConfigMapOf(cm)], DownloadJobOf(job), previous);
    var g := Gather(rs, previous);
    if g.Ok? && g.value.Gathered? {
      assert g.value.conditions + [] == g.value.conditions;
    }
  }

  predicate ClaimsPresent(spec: StorageSpec, v: View) {
    (HasData(spec) ==> v.dataPvc.Present?) && (HasHfDownloads(spec) ==> v.hfPvc.Present?)
  }

  lemma ClaimsAllPresent(spec: StorageSpec, v: View)
    ensures (forall c :: c in Claims(spec, v) ==> c.Present?) <==> ClaimsPresent(spec, v)
  {
    assert HasData(spec) ==> v.dataPvc in Claims(spec, v);
    assert HasHfDownloads(spec) ==> v.hfPvc in Claims(spec, v);
  }

  lemma StorageGathered(spec: StorageSpec, v: View, previous: Phase)
    requires HasObjectStorageDownloads(spec) || HasHfDownloads(spec)
    ensures var g := Gather(StorageResources(spec, v), previous);
      var claims := Gather(Pvcs(Claims(spec, v)), New);
      if StoragePresent(spec, v) then
        var (s, c) := ObserveDownload(v.downloadJob.it, previous);
        && claims.Ok? && claims.value.Gathered?
        && g == Ok(Gathered(claims.value.statuses + [s], claims.value.conditions + [c]))
      else g.Err? || g.value.Missing?
  {
    PvcsGathered(Claims(spec, v), previous);
    ClaimsAllPresent(spec, v);
    DownloadGathered(Pvcs(Claims(spec, v)), v.configMap, v.downloadJob, previous);
  }

  /** With downloads, the storage status is that of the download job, whatever the claims report. */
  lemma StorageStatus(spec: StorageSpec, v: View, previous: Phase)
    requires HasObjectStorageDownloads(spec) || HasHfDownloads(spec)
    ensures var o := Overall(StorageResources(spec, v), previous);
      if StoragePresent(spec, v)
      then o.Ok? && o.value.0 == ObserveDownload(v.downloadJob.it, previous).0
      else o.Err? || o.value == (New, [])
  {
    StorageGathered(spec, v, previous);
    var rs := StorageResources(spec, v);
    if StoragePresent(spec, v) {
      var claims := Gather(Pvcs(Claims(spec, v)), New).value;
      var (s, c) := ObserveDownload(v.downloadJob.it, previous);
      LastReported(rs, previous, claims.statuses, s, claims.conditions + [c]);
    } else {
      NothingReported(rs, previous);
    }
  }

  lemma LastReported(rs: seq<Fetched>, previous: Phase, before: seq<Phase>, s: Phase, cs: seq<Condition>)
    requires Gather(rs, previous) == Ok(Gathered(before + [s], cs))
    ensures Overall(rs, previous) == Ok((s, cs))
  {
  }

  lemma NothingReported(rs: seq<Fetched>, previous: Phase)
    requires Gather(rs, previous).Err? || Gather(rs, previous).value.Missing?
    ensures Overall(rs, previous).Err? || Overall(rs, previous).value == (New, [])
  {
  }

  lemma GateObserved(st: Stored, spec: Spec, v: View, now: int)
    requires HandlesStorage(spec) && HasDownloads(spec)
    requires Observe(st, spec, v, now).Ok? && Observe(st, spec, v, now).value.0 !in {Error, Downloading, Failed}
    ensures StoragePresent(spec.storage.value, v) && DownloadComplete(v)
  {
    StorageStatus(spec.storage.value, v, st.status);
  }

  /**
    The download gate: with storage enabled and downloads configured, a reconcile applies workload
    resources only if every storage object was found and the download job has completed.
   */
  lemma DownloadGate(st: Stored, spec: Spec, v: View, now: int)
    requires HandlesStorage(spec) && HasDownloads(spec)
    requires Reconcile(st, spec, v, now).workloadApplied
    ensures StoragePresent(spec.storage.value, v) && DownloadComplete(v)
  {
    GateObserved(st, spec, v, now);
  }

  /**
    The gate is exact: with a schedulable workload and a readable workload part, the observation gets as far
    as the workload, which shows in its admission condition, if and only if every storage object was found
    and the download job has completed.
   */
  lemma GateOpens(st: Stored, spec: Spec, v: View, now: int)
    requires HandlesStorage(spec) && HasDownloads(spec) && v.schedulable.status != False
    requires ObserveWorkload(st, spec, v, now).Ok?
    ensures (Observe(st, spec, v, now).Ok? && ADMITTED in Observe(st, spec, v, now).value.1) <==>
      StoragePresent(spec.storage.value, v) && DownloadComplete(v)
  {
    StorageTypes(spec.storage.value, v, st.status);
    WorkloadTypes(st, spec, v, now);
    CombineGate(spec, v.schedulable, ObserveStorage(spec, v, st.status), ObserveWorkload(st, spec, v, now));
    StorageCompletes(spec, v, st.status);
  }

  /** The workload part is looked at exactly when the storage part is complete. */
  lemma CombineGate(spec: Spec, schedulable: Details, storage: Outcome<(Phase, seq<Condition>)>,
                    workload: Outcome<(Phase, seq<Condition>)>)
    requires HandlesStorage(spec) && HasDownloads(spec) && schedulable.status != False
    requires storage.Ok? ==> Types(storage.value.1) <= {PVC_READY, DOWNLOAD_SUCCEEDED}
    requires workload.Ok? && ADMITTED in Types(workload.value.1)
    ensures var seen := Combine(spec, schedulable, storage, workload);
      (seen.Ok? && ADMITTED in seen.value.1) <==> storage.Ok? && storage.value.0 == Complete
  {
    AdmittedIsDifferent();
  }

  lemma StorageCompletes(spec: Spec, v: View, previous: Phase)
    requires HandlesStorage(spec) && HasDownloads(spec)
    ensures var o := ObserveStorage(spec, v, previous);
      (o.Ok? && o.value.0 == Complete) <==> StoragePresent(spec.storage.value, v) && DownloadComplete(v)
  {
    StorageStatus(spec.storage.value, v, previous);
  }

  lemma AdmittedIsDifferent()
    ensures ADMITTED !in {SCHEDULABLE, PVC_READY, DOWNLOAD_SUCCEEDED}
  {
    assert ADMITTED[0] == 'A' && SCHEDULABLE[0] == 'S' && PVC_READY[0] == 'P' && DOWNLOAD_SUCCEEDED[0] == 'D';
  }

  lemma WorkloadTypes(st: Stored, spec: Spec, v: View, now: int)
    requires ObserveWorkload(st, spec, v, now).Ok?
    ensures ADMITTED in Types(ObserveWorkload(st, spec, v, now).value.1)
  {
    assert IS_ADMITTED.ctype == ADMITTED && NOT_ADMITTED.ctype == ADMITTED;
    var cs := ObserveWorkload(st, spec, v, now).value.1;
    assert cs[0] in cs && cs[0].ctype == ADMITTED;
  }

  lemma {:induction false} GatherTypes(rs: seq<Fetched>, previous: Phase)
    ensures var g := Gather(rs, previous);
      g.Ok? && g.value.Gathered? ==> Types(g.value.conditions) <= {PVC_READY, DOWNLOAD_SUCCEEDED}
  {
    if rs != [] {
      GatherTypes(rs[..|rs| - 1], previous);
    }
  }

  lemma StorageTypes(spec: StorageSpec, v: View, previous: Phase)
    ensures var o := Overall(StorageResources(spec, v), previous);
      o.Ok? ==> Types(o.value.1) <= {PVC_READY, DOWNLOAD_SUCCEEDED}
  {
    GatherTypes(StorageResources(spec, v), previous);
  }
}
