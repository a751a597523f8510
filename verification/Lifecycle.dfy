/**
  The KaiwoJob and KaiwoService lifecycle: observing a status from the cluster, writing it and
  requeueing when it changed, and applying resources once it is stable.
 */
module Lifecycle {
  import opened Common

  datatype Phase =
    | New | Downloading | Pending | Starting | Running | Complete | Error | Failed | Terminating | Terminated

  datatype Truth = True | False | Unset

  datatype Condition = Condition(ctype: string, status: Truth, reason: string, message: string)

  datatype Details = Details(status: Truth, reason: string, message: string)

  /** A condition list, keyed by type: every writer goes through SetStatusCondition. */
  type Conditions = map<string, Details>

  datatype Outcome<+T> = Ok(value: T) | Err

  function Set(cs: Conditions, c: Condition): Conditions {
    cs[c.ctype := Details(c.status, c.reason, c.message)]
  }

  function Types(cs: seq<Condition>): set<string> {
    set c | c in cs :: c.ctype
  }

  function SetAll(cs: Conditions, added: seq<Condition>): (r: Conditions)
    ensures r.Keys == cs.Keys + Types(added)
    decreases |added|
  {
    if added == [] then cs else SetAll(Set(cs, added[0]), added[1..])
  }

  predicate TrueIn(cs: Conditions, ctype: string) {
    ctype in cs && cs[ctype].status == True
  }

  predicate IsTerminal(s: Phase) {
    s == Complete || s == Terminated || s == Failed
  }

  predicate IsActive(s: Phase) {
    s == New || s == Downloading || s == Pending || s == Starting || s == Running
  }

  // ----- Statuses of several resources -----

  /** Downloading and New have no rank of their own; a missing key of the map reads as zero. */
  function Rank(s: Phase): nat {
    match s
    case Complete => 1
    case Pending => 2
    case Starting => 3
    case Error => 4
    case Failed => 5
    case Terminating => 6
    case Terminated => 7
    case _ => 0
  }

  /** The running rank is never updated, so every status replaces the one before it. */
  method DetermineOverallStatus(statuses: seq<Phase>) returns (overall: Phase)
    ensures overall == if statuses == [] then New else statuses[|statuses| - 1]
  {
    overall := New;
    var currentRank := -1;
    for i := 0 to |statuses|
      invariant currentRank == -1
      invariant overall == if i == 0 then New else statuses[i - 1]
    {
      if Rank(statuses[i]) > currentRank {
        overall := statuses[i];
      }
    }
  }

  // ----- What the cluster shows -----

  datatype JobConditionType = SuccessCriteriaMet | JobFailed | JobSuspended | OtherType

  datatype JobCondition = JobCondition(jtype: JobConditionType, holds: bool)

  datatype Job = Job(conditions: seq<JobCondition>, failed: nat, ready: nat, active: nat)

  datatype PvcPhase = Bound | ClaimPending | Lost | NoPhase

  datatype Object =
    | Pvc(phase: PvcPhase)
    | ConfigMap
    | DownloadJob(download: Job)
    | BatchJob(job: Job)
    | OtherWorkload(reported: Outcome<Phase>)  // RayJob, Deployment, RayService: no memory of the past

  datatype Fetched = Found(obj: Object) | NotFound | Unreadable

  /** The status that a condition which holds stands for. */
  function Meaning(c: JobCondition): Option<Phase> {
    if !c.holds then None
    else
      match c.jtype
      case SuccessCriteriaMet => Some(Complete)
      case JobFailed => Some(Failed)
      case JobSuspended => Some(Pending)
      case OtherType => None
  }

  /** The first decisive condition, if any. */
  function Decisive(cs: seq<JobCondition>): (r: Option<Phase>)
    ensures r.None? <==> forall i :: 0 <= i < |cs| ==> Meaning(cs[i]).None?
    ensures r.Some? ==>
      exists i :: 0 <= i < |cs| && Meaning(cs[i]) == r && forall j :: 0 <= j < i ==> Meaning(cs[j]).None?
  {
    if cs == [] then None
    else if cs[0].holds && cs[0].jtype == SuccessCriteriaMet then Some(Complete)
    else if cs[0].holds && cs[0].jtype == JobFailed then Some(Failed)
    else if cs[0].holds && cs[0].jtype == JobSuspended then Some(Pending)
    else Decisive(cs[1..])
  }

  function ObserveBatchJob(job: Job, previous: Phase): (s: Phase)
    ensures s in {Complete, Failed, Pending, Running, Starting}
    ensures s == Complete <==> Decisive(job.conditions) == Some(Complete)
  {
    DecisiveMeans(job.conditions);
    var decisive := Decisive(job.conditions);
    if decisive.Some? then decisive.value
    else if job.failed > 0 then Failed
    else if job.ready > 0 then Running
    else if previous == Running then previous
    else if job.active > 0 then Starting
    else Pending
  }

  /**
    An observation remembers the previous status only as far as whether it was Running, and only while no
    condition decides, nothing has failed and nothing is ready; then it is Running again.
   */
  lemma BatchJobMemory(job: Job, p: Phase, q: Phase)
    ensures ObserveBatchJob(job, p) != ObserveBatchJob(job, q) <==>
      (p == Running) != (q == Running) && Decisive(job.conditions).None? && job.failed == 0 && job.ready == 0
    ensures ObserveBatchJob(job, p) == Running <==>
      Decisive(job.conditions).None? && job.failed == 0 && (job.ready > 0 || p == Running)
    ensures ObserveBatchJob(job, p) == Failed <==>
      Decisive(job.conditions) == Some(Failed) || (Decisive(job.conditions).None? && job.failed > 0)
    ensures ObserveBatchJob(job, p) == Complete <==> Decisive(job.conditions) == Some(Complete)
    ensures ObserveBatchJob(job, p) == Starting <==>
      Decisive(job.conditions).None? && job.failed == 0 && job.ready == 0 && p != Running && job.active > 0
    ensures ObserveBatchJob(job, p) == Pending <==>
      || Decisive(job.conditions) == Some(Pending)
      || (Decisive(job.conditions).None? && job.failed == 0 && job.ready == 0 && p != Running && job.active == 0)
  {
    DecisiveMeans(job.conditions);
  }

  lemma DecisiveMeans(cs: seq<JobCondition>)
    ensures Decisive(cs).Some? ==> Decisive(cs).value in {Complete, Failed, Pending}
  {
    if Decisive(cs).Some? {
      var i :| 0 <= i < |cs| && Meaning(cs[i]) == Decisive(cs);
    }
  }

  const PVC_READY := "PvcReady"
  const DOWNLOAD_SUCCEEDED := "DownloadJobSucceeded"
  const ADMITTED := "Admitted"
  const SCHEDULABLE := "Schedulable"
  const PREEMPTABLE := "Preemptable"
  const EARLY := "WorkloadTerminatedEarly"
  const UNDERUTILIZED := "ResourceUnderutilization"

  function ObserveDownload(job: Job, previous: Phase): (Phase, Condition) {
    var s := ObserveBatchJob(job, previous);
    match s
    case Pending => (Running, Condition(DOWNLOAD_SUCCEEDED, False, "JobPending", "Download job pending"))
    case Running => (Running, Condition(DOWNLOAD_SUCCEEDED, False, "JobInProgress", "Download job in progress"))
    case Starting => (Starting, Condition(DOWNLOAD_SUCCEEDED, False, "JobInProgress", "Download job starting"))
    case Failed => (Failed, Condition(DOWNLOAD_SUCCEEDED, False, "JobFailed", "Download job failed"))
    case _ => (Complete, Condition(DOWNLOAD_SUCCEEDED, True, "JobCompleted", "Download job succeeded"))
  }

  function ObservePvc(p: PvcPhase): (Phase, Condition) {
    match p
    case Bound => (Complete, Condition(PVC_READY, True, "Bound", ""))
    case ClaimPending => (Pending, Condition(PVC_READY, False, "Pending", ""))
    case Lost => (Failed, Condition(PVC_READY, False, "Lost", ""))
    case NoPhase => (New, Condition(PVC_READY, Unset, "", ""))
  }

  /** The status a resource reports, if it reports one, and its conditions. */
  function ObserveObject(obj: Object, previous: Phase): Outcome<(Option<Phase>, seq<Condition>)> {
    match obj
    case Pvc(p) => var (s, c) := ObservePvc(p); Ok((Some(s), [c]))
    case ConfigMap => Ok((None, []))
    case DownloadJob(job) => var (s, c) := ObserveDownload(job, previous); Ok((Some(s), [c]))
    case BatchJob(job) => Ok((Some(ObserveBatchJob(job, previous)), []))
    case OtherWorkload(reported) => if reported.Ok? then Ok((Some(reported.value), [])) else Err
  }

  /** Statuses and conditions of the resources so far; nothing once one is missing. */
  datatype Gathered = Gathered(statuses: seq<Phase>, conditions: seq<Condition>) | Missing

  function Gather(rs: seq<Fetched>, previous: Phase): Outcome<Gathered> {
    if rs == [] then Ok(Gathered([], []))
    else
      var g := Gather(rs[..|rs| - 1], previous);
      if g.Err? || g.value.Missing? then g
      else
        match rs[|rs| - 1]
        case NotFound => Ok(Missing)
        case Unreadable => Err
        case Found(obj) =>
          var seen := ObserveObject(obj, previous);
          if seen.Err? then Err
          else
            var (s, cs) := seen.value;
            Ok(Gathered(if s.Some? then g.value.statuses + [s.value] else g.value.statuses, g.value.conditions + cs))
  }

  /** The overall status of a list of resources: New when one is missing, else the last one reported. */
  function Overall(rs: seq<Fetched>, previous: Phase): Outcome<(Phase, seq<Condition>)> {
    var g := Gather(rs, previous);
    if g.Err? then Err
    else if g.value.Missing? || g.value.statuses == [] then Ok((New, []))
    else Ok((g.value.statuses[|g.value.statuses| - 1], g.value.conditions))
  }

  /** Once a resource is missing or unreadable, the rest is not looked at. */
  lemma {:induction false} GatherStops(a: seq<Fetched>, b: seq<Fetched>, previous: Phase)
    requires var g := Gather(a, previous); g.Err? || g.value.Missing?
    ensures Gather(a + b, previous) == Gather(a, previous)
  {
    if b == [] {
      assert a + b == a;
    } else {
      assert (a + b)[..|a + b| - 1] == a + b[..|b| - 1];
      GatherStops(a, b[..|b| - 1], previous);
    }
  }

  /** The observation loop over the resources of a handler. */
  method ObserveOverallStatus(rs: seq<Fetched>, previous: Phase) returns (r: Outcome<(Phase, seq<Condition>)>)
    ensures r == Overall(rs, previous)
  {
    var conditions: seq<Condition>, statuses: seq<Phase> := [], [];
    for i := 0 to |rs|
      invariant Gather(rs[..i], previous) == Ok(Gathered(statuses, conditions))
    {
      assert rs[..i + 1][..i] == rs[..i] && rs == rs[..i + 1] + rs[i + 1..];
      match rs[i] {
        case Found(obj) =>
          var seen := ObserveObject(obj, previous);
          if seen.Err? {
            GatherStops(rs[..i + 1], rs[i + 1..], previous);
            return Err;
          }
          conditions := conditions + seen.value.1;
          if seen.value.0.Some? {
            statuses := statuses + [seen.value.0.value];
          }
        case NotFound =>
          GatherStops(rs[..i + 1], rs[i + 1..], previous);
          return Ok((New, []));
        case Unreadable =>
          GatherStops(rs[..i + 1], rs[i + 1..], previous);
          return Err;
      }
    }
    assert rs[..|rs|] == rs;
    if |statuses| == 0 {
      return Ok((New, []));
    }
    var overall := DetermineOverallStatus(statuses);
    return Ok((overall, conditions));
  }
}
