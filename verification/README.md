# Kaiwo control-plane verification

A Dafny model of the logic that decides what the Kaiwo operator does to GPU workloads, with proofs of what
that logic promises over every input and every run. `dafny verify dfyconfig.toml` checks the whole project.

## What is modelled

**GPU preemption.** `GpuRecords` holds the GpuWorkload record and the status each writer computes.
`Victims` is the allocator (classification and greedy, all-or-nothing victim selection), `VictimsOrder`
shows that it does not depend on the order in which workloads are listed. `Preemption` is the protocol as
a labelled transition system: records in an optimistic-concurrency store, any number of reconcilers and
scrapers that read a copy and write it back later, any number of replicas that guard evaluations with a
compare-and-swap lease, and evaluations that list, classify, match and mark step by step. Every write goes
to a log, so statements about history are statements about the log. `PreemptionSafety` has the inductive
invariant of every run, `PreemptionLegality` the phase machine and the invariant of the runs that keep to it,
`PreemptionTheorems` and `PreemptionGrace` the results about history, samples, lease and grace period for
every run from an empty cluster, `PreemptionDemand` for whom evaluations preempt, `PreemptionBounds` the
bound on over-preemption, and `PreemptionLimits` concrete runs, put together from the pieces in
`PreemptionRuns`, that show which hypotheses cannot be dropped. `Evaluator` and `GpuWorkloads` are the loops and the object edited in place, proved to compute what
the protocol's steps use.
`OwnerWalk` has the two walks over owner references.

**KaiwoJob and KaiwoService lifecycle.** `Lifecycle` is what the cluster shows and how one status is formed
from it, `Reconciler` one reconcile and the download gate, `Observation` what a reconcile observes, writes and
applies in terms of the cluster and the stored record, `Settling` the write-then-requeue loop,
`LifecycleWriters` the three concurrent writers of a workload's status.

**Quota and scheduling.** `Quota` goes from nodes to pools, `ClusterQueues` from pools to the ClusterQueue,
`LocalQueues` reconciles LocalQueues with namespaces, `Scheduling` splits a request into replicas and
`Naming` builds bounded names.

## Where the code decides against its documentation or the obvious reading

- A released lease keeps its renew time (`ReleaseChanges`), so releasing early gains nothing: from the moment a
  replica took the lease, no other replica becomes the evaluator within the lease duration (`NobodyTakesOver`),
  and after its release neither does the replica itself (`ReleasedIsRefused`).
- The mark step looks at the phase of the fresh record only. `GraceRespected` says exactly when the grace
  period is kept nevertheless: when the stored idle time still passes the evaluation's own test, which it does
  unless a write since the listing ended the listed idle period. `EarlyMark` (Active and Idle again) and
  `MarkAfterRevert` (marked by another replica, then reverted on Forbidden, without any idle time) are runs
  in which it is cut short.
- After its spec update a reconcile reads the record again and does not dispatch on the phase again. The
  phase machine holds in exactly those runs in which no status write commits from a copy read again in a
  finished or Preempting phase (`PhaseMachine`); with update and read as one step that is every run
  (`AtomicIsCareful`), and `SplitRereadResurrects` is a run in which a workload is taken out of Preempting.
  Everything said about the lease, the grace period and the samples holds in all runs, split steps included.
- Over-preemption is bounded for a workload under four hypotheses (`BoundedOvershoot`): it names one resource;
  counts are fixed; no replica marks for it from a listing that another replica's mark for it has outdated; and
  no status write commits from a copy read again in a finished or Preempting phase. Evaluations that stay within
  their lease, or that do not overlap, meet the third (`ApartIsInformed`). For each of the four there is a run
  that keeps the other three and breaks the bound: demand is matched per resource while claims are per
  workload, so a workload that waits for two resources gets a second victim although the first frees enough of
  both (`SecondResourceOvershoots`); a workload that lowers its demand keeps its victims
  (`LoweredDemandOvershoots`); an evaluation that outlives its lease marks a second victim
  (`LateEvaluationOvershoots`); and a victim that a reconcile makes Active past its re-read keeps its
  attribution, which comes back to life when it is marked again under the Always policy
  (`StaleAttributionOvershoots`).
- `hasGpuResources` does not look at init containers, so a pod that asks for GPUs only there can resolve to
  a root whose record does not own it (`InitContainerPodIsLost`); `WalksAgree` has the exact condition.
- `DetermineOverallStatus` never updates its running rank and returns the last status; the download gate
  holds because the download job comes last.
- The metrics watcher stores a condition that no reconcile observes. From then on a workload that is still
  being reconciled writes its status on every reconcile and its resources are not applied any more
  (`WatcherConditionPreventsSettling`); `SettlesIff` has the exact condition for settling.
- The comment on `syncLocalQueues` promises that removing a ClusterQueue removes its LocalQueues. The code
  leaves LocalQueues of names outside the configuration alone (`LocalQueues.Frame`), and it deletes every
  LocalQueue of a configured ClusterQueue that is not found, although its log line says that they are
  deferred (`LocalQueues.Convergence`). A failing lookup costs the LocalQueue it was about
  (`LocalQueues.FailedLookupDeletes`).
- The replica split may hand out fewer GPUs than were requested; `ReplicaSplit` says by how much and when.

## Modelling choices

- Time is an integer clock that never runs backwards; replicas share it. A clock reading used by a step lies
  between the moment the step's copy was read and the moment it is written.
- Utilization is kept in hundredths, the precision the scraper rounds to; averages are reals. How floating point
  decides a move by exactly one hundredth is an input of each sample.
- A status or spec write commits only on the version it was computed from. Deleting a record is not conditional
  on a version. Retries are not bounded: a conflicting mark is read again, which covers every bounded retry.
- Reads and lists see the current store. The code reads through an informer cache, so a copy may be older
  than its read; for one record that is a copy read earlier and held, which the model has, but a listing that
  mixes records of different ages is not modelled.
- There is one namespace, and records, LocalQueues' names and replicas are distinct by name. The code keys
  in-flight capacity by name alone, so that workloads of the same name in two namespaces share it there.
- Map iteration orders and the order of ties in `sort.Slice` are arbitrary: the proofs hold for each of them.
- Conditions are a map by type, because every writer goes through `SetStatusCondition`; transition times are
  not compared by the code and are not modelled.
- GPU counts are natural numbers, integers are unbounded.
- Outcomes of API calls, resolved settings (threshold, grace period, policy, aggregation, TTL), the
  scheduler and quota message checks, admission, GPU demand, the discounted CPU and memory of a node and the
  hash of the hash inputs are inputs.
- Lower-casing is exact for every character whose lower-case form is an ASCII letter (the ASCII letters,
  U+0130 and U+212A); any other character is replaced by a hyphen whatever its lower-case form is.

## Model

| member | source | states |
|---|---|---|
| Victims.TakeMembers | internal/controller/gpuworkload_controller.go:889-901 | victims come from the pool, have GPUs of the resource and were not claimed before |
| Victims.TakeMinimal | internal/controller/gpuworkload_controller.go:889-905 | without its last victim the selection does not cover the demand |
| Victims.TakeShort | internal/controller/gpuworkload_controller.go:889-909 | a pending workload is left unserved exactly when the whole unclaimed idle capacity is less than its demand |
| Victims.TakePrefix | internal/controller/gpuworkload_controller.go:889-901 | the victims are exactly the eligible entries of a prefix of the sorted pool |
| Victims.TakeLongestIdle | internal/controller/gpuworkload_controller.go:844-909 | nobody idle strictly longer than a victim is passed over |
| Victims.MatchResourceGood | internal/controller/gpuworkload_controller.go:863-932 | per resource, every group covers its residual demand minimally, longest idle first, from unclaimed workloads, and the claimed set is exactly what the groups hold |
| Victims.MatchResourceMaximal | internal/controller/gpuworkload_controller.go:863-909 | when a resource is done, every pending workload left unserved needs more than all that is unclaimed |
| Victims.MatchProperties | internal/controller/gpuworkload_controller.go:863-932 | soundness, minimality, longest-idle-first, disjointness and maximality over all resources and pending workloads of an evaluation |
| Victims.NoDoubleClaim | internal/controller/gpuworkload_controller.go:863-932 | no workload with a UID of its own is a victim twice, across pending workloads and resources |
| Victims.ClassifiedExactly | internal/controller/gpuworkload_controller.go:776-842 | pending are exactly the PendingGpu workloads, in flight exactly the Preempting ones with an attribution, idle candidates exactly those idle for at least their grace period under the on-demand policy, evicted exactly those under Always, each in listing order and with its own times; nobody else is in any list |
| VictimsOrder.SortUnique | internal/controller/gpuworkload_controller.go:844-853 | sorting by keys that identify the entries has one result |
| VictimsOrder.ClassifyPermuted | internal/controller/gpuworkload_controller.go:766-842 | a permuted listing is classified into permuted lists |
| VictimsOrder.OrderIndependence | internal/controller/gpuworkload_controller.go:766-946 | with identifying idle and creation times, every permutation of the listing gives the same victims to the same pending workloads, for any fixed order of resources |
| VictimsOrder.SortsMean | internal/controller/gpuworkload_controller.go:844-853 | per resource the pending workloads that name it stand oldest first and the candidates longest idle first |
| VictimsOrder.ServedOldestFirst | internal/controller/gpuworkload_controller.go:872-932 | of the pending workloads of a resource, those that get victims are served oldest first |
| Evaluator.AppendPerResource | internal/controller/gpuworkload_controller.go:778-784 | the per-resource lists hold the workloads that name the resource, in listing order |
| Evaluator.AddInFlight | internal/controller/gpuworkload_controller.go:786-794 | the nested map counts, per pending workload and resource, the GPUs that Preempting workloads free for it |
| Evaluator.ClassifyOne | internal/controller/gpuworkload_controller.go:776-842 | one round of the loop computes `Victims.Add`, whose lists `Victims.ClassifiedExactly` states on the listed fields |
| Evaluator.ClassifyWorkloads | internal/controller/gpuworkload_controller.go:766-842 | the loop over the listing computes `Victims.Classify`, whose lists `Victims.ClassifiedExactly` states on the listed fields |
| Evaluator.AccumulateVictims | internal/controller/gpuworkload_controller.go:889-905 | the greedy loop computes `Victims.Take` and its total |
| Evaluator.ServePending | internal/controller/gpuworkload_controller.go:873-909 | a pending workload is served exactly when its residual demand is positive and covered |
| Evaluator.MatchPending | internal/controller/gpuworkload_controller.go:872-932 | the loop over the pending workloads of a resource computes `Victims.MatchResource` with its claimed set |
| Evaluator.MatchVictims | internal/controller/gpuworkload_controller.go:863-932 | the loop over the resources, skipping those without idle workloads, computes `Victims.Match` |
| GpuWorkloads.GpuWorkload.TrackPods | internal/controller/gpuworkload_controller.go:196-211 | tracked pods are the owned pods in order, each with the samples stored for it before |
| GpuWorkloads.GpuWorkload.DecidePhase | internal/controller/gpuworkload_controller.go:258-316 | the loops compute `ComputePhase`, which `PhaseWithPods` and `PhaseWithoutPods` state on the pods, the samples and the threshold |
| GpuRecords.PhaseWithPods | internal/controller/gpuworkload_controller.go:277-316 | PendingGpu exactly if some pending pod waits for a GPU; otherwise PendingOther exactly if no pod runs; otherwise Active exactly if the aggregated utilization, zero without samples, reaches the threshold, and Idle exactly if not |
| GpuRecords.PhaseWithoutPods | internal/controller/gpuworkload_controller.go:258-275 | without pods a new workload becomes PendingOther, missing quota makes any other PendingGpu, and else the phase stays |
| GpuRecords.AggregateIs | internal/controller/gpuworkload_controller.go:390-448 | none without samples; otherwise the rounding of the least, the greatest or the mean of the pods' means, one for each pod with samples, where a mean times the number of samples is their sum |
| GpuRecords.RoundIs | internal/controller/gpuworkload_controller.go:447-447 | rounding is to the nearest hundredth, halves away from zero |
| GpuWorkloads.GpuWorkload.SyncStatus | internal/controller/gpuworkload_controller.go:193-234 | the in-place edits leave the status `Observed` that the protocol writes (stated field by field in `ObservedIs`), a legal successor if and only if the object was in a live phase |
| GpuRecords.ObservedIs | internal/controller/gpuworkload_controller.go:193-234 | idle time starts with the idle phase, is kept in it and ends with it; pods and samples as tracked; nothing else in the status changes |
| GpuWorkloads.GpuWorkload.OwnerDeleted | internal/controller/gpuworkload_controller.go:148-168 | a live record whose owner is gone makes a legal change to Deleted, for that cause only, with its finish time |
| GpuWorkloads.GpuWorkload.FinishPreemption | internal/controller/gpuworkload_controller.go:451-502 | a Preempting record makes a legal change to Preempted with both times set, or on Forbidden back to Idle without idle time, attribution and reason; other failures leave it unchanged and unwritten |
| GpuWorkloads.GpuWorkload.Claim | internal/controller/gpuworkload_controller.go:916-932 | a fresh record is claimed exactly when it is Idle, and then makes a legal change to Preempting with the given reason, attributed to the pending workload if there is one |
| GpuWorkloads.GpuWorkload.Dispatch | internal/controller/gpuworkload_controller.go:119-234 | a reconcile of the object it has read leaves in it, and asks of the store, exactly what the protocol's step `Reconciled` does, and every write it asks for is legal |
| GpuWorkloads.GpuWorkload.ApplyUtilization | internal/controller/gpuworkload_scraper.go:195-236 | the samples of a pod are applied in place as in `Scraped`, a legal change of a record that is not finished, and the metrics time is that of the scrape; nothing changes for an untracked pod |
| GpuWorkloads.ApplySampleAt | internal/controller/gpuworkload_scraper.go:205-230 | a sample replaces the stored value of its GPU if it moved by more than one hundredth, or by exactly one where floating point has that above 0.01; it is appended if the GPU is new, and dropped otherwise |
| GpuWorkloads.SampleOutcome | internal/controller/gpuworkload_scraper.go:205-230 | the stored value is replaced exactly when the rounded one is further than one hundredth away, or exactly one where floating point has that above 0.01; the entry carries the rounded value and the time |
| GpuWorkloads.ApplyOne | internal/controller/gpuworkload_scraper.go:205-230 | the search loop computes `ApplySample` |
| GpuWorkloads.FindStarved | internal/controller/gpuworkload_controller.go:258-300 | whether some pending pod waits for a GPU |
| GpuWorkloads.FindRunning | internal/controller/gpuworkload_controller.go:258-316 | whether some pod is running |
| PreemptionSafety.ObservedSafe | internal/controller/gpuworkload_controller.go:193-234 | the status a reconcile observes has an idle time only in Idle, distinct pods, and the samples of pods that stay owned |
| PreemptionLegality.ObservedLegal | internal/controller/gpuworkload_controller.go:193-234 | from a live phase it is a legal successor |
| PreemptionLegality.ScrapedLegal | internal/controller/gpuworkload_scraper.go:195-236 | a scrape that writes leaves phase and idle time alone, drops no sample, and never concerns a finished record |
| PreemptionLegality.MarkedLegal | internal/controller/gpuworkload_controller.go:817-823 | marking an Idle record is a legal step into Preempting |
| PreemptionSafety.WorkOK | internal/controller/gpuworkload_controller.go:119-256 | every step of a reconciler, scraper or discovery, split spec updates included, keeps the store, the log and its own copy consistent |
| PreemptionSafety.EvaluateOK | internal/controller/gpuworkload_controller.go:740-946 | every step of an evaluation keeps the store and the log consistent, and its candidates are Idle and past their grace period as listed |
| PreemptionSafety.GuardOK | internal/controller/gpuworkload_controller.go:958-1036 | every lease step keeps lease copies accurate and evaluating replicas either holders or expired |
| PreemptionSafety.KeepsInv | internal/controller/gpuworkload_controller.go:119-1036 | every enabled step keeps the invariant of the whole system |
| PreemptionLegality.KeepsLegal | internal/controller/gpuworkload_controller.go:119-946 | every step keeps all statuses well-formed and all writes legal, unless it commits a status from a copy read again in a finished or Preempting phase |
| PreemptionTheorems.EveryChangeLogged | internal/controller/gpuworkload_controller.go:119-946 | a step changes no record, or exactly the one record its log entry names, as the entry says |
| PreemptionTheorems.PhaseMachine | internal/controller/gpuworkload_controller.go:135-234 | in every run, all logged writes are legal (Preempting entered only from Idle by a mark and left only to Preempted or, on Forbidden, to Idle; finished phases unchanged; finish time exactly in them; idle time only in Idle) if and only if no committed write after a re-read came from a copy that was not live |
| PreemptionTheorems.AtomicIsCareful | internal/controller/gpuworkload_controller.go:542-556 | with the spec update and the re-read as one step, no run has such a write |
| PreemptionTheorems.FinishedIsFinal | internal/controller/gpuworkload_controller.go:504-556 | between any two states of any run, until the record is removed, a Preempted or Deleted status stays the same if and only if no reconcile past its re-read writes an observed status to it |
| PreemptionLegality.WriteAfterReread | internal/controller/gpuworkload_controller.go:546-556 | the status write after a re-read is legal if and only if the copy read again is in a live phase |
| PreemptionGrace.GraceRespected | internal/controller/gpuworkload_controller.go:796-928 | for every mark that commits in any run: the workload has been in one idle period for its grace period if and only if the stored idle time passes the listing's test; the stored idle time is the listed one if and only if no write since the listing ended that period, and then it passes and every Forbidden revert is a grace period old |
| PreemptionTheorems.ScrapeLeavesFinished | internal/controller/gpuworkload_scraper.go:158-270 | no scrape, retried or not, changes a Preempted or Deleted record in any run |
| PreemptionTheorems.SamplesSurvive | internal/controller/gpuworkload_scraper.go:195-270 | between any two states of a run, a committed sample of a pod that stays tracked is not lost, and without further scrapes the pod's samples stay exactly the same |
| PreemptionTheorems.TakeoverIsAged | internal/controller/gpuworkload_controller.go:958-1014 | a replica takes over from another only when the renew time is at least the lease duration old, and then holds the lease |
| PreemptionTheorems.EvaluatorsExclude | internal/controller/gpuworkload_controller.go:740-1014 | two replicas evaluate at once only past the lease duration of one of them |
| PreemptionTheorems.LateReleaseIsHarmless | internal/controller/gpuworkload_controller.go:1016-1036 | a late release leaves a successor's lease as it is |
| PreemptionTheorems.LeaseGranted | internal/controller/gpuworkload_controller.go:958-1014 | a replica becomes the evaluator if and only if there is no lease, or the lease is still the one it read and was its own or expired when checked; it then holds it for 30 seconds from its clock reading; otherwise the lease stays |
| PreemptionTheorems.ReleaseChanges | internal/controller/gpuworkload_controller.go:1017-1035 | a release takes effect exactly when the holder reads and writes its own, unchanged lease, and then blanks the holder only: renew time and duration stay |
| PreemptionTheorems.NobodyTakesOver | internal/controller/gpuworkload_controller.go:958-1036 | in every run, once a replica became the evaluator with renew time t, no other replica does before t + 30 seconds |
| PreemptionTheorems.ReleasedIsRefused | internal/controller/gpuworkload_controller.go:992-1036 | in every run, once that replica has released the lease, nobody, not even itself, becomes the evaluator before t + 30 seconds |
| PreemptionTheorems.DiscoveryIs | internal/controller/gpuworkload_controller.go:1157-1185 | a new record is stored with its spec and no status, and then with phase PendingOther; others stay as they are |
| PreemptionTheorems.ReadIs | internal/controller/gpuworkload_controller.go:119-141 | a worker that reads or reads again holds the record as it is stored, for the step it goes on with; a record that is gone ends the reconcile |
| PreemptionTheorems.SpecUpdateIs | internal/controller/gpuworkload_controller.go:529-559 | a spec update commits exactly on the current copy and replaces nothing but the GPU counts; a reconcile goes on with what it wrote |
| PreemptionDemand.ListIs | internal/controller/gpuworkload_controller.go:740-764 | an evaluation starts from every stored record, each once and as it is |
| PreemptionDemand.ClassifyNextIs | internal/controller/gpuworkload_controller.go:776-842 | one listed workload is marked at once exactly if it has been idle for its grace period under the Always policy, and joins the pending, idle or in-flight list exactly by its phase, idle time, policy and attribution |
| PreemptionDemand.MatchStepIs | internal/controller/gpuworkload_controller.go:863-932 | the matching goes by the evaluation's own in-flight capacity, and exactly the victims of its groups are to be marked, each for its group's pending workload |
| PreemptionDemand.PlanConcat | internal/controller/gpuworkload_controller.go:872-932 | group after group, in their order |
| PreemptionTheorems.MarkOutcome | internal/controller/gpuworkload_controller.go:916-932 | a mark commits exactly on the current copy of an Idle record, changes phase, idle time, reason and, for a pending workload, the attribution, and moves on; a conflict keeps the same victim to be tried again; a copy that is not Idle is passed over |
| PreemptionTheorems.ScrapeIs | internal/controller/gpuworkload_scraper.go:195-236 | a scrape commits exactly on the current copy, and only if a sample changed something |
| PreemptionTheorems.ReconcileIs | internal/controller/gpuworkload_controller.go:119-234 | what a reconcile stores from a current copy, field by field: the deletion outcome decides for a Preempting copy, the owner for a live one, and past the spec re-read the status observed |
| PreemptionTheorems.OutdatedWritesNothing | internal/controller/gpuworkload_controller.go:119-234 | an outdated copy writes nothing and can only remove a record whose copy is finished |
| PreemptionTheorems.ExpiryIs | internal/controller/gpuworkload_controller.go:504-523 | a reconcile removes a record if and only if its copy is Preempted or Deleted and finished at least a nonzero time to live ago |
| PreemptionDemand.MarksServeDemand | internal/controller/gpuworkload_controller.go:740-946 | in every run a victim of a matching is marked for a workload that was listed as PendingGpu, any other for nobody, and every victim was listed Idle for at least its grace period |
| PreemptionDemand.MatchingIsSound | internal/controller/gpuworkload_controller.go:766-932 | the victims of a matching on what was classified: each group covers the residual demand of a pending workload, takes its candidates longest idle first, and whoever is left unserved needs more than all that is unclaimed |
| PreemptionBounds.GroupBounded | internal/controller/gpuworkload_controller.go:873-909 | what is in flight for a workload together with the victims picked for it stays within its demand up to one victim |
| PreemptionBounds.BoundStep | internal/controller/gpuworkload_controller.go:786-932 | every step that commits no status from a copy read again in a finished or Preempting phase keeps the bound on in-flight and planned victims of the workload, for every replica whose listing shows all marks for it but its own |
| PreemptionBounds.BoundedOvershoot | internal/controller/gpuworkload_controller.go:786-932 | for a workload that names one resource, in a cluster with any: in every run with fixed counts, in which nobody marks for it from an outdated listing and no status commits from a copy read again in a finished or Preempting phase, the victims being freed for it are none, or include one without which the rest falls short of its demand |
| PreemptionBounds.ApartIsInformed | internal/controller/gpuworkload_controller.go:740-1014 | under the other three hypotheses, evaluations that act within their lease, and evaluations that do not overlap, never mark from an outdated listing, so the bound holds |
| PreemptionLimits.EarlyMark | internal/controller/gpuworkload_controller.go:916-928 | a reachable state in which a mark commits on a workload that has not been idle for its grace period, after it was Active since the listing |
| PreemptionLimits.MarkAfterRevert | internal/controller/gpuworkload_controller.go:455-473 | the same after a mark by another replica was reverted on Forbidden: a mark commits on a workload without idle time |
| PreemptionLimits.SplitRereadResurrects | internal/controller/gpuworkload_controller.go:546-552 | a run with update and re-read as two steps that leads from Preempting to Active by an illegal write |
| PreemptionLimits.LoweredDemandOvershoots | internal/controller/gpuworkload_controller.go:542-552 | a run of one replica within its lease after which a workload that lowered its demand has two victims where one covers it |
| PreemptionLimits.LateEvaluationOvershoots | internal/controller/gpuworkload_controller.go:740-760 | a run that keeps the other hypotheses, in which an evaluation that outlives its lease marks a second victim for a demand of one |
| PreemptionLimits.StaleAttributionOvershoots | internal/controller/gpuworkload_controller.go:546-556 | a run that keeps the other hypotheses, in which a victim made Active past a re-read keeps its attribution and counts again once it is marked under the Always policy |
| PreemptionLimits.SecondResourceOvershoots | internal/controller/gpuworkload_controller.go:867-932 | a run that keeps the other hypotheses, in which a workload that waits for two resources has two victims for one GPU of the second |
| PreemptionLimits.SecondResourceTakesAnother | internal/controller/gpuworkload_controller.go:867-932 | a workload that waits for two resources gets a second victim whenever the first one, which covers both, was claimed for the first resource |
| OwnerWalk.ResolveRootOwner | internal/controller/gpuworkload_resolver.go:56-101 | the walk of ten reads ends at a root if and only if a path of at most ten objects along controller references leads to it |
| OwnerWalk.ControllerRefIsFirst | internal/controller/gpuworkload_resolver.go:103-110 | behind references that are not marked as controller, the next one is chosen if and only if it is marked |
| OwnerWalk.RootByOwnerPath | internal/controller/gpuworkload_resolver.go:56-101 | a root is returned if and only if a path of controller references of at most ten objects leads to it |
| OwnerWalk.ChainDistinct | internal/controller/gpuworkload_resolver.go:56-101 | a walk that finds a root never meets an object twice |
| OwnerWalk.IsAncestorOf | internal/controller/gpuworkload_controller.go:620-648 | the loop with its visited set computes `Walk` and terminates on cycles |
| OwnerWalk.IsPodOwnedByWorkload | internal/controller/gpuworkload_controller.go:590-618 | the checks in order compute `Owned` |
| OwnerWalk.WalksAgree | internal/controller/gpuworkload_controller.go:590-664 | when a pod resolves to a root, its record owns the pod if and only if a regular container names a GPU, the pod is the root, or the root is a direct owner |
| OwnerWalk.OwnedHasReference | internal/controller/gpuworkload_controller.go:590-648 | ownership is claimed only if the pod or an object above it refers to the owner |
| OwnerWalk.InitContainerPodIsLost | internal/controller/gpuworkload_controller.go:650-664 | a concrete pod that resolves to a root whose record does not own it |
| Lifecycle.DetermineOverallStatus | apis/kaiwo/v1alpha1/common_types.go:66-88 | the last status, whatever the ranks |
| Lifecycle.BatchJobMemory | pkg/workloads/common/observability.go:35-68 | each status of a batch job exactly, on its conditions and counts; the previous status matters only as RUNNING, and only while no condition decides, nothing failed and nothing is ready |
| Lifecycle.Decisive | pkg/workloads/common/observability.go:36-48 | the first condition that holds and decides, or none |
| Lifecycle.GatherStops | pkg/workloads/common/utils.go:144-169 | once a resource is missing or unreadable the later ones do not matter |
| Lifecycle.ObserveOverallStatus | pkg/workloads/common/utils.go:144-169 | the loop computes `Overall`, on missing and unreadable resources too |
| Reconciler.MainStatusIsOverall | pkg/workloads/common/workload.go:57-80 | with its one resource, the workload handler's status is that resource's |
| Reconciler.StorageGathered | pkg/workloads/common/storage.go:59-108 | storage reports the claims' conditions and then the download job's, and only if every object is present |
| Reconciler.StorageStatus | pkg/workloads/common/storage.go:59-108 | with downloads, the storage status is the download job's, for every combination of claim and job statuses |
| Reconciler.DownloadGate | pkg/workloads/common/reconciler.go:150-185 | with storage and downloads, workload resources are applied only in a reconcile that found every storage object and a completed download job; `AppliedIff` has both directions |
| Reconciler.GateOpens | pkg/workloads/common/reconciler.go:150-198 | with a schedulable workload and a readable workload part, the observation gets as far as the workload if and only if every storage object was found and the download job completed |
| Observation.AppliedIff | pkg/workloads/common/reconciler.go:283-313 | the workload is applied if and only if the record is neither finished nor terminating and agrees with the observation, and its status is PENDING, STARTING or RUNNING, or none yet with every download it asks for succeeded; storage if and only if such a record has an active status and storage is enabled |
| Observation.WrittenIff | pkg/workloads/common/reconciler.go:73-114 | a reconcile writes if and only if the record is terminating or differs from a readable observation; what it writes is the observed status, the observed conditions over the stored ones, and a start time exactly on entering RUNNING |
| Observation.UnschedulableIsError | pkg/workloads/common/reconciler.go:141-145 | an unschedulable workload is in ERROR whatever else the cluster shows |
| Observation.DownloadPhases | pkg/workloads/common/reconciler.go:150-198 | with downloads: DOWNLOADING until every storage object is there and the download job has ended, FAILED if it failed, and what the workload part says once it succeeded; an error exactly if the first storage object that is not there could not be read |
| Observation.StoragePhases | pkg/workloads/common/reconciler.go:179-198 | without downloads only a lost claim stops the workload, and an unreadable one fails the reconcile |
| Observation.NoStoragePhases | pkg/workloads/common/reconciler.go:147-198 | without a storage handler the workload part alone decides |
| Observation.NotAdmittedIsPending | pkg/workloads/common/workload.go:106-116 | a workload that is not admitted is PENDING with a false admission condition, whatever its object reports |
| Observation.AdmittedIs | pkg/workloads/common/workload.go:70-105 | an admitted one has the status of its object, STARTING without one, and TERMINATING exactly past its duration under GPU demand; the conditions say so |
| Observation.UnreadableWorkload | pkg/workloads/common/workload.go:57-68 | a failing admission or object read fails the observation |
| Observation.PreemptableIs | pkg/workloads/common/preempting.go:49-85 | the Preemptable condition exists exactly for a running workload with duration and start time, and is true exactly from the end of the duration on |
| Observation.PreemptableFromWorkload | pkg/workloads/common/workload.go:85-105 | an observed Preemptable condition is that one, whatever scheduling and storage report |
| Observation.ShouldPreemptIs | pkg/workloads/common/preempting.go:132-151 | demand is asked for exactly once a running workload is past its duration, not at its end |
| Observation.ClaimIs | pkg/workloads/common/pvc.go:90-114 | a claim is COMPLETE exactly when bound, FAILED exactly when lost, PENDING exactly when pending, with the matching condition |
| Observation.DownloadIs | pkg/workloads/common/download.go:355-406 | the download is COMPLETE, with a true condition, exactly if its job succeeded, FAILED exactly if the job failed, and under way otherwise |
| Settling.SeenAgain | pkg/workloads/common/reconciler.go:141-198 | once an observed status is stored, the next observation has the same status and condition types |
| Settling.Settling | pkg/workloads/common/reconciler.go:84-114 | with no duration and all stored condition types among the observed, any number of reconciles over an unchanged cluster writes at most twice |
| Settling.SettledIsApplied | pkg/workloads/common/reconciler.go:84-114 | with no duration and all stored condition types observed, a workload observed PENDING, STARTING or RUNNING is applied by all but at most two of any number of reconciles over an unchanged cluster |
| Settling.NeverSettles | pkg/workloads/common/reconciler.go:96-114 | a stored condition type that is not observed makes every reconcile write and none apply the workload |
| Settling.SettlesIff | pkg/workloads/common/utils.go:172-181 | settling holds if and only if every stored condition type is observed |
| Settling.WatcherConditionPreventsSettling | pkg/utils/monitoring/metrics.go:389-418 | with the watcher's condition stored, every reconcile of any sequence writes and none applies the workload |
| LifecycleWriters.KeepsInv | pkg/workloads/common/reconciler.go:84-92 | every read and write of the three writers keeps the copies consistent |
| LifecycleWriters.StepAbsorbs | pkg/utils/monitoring/metrics.go:290-338 | no single step of any writer leaves a terminal status or takes TERMINATING elsewhere than TERMINATED |
| LifecycleWriters.Absorption | pkg/workloads/common/reconciler.go:84-92 | over every interleaving, COMPLETE, FAILED and TERMINATED records never change and a TERMINATING one stays or becomes its terminated record |
| LifecycleWriters.StepWrites | pkg/utils/monitoring/metrics.go:290-430 | a writer with a current copy commits what it computes, one with an outdated copy changes nothing; what each of the three makes of the status |
| LifecycleWriters.CopiesAfter | pkg/utils/monitoring/metrics.go:290-430 | a copy serves one write, and only the watcher goes on, with what it has just committed |
| LifecycleWriters.PreemptableIsOver | pkg/workloads/common/preempting.go:49-127 | in every run, whenever the Preemptable condition that the cleanup goes by is true, some own reconcile found the duration over, counted from a start time of the workload |
| LifecycleWriters.KaiwoWorkload.HandleStatusTransition | pkg/workloads/common/reconciler.go:201-253 | what was observed is stored; the start time becomes the clock reading exactly on entering RUNNING; the time run is counted from it; the same observation then needs no further write if and only if every stored condition type was observed |
| LifecycleWriters.KaiwoWorkload.TerminateWorkload | pkg/workloads/common/termination.go:54-97 | the one change a TERMINATING workload may make: its early-termination condition becomes true and keeps its reason, other conditions stay, and no reconcile changes it afterwards |
| LifecycleWriters.KaiwoWorkload.SetEarlyTermination | pkg/workloads/common/termination.go:180-194 | whatever the cluster shows, the next reconcile terminates the workload with this reason and message; other conditions stay |
| LifecycleWriters.KaiwoWorkload.ReconcileStatus | pkg/workloads/common/reconciler.go:73-114 | the own reconcile edits the object into the record of the step `Reconcile`, and leaves no terminal status and TERMINATING only for TERMINATED |
| LifecycleWriters.KaiwoWorkload.WatchUtilization | pkg/utils/monitoring/metrics.go:290-430 | the watcher's round leaves a finished workload unchanged; any other becomes TERMINATING if and only if its utilization is low, has been for too long and flagging is on, and the next reconcile then terminates it with reason GpuUtilizationLow |
| LifecycleWriters.CleanupExpiredWorkloads | pkg/workloads/common/preempting.go:88-129 | exactly the running workloads with a true Preemptable condition whose update succeeds become TERMINATING, with the reason, the others stay; the answer says whether any did; `PreemptableIsOver` says what the condition means |
| Quota.Identify | internal/controller/utils/kueue.go:110-130 | a node with GPUs has a GPU vendor |
| Quota.FlavorNameInjective | internal/controller/utils/kueue.go:136-136 | nodes with the same flavor name agree on vendor, model and GPU count, whatever the model string |
| Quota.FlavorParts | internal/controller/utils/kueue.go:110-136 | between the hyphens of a flavor name stand vendor, model, GPU count, CPU and memory, each stated on the node's labels and fields |
| Quota.DecimalReads | internal/controller/utils/kueue.go:136-136 | a number in a flavor name reads back as the number |
| Quota.MembersCoherent | internal/controller/utils/kueue.go:96-136 | so the eligible nodes of a pool agree |
| Quota.TotalCapacity | internal/controller/utils/kueue.go:96-166 | what the pool members contribute is the sum over the nodes neither cordoned nor excluded: Nvidia's count where both its labels are there, AMD's where both of its are and Nvidia's are not, CPU and memory as they are |
| Quota.FlavorCapacity | internal/controller/utils/kueue.go:96-166 | the same for each flavor |
| Quota.Counters | internal/controller/utils/kueue.go:142-154 | the counters found or created for a node's flavor are those of its resources, with the sums so far |
| Quota.AddNode | internal/controller/utils/kueue.go:142-166 | adding a node keeps the aggregates exact; no counter lookup misses |
| Quota.AggregateNodes | internal/controller/utils/kueue.go:96-166 | the loop leaves the flavors of the available nodes, and in each counter the sum of the fields of the nodes of that flavor |
| ClusterQueues.PoolShares | internal/controller/utils/kueue.go:168-190 | a pool lists each of its resources once, with its sum |
| ClusterQueues.BuildPools | internal/controller/utils/kueue.go:168-196 | one pool per flavor, with its quotas |
| ClusterQueues.FillUp | internal/controller/utils/kueue.go:325-349 | a flavor lists each covered resource exactly once and no amount changes |
| ClusterQueues.CreateClusterQueue | internal/controller/utils/kueue.go:278-355 | every flavor lists each covered resource once with its pool's amounts, for every order of the flavors |
| ClusterQueues.Reorder | internal/controller/kaiwoqueueconfig_controller.go:466-482 | for any flavor and any covered resources, the reordering loses and repeats nothing if and only if every quota is covered as often as it is listed and is the only one of its resource |
| ClusterQueues.DropsUncovered | internal/controller/kaiwoqueueconfig_controller.go:466-482 | with each resource listed and covered once, exactly the quotas of resources that are not covered are dropped |
| ClusterQueues.PartitionSum | internal/controller/utils/kueue.go:96-166 | summing over flavors counts every eligible node exactly once |
| ClusterQueues.QuotasByNodes | internal/controller/utils/kueue.go:278-355 | the quota of each flavor is what the fields of its available nodes add up to, and all quotas of a resource are what the available nodes have |
| ClusterQueues.CoveredAre | internal/controller/utils/kueue.go:142-190 | counted are CPU and memory if any node is available, and a vendor's GPUs exactly if some available node's labels count any |
| ClusterQueues.BuildQueue | internal/controller/utils/kueue.go:77-355 | from nodes to queue: every quota and every total is the sum over the available nodes' own fields, flavors are those of the available nodes, each once, covered are exactly the resources they count, every flavor lists each once, and nothing is lost in the later reordering |
| LocalQueues.BuildStale | internal/controller/kaiwoqueueconfig_controller.go:553-562 | the nested map holds exactly the listed LocalQueues |
| LocalQueues.EnsureLocalQueue | internal/controller/kaiwoqueueconfig_controller.go:597-645 | one namespace: found and taken off the stale map, created, or failed |
| LocalQueues.EnsureAll | internal/controller/kaiwoqueueconfig_controller.go:564-647 | after the first loop, what exists, what is still stale, what is looked up and whether a call failed |
| LocalQueues.DeleteStale | internal/controller/kaiwoqueueconfig_controller.go:649-665 | exactly the stale LocalQueues of queues that list namespaces are deleted, unless the call fails |
| LocalQueues.SyncLocalQueues | internal/controller/kaiwoqueueconfig_controller.go:545-668 | which LocalQueues exist after a pass, and exactly when it reports success, for every configuration and every set of failing calls |
| LocalQueues.Convergence | internal/controller/kaiwoqueueconfig_controller.go:564-665 | after a successful pass a queue that lists namespaces has LocalQueues in exactly those if and only if its ClusterQueue was found; one not found has none left |
| LocalQueues.Frame | internal/controller/kaiwoqueueconfig_controller.go:588-665 | LocalQueues of names outside the configuration, or of queues without namespaces, are untouched |
| LocalQueues.Idempotent | internal/controller/kaiwoqueueconfig_controller.go:545-668 | a second pass with the same answers changes nothing |
| LocalQueues.FailedLookupDeletes | internal/controller/kaiwoqueueconfig_controller.go:609-665 | an existing LocalQueue of a queue with namespaces disappears if and only if no readable queue asks for it or its lookup fails |
| Scheduling.FillGpuStats | pkg/workloads/common/cluster.go:90-142 | totals and minima over the nodes of the vendor, exactly, and the GPU count of each of them by name |
| Scheduling.CeilingIsLeast | pkg/workloads/common/scheduling.go:106-107 | the rounded-up quotient is the least cover |
| Scheduling.QuotientIs | pkg/workloads/common/scheduling.go:106-107 | integer division truncates toward zero: what is left over has the sign of the dividend |
| Scheduling.ReplicaSplit | pkg/workloads/common/scheduling.go:63-113 | replicas are least to cover the larger of the two requests at the node minimum (of allocatable GPUs exactly if asked for and enough), a share is at least one and fits every node, the shortfall is less than one GPU per replica and zero exactly when replicas divide the request |
| Scheduling.SplitAsGiven | pkg/workloads/common/scheduling.go:63-91 | a request for no GPUs gets none on its replicas, one if unset; a split that is given and fits the cluster is kept, and covers the request exactly if the plain count asks for no more |
| Naming.MakeCompliantLabel | internal/controller/utils/naming.go:423-443 | the result is empty or a label in the syntax of section 2.1 of RFC 1123 with at most 63 characters; empty exactly when no letter or digit survives |
| Naming.MakeCompliantContent | internal/controller/utils/naming.go:423-443 | the result is a run of the cleaned string; only hyphens are dropped before it and within 63 characters behind it |
| Naming.MakeCompliantFixed | internal/controller/utils/naming.go:423-443 | exactly the labels that fit, and the empty string, are left alone |
| Naming.CleanCharIs | internal/controller/utils/naming.go:425-430 | capitals become lower-case letters (U+0130 and U+212A become i and k), lower-case letters, digits and hyphens stay, everything else becomes a hyphen |
| Naming.JoinConcat | internal/controller/utils/naming.go:158-158 | parts are joined in their order with one hyphen between them |
| Naming.CalculateLength | internal/controller/utils/naming.go:118-132 | the computed length is the length of the assembled name |
| Naming.FindLongest | internal/controller/utils/naming.go:136-144 | the first of the longest parts |
| Naming.Sanitize | internal/controller/utils/naming.go:101-110 | every part becomes its sanitized label, or "part" if nothing survives |
| Naming.Shorten | internal/controller/utils/naming.go:146-149 | one cut keeps the pieces labels, prefixes and cut longest first, makes them shorter, and was needed |
| Naming.Truncate | internal/controller/utils/naming.go:134-155 | the loop ends; pieces are non-empty prefixes, cut longest first and no more than needed; the name fits if and only if one character per part would |
| Naming.GenerateDerivedName | internal/controller/utils/naming.go:96-163 | a label made of the pieces in order, a hyphen and the whole hash; it fits if and only if there are at most 27 parts with an eight-character hash, 32 without; the errors exactly for no parts and for a hash shorter than asked for |

## Left out

- Client plumbing, informers, events, logging, RBAC and manager setup: input and output only.
- The CLI, the downloader and workload scripts, webhooks and the construction of pods, Ray objects, Deployments and AppWrappers: field copying.
- Prometheus scraping and parsing, annotation and environment lookups, message matching in `isPendingDueToGPU`, and SHA-256 over JSON: inputs of the model.
- The numeric comparison that orders flavors by name in a ClusterQueue: the results hold for every order.
- Owner-chain text, preemption reasons, events and requeue times: they do not feed back into a decision.
- Negative GPU counts in node labels and in pod requests.
- A scraper copy reused for a second pod after an update that failed without a conflict; every other reuse is a read after a write.
- Changes that others make to LocalQueues while a pass runs: the listing and the lookups of one pass see the same LocalQueues.
- Durations in the settling result: a workload with a duration writes again when its time is up, by design.
- PreemptionBounds.BoundedOvershoot: says nothing about workloads that name two resources, changing counts, marks from outdated listings, or runs with a committed write from a copy read again in a finished or Preempting phase; SecondResourceOvershoots, LoweredDemandOvershoots, LateEvaluationOvershoots and StaleAttributionOvershoots are runs in which the bound fails.
- GpuWorkloads.GpuWorkload.DecidePhase: floating-point rounding of averages is not modelled, averages are reals.
- Naming.GenerateDerivedName: asking for more than 64 hash characters, where the code panics, is an outcome of its own.
- CalculateResourceConfig: the division by zero that follows when no node minimum is positive is an outcome of its own.
- Lifecycle.DetermineOverallStatus: no statement that the highest rank wins, because the code returns the last status.
