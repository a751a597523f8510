/**
  The three writers of a workload's status: its own reconcile, the cleanup that another workload's
  reconcile runs, and the metrics watcher. Each reads a copy and writes it back later; a write
  commits only on the version it was read at.
 */
module LifecycleWriters {
  import opened Common
  import opened Lifecycle
  import opened Reconciler
  import opened Observation

  const EXPIRED := Condition(EARLY, False, "DurationExceeded",
                             "Workload is terminating due to exceeding its duration and active GPU demand")

  /** The cleanup of a running workload that has outlived its duration. */
  function Expire(st: Stored): Stored {
    if st.status == Running && TrueIn(st.conditions, PREEMPTABLE)
    then st.(status := Terminating, conditions := Set(st.conditions, EXPIRED))
    else st
  }

  const LOW := "GpuUtilizationLow"

  function Utilization(low: bool): Condition {
    if low then Condition(UNDERUTILIZED, True, LOW, "One or more GPUs are underutilizing requested resources")
    else Condition(UNDERUTILIZED, False, "GpuUtilizationNormal", "GPU utilization is normal")
  }

  function EarlyTermination(st: Stored, reason: string, message: string): Stored {
    st.(status := Terminating, conditions := Set(st.conditions, Condition(EARLY, False, reason, message)))
  }

  const UNDERUTILIZED_MESSAGE := "Terminating workload due to underutilized GPU resources"

  /** Flags an underutilized workload once the condition has been there for too long. */
  function Flagged(st: Stored, tooLong: bool): Stored {
    if TrueIn(st.conditions, UNDERUTILIZED) && tooLong
    then EarlyTermination(st, st.conditions[UNDERUTILIZED].reason, UNDERUTILIZED_MESSAGE)
    else st
  }

  predicate Finished(s: Phase) {
    s in {Terminating, Terminated, Failed, Complete}
  }

  // ----- The system -----

  datatype Role = Owner | Cleaner | Watcher | Flagger

  datatype Copy = Copy(version: nat, rec: Stored, role: Role)

  datatype System = System(version: nat, next: nat, rec: Stored, copies: map<string, Copy>)

  datatype Action =
    | Read(role: Role)
    | Own(spec: Spec, view: View, now: int)
    | Clean
    | Watch(low: bool)
    | Flag(tooLong: bool)

  datatype Step = Step(k: string, action: Action)

  predicate Enabled(s: System, step: Step) {
    match step.action
    case Read(role) => role != Flagger
    case Own(_, _, _) => step.k in s.copies && s.copies[step.k].role == Owner
    case Clean => step.k in s.copies && s.copies[step.k].role == Cleaner
    case Watch(_) => step.k in s.copies && s.copies[step.k].role == Watcher
    case Flag(_) => step.k in s.copies && s.copies[step.k].role == Flagger
  }

  function Write(s: System, k: string, rec: Stored): System
    requires k in s.copies
  {
    var dropped := s.copies - {k};
    if s.copies[k].version == s.version then s.(version := s.next, next := s.next + 1, rec := rec, copies := dropped)
    else s.(copies := dropped)
  }

  function Apply(s: System, step: Step): System
    requires Enabled(s, step)
  {
    var k := step.k;
    match step.action
    case Read(role) => s.(copies := s.copies[k := Copy(s.version, s.rec, role)])
    case Own(spec, view, now) =>
      var r := Reconcile(s.copies[k].rec, spec, view, now);
      if r.wrote then Write(s, k, r.stored) else s.(copies := s.copies - {k})
    case Clean =>
      var st := s.copies[k].rec;
      if Expire(st) != st then Write(s, k, Expire(st)) else s.(copies := s.copies - {k})
    case Watch(low) =>
      var st := s.copies[k].rec;
      if Finished(st.status) then s.(copies := s.copies - {k})
      else
        var s' := Write(s, k, st.(conditions := Set(st.conditions, Utilization(low))));
        if s'.version != s.version then s'.(copies := s'.copies[k := Copy(s'.version, s'.rec, Flagger)]) else s'
    case Flag(tooLong) => Write(s, k, Flagged(s.copies[k].rec, tooLong))
  }

  ghost predicate Runs(s: System, steps: seq<Step>, s': System)
    decreases |steps|
  {
    if steps == [] then s' == s
    else Enabled(s, steps[0]) && Runs(Apply(s, steps[0]), steps[1..], s')
  }

  ghost predicate Inv(s: System) {
    && s.version < s.next
    && forall k :: k in s.copies ==>
         var c := s.copies[k];
         && c.version < s.next
         && (c.version == s.version ==> c.rec == s.rec)
         && (c.role == Flagger ==> !Finished(c.rec.status))
  }

  /** What may follow what: terminal records are frozen, TERMINATING only becomes TERMINATED. */
  ghost predicate Absorbs(b: Stored, a: Stored) {
    && (b.status == Complete || b.status == Failed || b.status == Terminated ==> a == b)
    && (b.status == Terminating ==> a == b || a == Terminate(b))
  }

  lemma KeepsInv(s: System, step: Step)
    requires Inv(s) && Enabled(s, step)
    ensures Inv(Apply(s, step))
  {
  }

  lemma StepAbsorbs(s: System, step: Step)
    requires Inv(s) && Enabled(s, step)
    ensures Absorbs(s.rec, Apply(s, step).rec)
  {
    if !step.action.Read? {
      assert s.copies[step.k].version == s.version ==> s.copies[step.k].rec == s.rec;
    }
  }

  /** Nobody has read the record yet. */
  ghost predicate Start(s: System) {
    s.version < s.next && s.copies == map[]
  }

  lemma {:induction false} AbsorbsAlong(s: System, steps: seq<Step>, s': System)
    requires Inv(s) && Runs(s, steps, s')
    ensures Inv(s') && Absorbs(s.rec, s'.rec)
    decreases |steps|
  {
    if steps != [] {
      KeepsInv(s, steps[0]);
      StepAbsorbs(s, steps[0]);
      AbsorbsAlong(Apply(s, steps[0]), steps[1..], s');
    }
  }

  /**
    Absorption over every interleaving of the three writers: between any two states of a run, a record
    that is COMPLETE, FAILED or TERMINATED does not change, and one that is TERMINATING stays as it is
    or becomes the terminated record.
   */
  lemma Absorption(s0: System, before: seq<Step>, s: System, steps: seq<Step>, s': System)
    requires Start(s0) && Runs(s0, before, s) && Runs(s, steps, s')
    ensures Absorbs(s.rec, s'.rec)
  {
    AbsorbsAlong(s0, before, s);
    AbsorbsAlong(s, steps, s');
  }

  /** Conditions of every other type are the same. */
  ghost predicate SameBut(a: Conditions, b: Conditions, ctype: string) {
    forall t :: t != ctype ==> (t in a <==> t in b) && (t in a ==> a[t] == b[t])
  }

  /** Terminating sets one condition and keeps its reason, and no reconcile changes the record afterwards. */
  lemma TerminateIsFinal(st: Stored)
    ensures var t := Terminate(st);
      && TrueIn(t.conditions, EARLY) && SameBut(t.conditions, st.conditions, EARLY)
      && (EARLY in st.conditions ==> t.conditions[EARLY].reason == st.conditions[EARLY].reason)
    ensures forall spec, v, now :: Reconcile(Terminate(st), spec, v, now).stored == Terminate(st)
  {
  }

  lemma ConditionTypesDiffer()
    ensures UNDERUTILIZED != EARLY
  {
    assert UNDERUTILIZED[0] != EARLY[0];
  }

  // ----- What single steps write -----

  /** Whoever holds a current copy commits what it computes from it; an outdated copy is dropped. */
  lemma StepWrites(s: System, step: Step)
    requires Enabled(s, step) && !step.action.Read?
    ensures var c := s.copies[step.k]; var s' := Apply(s, step);
      && (c.version != s.version ==> s'.rec == s.rec)
      && (c.version == s.version && step.action.Own? ==>
            s'.rec == if Reconcile(c.rec, step.action.spec, step.action.view, step.action.now).wrote
                      then Reconcile(c.rec, step.action.spec, step.action.view, step.action.now).stored
                      else s.rec)
      && (c.version == s.version && c.rec == s.rec && step.action.Clean? ==>
            s'.rec.status ==
              (if c.rec.status == Running && TrueIn(c.rec.conditions, PREEMPTABLE) then Terminating else c.rec.status))
      && (c.version == s.version && c.rec == s.rec && step.action.Watch? && !Finished(c.rec.status) ==>
            && s'.rec.status == c.rec.status && UNDERUTILIZED in s'.rec.conditions
            && (s'.rec.conditions[UNDERUTILIZED].status == True <==> step.action.low))
      && (c.version == s.version && c.rec == s.rec && step.action.Flag? ==>
            s'.rec.status ==
              (if step.action.tooLong && TrueIn(c.rec.conditions, UNDERUTILIZED) then Terminating else c.rec.status))
  {
  }

  /** A copy serves one write; only the watcher goes on, with what it has just committed. */
  lemma CopiesAfter(s: System, step: Step)
    requires Inv(s) && Enabled(s, step) && !step.action.Read?
    ensures var c := s.copies[step.k]; var s' := Apply(s, step);
      && (step.k in s'.copies <==> step.action.Watch? && !Finished(c.rec.status) && c.version == s.version)
      && (step.k in s'.copies ==> s'.copies[step.k] == Copy(s'.version, s'.rec, Flagger))
      && forall k :: k != step.k ==>
           (k in s'.copies <==> k in s.copies) && (k in s.copies ==> s'.copies[k] == s.copies[k])
  {
  }

  // ----- Expiry is past the duration -----

  /** Some own reconcile in the run found the duration over, counted from a time at which the workload started. */
  ghost predicate FoundOver(rec0: Stored, steps: seq<Step>) {
    exists i, start :: 0 <= i < |steps| && Over(steps[i], start) && StartedAt(rec0, steps[..i], start)
  }

  ghost predicate Over(step: Step, start: int) {
    step.action.Own? && step.action.spec.duration.Some? && step.action.now - start >= step.action.spec.duration.value
  }

  /** The start time was there in the beginning, or is the clock reading of an own reconcile. */
  ghost predicate StartedAt(rec0: Stored, steps: seq<Step>, start: int) {
    || rec0.startTime == Some(start)
    || exists j :: 0 <= j < |steps| && steps[j].action.Own? && steps[j].action.now == start
  }

  /** What is stored, and what any copy holds, is justified by the steps so far. */
  ghost predicate Justified(rec0: Stored, steps: seq<Step>, rec: Stored) {
    && (rec.startTime.Some? ==> StartedAt(rec0, steps, rec.startTime.value))
    && (TrueIn(rec.conditions, PREEMPTABLE) ==> FoundOver(rec0, steps))
  }

  ghost predicate AllJustified(rec0: Stored, steps: seq<Step>, s: System) {
    Justified(rec0, steps, s.rec) && forall k :: k in s.copies ==> Justified(rec0, steps, s.copies[k].rec)
  }

  lemma JustifiedLater(rec0: Stored, steps: seq<Step>, step: Step, rec: Stored)
    requires Justified(rec0, steps, rec)
    ensures Justified(rec0, steps + [step], rec)
  {
    if rec.startTime.Some? {
      StartedLater(rec0, steps, step, rec.startTime.value);
    }
    if TrueIn(rec.conditions, PREEMPTABLE) {
      var i, start :| 0 <= i < |steps| && Over(steps[i], start) && StartedAt(rec0, steps[..i], start);
      assert (steps + [step])[..i] == steps[..i] && (steps + [step])[i] == steps[i];
    }
  }

  lemma StartedLater(rec0: Stored, steps: seq<Step>, step: Step, start: int)
    requires StartedAt(rec0, steps, start)
    ensures StartedAt(rec0, steps + [step], start)
  {
    if rec0.startTime != Some(start) {
      var j :| 0 <= j < |steps| && steps[j].action.Own? && steps[j].action.now == start;
      assert (steps + [step])[j] == steps[j];
    }
  }

  /** A true condition for preemption is observed past the duration only, counted from the stored start time. */
  lemma ObservedPreemptable(st: Stored, spec: Spec, v: View, now: int)
    requires Observe(st, spec, v, now).Ok? && TrueIn(Observe(st, spec, v, now).value.1, PREEMPTABLE)
    ensures Timed(st, spec) && now - st.startTime.value >= spec.duration.value
  {
    PreemptableFromWorkload(st, spec, v, now);
    PreemptableIs(st, spec, now);
  }

  lemma OwnJustified(rec0: Stored, steps: seq<Step>, step: Step, st: Stored)
    requires Justified(rec0, steps, st) && step.action.Own?
    ensures Justified(rec0, steps + [step], Reconcile(st, step.action.spec, step.action.view, step.action.now).stored)
  {
    var spec, v, now := step.action.spec, step.action.view, step.action.now;
    var r := Reconcile(st, spec, v, now);
    JustifiedLater(rec0, steps, step, st);
    WrittenIff(st, spec, v, now);
    var steps' := steps + [step];
    assert steps'[|steps|] == step && steps'[..|steps|] == steps;
    if r.wrote && st.status == Terminating {
      TerminateIsFinal(st);
      PreemptableIsNotEarly();
    } else if r.wrote && TrueIn(r.stored.conditions, PREEMPTABLE) && PREEMPTABLE in Observe(st, spec, v, now).value.1 {
      ObservedPreemptable(st, spec, v, now);
      assert Over(step, st.startTime.value);
    }
  }

  lemma PreemptableIsNotEarly()
    ensures PREEMPTABLE != EARLY && PREEMPTABLE != UNDERUTILIZED
  {
    assert PREEMPTABLE[0] == 'P' && EARLY[0] == 'W' && UNDERUTILIZED[0] == 'R';
  }

  lemma StepJustified(rec0: Stored, steps: seq<Step>, s: System, step: Step)
    requires AllJustified(rec0, steps, s) && Enabled(s, step)
    ensures AllJustified(rec0, steps + [step], Apply(s, step))
  {
    PreemptableIsNotEarly();
    JustifiedLater(rec0, steps, step, s.rec);
    forall k | k in s.copies
      ensures Justified(rec0, steps + [step], s.copies[k].rec)
    {
      JustifiedLater(rec0, steps, step, s.copies[k].rec);
    }
    if step.action.Own? {
      OwnJustified(rec0, steps, step, s.copies[step.k].rec);
    }
  }

  lemma {:induction false} JustifiedAlong(rec0: Stored, before: seq<Step>, s: System, steps: seq<Step>, s': System)
    requires AllJustified(rec0, before, s) && Runs(s, steps, s')
    ensures AllJustified(rec0, before + steps, s')
    decreases |steps|
  {
    if steps == [] {
      assert before + steps == before;
    } else {
      StepJustified(rec0, before, s, steps[0]);
      JustifiedAlong(rec0, before + [steps[0]], Apply(s, steps[0]), steps[1..], s');
      assert before + [steps[0]] + steps[1..] == before + steps;
    }
  }

  /**
    The cleanup ends a workload past its duration only: in every run of a record that starts without the
    condition, whenever the condition for preemption is true, some own reconcile found the duration over, counted
    from a start time that was there in the beginning or was set when the workload started.
   */
  lemma PreemptableIsOver(s0: System, steps: seq<Step>, s: System)
    requires Start(s0) && Runs(s0, steps, s) && !TrueIn(s0.rec.conditions, PREEMPTABLE)
    requires TrueIn(s.rec.conditions, PREEMPTABLE)
    ensures FoundOver(s0.rec, steps)
  {
    JustifiedAlong(s0.rec, [], s0, steps, s);
    assert [] + steps == steps;
  }

  // ----- The object edited in place -----

  class KaiwoWorkload {
    var status: Phase
    var conditions: Conditions
    var startTime: Option<int>
    var ran: int

    ghost function Value(): Stored
      reads this
    {
      Stored(status, conditions, startTime, ran)
    }

    constructor (st: Stored)
      ensures Value() == st
    {
      status, conditions, startTime, ran := st.status, st.conditions, st.startTime, st.ran;
    }

    /**
      Records a newly observed status. The next reconcile that observes the same finds nothing to write if
      and only if every stored condition type was observed; the start time is set on entering RUNNING only.
     */
    method HandleStatusTransition(newStatus: Phase, observed: Conditions, now: int)
      requires !Finished(status)
      modifies this
      ensures status == newStatus && observed.Items <= conditions.Items
      ensures conditions == observed <==> old(conditions).Keys <= observed.Keys
      ensures startTime == if newStatus == Running && old(status) != Running then Some(now) else old(startTime)
      ensures ran ==
        if newStatus in {Complete, Failed, Terminating, Running} && startTime.Some? then now - startTime.value
        else old(ran)
      ensures Value() == Transition(old(Value()), newStatus, observed, now)
    {
      var previous := status;
      status := newStatus;
      conditions := conditions + observed;
      if previous != newStatus && newStatus == Running {
        startTime := Some(now);
      }
      if status == Complete || status == Failed || status == Terminating || status == Running {
        if startTime.Some? {
          ran := now - startTime.value;
        }
      }
      assert old(conditions).Keys <= observed.Keys ==> conditions == observed;
      assert conditions.Keys == old(conditions).Keys + observed.Keys;
    }

    /** The one change a TERMINATING workload may make; no reconcile changes it afterwards. */
    method TerminateWorkload()
      requires status == Terminating
      modifies this
      ensures Absorbs(old(Value()), Value()) && status == Terminated
      ensures TrueIn(conditions, EARLY) && SameBut(conditions, old(conditions), EARLY)
      ensures EARLY in old(conditions) ==> conditions[EARLY].reason == old(conditions)[EARLY].reason
      ensures forall spec, v, now :: Reconcile(Value(), spec, v, now).stored == Value()
    {
      status := Terminated;
      if EARLY !in conditions {
        conditions := conditions[EARLY := TERMINATED_EARLY];
      } else {
        conditions := conditions[EARLY := conditions[EARLY].(status := True)];
      }
      assert Value() == Terminate(old(Value()));
      TerminateIsFinal(old(Value()));
    }

    /** Whatever the cluster shows then, the next reconcile terminates the workload and keeps the reason. */
    method SetEarlyTermination(reason: string, message: string)
      requires !Finished(status)
      modifies this
      ensures status == Terminating && SameBut(conditions, old(conditions), EARLY)
      ensures forall spec, v, now :: var next := Reconcile(Value(), spec, v, now).stored;
        && next.status == Terminated
        && EARLY in next.conditions && next.conditions[EARLY] == Details(True, reason, message)
      ensures Value() == EarlyTermination(old(Value()), reason, message)
    {
      status := Terminating;
      conditions := Set(conditions, Condition(EARLY, False, reason, message));
    }

    /** The own reconcile of a workload: the step of the system, and it never leaves what it must not leave. */
    method ReconcileStatus(spec: Spec, v: View, now: int) returns (wrote: bool)
      modifies this
      ensures Absorbs(old(Value()), Value())
      ensures Value() == Reconcile(old(Value()), spec, v, now).stored
      ensures wrote == Reconcile(old(Value()), spec, v, now).wrote
      ensures !wrote ==> Value() == old(Value())
    {
      if IsTerminal(status) {
        return false;
      }
      if status == Terminating {
        TerminateWorkload();
        return true;
      }
      var seen := Observe(Stored(status, conditions, startTime, ran), spec, v, now);
      if seen.Err? || (seen.value.0 == status && seen.value.1 == conditions) {
        return false;
      }
      HandleStatusTransition(seen.value.0, seen.value.1, now);
      return true;
    }

    /**
      The metrics watcher's round for one workload: a finished one is left alone, any other gets the
      utilization condition, and is flagged if that has been too low for too long and flagging is on. The next
      reconcile then terminates it for that reason.
     */
    method WatchUtilization(low: bool, terminate: bool, tooLong: bool)
      modifies this
      ensures Absorbs(old(Value()), Value())
      ensures Finished(old(status)) ==> Value() == old(Value())
      ensures !Finished(old(status)) ==> UNDERUTILIZED in conditions && TrueIn(conditions, UNDERUTILIZED) == low
      ensures !Finished(old(status)) ==>
        (status == Terminating <==> low && terminate && tooLong) && (status != Terminating ==> status == old(status))
      ensures !Finished(old(status)) && status == Terminating ==>
        forall spec, v, now :: var next := Reconcile(Value(), spec, v, now).stored;
          && next.status == Terminated
          && EARLY in next.conditions && next.conditions[EARLY] == Details(True, LOW, UNDERUTILIZED_MESSAGE)
      ensures !Finished(old(status)) ==>
        var watched := old(Value()).(conditions := Set(old(conditions), Utilization(low)));
        Value() == if terminate then Flagged(watched, tooLong) else watched
    {
      if Finished(status) {
        return;
      }
      conditions := Set(conditions, Utilization(low));
      ConditionTypesDiffer();
      if terminate && TrueIn(conditions, UNDERUTILIZED) && tooLong {
        SetEarlyTermination(conditions[UNDERUTILIZED].reason, UNDERUTILIZED_MESSAGE);
      }
    }
  }

  /** The cleanup loop over all listed workloads; `fails` are those whose status update is refused. */
  method CleanupExpiredWorkloads(ws: seq<KaiwoWorkload>, fails: set<KaiwoWorkload>) returns (cleaned: bool)
    requires forall i, j :: 0 <= i < j < |ws| ==> ws[i] != ws[j]
    modifies ws
    ensures forall i :: 0 <= i < |ws| ==>
      ws[i].Value() == if ws[i] in fails then old(ws[i].Value()) else Expire(old(ws[i].Value()))
    ensures forall i :: 0 <= i < |ws| ==> Absorbs(old(ws[i].Value()), ws[i].Value())
    ensures forall i :: 0 <= i < |ws| && ws[i].Value() != old(ws[i].Value()) ==>
      && old(ws[i].status) == Running && ws[i].status == Terminating
      && EARLY in ws[i].conditions && ws[i].conditions[EARLY].status == False
      && ws[i].conditions[EARLY].reason == "DurationExceeded"
    ensures cleaned <==> exists i :: 0 <= i < |ws| && ws[i].Value() != old(ws[i].Value())
  {
    cleaned := false;
    for i := 0 to |ws|
      invariant forall j :: 0 <= j < i ==>
        ws[j].Value() == if ws[j] in fails then old(ws[j].Value()) else Expire(old(ws[j].Value()))
      invariant forall j :: i <= j < |ws| ==> ws[j].Value() == old(ws[j].Value())
      invariant cleaned <==> exists j :: 0 <= j < i && ws[j].Value() != old(ws[j].Value())
    {
      var w := ws[i];
      if w.status == Running && TrueIn(w.conditions, PREEMPTABLE) && w !in fails {
        w.status := Terminating;
        w.conditions := Set(w.conditions, EXPIRED);
        cleaned := true;
        assert ws[i].Value() != old(ws[i].Value());
      }
    }
  }
}
