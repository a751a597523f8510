/**
  The grace period, for every run: when the mark of an evaluation commits, the workload has been idle for
  its grace period exactly when the record it is read from again would still pass the test that the
  evaluation made on the listed copy, and it fails to only after a write that ended the listed idle period.
 */
module PreemptionGrace {
  import opened Common
  import opened GpuRecords
  import opened Victims
  import opened Preemption
  import opened PreemptionSafety
  import opened PreemptionTheorems

  // ----- The history of one record -----

  /** The write left the workload Idle with idle time `t`. */
  ghost predicate LeavesIdle(e: Event, t: int) {
    e.after.Some? && e.after.value.status.phase == Idle && e.after.value.status.idleSince == Some(t)
  }

  /** Entry `i` of the log is the last write to a record. */
  ghost predicate LastWrite(log: seq<Event>, name: string, i: nat) {
    i < |log| && log[i].name == name && forall j :: i < j < |log| ==> log[j].name != name
  }

  /**
    One idle period that began at `t` and has not ended: some write left the workload Idle with that idle
    time, and so did every later write and every write at a later time.
   */
  ghost predicate IdlePeriod(log: seq<Event>, name: string, t: int) {
    && IdleThroughout(log, name, t)
    && exists i :: 0 <= i < |log| && log[i].name == name && IdleFrom(log, name, i, t)
  }

  ghost predicate IdleFrom(log: seq<Event>, name: string, i: nat, t: int) {
    forall j :: i <= j < |log| && log[j].name == name ==> LeavesIdle(log[j], t)
  }

  /** The workload is in an idle period that began at time `t` or before. */
  ghost predicate IdleSinceAtMost(log: seq<Event>, name: string, t: int) {
    exists u :: u <= t && IdlePeriod(log, name, u)
  }

  /** A write at `since` or later ended the idle period that began at `t`, and no write resumed it. */
  ghost predicate PeriodEnded(log: seq<Event>, name: string, since: int, t: int) {
    exists i :: 0 <= i < |log| && log[i].name == name && log[i].time >= since && NotIdleFrom(log, name, i, t)
  }

  ghost predicate NotIdleFrom(log: seq<Event>, name: string, i: nat, t: int) {
    forall j :: i <= j < |log| && log[j].name == name ==> !LeavesIdle(log[j], t)
  }

  // ----- The log tells what is stored, and when a copy went stale -----

  ghost predicate Recorded(w: World, name: string)
    requires name in w.store
  {
    exists i: nat :: LastWrite(w.log, name, i) && w.log[i].after == Some(w.store[name].rec)
  }

  /** A copy taken at `t` is current, or the record was written at `t` or later. */
  ghost predicate SeenAt(w: World, x: Snapshot, t: int) {
    && t <= w.clock
    && (x.name in w.store && !Current(w, x) ==> exists i: nat :: LastWrite(w.log, x.name, i) && w.log[i].time >= t)
  }

  ghost predicate AllRecorded(w: World) {
    forall n :: n in w.store ==> Recorded(w, n)
  }

  lemma LastWriteKept(log: seq<Event>, e: Event, name: string, i: nat)
    requires LastWrite(log, name, i) && e.name != name
    ensures LastWrite(log + [e], name, i) && (log + [e])[i] == log[i]
  {
  }

  lemma LastWriteNew(log: seq<Event>, e: Event)
    ensures LastWrite(log + [e], e.name, |log|) && (log + [e])[|log|] == e
  {
  }

  lemma RecordedNext(w: World, w': World, e: Event)
    requires AllRecorded(w) && OneWrite(w, w', e)
    ensures AllRecorded(w')
  {
    forall n | n in w'.store
      ensures Recorded(w', n)
    {
      if n == e.name {
        LastWriteNew(w.log, e);
      } else {
        var i: nat :| LastWrite(w.log, n, i) && w.log[i].after == Some(w.store[n].rec);
        LastWriteKept(w.log, e, n, i);
      }
    }
  }

  lemma SeenAtNext(w: World, w': World, e: Event, x: Snapshot, t: int)
    requires SeenAt(w, x, t) && OneWrite(w, w', e) && w.clock <= w'.clock
    ensures SeenAt(w', x, t)
  {
    if x.name in w'.store && !Current(w', x) {
      if x.name == e.name {
        LastWriteNew(w.log, e);
      } else {
        var i: nat :| LastWrite(w.log, x.name, i) && w.log[i].time >= t;
        LastWriteKept(w.log, e, x.name, i);
      }
    }
  }

  // ----- Along a run -----

  /** Listed copies, and the victims picked from them. */
  ghost predicate EvalSeen(w: World, e: Eval) {
    match e
    case Classifying(_, listing, listedAt, _, acc, mark, _) =>
      && (forall x :: x in listing ==> SeenAt(w, x, listedAt))
      && (forall v :: v in acc.idle ==> v.gw in listing)
      && (mark.Some? ==> mark.value.victim.gw in listing)
    case Marking(_, listing, listedAt, plan, _, _) =>
      && (forall x :: x in listing ==> SeenAt(w, x, listedAt))
      && (forall m :: m in plan ==> m.victim.gw in listing)
    case _ => true
  }

  ghost predicate HistoryInv(s: System) {
    AllRecorded(s.world) && forall r :: EvalSeen(s.world, EvalOf(s, r))
  }

  lemma EvalSeenNext(w: World, w': World, e: Eval)
    requires EvalSeen(w, e) && w.clock <= w'.clock
    requires SameRecords(w, w') || exists v :: OneWrite(w, w', v)
    ensures EvalSeen(w', e)
  {
    if e.Classifying? || e.Marking? {
      forall x | x in e.listing
        ensures SeenAt(w', x, e.listedAt)
      {
        if v :| OneWrite(w, w', v) {
          SeenAtNext(w, w', v, x, e.listedAt);
        }
      }
    }
  }

  /** What the evaluation itself makes of its listing. */
  lemma EvalSeenChange(w: World, e: Eval, a: EvalAction)
    requires EvalEnabled(w, e, a) && EvalSeen(w, e)
    ensures EvalSeen(w, Evaluate(w, e, a).1)
  {
    match a
    case List(names) =>
      forall x | x in Evaluate(w, e, a).1.listing
        ensures SeenAt(w, x, w.clock)
      {
      }
    case ClassifyNext(grace, always) =>
      assert e.listing[e.at] in e.listing;
    case MatchVictims(order, pending, idle) =>
      forall m | m in Evaluate(w, e, a).1.plan
        ensures m.victim.gw in e.listing
      {
        PlanVictims(order, pending, idle, e.acc, m);
      }
    case _ =>
  }

  lemma HistoryStep(s: System, step: Step)
    requires HistoryInv(s) && Enabled(s, step)
    ensures HistoryInv(Apply(s, step))
  {
    var s' := Apply(s, step);
    EveryChangeLogged(s, step);
    ClockGrows(s, step);
    if e :| OneWrite(s.world, s'.world, e) {
      RecordedNext(s.world, s'.world, e);
    }
    forall r
      ensures EvalSeen(s'.world, EvalOf(s', r))
    {
      if step.ByEvaluator? && step.r == r {
        EvalSeenChange(s.world, EvalOf(s, r), step.eval);
      }
      EvalSeenNext(s.world, s'.world, if EvalSeen(s.world, EvalOf(s', r)) then EvalOf(s', r) else EvalOf(s, r));
    }
  }

  lemma {:induction false} HistoryAlong(s: System, steps: seq<Step>, s': System)
    requires HistoryInv(s) && Runs(s, steps, s')
    ensures HistoryInv(s')
    decreases |steps|
  {
    if steps != [] {
      HistoryStep(s, steps[0]);
      HistoryAlong(Apply(s, steps[0]), steps[1..], s');
    }
  }

  // ----- The grace period -----

  /** The test that the evaluation makes on a listed copy, here on what is stored now. */
  predicate OutlastsGrace(st: Status, grace: int, now: int) {
    st.idleSince.Some? && now - st.idleSince.value >= grace
  }

  lemma StoredIdleTime(w: World, name: string, t: int)
    requires WorldOK(w) && name in w.store && Recorded(w, name) && w.store[name].rec.status.phase == Idle
    ensures IdlePeriod(w.log, name, t) <==> w.store[name].rec.status.idleSince == Some(t)
  {
    assert StoredOK(w, name);
    var i: nat :| LastWrite(w.log, name, i) && w.log[i].after == Some(w.store[name].rec);
    if w.store[name].rec.status.idleSince == Some(t) {
      assert IdleFrom(w.log, name, i, t);
    }
    if k :| 0 <= k < |w.log| && w.log[k].name == name && IdleFrom(w.log, name, k, t) {
      assert k <= i && LeavesIdle(w.log[i], t);
    }
  }

  lemma StoredIdleEnded(w: World, x: Snapshot, since: int, t: int)
    requires WorldOK(w) && x.name in w.store && Recorded(w, x.name) && w.store[x.name].rec.status.phase == Idle
    requires SeenAt(w, x, since) && (Current(w, x) ==> w.store[x.name].rec.status.idleSince == Some(t))
    ensures PeriodEnded(w.log, x.name, since, t) <==> w.store[x.name].rec.status.idleSince != Some(t)
  {
    var i: nat :| LastWrite(w.log, x.name, i) && w.log[i].after == Some(w.store[x.name].rec);
    if w.store[x.name].rec.status.idleSince != Some(t) {
      var k: nat :| LastWrite(w.log, x.name, k) && w.log[k].time >= since;
      assert k == i;
      assert NotIdleFrom(w.log, x.name, i, t);
    }
    if k :| 0 <= k < |w.log| && w.log[k].name == x.name && w.log[k].time >= since && NotIdleFrom(w.log, x.name, k, t) {
      assert k <= i && !LeavesIdle(w.log[i], t);
    }
  }

  /**
    The grace period of every mark that commits, in every run. The workload has been in one idle period for
    its whole grace period if and only if the stored idle time still passes the evaluation's own test. The
    stored idle time is the listed one if and only if no write since the listing ended that idle period for
    good, and then it does pass; a Forbidden revert, which clears the idle time, lies a grace period back.
   */
  lemma GraceRespected(s0: System, steps: seq<Step>, s: System, r: string, reason: string)
    requires Init(s0) && Runs(s0, steps, s) && Enabled(s, ByEvaluator(r, MarkWrite(reason)))
    requires Apply(s, ByEvaluator(r, MarkWrite(reason))).world != s.world
    ensures var e := EvalOf(s, r); var v := CurrentMark(e).value.victim; var w := s.world;
      && v.gw.name in w.store
      && var st := w.store[v.gw.name].rec.status;
      && (IdleSinceAtMost(w.log, v.gw.name, w.clock - v.grace) <==> OutlastsGrace(st, v.grace, w.clock))
      && (st.idleSince == Some(v.idleSince) <==> !PeriodEnded(w.log, v.gw.name, e.listedAt, v.idleSince))
      && (st.idleSince == Some(v.idleSince) ==> OutlastsGrace(st, v.grace, w.clock) && RevertsAged(w, v))
  {
    RunInv(s0, steps, s);
    HistoryAlong(s0, steps, s);
    GraceAt(s.world, EvalOf(s, r), reason);
  }

  /** Every Forbidden revert of the workload is at least its grace period old. */
  ghost predicate RevertsAged(w: World, v: Entry) {
    forall e :: e in w.log && e.name == v.gw.name && e.cause == ByForbidden && e.before.Some? && e.after.Some? ==>
      w.clock - e.time >= v.grace
  }

  lemma GraceAt(w: World, e: Eval, reason: string)
    requires WorldOK(w) && EvalOK(w, e) && AllRecorded(w) && EvalSeen(w, e)
    requires EvalEnabled(w, e, MarkWrite(reason)) && Evaluate(w, e, MarkWrite(reason)).0 != w
    ensures var v := CurrentMark(e).value.victim;
      && v.gw.name in w.store
      && var st := w.store[v.gw.name].rec.status;
      && (IdleSinceAtMost(w.log, v.gw.name, w.clock - v.grace) <==> OutlastsGrace(st, v.grace, w.clock))
      && (st.idleSince == Some(v.idleSince) <==> !PeriodEnded(w.log, v.gw.name, e.listedAt, v.idleSince))
      && (st.idleSince == Some(v.idleSince) ==> OutlastsGrace(st, v.grace, w.clock) && RevertsAged(w, v))
  {
    var v := CurrentMark(e).value.victim;
    var name := v.gw.name;
    assert EntryOK(w, v, e.listedAt) && SeenAt(w, v.gw, e.listedAt);
    assert SnapOK(w, e.copy.value.snap, e.copy.value.readAt);
    var st := w.store[name].rec.status;
    assert st.phase == Idle && Recorded(w, name);
    StoredIdleEnded(w, v.gw, e.listedAt, v.idleSince);
    if st.idleSince.Some? {
      StoredIdleTime(w, name, st.idleSince.value);
    }
    if u :| u <= w.clock - v.grace && IdlePeriod(w.log, name, u) {
      StoredIdleTime(w, name, u);
    }
    if st.idleSince == Some(v.idleSince) {
      RevertsBefore(w, name, v.idleSince);
    }
  }

  lemma RevertsBefore(w: World, name: string, t: int)
    requires WorldOK(w) && name in w.store && w.store[name].rec.status.idleSince == Some(t)
    ensures forall e :: e in w.log && e.name == name && e.cause == ByForbidden && e.before.Some? && e.after.Some? ==>
      e.time <= t
  {
    assert StoredOK(w, name);
    forall x | x in w.log && x.name == name && x.cause == ByForbidden && x.before.Some? && x.after.Some?
      ensures x.time <= t
    {
      assert SafeEvent(x);
      assert SafeChange(x.before.value.status, x.after.value.status, ByForbidden);
    }
  }
}
