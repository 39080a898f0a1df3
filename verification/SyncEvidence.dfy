/** Reconciles within a run, and what the evidence of a reconcile says about the calls it has made: which
    clock readings, which schedule, which created devices and which writes stand behind it. */
module SyncEvidence {
  import opened Base
  import opened ApiStore
  import opened SyncProtocol
  import opened SyncInvariant

  lemma StepAt(r: Run, i: nat)
    requires Valid(r) && i < |r.steps|
    ensures Enabled(At(r, i), r.steps[i])
    ensures At(r, i + 1) == Apply(At(r, i), r.steps[i])
  {
    assert Follows(r, i);
  }

  // ---- One reconcile ----

  /** The reconcile in progress after `i` steps began with step `b`. */
  ghost predicate BeganAt(r: Run, b: nat, i: nat)
    requires b < i <= |r.steps|
  {
    r.steps[b].Begin? && forall j | b < j < i :: r.steps[j].Env? || r.steps[j].Do?
  }

  /** A call after which the reconcile goes on. */
  predicate Inner(call: Call) {
    !call.ReadClock? && !call.WriteStatus? && !call.AddFinalizer? && !call.DropFinalizer? && !call.DeleteDevice?
  }

  lemma FirstOfReconcile(r: Run, i: nat)
    requires Valid(r) && i < |r.steps| && r.steps[i].Begin?
    ensures At(r, i + 1).worker.Busy? && At(r, i + 1).worker.read == r.steps[i].read
    ensures At(r, i + 1).worker.ev == NO_EVIDENCE && !At(r, i + 1).worker.halted && !At(r, i + 1).worker.saved
  {
    StepAt(r, i);
  }

  lemma WorkerNext(r: Run, i: nat)
    requires Valid(r) && i < |r.steps| && At(r, i).worker.Busy? && (r.steps[i].Env? || r.steps[i].Do?)
    ensures At(r, i + 1).worker.Busy? && At(r, i + 1).worker.read == At(r, i).worker.read
    ensures At(r, i + 1).worker.ev
      == if r.steps[i].Env? then At(r, i).worker.ev else Learn(At(r, i), At(r, i).worker.ev, r.steps[i].call)
    ensures r.steps[i].Do? ==> CallEnabled(At(r, i), At(r, i).worker, r.steps[i].call) && !At(r, i).worker.halted
    ensures At(r, i).worker.halted ==> At(r, i + 1).worker.halted
    ensures r.steps[i].Do? && !At(r, i + 1).worker.halted && !At(r, i).worker.read.deleting ==>
      Inner(r.steps[i].call) || r.steps[i].call.ReadClock?
  {
    StepAt(r, i);
  }

  lemma {:induction false} BusySince(r: Run, b: nat, i: nat)
    requires Valid(r) && b < i <= |r.steps| && BeganAt(r, b, i)
    ensures At(r, i).worker.Busy? && At(r, i).worker.read == r.steps[b].read
  {
    if i == b + 1 {
      FirstOfReconcile(r, b);
    } else {
      BusySince(r, b, i - 1);
      WorkerNext(r, i - 1);
    }
  }

  lemma BeginsOrGoesOn(r: Run, i: nat)
    requires Valid(r) && 0 < i <= |r.steps| && At(r, i).worker.Busy?
    ensures r.steps[i - 1].Begin? || ((r.steps[i - 1].Env? || r.steps[i - 1].Do?) && At(r, i - 1).worker.Busy?)
  {
    StepAt(r, i - 1);
  }

  /** A busy worker is in a reconcile that began somewhere. */
  lemma {:induction false} ReconcileStart(r: Run, i: nat) returns (b: nat)
    requires Valid(r) && i <= |r.steps| && At(r, i).worker.Busy?
    ensures b < i && BeganAt(r, b, i)
  {
    BeginsOrGoesOn(r, i);
    if r.steps[i - 1].Begin? {
      b := i - 1;
    } else {
      b := ReconcileStart(r, i - 1);
    }
  }

  // ---- Calls behind the evidence ----

  /** Step `d` of the reconcile begun at `b` reads the clock as `t`. */
  ghost predicate ReadsAt(r: Run, b: nat, d: nat, i: nat, t: int)
    requires Valid(r) && i <= |r.steps|
  {
    b < d < i && r.steps[d] == Do(ReadClock) && At(r, d).now == t
  }

  /** Step `p` of the reconcile begun at `b` asks at instant `t` for the next time and is told `next`. */
  ghost predicate PlansAt(r: Run, b: nat, p: nat, i: nat, t: int, next: Option<int>)
    requires Valid(r) && i <= |r.steps|
  {
    b < p < i && r.steps[p] == Do(Schedule(next)) && At(r, p).now == t
  }

  ghost predicate CreatesAt(r: Run, b: nat, d: nat, i: nat, id: string)
    requires i <= |r.steps|
  {
    && b < d < i && r.steps[d].Do? && r.steps[d].call.CreateDevice? && r.steps[d].call.id == id
    && r.steps[d].call.outcome == Applied
  }

  /** Step `d` is a write to the resource that takes effect. */
  ghost predicate TakesEffect(r: Run, d: nat)
    requires Valid(r) && d < |r.steps|
  {
    && r.steps[d].Do?
    && (r.steps[d].call.WriteStatus? || r.steps[d].call.AddFinalizer? || r.steps[d].call.DropFinalizer?)
    && r.steps[d].call.outcome != Rejected
    && At(r, d).worker.Busy? && Current(At(r, d).api, At(r, d).worker.read)
  }

  ghost predicate Read(r: Run, b: nat, i: nat, t: int)
    requires Valid(r) && i <= |r.steps|
  {
    exists d: nat :: ReadsAt(r, b, d, i, t)
  }

  ghost predicate Asked(r: Run, b: nat, i: nat, t: int, next: Option<int>)
    requires Valid(r) && i <= |r.steps|
  {
    exists p: nat :: PlansAt(r, b, p, i, t, next)
  }

  /** ... and after that the clock was read as `now`. */
  ghost predicate AskedThenRead(r: Run, b: nat, i: nat, t: int, next: Option<int>, now: int)
    requires Valid(r) && i <= |r.steps|
  {
    exists p: nat, d: nat :: ReadsAt(r, b, d, i, now) && PlansAt(r, b, p, d, t, next)
  }

  ghost predicate Created(r: Run, b: nat, i: nat, id: string)
    requires Valid(r) && i <= |r.steps|
  {
    exists d: nat :: CreatesAt(r, b, d, i, id)
  }

  ghost predicate Wrote(r: Run, b: nat, i: nat)
    requires Valid(r) && i <= |r.steps|
  {
    exists d | b < d < i :: TakesEffect(r, d)
  }

  /** The instants, the next time and the created devices that `ev` speaks of come from calls made since `b`. */
  ghost predicate Tied(r: Run, b: nat, i: nat, ev: Evidence)
    requires Valid(r) && i <= |r.steps|
  {
    && (ev.clock.Some? ==> Read(r, b, i, ev.clock.value))
    && (ev.gate.Some? ==> Read(r, b, i, ev.gate.value))
    && (if ev.planned then Asked(r, b, i, ev.planAt, ev.next) else ev.next.None?)
    && (forall id | id in ev.created :: Created(r, b, i, id))
  }

  /** What a call adds to the evidence is its own answer. */
  predicate GrowsBy(now: int, ev: Evidence, call: Call, ev': Evidence) {
    && (ev'.clock == ev.clock || (call == ReadClock && ev'.clock == Some(now)) || (call.Schedule? && ev'.clock.None?))
    && (call.Schedule? ==> !ev'.planned || ev'.clock.None?)
    && (ev'.gate == ev.gate || ev'.gate == ev.clock)
    && (if ev'.planned then
          || (ev.planned && ev'.planAt == ev.planAt && ev'.next == ev.next)
          || (call == Schedule(ev'.next) && ev'.planAt == now)
        else ev'.next.None? || (!ev.planned && ev'.next == ev.next))
    && (ev'.created == ev.created
        || (call.CreateDevice? && call.outcome == Applied && ev'.created == ev.created + {call.id}))
  }

  predicate SameTies(ev: Evidence, ev': Evidence) {
    && ev'.clock == ev.clock && ev'.gate == ev.gate && ev'.created == ev.created
    && (if ev'.planned then ev.planned && ev'.planAt == ev.planAt && ev'.next == ev.next
        else ev'.next.None? || (!ev.planned && ev'.next == ev.next))
  }

  lemma FailingAddsNothing(ev: Evidence, cond: CondType, reason: Reason, key: DeviceKey)
    ensures SameTies(ev, Fail(ev, cond, reason)) && SameTies(ev, DeviceFailure(ev, key))
  {
  }

  /** Most calls bear on none of this, except that a failure cancels a plan. */
  lemma OthersAddNothing(s: Sys, ev: Evidence, call: Call)
    requires call.Ping? || call.Bootstrap? || call.TakeSnapshot? || call.EnsureWorkflows? || call.ReportCluster?
             || call.ReportNode? || call.DeleteDevice? || call.AddFinalizer? || call.DropFinalizer? || call.WriteStatus?
    ensures SameTies(ev, Learn(s, ev, call))
  {
    if call.Ping? { FailingAddsNothing(ev, LastSyncSucceeded, LosantUnreachable, OfCluster); }
    if call.Bootstrap? { FailingAddsNothing(ev, GEABootstrapped, BootstrapFailed, OfCluster); }
    if call.ReportCluster? { FailingAddsNothing(ev, GEAReachable, GEAUnreachable, OfCluster); }
  }

  lemma DevicesAddNothing(s: Sys, ev: Evidence, call: Call)
    requires call.FindDevice? || call.PatchDevice?
    ensures SameTies(ev, Learn(s, ev, call))
  {
    FailingAddsNothing(ev, LastSyncSucceeded, LosantUnreachable, call.key);
  }

  lemma EvidenceGrows(s: Sys, ev: Evidence, call: Call)
    ensures GrowsBy(s.now, ev, call, Learn(s, ev, call))
  {
    if call.CreateDevice? {
      assert Learn(s, ev, call) ==
        if call.outcome == Applied then Ensured(ev, call.key, call.id).(created := ev.created + {call.id})
        else DeviceFailure(ev, call.key);
    } else if call.FindDevice? || call.PatchDevice? {
      DevicesAddNothing(s, ev, call);
    } else if !call.ReadClock? && !call.ReadSecret? && !call.Schedule? {
      OthersAddNothing(s, ev, call);
    }
  }

  lemma StillTied(r: Run, b: nat, i: nat, ev: Evidence)
    requires Valid(r) && i < |r.steps| && Tied(r, b, i, ev)
    ensures Tied(r, b, i + 1, ev)
  {
    if ev.clock.Some? {
      var d: nat :| ReadsAt(r, b, d, i, ev.clock.value);
      assert ReadsAt(r, b, d, i + 1, ev.clock.value);
    }
    if ev.gate.Some? {
      var d: nat :| ReadsAt(r, b, d, i, ev.gate.value);
      assert ReadsAt(r, b, d, i + 1, ev.gate.value);
    }
    if ev.planned {
      var p: nat :| PlansAt(r, b, p, i, ev.planAt, ev.next);
      assert PlansAt(r, b, p, i + 1, ev.planAt, ev.next);
    }
    forall id | id in ev.created ensures Created(r, b, i + 1, id) {
      var d: nat :| CreatesAt(r, b, d, i, id);
      assert CreatesAt(r, b, d, i + 1, id);
    }
  }

  lemma CallIsTied(r: Run, b: nat, i: nat, ev: Evidence, ev': Evidence)
    requires Valid(r) && b < i < |r.steps| && Tied(r, b, i, ev) && r.steps[i].Do?
    requires GrowsBy(At(r, i).now, ev, r.steps[i].call, ev')
    ensures Tied(r, b, i + 1, ev')
  {
    StillTied(r, b, i, ev);
    var call := r.steps[i].call;
    if call == ReadClock { assert ReadsAt(r, b, i, i + 1, At(r, i).now); }
    if call.Schedule? { assert PlansAt(r, b, i, i + 1, At(r, i).now, call.next); }
    if call.CreateDevice? && call.outcome == Applied { assert CreatesAt(r, b, i, i + 1, call.id); }
  }

  lemma {:induction false} EvidenceIsTied(r: Run, b: nat, i: nat)
    requires Valid(r) && b < i <= |r.steps| && BeganAt(r, b, i)
    ensures At(r, i).worker.Busy? && Tied(r, b, i, At(r, i).worker.ev)
  {
    BusySince(r, b, i);
    if i == b + 1 {
      FirstOfReconcile(r, b);
    } else {
      EvidenceIsTied(r, b, i - 1);
      WorkerNext(r, i - 1);
      var s := At(r, i - 1);
      if r.steps[i - 1].Do? {
        EvidenceGrows(s, s.worker.ev, r.steps[i - 1].call);
        CallIsTied(r, b, i - 1, s.worker.ev, At(r, i).worker.ev);
      } else {
        StillTied(r, b, i - 1, s.worker.ev);
      }
    }
  }

  lemma StillRead(r: Run, b: nat, i: nat, t: int, next: Option<int>, now: int)
    requires Valid(r) && i < |r.steps| && AskedThenRead(r, b, i, t, next, now)
    ensures AskedThenRead(r, b, i + 1, t, next, now)
  {
    var p: nat, d: nat :| ReadsAt(r, b, d, i, now) && PlansAt(r, b, p, d, t, next);
    assert ReadsAt(r, b, d, i + 1, now) && PlansAt(r, b, p, d, t, next);
  }

  /** A clock reading that a planned sync holds was made after it asked for the next time. */
  lemma {:induction false} ReadAfterPlan(r: Run, b: nat, i: nat)
    requires Valid(r) && b < i <= |r.steps| && BeganAt(r, b, i)
    requires At(r, i).worker.Busy? && At(r, i).worker.ev.planned && At(r, i).worker.ev.clock.Some?
    ensures var ev := At(r, i).worker.ev; AskedThenRead(r, b, i, ev.planAt, ev.next, ev.clock.value)
  {
    if i == b + 1 { FirstOfReconcile(r, b); }
    BusySince(r, b, i - 1);
    WorkerNext(r, i - 1);
    var s, ev := At(r, i - 1), At(r, i).worker.ev;
    if r.steps[i - 1].Do? { EvidenceGrows(s, s.worker.ev, r.steps[i - 1].call); }
    if r.steps[i - 1] == Do(ReadClock) {
      EvidenceIsTied(r, b, i - 1);
      var p: nat :| PlansAt(r, b, p, i - 1, ev.planAt, ev.next);
      assert ReadsAt(r, b, i - 1, i, ev.clock.value) && PlansAt(r, b, p, i - 1, ev.planAt, ev.next);
    } else {
      ReadAfterPlan(r, b, i - 1);
      StillRead(r, b, i - 1, ev.planAt, ev.next, ev.clock.value);
    }
  }

  lemma SavedNext(r: Run, i: nat)
    requires Valid(r) && i < |r.steps| && At(r, i).worker.Busy? && (r.steps[i].Env? || r.steps[i].Do?)
    ensures At(r, i + 1).worker.Busy? && (At(r, i + 1).worker.saved <==> At(r, i).worker.saved || TakesEffect(r, i))
  {
    StepAt(r, i);
  }

  /** A reconcile counts as saved exactly if one of its writes took effect. */
  lemma {:induction false} SavedMeans(r: Run, b: nat, i: nat)
    requires Valid(r) && b < i <= |r.steps| && BeganAt(r, b, i)
    ensures At(r, i).worker.Busy? && (At(r, i).worker.saved <==> Wrote(r, b, i))
  {
    BusySince(r, b, i);
    if i == b + 1 {
      FirstOfReconcile(r, b);
    } else {
      BusySince(r, b, i - 1);
      SavedMeans(r, b, i - 1);
      SavedNext(r, i - 1);
    }
  }
}
