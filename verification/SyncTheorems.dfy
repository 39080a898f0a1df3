/** What every run of the LosantSync protocol guarantees. */
module SyncTheorems {
  import opened Base
  import opened ApiStore
  import opened SyncProtocol
  import opened SyncInvariant
  import opened SyncEvidence
  import opened DeviceNames

  // ---- Status coherence ----

  /** The stored phase and conditions agree at every moment. */
  lemma StatusCoherent(r: Run, i: nat)
    requires Valid(r) && i <= |r.steps| && At(r, i).api.cur.Some?
    ensures Coherent(At(r, i).api.cur.value.status)
  {
    StateAt(r, i);
  }

  /** A later form of one resource, compared with an earlier one: Provisioning is entered from New only and
      New never again, a true GEABootstrapped and a recorded cluster device are never taken back, and no
      node ever disappears from the recorded devices. */
  ghost predicate Evolves(a: Sync, b: Sync) {
    && a.uid == b.uid
    && (b.status.phase == New ==> a.status.phase == New)
    && (b.status.phase == Provisioning ==> a.status.phase == New || a.status.phase == Provisioning)
    && (IsTrue(a.status.conditions, GEABootstrapped) ==> IsTrue(b.status.conditions, GEABootstrapped))
    && (a.status.clusterDeviceId != "" ==> b.status.clusterDeviceId != "")
    && a.status.nodeDevices.Keys <= b.status.nodeDevices.Keys
  }

  lemma WriteEvolves(now: int, w: Worker, st: Status)
    requires w.Busy? && StatusAllowed(w, st) && StageEvidence(now, w.read, w.ev)
    ensures Evolves(w.read, w.read.(status := Stored(st)))
  {
  }

  lemma CallEvolves(s: Sys, call: Call)
    requires Inv(s) && s.worker.Busy? && CallEnabled(s, s.worker, call)
    requires s.api.cur.Some? && Perform(s, s.worker, call).api.cur.Some?
    ensures Evolves(s.api.cur.value, Perform(s, s.worker, call).api.cur.value)
  {
    match call
    case WriteStatus(st, o) =>
      if Current(s.api, s.worker.read) {
        CurrentIsRead(s.api, s.worker);
        WriteEvolves(s.now, s.worker, st);
      }
    case _ =>
  }

  lemma MoveEvolves(s: Sys, move: Move)
    requires Happen(s, move).api.cur.Some?
    ensures s.api.nextUid <= Happen(s, move).api.nextUid
    ensures if s.api.cur.Some? then Evolves(s.api.cur.value, Happen(s, move).api.cur.value)
            else Happen(s, move).api.cur.value.uid == s.api.nextUid
  {
  }

  lemma EvolvesNext(r: Run, i: nat)
    requires Valid(r) && i < |r.steps| && At(r, i + 1).api.cur.Some?
    ensures if At(r, i).api.cur.Some? then Evolves(At(r, i).api.cur.value, At(r, i + 1).api.cur.value)
            else At(r, i + 1).api.cur.value.uid == At(r, i).api.nextUid
  {
    StateAt(r, i);
    StepAt(r, i);
    match r.steps[i]
    case Env(move) => MoveEvolves(At(r, i), move);
    case Do(call) => if At(r, i).api.cur.Some? { CallEvolves(At(r, i), call); }
    case _ =>
  }

  lemma UidsGrow(r: Run, i: nat)
    requires Valid(r) && i < |r.steps|
    ensures At(r, i).api.nextUid <= At(r, i + 1).api.nextUid
  {
    StepAt(r, i);
  }

  lemma {:induction false} UidsGrowOverRun(r: Run, i: nat, j: nat)
    requires Valid(r) && i <= j <= |r.steps|
    ensures At(r, i).api.nextUid <= At(r, j).api.nextUid
    decreases j
  {
    if i < j {
      UidsGrowOverRun(r, i, j - 1);
      UidsGrow(r, j - 1);
    }
  }

  lemma UidInUse(r: Run, i: nat)
    requires Valid(r) && i <= |r.steps| && At(r, i).api.cur.Some?
    ensures At(r, i).api.cur.value.uid < At(r, i).api.nextUid
  {
    StateAt(r, i);
  }

  /** Two sightings of one resource, at any distance, compare as `Evolves` says. */
  lemma {:induction false} ResourceEvolves(r: Run, i: nat, j: nat)
    requires Valid(r) && i <= j <= |r.steps|
    requires At(r, i).api.cur.Some? && At(r, j).api.cur.Some?
    requires At(r, i).api.cur.value.uid == At(r, j).api.cur.value.uid
    ensures Evolves(At(r, i).api.cur.value, At(r, j).api.cur.value)
    decreases j
  {
    if i < j {
      UidInUse(r, i);
      UidsGrowOverRun(r, i, j - 1);
      EvolvesNext(r, j - 1);
      ResourceEvolves(r, i, j - 1);
    }
  }

  // ---- Devices ----

  /** Losant never holds two devices of one name, whatever the cluster is called. */
  lemma OneDevicePerName(r: Run, i: nat, a: string, b: string, cluster: string)
    requires Valid(r) && i <= |r.steps| && a in At(r, i).live && b in At(r, i).live
    ensures a in At(r, i).owner && b in At(r, i).owner
    ensures DeviceName(cluster, At(r, i).owner[a]) == DeviceName(cluster, At(r, i).owner[b]) ==> a == b
  {
    StateAt(r, i);
    NamesAreDistinct(cluster, At(r, i).owner[a], At(r, i).owner[b]);
  }

  /** The recorded ids are those of the devices they are recorded for, hence pairwise distinct. */
  lemma RecordedIdsAreRight(r: Run, i: nat)
    requires Valid(r) && i <= |r.steps| && At(r, i).api.cur.Some?
    ensures var s := At(r, i); var st := s.api.cur.value.status;
      && (st.clusterDeviceId != "" ==> st.clusterDeviceId in s.owner && s.owner[st.clusterDeviceId] == OfCluster)
      && (forall n | n in st.nodeDevices :: st.nodeDevices[n] in s.owner && s.owner[st.nodeDevices[n]] == OfNode(n))
      && (forall n | n in st.nodeDevices :: st.nodeDevices[n] != st.clusterDeviceId)
      && (forall n, m | n in st.nodeDevices && m in st.nodeDevices && st.nodeDevices[n] == st.nodeDevices[m] :: n == m)
  {
    StateAt(r, i);
    var s := At(r, i);
    assert RecordedOk(s.owner, s.api.past[s.api.cur.value.version].status);
  }

  /** The reconcile begun at `b` created the device, with the reply arriving, and up to moment `k` no write
      of it has taken effect. */
  ghost predicate Unrecorded(r: Run, b: nat, k: nat, id: string)
    requires Valid(r) && k <= |r.steps|
  {
    b < k && BeganAt(r, b, k) && Created(r, b, k, id) && !Wrote(r, b, k)
  }

  /** Step `k` is where the device got lost: its create reply was lost, or the reconcile that created it, begun
      at `b`, ended without a write that took effect. */
  ghost predicate LostAt(r: Run, b: nat, k: nat, id: string)
    requires Valid(r) && k < |r.steps|
  {
    || (r.steps[k].Do? && r.steps[k].call.CreateDevice? && r.steps[k].call.id == id
        && r.steps[k].call.outcome == LostReply)
    || (r.steps[k].End? && Unrecorded(r, b, k, id))
  }

  lemma UnsavedMeans(r: Run, k: nat, id: string) returns (b: nat)
    requires Valid(r) && k <= |r.steps| && At(r, k).worker.Busy? && !At(r, k).worker.saved
    requires id in At(r, k).worker.ev.created
    ensures Unrecorded(r, b, k, id)
  {
    b := ReconcileStart(r, k);
    EvidenceIsTied(r, b, k);
    SavedMeans(r, b, k);
  }

  lemma LostStep(s: Sys, step: Step, id: string)
    requires Enabled(s, step) && id in Apply(s, step).lost && id !in s.lost
    ensures || (step.Do? && step.call.CreateDevice? && step.call.id == id && step.call.outcome == LostReply)
            || (step.End? && s.worker.Busy? && !s.worker.saved && id in s.worker.ev.created)
  {
  }

  /** What counts as lost was lost at some step. */
  lemma {:induction false} LostMeans(r: Run, i: nat, id: string) returns (b: nat, k: nat)
    requires Valid(r) && i <= |r.steps| && id in At(r, i).lost
    ensures k < i && LostAt(r, b, k, id)
  {
    StepAt(r, i - 1);
    if id in At(r, i - 1).lost {
      b, k := LostMeans(r, i - 1, id);
    } else {
      LostStep(At(r, i - 1), r.steps[i - 1], id);
      b, k := 0, i - 1;
      if r.steps[k].End? { b := UnsavedMeans(r, k, id); }
    }
  }

  /** Every live device is recorded in the stored status, or its create reply or the status write of the
      reconcile that created it was lost, or that reconcile is still in progress: all told from the steps. */
  lemma NoDeviceForgotten(r: Run, i: nat, id: string) returns (b: nat, k: nat)
    requires Valid(r) && i <= |r.steps| && id in At(r, i).live
    ensures || (At(r, i).api.cur.Some? && Records(At(r, i).api.cur.value.status, id))
            || (k < i && LostAt(r, b, k, id))
            || Unrecorded(r, b, i, id)
  {
    StateAt(r, i);
    var s := At(r, i);
    assert Kept(s.api.cur, s.lost, s.worker, id);
    b, k := 0, i;
    if id in s.lost {
      b, k := LostMeans(r, i, id);
    } else if s.worker.Busy? && !s.worker.saved && id in s.worker.ev.created {
      b := UnsavedMeans(r, i, id);
    }
  }

  // ---- Deletion ----

  lemma CallKeepsAbsence(s: Sys, call: Call, id: string)
    requires s.worker.Busy? && CallEnabled(s, s.worker, call) && id in s.owner && id !in s.live
    ensures id in Perform(s, s.worker, call).owner && id !in Perform(s, s.worker, call).live
  {
  }

  lemma AbsenceNext(r: Run, i: nat, id: string)
    requires Valid(r) && i < |r.steps| && id in At(r, i).owner && id !in At(r, i).live
    ensures id in At(r, i + 1).owner && id !in At(r, i + 1).live
  {
    StepAt(r, i);
    if r.steps[i].Do? { CallKeepsAbsence(At(r, i), r.steps[i].call, id); }
  }

  lemma {:induction false} GoneForGood(r: Run, i: nat, j: nat, id: string)
    requires Valid(r) && i <= j <= |r.steps| && id in At(r, i).owner && id !in At(r, i).live
    ensures id in At(r, j).owner && id !in At(r, j).live
    decreases j
  {
    if i < j {
      GoneForGood(r, i, j - 1, id);
      AbsenceNext(r, j - 1, id);
    }
  }

  lemma RemovalMeansDeleted(s: Sys, step: Step, id: string)
    requires Inv(s) && Enabled(s, step) && s.api.cur.Some? && s.api.cur.value.finalizer && Apply(s, step).api.cur.None?
    requires Records(s.api.cur.value.status, id)
    ensures s.api.cur.value.deleting && id in s.owner && id !in s.live
  {
    match step
    case Do(call) =>
      if Current(s.api, s.worker.read) { CurrentIsRead(s.api, s.worker); }
    case _ =>
  }

  /** When a resource that held the finalizer leaves the API server, every device it records is absent
      from Losant from then on, however many deletions failed or were retried before. */
  lemma FinalizerGoneMeansDeleted(r: Run, i: nat, j: nat, id: string)
    requires Valid(r) && i < j <= |r.steps|
    requires At(r, i).api.cur.Some? && At(r, i).api.cur.value.finalizer && At(r, i + 1).api.cur.None?
    requires Records(At(r, i).api.cur.value.status, id)
    ensures At(r, i).api.cur.value.deleting && id !in At(r, j).live
  {
    StateAt(r, i);
    StepAt(r, i);
    RemovalMeansDeleted(At(r, i), r.steps[i], id);
    GoneForGood(r, i, j, id);
  }

  // ---- Spacing ----

  /** Step `i` stores a successful sync. */
  ghost predicate Succeeds(r: Run, i: nat)
    requires Valid(r) && i < |r.steps|
  {
    && r.steps[i].Do? && r.steps[i].call.WriteStatus? && r.steps[i].call.status.phase == Active
    && r.steps[i].call.outcome != Rejected
    && At(r, i).worker.Busy? && Current(At(r, i).api, At(r, i).worker.read)
  }

  lemma SuccessNext(r: Run, i: nat)
    requires Valid(r) && i < |r.steps|
    ensures At(r, i + 1).last ==
      if Succeeds(r, i) then
        Success(At(r, i).worker.ev.planAt, At(r, i).worker.read.spec.plan, At(r, i).worker.ev.next)
      else At(r, i).last
  {
    StepAt(r, i);
  }

  lemma {:induction false} LastStays(r: Run, i: nat, j: nat)
    requires Valid(r) && i <= j <= |r.steps| && (forall m: nat | i <= m < j :: !Succeeds(r, m))
    ensures At(r, j).last == At(r, i).last
    decreases j
  {
    if i < j {
      LastStays(r, i, j - 1);
      SuccessNext(r, j - 1);
    }
  }

  lemma SuccessEvidence(r: Run, i: nat)
    requires Valid(r) && i < |r.steps| && Succeeds(r, i)
    ensures var w := At(r, i).worker;
      && At(r, i).api.cur == Some(w.read) && Inv(At(r, i)) && w.ev.planned && w.ev.next.Some?
      && (w.read.status.phase == Active ==>
            && w.ev.gate.Some? && w.read.status.next.Some?
            && w.read.status.next.value <= w.ev.gate.value <= w.ev.planAt)
  {
    StateAt(r, i);
    StepAt(r, i);
    CurrentIsRead(At(r, i).api, At(r, i).worker);
  }

  /** The reconcile that step `i` belongs to began at `b` and asked for the next time at step `p`. */
  ghost predicate Planned(r: Run, b: nat, p: nat, i: nat)
    requires Valid(r) && i < |r.steps|
  {
    && b < p < i && BeganAt(r, b, i) && r.steps[p].Do? && r.steps[p].call.Schedule? && r.steps[p].call.next.Some?
  }

  lemma SuccessWasPlanned(r: Run, i: nat) returns (b: nat, p: nat)
    requires Valid(r) && i < |r.steps| && Succeeds(r, i)
    ensures Planned(r, b, p, i) && r.steps[b].read == At(r, i).worker.read
    ensures At(r, p).now == At(r, i).worker.ev.planAt && r.steps[p].call.next == At(r, i).worker.ev.next
  {
    SuccessEvidence(r, i);
    b := ReconcileStart(r, i);
    BusySince(r, b, i);
    EvidenceIsTied(r, b, i);
    var ev := At(r, i).worker.ev;
    p :| PlansAt(r, b, p, i, ev.planAt, ev.next);
  }

  lemma GateWasRead(r: Run, b: nat, j: nat) returns (d: nat)
    requires Valid(r) && b < j < |r.steps| && BeganAt(r, b, j) && At(r, j).worker.Busy? && At(r, j).worker.ev.gate.Some?
    ensures ReadsAt(r, b, d, j, At(r, j).worker.ev.gate.value)
  {
    EvidenceIsTied(r, b, j);
    d :| ReadsAt(r, b, d, j, At(r, j).worker.ev.gate.value);
  }

  /** The success stored at step `i` was planned at step `p` of the reconcile begun at `a`. That of step `j`
      read the resource at `b`, the clock at `d` and planned at `q`. The stored next time that `b` read is what
      step `p` was told, and the clock had reached it at `d`. Under an interval plan that is the interval after
      `p`, so `d`, and so `q`, is more than the interval less one second after `p`; under a cron plan it is a tick
      after `p`, stored as it is. */
  ghost predicate Spaced(r: Run, i: nat, a: nat, p: nat, j: nat, b: nat, d: nat, q: nat)
    requires Valid(r) && i < j < |r.steps|
  {
    && Planned(r, a, p, i) && Planned(r, b, q, j) && b < d < j && r.steps[d] == Do(ReadClock)
    && r.steps[b].read.status.next == FloorStamp(r.steps[p].call.next)
    && r.steps[b].read.status.next.value <= At(r, d).now <= At(r, q).now
    && match r.steps[a].read.spec.plan
       case Unparsable => false
       case Every(span) =>
         r.steps[p].call.next == Some(At(r, p).now + span) && At(r, d).now > At(r, p).now + span - SECOND
       case Cron => r.steps[b].read.status.next == r.steps[p].call.next && r.steps[p].call.next.value > At(r, p).now
  }

  /** Two consecutive successes of a run, the second read while the resource was still Active, are spaced,
      however many restarts and early reconciles lie between. */
  lemma ConsecutiveSuccesses(r: Run, i: nat, j: nat) returns (a: nat, p: nat, b: nat, d: nat, q: nat)
    requires Valid(r) && i < j < |r.steps| && Succeeds(r, i) && Succeeds(r, j)
    requires forall m: nat | i < m < j :: !Succeeds(r, m)
    requires At(r, j).worker.read.status.phase == Active
    ensures Spaced(r, i, a, p, j, b, d, q)
  {
    a, p := SuccessWasPlanned(r, i);
    b, q := SuccessWasPlanned(r, j);
    SuccessEvidence(r, j);
    d := GateWasRead(r, b, j);
    SuccessNext(r, i);
    LastStays(r, i + 1, j);
    assert NextOk(At(r, j).api.cur.value.status, At(r, j).last);
  }

  /** Other calls leave the status alone. */
  lemma StatusStays(s: Sys, call: Call)
    requires s.worker.Busy? && !call.WriteStatus? && Perform(s, s.worker, call).api.cur.Some?
    ensures var cur := Perform(s, s.worker, call).api.cur.value;
      s.api.cur.Some? && cur.uid == s.api.cur.value.uid && cur.status == s.api.cur.value.status
  {
  }

  lemma ActiveByWrite(s: Sys, st: Status, o: Outcome)
    requires Inv(s) && s.worker.Busy? && DoWriteStatus(s, s.worker, st, o).api.cur.Some?
    requires DoWriteStatus(s, s.worker, st, o).api.cur.value.status.phase == Active
    ensures var cur := DoWriteStatus(s, s.worker, st, o).api.cur.value;
      && s.api.cur.Some? && s.api.cur.value.uid == cur.uid
      && if o == Rejected || !Current(s.api, s.worker.read) then s.api.cur.value == cur
         else st.phase == Active && s.worker.read.uid == cur.uid
  {
    if Current(s.api, s.worker.read) { CurrentIsRead(s.api, s.worker); }
  }

  lemma ActiveMove(s: Sys, move: Move)
    requires Happen(s, move).api.cur.Some? && Happen(s, move).api.cur.value.status.phase == Active
    ensures s.api.cur.Some? && s.api.cur.value.status.phase == Active
    ensures s.api.cur.value.uid == Happen(s, move).api.cur.value.uid
  {
  }

  /** A step that leaves an Active resource behind found it so or stores a success of it. */
  lemma ActiveNext(r: Run, i: nat)
    requires Valid(r) && i < |r.steps|
    requires At(r, i + 1).api.cur.Some? && At(r, i + 1).api.cur.value.status.phase == Active
    ensures At(r, i).api.cur.Some? && At(r, i).api.cur.value.uid == At(r, i + 1).api.cur.value.uid
    ensures Succeeds(r, i) ==> At(r, i).worker.read.uid == At(r, i + 1).api.cur.value.uid
    ensures !Succeeds(r, i) ==> At(r, i).api.cur.value.status.phase == Active
  {
    StateAt(r, i);
    StepAt(r, i);
    var s := At(r, i);
    match r.steps[i]
    case Env(move) => ActiveMove(s, move);
    case Do(call) =>
      if call.WriteStatus? {
        ActiveByWrite(s, call.status, call.outcome);
      } else {
        StatusStays(s, call);
      }
    case _ =>
  }

  /** An Active resource goes back to a success of its own, the latest of the run. */
  lemma {:induction false} ActiveOrigin(r: Run, j: nat) returns (i: nat)
    requires Valid(r) && j <= |r.steps| && At(r, j).api.cur.Some? && At(r, j).api.cur.value.status.phase == Active
    ensures i < j && Succeeds(r, i) && At(r, i).worker.read.uid == At(r, j).api.cur.value.uid
    ensures forall m: nat | i < m < j :: !Succeeds(r, m)
  {
    ActiveNext(r, j - 1);
    if Succeeds(r, j - 1) {
      i := j - 1;
    } else {
      i := ActiveOrigin(r, j - 1);
    }
  }

  /** A success stored for a resource read as Active is spaced from the one before, which is the same
      resource's. */
  lemma SuccessesAreSpaced(r: Run, j: nat) returns (i: nat, a: nat, p: nat, b: nat, d: nat, q: nat)
    requires Valid(r) && j < |r.steps| && Succeeds(r, j) && At(r, j).worker.read.status.phase == Active
    ensures i < j && Succeeds(r, i) && (forall m: nat | i < m < j :: !Succeeds(r, m))
    ensures At(r, i).worker.read.uid == At(r, j).worker.read.uid && Spaced(r, i, a, p, j, b, d, q)
  {
    SuccessEvidence(r, j);
    i := ActiveOrigin(r, j);
    a, p, b, d, q := ConsecutiveSuccesses(r, i, j);
  }

  lemma ActiveWrite(r: Run, i: nat)
    requires Valid(r) && i < |r.steps| && Succeeds(r, i)
    ensures var w, st := At(r, i).worker, r.steps[i].call.status;
      w.ev.planned && w.ev.clock.Some? && st.lastSync == w.ev.clock && st.next == w.ev.next && st.next.Some?
  {
    StateAt(r, i);
    StepAt(r, i);
  }

  lemma EffectiveWrite(r: Run, i: nat)
    requires Valid(r) && i < |r.steps| && Succeeds(r, i)
    ensures At(r, i + 1).api.cur.Some? && At(r, i + 1).api.cur.value.status == Stored(r.steps[i].call.status)
  {
    StepAt(r, i);
  }

  lemma {:induction false} ClockGrows(r: Run, i: nat, j: nat)
    requires Valid(r) && i <= j <= |r.steps|
    ensures At(r, i).now <= At(r, j).now
    decreases j
  {
    if i < j {
      ClockGrows(r, i, j - 1);
      StepAt(r, j - 1);
    }
  }

  /** A successful sync writes as its time a clock reading `d` that it made after it had asked for the next time
      at `p`, and as the next time the answer it got there. So its time is never later than the write. It is
      stored in whole seconds. */
  lemma LastSyncWasRead(r: Run, i: nat) returns (b: nat, p: nat, d: nat)
    requires Valid(r) && i < |r.steps| && Succeeds(r, i)
    ensures Planned(r, b, p, i) && p < d < i && r.steps[d] == Do(ReadClock)
    ensures r.steps[i].call.status.lastSync == Some(At(r, d).now) && At(r, p).now <= At(r, d).now <= At(r, i).now
    ensures r.steps[i].call.status.next == r.steps[p].call.next
    ensures At(r, i + 1).api.cur.Some?
    ensures At(r, i + 1).api.cur.value.status.lastSync == Some(FloorSecond(At(r, d).now))
  {
    ActiveWrite(r, i);
    EffectiveWrite(r, i);
    b := ReconcileStart(r, i);
    ReadAfterPlan(r, b, i);
    var ev := At(r, i).worker.ev;
    p, d :| ReadsAt(r, b, d, i, ev.clock.value) && PlansAt(r, b, p, d, ev.planAt, ev.next);
    ClockGrows(r, p, d);
    ClockGrows(r, d, i);
  }

  /** The stored time of the last sync is never in the future. */
  lemma LastSyncIsPast(r: Run, i: nat)
    requires Valid(r) && i <= |r.steps| && At(r, i).api.cur.Some? && At(r, i).api.cur.value.status.lastSync.Some?
    ensures At(r, i).api.cur.value.status.lastSync.value <= At(r, i).now
  {
    StateAt(r, i);
  }

  /** Until the clock has reached the stored next time, a reconcile of a live, unsuspended, Active resource
      makes no call at all: nothing remote is touched and no status is written. */
  lemma EarlyReconcileIsQuiet(r: Run, k: nat)
    requires Valid(r) && k < |r.steps| && r.steps[k].Do? && !r.steps[k].call.ReadClock?
    requires At(r, k).worker.Busy? && Live(At(r, k).worker) && !At(r, k).worker.read.spec.suspend
    requires At(r, k).worker.read.status.phase == Active && At(r, k).worker.read.status.next.Some?
    ensures At(r, k).now >= At(r, k).worker.read.status.next.value
  {
    StateAt(r, k);
    StepAt(r, k);
  }
}
