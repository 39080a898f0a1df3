/** When the cleanup of a session that nobody deletes is finished, and when it never is. */
module RancherCleanup {
  import opened Base
  import opened ApiStore
  import opened RancherProtocol
  import opened RancherInvariant
  import opened RancherTheorems

  // ---- What Disconnected means ----

  /** `call` takes effect and records the cleanup of the session as finished. */
  ghost predicate Finishes(s: Sys, call: Call) {
    && call.WriteStatus? && call.status.phase == Disconnected && call.outcome != Rejected
    && s.worker.Busy? && Current(s.api, s.worker.base) && s.api.cur.value.uid == s.worker.base.uid
  }

  lemma FinishWrite(w: Worker, st: Status)
    requires w.Busy? && StatusAllowed(w, st) && st.phase == Disconnected
    ensures CleanupStage(w) && RecordGone(w) && w.ev.nsDeleted && st == w.base.status.(phase := Disconnected)
  {
  }

  lemma FinishedByWrite(s: Sys, st: Status, o: Outcome)
    requires Inv(s) && s.worker.Busy? && StatusAllowed(s.worker, st)
    requires var s' := DoWriteStatus(s, s.worker, st, o);
      s'.api.cur.Some? && s'.api.cur.value.status.phase == Disconnected
    ensures var s' := DoWriteStatus(s, s.worker, st, o);
      && s.api.cur.Some? && s.api.cur.value.uid == s'.api.cur.value.uid
      && s'.api.cur.value.status.clusterId == s.api.cur.value.status.clusterId
      && (s.api.cur.value.status.phase == Disconnected || Finishes(s, WriteStatus(st, o)))
  {
    if o != Rejected && Current(s.api, s.worker.base) {
      CurrentIsBase(s.api, s.worker);
      if st.phase == Disconnected { FinishWrite(s.worker, st); }
    }
  }

  /** A step that leaves a Disconnected session behind found it so or is the write that finished its cleanup. */
  lemma FinishedStep(s: Sys, step: Step)
    requires Inv(s) && Enabled(s, step)
    requires Apply(s, step).api.cur.Some? && Apply(s, step).api.cur.value.status.phase == Disconnected
    ensures s.api.cur.Some? && s.api.cur.value.uid == Apply(s, step).api.cur.value.uid
    ensures Apply(s, step).api.cur.value.status.clusterId == s.api.cur.value.status.clusterId
    ensures s.api.cur.value.status.phase == Disconnected || (step.Do? && Finishes(s, step.call))
  {
    if step.Do? {
      if step.call.WriteStatus? {
        FinishedByWrite(s, step.call.status, step.call.outcome);
      } else {
        OtherCalls(s, step.call);
      }
    }
  }

  lemma FinishedNext(r: Run, i: nat)
    requires Valid(r) && i < |r.steps|
    requires At(r, i + 1).api.cur.Some? && At(r, i + 1).api.cur.value.status.phase == Disconnected
    ensures At(r, i).api.cur.Some? && At(r, i).api.cur.value.uid == At(r, i + 1).api.cur.value.uid
    ensures At(r, i + 1).api.cur.value.status.clusterId == At(r, i).api.cur.value.status.clusterId
    ensures At(r, i).api.cur.value.status.phase == Disconnected
      || (r.steps[i].Do? && Finishes(At(r, i), r.steps[i].call))
  {
    StateAt(r, i);
    StepAt(r, i);
    FinishedStep(At(r, i), r.steps[i]);
  }

  lemma {:induction false} FinishOrigin(r: Run, i: nat) returns (k: nat)
    requires Valid(r) && i <= |r.steps|
    requires At(r, i).api.cur.Some? && At(r, i).api.cur.value.status.phase == Disconnected
    ensures k < i && r.steps[k].Do? && Finishes(At(r, k), r.steps[k].call)
    ensures At(r, k).api.cur.value.uid == At(r, i).api.cur.value.uid
    ensures At(r, k).api.cur.value.status.clusterId == At(r, i).api.cur.value.status.clusterId
  {
    FinishedNext(r, i - 1);
    if r.steps[i - 1].Do? && Finishes(At(r, i - 1), r.steps[i - 1].call) {
      k := i - 1;
    } else {
      k := FinishOrigin(r, i - 1);
    }
  }

  lemma FinishEvidence(r: Run, k: nat)
    requires Valid(r) && k < |r.steps| && r.steps[k].Do? && Finishes(At(r, k), r.steps[k].call)
    ensures var w := At(r, k).worker;
      && w.ev.nsDeleted && At(r, k).api.cur == Some(w.base) && w.base.status.phase == Disconnecting
      && (w.base.status.clusterId != "" ==>
            && w.ev.deletedId == Some(w.base.status.clusterId)
            && w.base.status.clusterId in At(r, k).used && w.base.status.clusterId !in At(r, k).records)
  {
    StateAt(r, k);
    StepAt(r, k);
    CurrentIsBase(At(r, k).api, At(r, k).worker);
    FinishWrite(At(r, k).worker, r.steps[k].call.status);
  }

  /** A session stored as Disconnected goes back to one write of the same session; in the reconcile that
      made it, begun at step `b`, deletion of the namespace went through and the deletion of the recorded
      cluster, if there was one, was confirmed; and that cluster is absent from Rancher ever after. */
  lemma DisconnectedMeansCleaned(r: Run, i: nat, j: nat) returns (k: nat, b: nat)
    requires Valid(r) && i <= j <= |r.steps|
    requires At(r, i).api.cur.Some? && At(r, i).api.cur.value.status.phase == Disconnected
    ensures k < i && r.steps[k].Do? && Finishes(At(r, k), r.steps[k].call)
    ensures At(r, k).api.cur.value.uid == At(r, i).api.cur.value.uid
    ensures b < k && BeganAt(r, b, k) && Made(r, b, k, DeleteNamespace(true))
    ensures var id := At(r, i).api.cur.value.status.clusterId;
      id == "" || (ConfirmedGone(r, b, k, id) && id !in At(r, j).records)
  {
    k := FinishOrigin(r, i);
    FinishEvidence(r, k);
    b := EvidenceIsReal(r, k);
    var id := At(r, i).api.cur.value.status.clusterId;
    if id != "" { GoneForGood(r, k, j, id); }
  }

  // ---- A live session that failed to clean up is never picked up again ----

  /** Session `uid`, unless deleted, sits in Disconnecting or Failed with no cleanup under way. */
  predicate Stranded(s: Sys, uid: nat) {
    s.api.cur.Some? && s.api.cur.value.uid == uid && !s.api.cur.value.deleting ==>
      && (s.api.cur.value.status.phase == Disconnecting || s.api.cur.value.status.phase == Failed)
      && (s.worker.Busy? && s.worker.claimed && !s.worker.halted ==> s.worker.base.status.phase == Failed)
  }

  lemma StrandedWrite(w: Worker, st: Status)
    requires w.Busy? && StatusAllowed(w, st) && !w.base.deleting
    requires w.base.status.phase == Disconnecting || w.base.status.phase == Failed
    requires w.claimed ==> w.base.status.phase == Failed
    ensures st.phase == Failed
  {
  }

  lemma StrandedByWrite(s: Sys, st: Status, o: Outcome, uid: nat)
    requires Inv(s) && s.worker.Busy? && !s.worker.halted && StatusAllowed(s.worker, st) && Stranded(s, uid)
    ensures Stranded(DoWriteStatus(s, s.worker, st, o), uid)
  {
    if o != Rejected && Current(s.api, s.worker.base) {
      CurrentIsBase(s.api, s.worker);
      if s.api.cur.value.uid == uid && !s.api.cur.value.deleting { StrandedWrite(s.worker, st); }
    }
  }

  lemma StrandedCall(s: Sys, call: Call, uid: nat)
    requires Inv(s) && s.worker.Busy? && !s.worker.halted && CallEnabled(s, s.worker, call) && Stranded(s, uid)
    ensures Stranded(Perform(s, s.worker, call), uid)
  {
    match call
    case WriteStatus(st, o) => StrandedByWrite(s, st, o, uid);
    case _ => OtherCalls(s, call);
  }

  lemma StrandedMove(s: Sys, move: Move, uid: nat)
    requires uid < s.api.nextUid && Stranded(s, uid)
    ensures Stranded(Happen(s, move), uid)
  {
  }

  lemma StrandedStep(s: Sys, step: Step, uid: nat)
    requires Inv(s) && Enabled(s, step) && uid < s.api.nextUid && Stranded(s, uid)
    ensures Stranded(Apply(s, step), uid)
  {
    match step
    case Do(call) => StrandedCall(s, call, uid);
    case Env(move) => StrandedMove(s, move, uid);
    case _ =>
  }

  lemma StrandedNext(r: Run, j: nat, uid: nat)
    requires Valid(r) && j < |r.steps| && uid < At(r, j).api.nextUid && Stranded(At(r, j), uid)
    ensures Stranded(At(r, j + 1), uid)
  {
    StateAt(r, j);
    StepAt(r, j);
    StrandedStep(At(r, j), r.steps[j], uid);
  }

  lemma {:induction false} StrandedForGood(r: Run, i: nat, j: nat, uid: nat)
    requires Valid(r) && i <= j <= |r.steps| && uid < At(r, i).api.nextUid && Stranded(At(r, i), uid)
    ensures Stranded(At(r, j), uid)
    decreases j
  {
    if i < j {
      StrandedForGood(r, i, j - 1, uid);
      UidsGrowOverRun(r, i, j - 1);
      StrandedNext(r, j - 1, uid);
    }
  }

  /** Once no reconcile is in progress and a session is stored as Disconnecting, then for as long as
      nobody deletes it, it stays Disconnecting or becomes Failed, and the controller makes no further
      attempt to delete its record: neither TTL expiry nor retries finish the cleanup. */
  lemma FailedCleanupIsNotResumed(r: Run, i: nat, j: nat)
    requires Valid(r) && i <= j <= |r.steps| && At(r, i).worker.Idle?
    requires At(r, i).api.cur.Some? && At(r, i).api.cur.value.status.phase == Disconnecting
    requires At(r, j).api.cur.Some? && At(r, j).api.cur.value.uid == At(r, i).api.cur.value.uid
    requires !At(r, j).api.cur.value.deleting
    ensures At(r, j).api.cur.value.status.phase == Disconnecting || At(r, j).api.cur.value.status.phase == Failed
    ensures j < |r.steps| ==> !(r.steps[j].Do? && r.steps[j].call.DeleteCluster?)
  {
    StateAt(r, i);
    StateAt(r, j);
    StrandedForGood(r, i, j, At(r, i).api.cur.value.uid);
    if j < |r.steps| {
      StepAt(r, j);
    }
  }

  // ---- Exactly when a cleanup that is under way is finished ----

  /** At moment `j` the session of moment `i` is stored as Disconnected and still nobody has deleted it. */
  ghost predicate StoredClean(r: Run, i: nat, j: nat)
    requires Valid(r) && i <= |r.steps|
  {
    && i <= j <= |r.steps| && At(r, i).api.cur.Some? && At(r, j).api.cur.Some?
    && At(r, j).api.cur.value.uid == At(r, i).api.cur.value.uid
    && !At(r, j).api.cur.value.deleting && At(r, j).api.cur.value.status.phase == Disconnected
  }

  /** Step `k` finishes the cleanup of that session, in the reconcile that is in progress at moment `i`. */
  ghost predicate FinishedInPlace(r: Run, i: nat, k: nat)
    requires Valid(r) && i <= |r.steps|
  {
    && i <= k < |r.steps| && At(r, i).worker.Busy? && At(r, i).worker.claimed
    && (forall m | i <= m < k :: r.steps[m].Env? || r.steps[m].Do?)
    && r.steps[k].Do? && Finishes(At(r, k), r.steps[k].call)
    && At(r, i).api.cur.Some? && At(r, k).api.cur.value.uid == At(r, i).api.cur.value.uid
    && !At(r, k).api.cur.value.deleting
  }

  /** A session that is not there any more does not come back. */
  lemma {:induction false} NoReturn(r: Run, i: nat, j: nat, uid: nat)
    requires Valid(r) && i <= j <= |r.steps| && uid < At(r, i).api.nextUid
    requires At(r, i).api.cur.Some? ==> At(r, i).api.cur.value.uid != uid
    ensures At(r, j).api.cur.Some? ==> At(r, j).api.cur.value.uid != uid
    decreases j
  {
    if i < j && At(r, j).api.cur.Some? {
      NoReturn(r, i, j - 1, uid);
      UidsGrowOverRun(r, i, j - 1);
      SessionEvolvesNext(r, j - 1);
    }
  }

  /** Between two sightings the session is there, undeleted, and no phase behind or ahead of theirs. */
  lemma Between(r: Run, i: nat, j: nat)
    requires Valid(r) && i < |r.steps| && StoredClean(r, i, j) && i < j
    requires !At(r, i).api.cur.value.deleting && At(r, i).api.cur.value.status.phase == Disconnecting
    ensures StoredClean(r, i + 1, j) && At(r, i + 1).api.cur.value.uid == At(r, i).api.cur.value.uid
    ensures !At(r, i + 1).api.cur.value.deleting
    ensures || At(r, i + 1).api.cur.value.status.phase == Disconnecting
            || (r.steps[i].Do? && Finishes(At(r, i), r.steps[i].call))
  {
    var uid := At(r, i).api.cur.value.uid;
    UidInUse(r, i);
    UidsGrow(r, i);
    if At(r, i + 1).api.cur.None? || At(r, i + 1).api.cur.value.uid != uid {
      NoReturn(r, i + 1, j, uid);
    }
    SessionEvolves(r, i, i + 1);
    SessionEvolves(r, i + 1, j);
    if At(r, i + 1).api.cur.value.status.phase == Disconnected { FinishedNext(r, i); }
  }

  lemma InProgress(r: Run, i: nat)
    requires Valid(r) && i < |r.steps| && At(r, i).worker.Busy? && At(r, i + 1).worker.Busy?
    ensures r.steps[i].Env? || r.steps[i].Do?
  {
    StepAt(r, i);
  }

  lemma {:induction false} FindFinish(r: Run, i: nat, j: nat) returns (k: nat)
    requires Valid(r) && i <= |r.steps| && StoredClean(r, i, j)
    requires !At(r, i).api.cur.value.deleting && At(r, i).api.cur.value.status.phase == Disconnecting
    ensures FinishedInPlace(r, i, k)
    decreases j - i
  {
    var uid := At(r, i).api.cur.value.uid;
    UidInUse(r, i);
    if Stranded(At(r, i), uid) { StrandedForGood(r, i, j, uid); }
    assert At(r, i).worker.Busy? && At(r, i).worker.claimed;
    if r.steps[i].Do? && Finishes(At(r, i), r.steps[i].call) {
      k := i;
    } else {
      Between(r, i, j);
      k := FindFinish(r, i + 1, j);
      InProgress(r, i);
    }
  }

  lemma FinishIsStored(r: Run, i: nat, k: nat)
    requires Valid(r) && i <= |r.steps| && FinishedInPlace(r, i, k)
    ensures StoredClean(r, i, k + 1)
  {
    FinishEvidence(r, k);
    StepAt(r, k);
  }

  /** A session stored as Disconnecting that nobody deletes is ever stored as Disconnected exactly when the
      Disconnected write of the reconcile that is cleaning it up takes effect. */
  lemma CleanedUpExactlyInPlace(r: Run, i: nat)
    requires Valid(r) && i <= |r.steps| && At(r, i).api.cur.Some?
    requires !At(r, i).api.cur.value.deleting && At(r, i).api.cur.value.status.phase == Disconnecting
    ensures (exists j: nat :: StoredClean(r, i, j)) <==> (exists k: nat :: FinishedInPlace(r, i, k))
  {
    if j: nat :| StoredClean(r, i, j) {
      var k := FindFinish(r, i, j);
    }
    if k: nat :| FinishedInPlace(r, i, k) {
      FinishIsStored(r, i, k);
    }
  }
}
