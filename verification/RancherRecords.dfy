/** What becomes of the records in Rancher: none is lost sight of without a reason. */
module RancherRecords {
  import opened Base
  import opened ApiStore
  import opened RancherProtocol
  import opened RancherInvariant
  import opened RancherTheorems

  /** The stored session or the reconcile in progress knows the record. */
  predicate Tracked(s: Sys, id: string) {
    || (s.api.cur.Some? && s.api.cur.value.status.clusterId == id)
    || (s.worker.Busy? && s.worker.ev.obtained == id)
  }

  /** A step after which record `id` is not tracked any more: its create reply is lost, the reconcile that
      obtained it ends without a stored status that names it, a status is stored that names another one
      after the display name was changed, or its session leaves although no client could be built. */
  predicate Forgets(s: Sys, step: Step, id: string) {
    match step
    case End => s.worker.Busy? && s.worker.ev.obtained == id
      && !(s.api.cur.Some? && s.api.cur.value.status.clusterId == id)
    case Do(CreateCluster(made, o)) => made == id && o == LostReply
    case Do(WriteStatus(st, o)) =>
      && s.worker.Busy? && o != Rejected && Current(s.api, s.worker.base)
      && s.api.cur.value.status.clusterId == id != st.clusterId
      && id in s.records && s.records[id] != DisplayName(s.key, s.worker.base)
    case Do(DropFinalizer(o)) =>
      && s.worker.Busy? && o != Rejected && Current(s.api, s.worker.base) && s.api.cur.value.status.clusterId == id
      && s.worker.ev.noClient
    case _ => false
  }

  lemma WrittenId(w: Worker, st: Status)
    requires w.Busy? && StatusAllowed(w, st)
    ensures st.clusterId == w.base.status.clusterId || st.clusterId == w.ev.obtained != ""
  {
  }

  /** A status stored over one that names `id` names it too, or the display name was changed. */
  lemma StoredTracks(s: Sys, st: Status, id: string)
    requires Inv(s) && s.worker.Busy? && StatusAllowed(s.worker, st) && id in s.records
    requires s.api.cur == Some(s.worker.base) && s.worker.base.status.clusterId == id != s.worker.ev.obtained
    ensures st.clusterId == id || s.records[id] != DisplayName(s.key, s.worker.base)
  {
    WrittenId(s.worker, st);
  }

  /** What a status write leaves of the ids that make a record tracked. */
  lemma WriteLeaves(s: Sys, st: Status, o: Outcome)
    requires s.worker.Busy?
    ensures var s' := DoWriteStatus(s, s.worker, st, o);
      && s'.worker.Busy? && s'.worker.ev.obtained == s.worker.ev.obtained
      && if o == Rejected || !Current(s.api, s.worker.base) then s'.api.cur == s.api.cur
         else s'.api.cur.Some? && s'.api.cur.value.status.clusterId == st.clusterId
  {
  }

  lemma WriteTracks(s: Sys, st: Status, o: Outcome, id: string)
    requires Inv(s) && s.worker.Busy? && StatusAllowed(s.worker, st) && id in s.records && Tracked(s, id)
    ensures Tracked(DoWriteStatus(s, s.worker, st, o), id) || Forgets(s, Do(WriteStatus(st, o)), id)
  {
    WriteLeaves(s, st, o);
    if o != Rejected && Current(s.api, s.worker.base) && s.worker.ev.obtained != id {
      CurrentIsBase(s.api, s.worker);
      StoredTracks(s, st, id);
    }
  }

  lemma DropTracks(s: Sys, o: Outcome, id: string)
    requires Inv(s) && s.worker.Busy? && MayFinish(s.worker) && id in s.records && Tracked(s, id)
    ensures Tracked(DoDropFinalizer(s, s.worker, o), id) || Forgets(s, Do(DropFinalizer(o)), id)
  {
    if o != Rejected && Current(s.api, s.worker.base) { CurrentIsBase(s.api, s.worker); }
  }

  /** The other calls keep what was obtained, and the stored status. */
  lemma QuietTracks(s: Sys, call: Call, id: string)
    requires Inv(s) && s.worker.Busy? && CallEnabled(s, s.worker, call) && id != "" && Tracked(s, id)
    requires !call.WriteStatus? && !call.DropFinalizer?
    ensures Tracked(Perform(s, s.worker, call), id)
  {
  }

  lemma CallTracks(s: Sys, call: Call, id: string)
    requires Inv(s) && s.worker.Busy? && CallEnabled(s, s.worker, call) && id in s.records && Tracked(s, id)
    ensures Tracked(Perform(s, s.worker, call), id) || Forgets(s, Do(call), id)
  {
    if call.WriteStatus? {
      WriteTracks(s, call.status, call.outcome, id);
    } else if call.DropFinalizer? {
      DropTracks(s, call.outcome, id);
    } else {
      QuietTracks(s, call, id);
    }
  }

  lemma MoveTracks(s: Sys, move: Move, id: string)
    requires Inv(s) && id in s.records && Tracked(s, id)
    ensures Tracked(Happen(s, move), id)
  {
  }

  lemma StepTracks(s: Sys, step: Step, id: string)
    requires Inv(s) && Enabled(s, step) && id in s.records && Tracked(s, id)
    ensures Tracked(Apply(s, step), id) || Forgets(s, step, id)
  {
    if step.Do? { CallTracks(s, step.call, id); }
    if step.Env? { MoveTracks(s, step.move, id); }
  }

  /** A record appears only by a create, whose reply arrives or is lost. */
  lemma NewRecord(s: Sys, step: Step, id: string)
    requires Enabled(s, step) && id in Apply(s, step).records && id !in s.records
    ensures Tracked(Apply(s, step), id) || Forgets(s, step, id)
  {
  }

  /** Every record in Rancher is named by the stored session or held by the reconcile in progress, or step
      `k` is where it was lost sight of. */
  lemma {:induction false} NoRecordForgotten(r: Run, i: nat, id: string) returns (k: nat)
    requires Valid(r) && i <= |r.steps| && id in At(r, i).records
    ensures Tracked(At(r, i), id) || (k < i && Forgets(At(r, k), r.steps[k], id))
  {
    k := 0;
    if i > 0 {
      StateAt(r, i - 1);
      StepAt(r, i - 1);
      if id !in At(r, i - 1).records {
        NewRecord(At(r, i - 1), r.steps[i - 1], id);
        k := i - 1;
      } else {
        k := NoRecordForgotten(r, i - 1, id);
        if Tracked(At(r, i - 1), id) {
          StepTracks(At(r, i - 1), r.steps[i - 1], id);
          k := i - 1;
        }
      }
    }
  }
}
