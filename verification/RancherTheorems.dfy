/** What every run of the RancherSession protocol guarantees, whatever calls fail, whatever replies are
    lost, wherever the worker crashes and however the trigger, users and Rancher interleave with it. */
module RancherTheorems {
  import opened Base
  import opened ApiStore
  import opened RancherProtocol
  import opened RancherInvariant

  lemma StepAt(r: Run, i: nat)
    requires Valid(r) && i < |r.steps|
    ensures Enabled(At(r, i), r.steps[i])
    ensures At(r, i + 1) == Apply(At(r, i), r.steps[i])
  {
    assert Follows(r, i);
  }

  // ---- One record per name ----

  /** However often sessions come and go under one display name, Rancher never holds two records of it. */
  lemma OneRecordPerName(r: Run, i: nat, a: string, b: string)
    requires Valid(r) && i <= |r.steps|
    requires a in At(r, i).records && b in At(r, i).records && At(r, i).records[a] == At(r, i).records[b]
    ensures a == b
  {
    StateAt(r, i);
  }

  /** A record left behind by a lost reply or a lost status write is adopted: an answered lookup of its
      name finds it, so no second one is created. */
  lemma LeftoverIsAdopted(r: Run, k: nat, id: string)
    requires Valid(r) && k < |r.steps| && r.steps[k].Do? && r.steps[k].call.FindCluster?
    requires At(r, k).worker.Busy? && id in At(r, k).records
    requires At(r, k).records[id] == DisplayName(At(r, k).key, At(r, k).worker.base)
    ensures r.steps[k].call.answer == NoAnswer || r.steps[k].call.answer == Found(id)
  {
    StateAt(r, k);
    StepAt(r, k);
    if r.steps[k].call.answer.Found? {
      OneRecordPerName(r, k, r.steps[k].call.answer.id, id);
    }
  }

  // ---- Fencing ----

  /** The reconcile in progress after `i` steps began with step `b`. */
  ghost predicate BeganAt(r: Run, b: nat, i: nat)
    requires b < i <= |r.steps|
  {
    && r.steps[b].Begin?
    && (forall j | b < j < i :: r.steps[j].Env? || r.steps[j].Do?)
  }

  /** One step of a reconcile in progress: what was read stays, and evidence comes from calls only. */
  lemma SameReconcile(r: Run, i: nat)
    requires Valid(r) && 0 < i <= |r.steps| && At(r, i).worker.Busy? && !r.steps[i - 1].Begin?
    ensures (r.steps[i - 1].Env? || r.steps[i - 1].Do?) && At(r, i - 1).worker.Busy?
    ensures At(r, i).worker.read == At(r, i - 1).worker.read && At(r, i).worker.current == At(r, i - 1).worker.current
    ensures At(r, i).worker.ev == if r.steps[i - 1].Env? then At(r, i - 1).worker.ev
                                  else Learn(At(r, i - 1), At(r, i - 1).worker.base, At(r, i - 1).worker.ev,
                                    r.steps[i - 1].call)
  {
    StepAt(r, i - 1);
  }

  lemma FirstOfReconcile(r: Run, i: nat)
    requires Valid(r) && 0 < i <= |r.steps| && r.steps[i - 1].Begin?
    ensures At(r, i).worker == Busy(r.steps[i - 1].read, At(r, i - 1).api.cur == Some(r.steps[i - 1].read),
                                    r.steps[i - 1].read, false, false, NO_EVIDENCE)
  {
    StepAt(r, i - 1);
  }

  lemma {:induction false} ReconcileStart(r: Run, i: nat) returns (b: nat)
    requires Valid(r) && i <= |r.steps| && At(r, i).worker.Busy?
    ensures b < i && BeganAt(r, b, i)
    ensures r.steps[b].read == At(r, i).worker.read
    ensures At(r, i).worker.current <==> At(r, b).api.cur == Some(r.steps[b].read)
  {
    if r.steps[i - 1].Begin? {
      b := i - 1;
      FirstOfReconcile(r, i);
    } else {
      SameReconcile(r, i);
      b := ReconcileStart(r, i - 1);
    }
  }

  /** A reconcile whose Get returned anything but the version then current neither creates nor deletes
      a Rancher record. */
  lemma StaleReadIsFenced(r: Run, b: nat, k: nat)
    requires Valid(r) && b < k < |r.steps| && BeganAt(r, b, k)
    requires At(r, b).api.cur != Some(r.steps[b].read)
    ensures !(r.steps[k].Do? && (r.steps[k].call.CreateCluster? || r.steps[k].call.DeleteCluster?))
  {
    StateAt(r, k);
    StepAt(r, k);
    if At(r, k).worker.Busy? {
      var b' := ReconcileStart(r, k);
      assert b' == b;
    }
  }

  // ---- How one session develops ----

  /** The later form of one session, compared with an earlier one: deletion marks, the finalizer and the
      applied manifest are never taken back, a session that left the connect stage never re-enters it,
      and the phase of a session that nobody deletes never goes back. */
  ghost predicate Evolves(a: Session, b: Session) {
    && a.uid == b.uid
    && (a.deleting ==> b.deleting)
    && (a.finalizer ==> b.finalizer)
    && (a.status.manifestApplied ==> b.status.manifestApplied)
    && (Open(b.status) ==> Open(a.status))
    && (!b.deleting ==> Rank(a.status.phase) <= Rank(b.status.phase))
  }

  lemma WriteEvolves(w: Worker, st: Status)
    requires w.Busy? && StatusAllowed(w, st)
    ensures Evolves(w.base, w.base.(status := Stored(st)))
  {
  }

  lemma CallEvolves(s: Sys, call: Call)
    requires Inv(s) && s.worker.Busy? && CallEnabled(s, s.worker, call)
    requires s.api.cur.Some? && Perform(s, s.worker, call).api.cur.Some?
    ensures Evolves(s.api.cur.value, Perform(s, s.worker, call).api.cur.value)
  {
    if Current(s.api, s.worker.base) {
      CurrentIsBase(s.api, s.worker);
      if call.WriteStatus? {
        WriteEvolves(s.worker, call.status);
      }
    }
  }

  lemma MoveEvolves(s: Sys, move: Move)
    requires Happen(s, move).api.cur.Some?
    ensures s.api.nextUid <= Happen(s, move).api.nextUid
    ensures if s.api.cur.Some? then Evolves(s.api.cur.value, Happen(s, move).api.cur.value)
            else Happen(s, move).api.cur.value.uid == s.api.nextUid
  {
  }

  /** In one step the object under the key develops, or a new one appears with a uid never seen. */
  lemma StepEvolves(s: Sys, step: Step)
    requires Inv(s) && Enabled(s, step) && Apply(s, step).api.cur.Some?
    ensures if s.api.cur.Some? then Evolves(s.api.cur.value, Apply(s, step).api.cur.value)
            else Apply(s, step).api.cur.value.uid == s.api.nextUid
  {
    match step
    case Env(move) => MoveEvolves(s, move);
    case Do(call) =>
      if s.api.cur.Some? { CallEvolves(s, call); }
    case _ =>
  }

  lemma UidsGrow(r: Run, i: nat)
    requires Valid(r) && i < |r.steps|
    ensures At(r, i).api.nextUid <= At(r, i + 1).api.nextUid
  {
    StepAt(r, i);
  }

  lemma {:induction false} UidsGrowOverRun(r: Run, i: nat, j: nat)
    requires Valid(r) && i <= j <= |r.steps|
    ensures At(r, i).api.nextUid <= At(r, j).api.nextUid
    decreases j
  {
    if i < j {
      UidsGrowOverRun(r, i, j - 1);
      UidsGrow(r, j - 1);
    }
  }

  lemma UidInUse(r: Run, i: nat)
    requires Valid(r) && i <= |r.steps| && At(r, i).api.cur.Some?
    ensures At(r, i).api.cur.value.uid < At(r, i).api.nextUid
  {
    StateAt(r, i);
  }

  lemma SessionEvolvesNext(r: Run, i: nat)
    requires Valid(r) && i < |r.steps| && At(r, i + 1).api.cur.Some?
    ensures if At(r, i).api.cur.Some? then Evolves(At(r, i).api.cur.value, At(r, i + 1).api.cur.value)
            else At(r, i + 1).api.cur.value.uid == At(r, i).api.nextUid
  {
    StateAt(r, i);
    StepAt(r, i);
    StepEvolves(At(r, i), r.steps[i]);
  }

  /** Two sightings of one session, at any distance, compare as `Evolves` says. */
  lemma {:induction false} SessionEvolves(r: Run, i: nat, j: nat)
    requires Valid(r) && i <= j <= |r.steps|
    requires At(r, i).api.cur.Some? && At(r, j).api.cur.Some?
    requires At(r, i).api.cur.value.uid == At(r, j).api.cur.value.uid
    ensures Evolves(At(r, i).api.cur.value, At(r, j).api.cur.value)
    decreases j
  {
    if i < j {
      UidInUse(r, i);
      UidsGrowOverRun(r, i, j - 1);
      SessionEvolvesNext(r, j - 1);
      SessionEvolves(r, i, j - 1);
    }
  }

  /** For a session that is not being deleted the phase never decreases, and Failed is final. */
  lemma PhaseNeverDecreases(r: Run, i: nat, j: nat)
    requires Valid(r) && i <= j <= |r.steps|
    requires At(r, i).api.cur.Some? && At(r, j).api.cur.Some?
    requires At(r, i).api.cur.value.uid == At(r, j).api.cur.value.uid && !At(r, j).api.cur.value.deleting
    ensures Rank(At(r, i).api.cur.value.status.phase) <= Rank(At(r, j).api.cur.value.status.phase)
    ensures At(r, i).api.cur.value.status.phase == Failed ==> At(r, j).api.cur.value.status.phase == Failed
  {
    SessionEvolves(r, i, j);
  }

  // ---- When clusters are created and manifests applied ----

  /** Whenever a record is created or a manifest applied, the session it is for is in the API server,
      holds the finalizer, was not marked for deletion in the version read, and until then has never
      left the connect stage or had its manifest recorded as applied. In particular a disconnect that
      arrives before the finalizer is stored leaves nothing in Rancher. */
  lemma ImportsOnlyWhileOpen(r: Run, i: nat, k: nat)
    requires Valid(r) && i <= k < |r.steps|
    requires r.steps[k].Do? && (r.steps[k].call.CreateCluster? || r.steps[k].call.ApplyManifest?)
    ensures At(r, k).worker.Busy? && !At(r, k).worker.read.deleting
    ensures At(r, k).api.cur.Some? && At(r, k).api.cur.value.uid == At(r, k).worker.read.uid
    ensures At(r, k).api.cur.value.finalizer
    ensures At(r, i).api.cur.Some? && At(r, i).api.cur.value.uid == At(r, k).worker.read.uid
            ==> Open(At(r, i).api.cur.value.status)
  {
    StateAt(r, k);
    StepAt(r, k);
    assert ConnectStage(At(r, k).worker);
    if At(r, i).api.cur.Some? && At(r, i).api.cur.value.uid == At(r, k).worker.read.uid {
      SessionEvolves(r, i, k);
    }
  }

  // ---- Cleanup ----

  lemma CallKeepsAbsence(s: Sys, call: Call, id: string)
    requires s.worker.Busy? && CallEnabled(s, s.worker, call) && id in s.used && id !in s.records
    ensures id in Perform(s, s.worker, call).used && id !in Perform(s, s.worker, call).records
  {
  }

  lemma StepKeepsAbsence(s: Sys, step: Step, id: string)
    requires Enabled(s, step) && id in s.used && id !in s.records
    ensures id in Apply(s, step).used && id !in Apply(s, step).records
  {
    if step.Do? {
      CallKeepsAbsence(s, step.call, id);
    }
  }

  /** A record that is gone stays gone: Rancher's ids are never reused. */
  lemma {:induction false} GoneForGood(r: Run, i: nat, j: nat, id: string)
    requires Valid(r) && i <= j <= |r.steps|
    requires id in At(r, i).used && id !in At(r, i).records
    ensures id in At(r, j).used && id !in At(r, j).records
    decreases j
  {
    if i < j {
      GoneForGood(r, i, j - 1, id);
      StepAt(r, j - 1);
      StepKeepsAbsence(At(r, j - 1), r.steps[j - 1], id);
    }
  }

  ghost predicate Made(r: Run, b: nat, i: nat, call: Call)
    requires b < i <= |r.steps|
  {
    exists d | b < d < i :: r.steps[d] == Do(call)
  }

  /** Rancher answered a probe while it held no record of the session's cluster. */
  ghost predicate ProbedGone(r: Run, b: nat, i: nat)
    requires Valid(r) && b < i <= |r.steps|
  {
    exists d | b < d < i ::
      r.steps[d] == Do(ProbeCluster(true)) && At(r, d).worker.Busy?
        && At(r, d).worker.base.status.clusterId !in At(r, d).records
  }

  /** A deletion of cluster `id` was confirmed. */
  ghost predicate ConfirmedGone(r: Run, b: nat, i: nat, id: string)
    requires Valid(r) && b < i <= |r.steps|
  {
    exists d | b < d < i ::
      r.steps[d] == Do(DeleteCluster(Applied)) && At(r, d).worker.Busy? && At(r, d).worker.base.status.clusterId == id
  }

  /** Everything a reconcile knows at moment `i` was answered by a call it made since step `b`. */
  ghost predicate Real(r: Run, b: nat, i: nat, ev: Evidence)
    requires Valid(r) && b < i <= |r.steps|
  {
    && (ev.nsDeleted ==> Made(r, b, i, DeleteNamespace(true)))
    && (ev.noClient ==> Made(r, b, i, ReadSecret(false, true)) || Made(r, b, i, ReadSecret(false, false)))
    && (ev.clock.Some? ==> Made(r, b, i, ReadClock(ev.clock.value)))
    && (ev.gone ==> ProbedGone(r, b, i))
    && (ev.deletedId.Some? ==> ConfirmedGone(r, b, i, ev.deletedId.value))
  }

  lemma StillReal(r: Run, b: nat, i: nat, ev: Evidence)
    requires Valid(r) && b < i < |r.steps| && Real(r, b, i, ev)
    ensures Real(r, b, i + 1, ev)
  {
  }

  /** What a call adds to the evidence is its own answer. */
  predicate GrowsBy(s: Sys, base: Session, ev: Evidence, call: Call, ev': Evidence) {
    && (ev'.nsDeleted ==> ev.nsDeleted || call == DeleteNamespace(true))
    && (ev'.noClient ==> ev.noClient || (call.ReadSecret? && !call.found))
    && (ev'.clock == ev.clock || (call.ReadClock? && ev'.clock == Some(call.t)))
    && (ev'.gone ==> ev.gone || (call == ProbeCluster(true) && base.status.clusterId !in s.records))
    && (ev'.deletedId == ev.deletedId
        || (call == DeleteCluster(Applied) && ev'.deletedId == Some(base.status.clusterId)))
  }

  lemma EvidenceGrows(s: Sys, base: Session, ev: Evidence, call: Call)
    ensures GrowsBy(s, base, ev, call, Learn(s, base, ev, call))
  {
  }

  lemma CallIsReal(r: Run, b: nat, i: nat, ev: Evidence, ev': Evidence)
    requires Valid(r) && b < i < |r.steps| && Real(r, b, i, ev) && r.steps[i].Do? && At(r, i).worker.Busy?
    requires GrowsBy(At(r, i), At(r, i).worker.base, ev, r.steps[i].call, ev')
    ensures Real(r, b, i + 1, ev')
  {
    StillReal(r, b, i, ev);
    assert r.steps[i] == Do(r.steps[i].call);
  }

  /** The evidence a reconcile holds was gathered by its own calls. */
  lemma {:induction false} EvidenceIsReal(r: Run, i: nat) returns (b: nat)
    requires Valid(r) && i <= |r.steps| && At(r, i).worker.Busy?
    ensures b < i && BeganAt(r, b, i) && Real(r, b, i, At(r, i).worker.ev)
  {
    if r.steps[i - 1].Begin? {
      b := i - 1;
      FirstOfReconcile(r, i);
    } else {
      SameReconcile(r, i);
      b := EvidenceIsReal(r, i - 1);
      if r.steps[i - 1].Do? {
        var s, ev := At(r, i - 1), At(r, i - 1).worker.ev;
        EvidenceGrows(s, s.worker.base, ev, r.steps[i - 1].call);
        CallIsReal(r, b, i - 1, ev, At(r, i).worker.ev);
      } else {
        StillReal(r, b, i - 1, At(r, i - 1).worker.ev);
      }
    }
  }

  lemma OnlyTheWorkerRemoves(s: Sys, step: Step)
    requires Inv(s) && Enabled(s, step) && s.api.cur.Some? && s.api.cur.value.finalizer && Apply(s, step).api.cur.None?
    ensures step.Do? && step.call.DropFinalizer? && MayFinish(s.worker) && s.api.cur == Some(s.worker.base)
  {
    match step
    case Do(call) =>
      if Current(s.api, s.worker.base) { CurrentIsBase(s.api, s.worker); }
    case _ =>
  }

  /** A session that held the finalizer leaves the API server only after deletion of cattle-system was
      accepted or found done in that very reconcile, and from then on the cluster it recorded is absent
      from Rancher, its deletion confirmed in that reconcile, unless the credentials could not be read in it. */
  lemma FinalizerGoneMeansCleaned(r: Run, i: nat, j: nat) returns (b: nat)
    requires Valid(r) && i < j <= |r.steps|
    requires At(r, i).api.cur.Some? && At(r, i).api.cur.value.finalizer && At(r, i + 1).api.cur.None?
    ensures At(r, i).api.cur.value.deleting
    ensures b < i && BeganAt(r, b, i) && Made(r, b, i, DeleteNamespace(true))
    ensures || Made(r, b, i, ReadSecret(false, true)) || Made(r, b, i, ReadSecret(false, false))
            || var id := At(r, i).api.cur.value.status.clusterId;
               id == "" || (ConfirmedGone(r, b, i, id) && id !in At(r, j).records)
  {
    StateAt(r, i);
    StepAt(r, i);
    OnlyTheWorkerRemoves(At(r, i), r.steps[i]);
    b := EvidenceIsReal(r, i);
    var id := At(r, i).api.cur.value.status.clusterId;
    if !At(r, i).worker.ev.noClient && id != "" {
      GoneForGood(r, i, j, id);
    }
  }

  // ---- Timestamps and the end of a live session ----

  /** Only a status write changes a status, the connection or what the worker has claimed. */
  lemma OtherCalls(s: Sys, call: Call)
    requires s.worker.Busy? && !call.WriteStatus?
    ensures var s' := Perform(s, s.worker, call);
      && s'.conn == s.conn && s'.worker.base == s.worker.base && s'.worker.claimed == s.worker.claimed
      && (s.worker.halted ==> s'.worker.halted)
      && (s'.api.cur.Some? ==>
            && s.api.cur.Some? && s'.api.cur.value.uid == s.api.cur.value.uid
            && s'.api.cur.value.deleting == s.api.cur.value.deleting
            && s'.api.cur.value.status == s.api.cur.value.status)
  {
  }

  lemma ConnectedWriteOrigin(w: Worker, st: Status)
    requires w.Busy? && StatusAllowed(w, st) && st.phase == Connected
    ensures w.base.status.phase == Connected || (w.base.status.phase == Connecting && w.ev.clock.Some?)
  {
  }

  /** `call` is the write that takes effect and makes a Connecting session Connected, with a clock reading
      and a TTL as `c` says. */
  ghost predicate Connects(s: Sys, call: Call, c: Connection) {
    && call.WriteStatus? && call.status.phase == Connected && call.outcome != Rejected
    && s.worker.Busy? && Current(s.api, s.worker.base) && s.worker.base.status.phase == Connecting
    && s.api.cur.value.uid == s.worker.base.uid
    && s.worker.ev.clock == Some(c.instant) && s.worker.base.spec.ttlSeconds == c.ttl
  }

  lemma ConnectedByWrite(s: Sys, st: Status, o: Outcome)
    requires Inv(s) && s.worker.Busy? && StatusAllowed(s.worker, st)
    requires DoWriteStatus(s, s.worker, st, o).api.cur.Some?
    requires DoWriteStatus(s, s.worker, st, o).api.cur.value.status.phase == Connected
    ensures s.api.cur.Some? && s.api.cur.value.uid == DoWriteStatus(s, s.worker, st, o).api.cur.value.uid
    ensures || (s.api.cur.value.status.phase == Connected && DoWriteStatus(s, s.worker, st, o).conn == s.conn)
            || Connects(s, WriteStatus(st, o), DoWriteStatus(s, s.worker, st, o).conn)
  {
    if o != Rejected && Current(s.api, s.worker.base) {
      CurrentIsBase(s.api, s.worker);
      ConnectedWriteOrigin(s.worker, st);
    }
  }

  lemma ConnectedCall(s: Sys, call: Call)
    requires Inv(s) && s.worker.Busy? && CallEnabled(s, s.worker, call)
    requires Perform(s, s.worker, call).api.cur.Some?
    requires Perform(s, s.worker, call).api.cur.value.status.phase == Connected
    ensures s.api.cur.Some? && s.api.cur.value.uid == Perform(s, s.worker, call).api.cur.value.uid
    ensures || (s.api.cur.value.status.phase == Connected && Perform(s, s.worker, call).conn == s.conn)
            || Connects(s, call, Perform(s, s.worker, call).conn)
  {
    match call
    case WriteStatus(st, o) => ConnectedByWrite(s, st, o);
    case _ => OtherCalls(s, call);
  }

  /** A step that leaves a Connected session behind found it Connected, with the same connection, or is
      the write that connected it. */
  lemma ConnectedStep(s: Sys, step: Step)
    requires Inv(s) && Enabled(s, step)
    requires Apply(s, step).api.cur.Some? && Apply(s, step).api.cur.value.status.phase == Connected
    ensures s.api.cur.Some? && s.api.cur.value.uid == Apply(s, step).api.cur.value.uid
    ensures || (s.api.cur.value.status.phase == Connected && Apply(s, step).conn == s.conn)
            || (step.Do? && Connects(s, step.call, Apply(s, step).conn))
  {
    match step
    case Do(call) => ConnectedCall(s, call);
    case _ =>
  }

  lemma {:induction false} ConnectionOrigin(r: Run, i: nat) returns (k: nat)
    requires Valid(r) && i <= |r.steps|
    requires At(r, i).api.cur.Some? && At(r, i).api.cur.value.status.phase == Connected
    ensures k < i && r.steps[k].Do? && Connects(At(r, k), r.steps[k].call, At(r, i).conn)
    ensures At(r, k).api.cur.value.uid == At(r, i).api.cur.value.uid
  {
    StateAt(r, i - 1);
    StepAt(r, i - 1);
    ConnectedStep(At(r, i - 1), r.steps[i - 1]);
    if r.steps[i - 1].Do? && Connects(At(r, i - 1), r.steps[i - 1].call, At(r, i).conn) {
      k := i - 1;
    } else {
      k := ConnectionOrigin(r, i - 1);
    }
  }

  /** A Connected session has its manifest applied and a cluster id, and its stored timestamps are those
      of the instant `c.instant` of its connecting write and of that instant plus the TTL `c.ttl` of the
      spec read then. The stored timestamps are exactly the TTL apart if and only if the TTL in
      nanoseconds fits int64. */
  lemma ConnectedSession(r: Run, i: nat) returns (k: nat, c: Connection)
    requires Valid(r) && i <= |r.steps|
    requires At(r, i).api.cur.Some? && At(r, i).api.cur.value.status.phase == Connected
    ensures k < i && r.steps[k].Do? && Connects(At(r, k), r.steps[k].call, c)
    ensures At(r, k).api.cur.value.uid == At(r, i).api.cur.value.uid
    ensures var st := At(r, i).api.cur.value.status;
      && st.manifestApplied && st.clusterId != "" && StampsMatch(st, c)
      && (FitsInt64(c.ttl * SECOND) <==> st.expiresAt.value - st.connectedAt.value == c.ttl * SECOND)
  {
    StateAt(r, i);
    k := ConnectionOrigin(r, i);
    c := At(r, i).conn;
    StoredSpan(c.instant, c.ttl);
  }

  /** While the agent is being awaited the deadline is 120 seconds after the manifest was applied. */
  lemma PollingDeadline(r: Run, i: nat)
    requires Valid(r) && i <= |r.steps| && At(r, i).api.cur.Some? && Polling(At(r, i).api.cur.value.status)
    ensures var st := At(r, i).api.cur.value.status;
      st.clusterId != "" && st.connectedAt.Some? && st.expiresAt == Some(st.connectedAt.value + 120 * SECOND)
  {
    StateAt(r, i);
  }

  predicate Ending(w: Worker) {
    w.Busy? && w.claimed && !w.base.deleting && w.base.status.phase == Disconnecting
  }

  lemma EndingWriteOrigin(w: Worker, st: Status)
    requires w.Busy? && StatusAllowed(w, st) && st.phase == Disconnecting && !w.base.deleting && !Ending(w)
    ensures w.base.status.phase == Connected
  {
  }

  lemma EndingByWrite(s: Sys, st: Status, o: Outcome)
    requires Inv(s) && s.worker.Busy? && StatusAllowed(s.worker, st) && Ending(DoWriteStatus(s, s.worker, st, o).worker)
    ensures DoWriteStatus(s, s.worker, st, o).conn == s.conn
    ensures DoWriteStatus(s, s.worker, st, o).worker.base.uid == s.worker.base.uid
    ensures Ending(s.worker)
      || (s.api.cur.Some? && s.api.cur.value.uid == s.worker.base.uid && s.api.cur.value.status.phase == Connected)
  {
    if o != Rejected && Current(s.api, s.worker.base) {
      CurrentIsBase(s.api, s.worker);
      if !Ending(s.worker) { EndingWriteOrigin(s.worker, st); }
    }
  }

  lemma EndingCall(s: Sys, call: Call)
    requires Inv(s) && s.worker.Busy? && CallEnabled(s, s.worker, call) && Ending(Perform(s, s.worker, call).worker)
    ensures Perform(s, s.worker, call).conn == s.conn && Perform(s, s.worker, call).worker.base.uid == s.worker.base.uid
    ensures Ending(s.worker)
      || (s.api.cur.Some? && s.api.cur.value.uid == s.worker.base.uid && s.api.cur.value.status.phase == Connected)
  {
    match call
    case WriteStatus(st, o) => EndingByWrite(s, st, o);
    case _ => OtherCalls(s, call);
  }

  lemma EndingStep(s: Sys, step: Step)
    requires Inv(s) && Enabled(s, step) && Ending(Apply(s, step).worker)
    ensures Apply(s, step).conn == s.conn && s.worker.Busy? && Apply(s, step).worker.base.uid == s.worker.base.uid
    ensures Ending(s.worker)
      || (s.api.cur.Some? && s.api.cur.value.uid == s.worker.base.uid && s.api.cur.value.status.phase == Connected)
  {
    if step.Do? { EndingCall(s, step.call); }
  }

  lemma {:induction false} EndingOrigin(r: Run, i: nat) returns (d: nat)
    requires Valid(r) && i <= |r.steps| && Ending(At(r, i).worker)
    ensures d < i && At(r, d).api.cur.Some? && At(r, d).api.cur.value.status.phase == Connected
    ensures At(r, d).api.cur.value.uid == At(r, i).worker.base.uid && At(r, d).conn == At(r, i).conn
  {
    StateAt(r, i - 1);
    StepAt(r, i - 1);
    EndingStep(At(r, i - 1), r.steps[i - 1]);
    if Ending(At(r, i - 1).worker) {
      d := EndingOrigin(r, i - 1);
    } else {
      d := i - 1;
    }
  }

  /** The controller deletes the record of a session that nobody asked to delete only after Rancher
      answered 404 for it in this reconcile (begun at step `b`), or when more than its TTL less one second
      has passed since the connecting write (step `k`). The TTL counts as the span that its nanosecond
      product comes to in 64 bits, which is the TTL itself if that product fits. */
  lemma LiveSessionEndsInTime(r: Run, i: nat) returns (k: nat, c: Connection, b: nat)
    requires Valid(r) && i < |r.steps|
    requires r.steps[i].Do? && r.steps[i].call.DeleteCluster?
    requires At(r, i).worker.Busy? && !At(r, i).worker.read.deleting
    ensures k < i && r.steps[k].Do? && Connects(At(r, k), r.steps[k].call, c)
    ensures At(r, k).api.cur.value.uid == At(r, i).worker.read.uid
    ensures b < i && BeganAt(r, b, i)
    ensures ProbedGone(r, b, i) || At(r, i).now > c.instant + SecondsSpan(c.ttl) - SECOND
    ensures FitsInt64(c.ttl * SECOND) ==> ProbedGone(r, b, i) || At(r, i).now > c.instant + c.ttl * SECOND - SECOND
  {
    StateAt(r, i);
    StepAt(r, i);
    b := EvidenceIsReal(r, i);
    var d := EndingOrigin(r, i);
    k := ConnectionOrigin(r, d);
    c := At(r, d).conn;
  }

  // ---- The trigger ----

  /** Connects that created a session less sessions that left is 1 while a session exists and 0 otherwise. */
  lemma ConnectsMinusRemoved(r: Run, i: nat)
    requires Valid(r) && i <= |r.steps|
    ensures At(r, i).connects - At(r, i).removed == if At(r, i).api.cur.Some? then 1 else 0
  {
    StateAt(r, i);
  }

  // ---- What is not fenced ----

  /** The branch of a reconcile without a client, for a session marked for deletion. */
  ghost predicate Clientless(r: Run, b: nat, k: nat)
    requires b < k <= |r.steps| && r.steps[b].Begin?
  {
    && r.steps[b].read.deleting && r.steps[b].read.finalizer
    && (Made(r, b, k, ReadSecret(false, true)) || Made(r, b, k, ReadSecret(false, false)))
  }

  /** A reconcile working from a stale read deletes the namespace only in the branch without a client: the
      version read is marked for deletion, holds the finalizer, and the Secret was unreadable. */
  lemma StaleNamespaceDelete(r: Run, b: nat, k: nat)
    requires Valid(r) && b < k < |r.steps| && BeganAt(r, b, k) && At(r, b).api.cur != Some(r.steps[b].read)
    requires r.steps[k].Do? && r.steps[k].call.DeleteNamespace?
    ensures Clientless(r, b, k)
  {
    StateAt(r, k);
    StepAt(r, k);
    var b' := ReconcileStart(r, k);
    assert b' == b;
    var b'' := EvidenceIsReal(r, k);
    assert b'' == b;
  }

  /** And in that branch it can: the run may go on with the deletion, however stale the read. */
  lemma StaleNamespaceDeleteHappens(r: Run, ok: bool) returns (r': Run)
    requires Valid(r) && Last(r).worker.Busy? && !Last(r).worker.halted
    requires Last(r).worker.base.deleting && Last(r).worker.base.finalizer && Last(r).worker.ev.noClient
    ensures Valid(r') && r'.steps == r.steps + [Do(DeleteNamespace(ok))]
  {
    r' := Extend(r, Do(DeleteNamespace(ok)));
  }
}
