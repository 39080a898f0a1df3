/** The inductive invariant of the LosantSync protocol and its preservation by every step. */
module SyncInvariant {
  import opened Base
  import opened ApiStore
  import opened SyncProtocol

  // ---- Devices ----

  ghost predicate DevicesOk(owner: map<string, DeviceKey>, live: set<string>) {
    && live <= owner.Keys
    && "" !in owner
    && (forall i, j | i in live && j in live && owner[i] == owner[j] :: i == j)
  }

  /** `id` is a device of `key`, and no other device of `key` is live. */
  ghost predicate Sole(owner: map<string, DeviceKey>, live: set<string>, key: DeviceKey, id: string)
    requires live <= owner.Keys
  {
    id in owner && owner[id] == key && (forall i | i in live && owner[i] == key :: i == id)
  }

  ghost predicate RecordedOk(owner: map<string, DeviceKey>, st: Status) {
    && (st.clusterDeviceId != "" ==> st.clusterDeviceId in owner && owner[st.clusterDeviceId] == OfCluster)
    && (forall n | n in st.nodeDevices :: st.nodeDevices[n] in owner && owner[st.nodeDevices[n]] == OfNode(n))
  }

  ghost predicate PastRecorded(owner: map<string, DeviceKey>, past: map<nat, Sync>) {
    forall v | v in past :: RecordedOk(owner, past[v].status)
  }

  // ---- Status ----

  /** Phase and conditions tell one story. */
  predicate Coherent(st: Status) {
    && (st.phase == Active ==>
          && IsTrue(st.conditions, GEABootstrapped) && IsTrue(st.conditions, DevicesProvisioned)
          && IsTrue(st.conditions, GEAReachable) && IsTrue(st.conditions, LastSyncSucceeded)
          && st.clusterDeviceId != "" && st.lastSync.Some? && st.next.Some?)
    && (st.phase == Degraded ==> IsFalse(st.conditions, LastSyncSucceeded))
    && (IsFalse(st.conditions, LastSyncSucceeded) ==> st.phase == Degraded || st.phase == Suspended)
  }

  ghost predicate CurOk(cur: Option<Sync>) {
    cur.Some? ==>
      && Coherent(cur.value.status)
      && (cur.value.deleting ==> cur.value.finalizer)
      && (!cur.value.finalizer ==> cur.value.status == EMPTY_STATUS)
  }

  /** The next time of an Active resource is the stored form of what its plan gave at its last success. */
  predicate NextOk(st: Status, last: Success) {
    st.phase == Active ==>
      last.next.Some? && PlanAllows(last.plan, last.instant, last.next) && st.next == FloorStamp(last.next)
  }

  /** The last sync is not in the future. */
  predicate NotAhead(st: Status, now: int) { st.lastSync.Some? ==> st.lastSync.value <= now }

  // ---- The worker ----

  ghost predicate ReadOk(api: Store<Spec, Status>, w: Worker) {
    w.Busy? ==> Was(api, w.read) && (!w.current ==> !Current(api, w.read)) && (w.saved ==> w.halted)
  }

  ghost predicate DeviceEvidence(owner: map<string, DeviceKey>, live: set<string>, ev: Evidence) {
    && live <= owner.Keys
    && (ev.clusterId != "" ==> Sole(owner, live, OfCluster, ev.clusterId))
    && (forall n | n in ev.nodeIds :: ev.nodeIds[n] != "" && Sole(owner, live, OfNode(n), ev.nodeIds[n]))
    && (ev.absent.Some? ==> ev.found == "" && forall i | i in live :: owner[i] != ev.absent.value)
    && (ev.found != "" ==> ev.found in owner && Sole(owner, live, owner[ev.found], ev.found))
    && (forall i | i in ev.deleted :: i in owner && i !in live)
    && (forall i | i in ev.created :: i == ev.clusterId || i in ev.nodeIds.Values)
  }

  predicate StageEvidence(now: int, read: Sync, ev: Evidence) {
    && (ev.stage > STARTED || ev.failure.Some? ==>
      read.finalizer && (read.deleting || (!read.spec.suspend && read.status.phase != New)))
    && (ev.stage > STARTED || ev.failure.Some? ==> read.deleting || GateOpen(read.status, ev.gate))
    && (ev.stage >= CLUSTER ==> ev.clusterId != "")
    && (ev.stage >= NODES ==> ev.bootstrapped || IsTrue(read.status.conditions, GEABootstrapped))
    && (ev.stage < NODES ==> ev.nodeIds == map[])
    && (ev.stage < WORKFLOWS ==> ev.workflow.None?)
    && (ev.stage < CLUSTER ==> ev.clusterId == "" && ev.created == {} && !ev.bootstrapped)
    && (ev.stage >= NODES ==> ev.snapshot == ev.todo + ev.nodeIds.Keys && ev.todo !! ev.nodeIds.Keys)
    && (ev.stage >= WORKFLOWS ==> ev.todo == {})
    && (ev.clock.Some? ==> ev.clock.value <= now) && (ev.gate.Some? ==> ev.gate.value <= now)
    && (ev.planned ==> ev.planAt <= now && PlanAllows(read.spec.plan, ev.planAt, ev.next))
    && (ev.planned ==> ev.failure.Some? || ev.stage == SCHEDULED)
    && (ev.planned && ev.gate.Some? ==> ev.gate.value <= ev.planAt)
    && (ev.stage == SCHEDULED && ev.failure.None? ==> ev.planned && ev.next.Some?)
    && (ev.failure.Some? ==> !Completed(ev.failure.value.cond, ev))
    && (ev.failure.Some? && ev.failure.value.cond == GEABootstrapped ==>
      !IsTrue(read.status.conditions, GEABootstrapped))
  }

  ghost predicate WorkerOk(owner: map<string, DeviceKey>, live: set<string>, now: int, w: Worker) {
    w.Busy? ==> DeviceEvidence(owner, live, w.ev) && StageEvidence(now, w.read, w.ev)
  }

  // ---- Conservation ----

  predicate Kept(cur: Option<Sync>, lost: set<string>, w: Worker, id: string) {
    || (cur.Some? && Records(cur.value.status, id))
    || id in lost
    || (w.Busy? && !w.saved && id in w.ev.created)
  }

  ghost predicate NoneForgotten(cur: Option<Sync>, live: set<string>, lost: set<string>, w: Worker) {
    forall id | id in live :: Kept(cur, lost, w, id)
  }

  ghost predicate Inv(s: Sys) {
    && Ok(s.api)
    && DevicesOk(s.owner, s.live)
    && PastRecorded(s.owner, s.api.past)
    && CurOk(s.api.cur)
    && (s.api.cur.Some? ==> NextOk(s.api.cur.value.status, s.last) && NotAhead(s.api.cur.value.status, s.now))
    && ReadOk(s.api, s.worker)
    && WorkerOk(s.owner, s.live, s.now, s.worker)
    && NoneForgotten(s.api.cur, s.live, s.lost, s.worker)
  }

  lemma InitInv(now: int)
    ensures Inv(Init(now))
  {
  }

  lemma CurrentIsRead(api: Store<Spec, Status>, w: Worker)
    requires Ok(api) && ReadOk(api, w) && w.Busy? && Current(api, w.read)
    ensures api.cur == Some(w.read) && w.current
  {
  }

  lemma ReadStaysOk(a: Store<Spec, Status>, b: Store<Spec, Status>, w: Worker)
    requires Ok(a) && Advances(a, b) && ReadOk(a, w)
    ensures ReadOk(b, w)
  {
    if w.Busy? && !w.current {
      StaleStaysStale(a, b, w.read);
    }
  }

  // ---- Environment ----

  lemma CreateKeepsInv(s: Sys, spec: Spec)
    requires Inv(s) && s.api.cur.None?
    ensures Inv(s.(api := ApiStore.Create(s.api, spec, EMPTY_STATUS)))
  {
    CreateAdvances(s.api, spec, EMPTY_STATUS);
    ReadStaysOk(s.api, ApiStore.Create(s.api, spec, EMPTY_STATUS), s.worker);
  }

  /** Storing the current object again with its status unchanged. */
  lemma TouchKeepsInv(s: Sys, o: Sync)
    requires Inv(s) && s.api.cur.Some?
    requires o == s.api.cur.value.(spec := o.spec, deleting := o.deleting, finalizer := o.finalizer)
    requires (o.deleting ==> o.finalizer) && (!o.finalizer ==> o.status == EMPTY_STATUS)
    ensures Inv(s.(api := Put(s.api, o)))
  {
    PutAdvances(s.api, o);
    ReadStaysOk(s.api, Put(s.api, o), s.worker);
  }

  /** The object goes away when nothing it records is live. */
  lemma RemoveKeepsInv(s: Sys)
    requires Inv(s) && s.api.cur.Some?
    requires forall id | id in s.live :: !Records(s.api.cur.value.status, id)
    ensures Inv(s.(api := s.api.(cur := None)))
  {
  }

  lemma VanishKeepsInv(s: Sys, id: string)
    requires Inv(s)
    ensures Inv(s.(live := s.live - {id}))
  {
  }

  lemma MoveKeepsInv(s: Sys, move: Move)
    requires Inv(s)
    ensures Inv(Happen(s, move))
  {
    match move
    case Tick(dt) =>
    case Create(spec) => if s.api.cur.None? { CreateKeepsInv(s, spec); }
    case Delete =>
      if s.api.cur.Some? {
        if s.api.cur.value.finalizer {
          TouchKeepsInv(s, s.api.cur.value.(deleting := true));
        } else {
          RemoveKeepsInv(s);
        }
      }
    case Edit(spec) => if s.api.cur.Some? { TouchKeepsInv(s, s.api.cur.value.(spec := spec)); }
    case Vanish(id) => VanishKeepsInv(s, id);
  }

  // ---- Calls that only add to the evidence ----

  lemma EvidenceKeepsInv(s: Sys, ev: Evidence)
    requires Inv(s) && s.worker.Busy?
    requires DeviceEvidence(s.owner, s.live, ev) && StageEvidence(s.now, s.worker.read, ev)
    requires s.worker.ev.created <= ev.created
    ensures Inv(s.(worker := s.worker.(ev := ev)))
  {
  }

  /** A fatal failure: nothing achieved so far is taken back. */
  lemma FailKeepsInv(s: Sys, cond: CondType, reason: Reason)
    requires Inv(s) && s.worker.Busy? && s.worker.ev.failure.None?
    requires s.worker.ev.stage > STARTED || Deleting(s.worker)
      || (Syncing(s.worker) && GateOpen(s.worker.read.status, s.worker.ev.gate))
    requires !Completed(cond, s.worker.ev)
    requires cond == GEABootstrapped ==> !IsTrue(s.worker.read.status.conditions, GEABootstrapped)
    ensures Inv(s.(worker := s.worker.(ev := Fail(s.worker.ev, cond, reason))))
  {
    EvidenceKeepsInv(s, Fail(s.worker.ev, cond, reason));
  }

  /** The moment at which the gate is passed. */
  function Passed(s: Sys): Sys
    requires s.worker.Busy?
  {
    s.(worker := s.worker.(ev := s.worker.ev.(gate := s.worker.ev.clock)))
  }

  lemma PassedKeepsInv(s: Sys)
    requires Inv(s) && s.worker.Busy? && s.worker.ev.stage == STARTED && s.worker.ev.failure.None?
    ensures Inv(Passed(s))
  {
    EvidenceKeepsInv(s, s.worker.ev.(gate := s.worker.ev.clock));
  }

  lemma SecretKeepsInv(s: Sys)
    requires Inv(s) && s.worker.Busy? && s.worker.ev.stage == STARTED && s.worker.ev.failure.None?
    requires Deleting(s.worker) || (Syncing(s.worker) && GateOpen(s.worker.read.status, s.worker.ev.gate))
    ensures Inv(s.(worker := s.worker.(ev := s.worker.ev.(stage := SECRET))))
  {
    EvidenceKeepsInv(s, s.worker.ev.(stage := SECRET));
  }

  lemma ClockKeepsInv(s: Sys)
    requires Inv(s) && s.worker.Busy?
    ensures Inv(Perform(s, s.worker, ReadClock))
  {
    EvidenceKeepsInv(s, s.worker.ev.(clock := Some(s.now)));
  }

  lemma SnapshotKeepsInv(s: Sys, nodes: set<string>)
    requires Inv(s) && s.worker.Busy? && s.worker.ev.stage == CLUSTER && s.worker.ev.failure.None?
    requires s.worker.ev.bootstrapped || IsTrue(s.worker.read.status.conditions, GEABootstrapped)
    ensures Inv(Perform(s, s.worker, TakeSnapshot(nodes)))
  {
    EvidenceKeepsInv(s, s.worker.ev.(stage := NODES, snapshot := nodes, todo := nodes));
  }

  /** One stage further, with nothing else to show for it but a workflow reason or reports to make. */
  lemma StageKeepsInv(s: Sys, stage: nat, workflow: Option<Reason>, unreported: set<string>)
    requires Inv(s) && s.worker.Busy? && s.worker.ev.failure.None?
    requires (s.worker.ev.stage == SECRET && stage == PINGED && workflow == s.worker.ev.workflow)
             || (s.worker.ev.stage == NODES && stage == WORKFLOWS && s.worker.ev.todo == {})
             || (s.worker.ev.stage == WORKFLOWS && stage == REPORTED)
             || (s.worker.ev.stage == REPORTED && stage == REPORTED)
    ensures Inv(s.(worker := s.worker.(ev := s.worker.ev.(stage := stage, workflow := workflow,
      unreported := unreported))))
  {
    EvidenceKeepsInv(s, s.worker.ev.(stage := stage, workflow := workflow, unreported := unreported));
  }

  lemma ScheduleKeepsInv(s: Sys, next: Option<int>)
    requires Inv(s) && s.worker.Busy? && PlanAllows(s.worker.read.spec.plan, s.now, next)
    requires s.worker.ev.failure.Some? || (s.worker.ev.stage == REPORTED && next.Some?)
    ensures Inv(s.(worker := s.worker.(ev := s.worker.ev.(clock := None, planned := true, planAt := s.now, next := next,
                   stage := if s.worker.ev.failure.None? then SCHEDULED else s.worker.ev.stage))))
  {
    EvidenceKeepsInv(s, s.worker.ev.(clock := None, planned := true, planAt := s.now, next := next,
                        stage := if s.worker.ev.failure.None? then SCHEDULED else s.worker.ev.stage));
  }

  // ---- Ensuring devices ----

  lemma FindKeepsInv(s: Sys, key: DeviceKey, answer: Answer)
    requires Inv(s) && s.worker.Busy? && CallEnabled(s, s.worker, FindDevice(key, answer))
    ensures Inv(Perform(s, s.worker, FindDevice(key, answer)))
  {
    if answer == NoAnswer {
      DeviceFailureKeepsInv(s, key);
    } else {
      EvidenceKeepsInv(s, Learn(s, s.worker.ev, FindDevice(key, answer)));
    }
  }

  /** Recording `id` as the device of `key`. */
  lemma EnsuredOk(s: Sys, owner: map<string, DeviceKey>, live: set<string>, w: Worker, key: DeviceKey, id: string)
    requires w.Busy? && Wanted(w, key) && id != ""
    requires DeviceEvidence(owner, live, w.ev.(absent := None)) && Sole(owner, live, key, id)
    requires StageEvidence(s.now, w.read, w.ev)
    ensures DeviceEvidence(owner, live, Ensured(w.ev, key, id)) && StageEvidence(s.now, w.read, Ensured(w.ev, key, id))
  {
    var ev := Ensured(w.ev, key, id);
    if key.OfNode? {
      assert forall n | n in w.ev.nodeIds :: ev.nodeIds[n] == w.ev.nodeIds[n];
      forall i | i in ev.created ensures i == ev.clusterId || i in ev.nodeIds.Values {
        if i != ev.clusterId {
          var n :| n in w.ev.nodeIds && w.ev.nodeIds[n] == i;
          assert ev.nodeIds[n] == i;
        }
      }
    }
  }

  lemma PatchKeepsInv(s: Sys, key: DeviceKey, id: string, ok: bool)
    requires Inv(s) && s.worker.Busy? && Wanted(s.worker, key)
    requires id == s.worker.ev.found != "" && id in s.owner && s.owner[id] == key
    ensures Inv(Perform(s, s.worker, PatchDevice(key, id, ok)))
  {
    if ok {
      EnsuredOk(s, s.owner, s.live, s.worker, key, id);
      EvidenceKeepsInv(s, Ensured(s.worker.ev, key, id));
    } else {
      DeviceFailureKeepsInv(s, key);
    }
  }

  /** A device that did not exist appears: earlier evidence stays true, and it is the only one of its key. */
  lemma NewDevice(owner: map<string, DeviceKey>, live: set<string>, ev: Evidence, key: DeviceKey, id: string)
    requires DevicesOk(owner, live) && DeviceEvidence(owner, live, ev) && ev.absent == Some(key) && id != ""
    requires id !in owner
    requires forall n | n in ev.nodeIds :: key != OfNode(n)
    requires ev.clusterId != "" ==> key != OfCluster
    ensures DevicesOk(owner[id := key], live + {id})
    ensures DeviceEvidence(owner[id := key], live + {id}, ev.(absent := None))
    ensures Sole(owner[id := key], live + {id}, key, id)
  {
  }

  lemma PastStaysRecorded(owner: map<string, DeviceKey>, past: map<nat, Sync>, key: DeviceKey, id: string)
    requires PastRecorded(owner, past) && id !in owner
    ensures PastRecorded(owner[id := key], past)
  {
  }

  /** The table after a create that took effect, with the worker knowing `ev`. */
  function WithDevice(s: Sys, key: DeviceKey, id: string, ev: Evidence, lost: set<string>): Sys
    requires s.worker.Busy?
  {
    s.(worker := s.worker.(ev := ev), owner := s.owner[id := key], live := s.live + {id}, lost := lost)
  }

  lemma WithDeviceKeepsInv(s: Sys, key: DeviceKey, id: string, ev: Evidence, lost: set<string>)
    requires Inv(s) && s.worker.Busy? && !s.worker.saved && id !in s.owner
    requires DevicesOk(s.owner[id := key], s.live + {id})
    requires DeviceEvidence(s.owner[id := key], s.live + {id}, ev) && StageEvidence(s.now, s.worker.read, ev)
    requires s.worker.ev.created <= ev.created && s.lost <= lost && (id in ev.created || id in lost)
    ensures Inv(WithDevice(s, key, id, ev, lost))
  {
    PastStaysRecorded(s.owner, s.api.past, key, id);
  }

  lemma CreatedKeepsInv(s: Sys, key: DeviceKey, id: string)
    requires Inv(s) && s.worker.Busy? && !s.worker.halted && Wanted(s.worker, key) && s.worker.ev.absent == Some(key)
    requires id != "" && id !in s.owner
    ensures Inv(WithDevice(s, key, id, Ensured(s.worker.ev, key, id).(created := s.worker.ev.created + {id}), s.lost))
  {
    var w := s.worker;
    NewDevice(s.owner, s.live, w.ev, key, id);
    EnsuredOk(s, s.owner[id := key], s.live + {id}, w, key, id);
    var ev := Ensured(w.ev, key, id);
    assert id == ev.clusterId || id in ev.nodeIds.Values by {
      if key.OfNode? { assert ev.nodeIds[key.node] == id; }
    }
    WithDeviceKeepsInv(s, key, id, ev.(created := w.ev.created + {id}), s.lost);
  }

  lemma DeviceFailureStage(now: int, read: Sync, ev: Evidence, key: DeviceKey)
    requires StageEvidence(now, read, ev) && ev.stage > STARTED && !Completed(DevicesProvisioned, ev)
    ensures StageEvidence(now, read, DeviceFailure(ev, key))
  {
  }

  lemma DeviceFailureKeepsInv(s: Sys, key: DeviceKey)
    requires Inv(s) && s.worker.Busy? && s.worker.ev.stage > STARTED && !Completed(DevicesProvisioned, s.worker.ev)
    ensures Inv(s.(worker := s.worker.(ev := DeviceFailure(s.worker.ev, key))))
  {
    DeviceFailureStage(s.now, s.worker.read, s.worker.ev, key);
    EvidenceKeepsInv(s, DeviceFailure(s.worker.ev, key));
  }

  lemma SameDevices(owner: map<string, DeviceKey>, live: set<string>, a: Evidence, b: Evidence)
    requires DeviceEvidence(owner, live, a)
    requires a.clusterId == b.clusterId && a.nodeIds == b.nodeIds && a.absent == b.absent && a.found == b.found
    requires a.deleted == b.deleted && a.created == b.created
    ensures DeviceEvidence(owner, live, b)
  {
  }

  lemma LostCreateKeepsInv(s: Sys, key: DeviceKey, id: string)
    requires Inv(s) && s.worker.Busy? && !s.worker.halted && Wanted(s.worker, key) && s.worker.ev.absent == Some(key)
    requires id != "" && id !in s.owner
    ensures Inv(WithDevice(s, key, id, DeviceFailure(s.worker.ev, key), s.lost + {id}))
  {
    var ev := s.worker.ev;
    NewDevice(s.owner, s.live, ev, key, id);
    DeviceFailureStage(s.now, s.worker.read, ev, key);
    SameDevices(s.owner[id := key], s.live + {id}, ev.(absent := None), DeviceFailure(ev, key));
    WithDeviceKeepsInv(s, key, id, DeviceFailure(ev, key), s.lost + {id});
  }

  lemma CreateOutcome(s: Sys, key: DeviceKey, gateway: string, id: string, o: Outcome)
    requires s.worker.Busy?
    ensures var ev := s.worker.ev;
      Perform(s, s.worker, CreateDevice(key, gateway, id, o)) ==
        match o
        case Applied => WithDevice(s, key, id, Ensured(ev, key, id).(created := ev.created + {id}), s.lost)
        case LostReply => WithDevice(s, key, id, DeviceFailure(ev, key), s.lost + {id})
        case Rejected => s.(worker := s.worker.(ev := DeviceFailure(ev, key)))
  {
  }

  lemma CreateDeviceKeepsInv(s: Sys, key: DeviceKey, gateway: string, id: string, o: Outcome)
    requires Inv(s) && s.worker.Busy? && !s.worker.halted && Wanted(s.worker, key) && s.worker.ev.absent == Some(key)
    requires o != Rejected ==> id != "" && id !in s.owner
    ensures Inv(Perform(s, s.worker, CreateDevice(key, gateway, id, o)))
  {
    CreateOutcome(s, key, gateway, id, o);
    match o
    case Applied => CreatedKeepsInv(s, key, id);
    case LostReply => LostCreateKeepsInv(s, key, id);
    case Rejected => DeviceFailureKeepsInv(s, key);
  }

  lemma DeleteOutcome(s: Sys, id: string, o: Outcome)
    requires s.worker.Busy?
    ensures var gone := s.(live := s.live - {id}); var ev := s.worker.ev;
      Perform(s, s.worker, DeleteDevice(id, o)) ==
        match o
        case Applied => gone.(worker := s.worker.(ev := ev.(deleted := ev.deleted + {id})))
        case LostReply => gone
        case Rejected => s
  {
  }

  lemma DeleteDeviceKeepsInv(s: Sys, id: string, o: Outcome)
    requires Inv(s) && s.worker.Busy? && Records(s.worker.read.status, id)
    ensures Inv(Perform(s, s.worker, DeleteDevice(id, o)))
  {
    DeleteOutcome(s, id, o);
    VanishKeepsInv(s, id);
    if o == Applied {
      RecordedIsOwned(s, id);
      DeletionKeepsInv(s.(live := s.live - {id}), id);
    }
  }

  lemma RecordedIsOwned(s: Sys, id: string)
    requires Inv(s) && s.worker.Busy? && Records(s.worker.read.status, id)
    ensures id in s.owner
  {
    assert RecordedOk(s.owner, s.api.past[s.worker.read.version].status);
  }

  lemma DeletionKeepsInv(s: Sys, id: string)
    requires Inv(s) && s.worker.Busy? && id in s.owner && id !in s.live
    ensures Inv(s.(worker := s.worker.(ev := s.worker.ev.(deleted := s.worker.ev.deleted + {id}))))
  {
    EvidenceKeepsInv(s, s.worker.ev.(deleted := s.worker.ev.deleted + {id}));
  }

  // ---- Writes to the API server ----

  lemma HaltKeepsInv(s: Sys, saved: bool)
    requires Inv(s) && s.worker.Busy? && (saved ==> s.worker.ev.created == {})
    ensures Inv(s.(worker := s.worker.(halted := true, saved := saved || s.worker.saved)))
  {
    var s' := s.(worker := s.worker.(halted := true, saved := saved || s.worker.saved));
    forall id | id in s'.live ensures Kept(s'.api.cur, s'.lost, s'.worker, id) {
      assert Kept(s.api.cur, s.lost, s.worker, id);
    }
  }

  lemma AddFinalizerKeepsInv(s: Sys, o: Outcome)
    requires Inv(s) && s.worker.Busy? && !s.worker.read.deleting && !s.worker.read.finalizer
    ensures Inv(Perform(s, s.worker, AddFinalizer(o)))
  {
    if o != Rejected && Current(s.api, s.worker.read) {
      CurrentIsRead(s.api, s.worker);
      HaltKeepsInv(s, true);
      TouchKeepsInv(s.(worker := s.worker.(halted := true, saved := true)), s.api.cur.value.(finalizer := true));
    } else {
      HaltKeepsInv(s, false);
    }
  }

  lemma DropFinalizerKeepsInv(s: Sys, o: Outcome)
    requires Inv(s) && s.worker.Busy? && Deleting(s.worker) && AllDeleted(s.worker) && s.worker.ev.stage == SECRET
    ensures Inv(Perform(s, s.worker, DropFinalizer(o)))
  {
    if o != Rejected && Current(s.api, s.worker.read) {
      CurrentIsRead(s.api, s.worker);
      HaltKeepsInv(s, true);
      RemoveKeepsInv(s.(worker := s.worker.(halted := true, saved := true)));
    } else {
      HaltKeepsInv(s, false);
    }
  }

  lemma ProgressRecorded(owner: map<string, DeviceKey>, live: set<string>, b: Status, ev: Evidence)
    requires DeviceEvidence(owner, live, ev) && RecordedOk(owner, b)
    ensures RecordedOk(owner, Progress(b, ev))
  {
  }

  /** Whatever was recorded and is still live is recorded after the sync, and so is what it created. */
  lemma ProgressKeeps(owner: map<string, DeviceKey>, live: set<string>, b: Status, ev: Evidence, id: string)
    requires DevicesOk(owner, live) && DeviceEvidence(owner, live, ev) && RecordedOk(owner, b)
    requires id in live && (Records(b, id) || id in ev.created)
    ensures Records(Progress(b, ev), id)
  {
    var p := Progress(b, ev);
    if id in ev.nodeIds.Values {
      var n :| n in ev.nodeIds && ev.nodeIds[n] == id;
      assert p.nodeDevices[n] == id;
    } else if id in b.nodeDevices.Values {
      var n :| n in b.nodeDevices && b.nodeDevices[n] == id;
      assert owner[id] == OfNode(n);
      assert p.nodeDevices[n] == id;
    }
  }

  lemma DegradedCoherent(b: Status, ev: Evidence, f: Failure)
    ensures Coherent(Stored(DegradedStatus(b, ev, f)))
  {
  }

  lemma ActiveCoherent(now: int, read: Sync, ev: Evidence)
    requires StageEvidence(now, read, ev) && ev.stage == SCHEDULED && ev.failure.None? && ev.clock.Some?
    ensures Coherent(Stored(ActiveStatus(read.status, ev)))
  {
  }

  lemma ActiveNext(now: int, read: Sync, ev: Evidence)
    requires StageEvidence(now, read, ev) && ev.stage == SCHEDULED && ev.failure.None?
    ensures NextOk(Stored(ActiveStatus(read.status, ev)), Success(ev.planAt, read.spec.plan, ev.next))
  {
  }

  lemma WriteCoherent(now: int, w: Worker, st: Status, last: Success)
    requires w.Busy? && StatusAllowed(w, st) && Coherent(w.read.status) && StageEvidence(now, w.read, w.ev)
    requires NextOk(w.read.status, last)
    ensures Coherent(Stored(st))
    ensures NextOk(Stored(st), if st.phase == Active then Success(w.ev.planAt, w.read.spec.plan, w.ev.next) else last)
  {
    if w.ev.failure.Some? {
      DegradedCoherent(w.read.status, w.ev, w.ev.failure.value);
    } else if w.ev.stage == SCHEDULED && w.ev.clock.Some? {
      ActiveCoherent(now, w.read, w.ev);
      ActiveNext(now, w.read, w.ev);
    }
  }

  lemma WriteNotAhead(now: int, w: Worker, st: Status)
    requires w.Busy? && StatusAllowed(w, st) && StageEvidence(now, w.read, w.ev) && NotAhead(w.read.status, now)
    ensures NotAhead(Stored(st), now)
  {
  }

  lemma WriteKeeps(s: Sys, st: Status)
    requires Inv(s) && s.worker.Busy? && !s.worker.saved && StatusAllowed(s.worker, st)
    requires s.api.cur == Some(s.worker.read)
    ensures RecordedOk(s.owner, Stored(st))
    ensures forall id | id in s.live :: Records(Stored(st), id) || id in s.lost
  {
    var b, ev := s.worker.read.status, s.worker.ev;
    ProgressRecorded(s.owner, s.live, b, ev);
    assert RecordedOk(s.owner, s.api.past[s.worker.read.version].status);
    forall id | id in s.live ensures Records(Stored(st), id) || id in s.lost {
      assert Kept(s.api.cur, s.lost, s.worker, id);
      if id !in s.lost { ProgressKeeps(s.owner, s.live, b, ev, id); }
    }
  }

  lemma StoreKeepsInv(s: Sys, st: Status, last: Success)
    requires Inv(s) && s.worker.Busy? && s.api.cur == Some(s.worker.read) && s.worker.current && s.worker.read.finalizer
    requires Coherent(st) && NextOk(st, last) && NotAhead(st, s.now) && RecordedOk(s.owner, st)
    requires forall id | id in s.live :: Records(st, id) || id in s.lost
    ensures Inv(s.(api := Put(s.api, s.worker.read.(status := st)), worker := s.worker.(halted := true, saved := true),
      last := last))
  {
    var o := s.worker.read.(status := st);
    PutAdvances(s.api, o);
    ReadStaysOk(s.api, Put(s.api, o), s.worker);
  }

  lemma WriteStatusKeepsInv(s: Sys, st: Status, o: Outcome)
    requires Inv(s) && s.worker.Busy? && !s.worker.halted && StatusAllowed(s.worker, st)
    ensures Inv(DoWriteStatus(s, s.worker, st, o))
  {
    if o == Rejected || !Current(s.api, s.worker.read) {
      HaltKeepsInv(s, false);
    } else {
      CurrentIsRead(s.api, s.worker);
      WriteKeeps(s, st);
      WriteCoherent(s.now, s.worker, st, s.last);
      WriteNotAhead(s.now, s.worker, st);
      var w := s.worker;
      var last := if st.phase == Active then Success(w.ev.planAt, w.read.spec.plan, w.ev.next) else s.last;
      StoreKeepsInv(s, Stored(st), last);
    }
  }

  lemma SecretOutcome(s: Sys, found: bool, wellFormed: bool)
    requires s.worker.Busy?
    ensures var passed := Passed(s); var ev := passed.worker.ev;
      Perform(s, s.worker, ReadSecret(found, wellFormed)) == passed.(worker := passed.worker.(ev :=
        if !found then Fail(ev, LastSyncSucceeded, SecretNotFound)
        else if !wellFormed then Fail(ev, LastSyncSucceeded, InvalidSecret)
        else ev.(stage := SECRET)))
  {
  }

  lemma SecretCallKeepsInv(s: Sys, found: bool, wellFormed: bool)
    requires Inv(s) && s.worker.Busy? && s.worker.ev.stage == STARTED && s.worker.ev.failure.None?
    requires Deleting(s.worker) || (Syncing(s.worker) && GateOpen(s.worker.read.status, s.worker.ev.clock))
    ensures Inv(Perform(s, s.worker, ReadSecret(found, wellFormed)))
  {
    PassedKeepsInv(s);
    SecretOutcome(s, found, wellFormed);
    if found && wellFormed {
      SecretKeepsInv(Passed(s));
    } else {
      FailKeepsInv(Passed(s), LastSyncSucceeded, if found then InvalidSecret else SecretNotFound);
    }
  }

  lemma PingKeepsInv(s: Sys, ok: bool)
    requires Inv(s) && s.worker.Busy? && Syncing(s.worker) && s.worker.ev.stage == SECRET
    ensures Inv(Perform(s, s.worker, Ping(ok)))
  {
    if ok { StageKeepsInv(s, PINGED, s.worker.ev.workflow, s.worker.ev.unreported); }
    else { FailKeepsInv(s, LastSyncSucceeded, LosantUnreachable); }
  }

  lemma BootstrapKeepsInv(s: Sys, ok: bool)
    requires Inv(s) && s.worker.Busy? && Syncing(s.worker) && s.worker.ev.stage == CLUSTER && !s.worker.ev.bootstrapped
    requires !IsTrue(s.worker.read.status.conditions, GEABootstrapped)
    ensures Inv(Perform(s, s.worker, Bootstrap(ok)))
  {
    if ok { EvidenceKeepsInv(s, s.worker.ev.(bootstrapped := true)); }
    else { FailKeepsInv(s, GEABootstrapped, BootstrapFailed); }
  }

  lemma WorkflowsOutcome(s: Sys, verdict: Verdict)
    requires s.worker.Busy?
    ensures var ev := s.worker.ev;
      Perform(s, s.worker, EnsureWorkflows(verdict)) == s.(worker := s.worker.(ev :=
        if verdict.Broken? then Fail(ev, WorkflowDeployed, verdict.reason)
        else ev.(stage := WORKFLOWS, workflow := if verdict.Settled? then Some(verdict.reason) else ev.workflow,
                 unreported := ev.unreported)))
  {
  }

  lemma WorkflowsKeepInv(s: Sys, verdict: Verdict)
    requires Inv(s) && s.worker.Busy? && Syncing(s.worker) && s.worker.ev.stage == NODES && s.worker.ev.todo == {}
    ensures Inv(Perform(s, s.worker, EnsureWorkflows(verdict)))
  {
    WorkflowsOutcome(s, verdict);
    if verdict.Broken? {
      FailKeepsInv(s, WorkflowDeployed, verdict.reason);
    } else {
      var workflow := if verdict.Settled? then Some(verdict.reason) else s.worker.ev.workflow;
      StageKeepsInv(s, WORKFLOWS, workflow, s.worker.ev.unreported);
    }
  }

  lemma ReportKeepsInv(s: Sys, id: string, ok: bool)
    requires Inv(s) && s.worker.Busy? && Syncing(s.worker) && s.worker.ev.stage == WORKFLOWS
    ensures Inv(Perform(s, s.worker, ReportCluster(id, ok)))
  {
    if ok { StageKeepsInv(s, REPORTED, s.worker.ev.workflow, s.worker.ev.snapshot); }
    else { FailKeepsInv(s, GEAReachable, GEAUnreachable); }
  }

  lemma ScheduleOutcome(s: Sys, next: Option<int>)
    requires s.worker.Busy?
    ensures var ev := s.worker.ev;
      Perform(s, s.worker, Schedule(next)) == s.(worker := s.worker.(ev :=
        if ev.failure.None? && next.None? then Fail(ev, LastSyncSucceeded, ScheduleError)
        else ev.(clock := None, planned := true, planAt := s.now, next := next,
                 stage := if ev.failure.None? then SCHEDULED else ev.stage)))
  {
  }

  lemma ScheduleCallKeepsInv(s: Sys, next: Option<int>)
    requires Inv(s) && s.worker.Busy? && PlanAllows(s.worker.read.spec.plan, s.now, next)
    requires s.worker.ev.failure.Some? || s.worker.ev.stage == REPORTED
    ensures Inv(Perform(s, s.worker, Schedule(next)))
  {
    ScheduleOutcome(s, next);
    if s.worker.ev.failure.None? && next.None? { FailKeepsInv(s, LastSyncSucceeded, ScheduleError); }
    else { ScheduleKeepsInv(s, next); }
  }

  lemma EarlyCallKeepsInv(s: Sys, call: Call)
    requires Inv(s) && s.worker.Busy? && CallEnabled(s, s.worker, call)
    requires call.ReadClock? || call.ReadSecret? || call.Ping? || call.Bootstrap? || call.TakeSnapshot?
    ensures Inv(Perform(s, s.worker, call))
  {
    if call.ReadClock? {
      ClockKeepsInv(s);
    } else if call.ReadSecret? {
      SecretCallKeepsInv(s, call.found, call.wellFormed);
    } else if call.Ping? {
      PingKeepsInv(s, call.ok);
    } else if call.Bootstrap? {
      BootstrapKeepsInv(s, call.ok);
    } else {
      SnapshotKeepsInv(s, call.nodes);
    }
  }

  lemma LateCallKeepsInv(s: Sys, call: Call)
    requires Inv(s) && s.worker.Busy? && CallEnabled(s, s.worker, call)
    requires call.EnsureWorkflows? || call.ReportCluster? || call.ReportNode? || call.Schedule?
    ensures Inv(Perform(s, s.worker, call))
  {
    if call.EnsureWorkflows? {
      WorkflowsKeepInv(s, call.verdict);
    } else if call.ReportCluster? {
      ReportKeepsInv(s, call.id, call.ok);
    } else if call.ReportNode? {
      StageKeepsInv(s, REPORTED, s.worker.ev.workflow, s.worker.ev.unreported - {call.node});
    } else {
      ScheduleCallKeepsInv(s, call.next);
    }
  }

  lemma WriteCallKeepsInv(s: Sys, call: Call)
    requires Inv(s) && s.worker.Busy? && !s.worker.halted && CallEnabled(s, s.worker, call)
    requires call.AddFinalizer? || call.DropFinalizer? || call.WriteStatus?
    ensures Inv(Perform(s, s.worker, call))
  {
    if call.AddFinalizer? {
      AddFinalizerKeepsInv(s, call.outcome);
    } else if call.DropFinalizer? {
      DropFinalizerKeepsInv(s, call.outcome);
    } else {
      WriteStatusKeepsInv(s, call.status, call.outcome);
    }
  }

  lemma DeviceCallKeepsInv(s: Sys, call: Call)
    requires Inv(s) && s.worker.Busy? && !s.worker.halted && CallEnabled(s, s.worker, call)
    requires call.FindDevice? || call.PatchDevice? || call.CreateDevice? || call.DeleteDevice?
    ensures Inv(Perform(s, s.worker, call))
  {
    if call.FindDevice? {
      FindKeepsInv(s, call.key, call.answer);
    } else if call.PatchDevice? {
      PatchKeepsInv(s, call.key, call.id, call.ok);
    } else if call.CreateDevice? {
      CreateDeviceKeepsInv(s, call.key, call.gateway, call.id, call.outcome);
    } else {
      DeleteDeviceKeepsInv(s, call.id, call.outcome);
    }
  }

  lemma CallKeepsInv(s: Sys, call: Call)
    requires Inv(s) && s.worker.Busy? && !s.worker.halted && CallEnabled(s, s.worker, call)
    ensures Inv(Perform(s, s.worker, call))
  {
    if call.AddFinalizer? || call.DropFinalizer? || call.WriteStatus? {
      WriteCallKeepsInv(s, call);
    } else if call.FindDevice? || call.PatchDevice? || call.CreateDevice? || call.DeleteDevice? {
      DeviceCallKeepsInv(s, call);
    } else if call.EnsureWorkflows? || call.ReportCluster? || call.ReportNode? || call.Schedule? {
      LateCallKeepsInv(s, call);
    } else {
      EarlyCallKeepsInv(s, call);
    }
  }

  lemma EndKeepsInv(s: Sys)
    requires Inv(s) && s.worker.Busy?
    ensures Inv(Apply(s, End))
  {
    var s' := Apply(s, End);
    forall id | id in s'.live ensures Kept(s'.api.cur, s'.lost, s'.worker, id) {
      assert Kept(s.api.cur, s.lost, s.worker, id);
    }
  }

  lemma StepKeepsInv(s: Sys, step: Step)
    requires Inv(s) && Enabled(s, step)
    ensures Inv(Apply(s, step))
  {
    match step
    case Env(move) => MoveKeepsInv(s, move);
    case Begin(read) =>
    case End => EndKeepsInv(s);
    case Do(call) => CallKeepsInv(s, call);
  }

  /** The invariant holds at every moment of every run. */
  lemma {:induction false} StateAt(r: Run, i: nat)
    requires Valid(r) && i <= |r.steps|
    ensures Inv(At(r, i))
  {
    if i == 0 {
      InitInv(r.states[0].now);
    } else {
      StateAt(r, i - 1);
      assert Follows(r, i - 1);
      StepKeepsInv(At(r, i - 1), r.steps[i - 1]);
    }
  }
}
