/** The LosantSync lifecycle as a protocol: the custom resource, the Losant device table, the clock and
    one reconcile worker, one atomic call at a time. As in RancherProtocol a worker call is `Enabled`
    only when the evidence of its reconcile justifies it, `End` may come at any moment, and every call
    may fail or take effect without its reply arriving. The cluster name is fixed throughout a run. */
module SyncProtocol {
  import opened Base
  import opened ApiStore

  datatype Phase = New | Provisioning | Active | Degraded | Suspended

  datatype CondType = GEABootstrapped | DevicesProvisioned | WorkflowDeployed | GEAReachable | LastSyncSucceeded

  datatype Reason =
    | SecretNotFound | InvalidSecret | LosantUnreachable | ClusterDeviceError | BootstrapFailed | BootstrapComplete
    | NodeDeviceError | Provisioned | ReleaseFailed | WorkflowNotFound | Deployed | DeploymentPending
    | GEAUnreachable | Reachable | ScheduleError | SyncComplete

  datatype Cond = Cond(ok: bool, reason: Reason)

  /** The schedule of a spec: neither field parses, an interval, or a cron expression. */
  datatype Plan = Unparsable | Every(interval: Int64) | Cron

  datatype Spec = Spec(plan: Plan, suspend: bool, workflows: bool)

  datatype Status = Status(
    phase: Phase,
    conditions: map<CondType, Cond>,
    clusterDeviceId: string,
    nodeDevices: map<string, string>,
    lastSync: Option<int>,
    next: Option<int>)

  type Sync = Object<Spec, Status>

  const EMPTY_STATUS: Status := Status(New, map[], "", map[], None, None)

  predicate IsTrue(conditions: map<CondType, Cond>, t: CondType) { t in conditions && conditions[t].ok }

  predicate IsFalse(conditions: map<CondType, Cond>, t: CondType) { t in conditions && !conditions[t].ok }

  function Stored(st: Status): Status {
    st.(lastSync := FloorStamp(st.lastSync), next := FloorStamp(st.next))
  }

  /** Losant devices are looked up by a name made from the cluster name and, for a node, its name;
      DeviceNames shows that within one cluster these keys and those names correspond one to one. */
  datatype DeviceKey = OfCluster | OfNode(node: string)

  predicate Records(st: Status, id: string) {
    id != "" && (st.clusterDeviceId == id || id in st.nodeDevices.Values)
  }

  // How far a sync has come.
  const STARTED: nat := 0
  const SECRET: nat := 1        // the provisioning Secret is read and a client built
  const PINGED: nat := 2
  const CLUSTER: nat := 3       // the cluster device is ensured
  const NODES: nat := 4         // the health snapshot is taken
  const WORKFLOWS: nat := 5     // all node devices ensured, workflow deployments settled
  const REPORTED: nat := 6      // GEA accepted the cluster state
  const SCHEDULED: nat := 7     // the next sync time is computed

  datatype Failure = Failure(cond: CondType, reason: Reason)

  datatype Evidence = Evidence(
    clock: Option<int>,            // the latest clock reading since the next time was asked for
    gate: Option<int>,             // the clock reading with which the sync passed the schedule gate
    stage: nat,
    failure: Option<Failure>,      // the first fatal failure
    absent: Option<DeviceKey>,     // a device the lookup did not find
    found: string,                 // one it found, attributes not patched yet
    clusterId: string,
    bootstrapped: bool,            // credentials were bootstrapped in this sync
    snapshot: set<string>,         // nodes of the health snapshot
    todo: set<string>,             // ... whose devices are not ensured yet
    nodeIds: map<string, string>,
    workflow: Option<Reason>,      // a condition reason, if the spec asks for workflows
    unreported: set<string>,
    planned: bool,                 // the next time was asked for (after the failure, if there was one)
    planAt: int,                   // ... at this instant
    next: Option<int>,
    created: set<string>,          // devices created with a reply
    deleted: set<string>)          // devices whose deletion was confirmed

  const NO_EVIDENCE: Evidence :=
    Evidence(None, None, STARTED, None, None, "", "", false, {}, {}, map[], None, {}, false, 0, None, {}, {})

  datatype Worker = Idle | Busy(
    read: Sync,                    // what Get returned
    current: bool,                 // it was the current version at that moment
    halted: bool,                  // a write was made: the code returns without another call
    saved: bool,                   // ... and it took effect
    ev: Evidence)

  /** The instant at which the latest effective successful sync asked for the next time, the plan it asked,
      and the answer. */
  datatype Success = Success(instant: int, plan: Plan, next: Option<int>)

  datatype Sys = Sys(
    api: Store<Spec, Status>,
    owner: map<string, DeviceKey>, // every device id ever handed out
    live: set<string>,             // devices Losant holds
    lost: set<string>,             // created, but the reply or that reconcile's status write was lost
    now: int,
    worker: Worker,
    last: Success)

  function Init(now: int): Sys { Sys(Empty(), map[], {}, {}, now, Idle, Success(0, Cron, None)) }

  datatype Move =
    | Tick(dt: nat)
    | Create(spec: Spec)
    | Delete
    | Edit(spec: Spec)
    | Vanish(id: string)           // someone removes a device in Losant

  datatype Answer = Found(id: string) | NotFound | NoAnswer

  /** What ensureWorkflowDeployments comes to: nothing asked for, a condition reason, or a failure. */
  datatype Verdict = NoneAsked | Settled(reason: Reason) | Broken(reason: Reason)

  datatype Call =
    | ReadClock
    | AddFinalizer(outcome: Outcome)
    | DropFinalizer(outcome: Outcome)
    | WriteStatus(status: Status, outcome: Outcome)
    | ReadSecret(found: bool, wellFormed: bool)
    | Ping(ok: bool)
    | FindDevice(key: DeviceKey, answer: Answer)
    | PatchDevice(key: DeviceKey, id: string, ok: bool)
    | CreateDevice(key: DeviceKey, gateway: string, id: string, outcome: Outcome)
    | Bootstrap(ok: bool)
    | TakeSnapshot(nodes: set<string>)
    | EnsureWorkflows(verdict: Verdict)
    | ReportCluster(id: string, ok: bool)
    | ReportNode(node: string, id: string, ok: bool)
    | Schedule(next: Option<int>)
    | DeleteDevice(id: string, outcome: Outcome)

  datatype Step = Env(move: Move) | Begin(read: Sync) | End | Do(call: Call)

  // ---- Statuses a reconcile writes ----

  /** The step behind a condition has been completed in this sync. */
  predicate Completed(t: CondType, ev: Evidence) {
    match t
    case GEABootstrapped => ev.bootstrapped
    case DevicesProvisioned => ev.stage >= NODES && ev.todo == {}
    case WorkflowDeployed => ev.workflow.Some?
    case GEAReachable => ev.stage >= REPORTED
    case LastSyncSucceeded => false
  }

  function ProgressConds(c: map<CondType, Cond>, ev: Evidence): map<CondType, Cond> {
    var c1 := if Completed(GEABootstrapped, ev) then c[GEABootstrapped := Cond(true, BootstrapComplete)] else c;
    var c2 := if Completed(DevicesProvisioned, ev) then c1[DevicesProvisioned := Cond(true, Provisioned)] else c1;
    var c3 := if ev.workflow.Some? then c2[WorkflowDeployed := Cond(true, ev.workflow.value)] else c2;
    if Completed(GEAReachable, ev) then c3[GEAReachable := Cond(true, Reachable)] else c3
  }

  /** The status read, with what this sync has achieved so far filled in. */
  function Progress(b: Status, ev: Evidence): Status {
    b.(clusterDeviceId := if ev.clusterId == "" then b.clusterDeviceId else ev.clusterId,
       nodeDevices := b.nodeDevices + ev.nodeIds,
       conditions := ProgressConds(b.conditions, ev))
  }

  function DegradedStatus(b: Status, ev: Evidence, f: Failure): Status {
    var p := Progress(b, ev);
    p.(phase := Degraded,
       conditions := p.conditions[f.cond := Cond(false, f.reason)][LastSyncSucceeded := Cond(false, f.reason)],
       next := if ev.next.Some? then ev.next else b.next)
  }

  function ActiveStatus(b: Status, ev: Evidence): Status {
    var p := Progress(b, ev);
    p.(phase := Active, lastSync := ev.clock, next := ev.next,
       conditions := p.conditions[LastSyncSucceeded := Cond(true, SyncComplete)])
  }

  // ---- Enabledness ----

  predicate Live(w: Worker)
    requires w.Busy?
  {
    !w.read.deleting && w.read.finalizer
  }

  /** Only an Active resource whose next time is still ahead is made to wait. */
  predicate GateOpen(st: Status, clock: Option<int>) {
    st.phase == Active && st.next.Some? ==> clock.Some? && clock.value >= st.next.value
  }

  predicate Syncing(w: Worker)
    requires w.Busy?
  {
    Live(w) && !w.read.spec.suspend && w.read.status.phase != New && w.ev.failure.None?
  }

  predicate Deleting(w: Worker)
    requires w.Busy?
  {
    w.read.deleting && w.read.finalizer
  }

  predicate StatusAllowed(w: Worker, st: Status)
    requires w.Busy?
  {
    var b := w.read.status;
    && Live(w)
    && (|| (w.read.spec.suspend && b.phase != Suspended && st == b.(phase := Suspended))
        || (!w.read.spec.suspend && b.phase == New && w.ev.clock.Some?
          && st == b.(phase := Provisioning, next := w.ev.clock))
        || (!w.read.spec.suspend && b.phase != New && w.ev.failure.Some? && w.ev.planned
          && st == DegradedStatus(b, w.ev, w.ev.failure.value))
        || (Syncing(w) && w.ev.stage == SCHEDULED && w.ev.clock.Some? && w.ev.clock.value >= w.ev.planAt
            && st == ActiveStatus(b, w.ev)))
  }

  predicate AllDeleted(w: Worker)
    requires w.Busy?
  {
    && (w.read.status.clusterDeviceId == "" || w.read.status.clusterDeviceId in w.ev.deleted)
    && w.read.status.nodeDevices.Values <= w.ev.deleted
  }

  /** The device the sync is about to ensure. */
  predicate Wanted(w: Worker, key: DeviceKey)
    requires w.Busy?
  {
    && Syncing(w)
    && match key
       case OfCluster => w.ev.stage == PINGED
       case OfNode(n) => w.ev.stage == NODES && n in w.ev.todo
  }

  predicate Truthful(s: Sys, key: DeviceKey, answer: Answer) {
    match answer
    case Found(id) => id in s.live && id in s.owner && s.owner[id] == key
    case NotFound => forall id | id in s.live && id in s.owner :: s.owner[id] != key
    case NoAnswer => true
  }

  predicate PlanAllows(plan: Plan, now: int, next: Option<int>) {
    match plan
    case Unparsable => next.None?
    case Every(d) => next == Some(now + d)
    case Cron => next.Some? && next.value > now && next.value % SECOND == 0
  }

  predicate CallEnabled(s: Sys, w: Worker, call: Call)
    requires w.Busy?
  {
    match call
    case ReadClock => true
    case AddFinalizer(_) => !w.read.deleting && !w.read.finalizer
    case DropFinalizer(_) => Deleting(w) && w.ev.stage == SECRET && AllDeleted(w)
    case WriteStatus(st, _) => StatusAllowed(w, st)
    case ReadSecret(_, _) =>
      w.ev.stage == STARTED && w.ev.failure.None?
        && (Deleting(w) || (Syncing(w) && GateOpen(w.read.status, w.ev.clock)))
    case Ping(_) => Syncing(w) && w.ev.stage == SECRET
    case FindDevice(key, answer) => Wanted(w, key) && w.ev.absent.None? && w.ev.found == "" && Truthful(s, key, answer)
    case PatchDevice(key, id, _) => Wanted(w, key) && id == w.ev.found != "" && id in s.owner && s.owner[id] == key
    case CreateDevice(key, gateway, id, o) =>
      && Wanted(w, key) && w.ev.absent == Some(key)
      && gateway == (if key.OfCluster? then "" else w.ev.clusterId)
      && (o != Rejected ==> id != "" && id !in s.owner)
    case Bootstrap(_) =>
      Syncing(w) && w.ev.stage == CLUSTER && !w.ev.bootstrapped && !IsTrue(w.read.status.conditions, GEABootstrapped)
    case TakeSnapshot(_) =>
      Syncing(w) && w.ev.stage == CLUSTER && (w.ev.bootstrapped || IsTrue(w.read.status.conditions, GEABootstrapped))
    case EnsureWorkflows(verdict) =>
      Syncing(w) && w.ev.stage == NODES && w.ev.todo == {} && (verdict == NoneAsked <==> !w.read.spec.workflows)
    case ReportCluster(id, _) => Syncing(w) && w.ev.stage == WORKFLOWS && id == w.ev.clusterId
    case ReportNode(n, id, _) =>
      Syncing(w) && w.ev.stage == REPORTED && n in w.ev.unreported && n in w.ev.nodeIds && id == w.ev.nodeIds[n]
    case Schedule(next) =>
      && !w.ev.planned
      && ((Syncing(w) && w.ev.stage == REPORTED && w.ev.unreported == {}) || (Live(w) && w.ev.failure.Some?))
      && PlanAllows(w.read.spec.plan, s.now, next)
    case DeleteDevice(id, _) => Deleting(w) && w.ev.stage == SECRET && Records(w.read.status, id)
  }

  predicate Enabled(s: Sys, step: Step) {
    match step
    case Env(_) => true
    case Begin(read) => s.worker.Idle? && Was(s.api, read)
    case End => s.worker.Busy?
    case Do(call) => s.worker.Busy? && !s.worker.halted && CallEnabled(s, s.worker, call)
  }

  // ---- Effects ----

  function Fail(ev: Evidence, cond: CondType, reason: Reason): Evidence {
    ev.(failure := Some(Failure(cond, reason)), planned := false, next := None)
  }

  function DeviceFailure(ev: Evidence, key: DeviceKey): Evidence {
    var reason := if key.OfCluster? then ClusterDeviceError else NodeDeviceError;
    Fail(ev, DevicesProvisioned, reason).(absent := None, found := "")
  }

  /** The device of `key` is known to be `id`. */
  function Ensured(ev: Evidence, key: DeviceKey, id: string): Evidence {
    match key
    case OfCluster => ev.(absent := None, found := "", clusterId := id, stage := CLUSTER)
    case OfNode(n) => ev.(absent := None, found := "", nodeIds := ev.nodeIds[n := id], todo := ev.todo - {n})
  }

  function Learn(s: Sys, ev: Evidence, call: Call): Evidence {
    match call
    case ReadClock => ev.(clock := Some(s.now))
    case ReadSecret(found, wellFormed) =>
      var passed := ev.(gate := ev.clock);
      if !found then Fail(passed, LastSyncSucceeded, SecretNotFound)
      else if !wellFormed then Fail(passed, LastSyncSucceeded, InvalidSecret)
      else passed.(stage := SECRET)
    case Ping(ok) => if ok then ev.(stage := PINGED) else Fail(ev, LastSyncSucceeded, LosantUnreachable)
    case FindDevice(key, answer) =>
      if answer.NoAnswer? then DeviceFailure(ev, key)
      else ev.(absent := if answer.NotFound? then Some(key) else None, found := if answer.Found? then answer.id else "")
    case PatchDevice(key, id, ok) => if ok then Ensured(ev, key, id) else DeviceFailure(ev, key)
    case CreateDevice(key, _, id, o) =>
      if o == Applied then Ensured(ev, key, id).(created := ev.created + {id}) else DeviceFailure(ev, key)
    case Bootstrap(ok) => if ok then ev.(bootstrapped := true) else Fail(ev, GEABootstrapped, BootstrapFailed)
    case TakeSnapshot(nodes) => ev.(stage := NODES, snapshot := nodes, todo := nodes)
    case EnsureWorkflows(verdict) =>
      if verdict.Broken? then Fail(ev, WorkflowDeployed, verdict.reason)
      else ev.(stage := WORKFLOWS, workflow := if verdict.Settled? then Some(verdict.reason) else ev.workflow)
    case ReportCluster(_, ok) =>
      if ok then ev.(stage := REPORTED, unreported := ev.snapshot) else Fail(ev, GEAReachable, GEAUnreachable)
    case ReportNode(n, _, _) => ev.(unreported := ev.unreported - {n})
    case Schedule(next) =>
      if ev.failure.None? && next.None? then Fail(ev, LastSyncSucceeded, ScheduleError)
      else ev.(clock := None, planned := true, planAt := s.now, next := next,
               stage := if ev.failure.None? then SCHEDULED else ev.stage)
    case DeleteDevice(id, o) => if o == Applied then ev.(deleted := ev.deleted + {id}) else ev
    case _ => ev
  }

  function Happen(s: Sys, move: Move): (s': Sys)
    ensures s'.worker == s.worker && s.now <= s'.now
  {
    match move
    case Tick(dt) => s.(now := s.now + dt)
    case Create(spec) => if s.api.cur.Some? then s else s.(api := ApiStore.Create(s.api, spec, EMPTY_STATUS))
    case Delete => s.(api := ApiStore.Delete(s.api))
    case Edit(spec) => s.(api := EditSpec(s.api, spec))
    case Vanish(id) => s.(live := s.live - {id})
  }

  function DoWriteStatus(s: Sys, w: Worker, st: Status, o: Outcome): Sys
    requires w.Busy?
  {
    if o == Rejected || !Current(s.api, w.read) then s.(worker := w.(halted := true))
    else s.(api := ApiStore.WriteStatus(s.api, w.read, Stored(st)), worker := w.(halted := true, saved := true),
            last := if st.phase == Active then Success(w.ev.planAt, w.read.spec.plan, w.ev.next) else s.last)
  }

  /** An update of the finalizers, with `api` as the store after it if it takes effect. */
  function DoFinalizer(s: Sys, w: Worker, api: Store<Spec, Status>, o: Outcome): Sys
    requires w.Busy?
  {
    if o == Rejected || !Current(s.api, w.read) then s.(worker := w.(halted := true))
    else s.(api := api, worker := w.(halted := true, saved := true))
  }

  function Perform(s: Sys, w: Worker, call: Call): (s': Sys)
    requires w.Busy?
    ensures s'.worker.Busy? && s'.worker.read == w.read && s'.worker.current == w.current
    ensures s'.worker.ev == Learn(s, w.ev, call) && s'.now == s.now
    ensures s'.api.nextUid == s.api.nextUid && (s.api.cur.None? ==> s'.api.cur.None?)
  {
    var ev := Learn(s, w.ev, call);
    match call
    case AddFinalizer(o) => DoFinalizer(s, w, ApiStore.AddFinalizer(s.api, w.read), o)
    case DropFinalizer(o) => DoFinalizer(s, w, ApiStore.DropFinalizer(s.api, w.read), o)
    case WriteStatus(st, o) => DoWriteStatus(s, w, st, o)
    case CreateDevice(key, _, id, o) =>
      if o == Rejected then s.(worker := w.(ev := ev))
      else s.(worker := w.(ev := ev), owner := s.owner[id := key], live := s.live + {id},
              lost := if o == LostReply then s.lost + {id} else s.lost)
    case DeleteDevice(id, o) =>
      if o == Rejected then s.(worker := w.(ev := ev)) else s.(worker := w.(ev := ev), live := s.live - {id})
    case _ => s.(worker := w.(ev := ev))
  }

  function Apply(s: Sys, step: Step): Sys {
    match step
    case Env(move) => Happen(s, move)
    case Begin(read) => s.(worker := Busy(read, s.api.cur == Some(read), false, false, NO_EVIDENCE))
    case End =>
      s.(worker := Idle,
         lost := if s.worker.Busy? && !s.worker.saved then s.lost + s.worker.ev.created else s.lost)
    case Do(call) => if s.worker.Idle? then s else Perform(s, s.worker, call)
  }

  // ---- Runs ----

  datatype Run = Run(states: seq<Sys>, steps: seq<Step>)

  ghost predicate Shaped(r: Run) { |r.states| == |r.steps| + 1 }

  ghost predicate Follows(r: Run, i: nat)
    requires Shaped(r) && i < |r.steps|
  {
    Enabled(r.states[i], r.steps[i]) && r.states[i + 1] == Apply(r.states[i], r.steps[i])
  }

  ghost predicate Valid(r: Run) {
    && Shaped(r)
    && r.states[0] == Init(r.states[0].now)
    && (forall i: nat | i < |r.steps| :: Follows(r, i))
  }

  /** The system after the first `i` steps. */
  ghost function At(r: Run, i: nat): Sys
    requires Valid(r) && i <= |r.steps|
  {
    r.states[i]
  }

  ghost function Last(r: Run): Sys
    requires Valid(r)
  {
    At(r, |r.steps|)
  }

  ghost function Extend(r: Run, step: Step): (r': Run)
    requires Valid(r) && Enabled(Last(r), step)
    ensures Valid(r') && Last(r') == Apply(Last(r), step)
  {
    var r' := Run(r.states + [Apply(Last(r), step)], r.steps + [step]);
    assert forall i: nat | i < |r'.steps| :: Follows(r', i) by {
      forall i: nat | i < |r'.steps| ensures Follows(r', i) {
        if i < |r.steps| { assert Follows(r, i); }
      }
    }
    r'
  }
}
