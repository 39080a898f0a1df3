/** The sync pipeline over runs: what the calls of one reconcile have completed, in which order, and that
    the evidence it acts on is exactly what those calls returned. */
module SyncPipeline {
  import opened Base
  import opened ApiStore
  import opened SyncProtocol
  import opened SyncInvariant
  import opened SyncEvidence

  // ---- Tasks ----

  /** What a sync has to get done, with what came of it. */
  datatype Task =
    | SecretRead
    | Pinged
    | DeviceReady(key: DeviceKey, id: string)
    | Bootstrapped
    | SnapshotTaken(nodes: set<string>)
    | WorkflowsSettled(reason: Option<Reason>)
    | ClusterReported(id: string)
    | NodeReported(node: string, id: string)
    | Scheduled(next: Option<int>)

  /** The task a call completes; a node report counts whatever GEA says to it. */
  function TaskOf(call: Call): Option<Task> {
    match call
    case ReadSecret(found, wellFormed) => if found && wellFormed then Some(SecretRead) else None
    case Ping(ok) => if ok then Some(Pinged) else None
    case PatchDevice(key, id, ok) => if ok then Some(DeviceReady(key, id)) else None
    case CreateDevice(key, _, id, o) => if o == Applied then Some(DeviceReady(key, id)) else None
    case Bootstrap(ok) => if ok then Some(Bootstrapped) else None
    case TakeSnapshot(nodes) => Some(SnapshotTaken(nodes))
    case EnsureWorkflows(NoneAsked) => Some(WorkflowsSettled(None))
    case EnsureWorkflows(Settled(reason)) => Some(WorkflowsSettled(Some(reason)))
    case ReportCluster(id, ok) => if ok then Some(ClusterReported(id)) else None
    case ReportNode(n, id, _) => Some(NodeReported(n, id))
    case Schedule(next) => if next.Some? then Some(Scheduled(next)) else None
    case _ => None
  }

  /** The task a call is an attempt at. */
  predicate Attempts(call: Call, task: Task) {
    match task
    case SecretRead => call.ReadSecret?
    case Pinged => call.Ping?
    case DeviceReady(key, _) => (call.FindDevice? || call.PatchDevice? || call.CreateDevice?) && call.key == key
    case Bootstrapped => call.Bootstrap?
    case SnapshotTaken(_) => call.TakeSnapshot?
    case WorkflowsSettled(_) => call.EnsureWorkflows?
    case ClusterReported(id) => call.ReportCluster? && call.id == id
    case NodeReported(n, id) => call.ReportNode? && call.node == n && call.id == id
    case Scheduled(_) => call.Schedule?
  }

  function DeviceFailed(key: DeviceKey): Failure {
    Failure(DevicesProvisioned, if key.OfCluster? then ClusterDeviceError else NodeDeviceError)
  }

  /** The failure a call means for a sync that has met none before. */
  function FailureOf(call: Call): Option<Failure> {
    match call
    case ReadSecret(found, wellFormed) =>
      if !found then Some(Failure(LastSyncSucceeded, SecretNotFound))
      else if !wellFormed then Some(Failure(LastSyncSucceeded, InvalidSecret)) else None
    case Ping(ok) => if ok then None else Some(Failure(LastSyncSucceeded, LosantUnreachable))
    case FindDevice(key, answer) => if answer.NoAnswer? then Some(DeviceFailed(key)) else None
    case PatchDevice(key, _, ok) => if ok then None else Some(DeviceFailed(key))
    case CreateDevice(key, _, _, o) => if o == Applied then None else Some(DeviceFailed(key))
    case Bootstrap(ok) => if ok then None else Some(Failure(GEABootstrapped, BootstrapFailed))
    case EnsureWorkflows(Broken(reason)) => Some(Failure(WorkflowDeployed, reason))
    case ReportCluster(_, ok) => if ok then None else Some(Failure(GEAReachable, GEAUnreachable))
    case Schedule(next) => if next.None? then Some(Failure(LastSyncSucceeded, ScheduleError)) else None
    case _ => None
  }

  // ---- Call sequences; clock readings may come anywhere ----

  function FirstFailure(calls: seq<Call>): Option<Failure> {
    if calls == [] then None
    else
      var before := FirstFailure(calls[..|calls| - 1]);
      if before.Some? then before else FailureOf(calls[|calls| - 1])
  }

  /** The tasks completed before the first failure, in order. */
  function Done(calls: seq<Call>): seq<Task> {
    if calls == [] then []
    else
      var before, last := calls[..|calls| - 1], calls[|calls| - 1];
      Done(before) + if FirstFailure(before).None? && TaskOf(last).Some? then [TaskOf(last).value] else []
  }

  /** The calls after the first failure. */
  function Aftermath(calls: seq<Call>): seq<Call> {
    if calls == [] then []
    else
      var before, last := calls[..|calls| - 1], calls[|calls| - 1];
      Aftermath(before) + if FirstFailure(before).Some? && !last.ReadClock? then [last] else []
  }

  /** The last call but for clock readings. */
  function Latest(calls: seq<Call>): Option<Call> {
    if calls == [] then None
    else if calls[|calls| - 1].ReadClock? then Latest(calls[..|calls| - 1])
    else Some(calls[|calls| - 1])
  }

  lemma OneMoreCall(calls: seq<Call>, call: Call)
    ensures FirstFailure(calls + [call]) == if FirstFailure(calls).Some? then FirstFailure(calls) else FailureOf(call)
    ensures Done(calls + [call])
      == Done(calls) + if FirstFailure(calls).None? && TaskOf(call).Some? then [TaskOf(call).value] else []
    ensures Aftermath(calls + [call])
      == Aftermath(calls) + if FirstFailure(calls).Some? && !call.ReadClock? then [call] else []
    ensures Latest(calls + [call]) == if call.ReadClock? then Latest(calls) else Some(call)
  {
    assert (calls + [call])[..|calls|] == calls;
  }

  /** Every task done was completed by one of the calls. */
  lemma {:induction false} DoneByCall(calls: seq<Call>, i: nat) returns (k: nat)
    requires i < |Done(calls)|
    ensures k < |calls| && TaskOf(calls[k]) == Some(Done(calls)[i])
  {
    var before := calls[..|calls| - 1];
    if i < |Done(before)| {
      k := DoneByCall(before, i);
    } else {
      k := |calls| - 1;
    }
  }

  // ---- The canonical order ----

  function NodeTask(report: bool, n: string, id: string): Task {
    if report then NodeReported(n, id) else DeviceReady(OfNode(n), id)
  }

  function NodeName(t: Task): string {
    match t
    case DeviceReady(OfNode(n), _) => n
    case NodeReported(n, _) => n
    case _ => ""
  }

  /** The tasks concern each node of `ids` once, in any order, and with its id. */
  predicate Once(tasks: seq<Task>, ids: map<string, string>, report: bool) {
    if tasks == [] then ids == map[]
    else
      var last := tasks[|tasks| - 1];
      && NodeName(last) in ids && last == NodeTask(report, NodeName(last), ids[NodeName(last)])
      && Once(tasks[..|tasks| - 1], ids - {NodeName(last)}, report)
  }

  /** A whole sync: whether credentials have to be bootstrapped, the devices of the cluster and of the
      nodes, and the orders in which the nodes are visited. */
  datatype Course = Course(boot: bool, clusterId: string, ids: map<string, string>, devices: seq<Task>,
                           workflow: Option<Reason>, reports: seq<Task>, next: Option<int>)

  predicate WellFormed(p: Course, read: Sync) {
    && p.boot == !IsTrue(read.status.conditions, GEABootstrapped)
    && Once(p.devices, p.ids, false) && Once(p.reports, p.ids, true)
  }

  function ToCluster(boot: bool, clusterId: string): seq<Task> {
    [SecretRead, Pinged, DeviceReady(OfCluster, clusterId)] + if boot then [Bootstrapped] else []
  }

  function ToDevices(boot: bool, clusterId: string, nodes: set<string>, devices: seq<Task>): seq<Task> {
    (ToCluster(boot, clusterId) + [SnapshotTaken(nodes)]) + devices
  }

  function ToReports(boot: bool, clusterId: string, nodes: set<string>, devices: seq<Task>, workflow: Option<Reason>,
                     reports: seq<Task>): seq<Task> {
    (ToDevices(boot, clusterId, nodes, devices) + [WorkflowsSettled(workflow), ClusterReported(clusterId)]) + reports
  }

  /** The canonical order. */
  function Tasks(p: Course): seq<Task> {
    ToReports(p.boot, p.clusterId, p.ids.Keys, p.devices, p.workflow, p.reports) + [Scheduled(p.next)]
  }

  // ---- Evidence and calls ----

  /** The tasks that evidence stands for, given the orders in which nodes were visited. */
  function Expected(ev: Evidence, devices: seq<Task>, reports: seq<Task>): seq<Task> {
    if ev.stage == STARTED then []
    else if ev.stage == SECRET then [SecretRead]
    else if ev.stage == PINGED then [SecretRead, Pinged]
    else if ev.stage == CLUSTER then ToCluster(ev.bootstrapped, ev.clusterId)
    else if ev.stage == NODES then ToDevices(ev.bootstrapped, ev.clusterId, ev.snapshot, devices)
    else if ev.stage == WORKFLOWS then
      ToDevices(ev.bootstrapped, ev.clusterId, ev.snapshot, devices) + [WorkflowsSettled(ev.workflow)]
    else if ev.stage == REPORTED then
      ToReports(ev.bootstrapped, ev.clusterId, ev.snapshot, devices, ev.workflow, reports)
    else
      ToReports(ev.bootstrapped, ev.clusterId, ev.snapshot, devices, ev.workflow, reports) + [Scheduled(ev.next)]
  }

  predicate Visited(ev: Evidence, devices: seq<Task>, reports: seq<Task>) {
    && Once(devices, ev.nodeIds, false)
    && if ev.stage < REPORTED then reports == [] && ev.unreported == {}
       else
         && ev.unreported <= ev.snapshot && Once(reports, ev.nodeIds - ev.unreported, true)
         && (ev.stage == SCHEDULED ==> ev.unreported == {})
  }

  /** A device is still to be ensured before anything else. */
  predicate Unfinished(ev: Evidence) {
    ev.failure.None? && (ev.stage == PINGED || (ev.stage == NODES && ev.todo != {}))
  }

  /** Between looking a device up and patching or creating it. */
  predicate Pending(ev: Evidence, latest: Option<Call>) {
    if latest.Some? && latest.value.FindDevice? then
      match latest.value.answer
      case Found(id) => ev.found == id != "" && ev.absent.None? && Unfinished(ev)
      case NotFound => ev.absent == Some(latest.value.key) && ev.found == "" && Unfinished(ev)
      case NoAnswer => ev.failure.Some? && ev.absent.None? && ev.found == ""
    else ev.absent.None? && ev.found == ""
  }

  /** The evidence is exactly what the calls returned. */
  predicate Accounts(read: Sync, ev: Evidence, calls: seq<Call>, devices: seq<Task>, reports: seq<Task>) {
    && ev.stage <= SCHEDULED && (ev.bootstrapped ==> !IsTrue(read.status.conditions, GEABootstrapped))
    && ev.failure == FirstFailure(calls) && (ev.failure.Some? ==> ev.stage < SCHEDULED)
    && Done(calls) == Expected(ev, devices, reports)
    && Visited(ev, devices, reports)
    && Pending(ev, Latest(calls))
    && (ev.failure.Some? ==> Aftermath(calls) == if ev.planned then [Schedule(ev.next)] else [])
    && (ev.failure.None? ==> Aftermath(calls) == [])
  }

  lemma NothingDone(read: Sync)
    ensures Accounts(read, NO_EVIDENCE, [], [], [])
  {
  }

  /** A call that completes its task. */
  lemma Advances(read: Sync, ev: Evidence, calls: seq<Call>, devices: seq<Task>, reports: seq<Task>, call: Call,
                 ev': Evidence, devices': seq<Task>, reports': seq<Task>)
    requires Accounts(read, ev, calls, devices, reports) && ev.failure.None?
    requires TaskOf(call).Some? && FailureOf(call).None?
    requires Expected(ev', devices', reports') == Expected(ev, devices, reports) + [TaskOf(call).value]
    requires Visited(ev', devices', reports') && ev'.stage <= SCHEDULED && ev'.failure.None?
    requires ev'.bootstrapped ==> !IsTrue(read.status.conditions, GEABootstrapped)
    requires ev'.absent.None? && ev'.found == ""
    ensures Accounts(read, ev', calls + [call], devices', reports')
  {
    OneMoreCall(calls, call);
  }

  /** The same tasks done. */
  predicate SameTasks(a: Evidence, b: Evidence) {
    && a.stage == b.stage && a.bootstrapped == b.bootstrapped && a.clusterId == b.clusterId && a.snapshot == b.snapshot
    && a.nodeIds == b.nodeIds && a.unreported == b.unreported && a.workflow == b.workflow
    && (a.stage == SCHEDULED ==> a.next == b.next)
  }

  lemma SameExpected(a: Evidence, b: Evidence, devices: seq<Task>, reports: seq<Task>)
    requires SameTasks(a, b) && a.stage <= SCHEDULED
    ensures Expected(a, devices, reports) == Expected(b, devices, reports)
    ensures Visited(a, devices, reports) == Visited(b, devices, reports)
  {
  }

  /** A call that completes nothing. */
  lemma Stays(read: Sync, ev: Evidence, calls: seq<Call>, devices: seq<Task>, reports: seq<Task>, call: Call,
    ev': Evidence)
    requires Accounts(read, ev, calls, devices, reports) && SameTasks(ev, ev')
    requires ev.failure.None? && TaskOf(call).None? && ev'.failure == FailureOf(call)
    requires Pending(ev', if call.ReadClock? then Latest(calls) else Some(call))
    requires ev'.failure.Some? ==> !ev'.planned && ev'.stage < SCHEDULED
    ensures Accounts(read, ev', calls + [call], devices, reports)
  {
    OneMoreCall(calls, call);
    SameExpected(ev, ev', devices, reports);
  }

  /** After a failure there is only the clock to read and, once, the next time to ask for. */
  lemma WindsUp(read: Sync, ev: Evidence, calls: seq<Call>, devices: seq<Task>, reports: seq<Task>, call: Call,
    ev': Evidence)
    requires Accounts(read, ev, calls, devices, reports) && SameTasks(ev, ev')
    requires ev.failure.Some? && ev'.failure == ev.failure && ev.absent == ev'.absent && ev.found == ev'.found
    requires || (call.ReadClock? && ev'.planned == ev.planned && ev'.next == ev.next)
             || (call == Schedule(ev'.next) && !ev.planned && ev'.planned && ev.absent.None? && ev.found == "")
    ensures Accounts(read, ev', calls + [call], devices, reports)
  {
    OneMoreCall(calls, call);
    SameExpected(ev, ev', devices, reports);
  }

  lemma OnceMore(tasks: seq<Task>, ids: map<string, string>, report: bool, n: string, id: string)
    requires Once(tasks, ids, report) && n !in ids
    ensures Once(tasks + [NodeTask(report, n, id)], ids[n := id], report)
  {
    var all := tasks + [NodeTask(report, n, id)];
    assert all[..|tasks|] == tasks;
    assert ids[n := id] - {n} == ids;
  }

  lemma ClockAccounts(s: Sys, w: Worker, calls: seq<Call>, devices: seq<Task>, reports: seq<Task>)
    requires w.Busy? && Accounts(w.read, w.ev, calls, devices, reports)
    ensures Accounts(w.read, Learn(s, w.ev, ReadClock), calls + [ReadClock], devices, reports)
  {
    var ev' := Learn(s, w.ev, ReadClock);
    if w.ev.failure.None? {
      Stays(w.read, w.ev, calls, devices, reports, ReadClock, ev');
    } else {
      WindsUp(w.read, w.ev, calls, devices, reports, ReadClock, ev');
    }
  }

  /** A fatal failure: what the evidence becomes. */
  predicate Fails(ev: Evidence, f: Failure, ev': Evidence) {
    ev'.failure == Some(f) && SameTasks(ev, ev'.(next := ev.next)) && !ev'.planned
  }

  lemma DeviceFailureLearns(s: Sys, ev: Evidence, call: Call)
    requires (call.FindDevice? || call.PatchDevice? || call.CreateDevice?) && FailureOf(call).Some?
    ensures var ev' := Learn(s, ev, call);
      Fails(ev, FailureOf(call).value, ev') && ev'.absent.None? && ev'.found == ""
  {
    assert Learn(s, ev, call) == DeviceFailure(ev, call.key);
  }

  lemma FailureLearns(s: Sys, ev: Evidence, call: Call)
    requires !call.FindDevice? && !call.PatchDevice? && !call.CreateDevice? && FailureOf(call).Some? && ev.failure.None?
    ensures var ev' := Learn(s, ev, call);
      Fails(ev, FailureOf(call).value, ev') && ev'.absent == ev.absent && ev'.found == ev.found
  {
  }

  lemma FailureAccounts(s: Sys, w: Worker, call: Call, calls: seq<Call>, devices: seq<Task>, reports: seq<Task>)
    requires w.Busy? && CallEnabled(s, w, call) && Accounts(w.read, w.ev, calls, devices, reports)
    requires w.ev.failure.None? && w.ev.stage < SCHEDULED && FailureOf(call).Some?
    ensures Accounts(w.read, Learn(s, w.ev, call), calls + [call], devices, reports)
  {
    if call.FindDevice? || call.PatchDevice? || call.CreateDevice? {
      DeviceFailureLearns(s, w.ev, call);
    } else {
      FailureLearns(s, w.ev, call);
    }
    Stays(w.read, w.ev, calls, devices, reports, call, Learn(s, w.ev, call));
  }

  lemma FindAccounts(s: Sys, w: Worker, call: Call, calls: seq<Call>, devices: seq<Task>, reports: seq<Task>)
    requires w.Busy? && CallEnabled(s, w, call) && Accounts(w.read, w.ev, calls, devices, reports)
    requires call.FindDevice? && !call.answer.NoAnswer? && "" !in s.owner
    ensures Accounts(w.read, Learn(s, w.ev, call), calls + [call], devices, reports)
  {
    Stays(w.read, w.ev, calls, devices, reports, call, Learn(s, w.ev, call));
  }

  /** A device was patched or created. */
  lemma EnsuredAccounts(now: int, w: Worker, call: Call, key: DeviceKey, id: string, ev': Evidence,
                        calls: seq<Call>, devices: seq<Task>, reports: seq<Task>) returns (devices': seq<Task>)
    requires w.Busy? && Wanted(w, key) && Accounts(w.read, w.ev, calls, devices, reports)
    requires StageEvidence(now, w.read, w.ev)
    requires TaskOf(call) == Some(DeviceReady(key, id)) && FailureOf(call).None?
    requires ev' == Ensured(w.ev, key, id).(created := ev'.created)
    ensures Accounts(w.read, ev', calls + [call], devices', reports)
  {
    match key
    case OfCluster =>
      devices' := devices;
      Advances(w.read, w.ev, calls, devices, reports, call, ev', devices', reports);
    case OfNode(n) =>
      devices' := devices + [DeviceReady(key, id)];
      OnceMore(devices, w.ev.nodeIds, false, n, id);
      Advances(w.read, w.ev, calls, devices, reports, call, ev', devices', reports);
  }

  lemma EarlyAccounts(s: Sys, w: Worker, call: Call, calls: seq<Call>, devices: seq<Task>, reports: seq<Task>)
    requires w.Busy? && CallEnabled(s, w, call) && Accounts(w.read, w.ev, calls, devices, reports)
    requires !w.read.deleting && StageEvidence(s.now, w.read, w.ev) && TaskOf(call).Some?
    requires call.ReadSecret? || call.Ping? || call.Bootstrap? || call.TakeSnapshot? || call.EnsureWorkflows?
    ensures Accounts(w.read, Learn(s, w.ev, call), calls + [call], devices, reports)
  {
    Advances(w.read, w.ev, calls, devices, reports, call, Learn(s, w.ev, call), devices, reports);
  }

  lemma ClusterReportAccounts(s: Sys, w: Worker, call: Call, calls: seq<Call>, devices: seq<Task>, reports: seq<Task>)
    requires w.Busy? && CallEnabled(s, w, call) && Accounts(w.read, w.ev, calls, devices, reports)
    requires StageEvidence(s.now, w.read, w.ev) && call.ReportCluster? && call.ok
    ensures Accounts(w.read, Learn(s, w.ev, call), calls + [call], devices, reports)
  {
    var ev' := Learn(s, w.ev, call);
    assert ev'.nodeIds - ev'.unreported == map[];
    var before := ToDevices(ev'.bootstrapped, ev'.clusterId, ev'.snapshot, devices);
    assert before + [WorkflowsSettled(ev'.workflow), ClusterReported(ev'.clusterId)] + []
        == before + [WorkflowsSettled(ev'.workflow)] + [ClusterReported(ev'.clusterId)];
    Advances(w.read, w.ev, calls, devices, reports, call, ev', devices, reports);
  }

  lemma NodeReportAccounts(s: Sys, w: Worker, call: Call, calls: seq<Call>, devices: seq<Task>, reports: seq<Task>)
    returns (reports': seq<Task>)
    requires w.Busy? && CallEnabled(s, w, call) && Accounts(w.read, w.ev, calls, devices, reports)
    requires call.ReportNode?
    ensures Accounts(w.read, Learn(s, w.ev, call), calls + [call], devices, reports')
  {
    var ev, ev', n, id := w.ev, Learn(s, w.ev, call), call.node, call.id;
    reports' := reports + [NodeReported(n, id)];
    OnceMore(reports, ev.nodeIds - ev.unreported, true, n, id);
    assert ev'.nodeIds - ev'.unreported == (ev.nodeIds - ev.unreported)[n := id];
    Advances(w.read, ev, calls, devices, reports, call, ev', devices, reports');
  }

  lemma ScheduleAccounts(s: Sys, w: Worker, call: Call, calls: seq<Call>, devices: seq<Task>, reports: seq<Task>)
    requires w.Busy? && CallEnabled(s, w, call) && Accounts(w.read, w.ev, calls, devices, reports)
    requires call.Schedule? && (w.ev.failure.Some? || call.next.Some?)
    ensures Accounts(w.read, Learn(s, w.ev, call), calls + [call], devices, reports)
  {
    var ev' := Learn(s, w.ev, call);
    if w.ev.failure.Some? {
      WindsUp(w.read, w.ev, calls, devices, reports, call, ev');
    } else {
      Advances(w.read, w.ev, calls, devices, reports, call, ev', devices, reports);
    }
  }

  lemma DeviceAccounts(s: Sys, w: Worker, call: Call, calls: seq<Call>, devices: seq<Task>, reports: seq<Task>)
    returns (devices': seq<Task>)
    requires w.Busy? && CallEnabled(s, w, call) && Accounts(w.read, w.ev, calls, devices, reports)
    requires StageEvidence(s.now, w.read, w.ev) && (call.PatchDevice? || call.CreateDevice?) && FailureOf(call).None?
    ensures Accounts(w.read, Learn(s, w.ev, call), calls + [call], devices', reports)
  {
    devices' := EnsuredAccounts(s.now, w, call, call.key, call.id, Learn(s, w.ev, call), calls, devices, reports);
  }

  /** A call that leaves no failure behind. */
  lemma SuccessAccounts(s: Sys, w: Worker, call: Call, calls: seq<Call>, devices: seq<Task>, reports: seq<Task>)
    returns (devices': seq<Task>, reports': seq<Task>)
    requires w.Busy? && CallEnabled(s, w, call) && Accounts(w.read, w.ev, calls, devices, reports)
    requires !w.read.deleting && StageEvidence(s.now, w.read, w.ev) && "" !in s.owner
    requires Inner(call) && FailureOf(call).None?
    ensures Accounts(w.read, Learn(s, w.ev, call), calls + [call], devices', reports')
  {
    devices', reports' := devices, reports;
    if call.PatchDevice? || call.CreateDevice? {
      devices' := DeviceAccounts(s, w, call, calls, devices, reports);
    } else if call.FindDevice? {
      FindAccounts(s, w, call, calls, devices, reports);
    } else if call.ReportCluster? {
      ClusterReportAccounts(s, w, call, calls, devices, reports);
    } else if call.ReportNode? {
      reports' := NodeReportAccounts(s, w, call, calls, devices, reports);
    } else if call.Schedule? {
      ScheduleAccounts(s, w, call, calls, devices, reports);
    } else {
      EarlyAccounts(s, w, call, calls, devices, reports);
    }
  }

  lemma CallAccounts(s: Sys, w: Worker, call: Call, calls: seq<Call>, devices: seq<Task>, reports: seq<Task>)
    returns (devices': seq<Task>, reports': seq<Task>)
    requires w.Busy? && CallEnabled(s, w, call) && Accounts(w.read, w.ev, calls, devices, reports)
    requires !w.read.deleting && StageEvidence(s.now, w.read, w.ev) && "" !in s.owner
    requires Inner(call) || call.ReadClock?
    ensures Accounts(w.read, Learn(s, w.ev, call), calls + [call], devices', reports')
  {
    devices', reports' := devices, reports;
    if call.ReadClock? {
      ClockAccounts(s, w, calls, devices, reports);
    } else if FailureOf(call).None? {
      devices', reports' := SuccessAccounts(s, w, call, calls, devices, reports);
    } else if w.ev.failure.Some? {
      ScheduleAccounts(s, w, call, calls, devices, reports);
    } else {
      FailureAccounts(s, w, call, calls, devices, reports);
    }
  }

  // ---- Over runs ----

  /** The calls that the reconcile begun at `b` has made. */
  ghost function Calls(r: Run, b: nat, i: nat): seq<Call>
    requires b < i <= |r.steps|
  {
    if i == b + 1 then []
    else if r.steps[i - 1].Do? then Calls(r, b, i - 1) + [r.steps[i - 1].call]
    else Calls(r, b, i - 1)
  }

  lemma WorkerFacts(r: Run, i: nat)
    requires Valid(r) && i <= |r.steps| && At(r, i).worker.Busy?
    ensures StageEvidence(At(r, i).now, At(r, i).worker.read, At(r, i).worker.ev) && "" !in At(r, i).owner
  {
    StateAt(r, i);
  }

  /** Until a reconcile writes, its evidence is exactly what its calls returned. */
  lemma {:induction false} Trace(r: Run, b: nat, i: nat) returns (devices: seq<Task>, reports: seq<Task>)
    requires Valid(r) && b < i <= |r.steps| && BeganAt(r, b, i)
    requires At(r, i).worker.Busy? && !At(r, i).worker.halted && !r.steps[b].read.deleting
    ensures At(r, i).worker.read == r.steps[b].read
    ensures Accounts(r.steps[b].read, At(r, i).worker.ev, Calls(r, b, i), devices, reports)
  {
    BusySince(r, b, i);
    if i == b + 1 {
      FirstOfReconcile(r, b);
      NothingDone(r.steps[b].read);
      devices, reports := [], [];
    } else {
      BusySince(r, b, i - 1);
      WorkerNext(r, i - 1);
      devices, reports := Trace(r, b, i - 1);
      if r.steps[i - 1].Do? {
        WorkerFacts(r, i - 1);
        devices, reports := CallAccounts(At(r, i - 1), At(r, i - 1).worker, r.steps[i - 1].call, Calls(r, b, i - 1),
          devices, reports);
      }
    }
  }

  // ---- Prefixes of the canonical order ----

  lemma {:induction false} OnceJoin(a: seq<Task>, x: map<string, string>, b: seq<Task>, y: map<string, string>,
    report: bool)
    requires Once(a, x, report) && Once(b, y, report) && x.Keys !! y.Keys
    ensures Once(a + b, x + y, report)
    decreases |b|
  {
    if b == [] {
      assert a + b == a && x + y == x;
    } else {
      var n := NodeName(b[|b| - 1]);
      OnceJoin(a, x, b[..|b| - 1], y - {n}, report);
      assert (a + b)[..|a + b| - 1] == a + b[..|b| - 1];
      assert (x + y) - {n} == x + (y - {n});
    }
  }

  lemma {:induction false} SomeOrder(ids: map<string, string>, report: bool) returns (tasks: seq<Task>)
    ensures Once(tasks, ids, report)
    decreases |ids|
  {
    if ids == map[] {
      tasks := [];
    } else {
      var n :| n in ids;
      var rest := SomeOrder(ids - {n}, report);
      OnceMore(rest, ids - {n}, report, n, ids[n]);
      assert (ids - {n})[n := ids[n]] == ids;
      tasks := rest + [NodeTask(report, n, ids[n])];
    }
  }

  /** An order that goes on from `tasks`, with `n` next if it is still to come. */
  lemma GoOn(tasks: seq<Task>, x: map<string, string>, y: map<string, string>, report: bool, n: string)
    returns (all: seq<Task>)
    requires Once(tasks, x, report) && x.Keys !! y.Keys
    ensures Once(all, x + y, report) && tasks <= all
    ensures n in y ==> |tasks| < |all| && all[|tasks|] == NodeTask(report, n, y[n])
  {
    if n in y {
      var rest := SomeOrder(y - {n}, report);
      OnceMore(tasks, x, report, n, y[n]);
      OnceJoin(tasks + [NodeTask(report, n, y[n])], x[n := y[n]], rest, y - {n}, report);
      assert x[n := y[n]] + (y - {n}) == x + y;
      all := tasks + [NodeTask(report, n, y[n])] + rest;
    } else {
      var rest := SomeOrder(y, report);
      OnceJoin(tasks, x, rest, y, report);
      all := tasks + rest;
    }
  }

  /** A course that agrees with what is known so far and visits node `n` next. */
  predicate GoesOn(c: Course, read: Sync, ev: Evidence, devices: seq<Task>, reports: seq<Task>, n: string) {
    && WellFormed(c, read) && c.clusterId == ev.clusterId && c.workflow == ev.workflow && c.next == ev.next
    && (ev.stage >= NODES ==> c.ids.Keys == ev.snapshot && devices <= c.devices)
    && (ev.stage == NODES && n in ev.todo ==>
      |devices| < |c.devices| && c.devices[|devices|] == DeviceReady(OfNode(n), ""))
    && (ev.stage >= WORKFLOWS || (ev.stage == NODES && ev.todo == {}) ==> c.devices == devices)
    && (ev.stage >= REPORTED ==> reports <= c.reports && (ev.unreported == {} ==> reports == c.reports))
    && (ev.stage >= REPORTED && n in ev.unreported ==>
          n in ev.nodeIds && |reports| < |c.reports| && c.reports[|reports|] == NodeReported(n, ev.nodeIds[n]))
  }

  lemma ContinueDevices(now: int, read: Sync, ev: Evidence, devices: seq<Task>, n: string)
    returns (ids: map<string, string>, all: seq<Task>)
    requires StageEvidence(now, read, ev) && Once(devices, ev.nodeIds, false)
    ensures Once(all, ids, false) && devices <= all
    ensures ev.stage >= NODES ==> ids.Keys == ev.snapshot
    ensures ev.stage == NODES && n in ev.todo ==> |devices| < |all| && all[|devices|] == DeviceReady(OfNode(n), "")
    ensures ev.stage != NODES || ev.todo == {} ==> ids == ev.nodeIds && all == devices
  {
    if ev.stage == NODES && ev.todo != {} {
      var todo := map k | k in ev.todo :: "";
      ids := ev.nodeIds + todo;
      all := GoOn(devices, ev.nodeIds, todo, false, n);
    } else {
      ids, all := ev.nodeIds, devices;
    }
  }

  lemma ContinueReports(ev: Evidence, reports: seq<Task>, n: string) returns (all: seq<Task>)
    requires ev.unreported <= ev.nodeIds.Keys && Once(reports, ev.nodeIds - ev.unreported, true)
    ensures Once(all, ev.nodeIds, true) && reports <= all && (ev.unreported == {} ==> reports == all)
    ensures n in ev.unreported ==> |reports| < |all| && all[|reports|] == NodeReported(n, ev.nodeIds[n])
  {
    if ev.unreported == {} {
      assert ev.nodeIds - ev.unreported == ev.nodeIds;
      all := reports;
    } else {
      var rest := map k | k in ev.unreported :: ev.nodeIds[k];
      all := GoOn(reports, ev.nodeIds - ev.unreported, rest, true, n);
      assert (ev.nodeIds - ev.unreported) + rest == ev.nodeIds;
    }
  }

  lemma Continue(now: int, read: Sync, ev: Evidence, devices: seq<Task>, reports: seq<Task>, n: string)
    returns (c: Course)
    requires StageEvidence(now, read, ev) && Visited(ev, devices, reports)
    ensures GoesOn(c, read, ev, devices, reports, n)
  {
    var ids, all := ContinueDevices(now, read, ev, devices, n);
    var tell;
    if ev.stage < REPORTED {
      tell := SomeOrder(ids, true);
    } else {
      tell := ContinueReports(ev, reports, n);
    }
    c := Course(!IsTrue(read.status.conditions, GEABootstrapped), ev.clusterId, ids, all, ev.workflow, tell, ev.next);
  }

  // What comes next, part by part: `a + [t] <= b` says that `t` follows the prefix `a` of `b`.

  lemma AfterCluster(c: Course)
    ensures ToCluster(c.boot, c.clusterId) + [SnapshotTaken(c.ids.Keys)] <= Tasks(c)
  {
    var head := ToCluster(c.boot, c.clusterId) + [SnapshotTaken(c.ids.Keys)];
    var middle := [WorkflowsSettled(c.workflow), ClusterReported(c.clusterId)];
    assert Tasks(c) == head + (c.devices + middle + c.reports + [Scheduled(c.next)]);
  }

  lemma NextOf(x: seq<Task>, part: seq<Task>, all: seq<Task>, rest: seq<Task>)
    requires part <= all && rest != []
    ensures x + part + [if |part| < |all| then all[|part|] else rest[0]] <= x + all + rest
  {
  }

  lemma AfterDevices(c: Course, devices: seq<Task>)
    requires devices <= c.devices
    ensures ToDevices(c.boot, c.clusterId, c.ids.Keys, devices)
      + [if |devices| < |c.devices| then c.devices[|devices|] else WorkflowsSettled(c.workflow)] <= Tasks(c)
  {
    var rest := [WorkflowsSettled(c.workflow), ClusterReported(c.clusterId)] + c.reports + [Scheduled(c.next)];
    NextOf(ToCluster(c.boot, c.clusterId) + [SnapshotTaken(c.ids.Keys)], devices, c.devices, rest);
    assert Tasks(c) == ToDevices(c.boot, c.clusterId, c.ids.Keys, c.devices) + rest;
  }

  lemma AfterWorkflows(c: Course)
    ensures ToDevices(c.boot, c.clusterId, c.ids.Keys, c.devices)
      + [WorkflowsSettled(c.workflow)] + [ClusterReported(c.clusterId)] <= Tasks(c)
  {
    var part := ToDevices(c.boot, c.clusterId, c.ids.Keys, c.devices) + [WorkflowsSettled(c.workflow)];
    assert Tasks(c) == part + [ClusterReported(c.clusterId)] + (c.reports + [Scheduled(c.next)]);
  }

  lemma AfterReports(c: Course, reports: seq<Task>)
    requires reports <= c.reports
    ensures ToReports(c.boot, c.clusterId, c.ids.Keys, c.devices, c.workflow, reports)
      + [if |reports| < |c.reports| then c.reports[|reports|] else Scheduled(c.next)] <= Tasks(c)
  {
    var before := ToDevices(c.boot, c.clusterId, c.ids.Keys, c.devices);
    NextOf(before + [WorkflowsSettled(c.workflow), ClusterReported(c.clusterId)], reports, c.reports,
      [Scheduled(c.next)]);
  }

  /** The task that comes after what `ev` stands for. */
  function NextTask(c: Course, ev: Evidence, devices: seq<Task>, reports: seq<Task>): Task {
    if ev.stage == STARTED then SecretRead
    else if ev.stage == SECRET then Pinged
    else if ev.stage == PINGED then DeviceReady(OfCluster, c.clusterId)
    else if ev.stage == CLUSTER then if c.boot && !ev.bootstrapped then Bootstrapped else SnapshotTaken(c.ids.Keys)
    else if ev.stage == NODES then if |devices| < |c.devices| then c.devices[|devices|]
      else WorkflowsSettled(c.workflow)
    else if ev.stage == WORKFLOWS then ClusterReported(c.clusterId)
    else if |reports| < |c.reports| then c.reports[|reports|] else Scheduled(c.next)
  }

  lemma OnCourseEarly(now: int, read: Sync, ev: Evidence, devices: seq<Task>, reports: seq<Task>, c: Course, n: string)
    requires StageEvidence(now, read, ev) && GoesOn(c, read, ev, devices, reports, n) && ev.stage <= CLUSTER
    requires ev.bootstrapped ==> !IsTrue(read.status.conditions, GEABootstrapped)
    ensures Expected(ev, devices, reports) + [NextTask(c, ev, devices, reports)]
      <= ToCluster(c.boot, c.clusterId) + [SnapshotTaken(c.ids.Keys)]
  {
  }

  lemma OnCourse(now: int, read: Sync, ev: Evidence, calls: seq<Call>, devices: seq<Task>, reports: seq<Task>,
                 c: Course, n: string)
    requires StageEvidence(now, read, ev) && Accounts(read, ev, calls, devices, reports)
    requires GoesOn(c, read, ev, devices, reports, n)
    ensures ev.stage < SCHEDULED ==> Done(calls) + [NextTask(c, ev, devices, reports)] <= Tasks(c)
    ensures ev.stage == SCHEDULED ==> Done(calls) == Tasks(c)
  {
    if ev.stage <= CLUSTER {
      AfterCluster(c);
      OnCourseEarly(now, read, ev, devices, reports, c, n);
    } else if ev.stage == NODES {
      AfterDevices(c, devices);
    } else if ev.stage == WORKFLOWS {
      AfterWorkflows(c);
    } else if ev.stage == REPORTED {
      AfterReports(c, reports);
    }
  }

  lemma RightTask(s: Sys, w: Worker, call: Call, calls: seq<Call>, devices: seq<Task>, reports: seq<Task>, c: Course)
    requires w.Busy? && CallEnabled(s, w, call) && !w.read.deleting && StageEvidence(s.now, w.read, w.ev)
    requires Accounts(w.read, w.ev, calls, devices, reports) && w.ev.failure.None? && Inner(call)
    requires GoesOn(c, w.read, w.ev, devices, reports, NodeOf(call))
    ensures w.ev.stage < SCHEDULED && Attempts(call, NextTask(c, w.ev, devices, reports))
  {
  }

  /** The node a call is about. */
  function NodeOf(call: Call): string {
    match call
    case FindDevice(OfNode(n), _) => n
    case PatchDevice(OfNode(n), _, _) => n
    case CreateDevice(OfNode(n), _, _, _) => n
    case ReportNode(n, _, _) => n
    case _ => ""
  }

  /** What a sync may do next, given the calls it has made and a course it is on. */
  predicate InOrder(calls: seq<Call>, call: Call, c: Course) {
    match FirstFailure(calls)
    case Some(_) =>
      || (call.Schedule? && Aftermath(calls) == [])
      || (call.WriteStatus? && |Aftermath(calls)| == 1 && Aftermath(calls)[0].Schedule?)
    case None =>
      if Inner(call) then |Done(calls)| < |Tasks(c)| && Attempts(call, Tasks(c)[|Done(calls)|])
      else if call.WriteStatus? && call.status.phase == Active then Done(calls) == Tasks(c)
      else Done(calls) == []
  }

  /** A device is looked up once, and what was found decides between patching and creating it. */
  predicate AfterLookup(latest: Option<Call>, call: Call) {
    && (call.FindDevice? ==> latest.Some? && !latest.value.FindDevice?)
    && (call.PatchDevice? ==> latest.Some? && latest.value.FindDevice? && latest.value.answer == Found(call.id))
    && (call.CreateDevice? ==> latest == Some(FindDevice(call.key, NotFound)))
  }

  /** After a failure, or with a call that ends the reconcile. */
  lemma LastInOrder(s: Sys, w: Worker, call: Call, calls: seq<Call>, devices: seq<Task>, reports: seq<Task>, c: Course)
    requires w.Busy? && CallEnabled(s, w, call) && !w.read.deleting && !call.ReadClock?
    requires StageEvidence(s.now, w.read, w.ev) && Accounts(w.read, w.ev, calls, devices, reports)
    requires w.ev.failure.Some? || !Inner(call)
    requires w.ev.stage == SCHEDULED ==> Done(calls) == Tasks(c)
    ensures InOrder(calls, call, c)
  {
  }

  lemma CallInOrder(s: Sys, w: Worker, call: Call, calls: seq<Call>, devices: seq<Task>, reports: seq<Task>, c: Course)
    requires w.Busy? && CallEnabled(s, w, call) && !w.read.deleting && !call.ReadClock?
    requires StageEvidence(s.now, w.read, w.ev) && Accounts(w.read, w.ev, calls, devices, reports)
    requires GoesOn(c, w.read, w.ev, devices, reports, NodeOf(call))
    ensures Done(calls) <= Tasks(c) && InOrder(calls, call, c)
  {
    OnCourse(s.now, w.read, w.ev, calls, devices, reports, c, NodeOf(call));
    if Inner(call) && w.ev.failure.None? {
      RightTask(s, w, call, calls, devices, reports, c);
    } else {
      LastInOrder(s, w, call, calls, devices, reports, c);
    }
  }

  lemma {:induction false} LatestAfterDone(calls: seq<Call>)
    ensures Done(calls) != [] ==> Latest(calls).Some?
  {
    if calls != [] { LatestAfterDone(calls[..|calls| - 1]); }
  }

  lemma LookedUp(s: Sys, w: Worker, call: Call, calls: seq<Call>, devices: seq<Task>, reports: seq<Task>)
    requires w.Busy? && CallEnabled(s, w, call) && Accounts(w.read, w.ev, calls, devices, reports)
    ensures AfterLookup(Latest(calls), call)
  {
    LatestAfterDone(calls);
  }

  /** The tasks that the calls of a sync have completed are a prefix of the canonical order `Tasks(c)`.
      Every further call is an attempt at the next task, until the first failure; after it the next time
      is asked for once and the status written. A success is stored only with all tasks completed. */
  lemma PipelineOrder(r: Run, b: nat, k: nat) returns (c: Course)
    requires Valid(r) && b < k < |r.steps| && BeganAt(r, b, k) && !r.steps[b].read.deleting
    requires r.steps[k].Do? && !r.steps[k].call.ReadClock?
    ensures WellFormed(c, r.steps[b].read) && Done(Calls(r, b, k)) <= Tasks(c)
    ensures InOrder(Calls(r, b, k), r.steps[k].call, c) && AfterLookup(Latest(Calls(r, b, k)), r.steps[k].call)
  {
    BusySince(r, b, k);
    WorkerNext(r, k);
    WorkerFacts(r, k);
    var devices, reports := Trace(r, b, k);
    var s, w, call := At(r, k), At(r, k).worker, r.steps[k].call;
    c := Continue(s.now, w.read, w.ev, devices, reports, NodeOf(call));
    CallInOrder(s, w, call, Calls(r, b, k), devices, reports, c);
    LookedUp(s, w, call, Calls(r, b, k), devices, reports);
  }

  // ---- No task twice ----

  /** Two tasks that would be one step done twice. */
  predicate SameJob(a: Task, b: Task) {
    match a
    case DeviceReady(key, _) => b.DeviceReady? && b.key == key
    case NodeReported(n, _) => b.NodeReported? && b.node == n
    case _ => Rank(a) == Rank(b)
  }

  function Rank(t: Task): nat {
    match t
    case SecretRead => 0
    case Pinged => 1
    case DeviceReady(key, _) => if key.OfCluster? then 2 else 5
    case Bootstrapped => 3
    case SnapshotTaken(_) => 4
    case WorkflowsSettled(_) => 6
    case ClusterReported(_) => 7
    case NodeReported(_, _) => 8
    case Scheduled(_) => 9
  }

  lemma {:induction false} OnceMember(tasks: seq<Task>, ids: map<string, string>, report: bool, i: nat)
    requires Once(tasks, ids, report) && i < |tasks|
    ensures NodeName(tasks[i]) in ids && tasks[i] == NodeTask(report, NodeName(tasks[i]), ids[NodeName(tasks[i])])
  {
    if i < |tasks| - 1 {
      OnceMember(tasks[..|tasks| - 1], ids - {NodeName(tasks[|tasks| - 1])}, report, i);
    }
  }

  lemma {:induction false} OnceDistinct(tasks: seq<Task>, ids: map<string, string>, report: bool, i: nat, j: nat)
    requires Once(tasks, ids, report) && i < j < |tasks|
    ensures NodeName(tasks[i]) != NodeName(tasks[j])
  {
    var rest := ids - {NodeName(tasks[|tasks| - 1])};
    if j < |tasks| - 1 {
      OnceDistinct(tasks[..|tasks| - 1], rest, report, i, j);
    } else {
      OnceMember(tasks[..|tasks| - 1], rest, report, i);
    }
  }

  lemma {:induction false} OnceAll(tasks: seq<Task>, ids: map<string, string>, report: bool, n: string) returns (i: nat)
    requires Once(tasks, ids, report) && n in ids
    ensures i < |tasks| && tasks[i] == NodeTask(report, n, ids[n])
  {
    var last := NodeName(tasks[|tasks| - 1]);
    if n == last {
      i := |tasks| - 1;
    } else {
      i := OnceAll(tasks[..|tasks| - 1], ids - {last}, report, n);
    }
  }

  lemma TaskAt(c: Course, i: nat)
    requires i < |Tasks(c)|
    ensures var head := |ToCluster(c.boot, c.clusterId)| + 1;
      var mid := head + |c.devices|; var end := mid + 2 + |c.reports|;
      && (i < head ==> Tasks(c)[i] == (ToCluster(c.boot, c.clusterId) + [SnapshotTaken(c.ids.Keys)])[i])
      && (head <= i < mid ==> Tasks(c)[i] == c.devices[i - head])
      && (mid <= i < mid + 2 ==> Tasks(c)[i] == [WorkflowsSettled(c.workflow), ClusterReported(c.clusterId)][i - mid])
      && (mid + 2 <= i < end ==> Tasks(c)[i] == c.reports[i - mid - 2])
      && (i >= end ==> i == end && Tasks(c)[i] == Scheduled(c.next))
  {
  }

  /** Where the ranks lie in a course. */
  lemma RankAt(c: Course, read: Sync, i: nat)
    requires WellFormed(c, read) && i < |Tasks(c)|
    ensures var head := |ToCluster(c.boot, c.clusterId)| + 1;
      var mid := head + |c.devices|; var end := mid + 2 + |c.reports|;
      && (i < head ==> Rank(Tasks(c)[i]) == if i < 3 || c.boot then i else 4)
      && (head <= i < mid ==> Rank(Tasks(c)[i]) == 5)
      && (mid <= i < mid + 2 ==> Rank(Tasks(c)[i]) == 6 + i - mid)
      && (mid + 2 <= i < end ==> Rank(Tasks(c)[i]) == 8)
      && (i >= end ==> i == end && Rank(Tasks(c)[i]) == 9)
  {
    TaskAt(c, i);
    var head := |ToCluster(c.boot, c.clusterId)| + 1;
    var mid := head + |c.devices|;
    if head <= i < mid { OnceMember(c.devices, c.ids, false, i - head); }
    if mid + 2 <= i < mid + 2 + |c.reports| { OnceMember(c.reports, c.ids, true, i - mid - 2); }
  }

  /** Two nodes of one part of a course differ. */
  lemma NodesDiffer(c: Course, tasks: seq<Task>, report: bool, i: nat, j: nat)
    requires Once(tasks, c.ids, report) && i < j < |tasks|
    ensures !SameJob(tasks[i], tasks[j])
  {
    OnceMember(tasks, c.ids, report, i);
    OnceMember(tasks, c.ids, report, j);
    OnceDistinct(tasks, c.ids, report, i, j);
  }

  /** No step of a course, and no node in it, comes up twice. */
  lemma EachTaskOnce(c: Course, read: Sync, i: nat, j: nat)
    requires WellFormed(c, read) && i < j < |Tasks(c)|
    ensures !SameJob(Tasks(c)[i], Tasks(c)[j]) && Rank(Tasks(c)[i]) <= Rank(Tasks(c)[j])
  {
    RankAt(c, read, i);
    RankAt(c, read, j);
    TaskAt(c, i);
    TaskAt(c, j);
    var head := |ToCluster(c.boot, c.clusterId)| + 1;
    var mid := head + |c.devices|;
    if head <= i && j < mid {
      NodesDiffer(c, c.devices, false, i - head, j - head);
    } else if mid + 2 <= i && j < mid + 2 + |c.reports| {
      NodesDiffer(c, c.reports, true, i - mid - 2, j - mid - 2);
    } else {
      assert Rank(Tasks(c)[i]) < Rank(Tasks(c)[j]);
    }
  }

  // ---- What was completed ----

  /** The step behind a condition, told from the tasks completed. */
  predicate Accomplished(t: CondType, done: seq<Task>) {
    match t
    case GEABootstrapped => Bootstrapped in done
    case DevicesProvisioned =>
      exists i | 0 <= i < |done| :: done[i].SnapshotTaken? && forall n | n in done[i].nodes ::
        HasDevice(done, OfNode(n))
    case WorkflowDeployed => exists i | 0 <= i < |done| :: done[i].WorkflowsSettled? && done[i].reason.Some?
    case GEAReachable => exists i | 0 <= i < |done| :: done[i].ClusterReported?
    case LastSyncSucceeded => false
  }

  predicate HasDevice(done: seq<Task>, key: DeviceKey) {
    exists i | 0 <= i < |done| :: done[i].DeviceReady? && done[i].key == key
  }

  /** The evidence of a reconcile, told from the tasks its calls completed. */
  predicate Real(ev: Evidence, done: seq<Task>) {
    && (ev.stage >= SECRET ==> SecretRead in done) && (ev.stage >= PINGED ==> Pinged in done)
    && (ev.stage >= CLUSTER ==> DeviceReady(OfCluster, ev.clusterId) in done)
    && (ev.bootstrapped && ev.stage >= CLUSTER ==> Bootstrapped in done)
    && (ev.stage >= NODES ==> SnapshotTaken(ev.snapshot) in done)
    && (ev.stage >= NODES ==> forall n | n in ev.nodeIds :: DeviceReady(OfNode(n), ev.nodeIds[n]) in done)
    && (ev.stage >= WORKFLOWS ==> WorkflowsSettled(ev.workflow) in done)
    && (ev.stage >= REPORTED ==> ClusterReported(ev.clusterId) in done)
  }

  lemma DevicesIn(ev: Evidence, devices: seq<Task>, done: seq<Task>)
    requires Once(devices, ev.nodeIds, false) && forall t | t in devices :: t in done
    ensures forall n | n in ev.nodeIds :: DeviceReady(OfNode(n), ev.nodeIds[n]) in done
  {
    forall n | n in ev.nodeIds ensures DeviceReady(OfNode(n), ev.nodeIds[n]) in done {
      var i := OnceAll(devices, ev.nodeIds, false, n);
      assert devices[i] in devices;
    }
  }

  lemma ExpectedIsReal(ev: Evidence, devices: seq<Task>, reports: seq<Task>)
    requires ev.stage <= SCHEDULED && Visited(ev, devices, reports)
    ensures Real(ev, Expected(ev, devices, reports))
  {
    var done := Expected(ev, devices, reports);
    if ev.stage >= CLUSTER {
      assert ToCluster(ev.bootstrapped, ev.clusterId)[2] == DeviceReady(OfCluster, ev.clusterId);
      assert ToCluster(ev.bootstrapped, ev.clusterId) <= done;
    }
    if ev.stage >= NODES {
      assert forall t | t in devices :: t in done;
      DevicesIn(ev, devices, done);
    }
  }

  lemma {:induction false} OnlyNodeTasks(tasks: seq<Task>, ids: map<string, string>, report: bool, t: Task)
    requires Once(tasks, ids, report) && t in tasks
    ensures NodeName(t) in ids && t == NodeTask(report, NodeName(t), ids[NodeName(t)])
  {
    var i :| 0 <= i < |tasks| && tasks[i] == t;
    OnceMember(tasks, ids, report, i);
  }

  /** A task that evidence stands for says what the evidence says. */
  lemma OnlyReal(ev: Evidence, devices: seq<Task>, reports: seq<Task>, t: Task)
    requires ev.stage <= SCHEDULED && Visited(ev, devices, reports) && t in Expected(ev, devices, reports)
    ensures t.Bootstrapped? ==> ev.bootstrapped
    ensures t.SnapshotTaken? ==> ev.stage >= NODES && t.nodes == ev.snapshot
    ensures t.DeviceReady? && t.key.OfNode? ==> t.key.node in ev.nodeIds && t.id == ev.nodeIds[t.key.node]
    ensures t.DeviceReady? && t.key.OfCluster? ==> ev.stage >= CLUSTER && t.id == ev.clusterId
    ensures t.WorkflowsSettled? ==> ev.stage >= WORKFLOWS && t.reason == ev.workflow
    ensures t.ClusterReported? ==> ev.stage >= REPORTED
  {
    if t in devices && ev.stage >= NODES { OnlyNodeTasks(devices, ev.nodeIds, false, t); }
    if t in reports && ev.stage >= REPORTED { OnlyNodeTasks(reports, ev.nodeIds - ev.unreported, true, t); }
  }

  lemma DevicesAccomplished(now: int, read: Sync, ev: Evidence, devices: seq<Task>, reports: seq<Task>)
    requires StageEvidence(now, read, ev) && ev.stage <= SCHEDULED && Visited(ev, devices, reports)
    ensures Completed(DevicesProvisioned, ev) <==> Accomplished(DevicesProvisioned, Expected(ev, devices, reports))
  {
    var done := Expected(ev, devices, reports);
    ExpectedIsReal(ev, devices, reports);
    if Completed(DevicesProvisioned, ev) {
      var i :| 0 <= i < |done| && done[i] == SnapshotTaken(ev.snapshot);
      forall n | n in done[i].nodes ensures HasDevice(done, OfNode(n)) {
        var j :| 0 <= j < |done| && done[j] == DeviceReady(OfNode(n), ev.nodeIds[n]);
      }
    }
    if Accomplished(DevicesProvisioned, done) {
      var i :| 0 <= i < |done| && done[i].SnapshotTaken? && forall n | n in done[i].nodes :: HasDevice(done, OfNode(n));
      OnlyReal(ev, devices, reports, done[i]);
      forall n | n in ev.todo ensures false {
        assert HasDevice(done, OfNode(n));
        var j :| 0 <= j < |done| && done[j].DeviceReady? && done[j].key == OfNode(n);
        OnlyReal(ev, devices, reports, done[j]);
      }
    }
  }

  /** What a reconcile takes for completed its calls have completed, and the other way round. */
  lemma CompletedMeans(now: int, read: Sync, ev: Evidence, devices: seq<Task>, reports: seq<Task>, t: CondType)
    requires StageEvidence(now, read, ev) && ev.stage <= SCHEDULED && Visited(ev, devices, reports)
    ensures Completed(t, ev) <==> Accomplished(t, Expected(ev, devices, reports))
  {
    var done := Expected(ev, devices, reports);
    DevicesAccomplished(now, read, ev, devices, reports);
    ExpectedIsReal(ev, devices, reports);
    if t != DevicesProvisioned && Accomplished(t, done) {
      var i :| 0 <= i < |done| && match t
                                  case GEABootstrapped => done[i].Bootstrapped?
                                  case WorkflowDeployed => done[i].WorkflowsSettled? && done[i].reason.Some?
                                  case GEAReachable => done[i].ClusterReported?
                                  case _ => false;
      OnlyReal(ev, devices, reports, done[i]);
    }
  }

  // ---- Over runs, continued ----

  predicate Achieved(calls: seq<Call>, t: Task) { exists k | 0 <= k < |calls| :: TaskOf(calls[k]) == Some(t) }

  lemma AllAchieved(calls: seq<Call>, t: Task)
    requires t in Done(calls)
    ensures Achieved(calls, t)
  {
    var j :| 0 <= j < |Done(calls)| && Done(calls)[j] == t;
    var k := DoneByCall(calls, j);
  }

  lemma AccountsAreReal(now: int, read: Sync, ev: Evidence, calls: seq<Call>, devices: seq<Task>, reports: seq<Task>)
    requires StageEvidence(now, read, ev) && Accounts(read, ev, calls, devices, reports)
    ensures Real(ev, Done(calls)) && ev.failure == FirstFailure(calls)
    ensures forall t | t in Done(calls) :: Achieved(calls, t)
    ensures forall t :: Completed(t, ev) <==> Accomplished(t, Done(calls))
  {
    ExpectedIsReal(ev, devices, reports);
    forall t | t in Done(calls) ensures Achieved(calls, t) { AllAchieved(calls, t); }
    forall t ensures Completed(t, ev) <==> Accomplished(t, Done(calls)) {
      CompletedMeans(now, read, ev, devices, reports, t);
    }
  }

  /** Up to its write, what a reconcile of a resource not being deleted knows of its own progress was
      answered by its own calls, and the failure it knows of is the first that they met. The instants, the
      next time and the created devices it knows of come from its own calls at all times, and it counts as
      saved exactly if a write of it took effect. */
  lemma EvidenceIsReal(r: Run, b: nat, i: nat)
    requires Valid(r) && b < i <= |r.steps| && BeganAt(r, b, i)
    ensures At(r, i).worker.Busy? && Tied(r, b, i, At(r, i).worker.ev)
    ensures At(r, i).worker.saved <==> Wrote(r, b, i)
    ensures !At(r, i).worker.halted && !r.steps[b].read.deleting ==>
      var ev, calls := At(r, i).worker.ev, Calls(r, b, i);
      && Real(ev, Done(calls)) && ev.failure == FirstFailure(calls)
      && (forall t | t in Done(calls) :: Achieved(calls, t))
      && (forall t :: Completed(t, ev) <==> Accomplished(t, Done(calls)))
  {
    EvidenceIsTied(r, b, i);
    SavedMeans(r, b, i);
    if !At(r, i).worker.halted && !r.steps[b].read.deleting { ProgressIsReal(r, b, i); }
  }

  lemma ProgressIsReal(r: Run, b: nat, i: nat)
    requires Valid(r) && b < i <= |r.steps| && BeganAt(r, b, i) && !r.steps[b].read.deleting
    requires At(r, i).worker.Busy? && !At(r, i).worker.halted
    ensures var ev, calls := At(r, i).worker.ev, Calls(r, b, i);
      && Real(ev, Done(calls)) && ev.failure == FirstFailure(calls)
      && (forall t | t in Done(calls) :: Achieved(calls, t))
      && (forall t :: Completed(t, ev) <==> Accomplished(t, Done(calls)))
  {
    var devices, reports := Trace(r, b, i);
    WorkerFacts(r, i);
    AccountsAreReal(At(r, i).now, r.steps[b].read, At(r, i).worker.ev, Calls(r, b, i), devices, reports);
  }

  // ---- What is written ----

  predicate ClusterTold(b: Status, done: seq<Task>, st: Status) {
    if HasDevice(done, OfCluster) then DeviceReady(OfCluster, st.clusterDeviceId) in done
    else st.clusterDeviceId == b.clusterDeviceId
  }

  predicate NodeTold(b: Status, done: seq<Task>, st: Status, n: string) {
    if HasDevice(done, OfNode(n)) then n in st.nodeDevices && DeviceReady(OfNode(n), st.nodeDevices[n]) in done
    else (n in st.nodeDevices <==> n in b.nodeDevices)
         && (n in st.nodeDevices ==> st.nodeDevices[n] == b.nodeDevices[n])
  }

  /** The recorded ids: those of the devices this sync has ensured, and otherwise as read. */
  ghost predicate IdsTold(b: Status, done: seq<Task>, st: Status) {
    ClusterTold(b, done, st) && forall n :: NodeTold(b, done, st, n)
  }

  /** The condition of a step completed in this sync is True, with the reason of its success. */
  predicate ToldTrue(t: CondType, done: seq<Task>, c: Cond) {
    match t
    case GEABootstrapped => c == Cond(true, BootstrapComplete)
    case DevicesProvisioned => c == Cond(true, Provisioned)
    case WorkflowDeployed => c.ok && WorkflowsSettled(Some(c.reason)) in done
    case GEAReachable => c == Cond(true, Reachable)
    case LastSyncSucceeded => false
  }

  /** A condition that the outcome of the sync does not decide: told by the completed steps, or else as read. */
  predicate ToldCond(b: Status, done: seq<Task>, conds: map<CondType, Cond>, t: CondType) {
    if Accomplished(t, done) then t in conds && ToldTrue(t, done, conds[t])
    else (t in conds <==> t in b.conditions) && (t in conds ==> conds[t] == b.conditions[t])
  }

  /** What a status tells about condition `t` after a sync that read `b`, completed `done` and failed with
      `f`: the condition of the failing step and LastSyncSucceeded are False with the failure's reason,
      those of the steps completed in this sync are True, all others are as read. */
  predicate Framed(b: Status, done: seq<Task>, f: Failure, conds: map<CondType, Cond>, t: CondType) {
    if t == f.cond || t == LastSyncSucceeded then t in conds && conds[t] == Cond(false, f.reason)
    else ToldCond(b, done, conds, t)
  }

  lemma HasIt(done: seq<Task>, key: DeviceKey, id: string)
    requires DeviceReady(key, id) in done
    ensures HasDevice(done, key)
  {
    var i :| 0 <= i < |done| && done[i] == DeviceReady(key, id);
  }

  lemma ClusterIdTold(read: Sync, ev: Evidence, devices: seq<Task>, reports: seq<Task>)
    requires ev.stage <= SCHEDULED && Visited(ev, devices, reports) && (ev.stage < CLUSTER ==> ev.clusterId == "")
    requires ev.stage >= CLUSTER ==> ev.clusterId != ""
    ensures ClusterTold(read.status, Expected(ev, devices, reports), Progress(read.status, ev))
  {
    var done := Expected(ev, devices, reports);
    ExpectedIsReal(ev, devices, reports);
    if ev.stage >= CLUSTER { HasIt(done, OfCluster, ev.clusterId); }
    if HasDevice(done, OfCluster) {
      var i :| 0 <= i < |done| && done[i].DeviceReady? && done[i].key == OfCluster;
      OnlyReal(ev, devices, reports, done[i]);
    }
  }

  lemma NodeIdTold(read: Sync, ev: Evidence, devices: seq<Task>, reports: seq<Task>, n: string)
    requires ev.stage <= SCHEDULED && Visited(ev, devices, reports) && (ev.stage < NODES ==> ev.nodeIds == map[])
    ensures NodeTold(read.status, Expected(ev, devices, reports), Progress(read.status, ev), n)
  {
    var done := Expected(ev, devices, reports);
    ExpectedIsReal(ev, devices, reports);
    if n in ev.nodeIds { HasIt(done, OfNode(n), ev.nodeIds[n]); }
    if HasDevice(done, OfNode(n)) {
      var i :| 0 <= i < |done| && done[i].DeviceReady? && done[i].key == OfNode(n);
      OnlyReal(ev, devices, reports, done[i]);
    }
  }

  lemma ProgressTold(now: int, read: Sync, ev: Evidence, calls: seq<Call>, devices: seq<Task>, reports: seq<Task>)
    requires StageEvidence(now, read, ev) && Accounts(read, ev, calls, devices, reports)
    ensures IdsTold(read.status, Done(calls), Progress(read.status, ev))
  {
    ClusterIdTold(read, ev, devices, reports);
    forall n ensures NodeTold(read.status, Done(calls), Progress(read.status, ev), n) {
      NodeIdTold(read, ev, devices, reports, n);
    }
  }

  lemma CondTold(now: int, read: Sync, ev: Evidence, devices: seq<Task>, reports: seq<Task>, t: CondType)
    requires StageEvidence(now, read, ev) && ev.stage <= SCHEDULED && Visited(ev, devices, reports)
    requires t != LastSyncSucceeded
    ensures ToldCond(read.status, Expected(ev, devices, reports), ProgressConds(read.status.conditions, ev), t)
  {
    CompletedMeans(now, read, ev, devices, reports, t);
    ExpectedIsReal(ev, devices, reports);
  }

  predicate Succeeded(b: Status, done: seq<Task>, conds: map<CondType, Cond>, t: CondType) {
    if t == LastSyncSucceeded then t in conds && conds[t] == Cond(true, SyncComplete) else ToldCond(b, done, conds, t)
  }

  lemma SameIds(b: Status, done: seq<Task>, st: Status, st': Status)
    requires IdsTold(b, done, st) && st'.clusterDeviceId == st.clusterDeviceId && st'.nodeDevices == st.nodeDevices
    ensures IdsTold(b, done, st')
  {
    forall n ensures NodeTold(b, done, st', n) { assert NodeTold(b, done, st, n); }
  }

  lemma OutcomeTold(b: Status, done: seq<Task>, ev: Evidence, f: Failure, t: CondType)
    requires t != LastSyncSucceeded ==> ToldCond(b, done, ProgressConds(b.conditions, ev), t)
    ensures Framed(b, done, f, DegradedStatus(b, ev, f).conditions, t)
    ensures Succeeded(b, done, ActiveStatus(b, ev).conditions, t)
  {
    var c := ProgressConds(b.conditions, ev);
    assert Framed(b, done, f, c[f.cond := Cond(false, f.reason)][LastSyncSucceeded := Cond(false, f.reason)], t);
    assert Succeeded(b, done, c[LastSyncSucceeded := Cond(true, SyncComplete)], t);
  }

  lemma WritesTold(now: int, read: Sync, ev: Evidence, calls: seq<Call>, devices: seq<Task>, reports: seq<Task>,
                   f: Failure, t: CondType)
    requires StageEvidence(now, read, ev) && Accounts(read, ev, calls, devices, reports)
    ensures IdsTold(read.status, Done(calls), DegradedStatus(read.status, ev, f))
    ensures IdsTold(read.status, Done(calls), ActiveStatus(read.status, ev))
    ensures Framed(read.status, Done(calls), f, DegradedStatus(read.status, ev, f).conditions, t)
    ensures Succeeded(read.status, Done(calls), ActiveStatus(read.status, ev).conditions, t)
  {
    var done, p := Done(calls), Progress(read.status, ev);
    ProgressTold(now, read, ev, calls, devices, reports);
    SameIds(read.status, done, p, DegradedStatus(read.status, ev, f));
    SameIds(read.status, done, p, ActiveStatus(read.status, ev));
    if t != LastSyncSucceeded { CondTold(now, read, ev, devices, reports, t); }
    OutcomeTold(read.status, done, ev, f, t);
  }

  lemma FailedMeans(now: int, read: Sync, ev: Evidence, calls: seq<Call>, devices: seq<Task>, reports: seq<Task>)
    requires StageEvidence(now, read, ev) && Accounts(read, ev, calls, devices, reports) && ev.failure.Some?
    ensures !Accomplished(ev.failure.value.cond, Done(calls))
  {
    CompletedMeans(now, read, ev, devices, reports, ev.failure.value.cond);
  }

  lemma ScheduledLast(ev: Evidence, devices: seq<Task>, reports: seq<Task>)
    requires ev.stage == SCHEDULED
    ensures Scheduled(ev.next) in Expected(ev, devices, reports)
  {
    var done := Expected(ev, devices, reports);
    assert done[|done| - 1] == Scheduled(ev.next);
  }

  lemma FailureWrites(r: Run, k: nat)
    requires Valid(r) && k < |r.steps| && r.steps[k].Do? && r.steps[k].call.WriteStatus?
    requires At(r, k).worker.Busy? && At(r, k).worker.ev.failure.Some? && !At(r, k).worker.read.deleting
    ensures var w := At(r, k).worker;
      w.ev.planned && r.steps[k].call.status == DegradedStatus(w.read.status, w.ev, w.ev.failure.value)
  {
    StateAt(r, k);
    StepAt(r, k);
  }

  /** A sync whose calls met a failure writes Degraded: conditions framed by what those calls completed, the
      failing step not among that; the ids of the devices they ensured; the time of the last sync as read; and
      as the next time the answer they got after the failure, or as read if the schedule is not valid. */
  lemma FailureFrame(r: Run, b: nat, k: nat, t: CondType)
    requires Valid(r) && b < k < |r.steps| && BeganAt(r, b, k) && !r.steps[b].read.deleting
    requires r.steps[k].Do? && r.steps[k].call.WriteStatus? && FirstFailure(Calls(r, b, k)).Some?
    ensures var done, f := Done(Calls(r, b, k)), FirstFailure(Calls(r, b, k)).value;
      && r.steps[k].call.status.phase == Degraded && !Accomplished(f.cond, done)
      && Framed(r.steps[b].read.status, done, f, r.steps[k].call.status.conditions, t)
    ensures var st, was, after := r.steps[k].call.status, r.steps[b].read.status, Aftermath(Calls(r, b, k));
      && IdsTold(was, Done(Calls(r, b, k)), st) && st.lastSync == was.lastSync
      && |after| == 1 && after[0].Schedule? && st.next == if after[0].next.Some? then after[0].next else was.next
  {
    BusySince(r, b, k);
    WorkerNext(r, k);
    WorkerFacts(r, k);
    var w, calls := At(r, k).worker, Calls(r, b, k);
    var devices, reports := Trace(r, b, k);
    FailureWrites(r, k);
    FailedMeans(At(r, k).now, w.read, w.ev, calls, devices, reports);
    WritesTold(At(r, k).now, w.read, w.ev, calls, devices, reports, w.ev.failure.value, t);
  }

  lemma SuccessWrites(r: Run, k: nat)
    requires Valid(r) && k < |r.steps| && r.steps[k].Do? && r.steps[k].call.WriteStatus?
    requires r.steps[k].call.status.phase == Active
    ensures var w := At(r, k).worker;
      && w.Busy? && w.ev.failure.None? && w.ev.stage == SCHEDULED && !w.read.deleting
      && r.steps[k].call.status == ActiveStatus(w.read.status, w.ev)
  {
    StateAt(r, k);
    StepAt(r, k);
  }

  /** A status that says Active is written by a sync whose calls met no failure and completed everything: it
      tells the conditions and ids of that, and the next time it was told. SyncTheorems.LastSyncWasRead says
      what it gives as its own time. */
  lemma SuccessFrame(r: Run, b: nat, k: nat, t: CondType)
    requires Valid(r) && b < k < |r.steps| && BeganAt(r, b, k)
    requires r.steps[k].Do? && r.steps[k].call.WriteStatus? && r.steps[k].call.status.phase == Active
    ensures var st, was, done := r.steps[k].call.status, r.steps[b].read.status, Done(Calls(r, b, k));
      && FirstFailure(Calls(r, b, k)).None? && IdsTold(was, done, st) && Scheduled(st.next) in done
      && Succeeded(was, done, st.conditions, t)
  {
    BusySince(r, b, k);
    WorkerNext(r, k);
    WorkerFacts(r, k);
    SuccessWrites(r, k);
    var w, calls := At(r, k).worker, Calls(r, b, k);
    var devices, reports := Trace(r, b, k);
    ScheduledLast(w.ev, devices, reports);
    WritesTold(At(r, k).now, w.read, w.ev, calls, devices, reports, Failure(LastSyncSucceeded, SyncComplete), t);
  }

  /** Workflow deployments are looked after exactly if the spec asks for any. */
  lemma WorkflowsWhenAsked(r: Run, b: nat, k: nat)
    requires Valid(r) && b < k < |r.steps| && BeganAt(r, b, k) && r.steps[k].Do? && r.steps[k].call.EnsureWorkflows?
    ensures r.steps[k].call.verdict.NoneAsked? <==> !r.steps[b].read.spec.workflows
  {
    BusySince(r, b, k);
    WorkerNext(r, k);
  }

  /** A device call or report names the ids that the sync holds at that moment. */
  lemma ReportEvidence(r: Run, k: nat)
    requires Valid(r) && k < |r.steps| && r.steps[k].Do?
    ensures At(r, k).worker.Busy?
    ensures var s, call, ev := At(r, k), r.steps[k].call, At(r, k).worker.ev;
      && (call.ReportCluster? || call.ReportNode? ==> ev.stage >= WORKFLOWS && ev.todo == {})
      && (call.ReportCluster? ==> call.id == ev.clusterId && call.id in s.owner && s.owner[call.id] == OfCluster)
      && (call.ReportNode? ==> call.node in ev.nodeIds && call.id == ev.nodeIds[call.node])
      && (call.ReportNode? ==> call.id in s.owner && s.owner[call.id] == OfNode(call.node))
      && (call.CreateDevice? && call.key.OfNode? ==>
            && ev.stage == NODES && call.gateway == ev.clusterId
            && call.gateway in s.owner && s.owner[call.gateway] == OfCluster)
  {
    StateAt(r, k);
    StepAt(r, k);
  }

  /** Reports go to the device that this very sync has ensured for what they describe, and only after its calls
      have provided every node of its snapshot with a device; a node device is created with the cluster's
      device, as this sync has ensured it, for its gateway. */
  lemma ReportsReachTheirDevice(r: Run, b: nat, k: nat)
    requires Valid(r) && b < k < |r.steps| && BeganAt(r, b, k) && r.steps[k].Do? && !r.steps[b].read.deleting
    ensures var s, call, done := At(r, k), r.steps[k].call, Done(Calls(r, b, k));
      && (call.ReportCluster? ==>
            call.id in s.owner && s.owner[call.id] == OfCluster && DeviceReady(OfCluster, call.id) in done)
      && (call.ReportNode? ==>
            && call.id in s.owner && s.owner[call.id] == OfNode(call.node)
            && DeviceReady(OfNode(call.node), call.id) in done)
      && (call.ReportCluster? || call.ReportNode? ==> Accomplished(DevicesProvisioned, done))
      && (call.CreateDevice? && call.key.OfNode? ==>
            && call.gateway in s.owner && s.owner[call.gateway] == OfCluster
            && DeviceReady(OfCluster, call.gateway) in done)
  {
    BusySince(r, b, k);
    WorkerNext(r, k);
    ReportEvidence(r, k);
    ProgressIsReal(r, b, k);
    var call := r.steps[k].call;
    assert call.ReportCluster? || call.ReportNode? ==> Completed(DevicesProvisioned, At(r, k).worker.ev);
  }

  /** The device that a sync has ensured for the cluster, or for a node, is the only one: two such tasks of one
      sync agree. So reports and gateways all name one device per name. */
  lemma OneDevicePerSync(c: Course, read: Sync, done: seq<Task>, key: DeviceKey, x: string, y: string)
    requires WellFormed(c, read) && done <= Tasks(c) && DeviceReady(key, x) in done && DeviceReady(key, y) in done
    ensures x == y
  {
    var i :| 0 <= i < |done| && done[i] == DeviceReady(key, x);
    var j :| 0 <= j < |done| && done[j] == DeviceReady(key, y);
    if i < j { EachTaskOnce(c, read, i, j); }
    if j < i { EachTaskOnce(c, read, j, i); }
  }
}
