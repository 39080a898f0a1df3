/** The LosantSync reconciler, call by call as the operator makes them. As in RancherController, `Ok` says
    that everything done so far, with whatever happened in between, is a run of SyncProtocol, so
    everything in SyncTheorems holds of this code. */
module SyncController {
  import opened Base
  import opened ApiStore
  import opened SyncProtocol
  import opened SyncInvariant

  const DEGRADED_FALLBACK: int := 60 * SECOND

  // ---- How a reconcile ends ----

  /** The last call wrote `st`; `r` is `good` if that was confirmed and an error if not. */
  predicate WriteEnd(r: Result, good: Result, st: Status, w: Worker, calls: seq<Call>)
    requires w.Busy?
  {
    && calls != [] && calls[|calls| - 1].WriteStatus? && calls[|calls| - 1].status == st
    && r == if calls[|calls| - 1].outcome == Applied && w.saved then good else Error
  }

  /** The time to wait after a sync, `until` being the clock reading of time.Until. A failed one waits
      for the whole interval, or a minute if there is no valid schedule. */
  function Wait(plan: Plan, ev: Evidence, until: int): int
    requires ev.failure.None? || plan.Cron? ==> ev.next.Some?
  {
    if ev.failure.None? || plan.Cron? then ev.next.value - until
    else if plan.Every? then plan.interval
    else DEGRADED_FALLBACK
  }

  predicate SyncEnd(r: Result, was: Sync, until: int, w: Worker, calls: seq<Call>)
    requires w.Busy?
  {
    && w.ev.planned && PlanAllows(was.spec.plan, w.ev.planAt, w.ev.next) && w.ev.planAt <= until
    && (w.ev.failure.None? ==> w.ev.stage == SCHEDULED && w.ev.next.Some?)
    && WriteEnd(r, After(Wait(was.spec.plan, w.ev, until)),
                if w.ev.failure.None? then ActiveStatus(was.status, w.ev)
                  else DegradedStatus(was.status, w.ev, w.ev.failure.value),
                w, calls)
  }

  /** Deletion succeeds exactly when every recorded device is gone and giving up the finalizer took effect
      and was confirmed; the first call that fails ends it with an error. The cluster's device comes last. */
  predicate DeletionEnd(r: Result, was: Sync, w: Worker, calls: seq<Call>)
    requires w.Busy?
  {
    if !was.finalizer then r == Done && calls == []
    else
      && calls != [] && (r == Done || r == Error)
      && match calls[|calls| - 1]
         case ReadSecret(found, wellFormed) => r == Error && !(found && wellFormed)
         case DeleteDevice(id, o) =>
           && r == Error && o != Applied
           && (|| id in was.status.nodeDevices.Values
               || (id == was.status.clusterDeviceId && was.status.nodeDevices.Values <= w.ev.deleted))
         case DropFinalizer(o) => AllDeleted(w) && (r == Done <==> o == Applied && w.saved)
         case _ => false
  }

  predicate Early(st: Status, t: int) { st.phase == Active && st.next.Some? && t < st.next.value }

  /** How a reconcile of the resource `was` ends; `first` and `until` are its first clock reading and the
      one from which its waiting time is counted. */
  predicate ReconcileEnd(r: Result, was: Sync, first: int, until: int, w: Worker, calls: seq<Call>)
    requires w.Busy?
  {
    if was.deleting then DeletionEnd(r, was, w, calls)
    else if !was.finalizer then
      && |calls| == 1 && calls[0].AddFinalizer?
      && r == if calls[0].outcome == Applied && w.saved then Requeue else Error
    else if was.spec.suspend then
      if was.status.phase == Suspended then r == Done && calls == []
      else |calls| == 1 && WriteEnd(r, Done, was.status.(phase := Suspended), w, calls)
    else if was.status.phase == New then
      && |calls| == 2 && w.ev.clock == Some(first)
      && WriteEnd(r, After(SECOND), was.status.(phase := Provisioning, next := Some(first)), w, calls)
    else if Early(was.status, first) then
      r == After(was.status.next.value - until) && calls == [ReadClock] && w.ev.clock == Some(first)
    else SyncEnd(r, was, until, w, calls)
  }

  /** The waiting time of a reconcile that found nothing due or succeeded is counted from its very end. */
  predicate WaitsFromNow(was: Sync, first: int, until: int, w: Worker, now: int)
    requires w.Busy?
  {
    var syncing := !was.deleting && was.finalizer && !was.spec.suspend && was.status.phase != New;
    syncing && (Early(was.status, first) || w.ev.failure.None?) ==> until == now
  }

  /** The clock reached the time to wait for between two readings of the same reconcile. */
  predicate Overtaken(was: Sync, first: int, until: int, w: Worker, calls: seq<Call>)
    requires w.Busy?
  {
    && was.finalizer && was.status.phase != New
    && if Early(was.status, first) then first < was.status.next.value <= until
       else
         && calls != [] && calls[|calls| - 1].WriteStatus? && calls[|calls| - 1].outcome == Applied && w.saved
         && (w.ev.failure.None? || was.spec.plan.Cron?)
         && w.ev.next.Some? && w.ev.planAt < w.ev.next.value <= until
  }

  /** A live, unsuspended resource is always looked at again, except exactly when the clock overtook the
      reconcile: provided its interval, if it has one, is positive. */
  lemma NoLostWakeUp(r: Result, was: Sync, first: int, until: int, w: Worker, calls: seq<Call>)
    requires w.Busy? && ReconcileEnd(r, was, first, until, w, calls)
    requires !was.deleting && !was.spec.suspend && (was.spec.plan.Every? ==> was.spec.plan.interval > 0)
    ensures Wakes(r) <==> !Overtaken(was, first, until, w, calls)
  {
  }

  /** The time a sync asks to wait, once its status write is confirmed: after a success, and after a failure
      under a cron plan, until the next time; after a failure under an interval plan the whole interval; after a
      failure without a valid schedule a minute. */
  lemma WaitsAsPlanned(r: Result, was: Sync, first: int, until: int, w: Worker, calls: seq<Call>)
    requires w.Busy? && ReconcileEnd(r, was, first, until, w, calls) && r != Error
    requires !was.deleting && was.finalizer && !was.spec.suspend && was.status.phase != New && !Early(was.status, first)
    ensures w.ev.failure.None? ==> w.ev.next.Some? && r == After(w.ev.next.value - until)
    ensures w.ev.failure.Some? ==>
      match was.spec.plan
      case Unparsable => r == After(60 * SECOND)
      case Every(d) => r == After(d)
      case Cron => w.ev.next.Some? && r == After(w.ev.next.value - until)
  {
  }

  // ---- What each step does to the status in memory ----

  lemma NothingYet(b: Status, ev: Evidence)
    requires ev.stage < NODES && ev.clusterId == "" && ev.nodeIds == map[] && !ev.bootstrapped && ev.workflow.None?
    ensures Progress(b, ev) == b
  {
    assert b.nodeDevices + ev.nodeIds == b.nodeDevices;
  }

  lemma ClusterProgress(b: Status, ev: Evidence, id: string)
    requires ev.stage == PINGED && id != ""
    ensures Progress(b, Ensured(ev, OfCluster, id)) == Progress(b, ev).(clusterDeviceId := id)
  {
  }

  /** The status during the loop over the nodes: their devices so far, but no verdict on them yet. */
  function NodesSoFar(start: Status, b: Status, nodeIds: map<string, string>): Status {
    start.(nodeDevices := b.nodeDevices + nodeIds)
  }

  /** No device is half ensured, and the next time is asked for only at the end. */
  predicate Tidy(ev: Evidence) {
    ev.absent.None? && ev.found == "" && (ev.planned ==> ev.failure.None? && ev.stage == SCHEDULED)
  }

  /** `ev` differs from `start`, before the loop over the nodes, only in what concerns them. */
  predicate InLoop(start: Evidence, ev: Evidence) {
    && start.stage == CLUSTER && ev.stage == NODES && ev.failure.None? && ev.workflow == start.workflow == None
    && ev.clusterId == start.clusterId && ev.bootstrapped == start.bootstrapped && Tidy(ev)
  }

  lemma NodeProgress(b: Status, start: Evidence, ev: Evidence)
    requires InLoop(start, ev) && start.nodeIds == map[]
    ensures var loop := NodesSoFar(Progress(b, start), b, ev.nodeIds);
      Progress(b, ev) ==
        if ev.todo == {} then loop.(conditions := loop.conditions[DevicesProvisioned := Cond(true, Provisioned)])
          else loop
  {
  }

  lemma ReportsLeaveProgress(b: Status, ev: Evidence, unreported: set<string>)
    ensures Progress(b, ev.(unreported := unreported)) == Progress(b, ev)
  {
  }

  /** The degraded status, put together after the next time was asked for. */
  lemma DegradedAfter(b: Status, ev: Evidence, ev': Evidence, f: Failure)
    requires ev' == ev.(clock := ev'.clock, planned := ev'.planned, planAt := ev'.planAt, next := ev'.next)
    ensures var p := Progress(b, ev);
      DegradedStatus(b, ev', f) ==
        p.(phase := Degraded, next := if ev'.next.Some? then ev'.next else p.next,
           conditions := p.conditions[f.cond := Cond(false, f.reason)][LastSyncSucceeded := Cond(false, f.reason)])
  {
  }

  lemma IdsAreNotEmpty(r: Run)
    requires Valid(r)
    ensures "" !in Last(r).owner
  {
    StateAt(r, |r.steps|);
  }

  lemma NodesRecorded(s: Sys)
    requires Inv(s) && s.worker.Busy?
    ensures var st := s.worker.read.status; forall n | n in st.nodeDevices :: Records(st, st.nodeDevices[n])
  {
    assert RecordedOk(s.owner, s.api.past[s.worker.read.version].status);
  }

  lemma WriteOutcome(s: Sys, st: Status, o: Outcome)
    requires s.worker.Busy?
    ensures Perform(s, s.worker, WriteStatus(st, o)).worker
      == s.worker.(halted := true, saved := s.worker.saved || (o != Rejected && Current(s.api, s.worker.read)))
  {
  }

  class Reconciler {
    var sys: Sys
    ghost var run: Run
    var ls: Sync                  // the in-memory copy a reconcile works on
    ghost var calls: seq<Call>    // the calls of this reconcile, in order

    ghost predicate Ok()
      reads this
    {
      Valid(run) && sys == Last(run)
    }

    ghost predicate Going()
      reads this
    {
      Ok() && sys.worker.Busy? && !sys.worker.halted && !sys.worker.saved && ls == sys.worker.read.(status := ls.status)
    }

    /** In the middle of a sync that has met `failure` or nothing bad so far, with all it achieved in `ls`. */
    ghost predicate Working(failure: Option<Failure>)
      reads this
    {
      && Going() && Live(sys.worker) && !sys.worker.read.spec.suspend && sys.worker.read.status.phase != New
      && sys.worker.ev.failure == failure && ls.status == Progress(sys.worker.read.status, sys.worker.ev)
      && Tidy(sys.worker.ev)
    }

    constructor (now: int)
      ensures Ok() && sys == Init(now)
    {
      sys := Init(now);
      run := Run([Init(now)], []);
      ls := Object(0, 0, false, false, Spec(Unparsable, false, false), EMPTY_STATUS);
      calls := [];
    }

    // ---- The outside ----

    method Take(step: Step)
      requires Ok() && Enabled(sys, step)
      modifies this`sys, this`run
      ensures Ok() && sys == Apply(old(sys), step) && run == Extend(old(run), step)
    {
      run := Extend(run, step);
      sys := Apply(sys, step);
    }

    /** Anything that can happen around the worker before its next call takes effect. */
    method Interfere()
      requires Ok()
      modifies this`sys, this`run
      ensures Ok() && sys.worker == old(sys.worker) && sys.owner == old(sys.owner) && sys.now >= old(sys.now)
    {
      var n: nat := *;
      while n > 0
        invariant Ok() && sys.worker == old(sys.worker) && sys.owner == old(sys.owner) && sys.now >= old(sys.now)
      {
        var move: Move := *;
        Take(Env(move));
        n := n - 1;
      }
    }

    method Make(call: Call)
      requires Ok() && Enabled(sys, Do(call))
      modifies this`sys, this`run, this`calls
      ensures Ok() && sys == Perform(old(sys), old(sys.worker), call) && calls == old(calls) + [call]
    {
      Take(Do(call));
      calls := calls + [call];
    }

    method Now() returns (t: int)
      requires Ok()
      modifies this`sys, this`run
      ensures Ok() && sys.worker == old(sys.worker) && old(sys.now) <= t == sys.now
    {
      Interfere();
      t := sys.now;
    }

    method Get() returns (get: Fetch<Spec, Status>)
      requires Ok()
      ensures get.Got? ==> Was(sys.api, get.o)
    {
      var replies: bool, v: nat := *, *;
      StateAt(run, |run.steps|);
      get := if !replies then NoReply else if v in sys.api.past then Got(sys.api.past[v]) else Nothing;
    }

    method ReadClock() returns (t: int)
      requires Going()
      modifies this`sys, this`run, this`calls
      ensures Going() && calls == old(calls) + [SyncProtocol.ReadClock] && old(sys.now) <= t == sys.now
      ensures sys.worker == old(sys.worker).(ev := old(sys.worker.ev).(clock := Some(t)))
    {
      Interfere();
      Make(SyncProtocol.ReadClock);
      t := sys.now;
    }

    method StatusUpdate() returns (ok: bool)
      requires Going() && StatusAllowed(sys.worker, ls.status)
      modifies this`sys, this`run, this`calls
      ensures Ok() && sys.worker.Busy? && sys.worker == old(sys.worker).(halted := true, saved := sys.worker.saved)
      ensures sys.now >= old(sys.now)
      ensures |calls| == |old(calls)| + 1
      ensures calls[|calls| - 1].WriteStatus? && calls[|calls| - 1].status == old(ls.status)
      ensures ok <==> calls[|calls| - 1].outcome == Applied && sys.worker.saved
    {
      Interfere();
      var outcome: Outcome := *;
      ok := outcome == Applied && Current(sys.api, sys.worker.read);
      WriteOutcome(sys, ls.status, outcome);
      Make(WriteStatus(ls.status, outcome));
    }

    method AddFinalizer() returns (ok: bool)
      requires Going() && !ls.deleting && !ls.finalizer
      modifies this`sys, this`run, this`calls
      ensures Ok() && sys.worker.Busy? && sys.now >= old(sys.now)
      ensures |calls| == |old(calls)| + 1 && calls[|calls| - 1].AddFinalizer?
      ensures ok <==> calls[|calls| - 1].outcome == Applied && sys.worker.saved
    {
      Interfere();
      var outcome: Outcome := *;
      ok := outcome == Applied && Current(sys.api, sys.worker.read);
      Make(SyncProtocol.AddFinalizer(outcome));
    }

    method RemoveFinalizer() returns (ok: bool)
      requires Going() && Deleting(sys.worker) && sys.worker.ev.stage == SECRET && AllDeleted(sys.worker)
      modifies this`sys, this`run, this`calls
      ensures Ok() && sys.worker.Busy? && sys.now >= old(sys.now)
      ensures sys.worker == old(sys.worker).(halted := true, saved := sys.worker.saved)
      ensures calls != [] && calls[|calls| - 1].DropFinalizer?
      ensures ok <==> calls[|calls| - 1].outcome == Applied && sys.worker.saved
    {
      Interfere();
      var outcome: Outcome := *;
      ok := outcome == Applied && Current(sys.api, sys.worker.read);
      Make(DropFinalizer(outcome));
    }

    /** Reads the provisioning Secret and builds a client from it. */
    method LosantClient() returns (found: bool, wellFormed: bool)
      requires Going() && sys.worker.ev.stage == STARTED && sys.worker.ev.failure.None?
      requires Deleting(sys.worker) || (Syncing(sys.worker) && GateOpen(sys.worker.read.status, sys.worker.ev.clock))
      modifies this`sys, this`run, this`calls
      ensures Going() && sys.now >= old(sys.now) && calls == old(calls) + [ReadSecret(found, wellFormed)]
      ensures sys.worker.read == old(sys.worker.read)
      ensures sys.worker.ev == Learn(sys, old(sys.worker.ev), ReadSecret(found, wellFormed))
    {
      Interfere();
      found, wellFormed := *, *;
      Make(ReadSecret(found, wellFormed));
    }

    method Ping() returns (ok: bool)
      requires Going() && Syncing(sys.worker) && sys.worker.ev.stage == SECRET
      modifies this`sys, this`run, this`calls
      ensures Going() && sys.now >= old(sys.now) && sys.worker.read == old(sys.worker.read)
      ensures sys.worker.ev == if ok then old(sys.worker.ev).(stage := PINGED)
        else Fail(old(sys.worker.ev), LastSyncSucceeded, LosantUnreachable)
    {
      Interfere();
      ok := *;
      Make(SyncProtocol.Ping(ok));
    }

    method FindDeviceByName(key: DeviceKey) returns (answer: Answer)
      requires Going() && Wanted(sys.worker, key) && Tidy(sys.worker.ev)
      modifies this`sys, this`run, this`calls
      ensures Going() && sys.now >= old(sys.now) && sys.worker.read == old(sys.worker.read)
      ensures match answer
        case Found(id) => id != "" && id in sys.owner && sys.owner[id] == key
          && sys.worker.ev == old(sys.worker.ev).(absent := None, found := id)
        case NotFound => sys.worker.ev == old(sys.worker.ev).(absent := Some(key), found := "")
        case NoAnswer => sys.worker.ev == DeviceFailure(old(sys.worker.ev), key)
    {
      Interfere();
      IdsAreNotEmpty(run);
      var found: bool, id: string := *, *;
      answer := if found then Found(id) else NotFound;
      if !Truthful(sys, key, answer) { answer := NoAnswer; }
      var lost: bool := *;
      if lost { answer := NoAnswer; }
      Make(FindDevice(key, answer));
    }

    method PatchDeviceAttributes(key: DeviceKey) returns (ok: bool)
      requires Going() && Wanted(sys.worker, key)
      requires sys.worker.ev.found != "" && sys.worker.ev.found in sys.owner && sys.owner[sys.worker.ev.found] == key
      modifies this`sys, this`run, this`calls
      ensures Going() && sys.now >= old(sys.now) && sys.worker.read == old(sys.worker.read)
      ensures sys.worker.ev == if ok then Ensured(old(sys.worker.ev), key, old(sys.worker.ev.found))
        else DeviceFailure(old(sys.worker.ev), key)
    {
      Interfere();
      ok := *;
      Make(PatchDevice(key, sys.worker.ev.found, ok));
    }

    method CreateDevice(key: DeviceKey, gateway: string) returns (id: string, ok: bool)
      requires Going() && Wanted(sys.worker, key) && sys.worker.ev.absent == Some(key)
      requires gateway == if key.OfCluster? then "" else sys.worker.ev.clusterId
      modifies this`sys, this`run, this`calls
      ensures Going() && sys.now >= old(sys.now) && sys.worker.read == old(sys.worker.read) && (ok ==> id != "")
      ensures sys.worker.ev == if ok
        then Ensured(old(sys.worker.ev), key, id).(created := old(sys.worker.ev.created) + {id})
                               else DeviceFailure(old(sys.worker.ev), key)
    {
      Interfere();
      var outcome: Outcome := *;
      id := *;
      if id == "" || id in sys.owner { outcome := Rejected; }   // Losant's new ids are fresh
      ok := outcome == Applied;
      Make(SyncProtocol.CreateDevice(key, gateway, id, outcome));
    }

    method BootstrapGEA() returns (ok: bool)
      requires Going() && Syncing(sys.worker) && sys.worker.ev.stage == CLUSTER && !sys.worker.ev.bootstrapped
      requires !IsTrue(sys.worker.read.status.conditions, GEABootstrapped)
      modifies this`sys, this`run, this`calls
      ensures Going() && sys.now >= old(sys.now) && sys.worker.read == old(sys.worker.read)
      ensures sys.worker.ev == if ok then old(sys.worker.ev).(bootstrapped := true)
        else Fail(old(sys.worker.ev), GEABootstrapped, BootstrapFailed)
    {
      Interfere();
      ok := *;
      Make(Bootstrap(ok));
    }

    method HealthSnapshot() returns (nodes: set<string>)
      requires Going() && Syncing(sys.worker) && sys.worker.ev.stage == CLUSTER
      requires sys.worker.ev.bootstrapped || IsTrue(sys.worker.read.status.conditions, GEABootstrapped)
      modifies this`sys, this`run, this`calls
      ensures Going() && sys.now >= old(sys.now) && sys.worker.read == old(sys.worker.read)
      ensures sys.worker.ev == old(sys.worker.ev).(stage := NODES, snapshot := nodes, todo := nodes)
    {
      Interfere();
      nodes := *;
      Make(TakeSnapshot(nodes));
    }

    method EnsureWorkflowDeployments() returns (verdict: Verdict)
      requires Going() && Syncing(sys.worker) && sys.worker.ev.stage == NODES && sys.worker.ev.todo == {}
      modifies this`sys, this`run, this`calls
      ensures Going() && sys.now >= old(sys.now) && sys.worker.read == old(sys.worker.read)
      ensures sys.worker.ev == Learn(sys, old(sys.worker.ev), EnsureWorkflows(verdict))
    {
      Interfere();
      verdict := *;
      if !sys.worker.read.spec.workflows { verdict := NoneAsked; }
      else if verdict == NoneAsked { verdict := Broken(ReleaseFailed); }
      Make(EnsureWorkflows(verdict));
    }

    method ReportClusterState(id: string) returns (ok: bool)
      requires Going() && Syncing(sys.worker) && sys.worker.ev.stage == WORKFLOWS && id == sys.worker.ev.clusterId
      modifies this`sys, this`run, this`calls
      ensures Going() && sys.now >= old(sys.now) && sys.worker.read == old(sys.worker.read)
      ensures sys.worker.ev == if ok
        then old(sys.worker.ev).(stage := REPORTED, unreported := old(sys.worker.ev.snapshot))
                               else Fail(old(sys.worker.ev), GEAReachable, GEAUnreachable)
    {
      Interfere();
      ok := *;
      Make(ReportCluster(id, ok));
    }

    /** Best effort: a refused report changes nothing. */
    method ReportNodeState(n: string, id: string)
      requires Going() && Syncing(sys.worker) && sys.worker.ev.stage == REPORTED && n in sys.worker.ev.unreported
      requires n in sys.worker.ev.nodeIds && id == sys.worker.ev.nodeIds[n]
      modifies this`sys, this`run, this`calls
      ensures Going() && sys.now >= old(sys.now) && sys.worker.read == old(sys.worker.read)
      ensures sys.worker.ev == old(sys.worker.ev).(unreported := old(sys.worker.ev.unreported) - {n})
    {
      Interfere();
      var ok: bool := *;
      Make(ReportNode(n, id, ok));
    }

    /** The next sync time, counted from the clock; nothing if the schedule cannot be parsed. */
    method NextSchedule() returns (next: Option<int>)
      requires Going() && Live(sys.worker) && !sys.worker.ev.planned
      requires sys.worker.ev.failure.Some?
        || (Syncing(sys.worker) && sys.worker.ev.stage == REPORTED && sys.worker.ev.unreported == {})
      modifies this`sys, this`run, this`calls
      ensures Going() && sys.now >= old(sys.now) && sys.worker.read == old(sys.worker.read)
      ensures PlanAllows(ls.spec.plan, sys.now, next) && sys.worker.ev ==
        if old(sys.worker.ev).failure.None? && next.None?
          then Fail(old(sys.worker.ev), LastSyncSucceeded, ScheduleError)
        else old(sys.worker.ev).(clock := None, planned := true, planAt := sys.now, next := next,
                                 stage := if old(sys.worker.ev).failure.None? then SCHEDULED
                                   else old(sys.worker.ev).stage)
    {
      Interfere();
      match ls.spec.plan {
        case Unparsable => next := None;
        case Every(d) => next := Some(sys.now + d);
        case Cron =>
          var tick: int := *;
          next := Some(FloorSecond(SECOND + if tick > sys.now then tick else sys.now));
      }
      Make(Schedule(next));
    }

    method DeleteDevice(id: string) returns (ok: bool)
      requires Going() && Deleting(sys.worker) && sys.worker.ev.stage == SECRET && Records(sys.worker.read.status, id)
      modifies this`sys, this`run, this`calls
      ensures Going() && sys.now >= old(sys.now) && sys.worker.read == old(sys.worker.read)
      ensures calls != [] && calls[|calls| - 1].DeleteDevice? && calls[|calls| - 1].id == id
      ensures ok <==> calls[|calls| - 1].outcome == Applied
      ensures sys.worker.ev == if ok then old(sys.worker.ev).(deleted := old(sys.worker.ev.deleted) + {id})
        else old(sys.worker.ev)
    {
      Interfere();
      var outcome: Outcome := *;
      ok := outcome == Applied;
      Make(SyncProtocol.DeleteDevice(id, outcome));
    }

    // ---- The reconciler ----

    /** Looks the device up by its name, updates its attributes if it is there and creates it if not. */
    method EnsureDevice(key: DeviceKey, gateway: string) returns (id: string, ok: bool)
      requires Going() && Wanted(sys.worker, key) && Tidy(sys.worker.ev)
      requires gateway == if key.OfCluster? then "" else sys.worker.ev.clusterId
      modifies this`sys, this`run, this`calls
      ensures Going() && sys.now >= old(sys.now) && sys.worker.read == old(sys.worker.read) && (ok ==> id != "")
      ensures sys.worker.ev == if ok then Ensured(old(sys.worker.ev), key, id).(created := sys.worker.ev.created)
                               else DeviceFailure(old(sys.worker.ev), key)
    {
      var existing := FindDeviceByName(key);
      match existing
      case NoAnswer =>
        return "", false;
      case Found(found) =>
        id := found;
        ok := PatchDeviceAttributes(key);
      case NotFound =>
        id, ok := CreateDevice(key, gateway);
    }

    /** Steps 1 to 3: the Secret, a client, a ping. */
    method Connect() returns (failure: Option<Failure>)
      requires Working(None) && sys.worker.ev.stage == STARTED && GateOpen(sys.worker.read.status, sys.worker.ev.clock)
      modifies this`sys, this`run, this`calls
      ensures Working(failure) && sys.now >= old(sys.now) && sys.worker.read == old(sys.worker.read)
      ensures failure.None? ==> sys.worker.ev.stage == PINGED
    {
      var found, wellFormed := LosantClient();
      if !found { return Some(Failure(LastSyncSucceeded, SecretNotFound)); }
      if !wellFormed { return Some(Failure(LastSyncSucceeded, InvalidSecret)); }
      var ok := Ping();
      failure := if ok then None else Some(Failure(LastSyncSucceeded, LosantUnreachable));
    }

    /** Step 4: the cluster's own device. */
    method ProvisionCluster() returns (failure: Option<Failure>)
      requires Working(None) && sys.worker.ev.stage == PINGED
      modifies this
      ensures Working(failure) && sys.now >= old(sys.now) && sys.worker.read == old(sys.worker.read)
      ensures failure.None? ==> sys.worker.ev.stage == CLUSTER && !sys.worker.ev.bootstrapped
    {
      StateAt(run, |run.steps|);
      var clusterDeviceId, ok := EnsureDevice(OfCluster, "");
      if !ok { return Some(Failure(DevicesProvisioned, ClusterDeviceError)); }
      ClusterProgress(sys.worker.read.status, old(sys.worker.ev), clusterDeviceId);
      ls := ls.(status := ls.status.(clusterDeviceId := clusterDeviceId));
      failure := None;
    }

    method SetCondition(t: CondType, cond: Cond)
      modifies this`ls
      ensures ls == old(ls).(status := old(ls.status).(conditions := old(ls.status.conditions)[t := cond]))
    {
      ls := ls.(status := ls.status.(conditions := ls.status.conditions[t := cond]));
    }

    /** Step 4.5: credentials for GEA, once. */
    method ProvisionCredentials() returns (failure: Option<Failure>)
      requires Working(None) && sys.worker.ev.stage == CLUSTER && !sys.worker.ev.bootstrapped
      modifies this
      ensures Working(failure) && sys.now >= old(sys.now) && sys.worker.read == old(sys.worker.read)
      ensures failure.None? ==>
        && sys.worker.ev.stage == CLUSTER
        && (sys.worker.ev.bootstrapped || IsTrue(sys.worker.read.status.conditions, GEABootstrapped))
    {
      failure := None;
      if !IsTrue(ls.status.conditions, GEABootstrapped) {
        var ok := BootstrapGEA();
        if !ok { return Some(Failure(GEABootstrapped, BootstrapFailed)); }
        SetCondition(GEABootstrapped, Cond(true, BootstrapComplete));
      }
    }

    /** In the loop over the nodes, entered with the evidence `start`. */
    ghost predicate Looping(start: Evidence)
      reads this
    {
      && Going() && Syncing(sys.worker) && InLoop(start, sys.worker.ev) && start.nodeIds == map[]
      && ls.status == NodesSoFar(Progress(sys.worker.read.status, start), sys.worker.read.status, sys.worker.ev.nodeIds)
    }

    method ProvisionNode(n: string, clusterDeviceId: string, ghost start: Evidence) returns (ok: bool)
      requires Looping(start) && n in sys.worker.ev.todo && clusterDeviceId == start.clusterId
      modifies this
      ensures sys.worker.Busy? && sys.now >= old(sys.now) && sys.worker.read == old(sys.worker.read)
      ensures if ok
        then Looping(start) && sys.worker.ev.snapshot == old(sys.worker.ev.snapshot)
        && sys.worker.ev.todo == old(sys.worker.ev.todo) - {n}
              else Working(Some(Failure(DevicesProvisioned, NodeDeviceError)))
    {
      ghost var b, before := sys.worker.read.status, sys.worker.ev;
      NodeProgress(b, start, before);
      var id;
      id, ok := EnsureDevice(OfNode(n), clusterDeviceId);
      if ok {
        assert b.nodeDevices + before.nodeIds[n := id] == (b.nodeDevices + before.nodeIds)[n := id];
        ls := ls.(status := ls.status.(nodeDevices := ls.status.nodeDevices[n := id]));
      }
    }

    /** Step 5: a device for every node of the health snapshot. */
    method ProvisionNodes() returns (nodes: set<string>, failure: Option<Failure>)
      requires Working(None) && sys.worker.ev.stage == CLUSTER
      requires sys.worker.ev.bootstrapped || IsTrue(sys.worker.read.status.conditions, GEABootstrapped)
      modifies this
      ensures Working(failure) && sys.now >= old(sys.now) && sys.worker.read == old(sys.worker.read)
      ensures failure.None? ==>
        sys.worker.ev.stage == NODES && sys.worker.ev.todo == {} && sys.worker.ev.snapshot == nodes
    {
      StateAt(run, |run.steps|);
      ghost var b, start := sys.worker.read.status, sys.worker.ev;
      var clusterDeviceId := ls.status.clusterDeviceId;
      nodes := HealthSnapshot();
      var todo := nodes;
      while todo != {}
        invariant Looping(start) && sys.now >= old(sys.now) && sys.worker.read == old(sys.worker.read)
        invariant sys.worker.ev.snapshot == nodes && sys.worker.ev.todo == todo
      {
        var n :| n in todo;
        var ok := ProvisionNode(n, clusterDeviceId, start);
        if !ok { return nodes, Some(Failure(DevicesProvisioned, NodeDeviceError)); }
        todo := todo - {n};
      }
      NodeProgress(b, start, sys.worker.ev);
      SetCondition(DevicesProvisioned, Cond(true, Provisioned));
      failure := None;
    }

    /** Step 5b: the Edge Workflow deployments. */
    method ProvisionWorkflows() returns (failure: Option<Failure>)
      requires Working(None) && sys.worker.ev.stage == NODES && sys.worker.ev.todo == {}
      modifies this
      ensures Working(failure) && sys.now >= old(sys.now) && sys.worker.read == old(sys.worker.read)
      ensures failure.None? ==>
        sys.worker.ev.stage == WORKFLOWS && sys.worker.ev.snapshot == old(sys.worker.ev.snapshot)
    {
      StateAt(run, |run.steps|);
      var verdict := EnsureWorkflowDeployments();
      match verdict
      case NoneAsked => failure := None;
      case Broken(reason) => failure := Some(Failure(WorkflowDeployed, reason));
      case Settled(reason) =>
        SetCondition(WorkflowDeployed, Cond(true, reason));
        failure := None;
    }

    /** Steps 6 and 7: the cluster's state, which GEA must accept, and the nodes' as far as it does. */
    method Report(nodes: set<string>) returns (failure: Option<Failure>)
      requires Working(None) && sys.worker.ev.stage == WORKFLOWS && sys.worker.ev.snapshot == nodes
      modifies this
      ensures Working(failure) && sys.now >= old(sys.now) && sys.worker.read == old(sys.worker.read)
      ensures failure.None? ==> sys.worker.ev.stage == REPORTED && sys.worker.ev.unreported == {}
    {
      StateAt(run, |run.steps|);
      var ok := ReportClusterState(ls.status.clusterDeviceId);
      if !ok { return Some(Failure(GEAReachable, GEAUnreachable)); }
      SetCondition(GEAReachable, Cond(true, Reachable));
      ReportNodes(nodes);
      failure := None;
    }

    method ReportNodes(nodes: set<string>)
      requires Working(None) && sys.worker.ev.stage == REPORTED && sys.worker.ev.unreported == nodes
      requires forall n | n in nodes :: n in sys.worker.ev.nodeIds && sys.worker.ev.nodeIds[n] != ""
      modifies this`sys, this`run, this`calls
      ensures Working(None) && sys.now >= old(sys.now) && sys.worker.read == old(sys.worker.read)
      ensures sys.worker.ev.stage == REPORTED && sys.worker.ev.unreported == {}
    {
      ghost var start := sys.worker.ev;
      var todo := nodes;
      while todo != {}
        invariant Going() && Syncing(sys.worker) && sys.now >= old(sys.now) && sys.worker.read == old(sys.worker.read)
        invariant sys.worker.ev == start.(unreported := todo) && todo <= nodes
      {
        var n :| n in todo;
        assert ls.status.nodeDevices[n] != "";   // so no node is ever skipped
        ReportNodeState(n, ls.status.nodeDevices[n]);
        todo := todo - {n};
      }
      ReportsLeaveProgress(sys.worker.read.status, start, todo);
    }

    /** Degraded, with the failing step's condition False, and the next attempt announced. */
    method SetDegraded(f: Failure) returns (r: Result, ghost until: int)
      requires Working(Some(f))
      modifies this
      ensures Ok() && sys.worker.Busy? && old(sys.now) <= until <= sys.now
      ensures sys.worker.read == old(sys.worker.read) && SyncEnd(r, sys.worker.read, until, sys.worker, calls)
      ensures sys.worker.ev.failure.None? ==> until == sys.now
    {
      ls := ls.(status := ls.status.(phase := Degraded));
      SetCondition(f.cond, Cond(false, f.reason));
      SetCondition(LastSyncSucceeded, Cond(false, f.reason));
      var requeueAfter := DEGRADED_FALLBACK;
      var next := NextSchedule();
      until := sys.now;
      if next.Some? {
        ls := ls.(status := ls.status.(next := next));
        if ls.spec.plan.Every? {
          requeueAfter := ls.spec.plan.interval;
        } else {
          var t := Now();
          until := t;
          requeueAfter := next.value - t;
        }
      }
      DegradedAfter(sys.worker.read.status, old(sys.worker.ev), sys.worker.ev, f);
      assert ls.status == DegradedStatus(sys.worker.read.status, sys.worker.ev, f);
      var ok := StatusUpdate();
      r := if ok then After(requeueAfter) else Error;
    }

    /** Steps 8 and 9: the next sync time, and a status that says Active. */
    method Finish() returns (r: Result, ghost until: int)
      requires Working(None) && sys.worker.ev.stage == REPORTED && sys.worker.ev.unreported == {}
      modifies this
      ensures Ok() && sys.worker.Busy? && old(sys.now) <= until <= sys.now
      ensures sys.worker.read == old(sys.worker.read) && SyncEnd(r, sys.worker.read, until, sys.worker, calls)
      ensures sys.worker.ev.failure.None? ==> until == sys.now
    {
      var next := NextSchedule();
      if next.None? {
        r, until := SetDegraded(Failure(LastSyncSucceeded, ScheduleError));
      } else {
        r, until := MarkActive(next.value);
      }
    }

    method MarkActive(next: int) returns (r: Result, ghost until: int)
      requires Working(None) && sys.worker.ev.stage == SCHEDULED && sys.worker.ev.next == Some(next)
      requires sys.worker.ev.planned
      requires sys.worker.ev.planAt <= sys.now && PlanAllows(ls.spec.plan, sys.worker.ev.planAt, Some(next))
      modifies this
      ensures Ok() && sys.worker.Busy? && old(sys.now) <= until <= sys.now
      ensures sys.worker.read == old(sys.worker.read) && SyncEnd(r, sys.worker.read, until, sys.worker, calls)
      ensures sys.worker.ev.failure.None? ==> until == sys.now
    {
      var now := ReadClock();
      ls := ls.(status := ls.status.(lastSync := Some(now), next := Some(next), phase := Active));
      SetCondition(LastSyncSucceeded, Cond(true, SyncComplete));
      assert ls.status == ActiveStatus(sys.worker.read.status, sys.worker.ev);
      var ok := StatusUpdate();
      var t := Now();
      until := t;
      r := if ok then After(next - t) else Error;
    }

    /** The sync proper, from the Secret to the status. */
    method Synchronise() returns (r: Result, ghost until: int)
      requires Working(None) && sys.worker.ev.stage == STARTED && GateOpen(sys.worker.read.status, sys.worker.ev.clock)
      modifies this
      ensures Ok() && sys.worker.Busy? && old(sys.now) <= until <= sys.now
      ensures sys.worker.read == old(sys.worker.read) && SyncEnd(r, sys.worker.read, until, sys.worker, calls)
      ensures sys.worker.ev.failure.None? ==> until == sys.now
    {
      var nodes, failure := {}, None;
      failure := Connect();
      if failure.None? { failure := ProvisionCluster(); }
      if failure.None? { nodes, failure := ProvisionAll(); }
      if failure.None? { failure := Report(nodes); }
      if failure.Some? {
        r, until := SetDegraded(failure.value);
      } else {
        r, until := Finish();
      }
    }

    /** Steps 4.5 to 5b. */
    method ProvisionAll() returns (nodes: set<string>, failure: Option<Failure>)
      requires Working(None) && sys.worker.ev.stage == CLUSTER && !sys.worker.ev.bootstrapped
      modifies this
      ensures Working(failure) && sys.now >= old(sys.now) && sys.worker.read == old(sys.worker.read)
      ensures failure.None? ==> sys.worker.ev.stage == WORKFLOWS && sys.worker.ev.snapshot == nodes
    {
      nodes := {};
      failure := ProvisionCredentials();
      if failure.None? { nodes, failure := ProvisionNodes(); }
      if failure.None? { failure := ProvisionWorkflows(); }
    }

    /** Deletes every recorded device, then gives up the finalizer. */
    method HandleDeletion() returns (r: Result)
      requires Going() && ls == sys.worker.read && ls.deleting && sys.worker.ev == NO_EVIDENCE && calls == []
      modifies this`sys, this`run, this`calls
      ensures Ok() && sys.worker.Busy? && sys.now >= old(sys.now) && DeletionEnd(r, ls, sys.worker, calls)
    {
      if !ls.finalizer { return Done; }
      var found, wellFormed := LosantClient();
      if !found || !wellFormed { return Error; }
      var ok := DeleteNodeDevices();
      if !ok { return Error; }
      if ls.status.clusterDeviceId != "" {
        ok := DeleteDevice(ls.status.clusterDeviceId);
        if !ok { return Error; }
      }
      ok := RemoveFinalizer();
      r := if ok then Done else Error;
    }

    method DeleteNodeDevices() returns (ok: bool)
      requires Going() && ls == sys.worker.read && Deleting(sys.worker) && sys.worker.ev.stage == SECRET
      modifies this`sys, this`run, this`calls
      ensures Going() && sys.now >= old(sys.now) && sys.worker.read == old(sys.worker.read)
      ensures sys.worker.ev.stage == SECRET
      ensures if ok then ls.status.nodeDevices.Values <= sys.worker.ev.deleted
              else
                && calls != [] && calls[|calls| - 1].DeleteDevice? && calls[|calls| - 1].outcome != Applied
                && calls[|calls| - 1].id in ls.status.nodeDevices.Values
    {
      StateAt(run, |run.steps|);
      NodesRecorded(sys);
      var todo := ls.status.nodeDevices.Keys;
      while todo != {}
        invariant Going() && sys.now >= old(sys.now) && sys.worker.read == old(sys.worker.read)
        invariant sys.worker.ev.stage == SECRET
        invariant todo <= ls.status.nodeDevices.Keys
        invariant forall n | n in ls.status.nodeDevices.Keys - todo :: ls.status.nodeDevices[n] in sys.worker.ev.deleted
      {
        var n :| n in todo;
        ok := DeleteDevice(ls.status.nodeDevices[n]);
        if !ok { return; }
        todo := todo - {n};
      }
      ok := true;
    }

    method FirstReconcile() returns (r: Result, ghost first: int)
      requires Going() && ls == sys.worker.read && Live(sys.worker) && !ls.spec.suspend && ls.status.phase == New
      requires calls == []
      modifies this
      ensures Ok() && sys.worker.Busy? && old(sys.now) <= first <= sys.now && |calls| == 2
      ensures sys.worker.ev.clock == Some(first)
      ensures WriteEnd(r, After(SECOND), old(ls.status).(phase := Provisioning, next := Some(first)), sys.worker, calls)
    {
      var t := ReadClock();
      first := t;
      ls := ls.(status := ls.status.(phase := Provisioning, next := Some(t)));
      var ok := StatusUpdate();
      r := if ok then After(SECOND) else Error;
    }

    method Suspend() returns (r: Result)
      requires Going() && ls == sys.worker.read && Live(sys.worker) && ls.spec.suspend && ls.status.phase != Suspended
      requires calls == []
      modifies this
      ensures Ok() && sys.worker.Busy? && sys.now >= old(sys.now) && |calls| == 1
      ensures WriteEnd(r, Done, old(ls.status).(phase := Suspended), sys.worker, calls)
    {
      ls := ls.(status := ls.status.(phase := Suspended));
      var ok := StatusUpdate();
      r := if ok then Done else Error;
    }

    /** The schedule gate, and the sync behind it. */
    method SyncIfDue() returns (r: Result, ghost first: int, ghost until: int)
      requires Going() && ls == sys.worker.read && Live(sys.worker) && !ls.spec.suspend && ls.status.phase != New
      requires sys.worker.ev == NO_EVIDENCE && calls == []
      modifies this
      ensures Ok() && sys.worker.Busy? && old(sys.now) <= first <= until <= sys.now
      ensures if Early(old(ls.status), first)
        then r == After(old(ls.status).next.value - until) && calls == [SyncProtocol.ReadClock]
          && sys.worker.ev.clock == Some(first)
              else SyncEnd(r, old(ls), until, sys.worker, calls)
      ensures Early(old(ls.status), first) || sys.worker.ev.failure.None? ==> until == sys.now
    {
      first := sys.now;
      if ls.status.phase == Active && ls.status.next.Some? {
        var now := ReadClock();
        first := now;
        if now < ls.status.next.value {
          var t := Now();
          until := t;
          r := After(ls.status.next.value - t);
          return;
        }
      }
      NothingYet(ls.status, sys.worker.ev);
      r, until := Synchronise();
    }

    /** The body of Reconcile for the resource just read into `ls`. */
    method Dispatch() returns (r: Result, ghost first: int, ghost until: int)
      requires Ok() && calls == []
      requires sys.worker == Busy(ls, sys.worker.Busy? && sys.worker.current, false, false, NO_EVIDENCE)
      modifies this
      ensures Ok() && sys.worker.Busy? && old(sys.now) <= first <= until <= sys.now
      ensures ReconcileEnd(r, old(ls), first, until, sys.worker, calls)
      ensures WaitsFromNow(old(ls), first, until, sys.worker, sys.now)
    {
      first, until := sys.now, sys.now;
      if ls.deleting {
        r := HandleDeletion();
      } else if !ls.finalizer {
        var ok := AddFinalizer();
        r := if ok then Requeue else Error;
      } else if ls.spec.suspend {
        r := Done;
        if ls.status.phase != Suspended { r := Suspend(); }
      } else if ls.status.phase == New {
        r, first := FirstReconcile();
        until := first;
      } else {
        r, first, until := SyncIfDue();
      }
    }

    /** One reconcile: Get may find nothing, fail, or return any version ever stored. The worker is free
        again afterwards, whatever happened; `w` is its last state before that. */
    method Reconcile(get: Fetch<Spec, Status>) returns (r: Result, ghost w: Worker, ghost first: int, ghost until: int)
      requires Ok() && sys.worker.Idle? && (get.Got? ==> Was(sys.api, get.o))
      modifies this
      ensures Ok() && sys.worker.Idle? && old(sys.now) <= first <= until <= sys.now
      ensures !get.Got? ==> calls == [] && run == old(run) && r == if get == Nothing then Done else Error
      ensures get.Got? ==> w.Busy? && EndedAs(w) && ReconcileEnd(r, get.o, first, until, w, calls)
      ensures get.Got? ==> WaitsFromNow(get.o, first, until, w, sys.now)
    {
      calls := [];
      w, first, until := Idle, sys.now, sys.now;
      if !get.Got? {
        r := if get == Nothing then Done else Error;
        return;
      }
      ls := get.o;
      Take(Begin(ls));
      r, first, until := Dispatch();
      w := sys.worker;
      Take(End);
    }

    /** The run ended a reconcile whose worker was `w`. */
    ghost predicate EndedAs(w: Worker)
      requires Valid(run)
      reads this
    {
      var n := |run.steps|;
      n > 0 && run.steps[n - 1] == End && At(run, n - 1).worker == w
    }

    /** Any number of reconciles, with whatever the rest of the world does before and after each. */
    method Operate(rounds: nat)
      requires Ok() && sys.worker.Idle?
      modifies this
      ensures Ok() && sys.worker.Idle?
    {
      for i := 0 to rounds
        invariant Ok() && sys.worker.Idle?
      {
        Interfere();
        var get := Get();
        ghost var w, first, until;
        var r;
        r, w, first, until := Reconcile(get);
        Interfere();
      }
    }
  }
}
