/** The RancherSession reconciler, call by call as the operator makes them. Every call may fail, lose its
    reply or be overtaken by the trigger, a user or Rancher; `Ok` says that all of it together is a run
    of RancherProtocol, so everything in RancherTheorems holds of this code. */
module RancherController {
  import opened Base
  import opened ApiStore
  import opened RancherProtocol
  import opened RancherInvariant

  const AGENT_POLL_INTERVAL: int := 5 * SECOND
  const ERROR_REQUEUE_WAIT: int := 30 * SECOND

  /** The client the credentials Secret yields. A Secret that can be read but lacks a key or a valid CA
      gives a nil client inside a non-nil interface, together with an error. */
  datatype Client = Usable | TypedNil | Missing

  datatype Probe = Exists | Gone | Unknown

  predicate ObtainEnd(failure: Option<Reason>, last: Call) {
    match failure
    case None => (last.FindCluster? && last.answer.Found?) || (last.CreateCluster? && last.outcome == Applied)
    case Some(FindClusterFailed) => last == FindCluster(NoAnswer)
    case Some(CreateClusterFailed) => last.CreateCluster? && last.outcome != Applied
    case Some(_) => false
  }

  /** How importing a known cluster ends when its last write, of `w.base`, was confirmed: retry because
      no token was to be had, Failed because the manifest could not be applied, or poll for the agent
      with the import recorded. `start` is the status that the opening write stored, `before` the call just
      before the last write. */
  predicate ImportEnd(r: Result, w: Worker, start: Status, before: Call)
    requires w.Busy?
  {
    var st, known := w.base.status, start.(clusterId := w.ev.obtained);
    && w.ev.obtained != ""
    && match before
       case FetchToken(ok) =>
         !ok && r == After(ERROR_REQUEUE_WAIT) && st == Stored(known.(reachable := IsFalse(GetTokenFailed)))
       case ApplyManifest(ok) =>
         !ok && r == Done && st == Stored(known.(phase := Failed, reachable := IsFalse(ManifestApplyFailed)))
       case ReadClock(t) =>
         && w.ev.applied && r == After(AGENT_POLL_INTERVAL)
         && st == Stored(known.(manifestApplied := true, connectedAt := Some(t),
                                expiresAt := Some(t + AGENT_READY_TIMEOUT), reachable := IsTrue(APIReachable)))
       case _ => false
  }

  /** The same for the whole connect sequence. */
  predicate ConnectEnd(r: Result, w: Worker, start: Status, before: Call)
    requires w.Busy?
  {
    if w.ev.obtained != "" then ImportEnd(r, w, start, before)
    else
      var reachable := w.base.status.reachable;
      && r == After(ERROR_REQUEUE_WAIT) && w.base.status == Stored(start.(reachable := reachable))
      && reachable.IsFalse? && ObtainEnd(Some(reachable.reason), before)
  }

  predicate Past(t: int, deadline: Option<int>) { deadline.Some? && t > deadline.value }

  /** How polling ends, `first` being its first clock reading. After the deadline: Failed, or an
      unconfirmed write. Before it: an unreadable Deployment or an unconfirmed write, nothing written
      because the agent is not ready, or connected from the clock reading `w.ev.clock` on. */
  predicate PollEnd(r: Result, was: Session, first: int, w: Worker, last: Call)
    requires w.Busy?
  {
    if Past(first, was.status.expiresAt) then
      && last.WriteStatus? && last.status == was.status.(phase := Failed, reachable := IsFalse(AgentReadyTimeout))
      && if w.halted then r == Error else r == Done && w.claimed && w.base.status == Stored(last.status)
    else if last.ReadAgent? then
      && !last.agent.Available? && w.base == was
      && r == if last.agent.Unreadable? then Error else After(AGENT_POLL_INTERVAL)
    else
      && last.WriteStatus? && w.ev.agentReady && w.ev.clock.Some? && first <= w.ev.clock.value
      && var ttl := SecondsSpan(was.spec.ttlSeconds);
      && last.status ==
        was.status.(phase := Connected, connectedAt := w.ev.clock, expiresAt := Some(w.ev.clock.value + ttl),
                                    reachable := IsTrue(SessionEstablished))
      && if w.halted then r == Error else r == After(ttl) && w.claimed && w.base.status == Stored(last.status)
  }

  /** How the check of a connected session ends when it is not cleaned up, between the clock readings
      `first` and `second` (the same if there was no second): an unanswered probe is recorded for a
      retry; otherwise the session is left alone, with a wake-up exactly if time is left. */
  predicate StillConnected(r: Result, was: Session, first: int, second: int, w: Worker, calls: seq<Call>)
    requires w.Busy? && calls != []
  {
    var last := calls[|calls| - 1];
    && !Past(first, was.status.expiresAt) && first <= second && !w.ev.gone
    && (last.WriteStatus? <==> was.status.clusterId != "" && |calls| >= 3 && calls[2] == ProbeCluster(false))
    && if last.WriteStatus? then
         && last.status == was.status.(reachable := IsFalse(GetClusterFailed))
         && if w.halted then r == Error else r == After(ERROR_REQUEUE_WAIT) && w.base.status == Stored(last.status)
       else
         && w.base == was && w.ev.clock == Some(second)
         && (if was.status.expiresAt.Some? then last == ReadClock(second) else second == first)
         && if was.status.expiresAt.Some? && second < was.status.expiresAt.value
            then r == After(was.status.expiresAt.value - second) else r == Done
  }

  /** How cleanup ends. It succeeds exactly when the record is gone, deletion of the namespace went
      through, that is recorded, and (for a session marked for deletion) the finalizer is given up. A
      refused DeleteCluster is recorded for a retry. Everything else is an error. */
  predicate CleanupEnd(r: Result, was: Session, client: Client, w: Worker, calls: seq<Call>)
    requires w.Busy? && calls != []
  {
    var last := calls[|calls| - 1];
    match r
    case Done =>
      && w.ev.nsDeleted && RecordGone(w) && w.base.status == Stored(was.status.(phase := Disconnected))
      && if was.deleting then last == DropFinalizer(Applied) else last.WriteStatus? && !w.halted
    case After(span) =>
      && span == ERROR_REQUEUE_WAIT && |calls| >= 2 && calls[|calls| - 2].DeleteCluster?
      && calls[|calls| - 2].outcome != Applied && last.WriteStatus?
      && w.base.status == Stored(was.status.(phase := Disconnecting, reachable := IsFalse(DeleteClusterFailed)))
    case Error =>
      || w.halted
      || (w.base.status.phase == Disconnecting
          && (last == DeleteNamespace(false) || (client == TypedNil && was.status.clusterId != "")))
    case Requeue => false
  }

  /** The cleanup starts with call `k`, which records it. */
  predicate Opens(was: Session, calls: seq<Call>, k: nat) {
    k < |calls| && calls[k].WriteStatus? && calls[k].status == was.status.(phase := Disconnecting)
  }

  /** Cleanup adds to the evidence nothing but confirmed deletions. */
  predicate OnlyCleanup(a: Evidence, b: Evidence) {
    && b.clock == a.clock && b.noClient == a.noClient && b.badClient == a.badClient && b.gone == a.gone
    && b.looked == a.looked && b.absent == a.absent && b.obtained == a.obtained
    && b.token == a.token && b.applied == a.applied && b.agentReady == a.agentReady
  }

  /** How the cleanup of a session marked for deletion ends. */
  predicate DisconnectEnd(r: Result, was: Session, w: Worker, calls: seq<Call>)
    requires w.Busy? && calls != []
  {
    if w.ev.noClient then
      match calls[|calls| - 1]
      case DropFinalizer(o) => w.ev.nsDeleted && (r == Error || (r == Done && o == Applied))
      case DeleteNamespace(ok) => !ok && r == Error
      case _ => false
    else
      var client := if w.ev.badClient then TypedNil else Usable;
      && Opens(was, calls, 1)
      && (|| CleanupEnd(r, was, client, w, calls)
          || (r == Done && CleanupEnd(After(ERROR_REQUEUE_WAIT), was, client, w, calls)))
  }

  /** How the reconcile of a connected session ends: with its cleanup exactly on expiry or a 404. Unless it has
      expired, Rancher is asked for the recorded cluster right after the clock. */
  predicate ConnectedEnd(r: Result, was: Session, first: int, second: int, w: Worker, calls: seq<Call>)
    requires w.Busy? && calls != []
  {
    && (!Past(first, was.status.expiresAt) && was.status.clusterId != "" ==> |calls| >= 3 && calls[2].ProbeCluster?)
    && if Past(first, was.status.expiresAt) then Opens(was, calls, 2) && CleanupEnd(r, was, Usable, w, calls)
       else if w.ev.gone then Opens(was, calls, 3) && CleanupEnd(r, was, Usable, w, calls)
       else StillConnected(r, was, first, second, w, calls)
  }

  /** The first call after the credentials were read is a clock reading, of `first`. */
  predicate Reads(calls: seq<Call>, first: int) { |calls| >= 2 && calls[1] == ReadClock(first) }

  /** How a live session's reconcile ends, by the phase that was read; `first` and `second` are clock
      readings. Only New, Connecting and Connected lead to any call. */
  predicate PhaseEnd(r: Result, was: Session, first: int, second: int, w: Worker, calls: seq<Call>)
    requires w.Busy? && calls != []
  {
    match was.status.phase
    case New => ConnectDone(r, was, w, calls)
    case Connecting =>
      if was.status.manifestApplied then Reads(calls, first) && PollEnd(r, was, first, w, calls[|calls| - 1])
      else ConnectDone(r, was, w, calls)
    case Connected =>
      && Reads(calls, first)
      && ConnectedEnd(r, was, first, second, w, calls)
    case _ => r == Done && w.base == was && w.ev == NO_EVIDENCE && |calls| == 1
  }

  predicate ConnectDone(r: Result, was: Session, w: Worker, calls: seq<Call>)
    requires w.Busy?
  {
    && |calls| >= 2 && calls[1].WriteStatus? && calls[1].status == was.status.(phase := Connecting)
    && (r == Error <==> w.halted)
    && (r != Error ==> w.claimed && ConnectEnd(r, w, Stored(calls[1].status), calls[|calls| - 2]))
  }

  predicate SameClient(a: Evidence, b: Evidence) { b.noClient == a.noClient && b.badClient == a.badClient }

  /** The credentials are read before anything else. */
  predicate SecretFirst(w: Worker, calls: seq<Call>)
    requires w.Busy?
  {
    calls != [] && calls[0] == ReadSecret(!w.ev.noClient, !w.ev.badClient)
  }

  /** How a reconcile of the session `was` ends. */
  predicate DispatchEnd(r: Result, was: Session, first: int, second: int, w: Worker, calls: seq<Call>)
    requires w.Busy?
  {
    if was.deleting then
      if was.finalizer then SecretFirst(w, calls) && DisconnectEnd(r, was, w, calls) else r == Done && calls == []
    else if !was.finalizer then
      && |calls| == 1 && calls[0].AddFinalizer?
      && (r == Error || (r == Requeue && calls[0].outcome == Applied))
    else if was.spec.suspend then r == Done && calls == []
    else if w.ev.badClient then
      && SecretFirst(w, calls) && |calls| == 2 && calls[1].WriteStatus?
      && calls[1].status == was.status.(phase := Failed, reachable := IsFalse(InvalidSecret))
      && if w.halted then r == Error else r == Done && w.base.status == Stored(calls[1].status)
    else SecretFirst(w, calls) && PhaseEnd(r, was, first, second, w, calls)
  }

  /** A live session that a reconcile leaves in Connected, with its last write confirmed, gets a wake-up:
      when the reconcile connected it, exactly if its TTL in nanoseconds is positive after wrapping around at
      64 bits; otherwise except exactly when it has no expiry or the clock reached that between the two
      readings of the reconcile. */
  lemma ConnectedWakeUp(r: Result, was: Session, first: int, second: int, w: Worker, calls: seq<Call>)
    requires w.Busy? && DispatchEnd(r, was, first, second, w, calls)
    requires !was.deleting && was.finalizer && !was.spec.suspend
    requires !w.halted && w.base.status.phase == Connected
    ensures calls != [] && (was.status.phase == Connecting || was.status.phase == Connected)
    ensures Wakes(r) <==>
      if was.status.phase == Connecting then SecondsSpan(was.spec.ttlSeconds) > 0
      else
        var expiry := was.status.expiresAt;
        calls[|calls| - 1].WriteStatus? || (expiry.Some? && !(first <= expiry.value <= second))
    ensures was.status.phase == Connected ==> Reads(calls, first) && first <= second
    ensures was.status.phase == Connected && was.status.expiresAt.Some? && !calls[|calls| - 1].WriteStatus? ==>
      calls[|calls| - 1] == ReadClock(second)
  {
  }

  /** A deadline is missed when the clock is past it, not when it is just reached: an import that is awaited is
      given up exactly then, and a connected session that Rancher still knows is cleaned up exactly then. */
  lemma DeadlinesAreStrict(r: Result, was: Session, first: int, second: int, w: Worker, calls: seq<Call>)
    requires w.Busy? && DispatchEnd(r, was, first, second, w, calls) && !w.ev.badClient
    requires !was.deleting && was.finalizer && !was.spec.suspend && was.status.expiresAt.Some?
    ensures Polling(was.status) ==>
      calls != [] && var last := calls[|calls| - 1];
      (first > was.status.expiresAt.value <==> last.WriteStatus? && last.status.phase == Failed)
    ensures was.status.phase == Connected && was.status.clusterId != "" ==>
      (first > was.status.expiresAt.value <==> Opens(was, calls, 2))
  {
  }

  /** So a positive TTL is enough if its nanosecond product fits int64 ... */
  lemma FittingTtlWakes(r: Result, was: Session, first: int, second: int, w: Worker, calls: seq<Call>)
    requires w.Busy? && DispatchEnd(r, was, first, second, w, calls) && was.status.phase == Connecting
    requires !was.deleting && was.finalizer && !was.spec.suspend && !w.halted && w.base.status.phase == Connected
    requires was.spec.ttlSeconds > 0 && FitsInt64(was.spec.ttlSeconds * SECOND)
    ensures Wakes(r)
  {
    ConnectedWakeUp(r, was, first, second, w, calls);
  }

  /** ... and 9223372037 seconds, which the trigger accepts, are not: the reconcile that connects asks for no
      wake-up. */
  lemma OverflowingTtlSleeps(r: Result, was: Session, first: int, second: int, w: Worker, calls: seq<Call>)
    requires w.Busy? && DispatchEnd(r, was, first, second, w, calls) && was.status.phase == Connecting
    requires !was.deleting && was.finalizer && !was.spec.suspend && !w.halted && w.base.status.phase == Connected
    requires was.spec.ttlSeconds == 9_223_372_037
    ensures !Wakes(r)
  {
    ConnectedWakeUp(r, was, first, second, w, calls);
  }

  class Reconciler {
    var sys: Sys
    ghost var run: Run
    var rs: Session               // the in-memory copy a reconcile works on
    ghost var calls: seq<Call>    // the calls of this reconcile, in order

    ghost predicate Ok()
      reads this
    {
      Valid(run) && sys == Last(run)
    }

    /** In the middle of a reconcile; `rs` differs from the last known version in its status only. */
    ghost predicate Going()
      reads this
    {
      Ok() && sys.worker.Busy? && !sys.worker.halted && rs == sys.worker.base.(status := rs.status)
    }

    constructor (key: string, now: int)
      ensures Ok() && sys == Init(key, now)
    {
      sys := Init(key, now);
      run := Run([Init(key, now)], []);
      rs := Object(0, 0, false, false, Spec("", 0, false), EMPTY_STATUS);
      calls := [];
    }

    // ---- The outside ----

    method Take(step: Step)
      requires Ok() && Enabled(sys, step)
      modifies this`sys, this`run
      ensures Ok() && sys == Apply(old(sys), step) && run == Extend(old(run), step)
    {
      run := Extend(run, step);
      sys := Apply(sys, step);
    }

    /** Anything that can happen around the worker before its next call takes effect. */
    method Interfere()
      requires Ok()
      modifies this`sys, this`run
      ensures Ok() && sys.worker == old(sys.worker) && sys.key == old(sys.key) && sys.now >= old(sys.now)
    {
      var n: nat := *;
      while n > 0
        invariant Ok() && sys.worker == old(sys.worker) && sys.key == old(sys.key) && sys.now >= old(sys.now)
      {
        var move: Move := *;
        if move.Connect? ==> move.ttl > 0 {
          Take(Env(move));
        }
        n := n - 1;
      }
    }

    method Make(call: Call)
      requires Ok() && Enabled(sys, Do(call))
      modifies this`sys, this`run, this`calls
      ensures Ok() && sys == Perform(old(sys), old(sys.worker), call) && calls == old(calls) + [call]
    {
      Take(Do(call));
      calls := calls + [call];
    }

    method Get() returns (get: Fetch<Spec, Status>)
      requires Ok()
      ensures get.Got? ==> Was(sys.api, get.o)
    {
      var replies: bool, v: nat := *, *;
      StateAt(run, |run.steps|);
      get := if !replies then NoReply else if v in sys.api.past then Got(sys.api.past[v]) else Nothing;
    }

    method ReadClock() returns (t: int)
      requires Going()
      modifies this`sys, this`run, this`calls
      ensures Going() && calls == old(calls) + [RancherProtocol.ReadClock(t)] && t >= old(sys.now) && sys.now == t
      ensures sys.key == old(sys.key) && sys.worker == old(sys.worker).(ev := old(sys.worker.ev).(clock := Some(t)))
    {
      Interfere();
      t := sys.now;
      Make(RancherProtocol.ReadClock(t));
    }

    /** r.Status().Update: on success `rs` becomes what the API server now holds. */
    method StatusUpdate() returns (ok: bool)
      requires Going() && StatusAllowed(sys.worker, rs.status)
      modifies this
      ensures sys.now >= old(sys.now)
      ensures Ok() && sys.worker.Busy? && sys.key == old(sys.key) && sys.worker.ev == old(sys.worker.ev)
      ensures |calls| == |old(calls)| + 1 && old(calls) < calls && Wrote(old(rs.status))
      ensures if ok then Saved() && rs == old(rs).(version := rs.version, status := Stored(old(rs.status)))
        else Refused()
    {
      Interfere();
      var outcome: Outcome := *;
      ok := outcome == Applied && Current(sys.api, sys.worker.base);
      StateAt(run, |run.steps|);
      WriteOutcome(sys, rs.status, outcome);
      Make(WriteStatus(rs.status, outcome));
      if ok { rs := sys.worker.base; }
    }

    method AddFinalizer() returns (ok: bool)
      requires Going() && !sys.worker.claimed && !rs.deleting && !rs.finalizer
      modifies this`sys, this`run, this`calls
      ensures sys.now >= old(sys.now)
      ensures Ok() && sys.worker.Busy?
      ensures |calls| == |old(calls)| + 1 && old(calls) < calls
      ensures calls[|calls| - 1].AddFinalizer? && (ok <==> calls[|calls| - 1].outcome == Applied && Added())
    {
      Interfere();
      var outcome: Outcome := *;
      ok := outcome == Applied && Current(sys.api, sys.worker.base);
      Take(Do(RancherProtocol.AddFinalizer(outcome)));
      calls := calls + [RancherProtocol.AddFinalizer(outcome)];
    }

    /** The last step changed what the API server holds. */
    ghost predicate Added()
      requires Valid(run)
      reads this
    {
      |run.steps| > 0 && At(run, |run.steps| - 1).api.nextVersion != Last(run).api.nextVersion
    }

    method RemoveFinalizer() returns (r: Result)
      requires Going() && MayFinish(sys.worker)
      modifies this`sys, this`run, this`calls
      ensures sys.now >= old(sys.now)
      ensures Ok() && sys.worker == old(sys.worker).(halted := true) && (r == Done || r == Error)
      ensures |calls| == |old(calls)| + 1 && old(calls) < calls && calls[|calls| - 1].DropFinalizer?
      ensures r == Done <==> calls[|calls| - 1].outcome == Applied && Left()
    {
      Interfere();
      StateAt(run, |run.steps|);
      var outcome: Outcome := *;
      r := if outcome == Applied && Current(sys.api, sys.worker.base) then Done else Error;
      if Current(sys.api, sys.worker.base) { CurrentIsBase(sys.api, sys.worker); }
      Take(Do(DropFinalizer(outcome)));
      calls := calls + [DropFinalizer(outcome)];
    }

    /** If the last call gave up the finalizer, success means exactly that the session has left and that this was
        confirmed. */
    ghost predicate Told(r: Result)
      requires Valid(run)
      reads this
    {
      calls != [] && calls[|calls| - 1].DropFinalizer? ==>
        (r == Done <==> calls[|calls| - 1].outcome == Applied && Left())
    }

    /** The last step removed the session from the API server. */
    ghost predicate Left()
      requires Valid(run)
      reads this
    {
      |run.steps| > 0 && At(run, |run.steps| - 1).api.cur.Some? && Last(run).api.cur.None?
    }

    method RancherClient() returns (client: Client)
      requires Going() && !sys.worker.claimed
      modifies this`sys, this`run, this`calls
      ensures sys.now >= old(sys.now)
      ensures Going() && sys.key == old(sys.key)
      ensures calls == old(calls) + [ReadSecret(client != Missing, client == Usable)]
      ensures sys.worker ==
        old(sys.worker).(ev := old(sys.worker.ev).(noClient := client == Missing, badClient := client != Usable))
    {
      Interfere();
      client := *;
      Make(ReadSecret(client != Missing, client == Usable));
    }

    method FindCluster(name: string) returns (answer: Answer)
      requires Going() && ConnectStage(sys.worker) && name == DisplayName(sys.key, sys.worker.base)
      requires !sys.worker.ev.looked
      modifies this`sys, this`run, this`calls
      ensures sys.now >= old(sys.now)
      ensures Going() && sys.key == old(sys.key) && calls == old(calls) + [RancherProtocol.FindCluster(answer)]
      ensures answer.Found? ==> answer.id != ""
      ensures sys.worker == old(sys.worker).(ev :=
        match answer
        case Found(id) => old(sys.worker.ev).(looked := true, obtained := id)
        case NotFound => old(sys.worker.ev).(looked := true, absent := Some(name))
        case NoAnswer => old(sys.worker.ev).(looked := true))
    {
      Interfere();
      StateAt(run, |run.steps|);
      answer := *;
      if !Truthful(sys.records, name, answer) { answer := NoAnswer; }
      Make(RancherProtocol.FindCluster(answer));
    }

    method CreateCluster(name: string) returns (id: string, ok: bool)
      requires Going() && ConnectStage(sys.worker) && name == DisplayName(sys.key, sys.worker.base)
      requires sys.worker.ev.absent == Some(name)
      modifies this`sys, this`run, this`calls
      ensures sys.now >= old(sys.now)
      ensures Going() && sys.key == old(sys.key)
      ensures |calls| == |old(calls)| + 1 && old(calls) < calls && calls[|calls| - 1].CreateCluster?
      ensures calls[|calls| - 1].id == id && (ok <==> calls[|calls| - 1].outcome == Applied)
      ensures ok ==> id != ""
      ensures sys.worker == old(sys.worker).(ev := old(sys.worker.ev).(absent := None,
                                             obtained := if ok then id else old(sys.worker.ev.obtained)))
    {
      Interfere();
      var outcome: Outcome := *;
      id := *;
      if id == "" || id in sys.used { outcome := Rejected; }   // Rancher's new ids are fresh
      ok := outcome == Applied;
      Make(RancherProtocol.CreateCluster(id, outcome));
    }

    method GetRegistrationToken() returns (ok: bool)
      requires Going() && ConnectStage(sys.worker) && sys.worker.ev.obtained != ""
      modifies this`sys, this`run, this`calls
      ensures sys.now >= old(sys.now)
      ensures Going() && sys.key == old(sys.key) && calls == old(calls) + [FetchToken(ok)]
      ensures sys.worker == old(sys.worker).(ev := old(sys.worker.ev).(token := ok))
    {
      Interfere();
      ok := *;
      Make(FetchToken(ok));
    }

    method ApplyManifest() returns (ok: bool)
      requires Going() && ConnectStage(sys.worker) && sys.worker.ev.obtained != "" && sys.worker.ev.token
      modifies this`sys, this`run, this`calls
      ensures sys.now >= old(sys.now)
      ensures Going() && sys.key == old(sys.key) && calls == old(calls) + [RancherProtocol.ApplyManifest(ok)]
      ensures sys.worker == old(sys.worker).(ev := old(sys.worker.ev).(applied := ok))
    {
      Interfere();
      ok := *;
      Make(RancherProtocol.ApplyManifest(ok));
    }

    method ReadAgent() returns (agent: Agent)
      requires Going() && Live(sys.worker) && Polling(sys.worker.base.status)
      modifies this`sys, this`run, this`calls
      ensures Going() && sys.now >= old(sys.now) && calls == old(calls) + [RancherProtocol.ReadAgent(agent)]
      ensures sys.worker == old(sys.worker).(ev := old(sys.worker.ev).(agentReady := agent.Available?))
    {
      Interfere();
      agent := *;
      Make(RancherProtocol.ReadAgent(agent));
    }

    method GetCluster() returns (probe: Probe)
      requires Going() && !sys.worker.claimed && Live(sys.worker)
      requires sys.worker.base.status.phase == Connected && sys.worker.base.status.clusterId != ""
      modifies this`sys, this`run, this`calls
      ensures Going() && sys.now >= old(sys.now) && calls == old(calls) + [ProbeCluster(!probe.Unknown?)]
      ensures sys.worker == old(sys.worker).(ev := old(sys.worker.ev).(gone := probe.Gone?))
    {
      Interfere();
      var ok: bool := *;
      probe := if !ok then Unknown else if sys.worker.base.status.clusterId in sys.records then Exists else Gone;
      Make(ProbeCluster(ok));
    }

    method DeleteCluster() returns (ok: bool)
      requires Going() && CleanupStage(sys.worker) && sys.worker.base.status.clusterId != ""
      modifies this`sys, this`run, this`calls
      ensures sys.now >= old(sys.now)
      ensures Going() && sys.key == old(sys.key)
      ensures |calls| == |old(calls)| + 1 && old(calls) < calls
      ensures calls[|calls| - 1].DeleteCluster? && (ok <==> calls[|calls| - 1].outcome == Applied)
      ensures sys.worker == if ok
        then old(sys.worker).(ev := old(sys.worker.ev).(deletedId := Some(sys.worker.base.status.clusterId)))
                            else old(sys.worker)
    {
      Interfere();
      var outcome: Outcome := *;
      ok := outcome == Applied;
      Make(RancherProtocol.DeleteCluster(outcome));
    }

    /** Deletes cattle-system; a namespace that is already gone counts as success. */
    method DeleteNamespace() returns (ok: bool)
      requires Going()
      requires (CleanupStage(sys.worker) && RecordGone(sys.worker))
        || (rs.deleting && rs.finalizer && sys.worker.ev.noClient)
      modifies this`sys, this`run, this`calls
      ensures sys.now >= old(sys.now)
      ensures Going() && sys.key == old(sys.key) && calls == old(calls) + [RancherProtocol.DeleteNamespace(ok)]
      ensures sys.worker == old(sys.worker).(ev := old(sys.worker.ev).(nsDeleted := ok))
    {
      Interfere();
      ok := *;
      Make(RancherProtocol.DeleteNamespace(ok));
    }

    // ---- The reconciler ----

    ghost predicate Wrote(st: Status)
      reads this
    {
      calls != [] && calls[|calls| - 1].WriteStatus? && calls[|calls| - 1].status == st
    }

    /** The last call was a confirmed status write: the API server holds what `rs` says. */
    ghost predicate Saved()
      reads this
    {
      Going() && sys.worker.claimed && rs == sys.worker.base && calls != [] && calls[|calls| - 1].WriteStatus?
    }

    /** The last call was a status write that was not confirmed. */
    ghost predicate Refused()
      reads this
    {
      Ok() && sys.worker.Busy? && sys.worker.halted && calls != [] && calls[|calls| - 1].WriteStatus?
    }

    method SetFailed(reason: Reason) returns (r: Result)
      requires Going() && StatusAllowed(sys.worker, rs.status.(phase := Failed, reachable := IsFalse(reason)))
      modifies this
      ensures sys.now >= old(sys.now)
      ensures Ok() && sys.worker.Busy? && sys.worker.ev == old(sys.worker.ev)
      ensures |calls| == |old(calls)| + 1 && old(calls) < calls
      ensures Wrote(old(rs.status).(phase := Failed, reachable := IsFalse(reason)))
      ensures (r == Error && Refused())
              || (r == Done && Saved()
                && rs.status == Stored(old(rs.status).(phase := Failed, reachable := IsFalse(reason))))
    {
      rs := rs.(status := rs.status.(phase := Failed, reachable := IsFalse(reason)));
      var ok := StatusUpdate();
      r := if ok then Done else Error;
    }

    method SetApiUnreachable(reason: Reason) returns (r: Result)
      requires Going() && StatusAllowed(sys.worker, rs.status.(reachable := IsFalse(reason)))
      modifies this
      ensures sys.now >= old(sys.now)
      ensures Ok() && sys.worker.Busy? && sys.worker.ev == old(sys.worker.ev)
      ensures |calls| == |old(calls)| + 1 && old(calls) < calls
      ensures Wrote(old(rs.status).(reachable := IsFalse(reason)))
      ensures (r == Error && Refused())
              || (r == After(ERROR_REQUEUE_WAIT) && Saved()
                && rs.status == Stored(old(rs.status).(reachable := IsFalse(reason))))
    {
      rs := rs.(status := rs.status.(reachable := IsFalse(reason)));
      var ok := StatusUpdate();
      r := if ok then After(ERROR_REQUEUE_WAIT) else Error;
    }

    /** Looks the cluster up by name and creates it only if no record is found. */
    method ObtainCluster(displayName: string) returns (id: string, failure: Option<Reason>)
      requires Going() && ConnectStage(sys.worker) && !sys.worker.ev.looked
      requires sys.worker.ev.absent.None? && sys.worker.ev.obtained == ""
      requires displayName == DisplayName(sys.key, sys.worker.base)
      modifies this`sys, this`run, this`calls
      ensures sys.now >= old(sys.now) && old(calls) <= calls
      ensures Going()
      ensures sys.worker == old(sys.worker).(ev := old(sys.worker.ev).(looked := true, absent := None, obtained := id))
      ensures calls != [] && ObtainEnd(failure, calls[|calls| - 1])
      ensures failure.None? <==> id != ""
    {
      var answer := FindCluster(displayName);
      id, failure := "", None;
      if answer.NoAnswer? {
        failure := Some(FindClusterFailed);
      } else if answer.Found? {
        id := answer.id;
      } else {
        id, failure := CreateMissing(displayName);
      }
    }

    method CreateMissing(name: string) returns (id: string, failure: Option<Reason>)
      requires Going() && ConnectStage(sys.worker) && name == DisplayName(sys.key, sys.worker.base)
      requires sys.worker.ev.absent == Some(name) && sys.worker.ev.obtained == ""
      modifies this`sys, this`run, this`calls
      ensures sys.now >= old(sys.now) && old(calls) <= calls
      ensures Going() && sys.worker == old(sys.worker).(ev := old(sys.worker.ev).(absent := None, obtained := id))
      ensures calls != [] && ObtainEnd(failure, calls[|calls| - 1]) && (failure.None? <==> id != "")
    {
      var ok;
      id, ok := CreateCluster(name);
      failure := None;
      if !ok { id, failure := "", Some(CreateClusterFailed); }
    }

    /** From a known cluster id to an applied and recorded import manifest. */
    method ImportCluster() returns (r: Result)
      requires Going() && ConnectStage(sys.worker) && sys.worker.ev.obtained != ""
      requires rs == sys.worker.base.(status := sys.worker.base.status.(clusterId := sys.worker.ev.obtained))
      modifies this
      ensures sys.now >= old(sys.now) && old(calls) <= calls
      ensures Ok() && sys.worker.Busy? && sys.worker.ev.obtained == old(sys.worker.ev.obtained) && calls != []
      ensures SameClient(old(sys.worker.ev), sys.worker.ev)
      ensures r == Error <==> sys.worker.halted
      ensures r != Error ==>
        Saved() && |calls| >= 2 && ImportEnd(r, sys.worker, old(sys.worker.base.status), calls[|calls| - 2])
    {
      var ok := GetRegistrationToken();
      if !ok {
        assert ConnectWrite(sys.worker, rs.status.(reachable := IsFalse(GetTokenFailed)));
        r := SetApiUnreachable(GetTokenFailed);
        return;
      }
      r := ApplyAndRecord();
    }

    method ApplyAndRecord() returns (r: Result)
      requires Going() && ConnectStage(sys.worker) && sys.worker.ev.obtained != "" && sys.worker.ev.token
      requires rs == sys.worker.base.(status := sys.worker.base.status.(clusterId := sys.worker.ev.obtained))
      modifies this
      ensures sys.now >= old(sys.now) && old(calls) <= calls
      ensures Ok() && sys.worker.Busy? && sys.worker.ev.obtained == old(sys.worker.ev.obtained) && calls != []
      ensures SameClient(old(sys.worker.ev), sys.worker.ev)
      ensures r == Error <==> sys.worker.halted
      ensures r != Error ==>
        Saved() && |calls| >= 2 && ImportEnd(r, sys.worker, old(sys.worker.base.status), calls[|calls| - 2])
    {
      var ok := ApplyManifest();
      if ok {
        r := RecordImport();
      } else {
        assert ConnectWrite(sys.worker, rs.status.(phase := Failed, reachable := IsFalse(ManifestApplyFailed)));
        r := SetFailed(ManifestApplyFailed);
      }
    }

    method RecordImport() returns (r: Result)
      requires Going() && ConnectStage(sys.worker) && sys.worker.ev.obtained != "" && sys.worker.ev.applied
      requires rs == sys.worker.base.(status := sys.worker.base.status.(clusterId := sys.worker.ev.obtained))
      modifies this
      ensures sys.now >= old(sys.now) && old(calls) <= calls
      ensures Ok() && sys.worker.Busy? && sys.worker.ev.obtained == old(sys.worker.ev.obtained)
      ensures SameClient(old(sys.worker.ev), sys.worker.ev)
      ensures (r == Error && Refused())
              || (r == After(AGENT_POLL_INTERVAL) && Saved() && |calls| >= 2
                && ImportEnd(r, sys.worker, old(sys.worker.base.status), calls[|calls| - 2]))
    {
      var now := ReadClock();
      rs := rs.(status := rs.status.(manifestApplied := true, connectedAt := Some(now),
                                     expiresAt := Some(now + AGENT_READY_TIMEOUT), reachable := IsTrue(APIReachable)));
      assert ConnectWrite(sys.worker, rs.status);
      var ok := StatusUpdate();
      r := if ok then After(AGENT_POLL_INTERVAL) else Error;
    }

    /** Runs the connect sequence, from the start or again. It returns an error exactly when a status
        write was not confirmed; otherwise what it recorded and asks for follows from the last answer. */
    method HandleConnect() returns (r: Result)
      requires Going() && rs == sys.worker.base && !sys.worker.claimed && Live(sys.worker) && Open(rs.status)
      requires |calls| == 1
      requires !sys.worker.ev.looked && sys.worker.ev.absent.None? && sys.worker.ev.obtained == ""
      modifies this
      ensures sys.now >= old(sys.now) && old(calls) <= calls
      ensures Ok() && sys.worker.Busy? && SameClient(old(sys.worker.ev), sys.worker.ev)
      ensures |calls| >= 2 && calls[1].WriteStatus? && calls[1].status == old(rs.status).(phase := Connecting)
      ensures r == Error <==> sys.worker.halted
      ensures r != Error ==>
        Saved() && ConnectEnd(r, sys.worker, Stored(calls[1].status), calls[|calls| - 2])
    {
      rs := rs.(status := rs.status.(phase := Connecting));
      var ok := StatusUpdate();
      if ok {
        r := ConnectByName();
      } else {
        r := Error;
      }
    }

    /** The connect sequence once its opening write is confirmed. */
    method ConnectByName() returns (r: Result)
      requires Going() && rs == sys.worker.base && ConnectStage(sys.worker)
      requires !sys.worker.ev.looked && sys.worker.ev.absent.None? && sys.worker.ev.obtained == ""
      modifies this
      ensures sys.now >= old(sys.now) && old(calls) <= calls
      ensures Ok() && sys.worker.Busy? && calls != [] && SameClient(old(sys.worker.ev), sys.worker.ev)
      ensures r == Error <==> sys.worker.halted
      ensures r != Error ==>
        Saved() && |calls| >= 2 && ConnectEnd(r, sys.worker, old(rs.status), calls[|calls| - 2])
    {
      var displayName := rs.spec.displayName;
      if displayName == "" { displayName := sys.key; }

      var clusterId, failure := ObtainCluster(displayName);
      if failure.Some? {
        r := SetApiUnreachable(failure.value);
      } else {
        rs := rs.(status := rs.status.(clusterId := clusterId));
        r := ImportCluster();
      }
    }

    /** Waits for the agent: Failed after the deadline, polls again while the agent is missing or has no
        available replica, and otherwise records the session as Connected and asks to be woken at its TTL. */
    method PollAgentReady() returns (r: Result, ghost first: int)
      requires |calls| == 1
      requires Going() && rs == sys.worker.base && !sys.worker.claimed && Live(sys.worker) && Polling(rs.status)
      modifies this
      ensures old(calls) <= calls
      ensures Ok() && sys.worker.Busy? && calls != [] && SameClient(old(sys.worker.ev), sys.worker.ev)
      ensures old(sys.now) <= first <= sys.now && Reads(calls, first)
      ensures PollEnd(r, old(rs), first, sys.worker, calls[|calls| - 1])
    {
      var now := ReadClock();
      first := now;
      if Past(now, rs.status.expiresAt) {
        assert PollWrite(sys.worker, rs.status.(phase := Failed, reachable := IsFalse(AgentReadyTimeout)));
        r := SetFailed(AgentReadyTimeout);
      } else {
        r := CheckAgent(first);
      }
    }

    method CheckAgent(ghost first: int) returns (r: Result)
      requires Going() && rs == sys.worker.base && !sys.worker.claimed && Live(sys.worker) && Polling(rs.status)
      requires first <= sys.now && !Past(first, rs.status.expiresAt)
      modifies this
      ensures sys.now >= old(sys.now) && old(calls) <= calls
      ensures Ok() && sys.worker.Busy? && calls != [] && SameClient(old(sys.worker.ev), sys.worker.ev)
      ensures PollEnd(r, old(rs), first, sys.worker, calls[|calls| - 1])
    {
      var agent := ReadAgent();
      if agent.Unreadable? { return Error; }
      if agent.Absent? || agent.Unavailable? { return After(AGENT_POLL_INTERVAL); }

      var now := ReadClock();
      var ttl := SecondsSpan(rs.spec.ttlSeconds);
      rs := rs.(status := rs.status.(phase := Connected, connectedAt := Some(now), expiresAt := Some(now + ttl),
                                     reachable := IsTrue(SessionEstablished)));
      assert PollWrite(sys.worker, rs.status);
      var ok := StatusUpdate();
      r := if ok then After(ttl) else Error;
    }

    /** Deletes the Rancher record and the cattle-system namespace and records that; for a session marked
        for deletion it then gives up the finalizer. */
    method RunCleanup(client: Client) returns (r: Result)
      requires Going() && rs == sys.worker.base && !sys.worker.claimed && rs.finalizer && client != Missing
      requires sys.worker.ev.deletedId == None && !sys.worker.ev.nsDeleted
      requires ConnectedWrite(sys.worker, rs.status.(phase := Disconnecting))
      modifies this
      ensures sys.now >= old(sys.now) && old(calls) <= calls
      ensures Ok() && sys.worker.Busy? && calls != []
      ensures OnlyCleanup(old(sys.worker.ev), sys.worker.ev)
      ensures Told(r)
      ensures Opens(old(rs), calls, |old(calls)|) && CleanupEnd(r, old(rs), client, sys.worker, calls)
    {
      rs := rs.(status := rs.status.(phase := Disconnecting));
      var ok := StatusUpdate();
      if ok {
        r := DeleteRecord(client, old(rs));
      } else {
        r := Error;
      }
    }

    method DeleteRecord(client: Client, ghost was: Session) returns (r: Result)
      requires Going() && rs == sys.worker.base && CleanupStage(sys.worker) && client != Missing && calls != []
      requires rs == was.(version := rs.version, status := Stored(was.status.(phase := Disconnecting)))
      requires calls[|calls| - 1].WriteStatus?
      modifies this
      ensures sys.now >= old(sys.now) && old(calls) <= calls
      ensures Ok() && sys.worker.Busy? && calls != []
      ensures OnlyCleanup(old(sys.worker.ev), sys.worker.ev)
      ensures Told(r)
      ensures CleanupEnd(r, was, client, sys.worker, calls)
    {
      if rs.status.clusterId == "" {
        r := FinishCleanup(client, was);
      } else if client == TypedNil {
        r := Error;                                  // a call through the nil client panics
      } else {
        r := DeleteAndFinish(client, was);
      }
    }

    method DeleteAndFinish(client: Client, ghost was: Session) returns (r: Result)
      requires Going() && rs == sys.worker.base && CleanupStage(sys.worker) && client == Usable
      requires rs.status.clusterId != ""
      requires rs == was.(version := rs.version, status := Stored(was.status.(phase := Disconnecting)))
      modifies this
      ensures sys.now >= old(sys.now) && old(calls) <= calls && calls != []
      ensures Ok() && sys.worker.Busy?
      ensures OnlyCleanup(old(sys.worker.ev), sys.worker.ev)
      ensures Told(r)
      ensures CleanupEnd(r, was, client, sys.worker, calls)
    {
      var ok := DeleteCluster();
      if ok {
        r := FinishCleanup(client, was);
      } else {
        r := RecordRefusal(client, was);
      }
    }

    /** DeleteCluster was not confirmed: that is recorded, and a retry asked for. */
    method RecordRefusal(client: Client, ghost was: Session) returns (r: Result)
      requires Going() && rs == sys.worker.base && CleanupStage(sys.worker)
      requires calls != [] && calls[|calls| - 1].DeleteCluster? && calls[|calls| - 1].outcome != Applied
      requires rs.status == Stored(was.status.(phase := Disconnecting))
      modifies this
      ensures sys.now >= old(sys.now) && old(calls) <= calls && calls != []
      ensures Ok() && sys.worker.Busy? && sys.worker.ev == old(sys.worker.ev)
      ensures Told(r)
      ensures CleanupEnd(r, was, client, sys.worker, calls)
    {
      assert CleanupWrite(sys.worker, rs.status.(reachable := IsFalse(DeleteClusterFailed)));
      r := SetApiUnreachable(DeleteClusterFailed);
    }

    method FinishCleanup(client: Client, ghost was: Session) returns (r: Result)
      requires Going() && rs == sys.worker.base && CleanupStage(sys.worker) && RecordGone(sys.worker)
      requires rs == was.(version := rs.version, status := Stored(was.status.(phase := Disconnecting)))
      requires client == Usable || rs.status.clusterId == ""
      modifies this
      ensures sys.now >= old(sys.now) && old(calls) <= calls
      ensures Ok() && sys.worker.Busy? && calls != []
      ensures sys.worker.ev == old(sys.worker.ev).(nsDeleted := sys.worker.ev.nsDeleted)
      ensures Told(r)
      ensures CleanupEnd(r, was, client, sys.worker, calls)
    {
      var ok := DeleteNamespace();
      if !ok { return Error; }

      rs := rs.(status := rs.status.(phase := Disconnected));
      assert CleanupWrite(sys.worker, rs.status);
      ok := StatusUpdate();
      if !ok { return Error; }
      if rs.deleting {
        r := RemoveFinalizer();
      } else {
        r := Done;
      }
    }

    /** Enforces the TTL and notices a record deleted on the Rancher side. `first` and `second` are the
        clock readings. Left in Connected, the session gets a wake-up unless the clock reached ExpiresAt
        between the two readings. */
    method HandleConnected(client: Client) returns (r: Result, ghost first: int, ghost second: int)
      requires |calls| == 1
      requires Going() && rs == sys.worker.base && !sys.worker.claimed && Live(sys.worker) && client == Usable
      requires rs.status.phase == Connected && sys.worker.ev.deletedId == None && !sys.worker.ev.nsDeleted
      requires !sys.worker.ev.gone
      modifies this
      ensures old(calls) <= calls
      ensures Ok() && sys.worker.Busy? && calls != []
      ensures old(sys.now) <= first <= second <= sys.now && Reads(calls, first)
      ensures SameClient(old(sys.worker.ev), sys.worker.ev)
      ensures ConnectedEnd(r, old(rs), first, second, sys.worker, calls)
    {
      var now := ReadClock();
      first := now;
      if Past(now, rs.status.expiresAt) {
        assert ConnectedWrite(sys.worker, rs.status.(phase := Disconnecting));
        r := RunCleanup(client);
        second := first;
      } else {
        r, second := CheckRecord(client, first);
      }
    }

    method CheckRecord(client: Client, ghost first: int) returns (r: Result, ghost second: int)
      requires Going() && rs == sys.worker.base && !sys.worker.claimed && Live(sys.worker) && client == Usable
      requires rs.status.phase == Connected && sys.worker.ev.deletedId == None && !sys.worker.ev.nsDeleted
      requires !sys.worker.ev.gone
      requires sys.worker.ev.clock == Some(first) && first <= sys.now && !Past(first, rs.status.expiresAt)
      requires |calls| == 2 && !calls[1].WriteStatus?
      modifies this
      ensures first <= second <= sys.now && old(calls) <= calls
      ensures Ok() && sys.worker.Busy? && calls != [] && SameClient(old(sys.worker.ev), sys.worker.ev)
      ensures ConnectedEnd(r, old(rs), first, second, sys.worker, calls)
    {
      second := first;
      if rs.status.clusterId != "" {
        var probe := GetCluster();
        if !probe.Exists? {
          r := ReactTo(client, probe, first);
          return;
        }
      }
      r, second := AwaitExpiry(first);
    }

    /** The record is gone, or Rancher did not say. */
    method ReactTo(client: Client, probe: Probe, ghost first: int) returns (r: Result)
      requires Going() && rs == sys.worker.base && !sys.worker.claimed && Live(sys.worker) && client == Usable
      requires rs.status.phase == Connected && sys.worker.ev.deletedId == None && !sys.worker.ev.nsDeleted
      requires !probe.Exists? && sys.worker.ev.gone == probe.Gone? && !Past(first, rs.status.expiresAt)
      requires |calls| == 3 && calls[2] == ProbeCluster(!probe.Unknown?) && rs.status.clusterId != ""
      modifies this
      ensures sys.now >= old(sys.now) && old(calls) <= calls
      ensures Ok() && sys.worker.Busy? && calls != [] && SameClient(old(sys.worker.ev), sys.worker.ev)
      ensures sys.worker.ev.gone == probe.Gone?
      ensures if probe.Gone? then Opens(old(rs), calls, 3) && CleanupEnd(r, old(rs), client, sys.worker, calls)
              else StillConnected(r, old(rs), first, first, sys.worker, calls)
    {
      if probe.Gone? {
        assert ConnectedWrite(sys.worker, rs.status.(phase := Disconnecting));
        r := RunCleanup(client);
      } else {
        assert ConnectedWrite(sys.worker, rs.status.(reachable := IsFalse(GetClusterFailed)));
        r := SetApiUnreachable(GetClusterFailed);
      }
    }

    /** Asks to be woken when the TTL runs out. */
    method AwaitExpiry(ghost first: int) returns (r: Result, ghost second: int)
      requires Going() && rs == sys.worker.base && !Past(first, rs.status.expiresAt) && !sys.worker.ev.gone
      requires sys.worker.ev.clock == Some(first) && first <= sys.now && calls != [] && !calls[|calls| - 1].WriteStatus?
      requires if rs.status.clusterId != "" then |calls| == 3 && calls[2] == ProbeCluster(true) else |calls| == 2
      modifies this`sys, this`run, this`calls
      ensures first <= second <= sys.now && old(calls) <= calls
      ensures Ok() && sys.worker.Busy? && calls != [] && !calls[|calls| - 1].WriteStatus? && !sys.worker.ev.gone
      ensures SameClient(old(sys.worker.ev), sys.worker.ev)
      ensures StillConnected(r, rs, first, second, sys.worker, calls)
    {
      second := first;
      if rs.status.expiresAt.Some? {
        var now := ReadClock();
        second := now;
        var remaining := rs.status.expiresAt.value - now;
        if remaining > 0 { r := After(remaining); return; }
      }
      r := Done;
    }

    /** Cleanup of a session marked for deletion. It never asks for a retry: the wait that cleanup asks
        for after a refused DeleteCluster is dropped. Without a client only the namespace is deleted. */
    method HandleDisconnect() returns (r: Result)
      requires Going() && rs == sys.worker.base && !sys.worker.claimed && rs.deleting && sys.worker.ev == NO_EVIDENCE
      requires calls == []
      modifies this
      ensures sys.now >= old(sys.now)
      ensures Ok() && sys.worker.Busy? && (r == Done || r == Error)
      ensures Told(r)
      ensures !old(rs.finalizer) ==> r == Done && calls == old(calls)
      ensures old(rs.finalizer) ==> SecretFirst(sys.worker, calls) && DisconnectEnd(r, old(rs), sys.worker, calls)
    {
      if !rs.finalizer { return Done; }
      var client := RancherClient();
      if client != Missing {
        assert ConnectedWrite(sys.worker, rs.status.(phase := Disconnecting));
        r := RunCleanup(client);
        if r != Error { r := Done; }
        return;
      }
      var ok := DeleteNamespace();
      if !ok { return Error; }
      r := RemoveFinalizer();
    }

    method ByPhase(client: Client) returns (r: Result, ghost first: int, ghost second: int)
      requires Going() && rs == sys.worker.base && !sys.worker.claimed && Live(sys.worker) && client == Usable
      requires sys.worker.ev == NO_EVIDENCE && |calls| == 1
      modifies this
      ensures Ok() && sys.worker.Busy? && calls != [] && old(calls) <= calls
      ensures SameClient(NO_EVIDENCE, sys.worker.ev)
      ensures old(sys.now) <= first <= second <= sys.now
      ensures PhaseEnd(r, old(rs), first, second, sys.worker, calls)
    {
      first, second := sys.now, sys.now;
      StateAt(run, |run.steps|);
      match rs.status.phase
      case New =>
        r := HandleConnect();
      case Connecting =>
        if rs.status.manifestApplied {
          r, first := PollAgentReady();
          second := first;
        } else {
          r := HandleConnect();
        }
      case Connected =>
        r, first, second := HandleConnected(client);
      case Failed => r := Done;
      case Disconnected => r := Done;
      case _ => r := Done;
    }

    /** The body of Reconcile for the session just read into `rs`. */
    method Dispatch() returns (r: Result, ghost first: int, ghost second: int)
      requires Ok() && calls == [] && sys.worker.Busy?
      requires sys.worker == Busy(rs, sys.worker.current, rs, false, false, NO_EVIDENCE)
      modifies this
      ensures old(sys.now) <= first <= second <= sys.now
      ensures Ok() && sys.worker.Busy? && DispatchEnd(r, old(rs), first, second, sys.worker, calls)
      ensures old(rs).deleting ==> Told(r)
      ensures !old(rs).deleting && !old(rs).finalizer ==> (r == Requeue <==> calls[0].outcome == Applied && Added())
    {
      first, second := sys.now, sys.now;
      if rs.deleting {
        r := HandleDisconnect();
        return;
      }
      if !rs.finalizer {
        var ok := AddFinalizer();
        r := if ok then Requeue else Error;
        return;
      }
      if rs.spec.suspend { r := Done; return; }

      var client := RancherClient();
      if client != Usable {
        assert ClientWrite(sys.worker, rs.status.(phase := Failed, reachable := IsFalse(InvalidSecret)));
        r := SetFailed(InvalidSecret);
        return;
      }
      r, first, second := ByPhase(client);
    }

    /** One reconcile: Get may find nothing, fail, or return any version ever stored. The worker is free
        again afterwards, whatever happened; `w` is its last state before that. */
    method Reconcile(get: Fetch<Spec, Status>) returns (r: Result, ghost w: Worker, ghost first: int, ghost second: int)
      requires Ok() && sys.worker.Idle? && (get.Got? ==> Was(sys.api, get.o))
      modifies this
      ensures old(sys.now) <= first <= second <= sys.now
      ensures Ok() && sys.worker.Idle?
      ensures !get.Got? ==> calls == [] && run == old(run) && r == if get == Nothing then Done else Error
      ensures get.Got? ==> w.Busy? && EndedAs(w) && DispatchEnd(r, get.o, first, second, w, calls)
    {
      calls := [];
      w, first, second := Idle, sys.now, sys.now;
      if !get.Got? {
        r := if get == Nothing then Done else Error;
        return;
      }
      rs := get.o;
      Take(Begin(rs));
      r, first, second := Dispatch();
      w := sys.worker;
      Take(End);
    }

    /** The run ended a reconcile whose worker was `w`. */
    ghost predicate EndedAs(w: Worker)
      requires Valid(run)
      reads this
    {
      var n := |run.steps|;
      n > 0 && run.steps[n - 1] == End && At(run, n - 1).worker == w
    }

    /** Any number of reconciles, with whatever the rest of the world does before and after each. */
    method Operate(rounds: nat)
      requires Ok() && sys.worker.Idle?
      modifies this
      ensures Ok() && sys.worker.Idle?
    {
      for i := 0 to rounds
        invariant Ok() && sys.worker.Idle?
      {
        Interfere();
        var get := Get();
        ghost var w, first, second;
        var r;
        r, w, first, second := Reconcile(get);
        Interfere();
      }
    }
  }

  lemma WriteOutcome(s: Sys, st: Status, o: Outcome)
    requires Inv(s) && s.worker.Busy?
    ensures var w := s.worker; var w' := Perform(s, w, WriteStatus(st, o)).worker;
      if o == Applied && Current(s.api, w.base)
      then w' == w.(base := w.base.(version := w'.base.version, status := Stored(st)), claimed := true)
      else w' == w.(halted := true)
  {
    if Current(s.api, s.worker.base) { CurrentIsBase(s.api, s.worker); }
  }
}
