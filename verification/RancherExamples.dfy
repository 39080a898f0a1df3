/** Two concrete runs, written call for call as the reconciler makes them: one in which the cleanup of an
    expired session fails once and is never finished, and one in which a session connects with a TTL so
    large that the reconciler asks for no wake-up. */
module RancherExamples {
  import opened Base
  import opened ApiStore
  import opened RancherProtocol
  import opened RancherInvariant
  import opened RancherTheorems
  import opened RancherCleanup
  import opened RancherController

  const RECORDS: map<string, string> := map["c" := "edge"]
  const CONNECTING: Status := EMPTY_STATUS.(phase := Connecting)
  const IMPORTED: Status := Status(Connecting, "c", true, Some(0), Some(120 * SECOND), IsTrue(APIReachable))

  function ConnectedFor(ttl: Int64): Status {
    Status(Connected, "c", true, Some(0), Some(SecondsSpan(ttl)), IsTrue(SessionEstablished))
  }

  const HOUR: Int64 := 3600
  const CONNECTED: Status := ConnectedFor(HOUR)
  const STRANDED: Status := CONNECTED.(phase := Disconnecting, reachable := IsFalse(DeleteClusterFailed))

  /** A TTL of 9223372037 seconds, one second more than 64 bits of nanoseconds can hold. */
  const HUGE: Int64 := 9_223_372_037

  function SessionWith(ttl: Int64, version: nat, st: Status): Session {
    Object(0, version, false, true, Spec("", ttl, false), st)
  }

  /** No reconcile in progress, the session stored with `st`, and `records` in Rancher. */
  ghost predicate Rests(r: Run, ttl: Int64, st: Status, records: map<string, string>) {
    && Valid(r) && Last(r).key == "edge" && Last(r).worker.Idle? && Last(r).records == records
    && Last(r).api.cur.Some? && Last(r).api.cur.value == SessionWith(ttl, Last(r).api.cur.value.version, st)
  }

  /** A reconcile of the current session is in progress: it holds `st` as stored, and knows `ev`. */
  ghost predicate Works(r: Run, ttl: Int64, st: Status, records: map<string, string>, claimed: bool, ev: Evidence) {
    && Valid(r) && Last(r).key == "edge" && Last(r).records == records
    && Last(r).worker.Busy? && !Last(r).worker.halted && Last(r).worker.claimed == claimed && Last(r).worker.ev == ev
    && Last(r).worker.base == SessionWith(ttl, Last(r).worker.base.version, st)
    && Last(r).api.cur == Some(Last(r).worker.base)
  }

  /** Get returns the current session, and the credentials are read. */
  lemma Start(r: Run, ttl: Int64, st: Status, records: map<string, string>) returns (r': Run)
    requires Rests(r, ttl, st, records)
    ensures Works(r', ttl, st, records, false, NO_EVIDENCE) && Last(r').now == Last(r).now
    ensures Last(r').used == Last(r).used
  {
    StateAt(r, |r.steps|);
    r' := Extend(r, Begin(Last(r).api.cur.value));
    r' := Extend(r', Do(ReadSecret(true, true)));
  }

  lemma Write(r: Run, ttl: Int64, st: Status, records: map<string, string>, claimed: bool, ev: Evidence, st': Status)
    returns (r': Run)
    requires Works(r, ttl, st, records, claimed, ev) && StatusAllowed(Last(r).worker, st')
    ensures Works(r', ttl, Stored(st'), records, true, ev) && Last(r').now == Last(r).now
    ensures Last(r').used == Last(r).used
  {
    r' := Extend(r, Do(WriteStatus(st', Applied)));
  }

  lemma Stop(r: Run, ttl: Int64, st: Status, records: map<string, string>, claimed: bool, ev: Evidence)
    returns (r': Run)
    requires Works(r, ttl, st, records, claimed, ev)
    ensures Rests(r', ttl, st, records) && Last(r').now == Last(r).now && Last(r').used == Last(r).used
  {
    r' := Extend(r, End);
  }

  lemma Call(r: Run, ttl: Int64, st: Status, records: map<string, string>, claimed: bool, ev: Evidence,
    call: RancherProtocol.Call)
    returns (r': Run)
    requires Works(r, ttl, st, records, claimed, ev) && CallEnabled(Last(r), Last(r).worker, call)
    requires !call.WriteStatus? && !call.AddFinalizer? && !call.DropFinalizer? && !call.CreateCluster?
    requires call.DeleteCluster? ==> call.outcome == Rejected
    ensures Works(r', ttl, st, records, claimed, Learn(Last(r), Last(r).worker.base, ev, call))
    ensures Last(r').now == Last(r).now && Last(r').used == Last(r).used
  {
    r' := Extend(r, Do(call));
  }

  /** The trigger creates the session, and the first reconcile adds the finalizer. */
  lemma Admitted(ttl: Int64) returns (r: Run)
    requires ttl > 0
    ensures Rests(r, ttl, EMPTY_STATUS, map[]) && Last(r).used == {} && Last(r).now == 0
  {
    r := Run([Init("edge", 0)], []);
    r := Extend(r, Env(Connect(ttl)));
    StateAt(r, |r.steps|);
    r := Extend(r, Begin(Last(r).api.cur.value));
    r := Extend(r, Do(AddFinalizer(Applied)));
    r := Extend(r, End);
  }

  lemma Created(ttl: Int64) returns (r: Run)
    requires ttl > 0
    ensures Works(r, ttl, CONNECTING, RECORDS, true, NO_EVIDENCE.(looked := true, obtained := "c")) && Last(r).now == 0
  {
    r := Admitted(ttl);
    r := Start(r, ttl, EMPTY_STATUS, map[]);
    r := Write(r, ttl, EMPTY_STATUS, map[], false, NO_EVIDENCE, CONNECTING);
    r := Call(r, ttl, CONNECTING, map[], true, NO_EVIDENCE, FindCluster(NotFound));
    r := Extend(r, Do(CreateCluster("c", Applied)));
  }

  lemma Imported(ttl: Int64) returns (r: Run)
    requires ttl > 0
    ensures Rests(r, ttl, IMPORTED, RECORDS) && Last(r).now == 0
  {
    r := Created(ttl);
    var ev := NO_EVIDENCE.(looked := true, obtained := "c");
    r := Call(r, ttl, CONNECTING, RECORDS, true, ev, FetchToken(true));
    r := Call(r, ttl, CONNECTING, RECORDS, true, ev.(token := true), ApplyManifest(true));
    r := Call(r, ttl, CONNECTING, RECORDS, true, ev.(token := true, applied := true), ReadClock(0));
    ev := ev.(token := true, applied := true, clock := Some(0));
    assert ConnectWrite(Last(r).worker, IMPORTED);
    r := Write(r, ttl, CONNECTING, RECORDS, true, ev, IMPORTED);
    assert Stored(IMPORTED) == IMPORTED;
    r := Stop(r, ttl, IMPORTED, RECORDS, true, ev);
  }

  lemma Established(ttl: Int64) returns (r: Run)
    requires ttl > 0
    ensures Rests(r, ttl, Stored(ConnectedFor(ttl)), RECORDS) && Last(r).now == 0
  {
    r := Imported(ttl);
    r := Start(r, ttl, IMPORTED, RECORDS);
    r := Call(r, ttl, IMPORTED, RECORDS, false, NO_EVIDENCE, ReadClock(0));   // the deadline has not passed
    r := Call(r, ttl, IMPORTED, RECORDS, false, NO_EVIDENCE.(clock := Some(0)), ReadAgent(Available));
    var ev := NO_EVIDENCE.(clock := Some(0), agentReady := true);
    r := Call(r, ttl, IMPORTED, RECORDS, false, ev, ReadClock(0));
    assert PollWrite(Last(r).worker, ConnectedFor(ttl));
    r := Write(r, ttl, IMPORTED, RECORDS, false, ev, ConnectedFor(ttl));
    r := Stop(r, ttl, Stored(ConnectedFor(ttl)), RECORDS, true, ev);
  }

  lemma Later(r: Run, ttl: Int64, st: Status, records: map<string, string>, dt: nat) returns (r': Run)
    requires Rests(r, ttl, st, records)
    ensures Rests(r', ttl, st, records) && Last(r').now == Last(r).now + dt
  {
    r' := Extend(r, Env(Tick(dt)));
  }

  lemma Refused() returns (r: Run)
    ensures Rests(r, HOUR, STRANDED, RECORDS)
  {
    r := Established(HOUR);
    assert Stored(CONNECTED) == CONNECTED;
    r := Later(r, HOUR, CONNECTED, RECORDS, 4000 * SECOND);
    r := Start(r, HOUR, CONNECTED, RECORDS);
    r := Call(r, HOUR, CONNECTED, RECORDS, false, NO_EVIDENCE, ReadClock(4000 * SECOND));
    var ev, disconnecting := NO_EVIDENCE.(clock := Some(4000 * SECOND)), CONNECTED.(phase := Disconnecting);
    assert ConnectedWrite(Last(r).worker, disconnecting);
    r := Write(r, HOUR, CONNECTED, RECORDS, false, ev, disconnecting);
    assert Stored(disconnecting) == disconnecting;
    r := Call(r, HOUR, disconnecting, RECORDS, true, ev, DeleteCluster(Rejected));
    assert CleanupWrite(Last(r).worker, STRANDED);
    r := Write(r, HOUR, disconnecting, RECORDS, true, ev, STRANDED);
    assert Stored(STRANDED) == STRANDED;
    r := Stop(r, HOUR, STRANDED, RECORDS, true, ev);
  }

  /** One refused DeleteCluster after the TTL leaves a live session Disconnecting with its record in Rancher.
      The retry 30 seconds later finds no case for the phase; RancherCleanup.FailedCleanupIsNotResumed says
      that no later reconcile does either. */
  lemma TtlCleanupCanStrand() returns (r: Run)
    ensures Rests(r, HOUR, STRANDED, RECORDS)
  {
    r := Refused();
    r := Later(r, HOUR, STRANDED, RECORDS, 30 * SECOND);
    r := Start(r, HOUR, STRANDED, RECORDS);
    r := Stop(r, HOUR, STRANDED, RECORDS, false, NO_EVIDENCE);
  }

  /** With the huge TTL a session connects all the same, and its stored expiry lies before its connection. */
  lemma OverflowingTtlConnects() returns (r: Run)
    ensures Rests(r, HUGE, Stored(ConnectedFor(HUGE)), RECORDS)
    ensures SecondsSpan(HUGE) < 0
    ensures Stored(ConnectedFor(HUGE)).expiresAt.value < Stored(ConnectedFor(HUGE)).connectedAt.value
  {
    r := Established(HUGE);
  }
}
