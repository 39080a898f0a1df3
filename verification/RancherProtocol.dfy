/** The RancherSession lifecycle as a protocol: what the API server, Rancher, the clock, the trigger
    server and one reconcile worker can do, one atomic call at a time, in any interleaving.

    A worker step is `Enabled` only when the evidence gathered so far in the same reconcile justifies
    it. RancherController shows that the reconciler's code takes enabled steps only; RancherTheorems
    shows what every run of enabled steps guarantees. A crash of the worker is `End` at any moment. */
module RancherProtocol {
  import opened Base
  import opened ApiStore

  datatype Phase = New | Connecting | Connected | Disconnecting | Disconnected | Failed

  function Rank(p: Phase): nat {
    match p
    case New => 0
    case Connecting => 1
    case Connected => 2
    case Disconnecting => 3
    case Disconnected => 4
    case Failed => 5
  }

  datatype Spec = Spec(displayName: string, ttlSeconds: Int64, suspend: bool)

  /** The RancherAPIReachable condition and its reason; SessionEstablished is the one the code calls Connected. */
  datatype Reason =
    | FindClusterFailed | CreateClusterFailed | GetTokenFailed | ManifestApplyFailed | APIReachable
    | AgentReadyTimeout | SessionEstablished | InvalidSecret | GetClusterFailed | DeleteClusterFailed
  datatype Reachable = Unset | IsTrue(reason: Reason) | IsFalse(reason: Reason)

  datatype Status = Status(
    phase: Phase,
    clusterId: string,
    manifestApplied: bool,
    connectedAt: Option<int>,
    expiresAt: Option<int>,
    reachable: Reachable)

  type Session = Object<Spec, Status>

  const EMPTY_STATUS: Status := Status(New, "", false, None, None, Unset)
  const AGENT_READY_TIMEOUT: int := 120 * SECOND

  /** The form in which the API server keeps a status: timestamps lose their fraction. */
  function Stored(st: Status): Status {
    st.(connectedAt := FloorStamp(st.connectedAt), expiresAt := FloorStamp(st.expiresAt))
  }

  function DisplayName(key: string, rs: Session): string {
    if rs.spec.displayName == "" then key else rs.spec.displayName
  }

  /** The worker between two reconciles, or the evidence of the reconcile in progress.
      `base` is the last version of the session this reconcile knows the API server to hold: the one
      it read, or the one its latest status write produced (then `claimed`). */
  datatype Worker = Idle | Busy(
    read: Session,              // what Get returned
    current: bool,              // it was the current version at that moment
    base: Session,
    claimed: bool,
    halted: bool,               // a write failed: the code returns without another call
    ev: Evidence)

  /** The answers this reconcile has received. */
  datatype Evidence = Evidence(
    clock: Option<int>,         // the latest clock reading
    noClient: bool,             // the credentials Secret could not be read
    badClient: bool,            // ... or no client could be built from it
    looked: bool,               // the name was looked up
    absent: Option<string>,     // ... and not found
    obtained: string,           // a cluster id found or created
    token: bool,
    applied: bool,              // the manifest was applied
    agentReady: bool,
    gone: bool,                 // Rancher answered 404 for the recorded id
    deletedId: Option<string>,  // a cluster id whose deletion was confirmed
    nsDeleted: bool)            // deletion of cattle-system was accepted or found done

  const NO_EVIDENCE: Evidence :=
    Evidence(None, false, false, false, None, "", false, false, false, false, None, false)

  /** The exact instant and TTL of the latest effective move to Connected. */
  datatype Connection = Connection(instant: int, ttl: Int64)

  datatype Sys = Sys(
    key: string,
    api: Store<Spec, Status>,
    records: map<string, string>,// Rancher: cluster id -> name
    used: set<string>,           // cluster ids ever handed out
    now: int,
    worker: Worker,
    conn: Connection,
    connects: nat,               // trigger connects that created a session
    removed: nat)                // sessions that left the API server

  function Init(key: string, now: int): Sys {
    Sys(key, Empty(), map[], {}, now, Idle, Connection(0, 0), 0, 0)
  }

  /** The answer of a lookup by name: exact matches only. */
  datatype Answer = Found(id: string) | NotFound | NoAnswer

  /** The cattle-cluster-agent Deployment as Get and AvailableReplicas report it. */
  datatype Agent = Absent | Unreadable | Unavailable | Available

  /** What happens around the worker. */
  datatype Move =
    | Tick(dt: nat)
    | Connect(ttl: Int64)                  // the trigger's Create reaches the API server
    | Delete                               // a delete request reaches the API server
    | Edit(spec: Spec)                     // a user edits the spec
    | Vanish(id: string)                   // someone removes a record in Rancher

  /** The calls a reconcile makes, with what becomes of them. */
  datatype Call =
    | ReadSecret(found: bool, wellFormed: bool)
    | ReadClock(t: int)
    | AddFinalizer(outcome: Outcome)
    | DropFinalizer(outcome: Outcome)
    | WriteStatus(status: Status, outcome: Outcome)
    | FindCluster(answer: Answer)
    | CreateCluster(id: string, outcome: Outcome)
    | FetchToken(ok: bool)
    | ApplyManifest(ok: bool)
    | ReadAgent(agent: Agent)
    | ProbeCluster(ok: bool)
    | DeleteCluster(outcome: Outcome)
    | DeleteNamespace(ok: bool)

  datatype Step = Env(move: Move) | Begin(read: Session) | End | Do(call: Call)

  // ---- Evidence ----

  /** The read session is one the code works on: not being deleted, finalizer in place, not suspended. */
  predicate Live(w: Worker)
    requires w.Busy?
  {
    !w.base.deleting && w.base.finalizer && !w.base.spec.suspend
  }

  /** The session may still be connected: nothing of the import has been applied. */
  predicate Open(st: Status) {
    (st.phase == New || st.phase == Connecting) && !st.manifestApplied
  }

  predicate Polling(st: Status) { st.phase == Connecting && st.manifestApplied }

  /** The connect sequence is under way and its opening status write was accepted. */
  predicate ConnectStage(w: Worker)
    requires w.Busy?
  {
    w.claimed && Live(w) && w.base.status.phase == Connecting && !w.base.status.manifestApplied
  }

  predicate Expired(w: Worker)
    requires w.Busy?
  {
    w.base.status.expiresAt.Some? && w.ev.clock.Some? && w.ev.clock.value > w.base.status.expiresAt.value
  }

  predicate RecordGone(w: Worker)
    requires w.Busy?
  {
    w.base.status.clusterId == "" || w.ev.deletedId == Some(w.base.status.clusterId)
  }

  predicate CleanupStage(w: Worker)
    requires w.Busy?
  {
    w.claimed && w.base.finalizer && w.base.status.phase == Disconnecting
  }

  /** The status writes of the reconciler. */
  predicate StatusAllowed(w: Worker, st: Status)
    requires w.Busy?
  {
    || ConnectWrite(w, st)
    || PollWrite(w, st)
    || ClientWrite(w, st)
    || ConnectedWrite(w, st)
    || CleanupWrite(w, st)
  }

  predicate ConnectWrite(w: Worker, st: Status)
    requires w.Busy?
  {
    var b := w.base.status;
    || (!w.claimed && Live(w) && Open(b) && st == b.(phase := Connecting))
    || (ConnectStage(w) && w.ev.obtained == "" &&
        (st == b.(reachable := IsFalse(FindClusterFailed)) || st == b.(reachable := IsFalse(CreateClusterFailed))))
    || (ConnectStage(w) && w.ev.obtained != "" &&
        (|| st == b.(clusterId := w.ev.obtained, reachable := IsFalse(GetTokenFailed))
         || st == b.(phase := Failed, clusterId := w.ev.obtained, reachable := IsFalse(ManifestApplyFailed))))
    || (ConnectStage(w) && w.ev.obtained != "" && w.ev.applied && w.ev.clock.Some? &&
        st == b.(clusterId := w.ev.obtained, manifestApplied := true, connectedAt := w.ev.clock,
                 expiresAt := Some(w.ev.clock.value + AGENT_READY_TIMEOUT), reachable := IsTrue(APIReachable)))
  }

  predicate PollWrite(w: Worker, st: Status)
    requires w.Busy?
  {
    var b := w.base.status;
    && !w.claimed && Live(w) && Polling(b)
    && (|| (Expired(w) && st == b.(phase := Failed, reachable := IsFalse(AgentReadyTimeout)))
        || (w.ev.agentReady && w.ev.clock.Some? &&
            st == b.(phase := Connected, connectedAt := w.ev.clock,
                     expiresAt := Some(w.ev.clock.value + SecondsSpan(w.base.spec.ttlSeconds)),
                     reachable := IsTrue(SessionEstablished))))
  }

  predicate ClientWrite(w: Worker, st: Status)
    requires w.Busy?
  {
    && !w.claimed && Live(w) && w.ev.badClient
    && st == w.base.status.(phase := Failed, reachable := IsFalse(InvalidSecret))
  }

  predicate ConnectedWrite(w: Worker, st: Status)
    requires w.Busy?
  {
    var b := w.base.status;
    && !w.claimed && w.base.finalizer
    && (|| (Live(w) && b.phase == Connected && st == b.(reachable := IsFalse(GetClusterFailed)))
        || (((Live(w) && b.phase == Connected && (w.ev.gone || Expired(w))) || w.base.deleting)
            && st == b.(phase := Disconnecting)))
  }

  predicate CleanupWrite(w: Worker, st: Status)
    requires w.Busy?
  {
    var b := w.base.status;
    && CleanupStage(w)
    && (|| st == b.(reachable := IsFalse(DeleteClusterFailed))
        || (RecordGone(w) && w.ev.nsDeleted && st == b.(phase := Disconnected)))
  }

  /** What justifies giving up the finalizer: both deletions confirmed and recorded, or only the
      namespace deletion when the credentials could not even be read. */
  predicate MayFinish(w: Worker)
    requires w.Busy?
  {
    && w.base.deleting && w.base.finalizer && w.ev.nsDeleted
    && (w.ev.noClient || (w.claimed && RecordGone(w) && w.base.status.phase == Disconnected))
  }

  predicate Truthful(records: map<string, string>, name: string, answer: Answer) {
    match answer
    case Found(id) => id in records && records[id] == name
    case NotFound => name !in records.Values
    case NoAnswer => true
  }

  predicate Enabled(s: Sys, step: Step) {
    match step
    case Env(move) => move.Connect? ==> move.ttl > 0
    case Begin(read) => s.worker.Idle? && Was(s.api, read)
    case End => s.worker.Busy?
    case Do(call) => s.worker.Busy? && !s.worker.halted && CallEnabled(s, s.worker, call)
  }

  predicate CallEnabled(s: Sys, w: Worker, call: Call)
    requires w.Busy?
  {
    match call
    case ReadSecret(_, _) => !w.claimed
    case ReadClock(t) => t == s.now
    case AddFinalizer(_) => !w.claimed && !w.base.deleting && !w.base.finalizer
    case DropFinalizer(_) => MayFinish(w)
    case WriteStatus(st, _) => StatusAllowed(w, st)
    case FindCluster(answer) =>
      ConnectStage(w) && !w.ev.looked && Truthful(s.records, DisplayName(s.key, w.base), answer)
    case CreateCluster(id, o) =>
      && ConnectStage(w) && w.ev.absent == Some(DisplayName(s.key, w.base))
      && (o != Rejected ==> id != "" && id !in s.used)
    case FetchToken(_) => ConnectStage(w) && w.ev.obtained != ""
    case ApplyManifest(_) => ConnectStage(w) && w.ev.obtained != "" && w.ev.token
    case ReadAgent(_) => Live(w) && Polling(w.base.status)
    case ProbeCluster(_) => !w.claimed && Live(w) && w.base.status.phase == Connected && w.base.status.clusterId != ""
    case DeleteCluster(_) => CleanupStage(w) && w.base.status.clusterId != ""
    case DeleteNamespace(_) =>
      || (CleanupStage(w) && RecordGone(w))
      || (w.base.deleting && w.base.finalizer && w.ev.noClient)
  }

  // ---- Effects ----

  function Apply(s: Sys, step: Step): Sys {
    match step
    case Env(move) => Happen(s, move)
    case Begin(read) =>
      s.(worker := Busy(read, s.api.cur == Some(read), read, false, false, NO_EVIDENCE))
    case End => s.(worker := Idle)
    case Do(call) => if s.worker.Idle? then s else Perform(s, s.worker, call)
  }

  function Happen(s: Sys, move: Move): (s': Sys)
    ensures s'.worker == s.worker && s'.key == s.key && s'.used == s.used && s'.records.Keys <= s.records.Keys
    ensures s.now <= s'.now
  {
    match move
    case Tick(dt) => s.(now := s.now + dt)
    case Connect(ttl) => DoConnect(s, ttl)
    case Delete => DoDelete(s)
    case Edit(spec) => s.(api := EditSpec(s.api, spec))
    case Vanish(id) => s.(records := s.records - {id})
  }

  function DoConnect(s: Sys, ttl: Int64): Sys {
    if s.api.cur.Some? then s
    else s.(api := Create(s.api, Spec("", ttl, false), EMPTY_STATUS),
            connects := s.connects + 1)
  }

  function DoDelete(s: Sys): Sys {
    var api' := ApiStore.Delete(s.api);
    s.(api := api', removed := s.removed + Departed(s.api, api'))
  }

  function Departed(a: Store<Spec, Status>, b: Store<Spec, Status>): nat {
    if a.cur.Some? && b.cur.None? then 1 else 0
  }

  /** What a reconcile knows after a call. */
  function Learn(s: Sys, base: Session, ev: Evidence, call: Call): Evidence {
    match call
    case ReadSecret(found, wellFormed) => ev.(noClient := !found, badClient := !found || !wellFormed)
    case ReadClock(t) => ev.(clock := Some(t))
    case FindCluster(answer) =>
      ev.(looked := true,
          absent := if answer.NotFound? then Some(DisplayName(s.key, base)) else ev.absent,
          obtained := if answer.Found? then answer.id else ev.obtained)
    case CreateCluster(id, o) => ev.(absent := None, obtained := if o == Applied then id else ev.obtained)
    case FetchToken(ok) => ev.(token := ok)
    case ApplyManifest(ok) => ev.(applied := ok)
    case ReadAgent(agent) => ev.(agentReady := agent.Available?)
    case ProbeCluster(ok) => ev.(gone := ok && base.status.clusterId !in s.records)
    case DeleteCluster(o) => if o == Applied then ev.(deletedId := Some(base.status.clusterId)) else ev
    case DeleteNamespace(ok) => ev.(nsDeleted := ok)
    case _ => ev
  }

  function Perform(s: Sys, w: Worker, call: Call): (s': Sys)
    requires w.Busy?
    ensures s'.worker.Busy? && s'.worker.read == w.read && s'.worker.current == w.current
    ensures s'.worker.ev == Learn(s, w.base, w.ev, call)
    ensures s'.key == s.key && s'.now == s.now && s.used <= s'.used
    ensures s'.api.nextUid == s.api.nextUid && (s.api.cur.None? ==> s'.api.cur.None?)
  {
    var ev := Learn(s, w.base, w.ev, call);
    match call
    case AddFinalizer(o) => DoAddFinalizer(s, w, o)
    case DropFinalizer(o) => DoDropFinalizer(s, w, o)
    case WriteStatus(st, o) => DoWriteStatus(s, w, st, o)
    case CreateCluster(id, o) =>
      if o == Rejected then s.(worker := w.(ev := ev))
      else s.(worker := w.(ev := ev), records := s.records[id := DisplayName(s.key, w.base)], used := s.used + {id})
    case DeleteCluster(o) =>
      if o == Rejected then s.(worker := w.(ev := ev))
      else s.(worker := w.(ev := ev), records := s.records - {w.base.status.clusterId})
    case _ => s.(worker := w.(ev := ev))
  }

  function DoAddFinalizer(s: Sys, w: Worker, o: Outcome): Sys
    requires w.Busy?
  {
    if o == Rejected || !Current(s.api, w.base) then s.(worker := w.(halted := true))
    else s.(api := ApiStore.AddFinalizer(s.api, w.base), worker := w.(halted := true))
  }

  function DoDropFinalizer(s: Sys, w: Worker, o: Outcome): Sys
    requires w.Busy?
  {
    if o == Rejected || !Current(s.api, w.base) then s.(worker := w.(halted := true))
    else
      var api' := ApiStore.DropFinalizer(s.api, w.base);
      s.(api := api', worker := w.(halted := true), removed := s.removed + Departed(s.api, api'))
  }

  /** The latest connection once `st` is stored. */
  function ConnAfter(s: Sys, w: Worker, st: Status): Connection
    requires w.Busy?
  {
    if st.phase == Connected && w.base.status.phase == Connecting && w.ev.clock.Some?
    then Connection(w.ev.clock.value, w.base.spec.ttlSeconds) else s.conn
  }

  /** A status write. Only a confirmed one lets the reconcile go on, from the version it produced. */
  function DoWriteStatus(s: Sys, w: Worker, st: Status, o: Outcome): Sys
    requires w.Busy?
  {
    if o == Rejected || !Current(s.api, w.base) then s.(worker := w.(halted := true))
    else
      var api' := ApiStore.WriteStatus(s.api, w.base, Stored(st));
      s.(api := api',
         worker := if o == Applied then w.(base := api'.cur.value, claimed := true) else w.(halted := true),
         conn := ConnAfter(s, w, st))
  }

  // ---- Runs ----

  /** A run: the steps taken and the states passed through. */
  datatype Run = Run(states: seq<Sys>, steps: seq<Step>)

  ghost predicate Shaped(r: Run) { |r.states| == |r.steps| + 1 }

  ghost predicate Follows(r: Run, i: nat)
    requires Shaped(r) && i < |r.steps|
  {
    Enabled(r.states[i], r.steps[i]) && r.states[i + 1] == Apply(r.states[i], r.steps[i])
  }

  ghost predicate Valid(r: Run) {
    && Shaped(r)
    && r.states[0] == Init(r.states[0].key, r.states[0].now)
    && (forall i: nat | i < |r.steps| :: Follows(r, i))
  }

  /** The system after the first `i` steps. */
  ghost function At(r: Run, i: nat): Sys
    requires Valid(r) && i <= |r.steps|
  {
    r.states[i]
  }

  ghost function Last(r: Run): Sys
    requires Valid(r)
  {
    At(r, |r.steps|)
  }

  ghost function Extend(r: Run, step: Step): (r': Run)
    requires Valid(r) && Enabled(Last(r), step)
    ensures Valid(r') && Last(r') == Apply(Last(r), step)
  {
    var r' := Run(r.states + [Apply(Last(r), step)], r.steps + [step]);
    assert forall i: nat | i < |r'.steps| :: Follows(r', i) by {
      forall i: nat | i < |r'.steps| ensures Follows(r', i) {
        if i < |r.steps| { assert Follows(r, i); }
      }
    }
    r'
  }
}
