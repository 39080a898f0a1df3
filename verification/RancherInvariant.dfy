/** The inductive invariant of the RancherSession protocol and its preservation by every step. */
module RancherInvariant {
  import opened Base
  import opened ApiStore
  import opened RancherProtocol

  ghost predicate UniqueNames(records: map<string, string>) {
    forall i, j | i in records && j in records && records[i] == records[j] :: i == j
  }

  ghost predicate RecordsOk(records: map<string, string>, used: set<string>) {
    && UniqueNames(records)
    && records.Keys <= used
    && "" !in used
  }

  predicate Known(used: set<string>, id: string) { id == "" || id in used }

  /** ExpiresAt and ConnectedAt of a connected session are the stored forms of the exact instant of
      the connection and of that instant plus the TTL span. */
  predicate StampsMatch(st: Status, c: Connection) {
    && st.connectedAt == Some(FloorSecond(c.instant))
    && st.expiresAt == Some(FloorSecond(c.instant + SecondsSpan(c.ttl)))
  }

  ghost predicate StatusOk(st: Status, c: Connection) {
    && Stored(st) == st
    && (st.manifestApplied ==> st.clusterId != "")
    && (st.phase == Connected ==> st.manifestApplied && StampsMatch(st, c))
    && (Polling(st) ==> st.connectedAt.Some? && st.expiresAt == Some(st.connectedAt.value + AGENT_READY_TIMEOUT))
  }

  ghost predicate SessionOk(cur: Option<Session>, used: set<string>, c: Connection) {
    cur.Some? ==>
      && Known(used, cur.value.status.clusterId)
      && StatusOk(cur.value.status, c)
      && (cur.value.deleting ==> cur.value.finalizer)
      && (!cur.value.finalizer ==> cur.value.status.clusterId == "")
  }

  /** The controller ends a session that nobody asked to delete only because Rancher answered 404 or
      because it has been connected for more than the TTL less one second. */
  predicate EndJustified(w: Worker, c: Connection)
    requires w.Busy?
  {
    w.ev.gone || (w.ev.clock.Some? && w.ev.clock.value > c.instant + SecondsSpan(c.ttl) - SECOND)
  }

  ghost predicate BaseOk(api: Store<Spec, Status>, w: Worker) {
    w.Busy? ==>
      && Was(api, w.base)
      && w.base == w.read.(version := w.base.version, status := w.base.status)
      && (!w.claimed ==> w.base == w.read)
      && (!w.current ==> !w.claimed && !Current(api, w.base))
  }

  ghost predicate ClaimOk(cur: Option<Session>, used: set<string>, c: Connection, w: Worker) {
    w.Busy? && w.claimed ==>
      && w.base.finalizer
      && Known(used, w.base.status.clusterId)
      && (!w.halted ==>
        cur.Some? && cur.value ==
        w.base.(version := cur.value.version, spec := cur.value.spec, deleting := cur.value.deleting))
      && (!w.base.deleting && w.base.status.phase == Disconnecting ==> EndJustified(w, c))
  }

  /** Of the records under the session's name the obtained one is the only one. */
  ghost predicate Sole(key: string, records: map<string, string>, w: Worker)
    requires w.Busy?
  {
    w.ev.obtained != "" ==> forall id | id in records && records[id] == DisplayName(key, w.base) :: id == w.ev.obtained
  }

  ghost predicate EvidenceOk(key: string, records: map<string, string>, used: set<string>, now: int, w: Worker) {
    w.Busy? ==>
      && (w.ev.absent.Some? ==> w.ev.absent.value !in records.Values && w.ev.obtained == "")
      && (!w.ev.looked ==> w.ev.absent.None? && w.ev.obtained == "")
      && Sole(key, records, w)
      && Known(used, w.ev.obtained)
      && (w.ev.deletedId.Some? ==> w.ev.deletedId.value in used && w.ev.deletedId.value !in records)
      && (w.ev.clock.Some? ==> w.ev.clock.value <= now)
  }

  predicate CountOk(connects: nat, removed: nat, cur: Option<Session>) {
    connects == removed + (if cur.Some? then 1 else 0)
  }

  /** In no version ever stored is a manifest applied before the phase is set. */
  ghost predicate NewIsBlank(api: Store<Spec, Status>) {
    forall v | v in api.past :: api.past[v].status.phase == New ==> !api.past[v].status.manifestApplied
  }

  ghost predicate Inv(s: Sys) {
    && Ok(s.api)
    && NewIsBlank(s.api)
    && RecordsOk(s.records, s.used)
    && SessionOk(s.api.cur, s.used, s.conn)
    && BaseOk(s.api, s.worker)
    && ClaimOk(s.api.cur, s.used, s.conn, s.worker)
    && EvidenceOk(s.key, s.records, s.used, s.now, s.worker)
    && CountOk(s.connects, s.removed, s.api.cur)
  }

  lemma InitInv(key: string, now: int)
    ensures Inv(Init(key, now))
  {
  }

  /** While the version a reconcile builds on is current, it is the very object in the API server. */
  lemma CurrentIsBase(api: Store<Spec, Status>, w: Worker)
    requires Ok(api) && BaseOk(api, w) && w.Busy? && Current(api, w.base)
    ensures api.cur == Some(w.base) && w.current
  {
  }

  lemma BaseStaysOk(a: Store<Spec, Status>, b: Store<Spec, Status>, w: Worker)
    requires Ok(a) && Advances(a, b) && BaseOk(a, w)
    ensures BaseOk(b, w)
  {
    if w.Busy? && !w.current {
      StaleStaysStale(a, b, w.base);
    }
  }

  // ---- Environment steps ----

  lemma ConnectKeepsInv(s: Sys, ttl: Int64)
    requires Inv(s)
    ensures Inv(DoConnect(s, ttl))
  {
    if s.api.cur.None? {
      CreateAdvances(s.api, Spec("", ttl, false), EMPTY_STATUS);
      BaseStaysOk(s.api, DoConnect(s, ttl).api, s.worker);
    }
  }

  lemma DeleteKeepsInv(s: Sys)
    requires Inv(s)
    ensures Inv(DoDelete(s))
  {
    if s.api.cur.Some? {
      PutAdvances(s.api, s.api.cur.value.(deleting := true));
      BaseStaysOk(s.api, DoDelete(s).api, s.worker);
    }
  }

  lemma EditKeepsInv(s: Sys, spec: Spec)
    requires Inv(s)
    ensures Inv(s.(api := EditSpec(s.api, spec)))
  {
    if s.api.cur.Some? {
      PutAdvances(s.api, s.api.cur.value.(spec := spec));
      BaseStaysOk(s.api, EditSpec(s.api, spec), s.worker);
    }
  }

  lemma VanishKeepsInv(s: Sys, id: string)
    requires Inv(s)
    ensures Inv(s.(records := s.records - {id}))
  {
  }

  // ---- Writes to the API server ----

  lemma HaltKeepsInv(s: Sys)
    requires Inv(s) && s.worker.Busy?
    ensures Inv(s.(worker := s.worker.(halted := true)))
  {
  }

  lemma AddFinalizerKeepsInv(s: Sys, o: Outcome)
    requires Inv(s) && s.worker.Busy? && !s.worker.claimed && !s.worker.base.deleting
    ensures Inv(DoAddFinalizer(s, s.worker, o))
  {
    if o == Rejected || !Current(s.api, s.worker.base) {
      HaltKeepsInv(s);
    } else {
      CurrentIsBase(s.api, s.worker);
      var o' := s.worker.base.(finalizer := true);
      PutAdvances(s.api, o');
      var w' := s.worker.(halted := true);
      BaseStaysOk(s.api, Put(s.api, o'), w');
      var s' := s.(api := Put(s.api, o'), worker := w');
      assert Inv(s');
      assert DoAddFinalizer(s, s.worker, o) == s';
    }
  }

  lemma DropFinalizerKeepsInv(s: Sys, o: Outcome)
    requires Inv(s) && s.worker.Busy? && !s.worker.halted && MayFinish(s.worker)
    ensures Inv(DoDropFinalizer(s, s.worker, o))
  {
    if o == Rejected || !Current(s.api, s.worker.base) {
      HaltKeepsInv(s);
    } else {
      CurrentIsBase(s.api, s.worker);
      var w := s.worker;
      var s' := s.(api := s.api.(cur := None), worker := w.(halted := true), removed := s.removed + 1);
      assert Inv(s');
      assert DoDropFinalizer(s, w, o) == s';
    }
  }

  lemma ConnectWriteOk(s: Sys, w: Worker, st: Status)
    requires w.Busy? && ConnectWrite(w, st) && StatusOk(w.base.status, s.conn)
    ensures StatusOk(Stored(st), ConnAfter(s, w, st))
  {
    if w.ev.clock.Some? { FloorSecondShift(w.ev.clock.value, 120); }
  }

  lemma OtherWriteOk(s: Sys, w: Worker, st: Status)
    requires w.Busy? && StatusAllowed(w, st) && !ConnectWrite(w, st) && StatusOk(w.base.status, s.conn)
    ensures StatusOk(Stored(st), ConnAfter(s, w, st))
  {
  }

  lemma WriteOk(s: Sys, w: Worker, st: Status)
    requires w.Busy? && StatusAllowed(w, st) && StatusOk(w.base.status, s.conn)
    ensures StatusOk(Stored(st), ConnAfter(s, w, st))
  {
    if ConnectWrite(w, st) { ConnectWriteOk(s, w, st); } else { OtherWriteOk(s, w, st); }
  }

  /** A status write that ends a live session carries the evidence for it. */
  lemma EndingJustified(s: Sys, w: Worker, st: Status)
    requires w.Busy? && StatusAllowed(w, st) && StatusOk(w.base.status, s.conn)
    requires !w.base.deleting && st.phase == Disconnecting
    requires w.claimed && w.base.status.phase == Disconnecting ==> EndJustified(w, s.conn)
    ensures ConnAfter(s, w, st) == s.conn && EndJustified(w, s.conn)
  {
  }

  lemma WriteKnown(s: Sys, w: Worker, st: Status)
    requires w.Busy? && StatusAllowed(w, st) && Known(s.used, w.base.status.clusterId) && Known(s.used, w.ev.obtained)
    ensures Known(s.used, st.clusterId)
    ensures w.base.finalizer && st.phase != New
  {
  }

  lemma WriteStatusKeepsInv(s: Sys, st: Status, o: Outcome)
    requires Inv(s) && s.worker.Busy? && !s.worker.halted && StatusAllowed(s.worker, st)
    ensures Inv(DoWriteStatus(s, s.worker, st, o))
  {
    var w := s.worker;
    if o == Rejected || !Current(s.api, w.base) {
      HaltKeepsInv(s);
    } else {
      CurrentIsBase(s.api, w);
      WriteOk(s, w, st);
      if !w.base.deleting && st.phase == Disconnecting { EndingJustified(s, w, st); }
      WriteKnown(s, w, st);
      StoredKeepsInv(s, Stored(st), ConnAfter(s, w, st), o);
      assert DoWriteStatus(s, w, st, o) == AfterStore(s, Stored(st), ConnAfter(s, w, st), o);
    }
  }

  function AfterStore(s: Sys, st: Status, c: Connection, o: Outcome): Sys
    requires s.worker.Busy?
  {
    var w := s.worker;
    var api' := Put(s.api, w.base.(status := st));
    s.(api := api', conn := c,
       worker := if o == Applied then w.(base := api'.cur.value, claimed := true) else w.(halted := true))
  }

  /** Storing a status that is coherent and justified, on top of the version the worker holds. */
  lemma StoredKeepsInv(s: Sys, st: Status, c: Connection, o: Outcome)
    requires Inv(s) && s.worker.Busy? && s.api.cur == Some(s.worker.base) && s.worker.current
    requires StatusOk(st, c) && Known(s.used, st.clusterId) && s.worker.base.finalizer && st.phase != New
    requires !s.worker.base.deleting && st.phase == Disconnecting ==> c == s.conn && EndJustified(s.worker, c)
    requires c == s.conn || s.worker.base.status.phase == Connecting
    ensures Inv(AfterStore(s, st, c, o))
  {
    PutAdvances(s.api, s.worker.base.(status := st));
  }

  // ---- Calls to Rancher ----

  lemma CreateKeepsInv(s: Sys, id: string, ev: Evidence)
    requires Inv(s) && s.worker.Busy? && s.worker.claimed
    requires s.worker.ev.absent == Some(DisplayName(s.key, s.worker.base)) && id != "" && id !in s.used
    requires ev == s.worker.ev.(absent := None, obtained := ev.obtained)
    requires (ev.obtained == s.worker.ev.obtained || ev.obtained == id)
    ensures Inv(s.(worker := s.worker.(ev := ev), records := s.records[id := DisplayName(s.key, s.worker.base)],
                   used := s.used + {id}))
  {
  }

  lemma DeleteClusterKeepsInv(s: Sys, ev: Evidence)
    requires Inv(s) && s.worker.Busy? && s.worker.claimed && s.worker.base.status.clusterId != ""
    requires ev == s.worker.ev || ev == s.worker.ev.(deletedId := Some(s.worker.base.status.clusterId))
    ensures Inv(s.(worker := s.worker.(ev := ev), records := s.records - {s.worker.base.status.clusterId}))
  {
  }

  /** New evidence that is true of the system and does not take back what justified a claim. */
  lemma EvidenceKeepsInv(s: Sys, ev: Evidence)
    requires Inv(s) && s.worker.Busy?
    requires EvidenceOk(s.key, s.records, s.used, s.now, s.worker.(ev := ev))
    requires ev.clock == s.worker.ev.clock || ev.clock == Some(s.now)
    requires ev.gone == s.worker.ev.gone || !s.worker.claimed
    ensures Inv(s.(worker := s.worker.(ev := ev)))
  {
  }

  lemma FindKeepsInv(s: Sys, answer: Answer)
    requires Inv(s) && s.worker.Busy? && Truthful(s.records, DisplayName(s.key, s.worker.base), answer)
    requires !s.worker.ev.looked
    ensures Inv(Perform(s, s.worker, FindCluster(answer)))
  {
    EvidenceKeepsInv(s, Learn(s, s.worker.base, s.worker.ev, FindCluster(answer)));
  }

  lemma ObservationKeepsInv(s: Sys, call: Call)
    requires Inv(s) && s.worker.Busy? && CallEnabled(s, s.worker, call)
    requires call.ReadSecret? || call.ReadClock? || call.FetchToken? || call.ApplyManifest?
             || call.ReadAgent? || call.ProbeCluster? || call.DeleteNamespace?
    ensures Inv(Perform(s, s.worker, call))
  {
    EvidenceKeepsInv(s, Learn(s, s.worker.base, s.worker.ev, call));
  }

  lemma CreateCallKeepsInv(s: Sys, id: string, o: Outcome)
    requires Inv(s) && s.worker.Busy? && CallEnabled(s, s.worker, CreateCluster(id, o))
    ensures Inv(Perform(s, s.worker, CreateCluster(id, o)))
  {
    var ev := Learn(s, s.worker.base, s.worker.ev, CreateCluster(id, o));
    if o == Rejected { EvidenceKeepsInv(s, ev); } else { CreateKeepsInv(s, id, ev); }
  }

  lemma DeleteCallKeepsInv(s: Sys, o: Outcome)
    requires Inv(s) && s.worker.Busy? && CallEnabled(s, s.worker, DeleteCluster(o))
    ensures Inv(Perform(s, s.worker, DeleteCluster(o)))
  {
    var ev := Learn(s, s.worker.base, s.worker.ev, DeleteCluster(o));
    if o == Rejected { EvidenceKeepsInv(s, ev); } else { DeleteClusterKeepsInv(s, ev); }
  }

  lemma WriteCallKeepsInv(s: Sys, call: Call)
    requires Inv(s) && s.worker.Busy? && !s.worker.halted && CallEnabled(s, s.worker, call)
    requires call.AddFinalizer? || call.DropFinalizer? || call.WriteStatus?
    ensures Inv(Perform(s, s.worker, call))
  {
    match call
    case AddFinalizer(o) => AddFinalizerKeepsInv(s, o);
    case DropFinalizer(o) => DropFinalizerKeepsInv(s, o);
    case WriteStatus(st, o) => WriteStatusKeepsInv(s, st, o);
  }

  lemma CallKeepsInv(s: Sys, call: Call)
    requires Inv(s) && s.worker.Busy? && !s.worker.halted && CallEnabled(s, s.worker, call)
    ensures Inv(Perform(s, s.worker, call))
  {
    if call.AddFinalizer? || call.DropFinalizer? || call.WriteStatus? {
      WriteCallKeepsInv(s, call);
    } else if call.CreateCluster? {
      CreateCallKeepsInv(s, call.id, call.outcome);
    } else if call.DeleteCluster? {
      DeleteCallKeepsInv(s, call.outcome);
    } else if call.FindCluster? {
      FindKeepsInv(s, call.answer);
    } else {
      ObservationKeepsInv(s, call);
    }
  }

  lemma MoveKeepsInv(s: Sys, move: Move)
    requires Inv(s)
    ensures Inv(Happen(s, move))
  {
    match move
    case Tick(dt) =>
    case Connect(ttl) => ConnectKeepsInv(s, ttl);
    case Delete => DeleteKeepsInv(s);
    case Edit(spec) => EditKeepsInv(s, spec);
    case Vanish(id) => VanishKeepsInv(s, id);
  }

  lemma StepKeepsInv(s: Sys, step: Step)
    requires Inv(s) && Enabled(s, step)
    ensures Inv(Apply(s, step))
  {
    match step
    case Env(move) => MoveKeepsInv(s, move);
    case Begin(read) =>
    case End =>
    case Do(call) => CallKeepsInv(s, call);
  }

  /** The invariant holds at every moment of every run. */
  lemma {:induction false} StateAt(r: Run, i: nat)
    requires Valid(r) && i <= |r.steps|
    ensures Inv(At(r, i))
  {
    if i == 0 {
      InitInv(r.states[0].key, r.states[0].now);
    } else {
      StateAt(r, i - 1);
      assert Follows(r, i - 1);
      StepKeepsInv(At(r, i - 1), r.steps[i - 1]);
    }
  }
}
