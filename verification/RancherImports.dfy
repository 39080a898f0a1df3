/** What the calls to Rancher and to the cluster are about: the name under which a record is looked up and
    created, what a probe tells, and which answers stand behind an import and a connection. */
module RancherImports {
  import opened Base
  import opened ApiStore
  import opened RancherProtocol
  import opened RancherInvariant
  import opened RancherTheorems

  // ---- Names ----

  lemma {:induction false} SameKey(r: Run, i: nat)
    requires Valid(r) && i <= |r.steps|
    ensures At(r, i).key == r.states[0].key
  {
    if i > 0 {
      SameKey(r, i - 1);
      StepAt(r, i - 1);
    }
  }

  lemma WorksOnRead(r: Run, k: nat)
    requires Valid(r) && k <= |r.steps| && At(r, k).worker.Busy?
    ensures At(r, k).worker.base.spec == At(r, k).worker.read.spec
    ensures At(r, k).worker.base.finalizer == At(r, k).worker.read.finalizer
  {
    StateAt(r, k);
  }

  /** A record is created under the display name that the session read asks for, and under the name of the
      session itself if it asks for none. */
  lemma CreatedUnderName(r: Run, k: nat)
    requires Valid(r) && k < |r.steps| && r.steps[k].Do? && r.steps[k].call.CreateCluster?
    requires r.steps[k].call.outcome != Rejected
    ensures At(r, k).worker.Busy? && r.steps[k].call.id in At(r, k + 1).records
    ensures var wish := At(r, k).worker.read.spec.displayName;
      At(r, k + 1).records[r.steps[k].call.id] == if wish != "" then wish else r.states[0].key
  {
    StepAt(r, k);
    SameKey(r, k);
    WorksOnRead(r, k);
  }

  /** A lookup is answered for that same name: a record found bears it, and if none is found none does. */
  lemma LookedUpByName(r: Run, k: nat)
    requires Valid(r) && k < |r.steps| && r.steps[k].Do? && r.steps[k].call.FindCluster?
    ensures At(r, k).worker.Busy?
    ensures var wish := At(r, k).worker.read.spec.displayName;
      var name := if wish != "" then wish else r.states[0].key;
      match r.steps[k].call.answer
      case Found(id) => id in At(r, k).records && At(r, k).records[id] == name
      case NotFound => forall id | id in At(r, k).records :: At(r, k).records[id] != name
      case NoAnswer => true
  {
    StepAt(r, k);
    SameKey(r, k);
    WorksOnRead(r, k);
    forall id | r.steps[k].call.answer.NotFound? && id in At(r, k).records
      ensures At(r, k).records[id] != DisplayName(At(r, k).key, At(r, k).worker.base)
    {
      assert At(r, k).records[id] in At(r, k).records.Values;
    }
  }

  // ---- Probes ----

  /** An answered probe tells exactly whether Rancher still holds the recorded cluster. */
  lemma ProbeTells(r: Run, k: nat)
    requires Valid(r) && k < |r.steps| && r.steps[k] == Do(ProbeCluster(true))
    ensures At(r, k).worker.Busy? && At(r, k + 1).worker.Busy?
    ensures At(r, k + 1).worker.ev.gone <==> At(r, k).worker.read.status.clusterId !in At(r, k).records
  {
    StateAt(r, k);
    StepAt(r, k);
  }

  // ---- Imports ----

  /** What a reconcile knows of the client, the record, the token, the manifest and the agent was answered by
      its own calls. */
  ghost predicate ImportReal(r: Run, b: nat, i: nat, ev: Evidence)
    requires b < i <= |r.steps|
  {
    && (ev.badClient ==>
          || Made(r, b, i, ReadSecret(false, true)) || Made(r, b, i, ReadSecret(false, false))
          || Made(r, b, i, ReadSecret(true, false)))
    && (ev.absent.Some? ==> Made(r, b, i, FindCluster(NotFound)))
    && (ev.obtained != "" ==>
          Made(r, b, i, FindCluster(Found(ev.obtained))) || Made(r, b, i, CreateCluster(ev.obtained, Applied)))
    && (ev.token ==> Made(r, b, i, FetchToken(true)))
    && (ev.applied ==> Made(r, b, i, ApplyManifest(true)))
    && (ev.agentReady ==> Made(r, b, i, ReadAgent(Available)))
  }

  predicate ClusterGrowsBy(ev: Evidence, call: Call, ev': Evidence) {
    && (ev'.badClient ==> ev.badClient || (call.ReadSecret? && !(call.found && call.wellFormed)))
    && (ev'.absent.Some? ==> ev.absent.Some? || call == FindCluster(NotFound))
    && (|| ev'.obtained == ev.obtained
        || call == FindCluster(Found(ev'.obtained))
        || call == CreateCluster(ev'.obtained, Applied))
  }

  predicate ManifestGrowsBy(ev: Evidence, call: Call, ev': Evidence) {
    && (ev'.token ==> ev.token || call == FetchToken(true))
    && (ev'.applied ==> ev.applied || call == ApplyManifest(true))
    && (ev'.agentReady ==> ev.agentReady || call == ReadAgent(Available))
  }

  predicate ImportGrowsBy(ev: Evidence, call: Call, ev': Evidence) {
    ClusterGrowsBy(ev, call, ev') && ManifestGrowsBy(ev, call, ev')
  }

  lemma ClusterGrows(s: Sys, base: Session, ev: Evidence, call: Call)
    ensures ClusterGrowsBy(ev, call, Learn(s, base, ev, call))
  {
  }

  lemma ManifestGrows(s: Sys, base: Session, ev: Evidence, call: Call)
    ensures ManifestGrowsBy(ev, call, Learn(s, base, ev, call))
  {
  }

  lemma StillImportReal(r: Run, b: nat, i: nat, ev: Evidence)
    requires b < i < |r.steps| && ImportReal(r, b, i, ev)
    ensures ImportReal(r, b, i + 1, ev)
  {
  }

  lemma MadeNow(r: Run, b: nat, i: nat, call: Call)
    requires b < i < |r.steps| && r.steps[i] == Do(call)
    ensures Made(r, b, i + 1, call)
  {
  }

  lemma CallIsImportReal(r: Run, b: nat, i: nat, ev: Evidence, ev': Evidence)
    requires b < i < |r.steps| && ImportReal(r, b, i, ev) && r.steps[i].Do? && ImportGrowsBy(ev, r.steps[i].call, ev')
    ensures ImportReal(r, b, i + 1, ev')
  {
    StillImportReal(r, b, i, ev);
    MadeNow(r, b, i, r.steps[i].call);
  }

  lemma {:induction false} ImportIsReal(r: Run, i: nat) returns (b: nat)
    requires Valid(r) && i <= |r.steps| && At(r, i).worker.Busy?
    ensures b < i && BeganAt(r, b, i) && ImportReal(r, b, i, At(r, i).worker.ev)
  {
    if r.steps[i - 1].Begin? {
      b := i - 1;
      FirstOfReconcile(r, i);
    } else {
      SameReconcile(r, i);
      b := ImportIsReal(r, i - 1);
      var s, ev := At(r, i - 1), At(r, i - 1).worker.ev;
      if r.steps[i - 1].Do? {
        ClusterGrows(s, s.worker.base, ev, r.steps[i - 1].call);
        ManifestGrows(s, s.worker.base, ev, r.steps[i - 1].call);
        CallIsImportReal(r, b, i - 1, ev, At(r, i).worker.ev);
      } else {
        StillImportReal(r, b, i - 1, ev);
      }
    }
  }

  lemma ImportWrite(w: Worker, st: Status)
    requires w.Busy? && StatusAllowed(w, st) && st.manifestApplied && !w.base.status.manifestApplied
    ensures w.ev.applied && w.ev.clock.Some? && st.clusterId == w.ev.obtained != ""
    ensures st.phase == Connecting && st.connectedAt == w.ev.clock
    ensures st.expiresAt == Some(w.ev.clock.value + 120 * SECOND)
  {
  }

  /** A status that first records the manifest as applied is written only after the manifest was applied in that
      reconcile, names the cluster that it found or created, and counts 120 s from its own clock reading. */
  lemma ImportRecorded(r: Run, k: nat) returns (b: nat, t: int)
    requires Valid(r) && k < |r.steps| && r.steps[k].Do? && r.steps[k].call.WriteStatus? && At(r, k).worker.Busy?
    requires r.steps[k].call.status.manifestApplied && !At(r, k).worker.base.status.manifestApplied
    ensures b < k && BeganAt(r, b, k) && Made(r, b, k, ApplyManifest(true)) && Made(r, b, k, ReadClock(t))
    ensures var st := r.steps[k].call.status;
      && (Made(r, b, k, FindCluster(Found(st.clusterId))) || Made(r, b, k, CreateCluster(st.clusterId, Applied)))
      && st.phase == Connecting && st.connectedAt == Some(t) && st.expiresAt == Some(t + 120 * SECOND)
  {
    StepAt(r, k);
    ImportWrite(At(r, k).worker, r.steps[k].call.status);
    b := ImportIsReal(r, k);
    var b' := EvidenceIsReal(r, k);
    assert b' == b;
    t := At(r, k).worker.ev.clock.value;
  }

  lemma ConnectingWrite(w: Worker, st: Status)
    requires w.Busy? && StatusAllowed(w, st) && st.phase == Connected && w.base.status.phase == Connecting
    ensures w.ev.agentReady
  {
  }

  /** A session becomes Connected only after its agent was found available in that reconcile, with the stamps
      counted from a clock reading of it. */
  lemma ConnectedMeansReady(r: Run, k: nat, c: Connection) returns (b: nat)
    requires Valid(r) && k < |r.steps| && r.steps[k].Do? && Connects(At(r, k), r.steps[k].call, c)
    ensures b < k && BeganAt(r, b, k) && Made(r, b, k, ReadAgent(Available)) && Made(r, b, k, ReadClock(c.instant))
  {
    StepAt(r, k);
    ConnectingWrite(At(r, k).worker, r.steps[k].call.status);
    b := ImportIsReal(r, k);
    var b' := EvidenceIsReal(r, k);
    assert b' == b;
  }
}
