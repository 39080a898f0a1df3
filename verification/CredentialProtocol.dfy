/** The GEA credentials Secret as a protocol: any number of bootstraps and placeholder creations for one
    cluster device, interleaved call by call, each with a possibly stale view of the Secret. The Secret
    is written by nobody else; creating it succeeds only while it is absent, updating it only at the
    version read. */
module CredentialProtocol {
  import opened Base

  datatype Credential = Credential(deviceId: string, accessKey: string, accessSecret: string)

  const PLACEHOLDER: Credential := Credential("", "", "")

  predicate CompleteFor(c: Option<Credential>, device: string) {
    c.Some? && c.value.deviceId == device != "" && c.value.accessKey != "" && c.value.accessSecret != ""
  }

  datatype Kind = Placeholding | Bootstrapping

  datatype Worker =
    | Reading(kind: Kind)
    | Keying(seen: nat)                                     // version `seen` lacked the credentials
    | Writing(kind: Kind, seen: nat, data: Credential)
    | Restarting
    | Finished(kind: Kind, ok: bool)

  datatype Sys = Sys(
    device: string,
    versions: seq<Option<Credential>>,   // every state of the Secret, the current one last
    keys: nat,                           // access keys created in Losant
    stored: nat,                         // bootstrap writes that were confirmed
    failed: nat,                         // bootstrap writes that were not
    abandoned: nat,                      // keys for which no write was attempted
    workers: map<nat, Worker>)

  function Init(device: string, initial: Option<Credential>): Sys { Sys(device, [initial], 0, 0, 0, 0, map[]) }

  function Current(versions: seq<Option<Credential>>): Option<Credential> {
    if versions == [] then None else versions[|versions| - 1]
  }

  function Secret(s: Sys): Option<Credential> { Current(s.versions) }

  datatype Act =
    | Read(version: Option<nat>)         // no version: the read failed
    | MakeKey(accessKey: string, accessSecret: string, outcome: Outcome)
    | Write(outcome: Outcome)
    | Restart(ok: bool)

  datatype Step = Start(p: nat, kind: Kind) | Do(p: nat, act: Act) | Stop(p: nat)

  predicate ActEnabled(s: Sys, w: Worker, act: Act) {
    match act
    case Read(version) => w.Reading? && (version.Some? ==> version.value < |s.versions|)
    case MakeKey(key, secret, o) => w.Keying? && (o == Applied ==> key != "" && secret != "")
    case Write(_) => w.Writing? && w.seen < |s.versions|
    case Restart(_) => w.Restarting?
  }

  predicate Enabled(s: Sys, step: Step) {
    && s.versions != []
    && match step
       case Start(p, _) => p !in s.workers
       case Do(p, act) => p in s.workers && ActEnabled(s, s.workers[p], act)
       case Stop(p) => p in s.workers
  }

  /** What a worker does after looking at version `v`. */
  function AfterRead(s: Sys, kind: Kind, v: nat): Worker
    requires v < |s.versions|
  {
    match kind
    case Placeholding =>
      if s.versions[v].Some? then Finished(Placeholding, true) else Writing(Placeholding, v, PLACEHOLDER)
    case Bootstrapping => if CompleteFor(s.versions[v], s.device) then Restarting else Keying(v)
  }

  /** A create needs an absent Secret, an update the version it was read at. */
  predicate Accepted(s: Sys, seen: nat)
    requires seen < |s.versions|
  {
    if s.versions[seen].None? then Secret(s).None? else seen == |s.versions| - 1
  }

  function DoWrite(s: Sys, p: nat, o: Outcome): Sys
    requires s.versions != [] && p in s.workers && s.workers[p].Writing? && s.workers[p].seen < |s.versions|
  {
    var w := s.workers[p];
    var effective := o != Rejected && Accepted(s, w.seen);
    var s' := if effective then s.(versions := s.versions + [Some(w.data)]) else s;
    if w.kind == Placeholding then
      s'.(workers := s.workers[p := Finished(Placeholding, o == Applied)])   // finding it there after all is as good
    else if effective && o == Applied then s'.(stored := s.stored + 1, workers := s.workers[p := Restarting])
    else s'.(failed := s.failed + 1, workers := s.workers[p := Finished(Bootstrapping, false)])
  }

  function Perform(s: Sys, p: nat, act: Act): Sys
    requires s.versions != [] && p in s.workers && ActEnabled(s, s.workers[p], act)
  {
    match act
    case Read(None) => s.(workers := s.workers[p := Finished(s.workers[p].kind, false)])
    case Read(Some(v)) => s.(workers := s.workers[p := AfterRead(s, s.workers[p].kind, v)])
    case MakeKey(key, secret, Applied) =>
      s.(keys := s.keys + 1,
        workers := s.workers[p := Writing(Bootstrapping, s.workers[p].seen, Credential(s.device, key, secret))])
    case MakeKey(_, _, Rejected) => s.(workers := s.workers[p := Finished(Bootstrapping, false)])
    case MakeKey(_, _, LostReply) =>
      s.(keys := s.keys + 1, abandoned := s.abandoned + 1, workers := s.workers[p := Finished(Bootstrapping, false)])
    case Write(o) => DoWrite(s, p, o)
    case Restart(ok) => s.(workers := s.workers[p := Finished(Bootstrapping, ok)])
  }

  /** `w` has made a key and not yet tried to store it. */
  predicate Holds(w: Worker) { w.Writing? && w.kind == Bootstrapping }

  function Apply(s: Sys, step: Step): Sys
    requires Enabled(s, step)
  {
    match step
    case Start(p, kind) => s.(workers := s.workers[p := Reading(kind)])
    case Do(p, act) => Perform(s, p, act)
    case Stop(p) =>
      s.(workers := s.workers - {p}, abandoned := if Holds(s.workers[p]) then s.abandoned + 1 else s.abandoned)
  }

  // ---- Runs ----

  datatype Run = Run(states: seq<Sys>, steps: seq<Step>)

  ghost predicate Follows(r: Run, i: nat)
    requires |r.states| == |r.steps| + 1 && i < |r.steps|
  {
    Enabled(r.states[i], r.steps[i]) && r.states[i + 1] == Apply(r.states[i], r.steps[i])
  }

  ghost predicate Valid(r: Run) {
    && |r.states| == |r.steps| + 1
    && |r.states[0].versions| == 1 && r.states[0].device != ""
    && r.states[0] == Init(r.states[0].device, r.states[0].versions[0])
    && (forall i: nat | i < |r.steps| :: Follows(r, i))
  }

  ghost function At(r: Run, i: nat): Sys
    requires Valid(r) && i <= |r.steps|
  {
    r.states[i]
  }

  ghost function Last(r: Run): Sys
    requires Valid(r)
  {
    At(r, |r.steps|)
  }

  ghost function Extend(r: Run, step: Step): (r': Run)
    requires Valid(r) && Enabled(Last(r), step)
    ensures Valid(r') && Last(r') == Apply(Last(r), step)
  {
    var r' := Run(r.states + [Apply(Last(r), step)], r.steps + [step]);
    assert forall i: nat | i < |r'.steps| :: Follows(r', i) by {
      forall i: nat | i < |r'.steps| ensures Follows(r', i) {
        if i < |r.steps| { assert Follows(r, i); }
      }
    }
    r'
  }
}

/** What every interleaving guarantees. */
module CredentialTheorems {
  import opened Base
  import opened CredentialProtocol

  /** The Secret goes from absent through incomplete to complete, and nothing follows a complete one. */
  ghost predicate History(device: string, versions: seq<Option<Credential>>) {
    && versions != []
    && (forall v | 0 <= v < |versions| - 1 :: !CompleteFor(versions[v], device))
    && (forall v | 0 < v < |versions| :: versions[v].Some?)
    && (forall u, v | 0 <= u < v < |versions| && versions[u].Some? :: CompleteFor(versions[v], device))
  }

  predicate WorkerOk(device: string, versions: seq<Option<Credential>>, w: Worker) {
    match w
    case Reading(_) => true
    case Keying(seen) => seen < |versions| && !CompleteFor(versions[seen], device)
    case Writing(Bootstrapping, seen, data) => seen < |versions| && !CompleteFor(versions[seen], device)
      && CompleteFor(Some(data), device)
    case Writing(Placeholding, seen, data) => seen < |versions| && versions[seen].None? && data == PLACEHOLDER
    case Restarting => CompleteFor(Current(versions), device)
    case Finished(Bootstrapping, ok) => ok ==> CompleteFor(Current(versions), device)
    case Finished(Placeholding, ok) => ok ==> Current(versions).Some?
  }

  ghost predicate WorkersOk(device: string, versions: seq<Option<Credential>>, ws: map<nat, Worker>) {
    forall p | p in ws :: WorkerOk(device, versions, ws[p])
  }

  function Holders(workers: map<nat, Worker>): set<nat> { set p | p in workers && Holds(workers[p]) }

  /** Every key made is stored, its write failed, it was abandoned, or somebody still holds it. */
  ghost predicate Accounted(s: Sys) {
    && s.keys == s.stored + s.failed + s.abandoned + |Holders(s.workers)|
    && s.stored <= 1 && (s.stored == 1 ==> CompleteFor(Secret(s), s.device))
  }

  ghost predicate Inv(s: Sys) {
    s.device != "" && History(s.device, s.versions) && WorkersOk(s.device, s.versions, s.workers) && Accounted(s)
  }

  function One(b: bool): nat { if b then 1 else 0 }

  lemma HoldersUpdate(ws: map<nat, Worker>, p: nat, w: Worker)
    ensures |Holders(ws[p := w])| == |Holders(ws)| + One(Holds(w)) - One(p in ws && Holds(ws[p]))
  {
    assert Holders(ws[p := w]) == if Holds(w) then Holders(ws) + {p} else Holders(ws) - {p};
  }

  lemma HoldersRemove(ws: map<nat, Worker>, p: nat)
    requires p in ws
    ensures |Holders(ws - {p})| == |Holders(ws)| - One(Holds(ws[p]))
  {
    assert Holders(ws - {p}) == Holders(ws) - {p};
  }

  /** A worker moves on without touching the Secret. */
  lemma MoveKeepsInv(s: Sys, p: nat, w: Worker, keys: nat, abandoned: nat)
    requires Inv(s) && WorkerOk(s.device, s.versions, w)
    requires keys - s.keys == abandoned - s.abandoned + One(Holds(w)) - One(p in s.workers && Holds(s.workers[p]))
    ensures Inv(s.(workers := s.workers[p := w], keys := keys, abandoned := abandoned))
  {
    HoldersUpdate(s.workers, p, w);
  }

  /** A write that takes effect never meets complete credentials, and a placeholder only an absent Secret. */
  lemma WriteMeets(device: string, versions: seq<Option<Credential>>, w: Worker)
    requires History(device, versions) && WorkerOk(device, versions, w) && w.Writing?
    requires if versions[w.seen].None? then Current(versions).None? else w.seen == |versions| - 1
    ensures !CompleteFor(Current(versions), device) && (w.kind == Placeholding ==> Current(versions).None?)
    ensures History(device, versions + [Some(w.data)])
  {
  }

  lemma WorkerStaysOk(device: string, versions: seq<Option<Credential>>, data: Credential, w: Worker)
    requires WorkerOk(device, versions, w) && !CompleteFor(Current(versions), device)
    ensures WorkerOk(device, versions + [Some(data)], w)
  {
  }

  /** The worker at `p` has written its data and moves on to `w`. */
  lemma AppendKeepsInv(s: Sys, p: nat, w: Worker, stored: nat, failed: nat)
    requires Inv(s) && p in s.workers && s.workers[p].Writing? && !Holds(w)
    requires WorkerOk(s.device, s.versions, s.workers[p]) && Accepted(s, s.workers[p].seen)
    requires WorkerOk(s.device, s.versions + [Some(s.workers[p].data)], w)
    requires s.stored + s.failed + One(Holds(s.workers[p])) == stored + failed
    requires (stored == s.stored || (stored == s.stored + 1 && Holds(s.workers[p])))
    ensures Inv(s.(versions := s.versions + [Some(s.workers[p].data)], workers := s.workers[p := w], stored := stored,
      failed := failed))
  {
    var data := s.workers[p].data;
    WriteMeets(s.device, s.versions, s.workers[p]);
    HoldersUpdate(s.workers, p, w);
    forall q | q in s.workers ensures WorkerOk(s.device, s.versions + [Some(data)], s.workers[q]) {
      WorkerStaysOk(s.device, s.versions, data, s.workers[q]);
    }
  }

  lemma FailedWriteKeepsInv(s: Sys, p: nat, w: Worker, failed: nat)
    requires Inv(s) && p in s.workers && !Holds(w) && WorkerOk(s.device, s.versions, w)
    requires failed == s.failed + One(Holds(s.workers[p]))
    ensures Inv(s.(workers := s.workers[p := w], failed := failed))
  {
    HoldersUpdate(s.workers, p, w);
  }

  lemma WriteKeepsInv(s: Sys, p: nat, o: Outcome)
    requires Inv(s) && p in s.workers && s.workers[p].Writing? && s.workers[p].seen < |s.versions|
    ensures Inv(DoWrite(s, p, o))
  {
    assert WorkerOk(s.device, s.versions, s.workers[p]);
    var s' := DoWrite(s, p, o);
    if o != Rejected && Accepted(s, s.workers[p].seen) {
      AppendKeepsInv(s, p, s'.workers[p], s'.stored, s'.failed);
    } else {
      FailedWriteKeepsInv(s, p, s'.workers[p], s'.failed);
    }
  }

  lemma ReadKeepsInv(s: Sys, p: nat, v: nat)
    requires Inv(s) && p in s.workers && s.workers[p].Reading? && v < |s.versions|
    ensures Inv(s.(workers := s.workers[p := AfterRead(s, s.workers[p].kind, v)]))
  {
    MoveKeepsInv(s, p, AfterRead(s, s.workers[p].kind, v), s.keys, s.abandoned);
  }

  lemma ActKeepsInv(s: Sys, p: nat, act: Act)
    requires Inv(s) && p in s.workers && ActEnabled(s, s.workers[p], act)
    ensures Inv(Perform(s, p, act))
  {
    var s' := Perform(s, p, act);
    match act
    case Write(o) => WriteKeepsInv(s, p, o);
    case Read(Some(v)) => ReadKeepsInv(s, p, v);
    case _ =>
      assert WorkerOk(s.device, s.versions, s.workers[p]);
      MoveKeepsInv(s, p, s'.workers[p], s'.keys, s'.abandoned);
  }

  lemma StepKeepsInv(s: Sys, step: Step)
    requires Inv(s) && Enabled(s, step)
    ensures Inv(Apply(s, step))
  {
    match step
    case Start(p, kind) => MoveKeepsInv(s, p, Reading(kind), s.keys, s.abandoned);
    case Do(p, act) => ActKeepsInv(s, p, act);
    case Stop(p) => HoldersRemove(s.workers, p);
  }

  lemma StepAt(r: Run, i: nat)
    requires Valid(r) && i < |r.steps|
    ensures Enabled(At(r, i), r.steps[i]) && At(r, i + 1) == Apply(At(r, i), r.steps[i])
  {
    assert Follows(r, i);
  }

  lemma {:induction false} StateAt(r: Run, i: nat)
    requires Valid(r) && i <= |r.steps|
    ensures Inv(At(r, i))
  {
    if i == 0 {
      assert Holders(map[]) == {};
    } else {
      StateAt(r, i - 1);
      StepAt(r, i - 1);
      StepKeepsInv(At(r, i - 1), r.steps[i - 1]);
    }
  }

  /** Access keys, one by one: each key made is the one stored, or its Secret write failed, or no write was
      attempted because the reply or the worker was lost, or a bootstrap still holds it; and at most one is
      stored. So no more keys are made than one plus the failed writes, but for lost and held ones. */
  lemma KeysBounded(r: Run, i: nat)
    requires Valid(r) && i <= |r.steps|
    ensures var s := At(r, i);
      && s.keys == s.stored + s.failed + s.abandoned + |Holders(s.workers)| && s.stored <= 1
      && (s.stored == 1 ==> CompleteFor(Secret(s), s.device))
      && s.keys <= 1 + s.failed + s.abandoned + |Holders(s.workers)|
      && (s.abandoned == 0 && Holders(s.workers) == {} ==> s.keys <= 1 + s.failed)
  {
    StateAt(r, i);
  }

  /** A successful Bootstrap means complete credentials for the device, now and for good. */
  lemma {:induction false} CompleteStays(r: Run, i: nat, j: nat)
    requires Valid(r) && i <= j <= |r.steps| && CompleteFor(Secret(At(r, i)), At(r, i).device)
    ensures At(r, j).versions == At(r, i).versions && At(r, j).device == At(r, i).device
    decreases j
  {
    if i < j {
      CompleteStays(r, i, j - 1);
      StateAt(r, j - 1);
      StepAt(r, j - 1);
      NoWriteAfterComplete(At(r, j - 1), r.steps[j - 1]);
    }
  }

  lemma NoWriteAfterComplete(s: Sys, step: Step)
    requires Inv(s) && Enabled(s, step) && CompleteFor(Secret(s), s.device)
    ensures Apply(s, step).versions == s.versions && Apply(s, step).device == s.device
  {
    if step.Do? && step.act.Write? && Accepted(s, s.workers[step.p].seen) {
      WriteMeets(s.device, s.versions, s.workers[step.p]);
    }
  }

  lemma SuccessMeansComplete(r: Run, i: nat, j: nat, p: nat)
    requires Valid(r) && i <= j <= |r.steps| && p in At(r, i).workers
    requires At(r, i).workers[p] == Finished(Bootstrapping, true)
    ensures CompleteFor(Secret(At(r, j)), At(r, j).device)
    ensures var c := Secret(At(r, j)).value; c.deviceId == At(r, j).device && c.accessKey != "" && c.accessSecret != ""
  {
    StateAt(r, i);
    assert WorkerOk(At(r, i).device, At(r, i).versions, At(r, i).workers[p]);
    CompleteStays(r, i, j);
  }

  /** The placeholder is only ever written where there was no Secret at all. */
  lemma PlaceholderOverwritesNothing(r: Run, i: nat, p: nat, o: Outcome)
    requires Valid(r) && i < |r.steps| && r.steps[i] == Do(p, Write(o)) && p in At(r, i).workers
    requires At(r, i).workers[p].Writing? && At(r, i).workers[p].kind == Placeholding
    requires At(r, i + 1).versions != At(r, i).versions
    ensures Secret(At(r, i)).None? && Secret(At(r, i + 1)) == Some(Credential("", "", ""))
  {
    StateAt(r, i);
    StepAt(r, i);
    assert WorkerOk(At(r, i).device, At(r, i).versions, At(r, i).workers[p]);
    WriteMeets(At(r, i).device, At(r, i).versions, At(r, i).workers[p]);
  }

  // ---- What is stored ----

  /** Step `m` is where worker `p` was given the key of `c`, for the device of this run. */
  ghost predicate GivenAt(r: Run, m: nat, p: nat, c: Credential)
    requires Valid(r) && m < |r.steps|
  {
    r.steps[m] == Do(p, MakeKey(c.accessKey, c.accessSecret, Applied)) && c.deviceId == r.states[0].device
  }

  lemma {:induction false} SameDevice(r: Run, i: nat)
    requires Valid(r) && i <= |r.steps|
    ensures At(r, i).device == r.states[0].device
  {
    if i > 0 {
      SameDevice(r, i - 1);
      StepAt(r, i - 1);
    }
  }

  /** Who holds a credential after a step held it before or was given it by this step. */
  lemma HeldStep(s: Sys, step: Step, p: nat)
    requires Enabled(s, step) && p in Apply(s, step).workers && Holds(Apply(s, step).workers[p])
    ensures var c := Apply(s, step).workers[p].data;
      || (p in s.workers && Holds(s.workers[p]) && s.workers[p].data == c && !(step.Stop? && step.p == p))
      || (step == Do(p, MakeKey(c.accessKey, c.accessSecret, Applied)) && c.deviceId == s.device)
  {
  }

  /** A credential that a bootstrap holds names the device and carries the key and the secret that Losant
      gave to that very bootstrap; since then it has not stopped. */
  lemma {:induction false} HeldIsGiven(r: Run, i: nat, p: nat) returns (m: nat)
    requires Valid(r) && i <= |r.steps| && p in At(r, i).workers && Holds(At(r, i).workers[p])
    ensures m < i && GivenAt(r, m, p, At(r, i).workers[p].data)
    ensures forall j | m < j < i :: r.steps[j] != Stop(p)
  {
    StepAt(r, i - 1);
    SameDevice(r, i - 1);
    HeldStep(At(r, i - 1), r.steps[i - 1], p);
    var c := At(r, i).workers[p].data;
    if r.steps[i - 1] == Do(p, MakeKey(c.accessKey, c.accessSecret, Applied)) && c.deviceId == At(r, i - 1).device {
      m := i - 1;
    } else {
      m := HeldIsGiven(r, i - 1, p);
    }
  }

  /** A write of a bootstrap that changes the Secret leaves there, field by field, the credential of the run's
      device that Losant gave to this bootstrap at step `m`. */
  lemma StoredIsGiven(r: Run, i: nat, p: nat, o: Outcome) returns (m: nat)
    requires Valid(r) && i < |r.steps| && r.steps[i] == Do(p, Write(o)) && p in At(r, i).workers
    requires Holds(At(r, i).workers[p]) && At(r, i + 1).versions != At(r, i).versions
    ensures m < i && Secret(At(r, i + 1)).Some? && GivenAt(r, m, p, Secret(At(r, i + 1)).value)
  {
    StepAt(r, i);
    m := HeldIsGiven(r, i, p);
  }
}
