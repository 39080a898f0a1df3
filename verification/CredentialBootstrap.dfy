/** Bootstrap and placeholder creation as the operator performs them, each call a step of
    CredentialProtocol, with any number of others at work on the same Secret in between. */
module CredentialBootstrap {
  import opened Base
  import opened CredentialProtocol
  import opened CredentialTheorems

  /** From act `k` on there is only the restart of the GEA Deployment, if there is one to restart. */
  predicate RestartEnd(ok: bool, deployment: bool, acts: seq<Act>, k: nat) {
    if deployment then |acts| == k + 1 && acts[k] == Restart(ok) else ok && |acts| == k
  }

  /** How a Bootstrap ends that saw `seen`. A key is made only if the credentials seen do not do, and once
      at most; success takes a confirmed write or sufficient credentials, and a successful restart. */
  predicate BootstrapEnd(ok: bool, device: string, deployment: bool, seen: Option<Credential>, acts: seq<Act>) {
    && acts != [] && acts[0].Read?
    && if acts[0].version.None? then !ok && |acts| == 1
       else if CompleteFor(seen, device) then RestartEnd(ok, deployment, acts, 1)
       else
         && |acts| >= 2 && acts[1].MakeKey?
         && if acts[1].outcome != Applied then !ok && |acts| == 2
            else
              && |acts| >= 3 && acts[2].Write?
              && ((acts[2].outcome == Applied && RestartEnd(ok, deployment, acts, 3)) || (!ok && |acts| == 3))
  }

  /** How the creation of the placeholder ends that saw `seen`. */
  predicate PlaceholderEnd(ok: bool, seen: Option<Credential>, acts: seq<Act>) {
    && acts != [] && acts[0].Read?
    && if acts[0].version.None? then !ok && |acts| == 1
       else if seen.Some? then ok && |acts| == 1
       else |acts| == 2 && acts[1].Write? && (ok <==> acts[1].outcome == Applied)
  }

  /** Complete credentials survive the next step of a run. */
  lemma CompleteStaysNow(r: Run, step: Step)
    requires Valid(r) && Enabled(Last(r), step)
    ensures CompleteFor(Secret(Last(r)), Last(r).device) ==> Apply(Last(r), step).versions == Last(r).versions
  {
    StateAt(r, |r.steps|);
    if CompleteFor(Secret(Last(r)), Last(r).device) { NoWriteAfterComplete(Last(r), step); }
  }

  class Bootstrapper {
    var sys: Sys
    ghost var run: Run
    ghost var acts: seq<Act>      // of the operation in progress, or the latest one

    ghost predicate Ok()
      reads this
    {
      Valid(run) && sys == Last(run)
    }

    ghost predicate Mine(me: nat, w: Worker)
      reads this
    {
      Ok() && me in sys.workers && sys.workers[me] == w
    }

    constructor (device: string, initial: Option<Credential>)
      requires device != ""
      ensures Ok() && sys == Init(device, initial)
    {
      sys := Init(device, initial);
      run := Run([Init(device, initial)], []);
      acts := [];
    }

    method Take(step: Step)
      requires Ok() && Enabled(sys, step)
      modifies this`sys, this`run
      ensures Ok() && sys == Apply(old(sys), step) && old(sys.versions) <= sys.versions
    {
      run := Extend(run, step);
      sys := Apply(sys, step);
    }

    method Make(me: nat, act: Act)
      requires Ok() && Enabled(sys, Do(me, act))
      modifies this
      ensures Ok() && sys == Apply(old(sys), Do(me, act)) && old(sys.versions) <= sys.versions
      ensures acts == old(acts) + [act]
    {
      Take(Do(me, act));
      acts := acts + [act];
    }

    /** Whatever the others do. */
    method Interfere(me: nat)
      requires Ok()
      modifies this`sys, this`run
      ensures Ok() && sys.device == old(sys.device) && (me in sys.workers <==> me in old(sys.workers))
      ensures me in sys.workers ==> sys.workers[me] == old(sys.workers)[me]
      ensures CompleteFor(Secret(old(sys)), old(sys.device)) ==> sys.versions == old(sys.versions)
      ensures old(sys.versions) <= sys.versions
    {
      var n: nat := *;
      while n > 0
        invariant Ok() && sys.device == old(sys.device) && (me in sys.workers <==> me in old(sys.workers))
        invariant me in sys.workers ==> sys.workers[me] == old(sys.workers)[me]
        invariant CompleteFor(Secret(old(sys)), old(sys.device)) ==> sys.versions == old(sys.versions)
        invariant old(sys.versions) <= sys.versions
      {
        var step: Step := *;
        if step.p != me && Enabled(sys, step) {
          CompleteStaysNow(run, step);
          Take(step);
        }
        n := n - 1;
      }
    }

    /** The operation began with a read, of a version whose contents are `seen` if it was answered. */
    ghost predicate Saw(seen: Option<Credential>)
      reads this
    {
      && acts != [] && acts[0].Read?
      && (acts[0].version.Some? ==>
            acts[0].version.value < |sys.versions| && sys.versions[acts[0].version.value] == seen)
    }

    method Get(me: nat, kind: Kind) returns (existing: Option<Option<Credential>>)
      requires Mine(me, Reading(kind)) && acts == []
      modifies this
      ensures Ok() && sys.device == old(sys.device) && me in sys.workers
      ensures |acts| == 1 && Saw(if existing.Some? then existing.value else None)
      ensures acts[0].version.Some? == existing.Some?
      ensures match existing
        case None => sys.workers[me] == Finished(kind, false)
        case Some(c) =>
          if kind == Placeholding then
            if c.Some? then sys.workers[me] == Finished(Placeholding, true)
            else sys.workers[me].Writing? && sys.workers[me].kind == Placeholding
          else if CompleteFor(c, sys.device) then sys.workers[me] == Restarting && Secret(sys) == c
          else sys.workers[me].Keying?
    {
      Interfere(me);
      StateAt(run, |run.steps|);
      var ok: bool, v: nat := *, *;
      if ok && v < |sys.versions| {
        existing := Some(sys.versions[v]);
        Make(me, Read(Some(v)));
      } else {
        existing := None;
        Make(me, Read(None));
      }
    }

    method CreateDeviceAccessKey(me: nat) returns (ok: bool)
      requires Ok() && me in sys.workers && sys.workers[me].Keying?
      modifies this
      ensures Ok() && sys.device == old(sys.device) && me in sys.workers && old(sys.versions) <= sys.versions
      ensures old(acts) < acts && |acts| == |old(acts)| + 1
      ensures acts[|acts| - 1].MakeKey? && (ok <==> acts[|acts| - 1].outcome == Applied)
      ensures ok ==> Holds(sys.workers[me])
      ensures ok ==>
        sys.workers[me].data == Credential(sys.device, acts[|acts| - 1].accessKey, acts[|acts| - 1].accessSecret)
      ensures !ok ==> sys.workers[me] == Finished(Bootstrapping, false)
    {
      Interfere(me);
      StateAt(run, |run.steps|);
      var key: string, secret: string, outcome: Outcome := *, *, *;
      if key == "" || secret == "" { outcome := if outcome == Rejected then Rejected else LostReply; }
      ok := outcome == Applied;
      Make(me, MakeKey(key, secret, outcome));
    }

    /** Create if the Secret was not found, Update at the version read otherwise. */
    method Store(me: nat) returns (ok: bool)
      requires Ok() && me in sys.workers && sys.workers[me].Writing?
      modifies this
      ensures Ok() && sys.device == old(sys.device) && me in sys.workers && old(sys.versions) <= sys.versions
      ensures old(acts) < acts && |acts| == |old(acts)| + 1
      ensures acts[|acts| - 1].Write? && (ok ==> acts[|acts| - 1].outcome == Applied)
      ensures sys.workers[me] == if old(sys.workers)[me].kind == Placeholding then Finished(Placeholding, ok)
                                 else if ok then Restarting else Finished(Bootstrapping, false)
      ensures ok && old(sys.workers)[me].kind == Bootstrapping ==> Secret(sys) == Some(old(sys.workers)[me].data)
      ensures old(sys.workers)[me].kind == Placeholding ==> (ok <==> acts[|acts| - 1].outcome == Applied)
    {
      Interfere(me);
      StateAt(run, |run.steps|);
      assert WorkerOk(sys.device, sys.versions, sys.workers[me]);
      var outcome: Outcome := *;
      ok := outcome == Applied && (sys.workers[me].kind == Placeholding || Accepted(sys, sys.workers[me].seen));
      Make(me, Write(outcome));
    }

    /** Without a Deployment to restart there is nothing to do. */
    method RestartDeployment(me: nat, deployment: bool) returns (ok: bool)
      requires Mine(me, Restarting)
      modifies this
      ensures Mine(me, Finished(Bootstrapping, ok)) && sys.device == old(sys.device) && (!deployment ==> ok)
      ensures sys.versions == old(sys.versions)
      ensures acts == old(acts) + if deployment then [Restart(ok)] else []
    {
      StateAt(run, |run.steps|);
      assert WorkerOk(sys.device, sys.versions, sys.workers[me]);
      Interfere(me);
      StateAt(run, |run.steps|);
      if deployment {
        ok := *;
        Make(me, Restart(ok));
      } else {
        ok := true;
        Take(Do(me, Restart(true)));
      }
    }

    /** Makes sure the Secret exists and makes no Losant call: the Secret is read, and written only if there is
        none. */
    method EnsureCredentialPlaceholder(me: nat) returns (ok: bool, ghost seen: Option<Credential>)
      requires Ok() && me !in sys.workers
      modifies this
      ensures Mine(me, Finished(Placeholding, ok)) && (ok ==> Secret(sys).Some?)
      ensures Saw(seen) && PlaceholderEnd(ok, seen, acts)
    {
      StateAt(run, |run.steps|);
      Take(Start(me, Placeholding));
      acts := [];
      var existing := Get(me, Placeholding);
      seen := if existing.Some? then existing.value else None;
      ok := existing.Some?;
      if existing == Some(None) { ok := Store(me); }
      StateAt(run, |run.steps|);
      assert WorkerOk(sys.device, sys.versions, sys.workers[me]);
    }

    /** Writes the credentials if those it sees do not do for the device, then restarts GEA. Success means
        that the Secret holds complete credentials for the device: the key and the secret that Losant has just
        returned, in their places, or those that were seen there. */
    method Bootstrap(me: nat, deployment: bool) returns (ok: bool, ghost seen: Option<Credential>)
      requires Ok() && me !in sys.workers
      modifies this
      ensures Mine(me, Finished(Bootstrapping, ok)) && sys.device == old(sys.device)
      ensures ok ==> CompleteFor(Secret(sys), sys.device)
      ensures ok ==>
        Secret(sys) == if |acts| >= 2 && acts[1].MakeKey?
                       then Some(Credential(sys.device, acts[1].accessKey, acts[1].accessSecret))
                       else seen
      ensures Saw(seen) && BootstrapEnd(ok, sys.device, deployment, seen, acts)
    {
      StateAt(run, |run.steps|);
      Take(Start(me, Bootstrapping));
      acts := [];
      var existing := Get(me, Bootstrapping);
      seen := if existing.Some? then existing.value else None;
      ok := existing.Some?;
      if existing.Some? {
        if !CompleteFor(existing.value, sys.device) { ok := StoreNewKey(me); }
        if ok { ok := RestartDeployment(me, deployment); }
      }
      StateAt(run, |run.steps|);
      assert WorkerOk(sys.device, sys.versions, sys.workers[me]);
    }

    method StoreNewKey(me: nat) returns (ok: bool)
      requires Ok() && me in sys.workers && sys.workers[me].Keying?
      modifies this
      ensures Mine(me, if ok then Restarting else Finished(Bootstrapping, false)) && sys.device == old(sys.device)
      ensures old(sys.versions) <= sys.versions
      ensures old(acts) < acts && acts[|old(acts)|].MakeKey?
      ensures var n := |old(acts)|;
        if acts[n].outcome == Applied
        then |acts| == n + 2 && acts[n + 1].Write? && (ok ==> acts[n + 1].outcome == Applied)
        else !ok && |acts| == n + 1
      ensures var n := |old(acts)|;
        ok ==> Secret(sys) == Some(Credential(sys.device, acts[n].accessKey, acts[n].accessSecret))
    {
      ok := CreateDeviceAccessKey(me);
      if ok { ok := Store(me); }
    }
  }
}
