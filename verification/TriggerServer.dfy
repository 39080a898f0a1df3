/** The in-cluster HTTP server that turns connect and disconnect commands into a RancherSession created
    or deleted. Anything the reconciler, users, Rancher and other requests do can happen in between. */
module TriggerServer {
  import opened Base
  import opened ApiStore
  import opened RancherProtocol

  datatype Request = Request(action: string, ttlSeconds: Int64)

  const ACCEPTED: int := 202
  const BAD_REQUEST: int := 400
  const NOT_FOUND: int := 404
  const METHOD_NOT_ALLOWED: int := 405
  const CONFLICT: int := 409
  const INTERNAL_ERROR: int := 500

  const DEFAULT_TTL: Int64 := 3600

  function EffectiveTtl(ttlSeconds: Int64): (ttl: Int64)
    ensures ttl > 0 && (ttlSeconds > 0 ==> ttl == ttlSeconds) && (ttlSeconds <= 0 ==> ttl == 3600)
  {
    if ttlSeconds <= 0 then DEFAULT_TTL else ttlSeconds
  }

  /** What a connect answers, and what becomes of the state `before` in which its Create, if it got that far,
      reached the API server: 202 if that created the session, 409 if there was one already; 500 if it was
      refused, and also if only its reply was lost. */
  predicate ConnectAnswer(code: int, ttlSeconds: Int64, create: Outcome, before: Sys, after: Sys) {
    && code == (if create != Applied then INTERNAL_ERROR else if before.api.cur.Some? then CONFLICT else ACCEPTED)
    && after == if create == Rejected then before else DoConnect(before, EffectiveTtl(ttlSeconds))
  }

  /** The session that an effective connect creates: a new one, with that TTL and no display name, neither
      suspended nor marked for deletion, without a finalizer and with nothing in its status yet. */
  lemma ConnectCreates(before: Sys, ttl: Int64)
    requires before.api.cur.None?
    ensures var after := DoConnect(before, ttl);
      && after.api.cur.Some? && after.key == before.key && after.records == before.records
      && var made := after.api.cur.value;
      && made.uid == before.api.nextUid && !made.deleting && !made.finalizer
      && made.spec.displayName == "" && made.spec.ttlSeconds == ttl && !made.spec.suspend
      && made.status.phase == New && made.status.clusterId == "" && !made.status.manifestApplied
      && made.status.connectedAt.None? && made.status.expiresAt.None?
  {
  }

  /** The same for a disconnect, whose Get reads a cache: Delete is tried only if that shows a session, and
      then may find that there is none. */
  predicate DisconnectAnswer(code: int, get: Fetch<Spec, Status>, delete: Outcome, before: Sys, after: Sys) {
    match get
    case Nothing => code == NOT_FOUND && after == before
    case NoReply => code == INTERNAL_ERROR && after == before
    case Got(_) =>
      && code == (if delete != Applied then INTERNAL_ERROR else if before.api.cur.None? then NOT_FOUND else ACCEPTED)
      && after == if delete == Rejected then before else DoDelete(before)
  }

  /** An effective delete marks a session that holds the finalizer and removes one that does not. */
  lemma DisconnectDeletes(before: Sys)
    ensures var was, after := before.api.cur, DoDelete(before).api.cur;
      match was
      case None => DoDelete(before) == before
      case Some(o) =>
        if o.finalizer then
          && after.Some? && after.value.uid == o.uid && after.value.deleting && after.value.finalizer
          && after.value.spec == o.spec && after.value.status == o.status
        else after.None? && DoDelete(before).removed == before.removed + 1
  {
  }

  class Server {
    var sys: Sys
    ghost var run: Run

    ghost predicate Ok()
      reads this
    {
      Valid(run) && sys == Last(run)
    }

    constructor (key: string, now: int)
      ensures Ok() && sys == Init(key, now)
    {
      sys := Init(key, now);
      run := Run([Init(key, now)], []);
    }

    method Take(step: Step)
      requires Ok() && Enabled(sys, step)
      modifies this
      ensures Ok() && sys == Apply(old(sys), step) && run == Extend(old(run), step)
    {
      run := Extend(run, step);
      sys := Apply(sys, step);
    }

    /** Any steps of anyone. */
    method Interfere()
      requires Ok()
      modifies this
      ensures Ok() && old(run.steps) <= run.steps
    {
      var n: nat := *;
      while n > 0
        invariant Ok() && old(run.steps) <= run.steps
      {
        var step: Step := *;
        if Enabled(sys, step) {
          Take(step);
        }
        n := n - 1;
      }
    }

    /** `before` is the state in which a request was made to the API server, the last step of the run, or else
        the state now. */
    ghost predicate Asked(step: Option<Step>, before: Sys)
      requires Valid(run)
      reads this
    {
      var n := |run.steps|;
      if step.None? then before == sys else n > 0 && run.steps[n - 1] == step.value && At(run, n - 1) == before
    }

    method HandleConnect(ttlSeconds: Int64, create: Outcome) returns (code: int, ghost before: Sys)
      requires Ok()
      modifies this
      ensures Ok() && old(run.steps) <= run.steps && ConnectAnswer(code, ttlSeconds, create, before, sys)
      ensures Asked(if create == Rejected then None else Some(Env(Connect(EffectiveTtl(ttlSeconds)))), before)
    {
      var ttl := ttlSeconds;
      if ttl <= 0 { ttl := DEFAULT_TTL; }
      Interfere();
      before := sys;
      var present := sys.api.cur.Some?;
      if create != Rejected { Take(Env(Connect(ttl))); }
      if create != Applied {
        code := INTERNAL_ERROR;
      } else if present {
        code := CONFLICT;
      } else {
        code := ACCEPTED;
      }
    }

    method HandleDisconnect(get: Fetch<Spec, Status>, delete: Outcome) returns (code: int, ghost before: Sys)
      requires Ok()
      modifies this
      ensures Ok() && old(run.steps) <= run.steps && DisconnectAnswer(code, get, delete, before, sys)
      ensures Asked(if get.Got? && delete != Rejected then Some(Env(Delete)) else None, before)
    {
      Interfere();
      before := sys;
      if get == NoReply { return INTERNAL_ERROR, before; }
      if get == Nothing { return NOT_FOUND, before; }
      var present := sys.api.cur.Some?;
      if delete != Rejected { Take(Env(Delete)); }
      if delete != Applied {
        code := INTERNAL_ERROR;
      } else if !present {
        code := NOT_FOUND;
      } else {
        code := ACCEPTED;
      }
    }

    /** POST /rancher. `body` is None when it does not decode; `syncs` are the LosantSync names listed,
        None if the list failed. The session of the first one is the one followed here. `get` and `write` are
        what becomes of the calls about it. */
    method HandleRancher(post: bool, body: Option<Request>, syncs: Option<seq<string>>, get: Fetch<Spec, Status>,
                         write: Outcome)
      returns (code: int, ghost before: Sys)
      requires Ok() && (syncs.Some? && syncs.value != [] ==> syncs.value[0] == sys.key)
      modifies this
      ensures Ok()
      ensures if !post then code == METHOD_NOT_ALLOWED && sys == before == old(sys)
              else if body.None? then code == BAD_REQUEST && sys == before == old(sys)
              else if syncs.None? || syncs.value == [] then code == INTERNAL_ERROR && sys == before == old(sys)
              else if body.value.action == "connect" then
                ConnectAnswer(code, body.value.ttlSeconds, write, before, sys)
              else if body.value.action == "disconnect" then DisconnectAnswer(code, get, write, before, sys)
              else code == BAD_REQUEST && sys == before == old(sys)
    {
      before := sys;
      if !post { code := METHOD_NOT_ALLOWED; return; }
      if body.None? { code := BAD_REQUEST; return; }
      if syncs.None? || syncs.value == [] { code := INTERNAL_ERROR; return; }
      if body.value.action == "connect" {
        code, before := HandleConnect(body.value.ttlSeconds, write);
      } else if body.value.action == "disconnect" {
        code, before := HandleDisconnect(get, write);
      } else {
        code := BAD_REQUEST;
      }
    }
  }
}
