/** The Edge Workflow release loop: which releases it asks for, what it reports, and when it comes to rest. */
module Workflows {
  import opened Base
  import P = SyncProtocol

  /** One deployment as Losant lists it; a flow may be listed several times. */
  datatype Deployment = Deployment(flowId: string, current: string, desired: string)

  datatype Entry = Entry(flowId: string, version: string)

  datatype Reply = Queued | UnknownWorkflow | Refused

  datatype Request = Request(entry: Entry, reply: Reply)

  datatype Versions = Versions(current: string, desired: string)

  /** What counts for a flow is its last listing; a flow that is not listed has empty versions. */
  function Lookup(list: seq<Deployment>, flow: string): Versions {
    if list == [] then Versions("", "")
    else
      var d := list[|list| - 1];
      if d.flowId == flow then Versions(d.current, d.desired) else Lookup(list[..|list| - 1], flow)
  }

  predicate IsDue(e: Entry, list: seq<Deployment>) { Lookup(list, e.flowId).desired != e.version }

  /** The entries to release, in the order of the spec. */
  function Due(entries: seq<Entry>, list: seq<Deployment>): seq<Entry> {
    if entries == [] then []
    else
      var e := entries[|entries| - 1];
      Due(entries[..|entries| - 1], list) + if IsDue(e, list) then [e] else []
  }

  predicate Confirmed(entries: seq<Entry>, list: seq<Deployment>) {
    forall i | 0 <= i < |entries| :: Lookup(list, entries[i].flowId) == Versions(entries[i].version, entries[i].version)
  }

  /** A release is listed after everything before it and leaves the running version alone. */
  function Release(list: seq<Deployment>, e: Entry): seq<Deployment> {
    list + [Deployment(e.flowId, Lookup(list, e.flowId).current, e.version)]
  }

  function ReleaseAll(list: seq<Deployment>, es: seq<Entry>): seq<Deployment> {
    if es == [] then list else Release(ReleaseAll(list, es[..|es| - 1]), es[|es| - 1])
  }

  ghost predicate SameDesired(a: seq<Deployment>, b: seq<Deployment>) {
    forall f :: Lookup(a, f).desired == Lookup(b, f).desired
  }

  // ---- What the loop decides ----

  lemma {:induction false} DueMeans(entries: seq<Entry>, list: seq<Deployment>, e: Entry)
    ensures e in Due(entries, list) <==> e in entries && IsDue(e, list)
  {
    if entries != [] {
      DueMeans(entries[..|entries| - 1], list, e);
      assert entries == entries[..|entries| - 1] + [entries[|entries| - 1]];
    }
  }

  /** Increasing positions below `n`. */
  predicate Increasing(at: seq<nat>, n: nat) {
    (forall k | 0 <= k < |at| :: at[k] < n) && (forall k, m | 0 <= k < m < |at| :: at[k] < at[m])
  }

  predicate Picks(due: seq<Entry>, entries: seq<Entry>, at: seq<nat>)
    requires Increasing(at, |entries|)
  {
    |due| == |at| && forall k | 0 <= k < |at| :: due[k] == entries[at[k]]
  }

  predicate AllDue(entries: seq<Entry>, list: seq<Deployment>, at: seq<nat>) {
    forall i | 0 <= i < |entries| :: IsDue(entries[i], list) <==> i in at
  }

  lemma IncreasingMore(at: seq<nat>, n: nat)
    requires Increasing(at, n)
    ensures Increasing(at, n + 1) && Increasing(at + [n], n + 1)
  {
  }

  lemma PicksMore(due: seq<Entry>, entries: seq<Entry>, at: seq<nat>, e: Entry)
    requires Increasing(at, |entries|) && Picks(due, entries, at)
    ensures Increasing(at, |entries| + 1) && Picks(due, entries + [e], at)
    ensures Increasing(at + [|entries|], |entries| + 1) && Picks(due + [e], entries + [e], at + [|entries|])
  {
    IncreasingMore(at, |entries|);
    assert forall i | 0 <= i < |entries| :: (entries + [e])[i] == entries[i];
  }

  lemma AllDueMore(entries: seq<Entry>, list: seq<Deployment>, at: seq<nat>, e: Entry)
    requires Increasing(at, |entries|) && AllDue(entries, list, at)
    ensures AllDue(entries + [e], list, if IsDue(e, list) then at + [|entries|] else at)
  {
    var all := entries + [e];
    forall i | 0 <= i < |all|
      ensures IsDue(all[i], list) <==> i in if IsDue(e, list) then at + [|entries|] else at
    {
      if i < |entries| { assert all[i] == entries[i]; }
    }
  }

  /** The due entries come in the order of the spec, each once: at the increasing positions `at`, which are all
      the positions of due entries. */
  lemma {:induction false} DueInOrder(entries: seq<Entry>, list: seq<Deployment>) returns (at: seq<nat>)
    ensures Increasing(at, |entries|) && Picks(Due(entries, list), entries, at) && AllDue(entries, list, at)
  {
    at := [];
    if entries != [] {
      var rest, e := entries[..|entries| - 1], entries[|entries| - 1];
      at := DueInOrder(rest, list);
      assert entries == rest + [e];
      PicksMore(Due(rest, list), rest, at, e);
      AllDueMore(rest, list, at, e);
      if IsDue(e, list) { at := at + [|rest|]; }
    }
  }

  predicate IsLast(list: seq<Deployment>, flow: string, i: int) {
    0 <= i < |list| && list[i].flowId == flow && forall j | i < j < |list| :: list[j].flowId != flow
  }

  /** What counts for a flow is the last listing of it, and without one its versions are empty. */
  lemma {:induction false} LookupMeans(list: seq<Deployment>, flow: string)
    ensures (forall i | 0 <= i < |list| :: list[i].flowId != flow) ==> Lookup(list, flow) == Versions("", "")
    ensures forall i | IsLast(list, flow, i) ::
      Lookup(list, flow) == Versions(list[i].current, list[i].desired)
  {
    if list != [] {
      var rest := list[..|list| - 1];
      LookupMeans(rest, flow);
      forall i | IsLast(list, flow, i) ensures Lookup(list, flow) == Versions(list[i].current, list[i].desired) {
        assert i < |rest| ==> IsLast(rest, flow, i);
      }
    }
  }

  lemma NothingDue(entries: seq<Entry>, list: seq<Deployment>)
    ensures Due(entries, list) == [] <==> forall e | e in entries :: !IsDue(e, list)
  {
    forall e | e in entries ensures IsDue(e, list) <==> e in Due(entries, list) { DueMeans(entries, list, e); }
    if Due(entries, list) != [] { DueMeans(entries, list, Due(entries, list)[0]); }
  }

  lemma ReleasedVersion(list: seq<Deployment>, e: Entry, f: string)
    ensures Lookup(Release(list, e), f) == if f == e.flowId then Versions(Lookup(list, f).current, e.version)
      else Lookup(list, f)
  {
    assert Release(list, e)[..|list|] == list;
  }

  /** If all releases of a flow are of one version, that is its desired version afterwards. */
  lemma {:induction false} DesiredAfter(list: seq<Deployment>, es: seq<Entry>, f: string, v: string)
    requires forall e | e in es && e.flowId == f :: e.version == v
    ensures Lookup(ReleaseAll(list, es), f).desired == if Entry(f, v) in es then v else Lookup(list, f).desired
  {
    if es != [] {
      var rest, last := es[..|es| - 1], es[|es| - 1];
      assert es == rest + [last];
      DesiredAfter(list, rest, f, v);
      ReleasedVersion(ReleaseAll(list, rest), last, f);
      if last.flowId == f { assert last == Entry(f, v); }
    }
  }

  /** No flow is asked for in two different versions. */
  predicate Consistent(entries: seq<Entry>) {
    forall i, j | 0 <= i < |entries| && 0 <= j < |entries| && entries[i].flowId == entries[j].flowId ::
      entries[i].version == entries[j].version
  }

  predicate DistinctFlows(entries: seq<Entry>) {
    forall i, j | 0 <= i < j < |entries| :: entries[i].flowId != entries[j].flowId
  }

  lemma EntrySettled(entries: seq<Entry>, list: seq<Deployment>, e: Entry)
    requires Consistent(entries) && e in entries
    ensures !IsDue(e, ReleaseAll(list, Due(entries, list)))
  {
    var due := Due(entries, list);
    forall x | x in due && x.flowId == e.flowId ensures x.version == e.version { DueMeans(entries, list, x); }
    DesiredAfter(list, due, e.flowId, e.version);
    DueMeans(entries, list, e);
    assert e == Entry(e.flowId, e.version);
  }

  /** After a run in which every release was accepted, another run releases nothing: for every listing
      exactly when the spec is consistent, in particular when its flow ids are distinct. */
  lemma SecondRunIsQuiet(entries: seq<Entry>, list: seq<Deployment>)
    ensures Due(entries, ReleaseAll(list, Due(entries, list))) == [] <==> Consistent(entries)
    ensures DistinctFlows(entries) ==> Consistent(entries)
  {
    var after := ReleaseAll(list, Due(entries, list));
    NothingDue(entries, after);
    if Consistent(entries) {
      forall e | e in entries ensures !IsDue(e, after) { EntrySettled(entries, list, e); }
    } else {
      var i, j :| 0 <= i < |entries| && 0 <= j < |entries| && entries[i].flowId == entries[j].flowId
        && entries[i].version != entries[j].version;
      assert entries[i] in entries && entries[j] in entries;
      assert IsDue(entries[i], after) || IsDue(entries[j], after);
    }
  }

  /** A spec that asks for one flow in two versions keeps releasing for ever. */
  lemma InconsistentSpecNeverSettles(list: seq<Deployment>)
    ensures var entries := [Entry("flow", "1"), Entry("flow", "2")];
      Due(entries, ReleaseAll(list, Due(entries, list))) != []
  {
    var entries := [Entry("flow", "1"), Entry("flow", "2")];
    SecondRunIsQuiet(entries, list);
    assert entries[0].flowId == entries[1].flowId && entries[0].version != entries[1].version;
  }

  lemma {:induction false} DueDependsOnDesired(entries: seq<Entry>, a: seq<Deployment>, b: seq<Deployment>)
    requires SameDesired(a, b)
    ensures Due(entries, a) == Due(entries, b)
  {
    if entries != [] { DueDependsOnDesired(entries[..|entries| - 1], a, b); }
  }

  /** Whatever GEA confirms after such a run: the next run releases nothing, and it reports Deployed
      exactly when every flow runs the version asked for. */
  lemma RestsOnceConfirmed(entries: seq<Entry>, list: seq<Deployment>, later: seq<Deployment>)
    requires Consistent(entries) && SameDesired(later, ReleaseAll(list, Due(entries, list)))
    ensures Due(entries, later) == []
    ensures Confirmed(entries, later) <==>
      forall i | 0 <= i < |entries| :: Lookup(later, entries[i].flowId).current == entries[i].version
  {
    SecondRunIsQuiet(entries, list);
    DueDependsOnDesired(entries, later, ReleaseAll(list, Due(entries, list)));
    NothingDue(entries, later);
    forall i | 0 <= i < |entries| ensures Lookup(later, entries[i].flowId).desired == entries[i].version {
      assert entries[i] in entries;
    }
  }

  // ---- The loop ----

  /** What a run asked for and was told, and its verdict, given the listing it started from. */
  predicate RunEnd(verdict: P.Verdict, entries: seq<Entry>, list: seq<Deployment>, log: seq<Request>) {
    var due := Due(entries, list);
    && |log| <= |due|
    && (forall k | 0 <= k < |log| :: log[k].entry == due[k])
    && (forall k | 0 <= k < |log| - 1 :: log[k].reply == Queued)
    && match verdict
       case NoneAsked => false
       case Broken(reason) =>
         && log != [] && log[|log| - 1].reply != Queued
         && reason == (if log[|log| - 1].reply == UnknownWorkflow then P.WorkflowNotFound else P.ReleaseFailed)
       case Settled(reason) =>
         && |log| == |due| && (log != [] ==> log[|log| - 1].reply == Queued)
         && reason == (if Confirmed(entries, list) then P.Deployed else P.DeploymentPending)
  }

  lemma {:induction false} ConfirmKeepsDesired(list: seq<Deployment>, i: nat, v: string, f: string)
    requires i < |list|
    ensures Lookup(list[i := list[i].(current := v)], f).desired == Lookup(list, f).desired
  {
    var rest := list[..|list| - 1];
    if i < |list| - 1 {
      assert list[i := list[i].(current := v)][..|list| - 1] == rest[i := rest[i].(current := v)];
      ConfirmKeepsDesired(rest, i, v, f);
    } else {
      assert list[i := list[i].(current := v)][..|list| - 1] == rest;
    }
  }

  /** Losant's deployments of one edge device, and the release requests it received with its replies. */
  class EdgeDevice {
    var deployments: seq<Deployment>
    ghost var log: seq<Request>   // of the run in progress, or the latest one
    ghost var listings: seq<Option<seq<Deployment>>>   // every answer to a request for the deployments

    constructor (deployments: seq<Deployment>)
      ensures this.deployments == deployments && log == [] && listings == []
    {
      this.deployments, log, listings := deployments, [], [];
    }

    /** GEA reports new running versions at any time. */
    method Progress()
      modifies this`deployments
      ensures SameDesired(deployments, old(deployments))
    {
      var n: nat := *;
      while n > 0
        invariant SameDesired(deployments, old(deployments))
      {
        var i: nat, v: string := *, *;
        if i < |deployments| {
          forall f ensures Lookup(deployments[i := deployments[i].(current := v)], f).desired ==
            Lookup(deployments, f).desired {
            ConfirmKeepsDesired(deployments, i, v, f);
          }
          deployments := deployments[i := deployments[i].(current := v)];
        }
        n := n - 1;
      }
    }

    method GetEdgeDeployments() returns (list: Option<seq<Deployment>>)
      modifies this`deployments, this`listings
      ensures SameDesired(deployments, old(deployments))
      ensures list.Some? ==> list.value == deployments
      ensures listings == old(listings) + [list]
    {
      Progress();
      var ok: bool := *;
      list := if ok then Some(deployments) else None;
      listings := listings + [list];
    }

    method ReleaseWorkflow(e: Entry) returns (reply: Reply)
      modifies this`deployments, this`log
      ensures log == old(log) + [Request(e, reply)]
      ensures reply == Queued ==> SameDesired(deployments, Release(old(deployments), e))
    {
      Progress();
      reply := *;
      var effective: bool := *;
      ghost var before := deployments;
      if reply == Queued || effective { deployments := Release(deployments, e); }
      log := log + [Request(e, reply)];
      forall f | reply == Queued ensures Lookup(deployments, f).desired ==
        Lookup(Release(old(deployments), e), f).desired {
        ReleasedVersion(before, e, f);
        ReleasedVersion(old(deployments), e, f);
      }
    }

    /** Releases are asked for exactly the due entries of the listing, in order, up to the first that
        is not accepted; with all of them accepted the verdict says whether everything is confirmed. */
    method EnsureWorkflowDeployments(entries: seq<Entry>)
      returns (verdict: P.Verdict, ghost list: Option<seq<Deployment>>)
      modifies this
      ensures verdict == P.NoneAsked <==> entries == []
      ensures listings == old(listings) + if entries == [] then [] else [list]
      ensures list.None? ==> log == [] && (entries != [] ==> verdict == P.Broken(P.ReleaseFailed))
      ensures list.Some? ==> RunEnd(verdict, entries, list.value, log)
      ensures list.Some? && verdict.Settled? ==>
        SameDesired(deployments, ReleaseAll(list.value, Due(entries, list.value)))
    {
      log, list := [], None;
      if |entries| == 0 { return P.NoneAsked, None; }
      var got := GetEdgeDeployments();
      list := got;
      if got.None? {
        verdict := P.Broken(P.ReleaseFailed);
      } else {
        verdict := ReleaseDue(entries, got.value);
      }
    }

    /** One entry of the spec, after the releases of `done`: released if it is due. */
    method Visit(wd: Entry, current: Versions, ghost list: seq<Deployment>, ghost done: seq<Entry>)
      returns (reply: Option<Reply>, confirmed: bool)
      requires SameDesired(deployments, ReleaseAll(list, done)) && current == Lookup(list, wd.flowId)
      modifies this`deployments, this`log
      ensures reply.Some? <==> IsDue(wd, list)
      ensures log == old(log) + if reply.Some? then [Request(wd, reply.value)] else []
      ensures confirmed <==> Lookup(list, wd.flowId) == Versions(wd.version, wd.version)
      ensures reply.None? || reply == Some(Queued) ==>
        SameDesired(deployments, ReleaseAll(list, done + if reply.Some? then [wd] else []))
    {
      if current.desired != wd.version {
        ghost var before := deployments;
        var answer := ReleaseWorkflow(wd);
        if answer == Queued { ReleaseStep(before, deployments, list, done, wd); }
        return Some(answer), false;
      }
      assert done + [] == done;
      return None, current.current == wd.version;
    }

    method ReleaseDue(entries: seq<Entry>, list: seq<Deployment>) returns (verdict: P.Verdict)
      requires SameDesired(deployments, list) && log == []
      modifies this`deployments, this`log
      ensures RunEnd(verdict, entries, list, log)
      ensures verdict.Settled? ==> SameDesired(deployments, ReleaseAll(list, Due(entries, list)))
    {
      var byFlowId := Index(list);
      var allConfirmed := true;
      for k := 0 to |entries|
        invariant SoFar(entries, k, list, log, allConfirmed, deployments)
      {
        var current := Get(byFlowId, entries[k].flowId, list);
        ghost var before, asked := deployments, log;
        var reply, confirmed := Visit(entries[k], current, list, Due(entries[..k], list));
        if reply.Some? && reply.value != Queued {
          Broke(entries, k, list, asked, allConfirmed, before, reply.value);
          return P.Broken(if reply.value == UnknownWorkflow then P.WorkflowNotFound else P.ReleaseFailed);
        }
        WentOn(entries, k, list, asked, allConfirmed, before, reply, confirmed, deployments);
        allConfirmed := allConfirmed && confirmed;
      }
      Finished(entries, list, log, allConfirmed, deployments);
      verdict := P.Settled(if allConfirmed then P.Deployed else P.DeploymentPending);
    }
  }

  /** After `k` entries: what was due among them was accepted. */
  ghost predicate SoFar(entries: seq<Entry>, k: nat, list: seq<Deployment>, log: seq<Request>, allConfirmed: bool,
    now: seq<Deployment>) {
    && k <= |entries| && AllQueued(Due(entries[..k], list), log)
    && (allConfirmed <==> Confirmed(entries[..k], list))
    && SameDesired(now, ReleaseAll(list, Due(entries[..k], list)))
  }

  predicate AllQueued(entries: seq<Entry>, log: seq<Request>) {
    |log| == |entries| && forall i | 0 <= i < |log| :: log[i] == Request(entries[i], Queued)
  }

  lemma QueuedMore(entries: seq<Entry>, log: seq<Request>, e: Entry)
    requires AllQueued(entries, log)
    ensures AllQueued(entries + [e], log + [Request(e, Queued)])
  {
  }

  lemma WentOn(entries: seq<Entry>, k: nat, list: seq<Deployment>, log: seq<Request>, allConfirmed: bool,
    before: seq<Deployment>,
               reply: Option<Reply>, confirmed: bool, after: seq<Deployment>)
    requires k < |entries| && SoFar(entries, k, list, log, allConfirmed, before)
    requires reply == if IsDue(entries[k], list) then Some(Queued) else None
    requires confirmed <==> Lookup(list, entries[k].flowId) == Versions(entries[k].version, entries[k].version)
    requires SameDesired(after, ReleaseAll(list, Due(entries[..k], list) + if reply.Some? then [entries[k]] else []))
    ensures var more := if reply.Some? then [Request(entries[k], Queued)] else [];
      SoFar(entries, k + 1, list, log + more, allConfirmed && confirmed, after)
  {
    DueGrows(entries, k, list);
    ConfirmedGrows(entries, k, list);
    QueuedMore(Due(entries[..k], list), log, entries[k]);
    assert log + [] == log && Due(entries[..k], list) + [] == Due(entries[..k], list);
  }

  lemma Broke(entries: seq<Entry>, k: nat, list: seq<Deployment>, log: seq<Request>, allConfirmed: bool,
    before: seq<Deployment>, reply: Reply)
    requires k < |entries| && SoFar(entries, k, list, log, allConfirmed, before) && IsDue(entries[k], list)
    requires reply != Queued
    ensures RunEnd(P.Broken(if reply == UnknownWorkflow then P.WorkflowNotFound else P.ReleaseFailed), entries, list,
                   log + [Request(entries[k], reply)])
  {
    DueGrows(entries, k, list);
    DuePrefix(entries, k + 1, list);
  }

  lemma Finished(entries: seq<Entry>, list: seq<Deployment>, log: seq<Request>, allConfirmed: bool,
    now: seq<Deployment>)
    requires SoFar(entries, |entries|, list, log, allConfirmed, now)
    ensures RunEnd(P.Settled(if allConfirmed then P.Deployed else P.DeploymentPending), entries, list, log)
    ensures SameDesired(now, ReleaseAll(list, Due(entries, list)))
  {
    assert entries[..|entries|] == entries;
  }

  lemma {:induction false} DuePrefix(entries: seq<Entry>, k: nat, list: seq<Deployment>)
    requires k <= |entries|
    ensures Due(entries[..k], list) <= Due(entries, list)
    decreases |entries|
  {
    if k < |entries| {
      var rest := entries[..|entries| - 1];
      assert rest[..k] == entries[..k];
      DuePrefix(rest, k, list);
    } else {
      assert entries[..k] == entries;
    }
  }

  lemma DueGrows(entries: seq<Entry>, k: nat, list: seq<Deployment>)
    requires k < |entries|
    ensures Due(entries[..k + 1], list) == Due(entries[..k], list) + if IsDue(entries[k], list) then [entries[k]]
      else []
  {
    assert entries[..k + 1][..k] == entries[..k];
  }

  lemma ConfirmedGrows(entries: seq<Entry>, k: nat, list: seq<Deployment>)
    requires k < |entries|
    ensures Confirmed(entries[..k + 1], list) <==>
      && Confirmed(entries[..k], list)
      && Lookup(list, entries[k].flowId) == Versions(entries[k].version, entries[k].version)
  {
    var now := entries[..k + 1];
    assert forall i | 0 <= i < k :: now[i] == entries[..k][i];
    assert now[k] == entries[k];
  }

  lemma ReleaseStep(before: seq<Deployment>, after: seq<Deployment>, list: seq<Deployment>, done: seq<Entry>, e: Entry)
    requires SameDesired(before, ReleaseAll(list, done)) && SameDesired(after, Release(before, e))
    ensures SameDesired(after, ReleaseAll(list, done + [e]))
  {
    assert (done + [e])[..|done|] == done;
    forall f ensures Lookup(after, f).desired == Lookup(ReleaseAll(list, done + [e]), f).desired {
      ReleasedVersion(before, e, f);
      ReleasedVersion(ReleaseAll(list, done), e, f);
    }
  }

  ghost predicate Indexes(byFlowId: map<string, Versions>, list: seq<Deployment>) {
    forall f :: Lookup(list, f) == if f in byFlowId then byFlowId[f] else Versions("", "")
  }

  method Get(byFlowId: map<string, Versions>, flow: string, ghost list: seq<Deployment>) returns (v: Versions)
    requires Indexes(byFlowId, list)
    ensures v == Lookup(list, flow)
  {
    v := if flow in byFlowId then byFlowId[flow] else Versions("", "");
  }

  /** The map from flow ids to versions: later listings replace earlier ones. */
  method Index(list: seq<Deployment>) returns (byFlowId: map<string, Versions>)
    ensures Indexes(byFlowId, list)
  {
    byFlowId := map[];
    for k := 0 to |list|
      invariant Indexes(byFlowId, list[..k])
    {
      assert list[..k + 1][..k] == list[..k];
      byFlowId := byFlowId[list[k].flowId := Versions(list[k].current, list[k].desired)];
    }
    assert list[..|list|] == list;
  }
}
