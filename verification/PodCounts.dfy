/** Counting pods per node and for the whole cluster in one pass. */
module PodCounts {
  import opened Base
  import opened Sums

  datatype Phase = Running | Failed | Pending | Succeeded | Unknown

  /** A pod: its node, its phase, why its containers wait (if they do) and its conditions in order, each
      with whether it is the Ready condition and whether its status is True. */
  datatype Pod = Pod(nodeName: string, phase: Phase, waiting: seq<Option<string>>, conditions: seq<Condition>)

  datatype Condition = Condition(isReady: bool, isTrue: bool)

  datatype Counts = Counts(total: int, running: int, failed: int, pending: int, crashLoop: int, notReady: int)

  const ZERO: Counts := Counts(0, 0, 0, 0, 0, 0)

  const BACK_OFF: Option<string> := Some("CrashLoopBackOff")

  predicate CrashLooping(p: Pod) { BACK_OFF in p.waiting }

  /** The first Ready condition decides. */
  predicate Ready(conditions: seq<Condition>) {
    conditions != [] && if conditions[0].isReady then conditions[0].isTrue else Ready(conditions[1..])
  }

  method IsCrashLooping(p: Pod) returns (b: bool)
    ensures b == CrashLooping(p)
  {
    for i := 0 to |p.waiting|
      invariant BACK_OFF !in p.waiting[..i]
    {
      if p.waiting[i].Some? && p.waiting[i].value == "CrashLoopBackOff" { return true; }
    }
    assert p.waiting[..|p.waiting|] == p.waiting;
    return false;
  }

  method IsPodReady(p: Pod) returns (b: bool)
    ensures b == Ready(p.conditions)
  {
    for i := 0 to |p.conditions|
      invariant Ready(p.conditions[i..]) == Ready(p.conditions)
    {
      assert p.conditions[i..][1..] == p.conditions[i + 1..];
      if p.conditions[i].isReady { return p.conditions[i].isTrue; }
    }
    return false;
  }

  /** The counts with one more pod. */
  function Tick(c: Counts, p: Pod): Counts {
    Counts(c.total + 1,
           c.running + if p.phase == Running then 1 else 0,
           c.failed + if p.phase == Failed then 1 else 0,
           c.pending + if p.phase == Pending then 1 else 0,
           c.crashLoop + if CrashLooping(p) then 1 else 0,
           c.notReady + if p.phase == Running && !Ready(p.conditions) then 1 else 0)
  }

  function Tally(pods: seq<Pod>): Counts {
    if pods == [] then ZERO else Tick(Tally(pods[..|pods| - 1]), pods[|pods| - 1])
  }

  function OnNode(pods: seq<Pod>, node: string): seq<Pod> {
    if pods == [] then []
    else
      var rest := OnNode(pods[..|pods| - 1], node);
      if pods[|pods| - 1].nodeName == node then rest + [pods[|pods| - 1]] else rest
  }

  function Nodes(pods: seq<Pod>): set<string> { set i | 0 <= i < |pods| :: pods[i].nodeName }

  lemma TallyMore(pods: seq<Pod>, p: Pod)
    ensures Tally(pods + [p]) == Tick(Tally(pods), p)
  {
    assert (pods + [p])[..|pods|] == pods;
  }

  lemma OneMore(pods: seq<Pod>, p: Pod)
    ensures forall n :: OnNode(pods + [p], n) == if p.nodeName == n then OnNode(pods, n) + [p] else OnNode(pods, n)
    ensures Nodes(pods + [p]) == Nodes(pods) + {p.nodeName}
  {
    var all := pods + [p];
    assert all[..|all| - 1] == pods;
    assert forall i | 0 <= i < |pods| :: all[i] == pods[i];
    assert all[|pods|].nodeName == p.nodeName;
    forall n | n in Nodes(pods) ensures n in Nodes(all) {
      var i :| 0 <= i < |pods| && pods[i].nodeName == n;
      assert all[i].nodeName == n;
    }
  }

  lemma {:induction false} NobodyThere(pods: seq<Pod>, node: string)
    ensures node in Nodes(pods) <==> OnNode(pods, node) != []
  {
    if pods != [] {
      var rest, p := pods[..|pods| - 1], pods[|pods| - 1];
      assert pods == rest + [p];
      OneMore(rest, p);
      NobodyThere(rest, node);
    }
  }

  /** Each node that has pods is mapped to the tally of those. */
  ghost predicate Partitions(perNode: map<string, Counts>, pods: seq<Pod>) {
    perNode.Keys == Nodes(pods) && forall n | n in perNode :: perNode[n] == Tally(OnNode(pods, n))
  }

  /** The counts of a node before it has any pods are all zero. */
  lemma NodeBefore(perNode: map<string, Counts>, pods: seq<Pod>, n: string)
    requires Partitions(perNode, pods)
    ensures Tally(OnNode(pods, n)) == if n in perNode then perNode[n] else ZERO
  {
    NobodyThere(pods, n);
  }

  lemma NodeAfter(pods: seq<Pod>, p: Pod, n: string)
    ensures var before := Tally(OnNode(pods, n));
      Tally(OnNode(pods + [p], n)) == if p.nodeName == n then Tick(before, p) else before
  {
    OneMore(pods, p);
    TallyMore(OnNode(pods, n), p);
  }

  lemma PartitionStep(perNode: map<string, Counts>, pods: seq<Pod>, p: Pod)
    requires Partitions(perNode, pods)
    ensures var nc := if p.nodeName in perNode then perNode[p.nodeName] else ZERO;
      Partitions(perNode[p.nodeName := Tick(nc, p)], pods + [p])
  {
    var nc := if p.nodeName in perNode then perNode[p.nodeName] else ZERO;
    var after := perNode[p.nodeName := Tick(nc, p)];
    assert after.Keys == Nodes(pods + [p]) by { OneMore(pods, p); }
    forall n | n in after ensures after[n] == Tally(OnNode(pods + [p], n)) {
      NodeBefore(perNode, pods, n);
      NodeAfter(pods, p, n);
    }
  }

  /** Per-node counts are the tallies of the pods on each node; cluster counts the tally of all pods,
      except that unready pods are counted per node only. */
  method CollectPodCounts(pods: seq<Pod>) returns (perNode: map<string, Counts>, cluster: Counts)
    ensures Partitions(perNode, pods) && cluster == Tally(pods).(notReady := 0)
  {
    perNode, cluster := map[], ZERO;
    for i := 0 to |pods|
      invariant Partitions(perNode, pods[..i]) && cluster == Tally(pods[..i]).(notReady := 0)
    {
      var p := pods[i];
      assert pods[..i + 1] == pods[..i] + [p];
      PartitionStep(perNode, pods[..i], p);
      TallyMore(pods[..i], p);
      var nc := if p.nodeName in perNode then perNode[p.nodeName] else ZERO;
      nc, cluster := Count(p, nc, cluster);
      perNode := perNode[p.nodeName := nc];
    }
    assert pods[..|pods|] == pods;
  }

  /** The body of the loop: one pod in the counts of its node and of the cluster. */
  method Count(p: Pod, node: Counts, all: Counts) returns (nc: Counts, cluster: Counts)
    ensures nc == Tick(node, p) && cluster == Tick(all, p).(notReady := all.notReady)
  {
    nc, cluster := node.(total := node.total + 1), all.(total := all.total + 1);
    match p.phase {
      case Running => nc, cluster := nc.(running := nc.running + 1), cluster.(running := cluster.running + 1);
      case Failed => nc, cluster := nc.(failed := nc.failed + 1), cluster.(failed := cluster.failed + 1);
      case Pending => nc, cluster := nc.(pending := nc.pending + 1), cluster.(pending := cluster.pending + 1);
      case _ =>
    }
    var looping := IsCrashLooping(p);
    if looping { nc, cluster := nc.(crashLoop := nc.crashLoop + 1), cluster.(crashLoop := cluster.crashLoop + 1); }
    var ready := IsPodReady(p);
    if !ready && p.phase == Running { nc := nc.(notReady := nc.notReady + 1); }
  }

  // ---- Nothing is lost in the partition ----

  datatype Field = Total | RunningPods | FailedPods | PendingPods | CrashLoopPods | NotReadyPods

  function Get(c: Counts, f: Field): int {
    match f
    case Total => c.total
    case RunningPods => c.running
    case FailedPods => c.failed
    case PendingPods => c.pending
    case CrashLoopPods => c.crashLoop
    case NotReadyPods => c.notReady
  }

  /** A field of the counts on each of the given nodes. */
  function Column(pods: seq<Pod>, nodes: set<string>, f: Field): map<string, int> {
    map n | n in nodes :: Get(Tally(OnNode(pods, n)), f)
  }

  /** Over any nodes, the counts add up to the tally of the pods that sit on them. */
  function Among(pods: seq<Pod>, nodes: set<string>): seq<Pod> {
    if pods == [] then []
    else
      var rest := Among(pods[..|pods| - 1], nodes);
      if pods[|pods| - 1].nodeName in nodes then rest + [pods[|pods| - 1]] else rest
  }

  lemma {:induction false} AllZero(m: map<string, int>)
    requires forall k | k in m :: m[k] == 0
    ensures Sum(m) == 0
    decreases |m|
  {
    if m != map[] {
      var k :| k in m;
      SumRemove(m, k);
      AllZero(m - {k});
    }
  }

  lemma CellStep(pods: seq<Pod>, p: Pod, n: string, f: Field)
    ensures Get(Tally(OnNode(pods + [p], n)), f)
      == Get(Tally(OnNode(pods, n)), f) + if p.nodeName == n then Get(Tick(ZERO, p), f) else 0
  {
    OneMore(pods, p);
    TallyMore(OnNode(pods, n), p);
  }

  lemma ColumnStep(pods: seq<Pod>, p: Pod, nodes: set<string>, f: Field)
    ensures Sum(Column(pods + [p], nodes, f))
      == Sum(Column(pods, nodes, f)) + if p.nodeName in nodes then Get(Tick(ZERO, p), f) else 0
  {
    var before, after := Column(pods, nodes, f), Column(pods + [p], nodes, f);
    var v := Get(Tick(ZERO, p), f);
    assert (forall x | x in before && x != p.nodeName :: after[x] == before[x])
        && (p.nodeName in before ==> after[p.nodeName] == before[p.nodeName] + v) by {
      forall n | n in nodes ensures after[n] == before[n] + if p.nodeName == n then v else 0 {
        CellStep(pods, p, n, f);
      }
    }
    SumBump(before, after, p.nodeName, v);
  }

  lemma AmongMore(pods: seq<Pod>, p: Pod, nodes: set<string>)
    ensures Among(pods + [p], nodes) == if p.nodeName in nodes then Among(pods, nodes) + [p] else Among(pods, nodes)
  {
    assert (pods + [p])[..|pods|] == pods;
  }

  lemma TickAdds(c: Counts, p: Pod, f: Field)
    ensures Get(Tick(c, p), f) == Get(c, f) + Get(Tick(ZERO, p), f)
  {
  }

  lemma AmongTally(pods: seq<Pod>, p: Pod, nodes: set<string>, f: Field)
    ensures Get(Tally(Among(pods + [p], nodes)), f)
      == Get(Tally(Among(pods, nodes)), f) + if p.nodeName in nodes then Get(Tick(ZERO, p), f) else 0
  {
    AmongMore(pods, p, nodes);
    TallyMore(Among(pods, nodes), p);
    TickAdds(Tally(Among(pods, nodes)), p, f);
  }

  lemma {:induction false} ColumnsAddUp(pods: seq<Pod>, nodes: set<string>, f: Field)
    ensures Sum(Column(pods, nodes, f)) == Get(Tally(Among(pods, nodes)), f)
  {
    if pods == [] {
      AllZero(Column(pods, nodes, f));
    } else {
      var rest, p := pods[..|pods| - 1], pods[|pods| - 1];
      assert pods == rest + [p];
      ColumnsAddUp(rest, nodes, f);
      ColumnStep(rest, p, nodes, f);
      AmongTally(rest, p, nodes, f);
    }
  }

  /** Every pod is on one of `nodes`. */
  predicate AllOn(pods: seq<Pod>, nodes: set<string>) { Nodes(pods) <= nodes }

  lemma {:induction false} TallyTotal(pods: seq<Pod>)
    ensures Tally(pods).total == |pods|
  {
    if pods != [] { TallyTotal(pods[..|pods| - 1]); }
  }

  lemma {:induction false} AmongAll(pods: seq<Pod>, nodes: set<string>)
    ensures |Among(pods, nodes)| <= |pods|
    ensures |Among(pods, nodes)| == |pods| <==> AllOn(pods, nodes)
    ensures AllOn(pods, nodes) ==> Among(pods, nodes) == pods
  {
    if pods != [] {
      var rest, p := pods[..|pods| - 1], pods[|pods| - 1];
      assert pods == rest + [p];
      OneMore(rest, p);
      AmongAll(rest, nodes);
    }
  }

  /** The per-node values of every field add up to the cluster's. */
  lemma PartitionIsComplete(pods: seq<Pod>, f: Field)
    ensures Sum(Column(pods, Nodes(pods), f)) == Get(Tally(pods), f)
  {
    ColumnsAddUp(pods, Nodes(pods), f);
    AmongAll(pods, Nodes(pods));
  }

  /** Over listed nodes the pods add up to at most all of them, and to all exactly if each is on one. */
  lemma ListedNodes(pods: seq<Pod>, nodes: set<string>)
    ensures Sum(Column(pods, nodes, Total)) <= Tally(pods).total
    ensures Sum(Column(pods, nodes, Total)) == Tally(pods).total <==> AllOn(pods, nodes)
  {
    ColumnsAddUp(pods, nodes, Total);
    AmongAll(pods, nodes);
    TallyTotal(pods);
    TallyTotal(Among(pods, nodes));
  }

  // ---- What is counted ----

  predicate Unready(p: Pod) { p.phase == Running && !Ready(p.conditions) }

  predicate Counted(p: Pod, f: Field) {
    match f
    case Total => true
    case RunningPods => p.phase == Running
    case FailedPods => p.phase == Failed
    case PendingPods => p.phase == Pending
    case CrashLoopPods => CrashLooping(p)
    case NotReadyPods => Unready(p)
  }

  function Positions(pods: seq<Pod>, f: Field): set<int> { set i | 0 <= i < |pods| && Counted(pods[i], f) }

  lemma OnePositionMore(pods: seq<Pod>, p: Pod, f: Field)
    ensures |Positions(pods + [p], f)| == |Positions(pods, f)| + if Counted(p, f) then 1 else 0
  {
    var all := pods + [p];
    assert Positions(all, f) == if Counted(p, f) then Positions(pods, f) + {|pods|} else Positions(pods, f);
  }

  lemma {:induction false} FieldCounts(pods: seq<Pod>, f: Field)
    ensures Get(Tally(pods), f) == |Positions(pods, f)|
  {
    if pods != [] {
      var rest, p := pods[..|pods| - 1], pods[|pods| - 1];
      assert pods == rest + [p];
      FieldCounts(rest, f);
      TallyMore(rest, p);
      OnePositionMore(rest, p, f);
    }
  }

  lemma PhaseCounts(pods: seq<Pod>)
    ensures Tally(pods).running == |set i | 0 <= i < |pods| && pods[i].phase == Running|
    ensures Tally(pods).failed == |set i | 0 <= i < |pods| && pods[i].phase == Failed|
    ensures Tally(pods).pending == |set i | 0 <= i < |pods| && pods[i].phase == Pending|
  {
    assert Tally(pods).running == |set i | 0 <= i < |pods| && pods[i].phase == Running| by {
      FieldCounts(pods, RunningPods);
      assert Positions(pods, RunningPods) == set i | 0 <= i < |pods| && pods[i].phase == Running;
    }
    assert Tally(pods).failed == |set i | 0 <= i < |pods| && pods[i].phase == Failed| by {
      FieldCounts(pods, FailedPods);
      assert Positions(pods, FailedPods) == set i | 0 <= i < |pods| && pods[i].phase == Failed;
    }
    assert Tally(pods).pending == |set i | 0 <= i < |pods| && pods[i].phase == Pending| by {
      FieldCounts(pods, PendingPods);
      assert Positions(pods, PendingPods) == set i | 0 <= i < |pods| && pods[i].phase == Pending;
    }
  }

  lemma CrashLoopCounts(pods: seq<Pod>)
    ensures Tally(pods).crashLoop == |set i | 0 <= i < |pods| && Some("CrashLoopBackOff") in pods[i].waiting|
  {
    FieldCounts(pods, CrashLoopPods);
    assert Positions(pods, CrashLoopPods) == set i | 0 <= i < |pods| && Some("CrashLoopBackOff") in pods[i].waiting;
  }

  lemma NotReadyCounts(pods: seq<Pod>)
    ensures Tally(pods).notReady == |set i | 0 <= i < |pods| && Unready(pods[i])|
  {
    FieldCounts(pods, NotReadyPods);
    assert Positions(pods, NotReadyPods) == set i | 0 <= i < |pods| && Unready(pods[i]);
  }

  /** Each count is the number of pods in the list of which its test holds. */
  lemma TallyCounts(pods: seq<Pod>)
    ensures var c := Tally(pods);
      && c.total == |pods|
      && c.running == |set i | 0 <= i < |pods| && pods[i].phase == Running|
      && c.failed == |set i | 0 <= i < |pods| && pods[i].phase == Failed|
      && c.pending == |set i | 0 <= i < |pods| && pods[i].phase == Pending|
      && c.crashLoop == |set i | 0 <= i < |pods| && Some("CrashLoopBackOff") in pods[i].waiting|
      && c.notReady == |set i | 0 <= i < |pods| && Unready(pods[i])|
  {
    TallyTotal(pods);
    PhaseCounts(pods);
    CrashLoopCounts(pods);
    NotReadyCounts(pods);
  }

  /** A pod is ready exactly if there is a Ready condition with status True and no Ready condition before it. */
  lemma {:induction false} ReadyMeans(conditions: seq<Condition>)
    ensures Ready(conditions) <==>
      exists i :: 0 <= i < |conditions| && conditions[i].isReady && conditions[i].isTrue
        && forall j | 0 <= j < i :: !conditions[j].isReady
  {
    if conditions != [] && !conditions[0].isReady {
      var rest := conditions[1..];
      ReadyMeans(rest);
      if Ready(rest) {
        var i :| 0 <= i < |rest| && rest[i].isReady && rest[i].isTrue && forall j | 0 <= j < i :: !rest[j].isReady;
        assert conditions[i + 1] == rest[i];
        assert forall j | 0 <= j < i + 1 :: !conditions[j].isReady by {
          forall j | 0 <= j < i + 1 ensures !conditions[j].isReady { if j > 0 { assert conditions[j] == rest[j - 1]; } }
        }
      }
      if i :| 0 <= i < |conditions| && conditions[i].isReady && conditions[i].isTrue
              && forall j | 0 <= j < i :: !conditions[j].isReady {
        assert i > 0 && rest[i - 1] == conditions[i];
        assert forall j | 0 <= j < i - 1 :: !rest[j].isReady by {
          forall j | 0 <= j < i - 1 ensures !rest[j].isReady { assert rest[j] == conditions[j + 1]; }
        }
      }
    }
  }
}
