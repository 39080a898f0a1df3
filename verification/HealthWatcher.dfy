/** From the collected lists to the published health snapshot, and the store that publishes it. */
module HealthWatcher {
  import opened Base
  import opened Sums
  import opened HealthScore
  import P = PodCounts

  // ---- Nodes ----

  datatype Kind = ReadyKind | MemoryKind | DiskKind | PIDKind | OtherKind

  datatype NodeCondition = NodeCondition(kind: Kind, isTrue: bool)

  datatype Node = Node(name: string, conditions: seq<NodeCondition>)

  /** The last condition of a kind decides; none means False. */
  predicate Says(conditions: seq<NodeCondition>, kind: Kind) {
    conditions != [] &&
      var last := conditions[|conditions| - 1];
      if last.kind == kind then last.isTrue else Says(conditions[..|conditions| - 1], kind)
  }

  /** A kind is said to hold exactly if some condition of it is True and no condition of it comes later. */
  lemma {:induction false} SaysMeans(conditions: seq<NodeCondition>, kind: Kind)
    ensures Says(conditions, kind) <==>
      exists i :: 0 <= i < |conditions| && conditions[i] == NodeCondition(kind, true)
        && forall j | i < j < |conditions| :: conditions[j].kind != kind
  {
    if conditions != [] {
      var rest, n := conditions[..|conditions| - 1], |conditions| - 1;
      assert forall j | 0 <= j < n :: rest[j] == conditions[j];
      SaysMeans(rest, kind);
      if conditions[n].kind == kind {
        if conditions[n].isTrue { assert conditions[n] == NodeCondition(kind, true); }
      } else if Says(rest, kind) {
        var i :| 0 <= i < n && rest[i] == NodeCondition(kind, true) && forall j | i < j < n :: rest[j].kind != kind;
        assert conditions[i] == NodeCondition(kind, true);
      } else if i :| 0 <= i <= n && conditions[i] == NodeCondition(kind, true)
                     && forall j | i < j <= n :: conditions[j].kind != kind {
        assert rest[i] == NodeCondition(kind, true);
      }
    }
  }

  predicate FlagsOf(h: NodeHealth, node: Node) {
    && h.name == node.name && h.ready == Says(node.conditions, ReadyKind)
    && h.memoryPressure == Says(node.conditions, MemoryKind)
    && h.diskPressure == Says(node.conditions, DiskKind) && h.pidPressure == Says(node.conditions, PIDKind)
  }

  predicate Scored(h: NodeHealth) {
    h.healthScore == NodeScore(h) && h.healthStatus == HealthStatusFromScore(h.healthScore)
  }

  method CollectNodeHealth(node: Node) returns (h: NodeHealth)
    ensures FlagsOf(h, node) && Scored(h) && h.podCount == h.notReadyPods == h.crashLoopPods == 0
  {
    var ready, memory, disk, pid := false, false, false, false;
    for i := 0 to |node.conditions|
      invariant ready == Says(node.conditions[..i], ReadyKind) && memory == Says(node.conditions[..i], MemoryKind)
      invariant disk == Says(node.conditions[..i], DiskKind) && pid == Says(node.conditions[..i], PIDKind)
    {
      var cond := node.conditions[i];
      assert node.conditions[..i + 1][..i] == node.conditions[..i];
      match cond.kind {
        case ReadyKind => ready := cond.isTrue;
        case MemoryKind => memory := cond.isTrue;
        case DiskKind => disk := cond.isTrue;
        case PIDKind => pid := cond.isTrue;
        case OtherKind =>
      }
    }
    assert node.conditions[..|node.conditions|] == node.conditions;
    h := NodeHealth(node.name, ready, memory, disk, pid, 0, 0, 0, 0, Critical);
    var score := ComputeNodeHealthScore(h);
    h := h.(healthScore := score, healthStatus := HealthStatusFromScore(score));
  }

  // ---- The node map ----

  function Names(nodes: seq<Node>): set<string> { set i | 0 <= i < |nodes| :: nodes[i].name }

  predicate Distinct(nodes: seq<Node>) { forall i, j | 0 <= i < j < |nodes| :: nodes[i].name != nodes[j].name }

  /** `h` describes `node` and the pods on it. */
  ghost predicate Describes(h: NodeHealth, node: Node, pods: seq<P.Pod>) {
    var c := P.Tally(P.OnNode(pods, node.name));
    FlagsOf(h, node) && Scored(h) && h.podCount == c.total && h.notReadyPods == c.notReady
      && h.crashLoopPods == c.crashLoop
  }

  /** The last node listed under a name. */
  function LastNamed(nodes: seq<Node>, name: string): (r: Option<Node>)
    ensures r.Some? ==> r.value.name == name
  {
    if nodes == [] then None
    else if nodes[|nodes| - 1].name == name then Some(nodes[|nodes| - 1])
    else LastNamed(nodes[..|nodes| - 1], name)
  }

  ghost predicate Mapped(m: map<string, NodeHealth>, nodes: seq<Node>, pods: seq<P.Pod>) {
    && m.Keys == Names(nodes)
    && (forall k | k in m :: LastNamed(nodes, k).Some? && Describes(m[k], LastNamed(nodes, k).value, pods))
  }

  lemma NamesMore(nodes: seq<Node>, node: Node)
    ensures Names(nodes + [node]) == Names(nodes) + {node.name}
  {
    var all := nodes + [node];
    assert all[|nodes|] == node;
    forall n | n in Names(nodes) ensures n in Names(all) {
      var i :| 0 <= i < |nodes| && nodes[i].name == n;
      assert all[i].name == n;
    }
  }

  lemma MappedStep(m: map<string, NodeHealth>, nodes: seq<Node>, pods: seq<P.Pod>, node: Node, h: NodeHealth)
    requires Mapped(m, nodes, pods) && Describes(h, node, pods)
    ensures Mapped(m[node.name := h], nodes + [node], pods)
  {
    NamesMore(nodes, node);
    assert (nodes + [node])[..|nodes|] == nodes;
  }

  lemma MappedNext(m: map<string, NodeHealth>, nodes: seq<Node>, i: nat, pods: seq<P.Pod>, h: NodeHealth)
    requires i < |nodes| && Mapped(m, nodes[..i], pods) && Describes(h, nodes[i], pods)
    ensures Mapped(m[nodes[i].name := h], nodes[..i + 1], pods)
  {
    MappedStep(m, nodes[..i], pods, nodes[i], h);
    assert nodes[..i + 1] == nodes[..i] + [nodes[i]];
  }

  method DescribeNode(node: Node, pods: seq<P.Pod>, perNode: map<string, P.Counts>) returns (nh: NodeHealth)
    requires P.Partitions(perNode, pods)
    ensures Describes(nh, node, pods)
  {
    nh := CollectNodeHealth(node);
    P.NobodyThere(pods, node.name);
    if node.name in perNode {
      var pc := perNode[node.name];
      nh := nh.(podCount := pc.total, notReadyPods := pc.notReady, crashLoopPods := pc.crashLoop);
      var score := ComputeNodeHealthScore(nh);
      nh := nh.(healthScore := score, healthStatus := HealthStatusFromScore(score));
    }
  }

  method BuildNodeMap(nodes: seq<Node>, pods: seq<P.Pod>, perNode: map<string, P.Counts>)
    returns (m: map<string, NodeHealth>)
    requires P.Partitions(perNode, pods)
    ensures Mapped(m, nodes, pods)
  {
    m := map[];
    for i := 0 to |nodes|
      invariant Mapped(m, nodes[..i], pods)
    {
      var nh := DescribeNode(nodes[i], pods, perNode);
      MappedNext(m, nodes, i, pods, nh);
      m := m[nodes[i].name := nh];
    }
    assert nodes[..|nodes|] == nodes;
  }

  method CountReady(m: map<string, NodeHealth>) returns (ready: nat)
    ensures ready == |m| - |Flagged(m, NotReady)|
  {
    ready := 0;
    var todo := m.Keys;
    ghost var up: set<string> := {};
    while todo != {}
      invariant todo <= m.Keys && up == (set k | k in m && k !in todo && m[k].ready) && ready == |up|
    {
      var k :| k in todo;
      if m[k].ready { ready := ready + 1; up := up + {k}; }
      todo := todo - {k};
    }
    assert up !! Flagged(m, NotReady) && up + Flagged(m, NotReady) == m.Keys;
  }

  // ---- The snapshot ----

  /** What is published: the node map, and cluster values that agree with it and with the lists. */
  ghost predicate Published(c: ClusterHealth, m: map<string, NodeHealth>, nodes: seq<Node>, pods: seq<P.Pod>) {
    var t := P.Tally(pods);
    && Mapped(m, nodes, pods)
    && c.totalNodes == |nodes| && c.readyNodes == |m| - |Flagged(m, NotReady)|
    && c.readyNodes + c.unhealthyNodes == c.totalNodes
    && c.totalPods == t.total && c.runningPods == t.running && c.failedPods == t.failed && c.pendingPods == t.pending
    && c.crashLoopPods == t.crashLoop
    && c.healthScore == ClusterScore(c, m) && c.healthStatus == HealthStatusFromScore(c.healthScore)
  }

  lemma DistinctMore(nodes: seq<Node>, node: Node)
    ensures Distinct(nodes + [node]) <==> Distinct(nodes) && node.name !in Names(nodes)
  {
    var all := nodes + [node];
    if node.name in Names(nodes) {
      var i :| 0 <= i < |nodes| && nodes[i].name == node.name;
      assert all[i].name == all[|nodes|].name;
    }
    assert forall i | 0 <= i < |nodes| :: all[i] == nodes[i];
  }

  lemma {:induction false} NamesCount(nodes: seq<Node>)
    ensures |Names(nodes)| <= |nodes| && (|Names(nodes)| == |nodes| <==> Distinct(nodes))
  {
    if nodes != [] {
      var rest, last := nodes[..|nodes| - 1], nodes[|nodes| - 1];
      assert nodes == rest + [last];
      NamesCount(rest);
      NamesMore(rest, last);
      DistinctMore(rest, last);
    }
  }

  /** The unhealthy nodes reported are exactly the unready ones when node names are unique, and only then. */
  lemma UnhealthyAreUnready(c: ClusterHealth, m: map<string, NodeHealth>, nodes: seq<Node>, pods: seq<P.Pod>)
    requires Published(c, m, nodes, pods)
    ensures c.unhealthyNodes == |Flagged(m, NotReady)| <==> Distinct(nodes)
  {
    NamesCount(nodes);
    assert |m| == |m.Keys|;
  }

  function PodColumn(m: map<string, NodeHealth>): map<string, int> { map k | k in m :: m[k].podCount }

  lemma PodColumnIs(m: map<string, NodeHealth>, nodes: seq<Node>, pods: seq<P.Pod>)
    requires Mapped(m, nodes, pods)
    ensures PodColumn(m) == P.Column(pods, Names(nodes), P.Total)
  {
    forall k | k in m ensures PodColumn(m)[k] == P.Column(pods, Names(nodes), P.Total)[k] {
      assert Describes(m[k], LastNamed(nodes, k).value, pods);
    }
  }

  /** The nodes' pod counts add up to at most the cluster's, and to it exactly when every pod is on a listed node. */
  lemma PodsOnNodes(c: ClusterHealth, m: map<string, NodeHealth>, nodes: seq<Node>, pods: seq<P.Pod>)
    requires Published(c, m, nodes, pods)
    ensures Sum(PodColumn(m)) <= c.totalPods
    ensures Sum(PodColumn(m)) == c.totalPods <==> P.AllOn(pods, Names(nodes))
  {
    PodColumnIs(m, nodes, pods);
    P.ListedNodes(pods, Names(nodes));
  }

  /** A map of nodes that can be shared and changed. */
  class NodeTable {
    var rows: map<string, NodeHealth>

    constructor (rows: map<string, NodeHealth>)
      ensures this.rows == rows
    {
      this.rows := rows;
    }
  }

  class HealthStore {
    var cluster: ClusterHealth
    var nodes: NodeTable

    constructor ()
      ensures fresh(nodes) && nodes.rows == map[]
    {
      cluster := ClusterHealth(0, 0, 0, 0, 0, 0, 0, 0, 0, false, 0, 0, Critical);
      nodes := new NodeTable(map[]);
    }

    /** Replaces both parts together; the caller's table itself is kept. */
    method Update(cluster: ClusterHealth, nodes: NodeTable)
      modifies this
      ensures this.cluster == cluster && this.nodes == nodes
    {
      this.cluster := cluster;
      this.nodes := nodes;
    }

    /** The pair of the latest Update, with the nodes in a table of their own: nothing done to it later
        reaches the store. */
    method Snapshot() returns (c: ClusterHealth, copy: NodeTable)
      ensures c == cluster && fresh(copy) && copy.rows == nodes.rows
    {
      c := cluster;
      copy := new NodeTable(map[]);
      var todo := nodes.rows.Keys;
      while todo != {}
        invariant todo <= nodes.rows.Keys && fresh(copy) && nodes == old(nodes) && nodes.rows == old(nodes.rows)
        invariant c == cluster
        invariant copy.rows == nodes.rows - todo
      {
        var k :| k in todo;
        copy.rows := copy.rows[k := nodes.rows[k]];
        todo := todo - {k};
        assert copy.rows == nodes.rows - todo;
      }
      assert nodes.rows - {} == nodes.rows;
    }
  }

  /** The lists a reconcile works from; the last three are already counted. */
  datatype Lists = Lists(nodes: seq<Node>, pods: seq<P.Pod>, degradedPVCs: int, coreDNSHealthy: bool,
    eventWarnings: int)

  /** One reconcile: a list that cannot be had leaves the store alone, otherwise a snapshot of these
      lists replaces what was there. */
  method Reconcile(store: HealthStore, lists: Option<Lists>) returns (r: Result)
    modifies store
    ensures r == if lists.Some? then Done else Error
    ensures lists.None? ==> store.cluster == old(store.cluster) && store.nodes == old(store.nodes)
    ensures lists.Some? ==>
      && fresh(store.nodes) && Published(store.cluster, store.nodes.rows, lists.value.nodes, lists.value.pods)
      && store.cluster.degradedPVCs == lists.value.degradedPVCs
      && store.cluster.coreDNSHealthy == lists.value.coreDNSHealthy
      && store.cluster.eventWarnings == lists.value.eventWarnings
  {
    if lists.None? { return Error; }
    var l := lists.value;
    var perNodePods, clusterPods := P.CollectPodCounts(l.pods);
    var nodeHealthMap := BuildNodeMap(l.nodes, l.pods, perNodePods);
    var readyNodes := CountReady(nodeHealthMap);
    var cluster := ClusterHealth(|l.nodes|, readyNodes, |l.nodes| - readyNodes,
                                 clusterPods.total, clusterPods.running, clusterPods.failed, clusterPods.pending,
                                 clusterPods.crashLoop, l.degradedPVCs, l.coreDNSHealthy, l.eventWarnings, 0, Critical);
    var score := ComputeClusterHealthScore(cluster, nodeHealthMap);
    cluster := cluster.(healthScore := score, healthStatus := HealthStatusFromScore(score));
    var table := new NodeTable(nodeHealthMap);
    store.Update(cluster, table);
    r := Done;
  }
}
