/** Health scores of nodes and clusters, and the shell script that computes the same from counts. */
module HealthScore {
  import opened Sums

  datatype Health = Healthy | Degraded | Critical

  datatype NodeHealth = NodeHealth(
    name: string, ready: bool, memoryPressure: bool, diskPressure: bool, pidPressure: bool,
    podCount: int, notReadyPods: int, crashLoopPods: int, healthScore: int, healthStatus: Health)

  datatype ClusterHealth = ClusterHealth(
    totalNodes: int, readyNodes: int, unhealthyNodes: int,
    totalPods: int, runningPods: int, failedPods: int, pendingPods: int, crashLoopPods: int,
    degradedPVCs: int, coreDNSHealthy: bool, eventWarnings: int, healthScore: int, healthStatus: Health)

  function HealthStatusFromScore(score: int): Health {
    if score >= 80 then Healthy else if score >= 50 then Degraded else Critical
  }

  function Clamp(v: int, min: int, max: int): (r: int)
    ensures min <= max ==> min <= r <= max && (min <= v <= max ==> r == v)
  {
    if v < min then min else if v > max then max else v
  }

  function Cap(v: int, max: int): int { if v > max then max else v }

  function Points(b: bool, points: int): int { if b then points else 0 }

  // ---- Nodes ----

  function NodeDeduction(n: NodeHealth): (d: int)
    ensures 0 <= d <= 45
  {
    Points(!n.ready, 20) + Points(n.memoryPressure, 10) + Points(n.diskPressure, 10) + Points(n.pidPressure, 5)
  }

  function NodeScore(n: NodeHealth): int { 100 - NodeDeduction(n) }

  /** The clamping never bites: a node's score stays between 55 and 100, so a node is never critical. */
  method ComputeNodeHealthScore(n: NodeHealth) returns (score: int)
    ensures score == NodeScore(n) && 55 <= score <= 100 && HealthStatusFromScore(score) != Critical
  {
    score := 100;
    if !n.ready { score := score - 20; }
    if n.memoryPressure { score := score - 10; }
    if n.diskPressure { score := score - 10; }
    if n.pidPressure { score := score - 5; }
    score := Clamp(score, 0, 100);
  }

  // ---- Clusters ----

  function Deductions(nodes: map<string, NodeHealth>): map<string, int> {
    map k | k in nodes :: NodeDeduction(nodes[k])
  }

  function Scores(nodes: map<string, NodeHealth>): map<string, int> { map k | k in nodes :: NodeScore(nodes[k]) }

  /** The part of the cluster score that comes from its nodes. */
  ghost function NodePart(nodes: map<string, NodeHealth>): int {
    if |nodes| == 0 then 100 else 100 - Sum(Deductions(nodes)) / |nodes|
  }

  function ClusterDeduction(c: ClusterHealth): int {
    Cap(c.crashLoopPods * 2, 20) + Cap(c.failedPods, 10) + Cap(c.eventWarnings, 10) + Points(!c.coreDNSHealthy, 15)
      + Cap(c.degradedPVCs, 10)
  }

  ghost function ClusterScore(c: ClusterHealth, nodes: map<string, NodeHealth>): int {
    Clamp(NodePart(nodes) - ClusterDeduction(c), 0, 100)
  }

  lemma DeductionsStep(nodes: map<string, NodeHealth>, todo: set<string>, k: string)
    requires k in todo && todo <= nodes.Keys
    ensures Sum(Deductions(nodes - (todo - {k}))) == Sum(Deductions(nodes - todo)) + NodeDeduction(nodes[k])
  {
    assert Deductions(nodes - (todo - {k})) == Deductions(nodes - todo)[k := NodeDeduction(nodes[k])];
    SumUpdate(Deductions(nodes - todo), k, NodeDeduction(nodes[k]));
  }

  /** The nodes may be visited in any order. */
  method TotalNodeDeductions(nodes: map<string, NodeHealth>) returns (total: int)
    ensures total == Sum(Deductions(nodes))
  {
    total := 0;
    var todo := nodes.Keys;
    assert nodes - todo == map[];
    while todo != {}
      invariant todo <= nodes.Keys && total == Sum(Deductions(nodes - todo))
    {
      var k :| k in todo;
      var n, d := nodes[k], 0;
      if !n.ready { d := d + 20; }
      if n.memoryPressure { d := d + 10; }
      if n.diskPressure { d := d + 10; }
      if n.pidPressure { d := d + 5; }
      assert d == NodeDeduction(n);
      DeductionsStep(nodes, todo, k);
      total := total + d;
      todo := todo - {k};
    }
    assert nodes - {} == nodes;
  }

  method ComputeClusterHealthScore(cluster: ClusterHealth, nodes: map<string, NodeHealth>) returns (score: int)
    ensures score == ClusterScore(cluster, nodes) && 0 <= score <= 100
  {
    score := 100;
    if |nodes| > 0 {
      var totalNodeDeductions := TotalNodeDeductions(nodes);
      score := score - totalNodeDeductions / |nodes|;
    }
    assert score == NodePart(nodes);

    var crashLoopDeduction := cluster.crashLoopPods * 2;
    if crashLoopDeduction > 20 { crashLoopDeduction := 20; }
    score := score - crashLoopDeduction;
    var failedDeduction := cluster.failedPods;
    if failedDeduction > 10 { failedDeduction := 10; }
    score := score - failedDeduction;
    var warnDeduction := cluster.eventWarnings;
    if warnDeduction > 10 { warnDeduction := 10; }
    score := score - warnDeduction;
    if !cluster.coreDNSHealthy { score := score - 15; }
    var pvcDeduction := cluster.degradedPVCs;
    if pvcDeduction > 10 { pvcDeduction := 10; }
    score := score - pvcDeduction;
    score := Clamp(score, 0, 100);
  }

  /** The node part is the mean of the nodes' own scores, rounded up. */
  lemma NodePartIsMeanScore(nodes: map<string, NodeHealth>)
    requires |nodes| > 0
    ensures NodePart(nodes) == CeilDiv(Sum(Scores(nodes)), |nodes|)
  {
    SumComplement(Scores(nodes), Deductions(nodes));
    assert Scores(nodes).Keys == nodes.Keys;
    assert |Scores(nodes)| == |Scores(nodes).Keys| == |nodes.Keys| == |nodes|;
    CeilOfRest(Sum(Deductions(nodes)), |nodes|);
  }

  /** `b` is in no respect better than `a`. */
  predicate NoBetterNode(a: NodeHealth, b: NodeHealth) {
    && (b.ready ==> a.ready) && (a.memoryPressure ==> b.memoryPressure)
    && (a.diskPressure ==> b.diskPressure) && (a.pidPressure ==> b.pidPressure)
  }

  predicate NoBetterCluster(a: ClusterHealth, b: ClusterHealth) {
    && a.crashLoopPods <= b.crashLoopPods && a.failedPods <= b.failedPods && a.eventWarnings <= b.eventWarnings
    && a.degradedPVCs <= b.degradedPVCs && (b.coreDNSHealthy ==> a.coreDNSHealthy)
  }

  lemma WorseNodes(na: map<string, NodeHealth>, nb: map<string, NodeHealth>)
    requires na.Keys == nb.Keys && forall k | k in na :: NoBetterNode(na[k], nb[k])
    ensures NodePart(nb) <= NodePart(na)
  {
    assert |na| == |na.Keys| == |nb.Keys| == |nb|;
    if |na| > 0 {
      assert forall k | k in na :: NodeDeduction(na[k]) <= NodeDeduction(nb[k]);
      SumAtMost(Deductions(na), Deductions(nb));
      QuotientGrows(Sum(Deductions(na)), Sum(Deductions(nb)), |na|);
    }
  }

  /** Nothing that gets worse can raise the score. */
  lemma WorseScoresNoHigher(a: ClusterHealth, na: map<string, NodeHealth>,
                            b: ClusterHealth, nb: map<string, NodeHealth>)
    requires NoBetterCluster(a, b) && na.Keys == nb.Keys && forall k | k in na :: NoBetterNode(na[k], nb[k])
    ensures ClusterScore(b, nb) <= ClusterScore(a, na)
  {
    WorseNodes(na, nb);
    assert ClusterDeduction(a) <= ClusterDeduction(b);
  }

  // ---- The shell script ----

  datatype Counts = Counts(nodes: int, notReady: int, memory: int, disk: int, pid: int,
                           crashLoop: int, failed: int, warnings: int, coreDNSHealthy: bool, pvcs: int)

  datatype Flag = NotReady | Memory | Disk | Pid

  predicate Has(n: NodeHealth, flag: Flag) {
    match flag
    case NotReady => !n.ready
    case Memory => n.memoryPressure
    case Disk => n.diskPressure
    case Pid => n.pidPressure
  }

  function Flagged(nodes: map<string, NodeHealth>, flag: Flag): set<string> {
    set k | k in nodes && Has(nodes[k], flag)
  }

  function CountsOf(c: ClusterHealth, nodes: map<string, NodeHealth>): Counts {
    Counts(|nodes|, |Flagged(nodes, NotReady)|, |Flagged(nodes, Memory)|, |Flagged(nodes, Disk)|, |Flagged(nodes, Pid)|,
           c.crashLoopPods, c.failedPods, c.eventWarnings, c.coreDNSHealthy, c.degradedPVCs)
  }

  function CountedDeductions(nodes: map<string, NodeHealth>): int {
    |Flagged(nodes, NotReady)| * 20 + |Flagged(nodes, Memory)| * 10 + |Flagged(nodes, Disk)| * 10
      + |Flagged(nodes, Pid)| * 5
  }

  lemma OneFlagMore(rest: map<string, NodeHealth>, k: string, n: NodeHealth, flag: Flag)
    requires k !in rest
    ensures |Flagged(rest[k := n], flag)| == |Flagged(rest, flag)| + Points(Has(n, flag), 1)
  {
    assert Flagged(rest[k := n], flag) == if Has(n, flag) then Flagged(rest, flag) + {k} else Flagged(rest, flag);
  }

  /** One node more: each set of flagged nodes gains it if it is flagged. */
  lemma OneNodeMore(rest: map<string, NodeHealth>, k: string, n: NodeHealth)
    requires k !in rest
    ensures CountedDeductions(rest[k := n]) == CountedDeductions(rest) + NodeDeduction(n)
  {
    OneFlagMore(rest, k, n, NotReady);
    OneFlagMore(rest, k, n, Memory);
    OneFlagMore(rest, k, n, Disk);
    OneFlagMore(rest, k, n, Pid);
  }

  /** Adding up nodes and counting flags come to the same. */
  lemma {:induction false} CountingAddsUp(nodes: map<string, NodeHealth>)
    ensures Sum(Deductions(nodes)) == CountedDeductions(nodes)
    decreases |nodes|
  {
    if nodes == map[] {
      assert Deductions(nodes) == map[];
    } else {
      var k :| k in nodes;
      CountingAddsUp(nodes - {k});
      assert Deductions(nodes) - {k} == Deductions(nodes - {k});
      SumRemove(Deductions(nodes), k);
      OneNodeMore(nodes - {k}, k, nodes[k]);
      assert nodes == (nodes - {k})[k := nodes[k]];
    }
  }

  function ScriptScore(n: Counts): int {
    var node := if n.nodes > 0 then 100 - (n.notReady * 20 + n.memory * 10 + n.disk * 10 + n.pid * 5) / n.nodes
      else 100;
    var rest := Cap(n.crashLoop * 2, 20) + Cap(n.failed, 10) + Cap(n.warnings, 10) + Points(!n.coreDNSHealthy, 15);
    Clamp(node - rest - Cap(n.pvcs, 10), 0, 100)
  }

  method HealthScoreScript(n: Counts) returns (score: int, status: Health)
    requires n.notReady >= 0 && n.memory >= 0 && n.disk >= 0 && n.pid >= 0
    ensures score == ScriptScore(n) && status == HealthStatusFromScore(score)
  {
    var nodeScore := 100;
    if n.nodes > 0 {
      var notReadyDed := n.notReady * 20;
      var memDed := n.memory * 10;
      var diskDed := n.disk * 10;
      var pidDed := n.pid * 5;
      var total := notReadyDed + memDed + diskDed + pidDed;
      var avg := total / n.nodes;
      nodeScore := 100 - avg;
    }
    score := nodeScore;
    var crashDed := n.crashLoop * 2;
    if crashDed > 20 { crashDed := 20; }
    score := score - crashDed;
    var failDed := n.failed;
    if failDed > 10 { failDed := 10; }
    score := score - failDed;
    var warnDed := n.warnings;
    if warnDed > 10 { warnDed := 10; }
    score := score - warnDed;
    var dnsDed := 0;
    if !n.coreDNSHealthy { dnsDed := 15; }
    score := score - dnsDed;
    var pvcDed := n.pvcs;
    if pvcDed > 10 { pvcDed := 10; }
    score := score - pvcDed;
    if score < 0 { score := 0; }
    if score > 100 { score := 100; }
    if score >= 80 { status := Healthy; } else if score >= 50 { status := Degraded; } else { status := Critical; }
  }

  /** The script, given the counts of a cluster, computes the controller's score. */
  lemma ScriptAgrees(c: ClusterHealth, nodes: map<string, NodeHealth>)
    ensures ScriptScore(CountsOf(c, nodes)) == ClusterScore(c, nodes)
  {
    CountingAddsUp(nodes);
  }
}
