/** The names under which Losant devices are looked up. */
module DeviceNames {
  import opened SyncProtocol

  function ClusterDeviceName(cluster: string): string { "k8s-cluster-" + cluster }

  function NodeDeviceName(cluster: string, node: string): string { "k8s-node-" + cluster + "-" + node }

  function DeviceName(cluster: string, key: DeviceKey): string {
    match key
    case OfCluster => ClusterDeviceName(cluster)
    case OfNode(n) => NodeDeviceName(cluster, n)
  }

  /** `a` and `b` can only share a continuation if one of them starts the other. */
  lemma CommonContinuation(a: string, x: string, b: string, y: string)
    requires a + x == b + y
    ensures |a| <= |b| ==> a <= b && x == b[|a|..] + y
    ensures |b| <= |a| ==> b <= a && y == a[|b|..] + x
  {
    if |a| <= |b| {
      assert a == (a + x)[..|a|] == b[..|a|];
      assert x == (a + x)[|a|..] == b[|a|..] + y;
    }
    if |b| <= |a| {
      assert b == (b + y)[..|b|] == a[..|b|];
      assert y == (b + y)[|b|..] == a[|b|..] + x;
    }
  }

  lemma NodeNameSplit(cluster: string, node: string)
    ensures NodeDeviceName(cluster, node) == "k8s-node-" + ((cluster + "-") + node)
  {
  }

  lemma NodeNamesAgree(c1: string, n1: string, c2: string, n2: string)
    ensures NodeDeviceName(c1, n1) == NodeDeviceName(c2, n2) <==> (c1 + "-") + n1 == (c2 + "-") + n2
  {
    NodeNameSplit(c1, n1);
    NodeNameSplit(c2, n2);
    if NodeDeviceName(c1, n1) == NodeDeviceName(c2, n2) {
      CommonContinuation("k8s-node-", (c1 + "-") + n1, "k8s-node-", (c2 + "-") + n2);
    }
  }

  /** A device name reads back: its prefix, the cluster and, for a node, a dash and the node. */
  lemma NamesReadBack(cluster: string, node: string)
    ensures var name := DeviceName(cluster, OfCluster);
      |name| >= 12 && name[..12] == "k8s-cluster-" && name[12..] == cluster
    ensures var name, k := DeviceName(cluster, OfNode(node)), 9 + |cluster|;
      && |name| > k && name[..9] == "k8s-node-" && name[9..k] == cluster
      && name[k] == '-' && name[k + 1..] == node
  {
    assert ClusterDeviceName(cluster)[12..] == cluster;
    var name, k := NodeDeviceName(cluster, node), 9 + |cluster|;
    assert name[9..k] == cluster && name[k + 1..] == node;
  }

  /** Within one cluster, device keys and device names correspond one to one. */
  lemma NamesAreDistinct(cluster: string, a: DeviceKey, b: DeviceKey)
    ensures DeviceName(cluster, a) == DeviceName(cluster, b) <==> a == b
  {
    if a.OfNode? && b.OfNode? {
      NodeNamesAgree(cluster, a.node, cluster, b.node);
      if DeviceName(cluster, a) == DeviceName(cluster, b) {
        CommonContinuation(cluster + "-", a.node, cluster + "-", b.node);
      }
    } else if a.OfCluster? && b.OfNode? {
      assert DeviceName(cluster, a)[4] == 'c' && DeviceName(cluster, b)[4] == 'n';
    } else if a.OfNode? && b.OfCluster? {
      assert DeviceName(cluster, a)[4] == 'n' && DeviceName(cluster, b)[4] == 'c';
    }
  }

  /** Across clusters it is otherwise: nodes of two clusters can share a device name ... */
  lemma NamesCollide()
    ensures NodeDeviceName("a", "b-c") == NodeDeviceName("a-b", "c")
  {
    NodeNamesAgree("a", "b-c", "a-b", "c");
  }

  /** ... exactly when one cluster's name, with the dash after it, starts the other's. */
  predicate Overlap(c1: string, c2: string) { c1 + "-" <= c2 + "-" || c2 + "-" <= c1 + "-" }

  lemma CollisionMeansOverlap(c1: string, n1: string, c2: string, n2: string)
    requires NodeDeviceName(c1, n1) == NodeDeviceName(c2, n2)
    ensures Overlap(c1, c2)
  {
    NodeNamesAgree(c1, n1, c2, n2);
    CommonContinuation(c1 + "-", n1, c2 + "-", n2);
  }

  /** A node of the cluster with the longer name, whichever it is, shares its device name with a node that the
      other cluster may have: the one called by the rest of the longer name and this node's name. */
  lemma OverlapMeansCollision(c1: string, c2: string, node: string)
    requires c1 + "-" <= c2 + "-"
    ensures NodeDeviceName(c1, (c2 + "-")[|c1 + "-"|..] + node) == NodeDeviceName(c2, node)
  {
    var a, b := c1 + "-", c2 + "-";
    assert a + (b[|a|..] + node) == b + node;
    NodeNamesAgree(c1, b[|a|..] + node, c2, node);
  }
}
