/**
 Discovery and classification of GPU nodes, and the health pass as a whole.
 Models GetClusterGPUNodes of pkg/kube/client.go and ListGPUNodes of internal/controller/gpu_node_discovery.go.
 */
module GpuNodeDiscovery {
  import opened Decimal
  import opened GpuAllocations
  import opened KubeTypes
  import opened NodePatches
  import opened PrometheusClient
  import opened Wrappers

  /** The node carries the GPU count label with a positive integer. */
  predicate IsGpuNode(node: Node) {
    var count := Label(node, GPU_NODE_LABEL_INDICATOR);
    count.Some? && Atoi(count.value).Some? && Atoi(count.value).value > 0
  }

  function GpuNodes(nodes: seq<Node>): seq<Node> {
    if nodes == [] then []
    else if IsGpuNode(nodes[|nodes| - 1]) then GpuNodes(nodes[..|nodes| - 1]) + [nodes[|nodes| - 1]]
    else GpuNodes(nodes[..|nodes| - 1])
  }

  /** What the API server returns for the label selector "GPU count label exists". */
  function LabelledNodes(nodes: seq<Node>): seq<Node> {
    if nodes == [] then []
    else
      var rest, last := LabelledNodes(nodes[..|nodes| - 1]), nodes[|nodes| - 1];
      if Label(last, GPU_NODE_LABEL_INDICATOR).Some? then rest + [last] else rest
  }

  lemma {:induction false} LabelledNodesSuffice(nodes: seq<Node>)
    ensures GpuNodes(LabelledNodes(nodes)) == GpuNodes(nodes)
    ensures forall n | n in LabelledNodes(nodes) :: Label(n, GPU_NODE_LABEL_INDICATOR).Some?
  {
    if nodes != [] {
      var rest := nodes[..|nodes| - 1];
      LabelledNodesSuffice(rest);
      assert (LabelledNodes(rest) + [nodes[|nodes| - 1]])[..|LabelledNodes(rest)|] == LabelledNodes(rest);
    }
  }

  /** The loop of `GetClusterGPUNodes` that drops nodes with an invalid count. */
  method SelectValidNodes(items: seq<Node>) returns (validNodes: seq<Node>)
    requires forall n | n in items :: Label(n, GPU_NODE_LABEL_INDICATOR).Some?
    ensures validNodes == GpuNodes(items)
  {
    validNodes := [];
    for i := 0 to |items|
      invariant validNodes == GpuNodes(items[..i])
    {
      var node := items[i];
      assert items[..i + 1][..i] == items[..i];
      var count := Atoi(Label(node, GPU_NODE_LABEL_INDICATOR).value);
      if count.None? || count.value <= 0 {
        continue;
      }
      validNodes := validNodes + [node];
    }
    assert items[..|items|] == items;
  }

  // ----- verdicts -----

  datatype Verdict = Silent | Healthy | Unhealthy

  /** Every series of the node ends, in the vector, on a value in the range of its metric. */
  predicate AllInRange(vec: seq<Sample>, name: string) {
    forall s | s in vec && s.node == name :: InRange(s.metric, LastValue(vec, name, s.gpu, s.metric).value)
  }

  function VerdictOf(vec: seq<Sample>, name: string): Verdict {
    if !exists s | s in vec :: s.node == name then Silent
    else if AllInRange(vec, name) then Healthy
    else Unhealthy
  }

  ghost predicate ScanInRange(gpuCores: map<string, map<Metric, real>>) {
    forall g, m | g in gpuCores && m in gpuCores[g] :: InRange(m, gpuCores[g][m])
  }

  lemma ScanAgreesWithVector(scan: Scan, vec: seq<Sample>, name: string)
    requires Represents(scan, vec)
    ensures name in scan <==> VerdictOf(vec, name) != Silent
    ensures name in scan ==> (ScanInRange(scan[name]) <==> VerdictOf(vec, name) == Healthy)
  {
    ReadInside(scan, vec, name);
    if name in scan {
      if ScanInRange(scan[name]) {
        forall s | s in vec && s.node == name
          ensures InRange(s.metric, LastValue(vec, name, s.gpu, s.metric).value)
        {
          assert ReadScan(scan, name, s.gpu, s.metric) == LastValue(vec, name, s.gpu, s.metric);
        }
      }
      if AllInRange(vec, name) {
        forall g, m | g in scan[name] && m in scan[name][g]
          ensures InRange(m, scan[name][g][m])
        {
          assert ReadScan(scan, name, g, m) == LastValue(vec, name, g, m);
          var s :| s in vec && s.node == name && s.gpu == g && s.metric == m;
        }
      }
    }
  }

  /** The two nested loops over a node's metrics, in any iteration order. */
  method CheckMetrics(gpuCores: map<string, map<Metric, real>>) returns (healthy: bool)
    ensures healthy <==> ScanInRange(gpuCores)
  {
    healthy := true;
    var cores := gpuCores.Keys;
    while cores != {}
      invariant cores <= gpuCores.Keys
      invariant healthy <==> forall g, m | g in gpuCores.Keys - cores && m in gpuCores[g] :: InRange(m, gpuCores[g][m])
      decreases |cores|
    {
      var gpuCore :| gpuCore in cores;
      var metrics := gpuCores[gpuCore];
      ghost var before := healthy;
      var names := metrics.Keys;
      while names != {}
        invariant names <= metrics.Keys
        invariant healthy <==> before && forall m | m in metrics.Keys - names :: InRange(m, metrics[m])
        decreases |names|
      {
        var metric :| metric in names;
        var healthRange := HealthMetrics(metric);
        if metrics[metric] < healthRange.min || metrics[metric] > healthRange.max {
          healthy := false;
        }
        names := names - {metric};
      }
      assert gpuCores.Keys - (cores - {gpuCore}) == gpuCores.Keys - cores + {gpuCore};
      cores := cores - {gpuCore};
    }
  }

  /** The nodes of a list with a given verdict, in list order. */
  function WithVerdict(nodes: seq<Node>, vec: seq<Sample>, v: Verdict): seq<Node> {
    if nodes == [] then []
    else
      var rest, last := WithVerdict(nodes[..|nodes| - 1], vec, v), nodes[|nodes| - 1];
      if VerdictOf(vec, last.name) == v then rest + [last] else rest
  }

  /** The classification loop of `ListGPUNodes`. */
  method Classify(gpuNodes: seq<Node>, healthScan: Scan, ghost vec: seq<Sample>)
    returns (healthyNodes: seq<Node>, unhealthyNodes: seq<Node>)
    requires Represents(healthScan, vec)
    ensures healthyNodes == WithVerdict(gpuNodes, vec, Healthy)
    ensures unhealthyNodes == WithVerdict(gpuNodes, vec, Unhealthy)
  {
    healthyNodes, unhealthyNodes := [], [];
    for i := 0 to |gpuNodes|
      invariant healthyNodes == WithVerdict(gpuNodes[..i], vec, Healthy)
      invariant unhealthyNodes == WithVerdict(gpuNodes[..i], vec, Unhealthy)
    {
      var gpuNode := gpuNodes[i];
      assert gpuNodes[..i + 1][..i] == gpuNodes[..i];
      ScanAgreesWithVector(healthScan, vec, gpuNode.name);
      if gpuNode.name !in healthScan {
        continue;
      }
      var healthy := CheckMetrics(healthScan[gpuNode.name]);
      if healthy {
        healthyNodes := healthyNodes + [gpuNode];
      } else {
        unhealthyNodes := unhealthyNodes + [gpuNode];
      }
    }
    assert gpuNodes[..|gpuNodes|] == gpuNodes;
  }

  /** Membership in a classified list, by the samples alone. */
  lemma {:induction false} WithVerdictMembers(nodes: seq<Node>, vec: seq<Sample>, v: Verdict)
    ensures forall n :: n in WithVerdict(nodes, vec, v) <==> n in nodes && VerdictOf(vec, n.name) == v
  {
    if nodes != [] {
      WithVerdictMembers(nodes[..|nodes| - 1], vec, v);
      assert nodes == nodes[..|nodes| - 1] + [nodes[|nodes| - 1]];
    }
  }

  /** The three lists split the GPU nodes: every node occurs in exactly one of them, as often as it was listed. */
  lemma {:induction false} VerdictsPartition(nodes: seq<Node>, vec: seq<Sample>)
    ensures multiset(WithVerdict(nodes, vec, Healthy)) + multiset(WithVerdict(nodes, vec, Unhealthy))
          + multiset(WithVerdict(nodes, vec, Silent)) == multiset(nodes)
  {
    if nodes != [] {
      VerdictsPartition(nodes[..|nodes| - 1], vec);
      assert nodes == nodes[..|nodes| - 1] + [nodes[|nodes| - 1]];
    }
  }

  /** A name cannot be on both lists, so the two goroutines never patch the same node. */
  lemma ClassesAreDisjoint(nodes: seq<Node>, vec: seq<Sample>)
    ensures DisjointNames(SyncPc(WithVerdict(nodes, vec, Healthy), None, WithVerdict(nodes, vec, Unhealthy)))
  {
    WithVerdictMembers(nodes, vec, Healthy);
    WithVerdictMembers(nodes, vec, Unhealthy);
  }

  // ----- the whole pass -----

  function HealthyGpuNodes(nodes: seq<Node>, vec: seq<Sample>): seq<Node> {
    WithVerdict(GpuNodes(nodes), vec, Healthy)
  }

  function UnhealthyGpuNodes(nodes: seq<Node>, vec: seq<Sample>): seq<Node> {
    WithVerdict(GpuNodes(nodes), vec, Unhealthy)
  }

  function StartSync(nodes: seq<Node>, vec: seq<Sample>): SyncPc {
    SyncPc(HealthyGpuNodes(nodes, vec), None, UnhealthyGpuNodes(nodes, vec))
  }

  lemma StartIsDisjoint(nodes: seq<Node>, vec: seq<Sample>)
    ensures DisjointNames(StartSync(nodes, vec))
  {
    ClassesAreDisjoint(GpuNodes(nodes), vec);
  }

  /** What a pass without API errors makes of one node. */
  function SyncNode(node: Node, pods: seq<Pod>, vec: seq<Sample>): Node {
    if !IsGpuNode(node) then node
    else match VerdictOf(vec, node.name)
      case Silent => node
      case Healthy => ApplyPatch(node, RestorePatch(node, Allocated(pods, node.name)))
      case Unhealthy => ApplyPatch(node, IsolationPatch())
  }

  function SyncPass(nodes: seq<Node>, pods: seq<Pod>, vec: seq<Sample>): (r: seq<Node>)
    ensures |r| == |nodes|
    ensures forall i | 0 <= i < |nodes| :: r[i] == SyncNode(nodes[i], pods, vec)
  {
    seq(|nodes|, i requires 0 <= i < |nodes| => SyncNode(nodes[i], pods, vec))
  }

  const ALL_SERVED := Answers((name: string) => Served, (name: string) => Served)

  lemma {:induction false} GpuNodesMembers(nodes: seq<Node>)
    ensures forall n :: n in GpuNodes(nodes) <==> n in nodes && IsGpuNode(n)
  {
    if nodes != [] {
      GpuNodesMembers(nodes[..|nodes| - 1]);
      assert nodes == nodes[..|nodes| - 1] + [nodes[|nodes| - 1]];
    }
  }

  lemma DistinctPrefix(nodes: seq<Node>)
    requires DistinctNames(nodes) && nodes != []
    ensures DistinctNames(nodes[..|nodes| - 1])
    ensures forall n | n in nodes[..|nodes| - 1] :: n.name != nodes[|nodes| - 1].name
  {
  }

  lemma {:induction false} GpuNodesDistinct(nodes: seq<Node>)
    requires DistinctNames(nodes)
    ensures DistinctNames(GpuNodes(nodes))
  {
    if nodes != [] {
      DistinctPrefix(nodes);
      GpuNodesDistinct(nodes[..|nodes| - 1]);
      GpuNodesMembers(nodes[..|nodes| - 1]);
    }
  }

  lemma {:induction false} WithVerdictDistinct(nodes: seq<Node>, vec: seq<Sample>, v: Verdict)
    requires DistinctNames(nodes)
    ensures DistinctNames(WithVerdict(nodes, vec, v))
  {
    if nodes != [] {
      DistinctPrefix(nodes);
      WithVerdictDistinct(nodes[..|nodes| - 1], vec, v);
      WithVerdictMembers(nodes[..|nodes| - 1], vec, v);
    }
  }

  lemma {:induction false} RestoreHitsOnce(node: Node, pods: seq<Pod>, restore: seq<Node>)
    requires DistinctNames(restore) && node in restore
    ensures AfterRestore(node, pods, restore, None, ALL_SERVED)
         == ApplyPatch(node, RestorePatch(node, Allocated(pods, node.name)))
  {
    if restore[0] == node {
      var patched := ApplyPatch(node, RestorePatch(node, Allocated(pods, node.name)));
      RestoreMisses(patched, pods, restore[1..], None, ALL_SERVED);
    } else {
      RestoreHitsOnce(node, pods, restore[1..]);
    }
  }

  lemma {:induction false} IsolateHits(node: Node, isolate: seq<Node>)
    ensures AfterIsolate(node, isolate, ALL_SERVED)
         == if exists n | n in isolate :: n.name == node.name then ApplyPatch(node, IsolationPatch()) else node
    decreases |isolate|
  {
    if isolate != [] {
      assert isolate == [isolate[0]] + isolate[1..];
      if isolate[0].name == node.name {
        var patched := ApplyPatch(node, IsolationPatch());
        IsolateHits(patched, isolate[1..]);
        PatchTwice(node, IsolationPatch());
      } else {
        IsolateHits(node, isolate[1..]);
      }
    }
  }

  /** Listing, classifying and patching by name amounts to one map over the store. */
  lemma PassIsPointwise(nodes: seq<Node>, pods: seq<Pod>, vec: seq<Sample>)
    requires DistinctNames(nodes)
    ensures Outcome(nodes, pods, StartSync(nodes, vec), ALL_SERVED) == SyncPass(nodes, pods, vec)
  {
    forall i | 0 <= i < |nodes|
      ensures Outcome(nodes, pods, StartSync(nodes, vec), ALL_SERVED)[i] == SyncNode(nodes[i], pods, vec)
    {
      PassOnNode(nodes, pods, vec, i);
    }
  }

  /** Every complete run of the two goroutines on a fresh listing, in any interleaving, is that map. */
  lemma ConcurrentPassIsPointwise(nodes: seq<Node>, pods: seq<Pod>, vec: seq<Sample>, moves: seq<bool>)
    requires DistinctNames(nodes)
    requires SyncDone(Interleave(nodes, pods, StartSync(nodes, vec), moves, ALL_SERVED).1)
    ensures Interleave(nodes, pods, StartSync(nodes, vec), moves, ALL_SERVED).0 == SyncPass(nodes, pods, vec)
  {
    StartIsDisjoint(nodes, vec);
    InterleavingReachesOutcome(nodes, pods, StartSync(nodes, vec), moves, ALL_SERVED);
    PassIsPointwise(nodes, pods, vec);
  }

  lemma PassOnNode(nodes: seq<Node>, pods: seq<Pod>, vec: seq<Sample>, i: nat)
    requires DistinctNames(nodes) && i < |nodes|
    ensures Outcome(nodes, pods, StartSync(nodes, vec), ALL_SERVED)[i] == SyncNode(nodes[i], pods, vec)
  {
    var node := nodes[i];
    var healthy, unhealthy := HealthyGpuNodes(nodes, vec), UnhealthyGpuNodes(nodes, vec);
    GpuNodesMembers(nodes);
    GpuNodesDistinct(nodes);
    WithVerdictMembers(GpuNodes(nodes), vec, Healthy);
    WithVerdictMembers(GpuNodes(nodes), vec, Unhealthy);
    WithVerdictDistinct(GpuNodes(nodes), vec, Healthy);
    assert forall n | n in nodes && n.name == node.name :: n == node;
    if node in healthy {
      RestoreHitsOnce(node, pods, healthy);
    } else {
      RestoreMisses(node, pods, healthy, None, ALL_SERVED);
    }
    IsolateHits(AfterRestore(node, pods, healthy, None, ALL_SERVED), unhealthy);
    if n :| n in unhealthy && n.name == node.name {
      assert n == node;
    }
  }

  /** The frame of the pass: what each kind of node keeps and gets. */
  lemma SyncNodeFrame(node: Node, pods: seq<Pod>, vec: seq<Sample>)
    ensures var r := SyncNode(node, pods, vec);
            && r.name == node.name && r.allocatable == node.allocatable
            && (forall l | l != "hpc-sentinel/density" :: Label(r, l) == Label(node, l))
            && IsGpuNode(r) == IsGpuNode(node)
    ensures !IsGpuNode(node) || VerdictOf(vec, node.name) == Silent ==> SyncNode(node, pods, vec) == node
    ensures IsGpuNode(node) && VerdictOf(vec, node.name) == Unhealthy ==>
      var r := SyncNode(node, pods, vec);
      r.taints == [Taint("hpc-sentinel/unhealthy", "true", NoSchedule)] && Label(r, "hpc-sentinel/density") == Some("0")
    ensures IsGpuNode(node) && VerdictOf(vec, node.name) == Healthy ==>
      var r := SyncNode(node, pods, vec);
      && r.taints == WithoutUnhealthy(node.taints)
      && (forall t :: t in r.taints <==> t in node.taints && t.key != "hpc-sentinel/unhealthy")
      && Label(r, "hpc-sentinel/density") == Some(Itoa(Allocated(pods, node.name)))
  {
    LabelsDiffer();
    RestorationDropsUnhealthy(node.taints);
  }

  /** A second pass under the same scan and pods changes no node. */
  lemma SyncPassIsIdempotent(nodes: seq<Node>, pods: seq<Pod>, vec: seq<Sample>)
    ensures SyncPass(SyncPass(nodes, pods, vec), pods, vec) == SyncPass(nodes, pods, vec)
  {
    forall i | 0 <= i < |nodes|
      ensures SyncNode(SyncNode(nodes[i], pods, vec), pods, vec) == SyncNode(nodes[i], pods, vec)
    {
      SyncNodeFrame(nodes[i], pods, vec);
      RestorationIsIdempotent(nodes[i].taints);
      var once := SyncNode(nodes[i], pods, vec);
      var twice := SyncNode(once, pods, vec);
      if once.labels.Some? && twice.labels.Some? {
        assert twice.labels.value == once.labels.value;
      }
    }
  }

  // ----- lists and labels, spelt out -----

  /** A GPU node is one whose count label is the text of a positive 64-bit integer, whatever else it says. */
  lemma GpuNodeExactly(node: Node)
    ensures IsGpuNode(node) <==>
      && node.labels.Some? && "nvidia.com/gpu.count" in node.labels.value
      && var text := node.labels.value["nvidia.com/gpu.count"];
         && WithoutSign(text) != [] && AllDigits(WithoutSign(text)) && text[0] != '-'
         && DigitsValue(WithoutSign(text)).Some?
         && 1 <= DigitsValue(WithoutSign(text)).value <= 9223372036854775807
  {
    if node.labels.Some? && "nvidia.com/gpu.count" in node.labels.value {
      var text := node.labels.value["nvidia.com/gpu.count"];
      ParsesExactly(text);
      DigitsValueExactly(WithoutSign(text));
    }
  }

  /** The listed GPU nodes of two groups of nodes are those of the one and then those of the other, */
  lemma {:induction false} GpuNodesSplit(a: seq<Node>, b: seq<Node>)
    ensures GpuNodes(a + b) == GpuNodes(a) + GpuNodes(b)
  {
    if b == [] {
      assert a + b == a;
    } else {
      GpuNodesSplit(a, b[..|b| - 1]);
      assert (a + b)[..|a + b| - 1] == a + b[..|b| - 1];
    }
  }

  /** and so are the nodes with a verdict: classification keeps the order of the list. */
  lemma {:induction false} WithVerdictSplits(a: seq<Node>, b: seq<Node>, vec: seq<Sample>, v: Verdict)
    ensures WithVerdict(a + b, vec, v) == WithVerdict(a, vec, v) + WithVerdict(b, vec, v)
  {
    if b == [] {
      assert a + b == a;
    } else {
      WithVerdictSplits(a, b[..|b| - 1], vec, v);
      assert (a + b)[..|a + b| - 1] == a + b[..|b| - 1];
    }
  }

  /** A node is healthy exactly when it has a sample and the last sample of each of its series is in its range. */
  lemma HealthyByLastSamples(vec: seq<Sample>, name: string)
    ensures VerdictOf(vec, name) == Silent <==> forall i | 0 <= i < |vec| :: vec[i].node != name
    ensures VerdictOf(vec, name) == Unhealthy <==>
      exists i | 0 <= i < |vec| :: vec[i].node == name && IsLast(vec, i) && !InRange(vec[i].metric, vec[i].value)
  {
    forall i | 0 <= i < |vec| && IsLast(vec, i)
      ensures LastValue(vec, vec[i].node, vec[i].gpu, vec[i].metric) == Some(vec[i].value)
    {
      LastSampleWins(vec, i);
    }
    if s :| s in vec && s.node == name && !InRange(s.metric, LastValue(vec, name, s.gpu, s.metric).value) {
      var i :| 0 <= i < |vec| && vec[i] == s;
      var k := LastSampleExists(vec, i);
      LastSampleWins(vec, k);
    }
  }
}
