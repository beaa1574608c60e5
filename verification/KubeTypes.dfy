/** The Kubernetes objects the controller reads and writes, with the names it gives to labels and taints. */
module KubeTypes {
  import opened Decimal
  import opened Wrappers

  const GPU_NODE_LABEL_INDICATOR := "nvidia.com/gpu.count"
  const GPU_CORES_CAPACITY := "nvidia.com/gpu"
  const GPU_NODE_TAINT_KEY := "nvidia.com/gpu"
  const HIGH_DENSITY_AFFINITY_LABEL := "hpc-sentinel/density"
  const UNHEALTHY_TAINT_KEY := "hpc-sentinel/unhealthy"

  datatype Key = Key(ns: string, name: string)

  datatype TaintEffect = NoSchedule | PreferNoSchedule | NoExecute

  datatype Taint = Taint(key: string, value: string, effect: TaintEffect)

  /** A toleration with operator Exists. */
  datatype Toleration = TolerateExisting(key: string, effect: TaintEffect)

  datatype Node = Node(
    name: string,
    labels: Option<map<string, string>>,
    taints: seq<Taint>,
    allocatable: map<string, int>)

  datatype PodPhase = PodPending | PodRunning | PodSucceeded | PodFailed | PodUnknown

  datatype Container = Container(name: string, image: string, requests: map<string, int>)

  /** `densityAbove` is the value of the Gt expression on the density label in the pod's node affinity. */
  datatype Pod = Pod(
    key: Key,
    phase: PodPhase,
    node: Option<string>,
    tolerations: seq<Toleration>,
    densityAbove: string,
    containers: seq<Container>)

  type int32 = n: int | -0x8000_0000 <= n < 0x8000_0000

  datatype JobSpec = JobSpec(image: string, gpuCount: int32)

  /** Status phases: Unset is the empty string, Other any text outside the four supported phases. */
  datatype Phase = Unset | Pending | Running | Complete | Failed | Other(text: string)

  datatype Job = Job(uid: nat, spec: JobSpec, phase: Phase, deleting: bool, finalizers: seq<string>)

  function Label(node: Node, name: string): Option<string> {
    if node.labels.Some? && name in node.labels.value then Some(node.labels.value[name]) else None
  }

  /** `GetNodeAllocatableGPUs`: a missing resource has quantity zero. */
  function AllocatableGpus(node: Node): int {
    if GPU_CORES_CAPACITY in node.allocatable then node.allocatable[GPU_CORES_CAPACITY] else 0
  }

  ghost predicate DistinctNames(nodes: seq<Node>) {
    forall i, j :: 0 <= i < j < |nodes| ==> nodes[i].name != nodes[j].name
  }

  ghost predicate DistinctKeys(pods: seq<Pod>) {
    forall i, j :: 0 <= i < j < |pods| ==> pods[i].key != pods[j].key
  }

  /** The two node labels the controller handles are different keys of the label map. */
  lemma LabelsDiffer()
    ensures GPU_NODE_LABEL_INDICATOR != HIGH_DENSITY_AFFINITY_LABEL
  {
    assert GPU_NODE_LABEL_INDICATOR[0] == 'n' && HIGH_DENSITY_AFFINITY_LABEL[0] == 'h';
  }

  /** The scheduler's taint filter: NoSchedule and NoExecute taints must be tolerated. */
  predicate Tolerates(pod: Pod, node: Node) {
    forall taint | taint in node.taints && taint.effect != PreferNoSchedule ::
      TolerateExisting(taint.key, taint.effect) in pod.tolerations
  }

  /** Node selector operator Gt: both sides must be 64-bit integers. */
  predicate DensityGreater(node: Node, bound: string) {
    var density := Label(node, HIGH_DENSITY_AFFINITY_LABEL);
    density.Some? && Atoi(density.value).Some? && Atoi(bound).Some? && Atoi(density.value).value > Atoi(bound).value
  }
}
