/**
 The capacity decision and the pod it leads to: the density label read back as a cache of allocations.
 Models calculateClusterCapacityForJob and createHpcPod of internal/controller/hpcjob_controller.go.
 */
module Capacity {
  import opened Decimal
  import opened GpuAllocations
  import opened GpuNodeDiscovery
  import opened KubeTypes
  import opened PrometheusClient
  import opened Wrappers

  /** The density with which a node offers itself for a demand; None when it does not qualify. */
  function Candidate(node: Node, required: int): Option<int> {
    if node.labels.None? then
      if AllocatableGpus(node) >= required then Some(1) else None
    else
      var density := Label(node, HIGH_DENSITY_AFFINITY_LABEL);
      if density.None? || Atoi(density.value).None? then None
      else if AllocatableGpus(node) - Atoi(density.value).value >= required then Atoi(density.value)
      else None
  }

  /**
   A labelled node qualifies with its density when that parses and the demand fits in what it leaves of the resource, a
   node without any labels with density one when the demand fits in the whole resource.
   */
  lemma QualifiesExactly(node: Node, required: int, density: int)
    ensures var gpus := if "nvidia.com/gpu" in node.allocatable then node.allocatable["nvidia.com/gpu"] else 0;
            Candidate(node, required) == Some(density) <==>
              if node.labels.None? then density == 1 && required <= gpus
              else
                && "hpc-sentinel/density" in node.labels.value
                && Atoi(node.labels.value["hpc-sentinel/density"]) == Some(density) && density + required <= gpus
  {
  }

  ghost predicate Qualifies(nodes: seq<Node>, required: int) {
    exists n | n in nodes :: Candidate(n, required).Some?
  }

  ghost predicate LeastCandidate(nodes: seq<Node>, required: int, least: int) {
    && (exists n | n in nodes :: Candidate(n, required) == Some(least))
    && (forall n | n in nodes && Candidate(n, required).Some? :: least <= Candidate(n, required).value)
  }

  /** The decision as a function: the least candidate density, if there is one. */
  function LeastDensity(nodes: seq<Node>, required: int): (r: Option<int>)
    ensures r.Some? <==> Qualifies(nodes, required)
    ensures r.Some? ==> LeastCandidate(nodes, required, r.value)
  {
    if nodes == [] then None
    else
      assert nodes == nodes[..|nodes| - 1] + [nodes[|nodes| - 1]];
      var best, last := LeastDensity(nodes[..|nodes| - 1], required), Candidate(nodes[|nodes| - 1], required);
      if best.None? || (last.Some? && last.value < best.value) then last else best
  }

  lemma CapacityIsDetermined(nodes: seq<Node>, required: int, r: Option<int>)
    requires r.Some? <==> Qualifies(nodes, required)
    requires r.Some? ==> LeastCandidate(nodes, required, r.value)
    ensures r == LeastDensity(nodes, required)
  {
    hide Candidate;
    var best := LeastDensity(nodes, required);
    if r.Some? {
      var n :| n in nodes && Candidate(n, required) == r;
      var b :| b in nodes && Candidate(b, required) == best;
      assert r.value <= best.value && best.value <= r.value;
    }
  }

  /** The list of candidate densities the first loop appends to. */
  function Candidates(nodes: seq<Node>, required: int): seq<int> {
    if nodes == [] then []
    else
      var rest, last := Candidates(nodes[..|nodes| - 1], required), Candidate(nodes[|nodes| - 1], required);
      if last.Some? then rest + [last.value] else rest
  }

  lemma {:induction false} CandidatesMembers(nodes: seq<Node>, required: int)
    ensures forall c :: c in Candidates(nodes, required) <==> exists n | n in nodes :: Candidate(n, required) == Some(c)
    ensures Qualifies(nodes, required) <==> Candidates(nodes, required) != []
  {
    if nodes != [] {
      CandidatesMembers(nodes[..|nodes| - 1], required);
      assert nodes == nodes[..|nodes| - 1] + [nodes[|nodes| - 1]];
    }
  }

  /** The first loop: append the density of every node with room. */
  method CollectCandidates(healthyNodes: seq<Node>, requiredCapacity: int) returns (candidates: seq<int>)
    ensures candidates == Candidates(healthyNodes, requiredCapacity)
  {
    candidates := [];
    for i := 0 to |healthyNodes|
      invariant candidates == Candidates(healthyNodes[..i], requiredCapacity)
    {
      var node := healthyNodes[i];
      assert healthyNodes[..i + 1][..i] == healthyNodes[..i];
      var nodeAllocatable := AllocatableGpus(node);
      if node.labels.None? {
        if nodeAllocatable >= requiredCapacity {
          candidates := candidates + [1];
        }
      } else {
        var val := Label(node, HIGH_DENSITY_AFFINITY_LABEL);
        if val.Some? {
          var parsed := Atoi(val.value);
          if parsed.None? {
            continue;
          }
          if nodeAllocatable - parsed.value >= requiredCapacity {
            candidates := candidates + [parsed.value];
          }
        }
      }
    }
    assert healthyNodes[..|healthyNodes|] == healthyNodes;
  }

  /** Both loops together: whether some node qualifies, and the least density among those that do. */
  method CalculateClusterCapacityForJob(healthyNodes: seq<Node>, requiredCapacity: int)
    returns (inUse: int, hasCapacity: bool)
    ensures hasCapacity <==> Qualifies(healthyNodes, requiredCapacity)
    ensures hasCapacity ==> LeastCandidate(healthyNodes, requiredCapacity, inUse)
    ensures !hasCapacity ==> inUse == 0
  {
    var candidates := CollectCandidates(healthyNodes, requiredCapacity);
    CandidatesMembers(healthyNodes, requiredCapacity);
    if |candidates| > 0 {
      var min := candidates[0];
      for i := 0 to |candidates|
        invariant min in candidates && forall j | 0 <= j < i :: min <= candidates[j]
      {
        if candidates[i] < min {
          min := candidates[i];
        }
      }
      assert Qualifies(healthyNodes, requiredCapacity);
      return min, true;
    } else {
      return 0, false;
    }
  }

  /** The decision does not depend on the order in which nodes are listed. */
  lemma CapacityIgnoresOrder(a: seq<Node>, b: seq<Node>, required: int)
    requires multiset(a) == multiset(b)
    ensures LeastDensity(a, required) == LeastDensity(b, required)
  {
    hide Candidate;
    forall n
      ensures n in a <==> n in b
    {
      assert n in a <==> n in multiset(a);
      assert n in b <==> n in multiset(b);
    }
    CapacityIsDetermined(a, required, LeastDensity(b, required));
  }

  // ----- the pod -----

  const GPU_TOLERATION := TolerateExisting(GPU_NODE_TAINT_KEY, NoSchedule)

  /** The bound of the affinity, as a number. */
  function Threshold(least: int): int {
    if least > 0 then least - 1 else least
  }

  function AffinityBound(inUse: int): string {
    Itoa(Threshold(inUse))
  }

  function HpcPod(key: Key, spec: JobSpec, inUse: int): Pod {
    Pod(key, PodPending, None, [GPU_TOLERATION], AffinityBound(inUse),
        [Container(key.name, spec.image, map[GPU_CORES_CAPACITY := spec.gpuCount])])
  }

  lemma HpcPodRequests(key: Key, spec: JobSpec, inUse: int)
    ensures RequestedGpus(HpcPod(key, spec, inUse).containers) == spec.gpuCount
  {
    var containers := HpcPod(key, spec, inUse).containers;
    assert containers[..0] == [];
  }

  /** A new pod is pending and bound to no node, so it changes no allocation. */
  lemma NewPodAllocatesNothing(pods: seq<Pod>, key: Key, spec: JobSpec, inUse: int, node: string)
    ensures HpcPod(key, spec, inUse).phase == PodPending
    ensures Allocated(pods + [HpcPod(key, spec, inUse)], node) == Allocated(pods, node)
  {
    CreationAllocatesNothing(pods, HpcPod(key, spec, inUse), node);
  }

  /** The pod may be scheduled on a node exactly when every taint there that matters is the GPU taint. */
  lemma PodIsAdmittedExactly(key: Key, spec: JobSpec, inUse: int, node: Node)
    ensures Tolerates(HpcPod(key, spec, inUse), node) <==>
      forall t | t in node.taints ::
        t.effect == PreferNoSchedule || (t.key == "nvidia.com/gpu" && t.effect == NoSchedule)
  {
  }

  /** No density label in the list is negative. */
  ghost predicate NonNegativeDensities(nodes: seq<Node>) {
    forall n | n in nodes && Label(n, HIGH_DENSITY_AFFINITY_LABEL).Some? ::
      var d := Atoi(Label(n, HIGH_DENSITY_AFFINITY_LABEL).value);
      d.Some? ==> d.value >= 0
  }

  /**
   A labelled node that qualifies satisfies the pod's preference exactly when its density is at least one,
   and no node below the least qualifying density satisfies it.
   */
  lemma AffinityPrefersLoadedCandidates(nodes: seq<Node>, required: int, node: Node, key: Key, spec: JobSpec)
    requires NonNegativeDensities(nodes) && LeastDensity(nodes, required).Some?
    requires node in nodes && node.labels.Some?
    ensures var least := LeastDensity(nodes, required).value;
            var bound := HpcPod(key, spec, least).densityAbove;
            && (Candidate(node, required).Some? ==>
                  (DensityGreater(node, bound) <==> Candidate(node, required).value >= 1))
            && (DensityGreater(node, bound) ==> Atoi(Label(node, HIGH_DENSITY_AFFINITY_LABEL).value).value >= least)
  {
    var least := LeastDensity(nodes, required).value;
    var n :| n in nodes && Candidate(n, required) == Some(least);
    if n.labels.Some? {
      assert FitsInt64(least);
    }
    var bound := if least > 0 then least - 1 else least;
    AtoiOfItoa(bound);
  }

  /** A least candidate density among listed GPU nodes is an integer the bound can be compared with. */
  lemma ThresholdIsSmall(nodes: seq<Node>, required: int)
    requires NonNegativeDensities(nodes) && LeastDensity(nodes, required).Some?
    requires forall n | n in nodes :: n.labels.Some?
    ensures var bound := Threshold(LeastDensity(nodes, required).value);
            0 <= bound && FitsInt64(bound) && Atoi(AffinityBound(LeastDensity(nodes, required).value)) == Some(bound)
  {
    var least := LeastDensity(nodes, required).value;
    var n :| n in nodes && Candidate(n, required) == Some(least);
    assert FitsInt64(least);
    AtoiOfItoa(Threshold(least));
  }

  /** What the scheduler compares after a pass: the allocation of a restored node, zero for an isolated one. */
  lemma SyncedPreference(node: Node, pods: seq<Pod>, vec: seq<Sample>, text: string, bound: int)
    requires IsGpuNode(node) && Atoi(text) == Some(bound) && bound >= 0
    ensures VerdictOf(vec, node.name) == Healthy ==>
      (DensityGreater(SyncNode(node, pods, vec), text)
       <==> FitsInt64(Allocated(pods, node.name)) && Allocated(pods, node.name) > bound)
    ensures VerdictOf(vec, node.name) == Unhealthy ==> !DensityGreater(SyncNode(node, pods, vec), text)
  {
    SyncNodeFrame(node, pods, vec);
    AtoiOfItoa(Allocated(pods, node.name));
    AtoiOfItoa(0);
    assert Itoa(0) == "0";
  }

  /** The least loaded candidate satisfies its own preference only when it already runs something. */
  lemma IdleCandidateIsNotPreferred(nodes: seq<Node>, required: int, node: Node, key: Key, spec: JobSpec)
    requires NonNegativeDensities(nodes) && node in nodes && node.labels.Some?
    requires Candidate(node, required).Some? && Candidate(node, required) == LeastDensity(nodes, required)
    ensures DensityGreater(node, HpcPod(key, spec, LeastDensity(nodes, required).value).densityAbove)
       <==> LeastDensity(nodes, required).value >= 1
  {
    AffinityPrefersLoadedCandidates(nodes, required, node, key, spec);
  }

  // ----- the label as a cache -----

  /** After a pass that restored the node, with its pods unchanged, the capacity test sees the true allocation. */
  lemma LabelIsFaithful(node: Node, pods: seq<Pod>, vec: seq<Sample>, required: int)
    requires IsGpuNode(node) && VerdictOf(vec, node.name) == Healthy
    ensures var inUse := Allocated(pods, node.name);
            Candidate(SyncNode(node, pods, vec), required)
            == if FitsInt64(inUse) && AllocatableGpus(node) - inUse >= required then Some(inUse) else None
  {
    SyncNodeFrame(node, pods, vec);
    AtoiOfItoa(Allocated(pods, node.name));
  }

  /** Whatever fits a positive demand is within 64 bits. */
  lemma FittingAllocationIsSmall(node: Node, pods: seq<Pod>, required: int)
    requires NonNegativeRequests(pods) && AllocatableGpus(node) <= MAX_INT64 && required > 0
    requires AllocatableGpus(node) - Allocated(pods, node.name) >= required
    ensures FitsInt64(Allocated(pods, node.name))
  {
    AllocatedNonNegative(pods, node.name);
  }

  /** Binding the job's pod to a node that qualified on a faithful label does not overcommit the node. */
  lemma BindingOnFaithfulLabelFits(
    node: Node, pods: seq<Pod>, vec: seq<Sample>, i: nat, key: Key, spec: JobSpec, inUse: int)
    requires IsGpuNode(node) && VerdictOf(vec, node.name) == Healthy
    requires Candidate(SyncNode(node, pods, vec), spec.gpuCount).Some?
    requires i < |pods| && pods[i] == HpcPod(key, spec, inUse)
    ensures Allocated(pods[i := pods[i].(node := Some(node.name))], node.name) <= AllocatableGpus(node)
  {
    LabelIsFaithful(node, pods, vec, spec.gpuCount);
    BindingAllocatesOnce(pods, i, node.name, node.name);
    HpcPodRequests(key, spec, inUse);
  }

  // ----- two passes -----

  lemma HealthyGpuNodesMembers(nodes: seq<Node>, vec: seq<Sample>)
    ensures forall n :: n in HealthyGpuNodes(nodes, vec)
                   <==> n in nodes && IsGpuNode(n) && VerdictOf(vec, n.name) == Healthy
  {
    GpuNodesMembers(nodes);
    WithVerdictMembers(GpuNodes(nodes), vec, Healthy);
  }

  /** Without density labels the first decision finds nothing, however much is free: listed nodes carry labels. */
  lemma UnlabelledNodesNeverQualify(nodes: seq<Node>, vec: seq<Sample>, required: int)
    requires forall n | n in nodes :: Label(n, HIGH_DENSITY_AFFINITY_LABEL).None?
    ensures LeastDensity(HealthyGpuNodes(nodes, vec), required) == None
  {
    HealthyGpuNodesMembers(nodes, vec);
  }

  /** A healthy GPU node really has room for the demand. */
  ghost predicate TrulyFits(node: Node, pods: seq<Pod>, vec: seq<Sample>, required: int) {
    && IsGpuNode(node) && VerdictOf(vec, node.name) == Healthy
    && AllocatableGpus(node) - Allocated(pods, node.name) >= required
  }

  /** After one complete pass the next decision is exact. */
  lemma SecondDecisionIsExact(nodes: seq<Node>, pods: seq<Pod>, vec: seq<Sample>, required: int)
    requires NonNegativeRequests(pods) && required > 0
    requires forall n | n in nodes :: AllocatableGpus(n) <= MAX_INT64
    ensures LeastDensity(HealthyGpuNodes(SyncPass(nodes, pods, vec), vec), required).Some?
       <==> exists n | n in nodes :: TrulyFits(n, pods, vec, required)
  {
    var synced := SyncPass(nodes, pods, vec);
    HealthyGpuNodesMembers(synced, vec);
    if n :| n in nodes && TrulyFits(n, pods, vec, required) {
      var i :| 0 <= i < |nodes| && nodes[i] == n;
      SyncNodeFrame(n, pods, vec);
      LabelIsFaithful(n, pods, vec, required);
      FittingAllocationIsSmall(n, pods, required);
      assert synced[i] in HealthyGpuNodes(synced, vec);
    }
    if s :| s in HealthyGpuNodes(synced, vec) && Candidate(s, required).Some? {
      var i :| 0 <= i < |synced| && synced[i] == s;
      SyncNodeFrame(nodes[i], pods, vec);
      LabelIsFaithful(nodes[i], pods, vec, required);
      assert TrulyFits(nodes[i], pods, vec, required);
    }
  }
}
