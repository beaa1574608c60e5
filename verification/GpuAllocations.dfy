/**
 GPU accounting: what the pods bound to a node request, as pkg/kube/client.go sums it,
 and how the sums behave when pods are created, bound and spread over nodes.
 */
module GpuAllocations {
  import opened KubeTypes
  import opened Wrappers

  function ContainerGpus(c: Container): int {
    if GPU_CORES_CAPACITY in c.requests then c.requests[GPU_CORES_CAPACITY] else 0
  }

  function RequestedGpus(containers: seq<Container>): int {
    if containers == [] then 0
    else RequestedGpus(containers[..|containers| - 1]) + ContainerGpus(containers[|containers| - 1])
  }

  /** Phases whose requests count as allocated. */
  predicate Counted(pod: Pod) {
    pod.phase == PodRunning || pod.phase == PodPending || pod.phase == PodFailed
  }

  function Share(pod: Pod, node: string): int {
    if pod.node == Some(node) && Counted(pod) then RequestedGpus(pod.containers) else 0
  }

  function Allocated(pods: seq<Pod>, node: string): int {
    if pods == [] then 0 else Allocated(pods[..|pods| - 1], node) + Share(pods[|pods| - 1], node)
  }

  /** Result of listing pods with the field selector `spec.nodeName=node`. */
  function PodsOn(pods: seq<Pod>, node: string): seq<Pod> {
    if pods == [] then []
    else if pods[|pods| - 1].node == Some(node) then PodsOn(pods[..|pods| - 1], node) + [pods[|pods| - 1]]
    else PodsOn(pods[..|pods| - 1], node)
  }

  lemma {:induction false} PodsOnAreOnNode(pods: seq<Pod>, node: string)
    ensures forall p | p in PodsOn(pods, node) :: p.node == Some(node)
  {
    if pods != [] {
      PodsOnAreOnNode(pods[..|pods| - 1], node);
    }
  }

  lemma {:induction false} AllocatedOfPodsOn(pods: seq<Pod>, node: string)
    ensures Allocated(PodsOn(pods, node), node) == Allocated(pods, node)
  {
    if pods != [] {
      var rest := pods[..|pods| - 1];
      AllocatedOfPodsOn(rest, node);
      if pods[|pods| - 1].node == Some(node) {
        assert PodsOn(pods, node)[..|PodsOn(pods, node)| - 1] == PodsOn(rest, node);
      }
    }
  }

  /** The accumulation loop of `GetGpuNodeAllocations` over the pods the server returned. */
  method SumAllocations(podList: seq<Pod>, ghost node: string) returns (allocatedCount: int)
    requires forall p | p in podList :: p.node == Some(node)
    ensures allocatedCount == Allocated(podList, node)
  {
    allocatedCount := 0;
    for i := 0 to |podList|
      invariant allocatedCount == Allocated(podList[..i], node)
    {
      var pod := podList[i];
      assert podList[..i + 1][..i] == podList[..i];
      if pod.phase != PodRunning && pod.phase != PodPending && pod.phase != PodFailed {
        continue;
      }
      ghost var before := allocatedCount;
      for j := 0 to |pod.containers|
        invariant allocatedCount == before + RequestedGpus(pod.containers[..j])
      {
        assert pod.containers[..j + 1][..j] == pod.containers[..j];
        if GPU_CORES_CAPACITY in pod.containers[j].requests {
          allocatedCount := allocatedCount + pod.containers[j].requests[GPU_CORES_CAPACITY];
        }
      }
      assert pod.containers[..|pod.containers|] == pod.containers;
    }
    assert podList[..|podList|] == podList;
  }

  /** Requests are quantities, so they are not negative. */
  ghost predicate NonNegativeRequests(pods: seq<Pod>) {
    forall p, c | p in pods && c in p.containers :: ContainerGpus(c) >= 0
  }

  lemma {:induction false} RequestedNonNegative(containers: seq<Container>)
    requires forall c | c in containers :: ContainerGpus(c) >= 0
    ensures RequestedGpus(containers) >= 0
  {
    if containers != [] {
      RequestedNonNegative(containers[..|containers| - 1]);
    }
  }

  lemma {:induction false} AllocatedNonNegative(pods: seq<Pod>, node: string)
    requires NonNegativeRequests(pods)
    ensures Allocated(pods, node) >= 0
  {
    if pods != [] {
      var last := pods[|pods| - 1];
      assert last in pods;
      AllocatedNonNegative(pods[..|pods| - 1], node);
      RequestedNonNegative(last.containers);
    }
  }

  /** Total requests of the counted pods bound to one of the nodes. */
  function BoundRequests(pods: seq<Pod>, nodes: seq<string>): int {
    if pods == [] then 0
    else
      var last := pods[|pods| - 1];
      BoundRequests(pods[..|pods| - 1], nodes) +
      if last.node.Some? && last.node.value in nodes && Counted(last) then RequestedGpus(last.containers) else 0
  }

  function SumAllocated(pods: seq<Pod>, nodes: seq<string>): int {
    if nodes == [] then 0 else SumAllocated(pods, nodes[1..]) + Allocated(pods, nodes[0])
  }

  ghost predicate Distinct(names: seq<string>) {
    forall i, j :: 0 <= i < j < |names| ==> names[i] != names[j]
  }

  /** Every counted request is charged to exactly one node. */
  lemma {:induction false} AllocationsAreConserved(pods: seq<Pod>, nodes: seq<string>)
    requires Distinct(nodes)
    ensures SumAllocated(pods, nodes) == BoundRequests(pods, nodes)
  {
    if pods == [] {
      NothingAllocated(nodes);
    } else {
      var rest := pods[..|pods| - 1];
      AllocationsAreConserved(rest, nodes);
      LastPodAdds(pods, nodes);
    }
  }

  lemma {:induction false} NothingAllocated(nodes: seq<string>)
    ensures SumAllocated([], nodes) == 0
  {
    if nodes != [] {
      NothingAllocated(nodes[1..]);
    }
  }

  lemma {:induction false} LastPodAdds(pods: seq<Pod>, nodes: seq<string>)
    requires pods != [] && Distinct(nodes)
    ensures var last := pods[|pods| - 1];
            SumAllocated(pods, nodes) == SumAllocated(pods[..|pods| - 1], nodes) +
            if last.node.Some? && last.node.value in nodes && Counted(last) then RequestedGpus(last.containers) else 0
  {
    if nodes != [] {
      LastPodAdds(pods, nodes[1..]);
      assert nodes == [nodes[0]] + nodes[1..];
      assert nodes[0] !in nodes[1..];
    }
  }

  /** Replacing one pod changes the sum on a node by the difference of the two shares. */
  lemma {:induction false} AllocatedAfterUpdate(pods: seq<Pod>, i: nat, pod: Pod, node: string)
    requires i < |pods|
    ensures Allocated(pods[i := pod], node) == Allocated(pods, node) - Share(pods[i], node) + Share(pod, node)
  {
    var rest := pods[..|pods| - 1];
    if i == |pods| - 1 {
      assert pods[i := pod][..i] == rest;
    } else {
      AllocatedAfterUpdate(rest, i, pod, node);
      assert pods[i := pod][..|pods| - 1] == rest[i := pod];
    }
  }

  /** A pod created without a node changes the allocation of no node. */
  lemma CreationAllocatesNothing(pods: seq<Pod>, pod: Pod, node: string)
    requires pod.node.None?
    ensures Allocated(pods + [pod], node) == Allocated(pods, node)
  {
    assert (pods + [pod])[..|pods|] == pods;
  }

  /** Binding an unbound counted pod raises the allocation of that node by its requests and of no other node. */
  lemma BindingAllocatesOnce(pods: seq<Pod>, i: nat, target: string, node: string)
    requires i < |pods| && pods[i].node.None? && Counted(pods[i])
    ensures Allocated(pods[i := pods[i].(node := Some(target))], node)
         == Allocated(pods, node) + if node == target then RequestedGpus(pods[i].containers) else 0
  {
    AllocatedAfterUpdate(pods, i, pods[i].(node := Some(target)), node);
  }

  // ----- what is counted, pod by pod and container by container -----

  /** The request of each container adds up, */
  lemma {:induction false} RequestsAdd(a: seq<Container>, b: seq<Container>)
    ensures RequestedGpus(a + b) == RequestedGpus(a) + RequestedGpus(b)
  {
    if b == [] {
      assert a + b == a;
    } else {
      RequestsAdd(a, b[..|b| - 1]);
      assert (a + b)[..|a + b| - 1] == a + b[..|b| - 1];
    }
  }

  /** and it is the container's request for the GPU resource, nothing when it has none. */
  lemma RequestOfOne(c: Container)
    ensures RequestedGpus([c]) == if "nvidia.com/gpu" in c.requests then c.requests["nvidia.com/gpu"] else 0
  {
    assert [c][..0] == [];
  }

  /** The allocations of two groups of pods add up. */
  lemma {:induction false} AllocationsAdd(a: seq<Pod>, b: seq<Pod>, node: string)
    ensures Allocated(a + b, node) == Allocated(a, node) + Allocated(b, node)
  {
    if b == [] {
      assert a + b == a;
    } else {
      AllocationsAdd(a, b[..|b| - 1], node);
      assert (a + b)[..|a + b| - 1] == a + b[..|b| - 1];
    }
  }

  /**
   A pod bound to a node holds its requests there while it is pending, running or failed, and nothing once it has
   succeeded or is unknown: the allocation without the pod is less by just that.
   */
  lemma PhaseDecidesAllocation(pods: seq<Pod>, i: nat, node: string, phase: PodPhase)
    requires i < |pods| && pods[i].node == Some(node)
    ensures Allocated(pods[i := pods[i].(phase := phase)], node)
         == Allocated(pods[i := pods[i].(node := None)], node)
          + if phase in {PodRunning, PodPending, PodFailed} then RequestedGpus(pods[i].containers) else 0
  {
    AllocatedAfterUpdate(pods, i, pods[i].(phase := phase), node);
    AllocatedAfterUpdate(pods, i, pods[i].(node := None), node);
  }

  /** The pods listed for a node are those bound to it, in store order. */
  lemma {:induction false} PodsOnSplits(a: seq<Pod>, b: seq<Pod>, node: string)
    ensures PodsOn(a + b, node) == PodsOn(a, node) + PodsOn(b, node)
  {
    if b == [] {
      assert a + b == a;
    } else {
      PodsOnSplits(a, b[..|b| - 1], node);
      assert (a + b)[..|a + b| - 1] == a + b[..|b| - 1];
    }
  }
}
