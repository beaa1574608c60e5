/**
 The API server seen from the controller, and the client methods of pkg/kube/client.go on it.
 The n-th call meets the n-th choice of the script, so every pattern of failures is covered.
 */
module KubeClient {
  import opened Decimal
  import opened Finalizers
  import opened GpuAllocations
  import opened GpuNodeDiscovery
  import opened JobLog
  import opened KubeTypes
  import opened NodePatches
  import opened ReconcileProtocol
  import opened Wrappers

  /** What the restoration loop makes of the node store, call by call. */
  function RunRestore(script: Script, nodes: seq<Node>, pods: seq<Pod>, calls: nat, left: seq<Node>): (seq<Node>, nat)
    decreases |left|
  {
    if left == [] then (nodes, calls)
    else if script(calls).answer != Served then RunRestore(script, nodes, pods, calls + 1, left[1..])
    else
      var patch := RestorePatch(left[0], Allocated(pods, left[0].name));
      var nodes' := if script(calls + 1).answer == Served then PatchNode(nodes, left[0].name, patch) else nodes;
      RunRestore(script, nodes', pods, calls + 2, left[1..])
  }

  function RunIsolate(script: Script, nodes: seq<Node>, calls: nat, left: seq<Node>): (seq<Node>, nat)
    decreases |left|
  {
    if left == [] then (nodes, calls)
    else
      var nodes' := if script(calls).answer == Served then PatchNode(nodes, left[0].name, IsolationPatch()) else nodes;
      RunIsolate(script, nodes', calls + 1, left[1..])
  }

  /** The in-memory job object that handlers receive by pointer and change in place. */
  class HPCJob {
    const key: Key
    var job: Job
    var ver: nat

    constructor (key: Key, stored: Stored)
      ensures this.key == key && job == stored.job && ver == stored.ver
    {
      this.key := key;
      this.job := stored.job;
      this.ver := stored.ver;
    }

    function Value(): Fetched
      reads this
    {
      Fetched(key, job, ver)
    }
  }

  class Clientset {
    var nodes: seq<Node>
    var pods: seq<Pod>
    var log: seq<Event>
    var seen: nat
    var calls: nat
    const script: Script

    constructor (w: World, script: Script)
      ensures W() == w && calls == 0 && this.script == script
    {
      nodes, pods, log, seen := w.nodes, w.pods, w.log, w.seen;
      calls := 0;
      this.script := script;
    }

    function W(): World
      reads this
    {
      World(nodes, pods, log, seen)
    }

    method Ask() returns (c: Choice)
      modifies this`calls
      ensures c == script(old(calls)) && calls == old(calls) + 1
    {
      c := script(calls);
      calls := calls + 1;
    }

    /** The cached read of the controller-runtime client; the outer result is the error other than NotFound. */
    method FetchCRDResource(k: Key) returns (r: Result<Option<Stored>, ApiError>)
      modifies this`calls
      ensures calls == old(calls) + 1
      ensures r == if script(old(calls)).answer != Served then Err(Refusal(script(old(calls)).answer))
                   else Ok(CachedJob(W(), k))
    {
      var c := Ask();
      if c.answer != Served {
        return Err(Refusal(c.answer));
      }
      return Ok(CachedJob(W(), k));
    }

    method StatusUpdate(k: Key, ver: nat, phase: Phase) returns (r: Result<(), ApiError>)
      modifies this`calls, this`log
      ensures calls == old(calls) + 1
      ensures var u := UpdateStatus(old(W()), k, ver, phase, script(old(calls)).answer);
              W() == (if u.Ok? then u.value else old(W())) && (r.Ok? <==> u.Ok?)
    {
      var c := Ask();
      if c.answer != Served {
        return Err(Refusal(c.answer));
      }
      var st := StoredJob(W(), k);
      if st.None? {
        return Err(NotFound);
      } else if st.value.ver != ver {
        return Err(Conflict);
      }
      if st.value.job.phase != phase {
        log := log + [Put(k, st.value.job.(phase := phase))];
      }
      return Ok(());
    }

    method GetPod(k: Key) returns (r: Result<Pod, ApiError>)
      modifies this`calls
      ensures calls == old(calls) + 1 && r == ReadPod(W(), k, script(old(calls)).answer)
    {
      var c := Ask();
      r := ReadPod(W(), k, c.answer);
    }

    method CreatePod(pod: Pod) returns (r: Result<(), ApiError>)
      modifies this`calls, this`pods
      ensures calls == old(calls) + 1
      ensures var a := AddPod(old(W()), pod, script(old(calls)).answer);
              W() == (if a.Ok? then a.value else old(W())) && (if a.Ok? then r.Ok? else r == Err(a.error))
    {
      var c := Ask();
      var a := AddPod(W(), pod, c.answer);
      if a.Err? {
        return Err(a.error);
      }
      pods := pods + [pod];
      return Ok(());
    }

    method DeletePod(k: Key) returns (r: Result<(), ApiError>)
      modifies this`calls, this`pods
      ensures calls == old(calls) + 1
      ensures var d := DropPod(old(W()), k, script(old(calls)).answer);
              W() == (if d.Ok? then d.value else old(W())) && (if d.Ok? then r.Ok? else r == Err(d.error))
    {
      var c := Ask();
      var d := DropPod(W(), k, c.answer);
      if d.Err? {
        return Err(d.error);
      }
      pods := RemovePod(pods, k);
      return Ok(());
    }

    method ListPodsByName(k: Key) returns (r: Result<seq<Pod>, ApiError>)
      modifies this`calls
      ensures calls == old(calls) + 1
      ensures r == if script(old(calls)).answer != Served then Err(Refusal(script(old(calls)).answer))
                   else Ok(PodsNamed(pods, k))
    {
      var c := Ask();
      if c.answer != Served {
        return Err(Refusal(c.answer));
      }
      return Ok(PodsNamed(pods, k));
    }

    method GetClusterGPUNodes() returns (r: Result<seq<Node>, ApiError>)
      modifies this`calls
      ensures calls == old(calls) + 1
      ensures r == if script(old(calls)).answer != Served then Err(Refusal(script(old(calls)).answer))
                   else Ok(GpuNodes(nodes))
    {
      var c := Ask();
      if c.answer != Served {
        return Err(Refusal(c.answer));
      }
      var items := LabelledNodes(nodes);
      LabelledNodesSuffice(nodes);
      var validNodes := SelectValidNodes(items);
      return Ok(validNodes);
    }

    /** The allocated half of `GetGpuNodeAllocations`, summed over the pods the server lists for the node. */
    method GetGpuNodeAllocations(gpuNode: Node) returns (r: Result<int, ApiError>)
      modifies this`calls
      ensures calls == old(calls) + 1
      ensures r == if script(old(calls)).answer != Served then Err(Refusal(script(old(calls)).answer))
                   else Ok(Allocated(pods, gpuNode.name))
    {
      var c := Ask();
      if c.answer != Served {
        return Err(Refusal(c.answer));
      }
      var podList := PodsOn(pods, gpuNode.name);
      PodsOnAreOnNode(pods, gpuNode.name);
      AllocatedOfPodsOn(pods, gpuNode.name);
      var allocatedCount := SumAllocations(podList, gpuNode.name);
      return Ok(allocatedCount);
    }

    /** The server's side of a node patch. */
    method PatchNodeByName(name: string, patch: NodePatch) returns (ok: bool)
      modifies this`calls, this`nodes
      ensures calls == old(calls) + 1
      ensures nodes == if script(old(calls)).answer == Served then PatchNode(old(nodes), name, patch) else old(nodes)
      ensures ok <==> script(old(calls)).answer == Served && exists n | n in old(nodes) :: n.name == name
    {
      var c := Ask();
      ok := c.answer == Served && exists n | n in nodes :: n.name == name;
      if c.answer == Served {
        nodes := PatchNode(nodes, name, patch);
      }
    }

    method IsolateUnhealthyNodes(unhealthyNodes: seq<Node>)
      modifies this`calls, this`nodes
      ensures (nodes, calls) == RunIsolate(script, old(nodes), old(calls), unhealthyNodes)
    {
      for i := 0 to |unhealthyNodes|
        invariant RunIsolate(script, nodes, calls, unhealthyNodes[i..])
               == RunIsolate(script, old(nodes), old(calls), unhealthyNodes)
      {
        assert unhealthyNodes[i..][1..] == unhealthyNodes[i + 1..];
        var _ := PatchNodeByName(unhealthyNodes[i].name, IsolationPatch());
      }
    }

    /** The taint filter of `RestoreHealthyNodes`. */
    static method KeepOtherTaints(taints: seq<Taint>) returns (newTaints: seq<Taint>)
      ensures newTaints == WithoutUnhealthy(taints)
    {
      newTaints := [];
      for i := 0 to |taints|
        invariant newTaints == WithoutUnhealthy(taints[..i])
      {
        assert taints[..i + 1][..i] == taints[..i];
        if taints[i].key != UNHEALTHY_TAINT_KEY {
          newTaints := newTaints + [taints[i]];
        }
      }
      assert taints[..|taints|] == taints;
    }

    method RestoreHealthyNodes(healthyNodes: seq<Node>)
      modifies this`calls, this`nodes
      ensures (nodes, calls) == RunRestore(script, old(nodes), pods, old(calls), healthyNodes)
    {
      for i := 0 to |healthyNodes|
        invariant RunRestore(script, nodes, pods, calls, healthyNodes[i..])
               == RunRestore(script, old(nodes), pods, old(calls), healthyNodes)
      {
        var node := healthyNodes[i];
        assert healthyNodes[i..][1..] == healthyNodes[i + 1..];
        var newTaints := KeepOtherTaints(node.taints);
        var status := GetGpuNodeAllocations(node);
        if status.Err? {
          continue;
        }
        var _ := PatchNodeByName(node.name, NodePatch(Itoa(status.value), newTaints));
      }
    }

    /** The next call of the goroutine that runs `RestoreHealthyNodes`: the read for its node, or the patch. */
    method RestoreCall(todo: SyncPc) returns (next: SyncPc)
      requires todo.restore != []
      modifies this`calls, this`nodes
      ensures calls == old(calls) + 1
      ensures (nodes, next) == RestoreStep(old(nodes), pods, todo, script(old(calls)).answer)
    {
      var node := todo.restore[0];
      if todo.reading.None? {
        var status := GetGpuNodeAllocations(node);
        return if status.Err? then todo.(restore := todo.restore[1..]) else todo.(reading := Some(status.value));
      }
      var newTaints := KeepOtherTaints(node.taints);
      var _ := PatchNodeByName(node.name, NodePatch(Itoa(todo.reading.value), newTaints));
      return todo.(restore := todo.restore[1..], reading := None);
    }

    /** The next call of the goroutine that runs `IsolateUnhealthyNodes`. */
    method IsolateCall(todo: SyncPc) returns (next: SyncPc)
      requires todo.isolate != []
      modifies this`calls, this`nodes
      ensures calls == old(calls) + 1
      ensures (nodes, next) == IsolateStep(old(nodes), todo, script(old(calls)).answer)
    {
      var _ := PatchNodeByName(todo.isolate[0].name, IsolationPatch());
      return todo.(isolate := todo.isolate[1..]);
    }

    method AddResourceFinalizer(hpcJob: HPCJob) returns (r: Result<(), ApiError>)
      modifies this`calls, this`log, hpcJob`job
      ensures hpcJob.job == old(hpcJob.job).(finalizers := AddFinalizer(old(hpcJob.job.finalizers)))
      ensures AddFinalizer(old(hpcJob.job.finalizers)) == old(hpcJob.job.finalizers) ==>
        r == Ok(()) && calls == old(calls) && W() == old(W())
      ensures AddFinalizer(old(hpcJob.job.finalizers)) != old(hpcJob.job.finalizers) ==>
        var added := AddFinalizer(old(hpcJob.job.finalizers));
        var u := UpdateFinalizers(old(W()), hpcJob.key, hpcJob.ver, added, script(old(calls)).answer);
        calls == old(calls) + 1 && W() == (if u.Ok? then u.value else old(W())) && (r.Ok? <==> u.Ok?)
    {
      if Contains(Join(hpcJob.job.finalizers), HPC_FINALIZER) {
        return Ok(());
      }
      hpcJob.job := hpcJob.job.(finalizers := hpcJob.job.finalizers + [HPC_FINALIZER]);
      var c := Ask();
      var u := UpdateFinalizers(W(), hpcJob.key, hpcJob.ver, hpcJob.job.finalizers, c.answer);
      if u.Err? {
        return Err(u.error);
      }
      log := u.value.log;
      return Ok(());
    }

    method RemoveResourceFinalizer(hpcJob: HPCJob) returns (r: Result<(), ApiError>)
      modifies this`calls, this`log, hpcJob`job
      ensures calls == old(calls) + 1
      ensures hpcJob.job == old(hpcJob.job).(finalizers := RemoveFinalizer(old(hpcJob.job.finalizers)))
      ensures var kept := RemoveFinalizer(old(hpcJob.job.finalizers));
              var u := UpdateFinalizers(old(W()), hpcJob.key, hpcJob.ver, kept, script(old(calls)).answer);
              W() == (if u.Ok? then u.value else old(W())) && (r.Ok? <==> u.Ok?)
    {
      var newFinalizers := FilterFinalizers(hpcJob.job.finalizers);
      hpcJob.job := hpcJob.job.(finalizers := newFinalizers);
      var c := Ask();
      var u := UpdateFinalizers(W(), hpcJob.key, hpcJob.ver, newFinalizers, c.answer);
      if u.Err? {
        return Err(u.error);
      }
      log := u.value.log;
      return Ok(());
    }
  }
}
