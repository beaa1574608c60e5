/**
 The handlers of internal/controller/hpcjob_controller.go, statement by statement, on the mutable cluster.
 Each is proved to do exactly what the machine of ReconcileProtocol does when it runs alone, call for call. The one
 exception to "statement by statement" is the pair of goroutines: they are scheduled call by call, not written as loops.
 */
module HPCJobController {
  import opened Capacity
  import opened GpuNodeDiscovery
  import opened KubeClient
  import opened KubeTypes
  import opened NodePatches
  import opened PrometheusClient
  import opened ReconcileProtocol
  import opened Wrappers

  // ----- each goroutine of the sync alone -----

  /** The isolation loop is the protocol's isolate steps, */
  lemma {:induction false} DriveIsolate(
    script: Script, w: World, calls: nat, f: Fetched, healthy: seq<Node>, left: seq<Node>)
    ensures var (nodes', calls') := RunIsolate(script, w.nodes, calls, left);
            Drive(script, w, calls, Resume(f, healthy, SyncPc([], None, left)))
            == Drive(script, w.(nodes := nodes'), calls', Decide(f, healthy))
    decreases |left|
  {
    if left == [] {
      assert w.(nodes := w.nodes) == w;
    } else {
      var pc := Sync(f, healthy, SyncPc([], None, left));
      DriveStep(script, w, calls, pc);
      var w' := Call(w, pc, script(calls)).0;
      DriveIsolate(script, w', calls + 1, f, healthy, left[1..]);
    }
  }

  /** and the restoration loop is its restore steps, in which a failed read skips the node. */
  lemma {:induction false} DriveRestore(
    script: Script, w: World, calls: nat, f: Fetched, healthy: seq<Node>, left: seq<Node>)
    ensures var (nodes', calls') := RunRestore(script, w.nodes, w.pods, calls, left);
            Drive(script, w, calls, Resume(f, healthy, SyncPc(left, None, [])))
            == Drive(script, w.(nodes := nodes'), calls', Decide(f, healthy))
    decreases |left|
  {
    if left == [] {
      assert w.(nodes := w.nodes) == w;
    } else {
      var pc := Sync(f, healthy, SyncPc(left, None, []));
      DriveStep(script, w, calls, pc);
      if script(calls).answer != Served {
        DriveRestore(script, w, calls + 1, f, healthy, left[1..]);
      } else {
        var pc1 := Call(w, pc, script(calls)).1;
        DriveStep(script, w, calls + 1, pc1);
        var w' := Call(w, pc1, script(calls + 1)).0;
        DriveRestore(script, w', calls + 2, f, healthy, left[1..]);
      }
    }
  }

  // ----- the handlers -----

  method UpdateJobStatus(r: Clientset, job: HPCJob, newPhase: Phase) returns (err: bool)
    modifies r`calls, r`log, job`job
    ensures job.job == old(job.job).(phase := newPhase)
    ensures forall f, ok, ko | f == old(job.Value()) ::
      Drive(r.script, old(r.W()), old(r.calls), SetPhase(f, newPhase, ok, ko))
      == (r.W(), r.calls, Finish(f.key, if err then ko else ok))
  {
    ghost var w, n := r.W(), r.calls;
    job.job := job.job.(phase := newPhase);
    var u := r.StatusUpdate(job.key, job.ver, newPhase);
    err := u.Err?;
    forall f, ok, ko | f == old(job.Value())
      ensures Drive(r.script, w, n, SetPhase(f, newPhase, ok, ko))
           == (r.W(), r.calls, Finish(f.key, if err then ko else ok))
    {
      DriveStep(r.script, w, n, SetPhase(f, newPhase, ok, ko));
      DriveStopped(r.script, r.W(), r.calls, Finish(f.key, if err then ko else ok));
    }
  }

  method ScanPodStatus(r: Clientset, job: HPCJob) returns (podExists: bool, err: bool)
    requires job.job.phase == Pending || job.job.phase == Running
    modifies r`calls, r`log, job`job
    ensures !podExists ==> !err && job.job == old(job.job) && r.W() == old(r.W())
    ensures job.job.phase in {Pending, Running, Failed, Complete}
    ensures job.job.phase == Pending ==> old(job.job.phase) == Pending
    ensures Drive(r.script, old(r.W()), old(r.calls), ReconcileProtocol.GetPod(old(job.Value())))
         == if podExists
            then (r.W(), r.calls,
                  Finish(job.key, if err then FAILURE else if job.job.phase == Pending then RECHECK else DONE))
            else Drive(r.script, r.W(), r.calls, AfterGetPod(old(job.Value()), Err(NotFound)))
  {
    ghost var f := job.Value();
    DriveStep(r.script, r.W(), r.calls, ReconcileProtocol.GetPod(f));
    var pod := r.GetPod(job.key);
    if pod.Err? {
      if pod.error == NotFound {
        return false, false;
      }
      var _ := UpdateJobStatus(r, job, Failed);
      return true, true;
    }
    match pod.value.phase
    case PodRunning =>
      var e := UpdateJobStatus(r, job, Running);
      return true, e;
    case PodFailed =>
      var _ := UpdateJobStatus(r, job, Failed);
      return true, true;
    case PodSucceeded =>
      var e := UpdateJobStatus(r, job, Complete);
      return true, e;
    case _ =>
      DriveStopped(r.script, r.W(), r.calls, AfterGetPod(f, pod));
      return true, false;
  }

  method ManageExistingPod(r: Clientset, job: HPCJob) returns (podExists: bool, result: ReconcileResult)
    requires job.job.phase == Pending || job.job.phase == Running
    modifies r`calls, r`log, job`job
    ensures !podExists ==> !result.err && job.job == old(job.job) && r.W() == old(r.W())
    ensures !result.err && old(job.job.phase) == Running ==> result == DONE
    ensures Drive(r.script, old(r.W()), old(r.calls), ReconcileProtocol.GetPod(old(job.Value())))
         == if podExists then (r.W(), r.calls, Finish(job.key, result))
            else Drive(r.script, r.W(), r.calls, AfterGetPod(old(job.Value()), Err(NotFound)))
  {
    var scanned, err := ScanPodStatus(r, job);
    if err {
      return scanned, FAILURE;
    }
    if scanned {
      if job.job.phase != Running && job.job.phase != Failed && job.job.phase != Complete {
        return scanned, RECHECK;
      }
    }
    return scanned, DONE;
  }

  method ListGPUNodes(r: Clientset) returns (lists: Result<(seq<Node>, seq<Node>), ()>)
    modifies r`calls
    ensures forall f ::
      var served := r.script(old(r.calls)).answer == Served;
      var reply := r.script(old(r.calls) + 1).reply;
      && (lists.Ok? <==> served && reply.Vector?)
      && (lists.Ok? ==>
            && lists.value == (HealthyGpuNodes(r.nodes, reply.samples), UnhealthyGpuNodes(r.nodes, reply.samples))
            && Drive(r.script, old(r.W()), old(r.calls), ListNodes(f))
            == Drive(r.script, r.W(), r.calls, Resume(f, lists.value.0, SyncPc(lists.value.0, None, lists.value.1))))
      && (lists.Err? ==>
            Drive(r.script, old(r.W()), old(r.calls), ListNodes(f)) == (r.W(), r.calls, Finish(f.key, FAILURE)))
  {
    ghost var w, n := r.W(), r.calls;
    forall f {
      DriveStep(r.script, w, n, ListNodes(f));
    }
    var gpuNodes := r.GetClusterGPUNodes();
    if gpuNodes.Err? {
      return Err(());
    }
    forall f {
      DriveStep(r.script, w, n + 1, QueryHealth(f, gpuNodes.value));
    }
    var c := r.Ask();
    var healthScan := GetFullGPUClusterHealthCheck(c.reply);
    if healthScan.Err? {
      return Err(());
    }
    var healthyNodes, unhealthyNodes := Classify(gpuNodes.value, healthScan.value, c.reply.samples);
    return Ok((healthyNodes, unhealthyNodes));
  }

  /**
   The two goroutines and the wait for both. The scheduler, which the script stands for, picks the goroutine that
   makes the next call, and every call may fail. The loops of the goroutines are `RestoreHealthyNodes` and
   `IsolateUnhealthyNodes`; this method makes their calls one at a time, and DriveRestore and DriveIsolate tie the loops
   to the calls when the other list is empty.
   */
  method SyncNodeHealthStatus(r: Clientset, healthyNodes: seq<Node>, unhealthyNodes: seq<Node>)
    modifies r`calls, r`nodes
    ensures forall f ::
      Drive(r.script, old(r.W()), old(r.calls), Resume(f, healthyNodes, SyncPc(healthyNodes, None, unhealthyNodes)))
      == Drive(r.script, r.W(), r.calls, Decide(f, healthyNodes))
  {
    var todo := SyncPc(healthyNodes, None, unhealthyNodes);
    while !SyncDone(todo)
      invariant forall f ::
        Drive(r.script, old(r.W()), old(r.calls), Resume(f, healthyNodes, SyncPc(healthyNodes, None, unhealthyNodes)))
        == Drive(r.script, r.W(), r.calls, Resume(f, healthyNodes, todo))
      decreases SyncWork(todo)
    {
      forall f {
        DriveStep(r.script, r.W(), r.calls, Sync(f, healthyNodes, todo));
      }
      var isolating := todo.restore == [] || (todo.isolate != [] && r.script(r.calls).isolateFirst);
      if isolating {
        todo := r.IsolateCall(todo);
      } else {
        todo := r.RestoreCall(todo);
      }
    }
  }

  method FetchNodesAndSyncStatus(r: Clientset) returns (healthyNodes: Result<seq<Node>, ()>)
    modifies r`calls, r`nodes
    ensures forall f ::
      Drive(r.script, old(r.W()), old(r.calls), ListNodes(f))
      == if healthyNodes.Ok? then Drive(r.script, r.W(), r.calls, Decide(f, healthyNodes.value))
         else (r.W(), r.calls, Finish(f.key, FAILURE))
  {
    var lists := ListGPUNodes(r);
    if lists.Err? {
      return Err(());
    }
    SyncNodeHealthStatus(r, lists.value.0, lists.value.1);
    return Ok(lists.value.0);
  }

  method CreateHpcPod(r: Clientset, hpcJob: HPCJob, inUse: int) returns (e: Result<(), ApiError>)
    modifies r`calls, r`pods
    ensures var a := AddPod(old(r.W()), HpcPod(hpcJob.key, hpcJob.job.spec, inUse), r.script(old(r.calls)).answer);
            && r.W() == (if a.Ok? then a.value else old(r.W())) && (if a.Ok? then e.Ok? else e == Err(a.error))
    ensures r.calls == old(r.calls) + 1
  {
    var bound := if inUse > 0 then inUse - 1 else inUse;
    var requests := map[GPU_CORES_CAPACITY := hpcJob.job.spec.gpuCount];
    var container := Container(hpcJob.key.name, hpcJob.job.spec.image, requests);
    var toleration := TolerateExisting(GPU_NODE_TAINT_KEY, NoSchedule);
    var hpcPod := Pod(hpcJob.key, PodPending, None, [toleration], Decimal.Itoa(bound), [container]);
    assert hpcPod == HpcPod(hpcJob.key, hpcJob.job.spec, inUse);
    e := r.CreatePod(hpcPod);
  }

  /** The tail of `handlePending`, from the decision on. */
  method PlacePod(r: Clientset, job: HPCJob, healthyNodes: seq<Node>) returns (result: ReconcileResult)
    modifies r`calls, r`pods
    ensures Drive(r.script, old(r.W()), old(r.calls), Decide(old(job.Value()), healthyNodes))
         == (r.W(), r.calls, Finish(job.key, result))
  {
    hide Drive, AddPod, LeastDensity, Qualifies, LeastCandidate, HpcPod;
    ghost var f, w, n := job.Value(), r.W(), r.calls;
    var requiredCapacity: int := job.job.spec.gpuCount;
    var inUse, hasCapacity := CalculateClusterCapacityForJob(healthyNodes, requiredCapacity);
    CapacityIsDetermined(healthyNodes, requiredCapacity, if hasCapacity then Some(inUse) else None);
    if !hasCapacity {
      DriveStopped(r.script, w, n, Finish(f.key, RECHECK));
      return RECHECK;
    }
    DriveStep(r.script, w, n, ReconcileProtocol.CreatePod(f, HpcPod(f.key, f.job.spec, inUse)));
    var e := CreateHpcPod(r, job, inUse);
    result := if e.Err? && e.error != Conflict then FAILURE else RECHECK;
    DriveStopped(r.script, r.W(), r.calls, Finish(f.key, result));
  }

  method HandlePending(r: Clientset, job: HPCJob) returns (result: ReconcileResult)
    requires job.job.phase == Pending
    modifies r`calls, r`log, r`nodes, r`pods, job`job
    ensures Drive(r.script, old(r.W()), old(r.calls), ReconcileProtocol.GetPod(old(job.Value())))
         == (r.W(), r.calls, Finish(job.key, result))
  {
    ghost var f := job.Value();
    var podExists, managed := ManageExistingPod(r, job);
    if managed.err || podExists {
      return managed;
    }
    if !ValidSpec(job.job.spec) {
      var err := UpdateJobStatus(r, job, Failed);
      return if err then FAILURE else DONE;
    }
    var healthyNodes := FetchNodesAndSyncStatus(r);
    if healthyNodes.Err? {
      return FAILURE;
    }
    result := PlacePod(r, job, healthyNodes.value);
  }

  method HandleRunning(r: Clientset, job: HPCJob) returns (result: ReconcileResult)
    requires job.job.phase == Running
    modifies r`calls, r`log, job`job
    ensures Drive(r.script, old(r.W()), old(r.calls), ReconcileProtocol.GetPod(old(job.Value())))
         == (r.W(), r.calls, Finish(job.key, result))
  {
    var podExists, managed := ManageExistingPod(r, job);
    if managed.err {
      return managed;
    }
    if !podExists {
      var err := UpdateJobStatus(r, job, Pending);
      return if err then FAILURE_RECHECK else RECHECK;
    }
    return DONE;
  }

  method HandleFailed(r: Clientset, job: HPCJob) returns (result: ReconcileResult)
    requires job.job.phase == Failed
    modifies r`calls, r`log, r`pods, job`job
    ensures Drive(r.script, old(r.W()), old(r.calls), DeleteFailed(old(job.Value())))
         == (r.W(), r.calls, Finish(job.key, result))
  {
    ghost var f := job.Value();
    DriveStep(r.script, r.W(), r.calls, DeleteFailed(f));
    var e := r.DeletePod(job.key);
    if e.Err? && e.error != NotFound {
      DriveStopped(r.script, r.W(), r.calls, Finish(f.key, FAILURE_RECHECK));
      return FAILURE_RECHECK;
    }
    var err := UpdateJobStatus(r, job, Failed);
    return if err then FAILURE_RECHECK else DONE;
  }

  lemma DriveDelete(script: Script, w: World, calls: nat, k: Key, owner: Option<Fetched>, left: seq<Pod>)
    requires left != []
    ensures Drive(script, w, calls, AfterDeletes(k, owner, left))
         == match DropPod(w, left[0].key, script(calls).answer)
            case Ok(w') => Drive(script, w', calls + 1, AfterDeletes(k, owner, left[1..]))
            case Err(_) => (w, calls + 1, Finish(k, FAILURE_RECHECK))
  {
    DriveStep(script, w, calls, DeletePods(k, owner, left));
    DriveStopped(script, w, calls + 1, Finish(k, FAILURE_RECHECK));
  }

  /** The deletion loop shared by the two deletion handlers: stops at the first error. */
  method DeleteAll(r: Clientset, k: Key, ghost owner: Option<Fetched>, pods: seq<Pod>) returns (err: bool)
    modifies r`calls, r`pods
    ensures Drive(r.script, old(r.W()), old(r.calls), AfterDeletes(k, owner, pods))
         == if err then (r.W(), r.calls, Finish(k, FAILURE_RECHECK))
            else Drive(r.script, r.W(), r.calls, AfterDeletes(k, owner, []))
  {
    ghost var whole := Drive(r.script, r.W(), r.calls, AfterDeletes(k, owner, pods));
    assert pods[0..] == pods;
    for i := 0 to |pods|
      invariant Drive(r.script, r.W(), r.calls, AfterDeletes(k, owner, pods[i..])) == whole
    {
      assert pods[i..][1..] == pods[i + 1..];
      DriveDelete(r.script, r.W(), r.calls, k, owner, pods[i..]);
      var e := r.DeletePod(pods[i].key);
      if e.Err? {
        return true;
      }
    }
    assert pods[|pods|..] == [];
    return false;
  }

  lemma DriveList(script: Script, w: World, calls: nat, k: Key, owner: Option<Fetched>)
    ensures Drive(script, w, calls, ListPods(k, owner))
         == if script(calls).answer != Served then (w, calls + 1, Finish(k, FAILURE_RECHECK))
            else Drive(script, w, calls + 1, AfterDeletes(k, owner, PodsNamed(w.pods, k)))
  {
    DriveStep(script, w, calls, ListPods(k, owner));
    DriveStopped(script, w, calls + 1, Finish(k, FAILURE_RECHECK));
  }

  /** Listing and deleting, as both deletion handlers start. */
  method DeleteListed(r: Clientset, k: Key, ghost owner: Option<Fetched>) returns (err: bool)
    modifies r`calls, r`pods
    ensures Drive(r.script, old(r.W()), old(r.calls), ListPods(k, owner))
         == if err then (r.W(), r.calls, Finish(k, FAILURE_RECHECK))
            else Drive(r.script, r.W(), r.calls, AfterDeletes(k, owner, []))
  {
    DriveList(r.script, r.W(), r.calls, k, owner);
    var pods := r.ListPodsByName(k);
    if pods.Err? {
      return true;
    }
    err := DeleteAll(r, k, owner, pods.value);
  }

  method HandleDeletedByName(r: Clientset, k: Key) returns (result: ReconcileResult)
    modifies r`calls, r`pods
    ensures Drive(r.script, old(r.W()), old(r.calls), ListPods(k, None)) == (r.W(), r.calls, Finish(k, result))
  {
    var err := DeleteListed(r, k, None);
    if err {
      return FAILURE_RECHECK;
    }
    DriveStopped(r.script, r.W(), r.calls, Finish(k, DONE));
    return DONE;
  }

  method ReleaseJob(r: Clientset, job: HPCJob) returns (result: ReconcileResult)
    modifies r`calls, r`log, job`job
    ensures Drive(r.script, old(r.W()), old(r.calls), DropFinalizer(old(job.Value())))
         == (r.W(), r.calls, Finish(job.key, result))
  {
    ghost var f := job.Value();
    DriveStep(r.script, r.W(), r.calls, DropFinalizer(f));
    var e := r.RemoveResourceFinalizer(job);
    result := if e.Err? then FAILURE_RECHECK else DONE;
    DriveStopped(r.script, r.W(), r.calls, Finish(f.key, result));
  }

  method HandleDeleted(r: Clientset, job: HPCJob) returns (result: ReconcileResult)
    modifies r`calls, r`pods, r`log, job`job
    ensures Drive(r.script, old(r.W()), old(r.calls), ListPods(job.key, Some(old(job.Value()))))
         == (r.W(), r.calls, Finish(job.key, result))
  {
    var err := DeleteListed(r, job.key, Some(job.Value()));
    if err {
      return FAILURE_RECHECK;
    }
    result := ReleaseJob(r, job);
  }

  /** One reconcile is one undisturbed run of the protocol machine: same cluster, same number of calls, same result. */
  method Reconcile(r: Clientset, k: Key) returns (result: ReconcileResult)
    modifies r
    ensures Drive(r.script, old(r.W()), old(r.calls), Fetch(k)) == (r.W(), r.calls, Finish(k, result))
  {
    DriveStep(r.script, r.W(), r.calls, Fetch(k));
    var fetched := r.FetchCRDResource(k);
    if fetched.Err? {
      DriveStopped(r.script, r.W(), r.calls, Finish(k, DONE));
      return DONE;
    }
    if fetched.value.None? {
      result := HandleDeletedByName(r, k);
      return;
    }
    var hpcJob := new HPCJob(k, fetched.value.value);
    if hpcJob.job.phase == Unset {
      hpcJob.job := hpcJob.job.(phase := Pending);
    }
    match hpcJob.job.phase {
      case Pending =>
        result := HandlePending(r, hpcJob);
        return;
      case Running =>
        result := HandleRunning(r, hpcJob);
        return;
      case Failed =>
        result := HandleFailed(r, hpcJob);
        return;
      case _ =>
    }
    if hpcJob.job.deleting {
      result := HandleDeleted(r, hpcJob);
      return;
    }
    DriveStopped(r.script, r.W(), r.calls, Finish(k, DONE));
    return DONE;
  }
}
