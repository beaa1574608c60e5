/**
 The whole of one reconcile as a table: what it writes and how it ends, read off the cluster it finds and the answers it
 gets, for every phase of the job and every state of its pod. Phases, results and delays are spelt out here.
 */
module ReconcileTable {
  import opened Attention
  import opened Capacity
  import opened ConcurrentSync
  import opened Finalizers
  import opened GpuNodeDiscovery
  import opened JobLog
  import opened JobOutcomes
  import opened KubeTypes
  import opened NodePatches
  import opened PodCreation
  import opened PrometheusClient
  import opened ReconcileProtocol
  import opened UndisturbedReconcile
  import opened Wrappers

  /** The store with one more write, unless the job has the phase already. */
  function WithPhase(w: World, k: Key, phase: Phase): World
    requires StoredJob(w, k).Some?
  {
    var job := StoredJob(w, k).value.job;
    if job.phase == phase then w else w.(log := w.log + [Put(k, job.(phase := phase))])
  }

  /** The reconcile ends by the update to a phase: with one result when it is served, else with another and no write. */
  ghost predicate EndsByWriting(
    script: Script, w: World, calls: nat, k: Key, phase: Phase, ok: ReconcileResult, ko: ReconcileResult)
    requires StoredJob(w, k).Some?
  {
    Drive(script, w, calls, Fetch(k))
    == if script(calls + 2).answer == Served then (WithPhase(w, k, phase), calls + 3, Finish(k, ok))
       else (w, calls + 3, Finish(k, ko))
  }

  lemma WritesPhase(script: Script, w: World, n: nat, k: Key, phase: Phase, ok: ReconcileResult, ko: ReconcileResult)
    requires Active(w, k)
    ensures Drive(script, w, n, SetPhase(Read(w, k), phase, ok, ko))
         == if script(n).answer == Served then (WithPhase(w, k, phase), n + 1, Finish(k, ok))
            else (w, n + 1, Finish(k, ko))
  {
    hide Drive;
    var pc := SetPhase(Read(w, k), phase, ok, ko);
    DriveStep(script, w, n, pc);
    DriveStopped(script, Call(w, pc, script(n)).0, n + 1, Call(w, pc, script(n)).1);
  }

  // ----- the fetch -----

  /** A fetch that fails ends the reconcile at once, without an error and without a delay. */
  lemma FailedFetchEnds(script: Script, w: World, calls: nat, k: Key)
    requires script(calls).answer != Served
    ensures Drive(script, w, calls, Fetch(k)) == (w, calls + 1, Finish(k, Reconciled(false, 0)))
  {
    DriveStep(script, w, calls, Fetch(k));
    DriveStopped(script, w, calls + 1, Finish(k, DONE));
  }

  /** A job that is complete, or in a phase of no handler, is left alone with its pod and finalizers while it lives. */
  lemma CompletedJobIsLeftAlone(script: Script, w: World, calls: nat, k: Key)
    requires UpToDate(w, k) && StoredJob(w, k).Some? && !StoredJob(w, k).value.job.deleting
    requires StoredJob(w, k).value.job.phase !in {Unset, Pending, Running, Failed}
    ensures Drive(script, w, calls, Fetch(k)) == (w, calls + 1, Finish(k, Reconciled(false, 0)))
  {
    DriveStep(script, w, calls, Fetch(k));
    DriveStopped(script, w, calls + 1, Finish(k, DONE));
  }

  // ----- a waiting or Running job and its pod -----

  /** A read of the pod that fails makes the job Failed, and the reconcile ends with an error. */
  lemma FailedReadEnds(script: Script, w: World, calls: nat, k: Key)
    requires Active(w, k) && script(calls).answer == Served && script(calls + 1).answer != Served
    ensures EndsByWriting(script, w, calls, k, Failed, Reconciled(true, 0), Reconciled(true, 0))
  {
    hide Drive;
    AfterFetch(script, w, calls, k);
    WritesPhase(script, w, calls + 2, k, Failed, FAILURE, FAILURE);
  }

  /**
   The phase of the pod decides: running, succeeded and failed pods make the job Running, Complete and Failed, only the
   last with an error; any other pod leaves a Running job alone and has a waiting job looked at in five minutes.
   */
  lemma PodDecides(script: Script, w: World, calls: nat, k: Key, pod: Pod)
    requires Active(w, k) && DistinctKeys(w.pods) && pod in w.pods && pod.key == k
    requires script(calls).answer == Served && script(calls + 1).answer == Served
    ensures pod.phase == PodRunning ==>
      EndsByWriting(script, w, calls, k, Running, Reconciled(false, 0), Reconciled(true, 0))
    ensures pod.phase == PodSucceeded ==>
      EndsByWriting(script, w, calls, k, Complete, Reconciled(false, 0), Reconciled(true, 0))
    ensures pod.phase == PodFailed ==>
      EndsByWriting(script, w, calls, k, Failed, Reconciled(true, 0), Reconciled(true, 0))
    ensures pod.phase == PodPending || pod.phase == PodUnknown ==>
      Drive(script, w, calls, Fetch(k))
      == (w, calls + 2, Finish(k, Reconciled(false, if StoredJob(w, k).value.job.phase == Running then 0 else 300)))
  {
    hide Drive;
    AfterFetch(script, w, calls, k);
    ReadFindsThePod(w, k, Served);
    assert ReadPod(w, k, Served) == Ok(pod);
    var pc := AfterGetPod(Read(w, k), Ok(pod));
    if pc.SetPhase? {
      WritesPhase(script, w, calls + 2, k, pc.phase, pc.ok, pc.ko);
    } else {
      DriveStopped(script, w, calls + 2, pc);
    }
  }

  /** A Running job without a pod goes back to Pending and is looked at in five minutes. */
  lemma MissingPodSendsBack(script: Script, w: World, calls: nat, k: Key)
    requires Active(w, k) && !PodExists(w, k) && StoredJob(w, k).value.job.phase == Running
    requires script(calls).answer == Served && script(calls + 1).answer == Served
    ensures EndsByWriting(script, w, calls, k, Pending, Reconciled(false, 300), Reconciled(true, 300))
  {
    hide Drive;
    AfterFetch(script, w, calls, k);
    PodsNamedFinds(w, k);
    WritesPhase(script, w, calls + 2, k, Pending, RECHECK, FAILURE_RECHECK);
  }

  /** A waiting job without a pod that asks for no GPU, or names no image, becomes Failed, without an error. */
  lemma InvalidSpecFails(script: Script, w: World, calls: nat, k: Key)
    requires Active(w, k) && !PodExists(w, k) && StoredJob(w, k).value.job.phase != Running
    requires StoredJob(w, k).value.job.spec.gpuCount <= 0 || StoredJob(w, k).value.job.spec.image == ""
    requires script(calls).answer == Served && script(calls + 1).answer == Served
    ensures EndsByWriting(script, w, calls, k, Failed, Reconciled(false, 0), Reconciled(true, 0))
  {
    hide Drive;
    AfterFetch(script, w, calls, k);
    PodsNamedFinds(w, k);
    WritesPhase(script, w, calls + 2, k, Failed, DONE, FAILURE);
  }

  // ----- placing -----

  /** A waiting job with an image and at least one GPU, and no pod yet. */
  ghost predicate Placeable(w: World, k: Key) {
    && Active(w, k) && !PodExists(w, k) && StoredJob(w, k).value.job.phase != Running
    && StoredJob(w, k).value.job.spec.gpuCount >= 1 && StoredJob(w, k).value.job.spec.image != ""
    && DistinctNames(w.nodes)
  }

  lemma PlacingStarts(script: Script, w: World, calls: nat, k: Key)
    requires Placeable(w, k) && script(calls).answer == Served && script(calls + 1).answer == Served
    ensures Drive(script, w, calls, Fetch(k)) == Drive(script, w, calls + 2, ListNodes(Read(w, k)))
  {
    hide Drive;
    AfterFetch(script, w, calls, k);
    PodsNamedFinds(w, k);
  }

  /** Without the node list or the vector of samples nothing changes, and the reconcile ends in error. */
  lemma NoPassEnds(script: Script, w: World, calls: nat, k: Key)
    requires Placeable(w, k) && script(calls).answer == Served && script(calls + 1).answer == Served
    requires script(calls + 2).answer != Served || !script(calls + 3).reply.Vector?
    ensures var (w', _, pc') := Drive(script, w, calls, Fetch(k)); w' == w && pc' == Finish(k, Reconciled(true, 0))
  {
    hide Drive;
    PlacingStarts(script, w, calls, k);
    var f := Read(w, k);
    DriveStep(script, w, calls + 2, ListNodes(f));
    FromListingCalls(w, f, script(calls + 2), script(calls + 3));
    if script(calls + 2).answer != Served {
      DriveStopped(script, w, calls + 3, Finish(k, FAILURE));
    } else {
      DriveStep(script, w, calls + 3, QueryHealth(f, GpuNodes(w.nodes)));
      DriveStopped(script, w, calls + 4, Finish(k, FAILURE));
    }
  }

  /** What the decision finds in the listed labels of the healthy nodes. */
  function Room(nodes: seq<Node>, vec: seq<Sample>, spec: JobSpec): Option<int> {
    LeastDensity(HealthyGpuNodes(nodes, vec), spec.gpuCount)
  }

  /** The pass took the calls of a range, and missed one node for each of them that was refused. */
  ghost predicate PassedFrom(
    script: Script, w: World, from: nat, vec: seq<Sample>, synced: seq<Node>, n: nat, answers: Answers)
  {
    && from <= n && PartialPass(w.nodes, synced, w.pods, vec, answers)
    && CountMissed(StartSync(w.nodes, vec), answers) == Refusals(script, from, n)
  }

  /** The end of a reconcile that got as far as the decision, on the cluster it finds then. */
  ghost predicate Decided(
    end: (World, nat, Pc), w: World, k: Key, spec: JobSpec, room: Option<int>, answer: Answer)
  {
    if room.None? then end.0 == w && end.2 == Finish(k, Reconciled(false, 300))
    else
      match answer
      case Served =>
        end.0 == w.(pods := w.pods + [HpcPod(k, spec, room.value)]) && end.2 == Finish(k, Reconciled(false, 300))
      case Conflicted => end.0 == w && end.2 == Finish(k, Reconciled(false, 300))
      case Broken => end.0 == w && end.2 == Finish(k, Reconciled(true, 0))
  }

  /**
   With both, the pass patches the nodes but one for every refused call, and then the listed labels decide. No room: the
   job waits five minutes. Room: the pod for the least loaded candidate is created if that call is served, and the job
   waits as long; a conflict counts as done, any other refusal ends in error.
   */
  lemma {:induction false} PassDecides(script: Script, w: World, calls: nat, k: Key)
    returns (synced: seq<Node>, n: nat, answers: Answers)
    requires Placeable(w, k) && script(calls).answer == Served && script(calls + 1).answer == Served
    requires script(calls + 2).answer == Served && script(calls + 3).reply.Vector?
    ensures PassedFrom(script, w, calls + 4, script(calls + 3).reply.samples, synced, n, answers)
    ensures var spec := StoredJob(w, k).value.job.spec;
            Decided(Drive(script, w, calls, Fetch(k)), w.(nodes := synced), k, spec,
                    Room(w.nodes, script(calls + 3).reply.samples, spec), script(n).answer)
  {
    hide Drive, SyncNode;
    var f, vec := Read(w, k), script(calls + 3).reply.samples;
    PlacingStarts(script, w, calls, k);
    DriveStep(script, w, calls + 2, ListNodes(f));
    FromListingCalls(w, f, script(calls + 2), script(calls + 3));
    DriveStep(script, w, calls + 3, QueryHealth(f, GpuNodes(w.nodes)));
    synced, n, answers := AnyPassIsPartial(script, w, calls + 4, f, vec);
    DecisionEnds(script, w.(nodes := synced), n, f, HealthyGpuNodes(w.nodes, vec));
  }

  /** From the decision on. */
  lemma DecisionEnds(script: Script, w: World, n: nat, f: Fetched, healthy: seq<Node>)
    requires !PodExists(w, f.key)
    ensures var room := LeastDensity(healthy, f.job.spec.gpuCount);
            Decided(Drive(script, w, n, Decide(f, healthy)), w, f.key, f.job.spec, room, script(n).answer)
  {
    hide Drive, LeastDensity;
    PodsNamedFinds(w, f.key);
    var pc := Decide(f, healthy);
    if pc.Finish? {
      DriveStopped(script, w, n, pc);
    } else {
      DriveStep(script, w, n, pc);
      DriveStopped(script, Call(w, pc, script(n)).0, n + 1, Call(w, pc, script(n)).1);
    }
  }

  // ----- cleanups -----

  /**
   A Failed job: its pod is deleted, or is not there, and the job written once more, which changes nothing. If the
   deletion fails the pod stays; if that or the update fails, the reconcile ends in error.
   */
  lemma FailedJobTable(script: Script, w: World, calls: nat, k: Key)
    requires UpToDate(w, k) && StoredJob(w, k).Some? && StoredJob(w, k).value.job.phase == Failed
    requires script(calls).answer == Served
    ensures var end := Drive(script, w, calls, Fetch(k));
            && (script(calls + 1).answer != Served ==> end.0 == w && end.2 == Finish(k, Reconciled(true, 300)))
            && (script(calls + 1).answer == Served ==>
                  && end.0 == w.(pods := RemovePod(w.pods, k)) && !PodExists(end.0, k)
                  && end.2 == Finish(k, if script(calls + 2).answer == Served then Reconciled(false, 0)
                                        else Reconciled(true, 300)))
  {
    hide Drive, DropPod;
    var f, w' := Read(w, k), w.(pods := RemovePod(w.pods, k));
    DriveStep(script, w, calls, Fetch(k));
    DriveStep(script, w, calls + 1, DeleteFailed(f));
    if script(calls + 1).answer != Served {
      RefusedDrop(w, k, script(calls + 1).answer);
      DriveStopped(script, w, calls + 2, Finish(k, FAILURE_RECHECK));
    } else {
      FailedPodIsDeleted(w, f, script(calls + 1));
      DriveStep(script, w', calls + 2, SetPhase(f, Failed, DONE, FAILURE_RECHECK));
      DriveStopped(script, w', calls + 3, Call(w', SetPhase(f, Failed, DONE, FAILURE_RECHECK), script(calls + 2)).1);
    }
  }

  lemma RefusedDrop(w: World, k: Key, answer: Answer)
    requires answer != Served
    ensures DropPod(w, k, answer).Err? && DropPod(w, k, answer).error != NotFound
  {
  }

  /** Listing and deleting: an error with the pod in place, or on to what follows without it. */
  lemma CleanupTable(script: Script, w: World, calls: nat, k: Key, owner: Option<Fetched>)
    requires DistinctKeys(w.pods)
    ensures var end, gone := Drive(script, w, calls, ListPods(k, owner)), w.(pods := RemovePod(w.pods, k));
            && (script(calls).answer != Served ==> end == (w, calls + 1, Finish(k, Reconciled(true, 300))))
            && (script(calls).answer == Served && !PodExists(w, k) ==>
                  gone == w && end == Drive(script, w, calls + 1, AfterDeletes(k, owner, [])))
            && (script(calls).answer == Served && PodExists(w, k) && script(calls + 1).answer != Served ==>
                  end == (w, calls + 2, Finish(k, Reconciled(true, 300))))
            && (script(calls).answer == Served && PodExists(w, k) && script(calls + 1).answer == Served ==>
                  end == Drive(script, gone, calls + 2, AfterDeletes(k, owner, [])))
  {
    hide Drive, RemovePod;
    var left := PodsNamed(w.pods, k);
    PodsNamedFinds(w, k);
    ListFindsThePod(w.pods, k);
    DriveStep(script, w, calls, ListPods(k, owner));
    if script(calls).answer != Served {
      DriveStopped(script, w, calls + 1, Finish(k, FAILURE_RECHECK));
    } else if left == [] {
      RemoveAbsent(w.pods, k);
      assert w.(pods := w.pods) == w;
    } else {
      assert left[0] in left;
      assert left[1..] == [];
      DriveStep(script, w, calls + 1, DeletePods(k, owner, left));
      if script(calls + 1).answer != Served {
        DriveStopped(script, w, calls + 2, Finish(k, FAILURE_RECHECK));
      }
    }
  }

  /** A key without a job: the calls that fail, if any, leave its pod in place and end in error; else the pod goes. */
  lemma VanishedJobTable(script: Script, w: World, calls: nat, k: Key)
    requires UpToDate(w, k) && StoredJob(w, k).None? && DistinctKeys(w.pods) && script(calls).answer == Served
    ensures var end := Drive(script, w, calls, Fetch(k));
            var refused :=
              script(calls + 1).answer != Served || (PodExists(w, k) && script(calls + 2).answer != Served);
            && end.0 == (if refused then w else w.(pods := RemovePod(w.pods, k)))
            && end.2 == Finish(k, if refused then Reconciled(true, 300) else Reconciled(false, 0))
  {
    hide Drive, RemovePod;
    DriveStep(script, w, calls, Fetch(k));
    CleanupTable(script, w, calls + 1, k, None);
    forall w', n: nat {
      DriveStopped(script, w', n, Finish(k, DONE));
    }
  }

  /** The finalizers without the controller's, when that update is served; with the last one the object goes. */
  function Released(w: World, k: Key): World
    requires StoredJob(w, k).Some?
  {
    var job := StoredJob(w, k).value.job;
    var others := RemoveFinalizer(job.finalizers);
    if others == [] then w.(log := w.log + [Del(k)])
    else if others == job.finalizers then w
    else w.(log := w.log + [Put(k, job.(finalizers := others))])
  }

  /** A deleted job that is complete, or in a phase of no handler: cleaned up like a vanished one, then released. */
  lemma {:induction false} DeletedJobTable(script: Script, w: World, calls: nat, k: Key)
    requires UpToDate(w, k) && DistinctKeys(w.pods) && script(calls).answer == Served
    requires StoredJob(w, k).Some? && StoredJob(w, k).value.job.deleting
    requires StoredJob(w, k).value.job.phase !in {Unset, Pending, Running, Failed}
    ensures var end := Drive(script, w, calls, Fetch(k));
            var gone := w.(pods := RemovePod(w.pods, k));
            var refused :=
              script(calls + 1).answer != Served || (PodExists(w, k) && script(calls + 2).answer != Served);
            var kept := script(calls + if PodExists(w, k) then 3 else 2).answer != Served;
            && end.0 == (if refused then w else if kept then gone else Released(w, k).(pods := gone.pods))
            && end.2 == Finish(k, if refused || kept then Reconciled(true, 300) else Reconciled(false, 0))
  {
    hide Drive, RemovePod;
    var f, gone := Read(w, k), w.(pods := RemovePod(w.pods, k));
    DriveStep(script, w, calls, Fetch(k));
    CleanupTable(script, w, calls + 1, k, Some(f));
    forall n: nat
      ensures Drive(script, gone, n, DropFinalizer(f))
           == if script(n).answer == Served then (Released(w, k).(pods := gone.pods), n + 1, Finish(k, DONE))
              else (gone, n + 1, Finish(k, FAILURE_RECHECK))
    {
      ReleaseEnds(script, gone, n, k, f, w);
    }
  }

  lemma ReleaseEnds(script: Script, gone: World, n: nat, k: Key, f: Fetched, w: World)
    requires StoredJob(w, k).Some? && f == Read(w, k) && gone == w.(pods := gone.pods)
    requires StoredJob(w, k).value.job.deleting && StoredJob(w, k).value.job.phase != Unset
    ensures Drive(script, gone, n, DropFinalizer(f))
         == if script(n).answer == Served
            then (Released(w, k).(pods := gone.pods), n + 1, Finish(k, Reconciled(false, 0)))
            else (gone, n + 1, Finish(k, Reconciled(true, 300)))
  {
    hide Drive;
    DriveStep(script, gone, n, DropFinalizer(f));
    DriveStopped(script, Call(gone, DropFinalizer(f), script(n)).0, n + 1, Call(gone, DropFinalizer(f), script(n)).1);
  }

  // ----- calls that meet a changed cluster -----

  /** The store no longer holds the version that was fetched. */
  predicate MovedOn(w: World, f: Fetched) {
    StoredJob(w, f.key).None? || StoredJob(w, f.key).value.ver != f.ver
  }

  /**
   A write to a job that has been written or has gone since the fetch is refused whatever the server's answer: nothing
   changes, and the reconcile ends as if the call had failed.
   */
  lemma WriteOverChangedJobFails(
    w: World, f: Fetched, phase: Phase, ok: ReconcileResult, ko: ReconcileResult, c: Choice)
    requires MovedOn(w, f)
    ensures Call(w, SetPhase(f, phase, ok, ko), c) == (w, Finish(f.key, ko))
    ensures Call(w, DropFinalizer(f), c) == (w, Finish(f.key, Reconciled(true, 300)))
  {
  }

  /** A pod that goes between listing and deletion makes a cleanup end in error; a Failed job's counts as deleted. */
  lemma DeletingWhatIsGone(w: World, k: Key, owner: Option<Fetched>, left: seq<Pod>, f: Fetched, c: Choice)
    requires left != [] && left[0].key == k == f.key && !PodExists(w, k)
    ensures Call(w, DeletePods(k, owner, left), c) == (w, Finish(k, Reconciled(true, 300)))
    ensures c.answer == Served ==>
      Call(w, DeleteFailed(f), c) == (w, SetPhase(f, Failed, Reconciled(false, 0), Reconciled(true, 300)))
  {
    PodsNamedFinds(w, k);
  }
}
