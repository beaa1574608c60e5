/**
 What one reconcile of a Pending or Running job leaves in the store, as conditions on the cluster before it and on
 the answers of three calls: the fetch, the read of the pod and the status update.
 */
module JobOutcomes {
  import opened Attention
  import opened Finalizers
  import opened JobLog
  import opened KubeTypes
  import opened NodePatches
  import opened PodCreation
  import opened ReconcileProtocol
  import opened UndisturbedReconcile
  import opened Wrappers

  /** From the node listing on, a reconcile writes no job. */
  lemma {:induction false} PlacingKeepsLog(script: Script, w: World, calls: nat, pc: Pc)
    requires Placing(pc) || pc.Finish?
    ensures var (w', _, pc') := Drive(script, w, calls, pc); w'.log == w.log && w'.seen == w.seen && pc'.Finish?
    decreases Stage(pc), Left(pc)
  {
    if Stopped(pc) {
      DriveStopped(script, w, calls, pc);
    } else {
      var c := script(calls);
      CallProgresses(w, pc, c);
      PlacingGoesOn(w, pc, c);
      DriveStep(script, w, calls, pc);
      PlacingKeepsLog(script, Call(w, pc, c).0, calls + 1, Call(w, pc, c).1);
    }
  }

  lemma PlacingGoesOn(w: World, pc: Pc, c: Choice)
    requires Placing(pc)
    ensures var (w', pc') := Call(w, pc, c); w'.log == w.log && w'.seen == w.seen && (Placing(pc') || pc'.Finish?)
  {
  }

  /** A job the handlers of Pending and Running act on, read from an up-to-date cache, with its pod if it has one. */
  ghost predicate Active(w: World, k: Key) {
    && UpToDate(w, k)
    && StoredJob(w, k).Some? && StoredJob(w, k).value.job.phase in {Unset, Pending, Running}
  }

  ghost predicate PodIn(w: World, k: Key, phases: set<PodPhase>) {
    exists p | p in w.pods :: p.key == k && p.phase in phases
  }

  /** A served fetch hands the job to the read of its pod; a failed one ends the reconcile. */
  lemma AfterFetch(script: Script, w: World, calls: nat, k: Key)
    requires Active(w, k)
    ensures Drive(script, w, calls, Fetch(k))
         == if script(calls).answer != Served then (w, calls + 1, Finish(k, DONE))
            else Drive(script, w, calls + 2, AfterGetPod(Read(w, k), ReadPod(w, k, script(calls + 1).answer)))
  {
    hide Drive, ReadPod;
    DriveStep(script, w, calls, Fetch(k));
    if script(calls).answer != Served {
      DriveStopped(script, w, calls + 1, Finish(k, DONE));
    } else {
      DriveStep(script, w, calls + 1, GetPod(Read(w, k)));
    }
  }

  /** The status update of an up-to-date read is stored exactly when it is served. */
  lemma UpdateOfCurrent(
    script: Script, w: World, n: nat, k: Key, phase: Phase, ok: ReconcileResult, ko: ReconcileResult)
    requires Active(w, k)
    ensures var (w', _, pc') := Drive(script, w, n, SetPhase(Read(w, k), phase, ok, ko));
            var before := StoredJob(w, k).value.job;
            && StoredJob(w', k).Some?
            && StoredJob(w', k).value.job == (if script(n).answer == Served then before.(phase := phase) else before)
            && pc' == Finish(k, if script(n).answer == Served then ok else ko)
            && w'.pods == w.pods
  {
    hide Drive;
    var pc := SetPhase(Read(w, k), phase, ok, ko);
    DriveStep(script, w, n, pc);
    DriveStopped(script, Call(w, pc, script(n)).0, n + 1, Call(w, pc, script(n)).1);
  }

  /** A running pod makes the job Running, and the reconcile ends without a requeue; a Running job is not written. */
  lemma RunningPodMarksJob(script: Script, w: World, k: Key)
    requires Active(w, k) && PodsNamed(w.pods, k) != [] && PodsNamed(w.pods, k)[0].phase == PodRunning
    requires forall n: nat | n < 3 :: script(n).answer == Served
    ensures var (w', _, pc') := Drive(script, w, 0, Fetch(k));
            var job := StoredJob(w, k).value.job;
            && pc' == Finish(k, DONE)
            && w' == if job.phase == Running then w else w.(log := w.log + [Put(k, job.(phase := Running))])
  {
    hide Drive;
    AfterFetch(script, w, 0, k);
    var pc := SetPhase(Read(w, k), Running, DONE, FAILURE);
    DriveStep(script, w, 2, pc);
    DriveStopped(script, Call(w, pc, script(2)).0, 3, Finish(k, DONE));
  }

  /** A failed pod makes the job Failed, and the reconcile ends with an error. */
  lemma FailedPodMarksJob(script: Script, w: World, k: Key)
    requires Active(w, k) && PodsNamed(w.pods, k) != [] && PodsNamed(w.pods, k)[0].phase == PodFailed
    requires forall n: nat | n < 3 :: script(n).answer == Served
    ensures var (w', _, pc') := Drive(script, w, 0, Fetch(k));
            && pc' == Finish(k, FAILURE)
            && w' == w.(log := w.log + [Put(k, StoredJob(w, k).value.job.(phase := Failed))])
  {
    hide Drive;
    AfterFetch(script, w, 0, k);
    var pc := SetPhase(Read(w, k), Failed, FAILURE, FAILURE);
    DriveStep(script, w, 2, pc);
    DriveStopped(script, Call(w, pc, script(2)).0, 3, Finish(k, FAILURE));
  }

  /** The causes for which the code decides to fail the job after the fetch. */
  ghost predicate FailureCause(script: Script, w: World, calls: nat, k: Key)
    requires StoredJob(w, k).Some?
  {
    var job := StoredJob(w, k).value.job;
    || script(calls + 1).answer != Served
    || PodIn(w, k, {PodFailed})
    || (!PodExists(w, k) && job.phase != Running && (job.spec.gpuCount <= 0 || job.spec.image == ""))
  }

  /**
   A reconcile stores Failed exactly when the fetch and the status update are served and the read of the pod failed, or
   the pod failed, or there is no pod for a waiting job whose spec is invalid.
   */
  lemma FailedIsStoredExactly(script: Script, w: World, calls: nat, k: Key)
    requires Active(w, k) && DistinctKeys(w.pods)
    ensures var w' := Drive(script, w, calls, Fetch(k)).0;
            && StoredJob(w', k).Some?
            && (StoredJob(w', k).value.job.phase == Failed <==>
                  && script(calls).answer == Served && script(calls + 2).answer == Served
                  && FailureCause(script, w, calls, k))
  {
    hide Drive;
    AfterFetch(script, w, calls, k);
    if script(calls).answer == Served {
      var f, reply := Read(w, k), ReadPod(w, k, script(calls + 1).answer);
      ReadFindsThePod(w, k, script(calls + 1).answer);
      assert reply.Ok? ==> (PodIn(w, k, {PodFailed}) <==> reply.value.phase == PodFailed);
      var pc := AfterGetPod(f, reply);
      if pc.SetPhase? {
        UpdateOfCurrent(script, w, calls + 2, k, pc.phase, pc.ok, pc.ko);
      } else {
        PlacingKeepsLog(script, w, calls + 2, pc);
      }
    }
  }

  /**
   A Running job that the reconcile leaves Running, without asking to come back, had a pod that was neither failed nor
   succeeded nor missing; and exactly then, given the calls are served.
   */
  lemma RunningIsLeftExactly(script: Script, w: World, calls: nat, k: Key)
    requires Active(w, k) && DistinctKeys(w.pods)
    requires StoredJob(w, k).value.job.phase == Running && script(calls).answer == Served
    ensures var (w', _, pc') := Drive(script, w, calls, Fetch(k));
            && StoredJob(w', k).Some?
            && (pc' == Finish(k, DONE) && StoredJob(w', k).value.job.phase == Running <==>
                  && script(calls + 1).answer == Served
                  && (|| PodIn(w, k, {PodPending, PodUnknown})
                      || (PodIn(w, k, {PodRunning}) && script(calls + 2).answer == Served)))
  {
    hide Drive;
    AfterFetch(script, w, calls, k);
    var f, reply := Read(w, k), ReadPod(w, k, script(calls + 1).answer);
    ReadFindsThePod(w, k, script(calls + 1).answer);
    assert reply.Ok? ==> forall phases :: PodIn(w, k, phases) <==> reply.value.phase in phases;
    var pc := AfterGetPod(f, reply);
    if pc.SetPhase? {
      UpdateOfCurrent(script, w, calls + 2, k, pc.phase, pc.ok, pc.ko);
    } else {
      DriveStopped(script, w, calls + 2, pc);
    }
  }

  /**
   One failed read of the pod fails the job for good, whatever its spec and its pod: the update is stored, and
   StoredTerminalPhaseAbsorbs keeps it.
   */
  lemma OneFailedPodReadFailsTheJob(script: Script, w: World, calls: nat, k: Key)
    requires Active(w, k)
    requires script(calls).answer == Served && script(calls + 1).answer != Served && script(calls + 2).answer == Served
    ensures var (w', _, pc') := Drive(script, w, calls, Fetch(k));
            && pc' == Finish(k, FAILURE) && StoredJob(w', k).Some? && StoredJob(w', k).value.job.phase == Failed
            && w'.pods == w.pods
  {
    AfterFetch(script, w, calls, k);
    UpdateOfCurrent(script, w, calls + 2, k, Failed, FAILURE, FAILURE);
  }

  // ----- cleanups -----

  ghost predicate AllServed(script: Script) {
    forall n: nat :: script(n).answer == Served
  }

  lemma {:induction false} RemoveAbsent(pods: seq<Pod>, k: Key)
    requires PodsNamed(pods, k) == []
    ensures RemovePod(pods, k) == pods
  {
    if pods != [] {
      assert pods[0].key != k;
      RemoveAbsent(pods[1..], k);
    }
  }

  /** The deletion of the listed pods, of which there is at most one. */
  lemma DeletesThePod(script: Script, w: World, calls: nat, k: Key, owner: Option<Fetched>)
    requires AllServed(script) && DistinctKeys(w.pods)
    ensures exists n: nat ::
      Drive(script, w, calls, ListPods(k, owner))
      == Drive(script, w.(pods := RemovePod(w.pods, k)), n, AfterDeletes(k, owner, []))
  {
    hide Drive;
    var left := PodsNamed(w.pods, k);
    DriveStep(script, w, calls, ListPods(k, owner));
    ListFindsThePod(w.pods, k);
    if left == [] {
      RemoveAbsent(w.pods, k);
      assert w.(pods := w.pods) == w;
    } else {
      assert left[0] in left;
      assert left[1..] == [];
      DriveStep(script, w, calls + 1, DeletePods(k, owner, left));
    }
  }

  /** A served cleanup of a key without a job leaves no pod of the key, and ends for good. */
  lemma CleanupCompletes(script: Script, w: World, calls: nat, k: Key)
    requires AllServed(script) && UpToDate(w, k) && StoredJob(w, k).None? && DistinctKeys(w.pods)
    ensures var (w', _, pc') := Drive(script, w, calls, Fetch(k));
            pc' == Finish(k, DONE) && w' == w.(pods := RemovePod(w.pods, k)) && !PodExists(w', k)
  {
    hide Drive;
    DriveStep(script, w, calls, Fetch(k));
    DeletesThePod(script, w, calls + 1, k, None);
    var w' := w.(pods := RemovePod(w.pods, k));
    forall n: nat {
      DriveStopped(script, w', n, Finish(k, DONE));
    }
  }

  lemma FailedPodIsDeleted(w: World, f: Fetched, c: Choice)
    requires c.answer == Served
    ensures Call(w, DeleteFailed(f), c)
         == (w.(pods := RemovePod(w.pods, f.key)), SetPhase(f, Failed, DONE, FAILURE_RECHECK))
  {
    if PodsNamed(w.pods, f.key) == [] {
      RemoveAbsent(w.pods, f.key);
      assert w.(pods := w.pods) == w;
    }
  }

  /** A served reconcile of a Failed job does the same, and leaves the job as it is. */
  lemma FailedCleanupCompletes(script: Script, w: World, calls: nat, k: Key)
    requires AllServed(script) && UpToDate(w, k)
    requires StoredJob(w, k).Some? && StoredJob(w, k).value.job.phase == Failed
    ensures var (w', _, pc') := Drive(script, w, calls, Fetch(k));
            pc' == Finish(k, DONE) && w' == w.(pods := RemovePod(w.pods, k)) && !PodExists(w', k)
  {
    hide Drive, DropPod;
    var f, w' := Read(w, k), w.(pods := RemovePod(w.pods, k));
    FailedPodIsDeleted(w, f, script(calls + 1));
    DriveStep(script, w, calls, Fetch(k));
    DriveStep(script, w, calls + 1, DeleteFailed(f));
    DriveStep(script, w', calls + 2, SetPhase(f, Failed, DONE, FAILURE_RECHECK));
    DriveStopped(script, w', calls + 3, Finish(k, DONE));
  }

  /**
   A served reconcile of a completed job marked for deletion removes its pod and the controller's finalizer, and the
   object with it exactly when no other finalizer is left.
   */
  lemma DeletionCompletes(script: Script, w: World, calls: nat, k: Key)
    requires AllServed(script) && UpToDate(w, k) && DistinctKeys(w.pods)
    requires StoredJob(w, k).Some? && StoredJob(w, k).value.job.phase == Complete && StoredJob(w, k).value.job.deleting
    ensures var (w', _, pc') := Drive(script, w, calls, Fetch(k));
            var job, others := StoredJob(w, k).value.job, RemoveFinalizer(StoredJob(w, k).value.job.finalizers);
            && pc' == Finish(k, DONE) && !PodExists(w', k) && w'.pods == RemovePod(w.pods, k)
            && (StoredJob(w', k).None? <==> others == [])
            && (others != [] ==> StoredJob(w', k).value.job == job.(finalizers := others))
  {
    hide Drive;
    var f, w1 := Read(w, k), w.(pods := RemovePod(w.pods, k));
    DriveStep(script, w, calls, Fetch(k));
    DeletesThePod(script, w, calls + 1, k, Some(f));
    forall n: nat
      ensures Drive(script, w1, n, DropFinalizer(f))
           == (Call(w1, DropFinalizer(f), script(n)).0, n + 1, Finish(k, DONE))
      ensures Call(w1, DropFinalizer(f), script(n)) == Call(w1, DropFinalizer(f), script(0))
    {
      DriveStep(script, w1, n, DropFinalizer(f));
      DriveStopped(script, Call(w1, DropFinalizer(f), script(n)).0, n + 1, Finish(k, DONE));
    }
  }
}
