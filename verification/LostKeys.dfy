/**
 Runs from a cluster without jobs: one that ends with an orphaned pod nothing will bring back, one that ends with a job
 nobody places before the next resync, one that ends so with a Running job whose pod is gone, and one in which a Failed
 job loses its pod.
 */
module LostKeys {
  import opened Attention
  import opened Capacity
  import opened ControllerSystem
  import opened Decimal
  import opened JobLog
  import opened JobOutcomes
  import opened KubeTypes
  import opened NodePatches
  import opened PhaseProtocol
  import opened Progress
  import opened PrometheusClient
  import opened ReconcileProtocol
  import opened UndisturbedReconcile
  import opened Wrappers

  /** Some run ends in the state. */
  ghost predicate Reachable(s: State) {
    exists states, steps :: IsRun(states, steps) && states[|steps|] == s
  }

  /** A run with the step as its last. */
  lemma RunThrough(s: State, step: Step) returns (states: seq<State>, steps: seq<Step>)
    requires Reachable(s) && Enabled(s, step)
    ensures IsRun(states, steps) && |steps| > 0
    ensures states[|steps| - 1] == s && steps[|steps| - 1] == step && states[|steps|] == Next(s, step)
  {
    hide Init, Enabled, Next;
    var before, taken :| IsRun(before, taken) && before[|taken|] == s;
    states, steps := before + [Next(s, step)], taken + [step];
    forall i | 0 <= i < |steps|
      ensures Enabled(states[i], steps[i]) && states[i + 1] == Next(states[i], steps[i])
    {
      if i < |taken| {
        assert states[i] == before[i] && steps[i] == taken[i] && states[i + 1] == before[i + 1];
      }
    }
  }

  lemma ReachStep(s: State, step: Step)
    requires Reachable(s) && Enabled(s, step)
    ensures Reachable(Next(s, step))
  {
    var states, steps := RunThrough(s, step);
    assert states[|steps|] == Next(s, step);
  }

  lemma {:induction false} ReachAlone(s: State, script: Script, calls: nat)
    requires Reachable(s)
    ensures Reachable(Alone(s, script, calls))
    decreases Stage(s.pc), Left(s.pc)
  {
    hide Reachable;
    if !Stopped(s.pc) {
      CallProgresses(s.w, s.pc, script(calls));
      ReachStep(s, Advance(script(calls)));
      ReachAlone(Next(s, Advance(script(calls))), script, calls + 1);
    }
  }

  /** A cluster before its first job: unlabelled nodes of different names. */
  ghost predicate NewCluster(nodes: seq<Node>) {
    && DistinctNames(nodes)
    && forall n | n in nodes :: Label(n, HIGH_DENSITY_AFFINITY_LABEL).None? && AllocatableGpus(n) <= MAX_INT64
  }

  function FirstJob(spec: JobSpec): Job {
    Job(0, spec, Unset, false, [])
  }

  /** A user creates the first job, the event is delivered, and the worker takes the key. */
  lemma FirstJobIsTaken(nodes: seq<Node>, k: Key, spec: JobSpec)
    requires NewCluster(nodes)
    ensures Reachable(State(World(nodes, [], [Put(k, FirstJob(spec))], 1), {}, {}, Fetch(k)))
  {
    var s := State(World(nodes, [], [], 0), {}, {}, Idle);
    var none: seq<Step> := [];
    assert IsRun([s], none) && [s][|none|] == s;
    var created := Next(s, UserCreate(k, spec, []));
    var delivered := Next(created, Deliver);
    ReachStep(s, UserCreate(k, spec, []));
    ReachStep(created, Deliver);
    ReachStep(delivered, Take(k));
    assert Next(delivered, Take(k)) == State(World(nodes, [], [Put(k, FirstJob(spec))], 1), {}, {}, Fetch(k));
  }

  /** The worker finishes with a delay, the delay passes, and it takes the key again. */
  lemma ComesBack(s: State, k: Key)
    requires Reachable(s) && s.pc == Finish(k, RECHECK) && s.dirty == {} && s.delayed == {}
    ensures Reachable(s.(pc := Fetch(k)))
  {
    hide Reachable;
    var released := Next(s, Release);
    var due := Next(released, Timer(k));
    ReachStep(s, Release);
    ReachStep(released, Timer(k));
    ReachStep(due, Take(k));
    assert Next(due, Take(k)) == s.(pc := Fetch(k));
  }

  /** Then the job is deleted while the key is delayed, and the worker takes the key for the cleanup. */
  lemma DeletedAndTaken(s: State, k: Key, job: Job)
    requires Reachable(s) && s.pc == Finish(k, RECHECK) && s.dirty == {} && s.delayed == {}
    requires s.w.log == [Put(k, job)] && s.w.seen == 1 && job.finalizers == []
    ensures Reachable(s.(w := s.w.(log := [Put(k, job), Del(k)], seen := 2), pc := Fetch(k)))
  {
    hide Reachable;
    var released := Next(s, Release);
    var deleted := Next(released, UserDelete(k));
    var delivered := Next(deleted, Deliver);
    var due := Next(delivered, Timer(k));
    ReachStep(s, Release);
    ReachStep(released, UserDelete(k));
    assert deleted.w.log == [Put(k, job), Del(k)];
    ReachStep(deleted, Deliver);
    ReachStep(delivered, Timer(k));
    ReachStep(due, Take(k));
    assert Next(due, Take(k)) == s.(w := s.w.(log := [Put(k, job), Del(k)], seen := 2), pc := Fetch(k));
  }

  /** An undisturbed reconcile, as part of a run. */
  lemma ReconcileIsReached(s: State, script: Script, w': World, pc': Pc)
    requires Reachable(s)
    requires Drive(script, s.w, 0, s.pc).0 == w' && Drive(script, s.w, 0, s.pc).2 == pc'
    ensures Reachable(s.(w := w', pc := pc'))
  {
    hide Reachable, Drive, Alone;
    ReachAlone(s, script, 0);
    DriveIsWorkerAlone(s, script, 0);
  }

  /** The last step of both runs: the fetch breaks, and the worker drops the key. */
  lemma DroppedKeyIsAbandoned(s: State, k: Key, broken: Choice)
    requires Reachable(s) && s.pc == Fetch(k) && s.dirty == {} && s.delayed == {} && s.w.seen == |s.w.log|
    requires broken.answer != Served
    ensures var dropped := s.(pc := Finish(k, DONE));
            && Enabled(s, Advance(broken)) && dropped == Next(s, Advance(broken))
            && Reachable(dropped) && Abandoned(dropped, k)
  {
    hide Reachable;
    ReachStep(s, Advance(broken));
  }

  /** The first job of a new cluster is given its pod in two undisturbed reconciles, if it fits anywhere. */
  lemma TwoReconcilesPlace(
    nodes: seq<Node>, vec: seq<Sample>, k: Key, spec: JobSpec, served: Script) returns (placed: State)
    requires NewCluster(nodes) && ValidSpec(spec) && Calm(served, vec)
    requires exists n | n in nodes :: TrulyFits(n, [], vec, spec.gpuCount)
    ensures Reachable(placed) && placed.pc == Finish(k, RECHECK) && placed.dirty == {} && placed.delayed == {}
    ensures placed.w.log == [Put(k, FirstJob(spec))] && placed.w.seen == 1
    ensures exists inUse :: placed.w.pods == [HpcPod(k, spec, inUse)]
  {
    hide Reachable, Drive, TrulyFits;
    var w := World(nodes, [], [Put(k, FirstJob(spec))], 1);
    FirstJobIsTaken(nodes, k, spec);
    TwoPassCompleteness(served, served, vec, w, k, spec);
    var w1 := Drive(served, w, 0, Fetch(k)).0;
    var w2 := Drive(served, w1, 0, Fetch(k)).0;
    ReconcileIsReached(State(w, {}, {}, Fetch(k)), served, w1, Finish(k, RECHECK));
    ComesBack(State(w1, {}, {}, Finish(k, RECHECK)), k);
    ReconcileIsReached(State(w1, {}, {}, Fetch(k)), served, w2, Finish(k, RECHECK));
    placed := State(w2, {}, {}, Finish(k, RECHECK));
    var inUse :| w2.pods == w.pods + [HpcPod(k, spec, inUse)];
    assert w.pods + [HpcPod(k, spec, inUse)] == [HpcPod(k, spec, inUse)];
  }

  /**
   On every new cluster on which the first job fits somewhere there is a run, with a single call that fails, that ends
   with the job's pod orphaned and nothing to bring its key back.
   */
  lemma RunLosesOrphan(nodes: seq<Node>, vec: seq<Sample>, k: Key, spec: JobSpec, broken: Choice) returns (lost: State)
    requires NewCluster(nodes) && ValidSpec(spec) && broken.answer != Served
    requires exists n | n in nodes :: TrulyFits(n, [], vec, spec.gpuCount)
    ensures Reachable(lost) && LostOrphan(lost, k)
  {
    hide Reachable, TrulyFits;
    var served: Script := n => Choice(Served, Vector(vec), false);
    var placed := TwoReconcilesPlace(nodes, vec, k, spec, served);
    DeletedAndTaken(placed, k, FirstJob(spec));
    var taken := placed.(w := placed.w.(log := [Put(k, FirstJob(spec)), Del(k)], seen := 2), pc := Fetch(k));
    DroppedKeyIsAbandoned(taken, k, broken);
    lost := taken.(pc := Finish(k, DONE));
    assert lost.w.pods[0] in lost.w.pods;
  }

  /** On every new cluster there is a run, with a single call that fails, that ends with a job nobody will place. */
  lemma RunLosesJob(nodes: seq<Node>, k: Key, spec: JobSpec, broken: Choice) returns (lost: State)
    requires NewCluster(nodes) && broken.answer != Served
    ensures Reachable(lost) && LostJob(lost, k)
  {
    hide Reachable;
    FirstJobIsTaken(nodes, k, spec);
    var taken := State(World(nodes, [], [Put(k, FirstJob(spec))], 1), {}, {}, Fetch(k));
    DroppedKeyIsAbandoned(taken, k, broken);
    lost := taken.(pc := Finish(k, DONE));
  }

  /** The one pod changes its phase, and the worker takes the key again after the delay. */
  lemma PodTurns(placed: State, k: Key, pod: Pod, phase: PodPhase)
    requires Reachable(placed) && placed.pc == Finish(k, RECHECK) && placed.dirty == {} && placed.delayed == {}
    requires placed.w.pods == [pod]
    ensures Reachable(placed.(w := placed.w.(pods := [pod.(phase := phase)]), pc := Fetch(k)))
  {
    hide Reachable;
    var turned := Next(placed, PodMoves(0, phase));
    ReachStep(placed, PodMoves(0, phase));
    assert turned.w.pods == [pod.(phase := phase)];
    ComesBack(turned, k);
  }

  /** The pod of the placed job starts, and two reconciles later the job is Running and its key at rest. */
  lemma RunsAndRests(placed: State, k: Key, spec: JobSpec, pod: Pod, served: Script, vec: seq<Sample>)
    returns (resting: State)
    requires Reachable(placed) && placed.pc == Finish(k, RECHECK) && placed.dirty == {} && placed.delayed == {}
    requires placed.w.log == [Put(k, FirstJob(spec))] && placed.w.seen == 1
    requires placed.w.pods == [pod] && pod.key == k && Calm(served, vec)
    ensures Reachable(resting) && Inv(resting) && Abandoned(resting, k)
    ensures StoredJob(resting.w, k) == Some(Stored(FirstJob(spec).(phase := Running), 1))
  {
    hide Reachable, Drive, Inv;
    var started := placed.(w := placed.w.(pods := [pod.(phase := PodRunning)]));
    PodTurns(placed, k, pod, PodRunning);
    var job := FirstJob(spec).(phase := Running);
    var marked := started.w.(log := [Put(k, FirstJob(spec)), Put(k, job)]);
    RunningPodMarksJob(served, started.w, k);
    ReconcileIsReached(started.(pc := Fetch(k)), served, marked, Finish(k, DONE));
    NoticesMark(started.(w := marked, pc := Finish(k, DONE)), k, DONE);
    var synced := marked.(seen := 2);
    RunningPodMarksJob(served, synced, k);
    ReconcileIsReached(started.(w := synced, pc := Fetch(k)), served, synced, Finish(k, DONE));
    resting := started.(w := synced, pc := Finish(k, DONE));
    ReachableInv(resting);
  }

  /** The event of the worker's own write brings the key back once. */
  lemma NoticesMark(s: State, k: Key, result: ReconcileResult)
    requires Reachable(s) && s.pc == Finish(k, result) && s.dirty == {} && s.delayed == {}
    requires s.w.seen + 1 == |s.w.log| && s.w.log[s.w.seen].key == k
    ensures var delayed := if Requeues(result) then {k} else {};
            Reachable(s.(w := s.w.(seen := s.w.seen + 1), delayed := delayed, pc := Fetch(k)))
  {
    hide Reachable;
    var released := Next(s, Release);
    var delivered := Next(released, Deliver);
    var taken := Next(delivered, Take(k));
    ReachStep(s, Release);
    ReachStep(released, Deliver);
    ReachStep(delivered, Take(k));
    assert taken.dirty == {} && taken.delayed == if Requeues(result) then {k} else {};
  }

  lemma ReachableInv(s: State)
    requires Reachable(s)
    ensures Inv(s)
  {
    hide Init, Enabled, Next, Inv;
    var states, steps :| IsRun(states, steps) && states[|steps|] == s;
    InvAlways(states, steps, |steps|);
  }

  /** Without any failure at all there is a run that ends with a Running job whose pod is gone, unnoticed. */
  lemma RunStrandsJob(nodes: seq<Node>, vec: seq<Sample>, k: Key, spec: JobSpec) returns (stranded: State)
    requires NewCluster(nodes) && ValidSpec(spec)
    requires exists n | n in nodes :: TrulyFits(n, [], vec, spec.gpuCount)
    ensures Reachable(stranded) && Stranded(stranded, k)
  {
    hide Reachable, TrulyFits, Inv, Abandoned;
    var served: Script := n => Choice(Served, Vector(vec), false);
    var placed := TwoReconcilesPlace(nodes, vec, k, spec, served);
    var inUse :| placed.w.pods == [HpcPod(k, spec, inUse)];
    var resting := RunsAndRests(placed, k, spec, HpcPod(k, spec, inUse), served, vec);
    StepKeepsAbandoned(resting, PodGone(k), k);
    ReachStep(resting, PodGone(k));
    stranded := Next(resting, PodGone(k));
  }

  /** One healthy GPU node that is large enough makes such a cluster. */
  lemma OneNodeIsEnough(name: string, spec: JobSpec) returns (node: Node, vec: seq<Sample>)
    requires ValidSpec(spec)
    ensures NewCluster([node]) && node.name == name && TrulyFits(node, [], vec, spec.gpuCount)
  {
    AtoiOfItoa(1);
    LabelsDiffer();
    node := Node(name, Some(map[GPU_NODE_LABEL_INDICATOR := Itoa(1)]), [], map[GPU_CORES_CAPACITY := spec.gpuCount]);
    vec := [Sample(name, "0", GpuTemp, 50.0)];
    assert vec[0] in vec;
    assert LastValue(vec, name, "0", GpuTemp) == Some(50.0);
  }

  /** So for every job with a valid spec each of the losses happens in some run, */
  lemma KeysAreLostInRuns(k: Key, spec: JobSpec, broken: Choice)
    requires ValidSpec(spec) && broken.answer != Served
    ensures exists s :: Reachable(s) && LostOrphan(s, k)
    ensures exists s :: Reachable(s) && LostJob(s, k)
    ensures exists s :: Reachable(s) && Stranded(s, k)
  {
    hide Reachable, LostOrphan, LostJob, Stranded;
    var node, vec := OneNodeIsEnough("gpu-1", spec);
    assert node in [node];
    var _ := RunLosesOrphan([node], vec, k, spec, broken);
    var _ := RunLosesJob([node], k, spec, broken);
    var _ := RunStrandsJob([node], vec, k, spec);
  }

  // ----- a Failed job settles -----

  /** The pod of the placed job fails; the job becomes Failed, and the event of that write brings its key back. */
  lemma FailsAndComesBack(placed: State, k: Key, spec: JobSpec, pod: Pod, served: Script, vec: seq<Sample>)
    returns (failed: State)
    requires Reachable(placed) && placed.pc == Finish(k, RECHECK) && placed.dirty == {} && placed.delayed == {}
    requires placed.w.log == [Put(k, FirstJob(spec))] && placed.w.seen == 1
    requires placed.w.pods == [pod] && pod.key == k && Calm(served, vec)
    ensures Reachable(failed) && failed.pc == Fetch(k) && UpToDate(failed.w, k) && PodExists(failed.w, k)
    ensures StoredJob(failed.w, k) == Some(Stored(FirstJob(spec).(phase := Failed), 1))
  {
    hide Reachable, Drive;
    var turned := placed.(w := placed.w.(pods := [pod.(phase := PodFailed)]), pc := Fetch(k));
    PodTurns(placed, k, pod, PodFailed);
    var marked := turned.w.(log := [Put(k, FirstJob(spec)), Put(k, FirstJob(spec).(phase := Failed))]);
    FailedPodMarksJob(served, turned.w, k);
    ReconcileIsReached(turned, served, marked, Finish(k, FAILURE));
    NoticesMark(turned.(w := marked, pc := Finish(k, FAILURE)), k, FAILURE);
    failed := turned.(w := marked.(seen := 2), delayed := {k}, pc := Fetch(k));
    assert failed.w.pods[0] in failed.w.pods;
  }

  /** The step FailedPodNeverReturns starts from: the error-free end of the reconcile of a Failed job that lives. */
  ghost predicate Settles(states: seq<State>, steps: seq<Step>, i: nat, k: Key)
    requires i < |steps| < |states|
  {
    && states[i].pc.SetPhase? && states[i].pc.f.key == k && states[i].pc.f.job.phase == Failed && steps[i].Advance?
    && states[i + 1].pc == Finish(k, DONE) && Lives(states[i + 1].w, k, states[i].pc.f.job.uid)
  }

  /** From where a Failed job has been taken, a served reconcile takes that step and leaves the job without a pod. */
  lemma FailedJobSettles(failed: State, k: Key) returns (states: seq<State>, steps: seq<Step>)
    requires Reachable(failed) && failed.pc == Fetch(k) && UpToDate(failed.w, k)
    requires StoredJob(failed.w, k).Some? && StoredJob(failed.w, k).value.job.phase == Failed
    ensures IsRun(states, steps) && |steps| > 0 && Settles(states, steps, |steps| - 1, k)
    ensures !PodExists(states[|steps|].w, k)
  {
    hide Reachable, Init, IsRun, Lookup;
    var step, f := Advance(SERVED), Read(failed.w, k);
    var fetched := Next(failed, step);
    var deleted := Next(fetched, step);
    ReachStep(failed, step);
    ReachStep(fetched, step);
    PodsNamedFinds(failed.w, k);
    assert deleted.pc == SetPhase(f, Failed, DONE, FAILURE_RECHECK) && !PodExists(deleted.w, k);
    states, steps := RunThrough(deleted, step);
  }

  /** and so does the cleanup of a Failed job with its pod. */
  lemma FailedJobsSettleInRuns(k: Key, spec: JobSpec) returns (states: seq<State>, steps: seq<Step>)
    requires ValidSpec(spec)
    ensures IsRun(states, steps) && |steps| > 0 && Settles(states, steps, |steps| - 1, k)
    ensures !PodExists(states[|steps|].w, k)
  {
    hide Reachable, IsRun, Settles;
    var node, vec := OneNodeIsEnough("gpu-1", spec);
    assert node in [node];
    var served: Script := n => Choice(Served, Vector(vec), false);
    var placed := TwoReconcilesPlace([node], vec, k, spec, served);
    var inUse :| placed.w.pods == [HpcPod(k, spec, inUse)];
    var failed := FailsAndComesBack(placed, k, spec, HpcPod(k, spec, inUse), served, vec);
    states, steps := FailedJobSettles(failed, k);
  }
}
