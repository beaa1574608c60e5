/**
 What one reconcile, and two in a row, achieve when nothing else happens in between.
 `Reconcile` in HPCJobController is proved equal to `Drive` from `Fetch`, so these are facts about it.
 */
module UndisturbedReconcile {
  import opened Attention
  import opened Capacity
  import opened ControllerSystem
  import opened Decimal
  import opened GpuAllocations
  import opened GpuNodeDiscovery
  import opened KubeTypes
  import opened NodePatches
  import opened PrometheusClient
  import opened ReconcileProtocol
  import opened Wrappers

  // ----- a reconcile is a piece of a run -----

  /** The system with only the worker moving. */
  ghost function Alone(s: State, script: Script, calls: nat): State
    decreases Stage(s.pc), Left(s.pc)
  {
    if Stopped(s.pc) then s
    else
      CallProgresses(s.w, s.pc, script(calls));
      Alone(Next(s, Advance(script(calls))), script, calls + 1)
  }

  /** The undisturbed reconcile is what the interleaved system does when only the worker moves. */
  lemma {:induction false} DriveIsWorkerAlone(s: State, script: Script, calls: nat)
    ensures var (w', _, pc') := Drive(script, s.w, calls, s.pc);
            Alone(s, script, calls) == s.(w := w', pc := pc')
    decreases Stage(s.pc), Left(s.pc)
  {
    if !Stopped(s.pc) {
      CallProgresses(s.w, s.pc, script(calls));
      DriveIsWorkerAlone(Next(s, Advance(script(calls))), script, calls + 1);
    }
  }

  // ----- no Pending job and no orphan is dropped -----

  /** The store holds what was fetched, or nothing when nothing was found. */
  ghost predicate Current(w: World, pc: Pc) {
    && (FetchedOf(pc).Some? ==>
          var f := FetchedOf(pc).value;
          var st := StoredJob(w, f.key);
          st.Some? && st.value.ver == f.ver && f.job == Localised(st.value.job))
    && ((pc.ListPods? || pc.DeletePods?) && pc.owner.None? ==> StoredJob(w, pc.key).None?)
    && (pc.DropFinalizer? ==> !PodExists(w, pc.f.key))
  }

  ghost predicate NeedsWork(w: World, k: Key) {
    Awaiting(w, k) || Orphan(w, k)
  }

  /** A finished reconcile asks to come back if the key still needs it. */
  ghost predicate Tended(w: World, pc: Pc) {
    Shape(pc) && Current(w, pc) && (pc.Finish? && NeedsWork(w, pc.key) ==> Requeues(pc.result))
  }

  lemma StatusUpdateTended(w: World, pc: Pc, c: Choice)
    requires Tended(w, pc) && pc.SetPhase?
    ensures Tended(Call(w, pc, c).0, Call(w, pc, c).1)
  {
  }

  lemma ReleaseTended(w: World, pc: Pc, c: Choice)
    requires Tended(w, pc) && pc.DropFinalizer?
    ensures Tended(Call(w, pc, c).0, Call(w, pc, c).1)
  {
  }

  lemma CleanupTended(w: World, pc: Pc, c: Choice)
    requires Tended(w, pc) && (pc.ListPods? || pc.DeletePods?)
    ensures Tended(Call(w, pc, c).0, Call(w, pc, c).1)
  {
    hide RestoreStep, IsolateStep, UpdateStatus, UpdateFinalizers, PodsNamed;
    CallKeepsShape(w, pc, c);
    PodsNamedFinds(w, pc.key);
    if pc.DeletePods? {
      assert pc.left[0] in pc.left;
    }
  }

  /** The cache shows the key as it is stored, whatever other events are under way. */
  ghost predicate UpToDate(w: World, k: Key) {
    ValidWorld(w) && CachedJob(w, k) == StoredJob(w, k)
  }

  lemma FetchTended(w: World, k: Key, c: Choice)
    requires UpToDate(w, k) && c.answer == Served
    ensures Tended(Call(w, Fetch(k), c).0, Call(w, Fetch(k), c).1)
  {
    CallKeepsShape(w, Fetch(k), c);
  }

  lemma ReadingTended(w: World, pc: Pc, c: Choice)
    requires Tended(w, pc) && (pc.GetPod? || pc.DeleteFailed?)
    ensures Tended(Call(w, pc, c).0, Call(w, pc, c).1)
  {
    hide PodsNamed, RemovePod;
    CallKeepsShape(w, pc, c);
    CallKeepsFetched(w, pc, c);
  }

  lemma PlacingTended(w: World, pc: Pc, c: Choice)
    requires Tended(w, pc) && (pc.ListNodes? || pc.QueryHealth? || pc.Sync? || pc.CreatePod?)
    ensures Tended(Call(w, pc, c).0, Call(w, pc, c).1)
  {
    hide PodsNamed, RestoreStep, IsolateStep;
    CallKeepsShape(w, pc, c);
    CallKeepsFetched(w, pc, c);
  }

  lemma CallKeepsTended(w: World, pc: Pc, c: Choice)
    requires Tended(w, pc) && !pc.Fetch?
    ensures Tended(Call(w, pc, c).0, Call(w, pc, c).1)
  {
    hide Call, Tended;
    if pc.SetPhase? {
      StatusUpdateTended(w, pc, c);
    } else if pc.DropFinalizer? {
      ReleaseTended(w, pc, c);
    } else if pc.ListPods? || pc.DeletePods? {
      CleanupTended(w, pc, c);
    } else if pc.GetPod? || pc.DeleteFailed? {
      ReadingTended(w, pc, c);
    } else if Stopped(pc) {
      StoppedCall(w, pc, c);
    } else {
      PlacingTended(w, pc, c);
    }
  }

  lemma StoppedCall(w: World, pc: Pc, c: Choice)
    requires Stopped(pc)
    ensures Call(w, pc, c) == (w, pc)
  {
  }

  lemma CallKeepsKey(w: World, pc: Pc, c: Choice)
    requires !Stopped(pc) && (FetchedOf(pc).Some? ==> KeyOf(pc) == Some(FetchedOf(pc).value.key))
    ensures var pc' := Call(w, pc, c).1; KeyOf(pc') == KeyOf(pc) && !pc'.Fetch? && !pc'.Idle?
  {
    hide UpdateStatus, UpdateFinalizers, AddPod, DropPod, ReadPod, CachedJob, RestoreStep, IsolateStep;
    hide LeastDensity, WithVerdict, GpuNodes, PodsNamed;
  }

  lemma {:induction false} DriveKeepsTended(script: Script, w: World, calls: nat, pc: Pc)
    requires Tended(w, pc) && !pc.Fetch? && !pc.Idle?
    ensures var (w', _, pc') := Drive(script, w, calls, pc);
            Tended(w', pc') && pc'.Finish? && Some(pc'.key) == KeyOf(pc)
    decreases Stage(pc), Left(pc)
  {
    if Stopped(pc) {
      DriveStopped(script, w, calls, pc);
    } else {
      var c := script(calls);
      CallProgresses(w, pc, c);
      CallKeepsTended(w, pc, c);
      CallKeepsKey(w, pc, c);
      DriveStep(script, w, calls, pc);
      DriveKeepsTended(script, Call(w, pc, c).0, calls + 1, Call(w, pc, c).1);
    }
  }

  /**
   A reconcile that reads the current object, or learns rightly that there is none, and leaves a job unset or Pending,
   or an orphaned pod, ends with an error or a delay: whatever else fails on the way, the key comes back.
   */
  lemma NothingPendingIsDropped(script: Script, w: World, calls: nat, k: Key)
    requires UpToDate(w, k) && script(calls).answer == Served
    ensures var (w', _, pc') := Drive(script, w, calls, Fetch(k));
            pc'.Finish? && pc'.key == k && (NeedsWork(w', k) ==> Requeues(pc'.result))
  {
    FetchTended(w, k, script(calls));
    CallKeepsKey(w, Fetch(k), script(calls));
    DriveStep(script, w, calls, Fetch(k));
    DriveKeepsTended(script, w, calls + 1, Call(w, Fetch(k), script(calls)).1);
  }

  // ----- a pass without errors -----

  ghost predicate Calm(script: Script, vec: seq<Sample>) {
    forall n: nat :: script(n).answer == Served && script(n).reply == Vector(vec)
  }

  function SyncCalls(todo: SyncPc): nat {
    2 * |todo.restore| + |todo.isolate| - if todo.reading.Some? && todo.restore != [] then 1 else 0
  }

  /** A served call in the sync is a move of one goroutine, chosen by the script. */
  lemma CalmSyncCall(
    script: Script, vec: seq<Sample>, w: World, calls: nat, f: Fetched, healthy: seq<Node>, todo: SyncPc)
    returns (isolating: bool)
    requires Calm(script, vec) && !SyncDone(todo)
    ensures var (nodes', todo') := Move(w.nodes, w.pods, todo, isolating, ALL_SERVED);
            && Call(w, Sync(f, healthy, todo), script(calls)) == (w.(nodes := nodes'), Resume(f, healthy, todo'))
            && SyncCalls(todo') == SyncCalls(todo) - 1
  {
    isolating := todo.restore == [] || (script(calls).isolateFirst && todo.isolate != []);
  }

  /** Served calls carry the sync to its outcome, whichever goroutine the script lets go first. */
  lemma {:induction false} CalmSync(
    script: Script, vec: seq<Sample>, w: World, calls: nat, f: Fetched, healthy: seq<Node>, todo: SyncPc)
    requires Calm(script, vec) && DisjointNames(todo)
    ensures Drive(script, w, calls, Resume(f, healthy, todo))
         == Drive(script, w.(nodes := Outcome(w.nodes, w.pods, todo, ALL_SERVED)), calls + SyncCalls(todo),
                  Decide(f, healthy))
    decreases SyncCalls(todo)
  {
    hide Call;
    if SyncDone(todo) {
      assert Outcome(w.nodes, w.pods, todo, ALL_SERVED) == w.nodes;
    } else {
      var isolating := CalmSyncCall(script, vec, w, calls, f, healthy, todo);
      MoveKeepsOutcome(w.nodes, w.pods, todo, isolating, ALL_SERVED);
      DriveStep(script, w, calls, Sync(f, healthy, todo));
      var (nodes', todo') := Move(w.nodes, w.pods, todo, isolating, ALL_SERVED);
      CalmSync(script, vec, w.(nodes := nodes'), calls + 1, f, healthy, todo');
    }
  }

  /** A valid job waiting for its first pod, read from an up-to-date cache. */
  ghost predicate ReadyToPlace(w: World, k: Key, spec: JobSpec) {
    && UpToDate(w, k)
    && Awaiting(w, k) && StoredJob(w, k).value.job.spec == spec && ValidSpec(spec)
    && PodsNamed(w.pods, k) == []
  }

  /** What an up-to-date fetch hands to the handlers. */
  function Read(w: World, k: Key): Fetched
    requires StoredJob(w, k).Some?
  {
    Fetched(k, Localised(StoredJob(w, k).value.job), StoredJob(w, k).value.ver)
  }

  /** The first four calls of such a reconcile. */
  lemma CalmPrefix(
    script: Script, vec: seq<Sample>, w: World, calls: nat, k: Key, spec: JobSpec, f: Fetched, healthy: seq<Node>,
    todo: SyncPc)
    requires Calm(script, vec) && ReadyToPlace(w, k, spec)
    requires f == Read(w, k) && healthy == HealthyGpuNodes(w.nodes, vec) && todo == StartSync(w.nodes, vec)
    ensures Drive(script, w, calls, Fetch(k)) == Drive(script, w, calls + 4, Resume(f, healthy, todo))
  {
    hide Drive;
    DriveStep(script, w, calls, Fetch(k));
    DriveStep(script, w, calls + 1, GetPod(f));
    DriveStep(script, w, calls + 2, ListNodes(f));
    DriveStep(script, w, calls + 3, QueryHealth(f, GpuNodes(w.nodes)));
  }

  lemma CalmMiddle(
    script: Script, vec: seq<Sample>, w: World, calls: nat, start: Pc, f: Fetched, healthy: seq<Node>,
    todo: SyncPc, synced: seq<Node>)
    requires Calm(script, vec) && DisjointNames(todo)
    requires Drive(script, w, calls, start) == Drive(script, w, calls + 4, Resume(f, healthy, todo))
    requires Outcome(w.nodes, w.pods, todo, ALL_SERVED) == synced
    ensures Drive(script, w, calls, start)
         == Drive(script, w.(nodes := synced), calls + 4 + SyncCalls(todo), Decide(f, healthy))
  {
    hide *;
    CalmSync(script, vec, w, calls + 4, f, healthy, todo);
  }

  /** The calls up to the decision. */
  lemma CalmDecision(
    script: Script, vec: seq<Sample>, w: World, calls: nat, k: Key, spec: JobSpec, f: Fetched, synced: World)
    requires Calm(script, vec) && ReadyToPlace(w, k, spec) && DistinctNames(w.nodes)
    requires f == Read(w, k) && synced == w.(nodes := SyncPass(w.nodes, w.pods, vec))
    ensures Drive(script, w, calls, Fetch(k))
         == Drive(script, synced, calls + 4 + SyncCalls(StartSync(w.nodes, vec)),
                  Decide(f, HealthyGpuNodes(w.nodes, vec)))
  {
    hide *;
    var healthy, todo := HealthyGpuNodes(w.nodes, vec), StartSync(w.nodes, vec);
    assert Outcome(w.nodes, w.pods, todo, ALL_SERVED) == synced.nodes by {
      PassIsPointwise(w.nodes, w.pods, vec);
    }
    StartIsDisjoint(w.nodes, vec);
    CalmPrefix(script, vec, w, calls, k, spec, f, healthy, todo);
    CalmMiddle(script, vec, w, calls, Fetch(k), f, healthy, todo, synced.nodes);
  }

  /** The whole reconcile: the pass is done, and a pod is added exactly when the old labels showed room. */
  lemma CalmReconcile(script: Script, vec: seq<Sample>, w: World, calls: nat, k: Key, spec: JobSpec)
    requires Calm(script, vec) && ReadyToPlace(w, k, spec) && DistinctNames(w.nodes)
    ensures var (w', _, pc') := Drive(script, w, calls, Fetch(k));
            var room := LeastDensity(HealthyGpuNodes(w.nodes, vec), spec.gpuCount);
            && pc' == Finish(k, RECHECK)
            && w' == w.(nodes := SyncPass(w.nodes, w.pods, vec),
                        pods := if room.Some? then w.pods + [HpcPod(k, spec, room.value)] else w.pods)
  {
    var f := Read(w, k);
    var healthy := HealthyGpuNodes(w.nodes, vec);
    var w1 := w.(nodes := SyncPass(w.nodes, w.pods, vec));
    CalmDecision(script, vec, w, calls, k, spec, f, w1);
    var n := calls + 4 + SyncCalls(StartSync(w.nodes, vec));
    var room := LeastDensity(healthy, spec.gpuCount);
    if room.Some? {
      var pod := HpcPod(k, spec, room.value);
      assert Decide(f, healthy) == CreatePod(f, pod);
      assert Call(w1, CreatePod(f, pod), script(n)) == (w1.(pods := w.pods + [pod]), Finish(k, RECHECK));
    } else {
      assert Decide(f, healthy) == Finish(k, RECHECK);
    }
  }

  /**
   Two passes are needed and enough: on unlabelled nodes the first reconcile never creates a pod, and the second,
   under the same scan and pods, creates one exactly when some healthy GPU node really has the GPUs free.
   */
  lemma TwoPassCompleteness(first: Script, second: Script, vec: seq<Sample>, w: World, k: Key, spec: JobSpec)
    requires Calm(first, vec) && Calm(second, vec) && ReadyToPlace(w, k, spec) && DistinctNames(w.nodes)
    requires forall n | n in w.nodes :: Label(n, HIGH_DENSITY_AFFINITY_LABEL).None? && AllocatableGpus(n) <= MAX_INT64
    requires NonNegativeRequests(w.pods)
    ensures var (w1, _, pc1) := Drive(first, w, 0, Fetch(k));
            var (w2, _, pc2) := Drive(second, w1, 0, Fetch(k));
            && w1 == w.(nodes := w1.nodes) && w2 == w1.(pods := w2.pods)
            && pc1 == Finish(k, RECHECK) && pc2 == Finish(k, RECHECK)
            && ((exists n | n in w.nodes :: TrulyFits(n, w.pods, vec, spec.gpuCount))
                <==> exists inUse :: w2.pods == w.pods + [HpcPod(k, spec, inUse)])
  {
    CalmReconcile(first, vec, w, 0, k, spec);
    UnlabelledNodesNeverQualify(w.nodes, vec, spec.gpuCount);
    var w1 := Drive(first, w, 0, Fetch(k)).0;
    SyncedNamesDistinct(w.nodes, w.pods, vec);
    CalmReconcile(second, vec, w1, 0, k, spec);
    SecondDecisionIsExact(w.nodes, w.pods, vec, spec.gpuCount);
    SyncPassIsIdempotent(w.nodes, w.pods, vec);
    var room := LeastDensity(HealthyGpuNodes(w1.nodes, vec), spec.gpuCount);
    if room.Some? {
      assert Drive(second, w1, 0, Fetch(k)).0.pods == w.pods + [HpcPod(k, spec, room.value)];
    } else {
      assert Drive(second, w1, 0, Fetch(k)).0.pods == w.pods;
      assert forall inUse :: |w.pods + [HpcPod(k, spec, inUse)]| == |w.pods| + 1;
    }
  }

  lemma SyncedNamesDistinct(nodes: seq<Node>, pods: seq<Pod>, vec: seq<Sample>)
    requires DistinctNames(nodes)
    ensures DistinctNames(SyncPass(nodes, pods, vec))
  {
    var synced := SyncPass(nodes, pods, vec);
    forall i | 0 <= i < |nodes|
      ensures synced[i].name == nodes[i].name
    {
      SyncNodeFrame(nodes[i], pods, vec);
    }
  }

  // ----- the preference the scheduler sees -----

  /** The reconcile places the job: the pass runs without errors, and the listed labels show room. */
  ghost predicate Places(script: Script, vec: seq<Sample>, w: World, k: Key, spec: JobSpec) {
    && Calm(script, vec) && ReadyToPlace(w, k, spec) && DistinctNames(w.nodes) && NonNegativeDensities(w.nodes)
    && LeastDensity(HealthyGpuNodes(w.nodes, vec), spec.gpuCount).Some?
  }

  /**
   The pod is made from the labels that were listed, the scheduler compares it with the labels the pass has written: the
   stored nodes that satisfy the new pod's preference are the restored ones whose allocation is above its bound.
   */
  lemma PreferenceAfterPlacement(script: Script, vec: seq<Sample>, w: World, calls: nat, k: Key, spec: JobSpec, i: nat)
    requires Places(script, vec, w, k, spec) && i < |w.nodes| && IsGpuNode(w.nodes[i])
    ensures var w' := Drive(script, w, calls, Fetch(k)).0;
            var least := LeastDensity(HealthyGpuNodes(w.nodes, vec), spec.gpuCount).value;
            var name, inUse := w.nodes[i].name, Allocated(w.pods, w.nodes[i].name);
            && w'.pods == w.pods + [HpcPod(k, spec, least)]
            && |w'.nodes| == |w.nodes| && w'.nodes[i].name == name
            && (VerdictOf(vec, name) == Healthy ==>
                  (DensityGreater(w'.nodes[i], HpcPod(k, spec, least).densityAbove)
                   <==> FitsInt64(inUse) && inUse > Threshold(least)))
            && (VerdictOf(vec, name) == Unhealthy ==>
                  !DensityGreater(w'.nodes[i], HpcPod(k, spec, least).densityAbove))
  {
    hide Drive;
    CalmReconcile(script, vec, w, calls, k, spec);
    HealthyGpuNodesMembers(w.nodes, vec);
    var healthy := HealthyGpuNodes(w.nodes, vec);
    ThresholdIsSmall(healthy, spec.gpuCount);
    var least := LeastDensity(healthy, spec.gpuCount).value;
    SyncedPreference(w.nodes[i], w.pods, vec, AffinityBound(least), Threshold(least));
    SyncNodeFrame(w.nodes[i], w.pods, vec);
  }

  /** The least candidate stays preferred exactly when it is loaded and has not fallen below its old label. */
  lemma LeastCandidateStaysPreferred(
    script: Script, vec: seq<Sample>, w: World, calls: nat, k: Key, spec: JobSpec, i: nat)
    requires Places(script, vec, w, k, spec) && i < |w.nodes| && w.nodes[i] in HealthyGpuNodes(w.nodes, vec)
    requires Candidate(w.nodes[i], spec.gpuCount) == LeastDensity(HealthyGpuNodes(w.nodes, vec), spec.gpuCount)
    ensures var w' := Drive(script, w, calls, Fetch(k)).0;
            var listed := LeastDensity(HealthyGpuNodes(w.nodes, vec), spec.gpuCount).value;
            var inUse := Allocated(w.pods, w.nodes[i].name);
            && |w'.nodes| == |w.nodes|
            && (DensityGreater(w'.nodes[i], HpcPod(k, spec, listed).densityAbove)
                <==> FitsInt64(inUse) && inUse >= listed && inUse >= 1)
  {
    hide Drive;
    HealthyGpuNodesMembers(w.nodes, vec);
    ThresholdIsSmall(HealthyGpuNodes(w.nodes, vec), spec.gpuCount);
    PreferenceAfterPlacement(script, vec, w, calls, k, spec, i);
  }

  /** When the labels are what the pass writes, the preference is the one the decision had in mind. */
  lemma PreferenceAgreesOnSyncedNodes(
    script: Script, vec: seq<Sample>, w: World, calls: nat, k: Key, spec: JobSpec, i: nat)
    requires Places(script, vec, w, k, spec) && i < |w.nodes| && w.nodes[i] in HealthyGpuNodes(w.nodes, vec)
    requires SyncPass(w.nodes, w.pods, vec) == w.nodes
    requires Candidate(w.nodes[i], spec.gpuCount).Some?
    ensures var w' := Drive(script, w, calls, Fetch(k)).0;
            var least := LeastDensity(HealthyGpuNodes(w.nodes, vec), spec.gpuCount).value;
            var inUse := Allocated(w.pods, w.nodes[i].name);
            && |w'.nodes| == |w.nodes| && Candidate(w.nodes[i], spec.gpuCount) == Some(inUse)
            && (DensityGreater(w'.nodes[i], HpcPod(k, spec, least).densityAbove) <==> inUse >= 1)
  {
    hide Drive;
    HealthyGpuNodesMembers(w.nodes, vec);
    CalmReconcile(script, vec, w, calls, k, spec);
    LabelIsFaithful(w.nodes[i], w.pods, vec, spec.gpuCount);
    AffinityPrefersLoadedCandidates(HealthyGpuNodes(w.nodes, vec), spec.gpuCount, w.nodes[i], k, spec);
  }
}
