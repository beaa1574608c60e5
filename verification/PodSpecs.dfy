/**
 Which spec a pod carries. A pod is made for the spec that was fetched; the job may have been edited, or deleted and
 created again, by the time it is created, and an existing pod is not replaced.
 */
module PodSpecs {
  import opened Attention
  import opened Capacity
  import opened ControllerSystem
  import opened JobLog
  import opened JobOutcomes
  import opened KubeTypes
  import opened NodePatches
  import opened PodCreation
  import opened ReconcileProtocol
  import UndisturbedReconcile

  /** The pod is one the controller makes for the spec. */
  ghost predicate MadeFor(pod: Pod, k: Key, spec: JobSpec) {
    exists inUse :: pod == HpcPod(k, spec, inUse)
  }

  lemma PodTellsSpec(k: Key, a: JobSpec, x: int, b: JobSpec, y: int)
    requires HpcPod(k, a, x).containers == HpcPod(k, b, y).containers
    ensures a == b
  {
    var p, q := HpcPod(k, a, x).containers[0], HpcPod(k, b, y).containers[0];
    assert p.requests[GPU_CORES_CAPACITY] == q.requests[GPU_CORES_CAPACITY];
    assert p.image == q.image;
  }

  /**
   A created pod is one for the stored job exactly when that has the spec that was fetched. If it is not, because the
   job is gone or has another spec, an event of the job or its queued key brings the worker back.
   */
  lemma CreatedPodFitsStoredJob(s: State, c: Choice)
    requires Inv(s) && PodsOk(s) && s.pc.CreatePod? && c.answer == Served
    ensures var k, pod := s.pc.f.key, s.pc.pod;
            var stored := StoredJob(s.w, k);
            var fits := stored.Some? && MadeFor(pod, k, stored.value.job.spec);
            && Call(s.w, s.pc, c).0 == s.w.(pods := s.w.pods + [pod])
            && (fits <==> stored.Some? && stored.value.job.spec == s.pc.f.job.spec)
            && (!fits ==> Signalled(s, k))
  {
    var k, pod, f := s.pc.f.key, s.pc.pod, s.pc.f;
    var stored := StoredJob(s.w, k);
    PodsNamedFinds(s.w, k);
    var x :| pod == HpcPod(k, f.job.spec, x);
    StaleIsSignalled(s, f);
    if stored.Some? && MadeFor(pod, k, stored.value.job.spec) {
      var y :| pod == HpcPod(k, stored.value.job.spec, y);
      PodTellsSpec(k, f.job.spec, x, stored.value.job.spec, y);
    }
  }

  /** An existing pod is neither replaced nor removed by the reconcile of a waiting or Running job. */
  lemma ExistingPodStays(script: Script, w: World, calls: nat, k: Key)
    requires Active(w, k) && PodExists(w, k)
    ensures Drive(script, w, calls, Fetch(k)).0.pods == w.pods
  {
    hide Drive;
    AfterFetch(script, w, calls, k);
    PodsNamedFinds(w, k);
    if script(calls).answer == Served {
      var f := UndisturbedReconcile.Read(w, k);
      var pc := AfterGetPod(f, ReadPod(w, k, script(calls + 1).answer));
      if pc.SetPhase? {
        UpdateOfCurrent(script, w, calls + 2, k, pc.phase, pc.ok, pc.ko);
      } else {
        DriveStopped(script, w, calls + 2, pc);
      }
    }
  }

  // ----- over runs -----

  /** The one container: named after the job, with its image, requesting its GPUs. */
  function ContainerFor(key: Key, spec: JobSpec): Container {
    Container(key.name, spec.image, map["nvidia.com/gpu" := spec.gpuCount])
  }

  /** A written version of the job asks for such a pod. */
  ghost predicate AskedFor(log: seq<Event>, pod: Pod) {
    exists v: nat | v < |log| ::
      log[v].Put? && log[v].key == pod.key && pod.containers == [ContainerFor(pod.key, log[v].job.spec)]
  }

  ghost predicate PodsAskedFor(w: World) {
    forall p | p in w.pods :: AskedFor(w.log, p)
  }

  lemma AskedForStays(early: seq<Event>, late: seq<Event>, pod: Pod)
    requires early <= late && AskedFor(early, pod)
    ensures AskedFor(late, pod)
  {
  }

  /** A pod after a step is the created one, or one from before with another phase or node. */
  lemma PodsComeFromPods(s: State, step: Step, p: Pod)
    requires Inv(s) && Enabled(s, step) && p in Next(s, step).w.pods
    ensures || (s.pc.CreatePod? && p == s.pc.pod)
            || exists q | q in s.w.pods :: q.key == p.key && q.containers == p.containers
  {
    if step.Bind? || step.PodMoves? {
      var j :| 0 <= j < |s.w.pods| && Next(s, step).w.pods[j] == p;
      assert s.w.pods[j] in s.w.pods;
    } else if step.Advance? {
      CallAddsNothingElse(s.w, s.pc, step.c, p);
    }
  }

  lemma CallAddsNothingElse(w: World, pc: Pc, c: Choice, p: Pod)
    requires p in Call(w, pc, c).0.pods
    ensures p in w.pods || (pc.CreatePod? && p == pc.pod)
  {
    hide RestoreStep, IsolateStep, PodsNamed, ReadPod, CachedJob;
  }

  lemma StepKeepsAskedFor(s: State, step: Step)
    requires Inv(s) && Enabled(s, step) && PodsAskedFor(s.w)
    ensures PodsAskedFor(Next(s, step).w)
  {
    hide Call, LogOk;
    var s' := Next(s, step);
    LogGrows(s, step);
    forall p | p in s'.w.pods
      ensures AskedFor(s'.w.log, p)
    {
      PodsComeFromPods(s, step, p);
      if s.pc.CreatePod? && p == s.pc.pod {
        assert s.w.log[s.pc.f.ver].Put?;
        assert AskedFor(s.w.log, p);
      } else {
        var q :| q in s.w.pods && q.key == p.key && q.containers == p.containers;
        assert AskedFor(s.w.log, q);
        assert AskedFor(s.w.log, p);
      }
      AskedForStays(s.w.log, s'.w.log, p);
    }
  }

  /** In every reachable state the containers of every pod are those a written version of a job of its name asks for. */
  lemma {:induction false} PodsAskedForAlways(states: seq<State>, steps: seq<Step>, i: nat)
    requires IsRun(states, steps) && i < |states|
    ensures PodsAskedFor(states[i].w)
  {
    if i > 0 {
      PodsAskedForAlways(states, steps, i - 1);
      InvAlways(states, steps, i - 1);
      StepKeepsAskedFor(states[i - 1], steps[i - 1]);
    }
  }
}
