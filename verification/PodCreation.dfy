/**
 Pod names over whole runs. From the read that finds no pod to the creation there is still none, so a creation never
 collides with an existing pod, however jobs, nodes and pods change meanwhile.
 */
module PodCreation {
  import opened Attention
  import opened ControllerSystem
  import opened KubeTypes
  import opened NodePatches
  import opened ReconcileProtocol
  import opened Wrappers

  /** The worker has learnt that the job has no pod and is on the way to making one. */
  predicate Placing(pc: Pc) {
    pc.ListNodes? || pc.QueryHealth? || pc.Sync? || pc.CreatePod?
  }

  ghost predicate PodsOk(s: State) {
    DistinctKeys(s.w.pods) && (Placing(s.pc) ==> !PodExists(s.w, s.pc.f.key))
  }

  lemma {:induction false} RemovalKeepsDistinct(pods: seq<Pod>, k: Key)
    requires DistinctKeys(pods)
    ensures DistinctKeys(RemovePod(pods, k))
  {
    if pods != [] {
      RemovalKeepsDistinct(pods[1..], k);
      assert forall p | p in RemovePod(pods[1..], k) :: p in pods[1..];
    }
  }

  lemma CallKeepsDistinct(w: World, pc: Pc, c: Choice)
    requires DistinctKeys(w.pods)
    ensures DistinctKeys(Call(w, pc, c).0.pods)
  {
    hide RestoreStep, IsolateStep, RemovePod;
    match pc {
      case CreatePod(_, pod) => PodsNamedFinds(w, pod.key);
      case DeleteFailed(f) => RemovalKeepsDistinct(w.pods, f.key);
      case DeletePods(_, _, left) =>
        if left != [] {
          RemovalKeepsDistinct(w.pods, left[0].key);
        }
      case _ =>
    }
  }

  lemma StepKeepsDistinct(s: State, step: Step)
    requires Enabled(s, step) && DistinctKeys(s.w.pods)
    ensures DistinctKeys(Next(s, step).w.pods)
  {
    hide Call;
    match step {
      case Advance(c) => CallKeepsDistinct(s.w, s.pc, c);
      case PodGone(k) => RemovalKeepsDistinct(s.w.pods, k);
      case _ =>
    }
  }

  /** The path to a creation is entered only by a read that finds no pod. */
  lemma PlacingStartsWithoutPod(w: World, pc: Pc, c: Choice)
    requires Placing(Call(w, pc, c).1)
    ensures Placing(pc) || (pc.GetPod? && !PodExists(w, pc.f.key))
    ensures Call(w, pc, c).1.f.key == pc.f.key && Call(w, pc, c).0.pods == w.pods
  {
    hide UpdateStatus, UpdateFinalizers, AddPod, DropPod, RestoreStep, IsolateStep, PodsNamed, RemovePod, CachedJob;
    if pc.GetPod? {
      PodsNamedFinds(w, pc.f.key);
    }
  }

  lemma StepKeepsPodsOk(s: State, step: Step)
    requires Inv(s) && Enabled(s, step) && PodsOk(s)
    ensures PodsOk(Next(s, step))
  {
    hide Call, Inv, DistinctKeys;
    StepKeepsDistinct(s, step);
    var s' := Next(s, step);
    if Placing(s'.pc) {
      if step.Advance? {
        PlacingStartsWithoutPod(s.w, s.pc, step.c);
      } else {
        PodsAppearByCreation(s, step, s.pc.f.key);
      }
    }
  }

  /** In every reachable state pod keys are distinct, and while the worker places a job no pod of its key exists. */
  lemma {:induction false} PodsOkAlways(states: seq<State>, steps: seq<Step>, i: nat)
    requires IsRun(states, steps) && i < |states|
    ensures PodsOk(states[i])
  {
    if i > 0 {
      PodsOkAlways(states, steps, i - 1);
      InvAlways(states, steps, i - 1);
      StepKeepsPodsOk(states[i - 1], steps[i - 1]);
    }
  }

  /**
   In a run a creation has two outcomes only: unless the call itself is broken the job ends with one pod more, or with a
   conflict the server reports, and comes back later. AlreadyExists does not occur.
   */
  lemma CreationNeverCollides(states: seq<State>, steps: seq<Step>, i: nat)
    requires IsRun(states, steps) && i < |steps| && states[i].pc.CreatePod? && steps[i].Advance?
    ensures var f, pod, answer := states[i].pc.f, states[i].pc.pod, steps[i].c.answer;
            && pod.key == f.key
            && states[i + 1].pc == Finish(f.key, if answer == Broken then FAILURE else RECHECK)
            && states[i + 1].w.pods == if answer == Served then states[i].w.pods + [pod] else states[i].w.pods
  {
    InvAlways(states, steps, i);
    PodsOkAlways(states, steps, i);
    PodsNamedFinds(states[i].w, states[i].pc.f.key);
  }

  /**
   The case the system rules out: had someone else created a pod between the read and the creation, a served creation
   would fail exactly when that pod has the key of the job. The code skips a Conflict, but this is AlreadyExists.
   */
  lemma OutsideCreatorBreaksCreation(s: State, outsider: Pod, c: Choice)
    requires Inv(s) && PodsOk(s) && s.pc.CreatePod? && c.answer == Served
    ensures var before := s.w.(pods := s.w.pods + [outsider]);
            var (after, pc') := Call(before, s.pc, c);
            && (pc'.result == FAILURE <==> outsider.key == s.pc.f.key)
            && (pc'.result == FAILURE <==> after == before)
  {
    var before := s.w.(pods := s.w.pods + [outsider]);
    PodsNamedFinds(before, s.pc.f.key);
    assert outsider in before.pods;
    assert PodExists(before, s.pc.f.key) <==> outsider.key == s.pc.f.key;
    assert |before.pods + [s.pc.pod]| > |before.pods|;
  }

  // ----- the reads -----

  /** A read of the pod finds the pod of the key, the only one there is, or that there is none, or fails. */
  lemma ReadFindsThePod(w: World, k: Key, answer: Answer)
    requires DistinctKeys(w.pods)
    ensures var r := ReadPod(w, k, answer);
            && (forall p :: r == Ok(p) <==> answer == Served && p in w.pods && p.key == k)
            && (r == Err(NotFound) <==> answer == Served && !PodExists(w, k))
  {
    PodsNamedFinds(w, k);
    if PodExists(w, k) {
      var named := PodsNamed(w.pods, k);
      assert named[0] in named;
    }
  }

  /** The list of pods by name, with distinct names: the pod of the key, or nothing. */
  lemma {:induction false} ListFindsThePod(pods: seq<Pod>, k: Key)
    requires DistinctKeys(pods)
    ensures |PodsNamed(pods, k)| <= 1
    ensures forall p :: PodsNamed(pods, k) == [p] <==> p in pods && p.key == k
  {
    if pods != [] {
      assert DistinctKeys(pods[1..]);
      ListFindsThePod(pods[1..], k);
      var rest := PodsNamed(pods[1..], k);
      assert rest != [] ==> rest[0] in rest;
      assert forall p | PodsNamed(pods, k) == [p] :: p in PodsNamed(pods, k);
    }
  }
}
