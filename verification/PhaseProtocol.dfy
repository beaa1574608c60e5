/**
 The phases of stored jobs over whole runs, with a cache that may lag behind the store,
 and what a Failed phase means for the job's pod.
 */
module PhaseProtocol {
  import opened Attention
  import opened ControllerSystem
  import opened JobLog
  import opened KubeTypes
  import opened ReconcileProtocol
  import opened Wrappers

  lemma LogGrowsOnce(states: seq<State>, steps: seq<Step>, i: nat)
    requires IsRun(states, steps) && i < |steps|
    ensures states[i].w.log <= states[i + 1].w.log && states[i].w.seen <= states[i + 1].w.seen
  {
    hide Init, Inv;
    InvAlways(states, steps, i);
    LogGrows(states[i], steps[i]);
  }

  lemma {:induction false} LogsGrow(states: seq<State>, steps: seq<Step>, a: nat, b: nat)
    requires IsRun(states, steps) && a <= b < |states|
    ensures states[a].w.log <= states[b].w.log && states[a].w.seen <= states[b].w.seen
  {
    hide Init, Enabled, Next;
    if a < b {
      LogsGrow(states, steps, a, b - 1);
      LogGrowsOnce(states, steps, b - 1);
    }
  }

  lemma LogGrowsByOne(s: State, step: Step)
    requires Inv(s) && Enabled(s, step)
    ensures |Next(s, step).w.log| <= |s.w.log| + 1
  {
    if step.Advance? {
      CallWrites(s.w, s.pc, step.c);
    }
  }

  /** The store had every length up to the present one. */
  lemma {:induction false} LengthWasReached(states: seq<State>, steps: seq<Step>, i: nat, n: nat) returns (j: nat)
    requires IsRun(states, steps) && i < |states| && n <= |states[i].w.log|
    ensures j <= i && |states[j].w.log| == n
  {
    hide Inv, Enabled, Next;
    j := i;
    if n < |states[i].w.log| {
      InvAlways(states, steps, i - 1);
      LogGrowsByOne(states[i - 1], steps[i - 1]);
      j := LengthWasReached(states, steps, i - 1, n);
    }
  }

  /** The cache shows the store of an earlier moment, the same moment for all keys: reads are stale but never torn. */
  lemma CachedIsPast(states: seq<State>, steps: seq<Step>, i: nat) returns (j: nat)
    requires IsRun(states, steps) && i < |states|
    ensures j <= i && forall k :: CachedJob(states[i].w, k) == StoredJob(states[j].w, k)
  {
    InvAlways(states, steps, i);
    var seen := states[i].w.seen;
    j := LengthWasReached(states, steps, i, seen);
    LogsGrow(states, steps, j, i);
    var early, late := states[j].w.log, states[i].w.log;
    forall k
      ensures CachedJob(states[i].w, k) == StoredJob(states[j].w, k)
    {
      assert early + late[seen..] == late;
      LookupAppend(early, late[seen..], seen, k);
    }
  }

  /** Once Failed or Complete is stored for an object, no later state stores another phase for that object. */
  lemma StoredTerminalPhaseAbsorbs(states: seq<State>, steps: seq<Step>, a: nat, b: nat, k: Key)
    requires IsRun(states, steps) && a <= b < |states|
    requires StoredJob(states[a].w, k).Some? && StoredJob(states[b].w, k).Some?
    requires StoredJob(states[a].w, k).value.job.uid == StoredJob(states[b].w, k).value.job.uid
    requires Terminal(StoredJob(states[a].w, k).value.job.phase)
    ensures StoredJob(states[b].w, k).value.job.phase == StoredJob(states[a].w, k).value.job.phase
  {
    InvAlways(states, steps, b);
    LogsGrow(states, steps, a, b);
    var early, late := states[a].w.log, states[b].w.log;
    LookupVersion(early, |early|, k);
    LookupVersion(late, |late|, k);
    var i, j := StoredJob(states[a].w, k).value.ver, StoredJob(states[b].w, k).value.ver;
    LookupIsLast(late, |late|, k, i);
    TerminalPhaseIsAbsorbing(late, i, j);
  }

  /** Every step moves the phase of a stored object along the protocol, so Pending is written only over Running. */
  lemma StepMovesPhaseAlongProtocol(s: State, step: Step, k: Key)
    requires Inv(s) && Enabled(s, step)
    requires StoredJob(s.w, k).Some? && StoredJob(Next(s, step).w, k).Some?
    ensures var before, after := StoredJob(s.w, k).value.job, StoredJob(Next(s, step).w, k).value.job;
            && Allowed(before.phase, after.phase)
            && (after.phase == Pending && before.phase != Pending ==> before.phase == Running)
            && (after.phase != before.phase ==> step.Advance? && s.pc.SetPhase? && s.pc.f.key == k)
  {
    hide ReadPod, RemovePod, PodsNamed, Touched;
    var s' := Next(s, step);
    StepKeepsInv(s, step);
    LogGrows(s, step);
    if |s'.w.log| == |s.w.log| {
      assert s'.w.log == s.w.log;
    } else {
      var n := |s.w.log|;
      assert |s'.w.log| == n + 1 by {
        if step.Advance? {
          CallWrites(s.w, s.pc, step.c);
        }
      }
      assert s.w.log + [s'.w.log[n]] == s'.w.log;
      LookupAppend(s.w.log, [s'.w.log[n]], n, k);
      assert EntryOk(s'.w.log, n);
    }
  }

  // ----- a Failed job's pod does not come back -----

  /** The worker only reaches the status update of a Failed job when the job's pod is gone. */
  ghost predicate FailedPodIsGone(s: State) {
    s.pc.SetPhase? && s.pc.f.job.phase == Failed ==> !PodExists(s.w, s.pc.f.key)
  }

  lemma OnlyDeletionLeadsToFailedUpdate(w: World, pc: Pc, c: Choice)
    requires Shape(pc) && !pc.DeleteFailed? && !Stopped(pc)
    ensures var pc' := Call(w, pc, c).1; !(pc'.SetPhase? && pc'.f.job.phase == Failed)
  {
  }

  lemma StepKeepsFailedPodGone(s: State, step: Step)
    requires Inv(s) && Enabled(s, step) && FailedPodIsGone(s)
    ensures FailedPodIsGone(Next(s, step))
  {
    var s' := Next(s, step);
    if step.Advance? {
      if s.pc.DeleteFailed? {
        var k := s.pc.f.key;
        assert forall p | p in s'.w.pods && p.key == k :: p in PodsNamed(s.w.pods, k);
      } else {
        OnlyDeletionLeadsToFailedUpdate(s.w, s.pc, step.c);
      }
    } else if s.pc.SetPhase? {
      PodsAppearByCreation(s, step, s.pc.f.key);
    }
  }

  lemma {:induction false} FailedPodGoneAlways(states: seq<State>, steps: seq<Step>, i: nat)
    requires IsRun(states, steps) && i < |states|
    ensures FailedPodIsGone(states[i])
  {
    if i > 0 {
      FailedPodGoneAlways(states, steps, i - 1);
      InvAlways(states, steps, i - 1);
      StepKeepsFailedPodGone(states[i - 1], steps[i - 1]);
    }
  }

  ghost predicate Lives(w: World, k: Key, uid: nat) {
    StoredJob(w, k).Some? && StoredJob(w, k).value.job.uid == uid
  }

  /** The worker is not on a path that creates a pod for the key. */
  predicate OffPendingPath(pc: Pc, k: Key) {
    KeyOf(pc) == Some(k) ==>
      pc.Fetch? || pc.Finish? || pc.DeleteFailed? || (pc.SetPhase? && pc.f.job.phase == Failed)
  }

  /** As long as the object lives: it is Failed, the cache knows, there is no pod, and none is about to be made. */
  ghost predicate Settled(s: State, k: Key, uid: nat) {
    && uid < |s.w.log|
    && (Lives(s.w, k, uid) ==>
          && StoredJob(s.w, k).value.job.phase == Failed
          && CachedJob(s.w, k).Some?
          && CachedJob(s.w, k).value.job.uid == uid && CachedJob(s.w, k).value.job.phase == Failed
          && !PodExists(s.w, k)
          && OffPendingPath(s.pc, k))
  }

  /** An object that lives after a step lived before it: uids are not reused. */
  lemma LivedBefore(s: State, step: Step, k: Key, uid: nat)
    requires Inv(s) && Enabled(s, step) && uid < |s.w.log| && Lives(Next(s, step).w, k, uid)
    ensures Lives(s.w, k, uid)
  {
    var s' := Next(s, step);
    StepKeepsInv(s, step);
    LogGrows(s, step);
    if |s'.w.log| == |s.w.log| {
      assert s'.w.log == s.w.log;
    } else {
      var n := |s.w.log|;
      assert |s'.w.log| == n + 1 by {
        if step.Advance? {
          CallWrites(s.w, s.pc, step.c);
        }
      }
      assert s.w.log + [s'.w.log[n]] == s'.w.log;
      LookupAppend(s.w.log, [s'.w.log[n]], n, k);
      assert EntryOk(s'.w.log, n);
    }
  }

  /** The cache, moving on inside the life of a Failed object, still shows it Failed. */
  lemma DeliveryShowsFailed(s: State, k: Key, uid: nat)
    requires Inv(s) && Enabled(s, Deliver) && Settled(s, k, uid) && Lives(s.w, k, uid)
    ensures var cached := CachedJob(Next(s, Deliver).w, k);
            cached.Some? && cached.value.job.uid == uid && cached.value.job.phase == Failed
  {
    var log, n := s.w.log, s.w.seen + 1;
    LookupVersion(log, s.w.seen, k);
    LookupVersion(log, |log|, k);
    var i, j := CachedJob(s.w, k).value.ver, StoredJob(s.w, k).value.ver;
    if n <= j {
      ObjectLivesBetween(log, i, j, n);
      LookupVersion(log, n, k);
      TerminalPhaseIsAbsorbing(log, i, Lookup(log, n, k).value.ver);
    } else {
      assert !Touched(log, n, |log|, k) by {
        assert !Touched(log, j + 1, |log|, k);
      }
      LookupUntouched(log, n, |log|, k);
    }
  }

  lemma WriteKeepsCache(s: State, step: Step, k: Key)
    requires Inv(s) && Enabled(s, step) && !step.Deliver?
    ensures CachedJob(Next(s, step).w, k) == CachedJob(s.w, k)
  {
    var s' := Next(s, step);
    LogGrows(s, step);
    assert s'.w.seen == s.w.seen by {
      if step.Advance? {
        CallWrites(s.w, s.pc, step.c);
      }
    }
    assert s.w.log + s'.w.log[|s.w.log|..] == s'.w.log;
    LookupAppend(s.w.log, s'.w.log[|s.w.log|..], s.w.seen, k);
  }

  lemma CallStaysOffPendingPath(s: State, c: Choice, k: Key)
    requires Inv(s) && OffPendingPath(s.pc, k)
    requires CachedJob(s.w, k).Some? && CachedJob(s.w, k).value.job.phase == Failed
    ensures OffPendingPath(Call(s.w, s.pc, c).1, k)
  {
    hide UpdateStatus, UpdateFinalizers, DropPod, AddPod, ReadPod, Lookup, Touched, LogOk;
  }

  lemma StepKeepsSettled(s: State, step: Step, k: Key, uid: nat)
    requires Inv(s) && Enabled(s, step) && Settled(s, k, uid)
    ensures Settled(Next(s, step), k, uid)
  {
    hide Call, LogOk;
    var s' := Next(s, step);
    LogGrows(s, step);
    if Lives(s'.w, k, uid) {
      LivedBefore(s, step, k, uid);
      if step.Advance? {
        CallStaysOffPendingPath(s, step.c, k);
      }
      StepMovesPhaseAlongProtocol(s, step, k);
      if step.Deliver? {
        DeliveryShowsFailed(s, k, uid);
      } else {
        WriteKeepsCache(s, step, k);
      }
      PodsAppearByCreation(s, step, k);
    }
  }

  /** The end of an error-free reconcile of a Failed job settles it. */
  lemma FailedReconcileSettles(s: State, step: Step)
    requires Inv(s) && Enabled(s, step) && FailedPodIsGone(s)
    requires s.pc.SetPhase? && s.pc.f.job.phase == Failed && step.Advance?
    requires Next(s, step).pc == Finish(s.pc.f.key, DONE)
    ensures Settled(Next(s, step), s.pc.f.key, s.pc.f.job.uid)
  {
    var f := s.pc.f;
    var log := s.w.log;
    assert StoredJob(s.w, f.key).Some? && StoredJob(s.w, f.key).value.ver == f.ver;
    LookupVersion(log, |log|, f.key);
    UidIsOld(log, f.ver);
    assert !Touched(log, s.w.seen, |log|, f.key) by {
      assert !Touched(log, f.ver + 1, |log|, f.key);
    }
    LookupUntouched(log, s.w.seen, |log|, f.key);
  }

  lemma {:induction false} SettledStays(states: seq<State>, steps: seq<Step>, a: nat, b: nat, k: Key, uid: nat)
    requires IsRun(states, steps) && a <= b < |states| && Settled(states[a], k, uid)
    ensures Settled(states[b], k, uid)
  {
    if a < b {
      SettledStays(states, steps, a, b - 1, k, uid);
      InvAlways(states, steps, b - 1);
      StepKeepsSettled(states[b - 1], steps[b - 1], k, uid);
    }
  }

  /**
   After a reconcile of a Failed job that ends without error, no pod of its key exists in any later state
   in which that job object still lives.
   */
  lemma FailedPodNeverReturns(states: seq<State>, steps: seq<Step>, i: nat, j: nat)
    requires IsRun(states, steps) && i < j < |states|
    requires states[i].pc.SetPhase? && states[i].pc.f.job.phase == Failed && steps[i].Advance?
    requires states[i + 1].pc == Finish(states[i].pc.f.key, DONE)
    requires Lives(states[j].w, states[i].pc.f.key, states[i].pc.f.job.uid)
    ensures !PodExists(states[j].w, states[i].pc.f.key)
  {
    InvAlways(states, steps, i);
    FailedPodGoneAlways(states, steps, i);
    FailedReconcileSettles(states[i], steps[i]);
    SettledStays(states, steps, i + 1, j, states[i].pc.f.key, states[i].pc.f.job.uid);
  }
}
