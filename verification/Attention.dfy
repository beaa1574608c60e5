/**
 No key that needs the controller is forgotten, in any interleaving: neither a pod whose job is gone nor a job that
 still waits for its pod. The one hole is a fetch of that key that fails with anything but NotFound.
 */
module Attention {
  import opened ControllerSystem
  import opened JobLog
  import opened KubeTypes
  import opened NodePatches
  import opened ReconcileProtocol
  import opened Wrappers

  /** A job event of the key is under way, or the key is queued, or it comes back after a delay. */
  ghost predicate Signalled(s: State, k: Key) {
    || (s.w.seen <= |s.w.log| && Touched(s.w.log, s.w.seen, |s.w.log|, k))
    || k in s.dirty
    || k in s.delayed
  }

  predicate PodExists(w: World, k: Key) {
    exists p | p in w.pods :: p.key == k
  }

  lemma PodsNamedFinds(w: World, k: Key)
    ensures PodExists(w, k) <==> PodsNamed(w.pods, k) != []
  {
    var named := PodsNamed(w.pods, k);
    if named != [] {
      assert named[0] in named;
    }
    if p :| p in w.pods && p.key == k {
      assert p in named;
    }
  }

  /** A pod whose job is gone. */
  ghost predicate Orphan(w: World, k: Key) {
    PodExists(w, k) && StoredJob(w, k).None?
  }

  /** A job that has not got beyond Pending. */
  predicate Awaiting(w: World, k: Key) {
    var st := StoredJob(w, k);
    st.Some? && (st.value.job.phase == Unset || st.value.job.phase == Pending)
  }

  /** The worker has the key in an unfinished cleanup, or will put it back. */
  predicate Cleaning(pc: Pc, k: Key) {
    match pc
    case Fetch(k') => k == k'
    case ListPods(k', owner) => k == k' && owner.None?
    case DeletePods(k', owner, _) => k == k' && owner.None?
    case Finish(k', r) => k == k' && Requeues(r)
    case _ => false
  }

  /** The worker has the job on the way from Pending, or will put the key back. */
  predicate Retrying(pc: Pc, k: Key) {
    match pc
    case Fetch(k') => k == k'
    case Finish(k', r) => k == k' && Requeues(r)
    case GetPod(f) => k == f.key && f.job.phase == Pending
    case SetPhase(f, _, _, _) => k == f.key && f.job.phase == Pending
    case ListNodes(f) => k == f.key
    case QueryHealth(f, _) => k == f.key
    case Sync(f, _, _) => k == f.key
    case CreatePod(f, _) => k == f.key
    case _ => false
  }

  ghost predicate OrphanNoticed(s: State, k: Key) {
    Orphan(s.w, k) ==> Signalled(s, k) || Cleaning(s.pc, k)
  }

  ghost predicate JobRemembered(s: State, k: Key) {
    Awaiting(s.w, k) ==> Signalled(s, k) || Retrying(s.pc, k)
  }

  /** The fetch of the key fails with an error other than NotFound; the code then drops the key. */
  ghost predicate FetchBreaks(s: State, step: Step, k: Key) {
    s.pc == Fetch(k) && step.Advance? && step.c.answer != Served
  }

  /** The fetch breaks on a key that nothing else brings back. */
  ghost predicate DropsKey(s: State, step: Step, k: Key) {
    FetchBreaks(s, step, k) && !Signalled(s, k)
  }

  /** The step loses an orphan of the key. */
  ghost predicate DropsOrphan(s: State, step: Step, k: Key) {
    DropsKey(s, step, k) && Orphan(s.w, k)
  }

  /** The step loses a job of the key that waits for its pod. */
  ghost predicate DropsJob(s: State, step: Step, k: Key) {
    DropsKey(s, step, k) && Awaiting(s.w, k)
  }

  /** If the store no longer holds what the worker fetched, an event tells, or the key is dirty already. */
  lemma StaleIsSignalled(s: State, f: Fetched)
    requires Inv(s) && Fresh(s, f)
    ensures StoredJob(s.w, f.key) != Some(Stored(s.w.log[f.ver].job, f.ver)) ==> Signalled(s, f.key)
  {
    CacheBehindIsSignalled(s, f.key);
  }

  lemma CacheBehindIsSignalled(s: State, k: Key)
    requires Inv(s)
    ensures StoredJob(s.w, k) != CachedJob(s.w, k) ==> Signalled(s, k)
  {
    if !Touched(s.w.log, s.w.seen, |s.w.log|, k) {
      LookupUntouched(s.w.log, s.w.seen, |s.w.log|, k);
    }
  }

  /** Only taking and delivering reduce signals, and only of one key. */
  lemma SignalsStay(s: State, step: Step, k: Key)
    requires Inv(s) && Enabled(s, step) && Signalled(s, k)
    requires step != Take(k)
    ensures Signalled(Next(s, step), k)
  {
    var s' := Next(s, step);
    if Touched(s.w.log, s.w.seen, |s.w.log|, k) {
      var i :| s.w.seen <= i < |s.w.log| && s.w.log[i].key == k;
      LogGrows(s, step);
      if s'.w.seen <= i {
        assert s'.w.log[i].key == k;
      }
    }
  }

  lemma LogGrows(s: State, step: Step)
    requires Inv(s) && Enabled(s, step)
    ensures s.w.log <= Next(s, step).w.log && s.w.seen <= Next(s, step).w.seen <= s.w.seen + 1
  {
    if step.Advance? {
      CallWrites(s.w, s.pc, step.c);
    }
  }

  lemma StoreOfOthersStays(s: State, step: Step, k: Key)
    requires Inv(s) && Enabled(s, step)
    requires !Touched(Next(s, step).w.log, |s.w.log|, |Next(s, step).w.log|, k)
    ensures StoredJob(Next(s, step).w, k) == StoredJob(s.w, k)
  {
    var s' := Next(s, step);
    LogGrows(s, step);
    LookupUntouched(s'.w.log, |s.w.log|, |s'.w.log|, k);
    LookupAppend(s.w.log, s'.w.log[|s.w.log|..], |s.w.log|, k);
    assert s.w.log + s'.w.log[|s.w.log|..] == s'.w.log;
  }

  /** A write leaves a signal. */
  lemma WritesSignal(s: State, step: Step, k: Key)
    requires Inv(s) && Enabled(s, step)
    ensures !Signalled(Next(s, step), k) ==> StoredJob(Next(s, step).w, k) == StoredJob(s.w, k)
  {
    var s' := Next(s, step);
    LogGrows(s, step);
    if Touched(s'.w.log, |s.w.log|, |s'.w.log|, k) {
      var i :| |s.w.log| <= i < |s'.w.log| && s'.w.log[i].key == k;
      assert s'.w.seen <= i;
      assert Signalled(s', k);
    } else {
      StoreOfOthersStays(s, step, k);
    }
  }

  /** A pod of the key appears only by the worker's creation for a job it fetched. */
  lemma PodsAppearByCreation(s: State, step: Step, k: Key)
    requires Inv(s) && Enabled(s, step)
    ensures PodExists(Next(s, step).w, k) ==>
      PodExists(s.w, k) || (s.pc.CreatePod? && step.Advance? && s.pc.f.key == k)
  {
    var s' := Next(s, step);
    if p :| p in s'.w.pods && p.key == k {
      if step.Bind? || step.PodMoves? {
        var j :| 0 <= j < |s'.w.pods| && s'.w.pods[j] == p;
        assert s.w.pods[j] in s.w.pods;
      }
    }
  }

  // ----- orphans -----

  /** What the worker does for an orphan of the key it holds, when nothing else signals it. */
  lemma WorkerMindsOrphan(s: State, c: Choice, k: Key)
    requires Inv(s) && Enabled(s, Advance(c)) && !FetchBreaks(s, Advance(c), k)
    requires !Signalled(s, k) && Orphan(s.w, k) && Cleaning(s.pc, k)
    requires Orphan(Next(s, Advance(c)).w, k)
    ensures Cleaning(Next(s, Advance(c)).pc, k)
  {
    CacheBehindIsSignalled(s, k);
    match s.pc {
      case ListPods(_, _) =>
        var p :| p in s.w.pods && p.key == k;
        assert p in PodsNamed(s.w.pods, k);
      case DeletePods(_, _, left) =>
        assert left[0] in left;
      case _ =>
    }
  }

  lemma OrphanStep(s: State, step: Step, k: Key)
    requires Inv(s) && Enabled(s, step) && OrphanNoticed(s, k) && !FetchBreaks(s, step, k)
    ensures OrphanNoticed(Next(s, step), k)
  {
    var s' := Next(s, step);
    if Orphan(s'.w, k) && step != Take(k) && !Signalled(s', k) {
      WritesSignal(s, step, k);
      if Signalled(s, k) {
        SignalsStay(s, step, k);
      }
      PodsAppearByCreation(s, step, k);
      if !PodExists(s.w, k) {
        StaleIsSignalled(s, s.pc.f);
      }
      if step.Advance? {
        WorkerMindsOrphan(s, step.c, k);
      }
    }
  }

  /** Exactly when a step loses an orphan: the fetch of its key breaks, and nothing else signals it. */
  lemma OrphanIsLostExactlyByBrokenFetch(s: State, step: Step, k: Key)
    requires Inv(s) && Enabled(s, step) && OrphanNoticed(s, k)
    ensures OrphanNoticed(Next(s, step), k) <==> !DropsOrphan(s, step, k)
  {
    if FetchBreaks(s, step, k) {
      assert Next(s, step) == s.(pc := Finish(k, DONE));
      assert Signalled(Next(s, step), k) == Signalled(s, k);
    } else {
      OrphanStep(s, step, k);
    }
  }

  // ----- waiting jobs -----

  lemma WorkerMindsJob(s: State, c: Choice, k: Key)
    requires Inv(s) && Enabled(s, Advance(c)) && !FetchBreaks(s, Advance(c), k)
    requires !Signalled(s, k) && Awaiting(s.w, k) && Retrying(s.pc, k)
    requires !Signalled(Next(s, Advance(c)), k) && Awaiting(Next(s, Advance(c)).w, k)
    ensures Retrying(Next(s, Advance(c)).pc, k)
  {
    hide LogOk, Touched, AddPod, DropPod, UpdateFinalizers, RemovePod, PodsNamed, RestoreStep, IsolateStep;
    CacheBehindIsSignalled(s, k);
    WritesSignal(s, Advance(c), k);
    if FetchedOf(s.pc).Some? {
      StaleIsSignalled(s, FetchedOf(s.pc).value);
    }
  }

  lemma AwaitingStep(s: State, step: Step, k: Key)
    requires Inv(s) && Enabled(s, step) && JobRemembered(s, k) && !FetchBreaks(s, step, k)
    ensures JobRemembered(Next(s, step), k)
  {
    var s' := Next(s, step);
    if Awaiting(s'.w, k) && step != Take(k) && !Signalled(s', k) {
      WritesSignal(s, step, k);
      if Signalled(s, k) {
        SignalsStay(s, step, k);
      }
      if step.Advance? {
        WorkerMindsJob(s, step.c, k);
      }
    }
  }

  /** Exactly when a step loses a waiting job: its own fetch breaks, and nothing else signals it. */
  lemma JobIsLostExactlyByBrokenFetch(s: State, step: Step, k: Key)
    requires Inv(s) && Enabled(s, step) && JobRemembered(s, k)
    ensures JobRemembered(Next(s, step), k) <==> !DropsJob(s, step, k)
  {
    if FetchBreaks(s, step, k) {
      assert Next(s, step) == s.(pc := Finish(k, DONE));
      assert Signalled(Next(s, step), k) == Signalled(s, k);
    } else {
      AwaitingStep(s, step, k);
    }
  }

  // ----- over runs -----

  lemma NothingToNotice(s: State, k: Key)
    requires Init(s)
    ensures OrphanNoticed(s, k) && JobRemembered(s, k) && LossNoticed(s, k)
  {
  }

  ghost predicate NoOrphanDropped(states: seq<State>, steps: seq<Step>, n: nat, k: Key)
    requires n <= |steps| < |states|
  {
    forall i | 0 <= i < n :: !DropsOrphan(states[i], steps[i], k)
  }

  /** Through n steps of a run every orphan of a key is noticed, exactly when no broken fetch of that key drops one. */
  lemma {:induction false} OrphansAreNoticed(states: seq<State>, steps: seq<Step>, n: nat, k: Key)
    requires IsRun(states, steps) && n <= |steps|
    ensures (forall i | 0 <= i <= n :: OrphanNoticed(states[i], k)) <==> NoOrphanDropped(states, steps, n, k)
  {
    hide OrphanNoticed, DropsOrphan, Init, Inv, Enabled, Next;
    if n == 0 {
      NothingToNotice(states[0], k);
    } else {
      OrphansAreNoticed(states, steps, n - 1, k);
      InvAlways(states, steps, n - 1);
      var s, step := states[n - 1], steps[n - 1];
      assert Enabled(s, step) && states[n] == Next(s, step);
      if OrphanNoticed(s, k) {
        OrphanIsLostExactlyByBrokenFetch(s, step, k);
      }
      assert NoOrphanDropped(states, steps, n, k)
        <==> NoOrphanDropped(states, steps, n - 1, k) && !DropsOrphan(s, step, k);
    }
  }

  ghost predicate NoJobDropped(states: seq<State>, steps: seq<Step>, n: nat, k: Key)
    requires n <= |steps| < |states|
  {
    forall i | 0 <= i < n :: !DropsJob(states[i], steps[i], k)
  }

  /** Likewise no waiting job of the key is forgotten, exactly when no broken fetch of that key drops one. */
  lemma {:induction false} JobsAreRemembered(states: seq<State>, steps: seq<Step>, n: nat, k: Key)
    requires IsRun(states, steps) && n <= |steps|
    ensures (forall i | 0 <= i <= n :: JobRemembered(states[i], k)) <==> NoJobDropped(states, steps, n, k)
  {
    hide JobRemembered, DropsJob, Init, Inv, Enabled, Next;
    if n == 0 {
      NothingToNotice(states[0], k);
    } else {
      JobsAreRemembered(states, steps, n - 1, k);
      InvAlways(states, steps, n - 1);
      var s, step := states[n - 1], steps[n - 1];
      assert Enabled(s, step) && states[n] == Next(s, step);
      if JobRemembered(s, k) {
        JobIsLostExactlyByBrokenFetch(s, step, k);
      }
      assert NoJobDropped(states, steps, n, k) <==> NoJobDropped(states, steps, n - 1, k) && !DropsJob(s, step, k);
    }
  }

  /** So over all keys: whatever else happens in the run, only those broken fetches lose anything. */
  lemma NothingIsForgotten(states: seq<State>, steps: seq<Step>, n: nat)
    requires IsRun(states, steps) && n <= |steps|
    ensures (forall i, k | 0 <= i <= n :: OrphanNoticed(states[i], k) && JobRemembered(states[i], k))
       <==> (forall k :: NoOrphanDropped(states, steps, n, k) && NoJobDropped(states, steps, n, k))
  {
    hide OrphanNoticed, JobRemembered, NoOrphanDropped, NoJobDropped, Next, Enabled, Init;
    forall k
      ensures (forall i | 0 <= i <= n :: OrphanNoticed(states[i], k) && JobRemembered(states[i], k))
         <==> NoOrphanDropped(states, steps, n, k) && NoJobDropped(states, steps, n, k)
    {
      OrphansAreNoticed(states, steps, n, k);
      JobsAreRemembered(states, steps, n, k);
    }
    if forall k :: NoOrphanDropped(states, steps, n, k) && NoJobDropped(states, steps, n, k) {
      forall i, k | 0 <= i <= n
        ensures OrphanNoticed(states[i], k) && JobRemembered(states[i], k)
      {
        assert NoOrphanDropped(states, steps, n, k);
      }
    }
  }

  /** The race of deletion and creation makes orphans, and they are noticed: the deletion event brings the key back. */
  lemma DeletionDuringCreationIsNoticed(s: State, c: Choice)
    requires Inv(s) && s.pc.CreatePod? && c.answer == Served && !PodExists(s.w, s.pc.f.key)
    requires StoredJob(s.w, s.pc.f.key).Some? && StoredJob(s.w, s.pc.f.key).value.job.finalizers == []
    ensures var k := s.pc.f.key;
            var deleted := Next(s, UserDelete(k));
            var created := Next(deleted, Advance(c));
            created.pc == Finish(k, RECHECK) && Orphan(created.w, k)
            && Touched(created.w.log, created.w.seen, |created.w.log|, k)
  {
    var k := s.pc.f.key;
    var deleted := Next(s, UserDelete(k));
    PodsNamedFinds(s.w, k);
    assert deleted.w.log[|s.w.log|] == Del(k);
    var created := Next(deleted, Advance(c));
    assert created.w.pods == s.w.pods + [s.pc.pod];
    assert s.pc.pod in created.w.pods;
  }

  // ----- lost for good -----

  /** Nothing brings the key back, and the worker does not have it. */
  ghost predicate Abandoned(s: State, k: Key) {
    !Signalled(s, k) && (KeyOf(s.pc) == Some(k) ==> s.pc.Finish? && !Requeues(s.pc.result))
  }

  ghost predicate LostOrphan(s: State, k: Key) {
    Orphan(s.w, k) && Abandoned(s, k)
  }

  ghost predicate LostJob(s: State, k: Key) {
    Awaiting(s.w, k) && Abandoned(s, k)
  }

  /** An orphan that is not noticed is lost: the worker cannot hold its key in any other way, after what it read. */
  lemma UnnoticedIsLost(s: State, k: Key)
    requires Inv(s)
    ensures LostOrphan(s, k) <==> !OrphanNoticed(s, k)
  {
    if Orphan(s.w, k) && !Signalled(s, k) {
      CacheBehindIsSignalled(s, k);
    }
  }

  /** A waiting job that is not remembered is lost, for the same reason. */
  lemma ForgottenIsLost(s: State, k: Key)
    requires Inv(s)
    ensures LostJob(s, k) <==> !JobRemembered(s, k)
  {
    if Awaiting(s.w, k) && !Signalled(s, k) {
      CacheBehindIsSignalled(s, k);
    }
  }

  predicate WritesJob(step: Step, k: Key) {
    (step.UserCreate? || step.UserEdit? || step.UserDelete? || step.OthersFinalizers?) && step.k == k
  }

  /** Somebody writes the job, or a resync replays it. */
  predicate BringsBack(step: Step, k: Key) {
    WritesJob(step, k) || step == Resync(k)
  }

  lemma BringingBackSignals(s: State, step: Step, k: Key)
    requires Inv(s) && Enabled(s, step) && BringsBack(step, k)
    ensures Signalled(Next(s, step), k)
  {
    if WritesJob(step, k) {
      assert Next(s, step).w.log[|s.w.log|].key == k;
    }
  }

  /** A resync is possible for an unsignalled key exactly when its job is stored: it never replays what is gone. */
  lemma ResyncNeedsJob(s: State, k: Key)
    requires Inv(s) && !Signalled(s, k)
    ensures Enabled(s, Resync(k)) <==> StoredJob(s.w, k).Some?
  {
    CacheBehindIsSignalled(s, k);
  }

  /** Otherwise an abandoned key stays abandoned, with the same stored job. */
  lemma StepKeepsAbandoned(s: State, step: Step, k: Key)
    requires Inv(s) && Enabled(s, step) && Abandoned(s, k) && !BringsBack(step, k)
    ensures Abandoned(Next(s, step), k) && StoredJob(Next(s, step).w, k) == StoredJob(s.w, k)
  {
    hide Lookup, Shape;
    var s' := Next(s, step);
    LogGrows(s, step);
    assert !Touched(s'.w.log, |s.w.log|, |s'.w.log|, k) by {
      if step.Advance? {
        CallWrites(s.w, s.pc, step.c);
      }
    }
    StoreOfOthersStays(s, step, k);
    assert !Touched(s'.w.log, s.w.seen, |s'.w.log|, k);
    if step.Advance? {
      WorkerKeepsKey(s.w, s.pc, step.c);
    }
  }

  lemma WorkerKeepsKey(w: World, pc: Pc, c: Choice)
    requires !Stopped(pc) && Shape(pc)
    ensures KeyOf(Call(w, pc, c).1) == KeyOf(pc)
  {
    hide UpdateStatus, UpdateFinalizers, AddPod, DropPod, ReadPod, CachedJob, RestoreStep, IsolateStep, PodsNamed;
  }

  /** Calls about another key leave the pods of this key alone. */
  lemma OthersPodsStay(s: State, step: Step, k: Key)
    requires Inv(s) && Enabled(s, step) && step != PodGone(k) && (step.Advance? ==> KeyOf(s.pc) != Some(k))
    requires PodExists(s.w, k)
    ensures PodExists(Next(s, step).w, k)
  {
    hide Call, Shape;
    var s' := Next(s, step);
    var p :| p in s.w.pods && p.key == k;
    if step.Bind? || step.PodMoves? {
      var j :| 0 <= j < |s.w.pods| && s.w.pods[j] == p;
      assert s'.w.pods[j] in s'.w.pods && s'.w.pods[j].key == k;
    } else {
      if step.Advance? {
        CallSparesOthers(s.w, s.pc, step.c, p);
      }
      assert p in s'.w.pods;
    }
  }

  lemma CallSparesOthers(w: World, pc: Pc, c: Choice, p: Pod)
    requires Shape(pc) && p in w.pods && KeyOf(pc) != Some(p.key)
    ensures p in Call(w, pc, c).0.pods
  {
    hide RestoreStep, IsolateStep, PodsNamed, ReadPod, CachedJob;
    assert pc.DeletePods? ==> pc.left[0] in pc.left;
  }

  /** A lost orphan stays lost until a user creates a job of its name again, or somebody else removes the pod. */
  lemma OrphanStaysLost(s: State, step: Step, k: Key)
    requires Inv(s) && Enabled(s, step) && LostOrphan(s, k)
    ensures LostOrphan(Next(s, step), k) <==> !(step == PodGone(k) || (step.UserCreate? && step.k == k))
  {
    hide Call, Shape;
    ResyncNeedsJob(s, k);
    if BringsBack(step, k) {
      BringingBackSignals(s, step, k);
    } else {
      StepKeepsAbandoned(s, step, k);
      if step != PodGone(k) {
        OthersPodsStay(s, step, k);
      }
    }
  }

  /** A lost job stays lost until somebody writes it or a resync replays it, and a resync always can. */
  lemma JobStaysLost(s: State, step: Step, k: Key)
    requires Inv(s) && Enabled(s, step) && LostJob(s, k)
    ensures LostJob(Next(s, step), k) <==> !BringsBack(step, k)
    ensures Enabled(s, Resync(k))
  {
    hide Call, Shape;
    ResyncNeedsJob(s, k);
    if BringsBack(step, k) {
      BringingBackSignals(s, step, k);
    } else {
      StepKeepsAbandoned(s, step, k);
    }
  }

  // ----- running jobs -----

  predicate RunningWithoutPod(w: World, k: Key) {
    StoredJob(w, k).Some? && StoredJob(w, k).value.job.phase == Running && !PodExists(w, k)
  }

  /** The worker is about to find out that there is no pod, or will put the key back. */
  predicate Checking(pc: Pc, k: Key) {
    match pc
    case Fetch(k') => k == k'
    case GetPod(f) => k == f.key
    case SetPhase(f, _, _, _) => k == f.key
    case Finish(k', r) => k == k' && Requeues(r)
    case _ => false
  }

  ghost predicate LossNoticed(s: State, k: Key) {
    RunningWithoutPod(s.w, k) ==> Signalled(s, k) || Checking(s.pc, k)
  }

  /**
   The three ways to miss the loss of a pod: it goes while the worker is elsewhere; it went and the fetch breaks; or it
   went after the worker had read it as running, and the status update says so.
   */
  ghost predicate Strands(s: State, step: Step, k: Key) {
    && !Signalled(s, k) && StoredJob(s.w, k).Some? && StoredJob(s.w, k).value.job.phase == Running
    && (|| (step == PodGone(k) && !Checking(s.pc, k))
        || (!PodExists(s.w, k) && FetchBreaks(s, step, k))
        || (!PodExists(s.w, k) && step.Advance? && step.c.answer == Served
            && s.pc.SetPhase? && s.pc.f.key == k && s.pc.phase == Running))
  }

  /** What the worker does to a Running job without a pod, when nothing else signals it. */
  lemma WorkerMissesLoss(s: State, c: Choice, k: Key)
    requires Inv(s) && Enabled(s, Advance(c)) && !Signalled(s, k) && RunningWithoutPod(s.w, k) && Checking(s.pc, k)
    ensures LossNoticed(Next(s, Advance(c)), k) <==> !Strands(s, Advance(c), k)
  {
    hide LogOk, Touched, AddPod, DropPod, UpdateFinalizers, RemovePod, RestoreStep, IsolateStep;
    CacheBehindIsSignalled(s, k);
    WritesSignal(s, Advance(c), k);
    PodsNamedFinds(s.w, k);
    if FetchedOf(s.pc).Some? {
      StaleIsSignalled(s, FetchedOf(s.pc).value);
    }
  }

  /** The worker takes no pod from a Running job, unless the job's write is yet to be seen. */
  lemma WorkerSparesPod(s: State, c: Choice, k: Key)
    requires Inv(s) && Enabled(s, Advance(c)) && !Signalled(s, k) && PodExists(s.w, k)
    requires StoredJob(s.w, k).Some? && StoredJob(s.w, k).value.job.phase == Running
    ensures PodExists(Next(s, Advance(c)).w, k)
  {
    if KeyOf(s.pc) != Some(k) {
      OthersPodsStay(s, Advance(c), k);
    } else {
      CacheBehindIsSignalled(s, k);
      if FetchedOf(s.pc).Some? {
        StaleIsSignalled(s, FetchedOf(s.pc).value);
      }
      assert !s.pc.DeleteFailed? && !s.pc.DeletePods?;
      CallAddsPods(s.w, s.pc, c);
    }
  }

  lemma CallAddsPods(w: World, pc: Pc, c: Choice)
    requires !pc.DeleteFailed? && !pc.DeletePods?
    ensures w.pods <= Call(w, pc, c).0.pods
  {
    hide RestoreStep, IsolateStep, PodsNamed, ReadPod, CachedJob;
  }

  lemma OtherStepsNoticeLoss(s: State, step: Step, k: Key)
    requires Inv(s) && Enabled(s, step) && LossNoticed(s, k) && !step.Advance?
    ensures LossNoticed(Next(s, step), k) <==> !Strands(s, step, k)
  {
    hide LogOk, Shape;
    WritesSignal(s, step, k);
    if Signalled(s, k) && step != Take(k) {
      SignalsStay(s, step, k);
    }
    if PodExists(s.w, k) && step != PodGone(k) {
      OthersPodsStay(s, step, k);
    }
  }

  lemma AdvanceNoticesLoss(s: State, c: Choice, k: Key)
    requires Inv(s) && Enabled(s, Advance(c)) && LossNoticed(s, k)
    ensures LossNoticed(Next(s, Advance(c)), k) <==> !Strands(s, Advance(c), k)
  {
    hide LogOk, Shape, Call, Touched;
    var step := Advance(c);
    WritesSignal(s, step, k);
    if Signalled(s, k) {
      SignalsStay(s, step, k);
    } else if StoredJob(s.w, k).Some? && StoredJob(s.w, k).value.job.phase == Running {
      if PodExists(s.w, k) {
        WorkerSparesPod(s, c, k);
      } else {
        WorkerMissesLoss(s, c, k);
      }
    }
  }

  /** A step leaves the loss of a pod unnoticed exactly when it is one of the three. */
  lemma LossIsMissedExactly(s: State, step: Step, k: Key)
    requires Inv(s) && Enabled(s, step) && LossNoticed(s, k)
    ensures LossNoticed(Next(s, step), k) <==> !Strands(s, step, k)
  {
    if step.Advance? {
      AdvanceNoticesLoss(s, step.c, k);
    } else {
      OtherStepsNoticeLoss(s, step, k);
    }
  }

  ghost predicate NothingStrands(states: seq<State>, steps: seq<Step>, n: nat, k: Key)
    requires n <= |steps| < |states|
  {
    forall i | 0 <= i < n :: !Strands(states[i], steps[i], k)
  }

  /** Through n steps of a run the loss of a Running job's pod is noticed, exactly when no step is one of the three. */
  lemma {:induction false} LossesAreNoticed(states: seq<State>, steps: seq<Step>, n: nat, k: Key)
    requires IsRun(states, steps) && n <= |steps|
    ensures (forall i | 0 <= i <= n :: LossNoticed(states[i], k)) <==> NothingStrands(states, steps, n, k)
  {
    hide LossNoticed, Strands, Init, Inv, Enabled, Next;
    if n == 0 {
      NothingToNotice(states[0], k);
    } else {
      LossesAreNoticed(states, steps, n - 1, k);
      InvAlways(states, steps, n - 1);
      var s, step := states[n - 1], steps[n - 1];
      assert Enabled(s, step) && states[n] == Next(s, step);
      if LossNoticed(s, k) {
        LossIsMissedExactly(s, step, k);
      }
      assert NothingStrands(states, steps, n, k) <==> NothingStrands(states, steps, n - 1, k) && !Strands(s, step, k);
    }
  }

  /** A Running job without a pod that nothing brings back to the worker. */
  ghost predicate Stranded(s: State, k: Key) {
    RunningWithoutPod(s.w, k) && Abandoned(s, k)
  }

  /** A loss that is not noticed strands the job: the worker cannot hold the key in any other way. */
  lemma MissedLossStrands(s: State, k: Key)
    requires Inv(s)
    ensures Stranded(s, k) <==> !LossNoticed(s, k)
  {
    if RunningWithoutPod(s.w, k) && !Signalled(s, k) {
      CacheBehindIsSignalled(s, k);
      if FetchedOf(s.pc).Some? {
        StaleIsSignalled(s, FetchedOf(s.pc).value);
      }
    }
  }

  /** A stranded job stays stranded until somebody writes it or a resync replays it, and a resync always can. */
  lemma StrandedStays(s: State, step: Step, k: Key)
    requires Inv(s) && Enabled(s, step) && Stranded(s, k)
    ensures Stranded(Next(s, step), k) <==> !BringsBack(step, k)
    ensures Enabled(s, Resync(k))
  {
    hide Call, Shape;
    ResyncNeedsJob(s, k);
    if BringsBack(step, k) {
      BringingBackSignals(s, step, k);
    } else {
      StepKeepsAbandoned(s, step, k);
      PodsAppearByCreation(s, step, k);
    }
  }
}
