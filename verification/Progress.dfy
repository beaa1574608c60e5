/**
 What "noticed" is worth: the system, left to itself, can get from every reachable state in which an orphan is noticed
 to one in which its pod is gone, and from no other. The same for waiting jobs and the worker's next look at them.
 */
module Progress {
  import opened Attention
  import opened ControllerSystem
  import opened JobLog
  import opened JobOutcomes
  import opened KubeTypes
  import opened NodePatches
  import opened PodCreation
  import opened PrometheusClient
  import opened ReconcileProtocol
  import opened UndisturbedReconcile

  /** What the controller and its queue do by themselves, without waiting for a resync. */
  predicate Internal(step: Step) {
    step.Take? || step.Advance? || step.Release? || step.Deliver? || step.Timer?
  }

  ghost predicate IsPath(s: State, steps: seq<Step>, s': State)
    decreases |steps|
  {
    if steps == [] then s' == s
    else Internal(steps[0]) && Enabled(s, steps[0]) && IsPath(Next(s, steps[0]), steps[1..], s')
  }

  /** The system can get from one state to the other by itself. */
  ghost predicate Leads(s: State, s': State) {
    exists steps :: IsPath(s, steps, s')
  }

  lemma LeadsNowhere(s: State)
    ensures Leads(s, s)
  {
    assert IsPath(s, [], s);
  }

  lemma LeadsFirst(s: State, step: Step, s': State)
    requires Internal(step) && Enabled(s, step) && Leads(Next(s, step), s')
    ensures Leads(s, s')
  {
    hide Enabled, Next;
    var steps :| IsPath(Next(s, step), steps, s');
    assert ([step] + steps)[1..] == steps;
    assert IsPath(s, [step] + steps, s');
  }

  // ----- what holds on the way -----

  /** A key without a job whose pod, if there is one, is noticed. */
  ghost predicate OrphanCare(s: State, k: Key) {
    Inv(s) && DistinctKeys(s.w.pods) && StoredJob(s.w, k).None? && OrphanNoticed(s, k)
  }

  /** A job that is remembered for as long as it waits. */
  ghost predicate JobCare(s: State, k: Key) {
    Inv(s) && JobRemembered(s, k)
  }

  /** The worker writes only what is stored. */
  lemma WorkerMakesNoJob(s: State, c: Choice, k: Key)
    requires Inv(s) && Enabled(s, Advance(c)) && StoredJob(s.w, k).None?
    ensures StoredJob(Next(s, Advance(c)).w, k).None?
  {
    hide Touched, LogOk, RestoreStep, IsolateStep;
    var w' := Next(s, Advance(c)).w;
    CallWrites(s.w, s.pc, c);
    if w'.log != s.w.log {
      assert w'.log == s.w.log + [w'.log[|s.w.log|]];
      LookupAppend(s.w.log, [w'.log[|s.w.log|]], |s.w.log|, k);
    }
  }

  lemma StepKeepsOrphanCare(s: State, step: Step, k: Key)
    requires OrphanCare(s, k) && Internal(step) && Enabled(s, step) && !FetchBreaks(s, step, k)
    ensures OrphanCare(Next(s, step), k)
  {
    hide Call, Inv, OrphanNoticed, Lookup, DistinctKeys;
    StepKeepsInv(s, step);
    StepKeepsDistinct(s, step);
    OrphanStep(s, step, k);
    if step.Advance? {
      WorkerMakesNoJob(s, step.c, k);
    }
  }

  lemma StepKeepsJobCare(s: State, step: Step, k: Key)
    requires JobCare(s, k) && Internal(step) && Enabled(s, step) && !FetchBreaks(s, step, k)
    ensures JobCare(Next(s, step), k)
  {
    StepKeepsInv(s, step);
    AwaitingStep(s, step, k);
  }

  ghost predicate Care(s: State, k: Key, orphan: bool) {
    if orphan then OrphanCare(s, k) else JobCare(s, k)
  }

  lemma StepKeepsCare(s: State, step: Step, k: Key, orphan: bool)
    requires Care(s, k, orphan) && Internal(step) && Enabled(s, step) && !FetchBreaks(s, step, k)
    ensures Care(Next(s, step), k, orphan)
  {
    if orphan {
      StepKeepsOrphanCare(s, step, k);
    } else {
      StepKeepsJobCare(s, step, k);
    }
  }

  // ----- the way to the worker -----

  const SERVED := Choice(Served, Vector([]), false)

  function Serve(): Script {
    (n: nat) => SERVED
  }

  /** The worker finishes what it is doing. */
  lemma {:induction false} FinishesWork(s: State, k: Key, orphan: bool) returns (s': State)
    requires Care(s, k, orphan)
    ensures Leads(s, s') && Care(s', k, orphan) && s'.pc.Idle?
    decreases Stage(s.pc), Left(s.pc)
  {
    hide Care, Leads;
    if s.pc.Idle? {
      s' := s;
      LeadsNowhere(s);
    } else if s.pc.Finish? {
      s' := Next(s, Release);
      StepKeepsCare(s, Release, k, orphan);
      LeadsNowhere(s');
      LeadsFirst(s, Release, s');
    } else {
      CallProgresses(s.w, s.pc, SERVED);
      StepKeepsCare(s, Advance(SERVED), k, orphan);
      s' := FinishesWork(Next(s, Advance(SERVED)), k, orphan);
      LeadsFirst(s, Advance(SERVED), s');
    }
  }

  lemma LeadsOn(s: State, m: State, s': State)
    requires Leads(s, m) && Leads(m, s')
    ensures Leads(s, s')
  {
    var steps :| IsPath(s, steps, m);
    PathLeadsOn(s, steps, m, s');
  }

  lemma {:induction false} PathLeadsOn(s: State, steps: seq<Step>, m: State, s': State)
    requires IsPath(s, steps, m) && Leads(m, s')
    ensures Leads(s, s')
    decreases |steps|
  {
    if steps != [] {
      PathLeadsOn(Next(s, steps[0]), steps[1..], m, s');
      LeadsFirst(s, steps[0], s');
    }
  }

  /** All events arrive at an idle worker. */
  lemma {:induction false} EventsArrive(s: State, k: Key, orphan: bool) returns (s': State)
    requires Care(s, k, orphan) && s.pc.Idle?
    ensures Leads(s, s') && Care(s', k, orphan) && s'.pc.Idle? && s'.w.seen == |s'.w.log|
    decreases |s.w.log| - s.w.seen
  {
    hide Leads, OrphanNoticed, JobRemembered;
    if s.w.seen == |s.w.log| {
      s' := s;
      LeadsNowhere(s);
    } else {
      assert Enabled(s, Deliver);
      StepKeepsCare(s, Deliver, k, orphan);
      s' := EventsArrive(Next(s, Deliver), k, orphan);
      LeadsFirst(s, Deliver, s');
    }
  }

  /** Then a signalled key is taken, from a queue or after its delay, with the cache up to date. */
  lemma SignalledIsTaken(s: State, k: Key, orphan: bool) returns (s': State)
    requires Care(s, k, orphan) && s.pc.Idle? && s.w.seen == |s.w.log| && Signalled(s, k)
    ensures Leads(s, s') && Care(s', k, orphan) && s'.pc == Fetch(k) && UpToDate(s'.w, k)
  {
    hide Leads, Care;
    if k in s.dirty {
      s' := Next(s, Take(k));
      StepKeepsCare(s, Take(k), k, orphan);
      LeadsNowhere(s');
      LeadsFirst(s, Take(k), s');
    } else {
      var due := Next(s, Timer(k));
      StepKeepsCare(s, Timer(k), k, orphan);
      s' := Next(due, Take(k));
      StepKeepsCare(due, Take(k), k, orphan);
      LeadsNowhere(s');
      LeadsFirst(due, Take(k), s');
      LeadsFirst(s, Timer(k), s');
    }
  }

  ghost predicate Needs(s: State, k: Key, orphan: bool) {
    if orphan then Orphan(s.w, k) else Awaiting(s.w, k)
  }

  /** An idle worker does not hold the key, so whatever is cared for is signalled. */
  lemma IdleCareIsSignalled(s: State, k: Key, orphan: bool)
    requires Care(s, k, orphan) && s.pc.Idle? && Needs(s, k, orphan)
    ensures Signalled(s, k)
  {
  }

  lemma CareIsTaken(s: State, k: Key, orphan: bool) returns (s': State)
    requires Care(s, k, orphan)
    ensures Leads(s, s') && Care(s', k, orphan)
    ensures !Needs(s', k, orphan) || (s'.pc == Fetch(k) && UpToDate(s'.w, k))
  {
    hide Leads, Care, Needs;
    var idle := FinishesWork(s, k, orphan);
    var synced := EventsArrive(idle, k, orphan);
    LeadsOn(s, idle, synced);
    if Needs(synced, k, orphan) {
      IdleCareIsSignalled(synced, k, orphan);
      s' := SignalledIsTaken(synced, k, orphan);
      LeadsOn(s, synced, s');
    } else {
      s' := synced;
    }
  }

  // ----- waiting jobs -----

  /** A job that waits no longer, or is about to be looked at as it is stored. */
  ghost predicate LookedAt(s: State, k: Key) {
    !Awaiting(s.w, k) || (s.pc == Fetch(k) && UpToDate(s.w, k))
  }

  lemma {:induction false} LostJobStaysLost(s: State, steps: seq<Step>, s': State, k: Key)
    requires Inv(s) && LostJob(s, k) && IsPath(s, steps, s')
    ensures LostJob(s', k)
    decreases |steps|
  {
    hide Inv, LostJob, Enabled, Next;
    if steps != [] {
      StepKeepsInv(s, steps[0]);
      JobStaysLost(s, steps[0], k);
      LostJobStaysLost(Next(s, steps[0]), steps[1..], s', k);
    }
  }

  /** A waiting job is remembered exactly when the system can, by itself, get to look at it. */
  lemma RememberedExactlyIfReachable(s: State, k: Key)
    requires Inv(s) && Awaiting(s.w, k)
    ensures JobRemembered(s, k) <==> exists s' :: Leads(s, s') && LookedAt(s', k)
  {
    hide Inv, JobRemembered, Leads, Awaiting;
    if JobRemembered(s, k) {
      var s' := CareIsTaken(s, k, false);
      assert Leads(s, s') && LookedAt(s', k);
    } else {
      ForgottenIsLost(s, k);
      forall s' | Leads(s, s')
        ensures !LookedAt(s', k)
      {
        LostJobIsNotLookedAt(s, s', k);
      }
    }
  }

  lemma LostJobIsNotLookedAt(s: State, s': State, k: Key)
    requires Inv(s) && LostJob(s, k) && Leads(s, s')
    ensures !LookedAt(s', k)
  {
    var steps :| IsPath(s, steps, s');
    LostJobStaysLost(s, steps, s', k);
  }

  // ----- orphans -----

  /** The served cleanup, as a piece of a run. */
  lemma {:induction false} WorkerAloneLeads(s: State, calls: nat)
    ensures Leads(s, Alone(s, Serve(), calls))
    decreases Stage(s.pc), Left(s.pc)
  {
    hide Leads;
    if Stopped(s.pc) {
      LeadsNowhere(s);
    } else {
      CallProgresses(s.w, s.pc, SERVED);
      WorkerAloneLeads(Next(s, Advance(SERVED)), calls + 1);
      LeadsFirst(s, Advance(SERVED), Alone(s, Serve(), calls));
    }
  }

  lemma CleanupIsReached(s: State, k: Key) returns (s': State)
    requires OrphanCare(s, k) && s.pc == Fetch(k) && UpToDate(s.w, k)
    ensures Leads(s, s') && !PodExists(s'.w, k)
  {
    hide Leads, Inv, OrphanNoticed, Alone, Drive;
    s' := Alone(s, Serve(), 0);
    WorkerAloneLeads(s, 0);
    DriveIsWorkerAlone(s, Serve(), 0);
    CleanupCompletes(Serve(), s.w, 0, k);
  }

  lemma {:induction false} LostOrphanStaysLost(s: State, steps: seq<Step>, s': State, k: Key)
    requires Inv(s) && LostOrphan(s, k) && IsPath(s, steps, s')
    ensures LostOrphan(s', k)
    decreases |steps|
  {
    hide Inv, LostOrphan, Enabled, Next;
    if steps != [] {
      StepKeepsInv(s, steps[0]);
      OrphanStaysLost(s, steps[0], k);
      LostOrphanStaysLost(Next(s, steps[0]), steps[1..], s', k);
    }
  }

  lemma LostOrphanKeepsPod(s: State, s': State, k: Key)
    requires Inv(s) && LostOrphan(s, k) && Leads(s, s')
    ensures PodExists(s'.w, k)
  {
    var steps :| IsPath(s, steps, s');
    LostOrphanStaysLost(s, steps, s', k);
  }

  /** An orphan is noticed exactly when the system can, by itself, get rid of it. */
  lemma NoticedExactlyIfCleanable(s: State, k: Key)
    requires Inv(s) && DistinctKeys(s.w.pods) && Orphan(s.w, k)
    ensures OrphanNoticed(s, k) <==> exists s' :: Leads(s, s') && !PodExists(s'.w, k)
  {
    hide Inv, OrphanNoticed, Leads, PodExists;
    if OrphanNoticed(s, k) {
      var taken := CareIsTaken(s, k, true);
      if Needs(taken, k, true) {
        var s' := CleanupIsReached(taken, k);
        LeadsOn(s, taken, s');
      }
    } else {
      UnnoticedIsLost(s, k);
      forall s' | Leads(s, s')
        ensures PodExists(s'.w, k)
      {
        LostOrphanKeepsPod(s, s', k);
      }
    }
  }
}
