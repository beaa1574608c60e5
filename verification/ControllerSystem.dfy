/**
 The controller in its environment: one worker with a work queue and an informer cache, users, a pod scheduler,
 pods that change phase, and nodes that change under other hands. Every interleaving at API-call granularity is a run.
 */
module ControllerSystem {
  import opened Capacity
  import opened GpuNodeDiscovery
  import opened JobLog
  import opened KubeTypes
  import opened NodePatches
  import opened ReconcileProtocol
  import opened Wrappers

  /**
   `dirty` are the keys added to the work queue and not yet taken (a key dirtied while it is being processed waits
   there for the worker to finish), `delayed` the keys that come back after a delay or a back-off.
   */
  datatype State = State(w: World, dirty: set<Key>, delayed: set<Key>, pc: Pc)

  datatype Step =
    | Take(k: Key)
    | Advance(c: Choice)
    | Release
    | Deliver
    | Timer(k: Key)
    | Resync(k: Key)
    | UserCreate(k: Key, spec: JobSpec, finalizers: seq<string>)
    | UserEdit(k: Key, spec: JobSpec)
    | UserDelete(k: Key)
    | OthersFinalizers(k: Key, finalizers: seq<string>)
    | Bind(i: nat, target: string)
    | PodMoves(i: nat, phase: PodPhase)
    | PodGone(k: Key)
    | NodeChanges(i: nat, node: Node)
    | NodeJoins(node: Node)

  function KeyOf(pc: Pc): Option<Key> {
    match pc
    case Idle => None
    case Fetch(k) => Some(k)
    case GetPod(f) => Some(f.key)
    case SetPhase(f, _, _, _) => Some(f.key)
    case ListNodes(f) => Some(f.key)
    case QueryHealth(f, _) => Some(f.key)
    case Sync(f, _, _) => Some(f.key)
    case CreatePod(f, _) => Some(f.key)
    case DeleteFailed(f) => Some(f.key)
    case ListPods(k, _) => Some(k)
    case DeletePods(k, _, _) => Some(k)
    case DropFinalizer(f) => Some(f.key)
    case Finish(k, _) => Some(k)
  }

  /** Others leave the controller's label and taint alone. */
  ghost predicate ForeignChange(before: Node, after: Node) {
    && after.name == before.name
    && Label(after, HIGH_DENSITY_AFFINITY_LABEL) == Label(before, HIGH_DENSITY_AFFINITY_LABEL)
    && (forall t: Taint | t.key == UNHEALTHY_TAINT_KEY :: t in after.taints <==> t in before.taints)
  }

  /** The API server refuses new finalizers on an object marked for deletion. */
  predicate MayReplace(job: Job, finalizers: seq<string>) {
    job.deleting ==> forall f | f in finalizers :: f in job.finalizers
  }

  /**
   `Deliver` updates the cache and queues the key at once. `Resync` is the informer's periodic replay of an object in
   the cache, which queues its key although nothing has changed.
   */
  ghost predicate Enabled(s: State, step: Step) {
    match step
    case Take(k) => s.pc.Idle? && k in s.dirty
    case Advance(_) => !Stopped(s.pc)
    case Release => s.pc.Finish?
    case Deliver => s.w.seen < |s.w.log|
    case Timer(k) => k in s.delayed
    case Resync(k) => CachedJob(s.w, k).Some?
    case UserCreate(k, _, _) => StoredJob(s.w, k).None?
    case UserEdit(k, _) => StoredJob(s.w, k).Some?
    case UserDelete(k) => StoredJob(s.w, k).Some?
    case OthersFinalizers(k, finalizers) =>
      StoredJob(s.w, k).Some? && MayReplace(StoredJob(s.w, k).value.job, finalizers)
    case Bind(i, target) =>
      && i < |s.w.pods| && s.w.pods[i].node.None?
      && exists n | n in s.w.nodes :: n.name == target && Tolerates(s.w.pods[i], n)
    case PodMoves(i, _) => i < |s.w.pods|
    case PodGone(_) => true
    case NodeChanges(i, node) => i < |s.w.nodes| && ForeignChange(s.w.nodes[i], node)
    case NodeJoins(node) =>
      Label(node, HIGH_DENSITY_AFFINITY_LABEL).None? && forall n | n in s.w.nodes :: n.name != node.name
  }

  function Write(s: State, e: Event): State {
    s.(w := s.w.(log := s.w.log + [e]))
  }

  function DeleteEvent(k: Key, job: Job): Event {
    if job.finalizers == [] then Del(k) else Put(k, job.(deleting := true))
  }

  /** Another controller, or the user, edits the finalizers; with the last one a job marked for deletion goes away. */
  function FinalizersEvent(k: Key, job: Job, finalizers: seq<string>): Event {
    if job.deleting && finalizers == [] then Del(k) else Put(k, job.(finalizers := finalizers))
  }

  function Next(s: State, step: Step): State
    requires Enabled(s, step)
  {
    match step
    case Take(k) => s.(dirty := s.dirty - {k}, pc := Fetch(k))
    case Advance(c) => var (w', pc') := Call(s.w, s.pc, c); s.(w := w', pc := pc')
    case Release =>
      s.(delayed := if Requeues(s.pc.result) then s.delayed + {s.pc.key} else s.delayed, pc := Idle)
    case Deliver => s.(w := s.w.(seen := s.w.seen + 1), dirty := s.dirty + {s.w.log[s.w.seen].key})
    case Timer(k) => s.(delayed := s.delayed - {k}, dirty := s.dirty + {k})
    case Resync(k) => s.(dirty := s.dirty + {k})
    case UserCreate(k, spec, finalizers) => Write(s, Put(k, Job(|s.w.log|, spec, Unset, false, finalizers)))
    case UserEdit(k, spec) => Write(s, Put(k, StoredJob(s.w, k).value.job.(spec := spec)))
    case UserDelete(k) => Write(s, DeleteEvent(k, StoredJob(s.w, k).value.job))
    case OthersFinalizers(k, finalizers) => Write(s, FinalizersEvent(k, StoredJob(s.w, k).value.job, finalizers))
    case Bind(i, target) => s.(w := s.w.(pods := s.w.pods[i := s.w.pods[i].(node := Some(target))]))
    case PodMoves(i, phase) => s.(w := s.w.(pods := s.w.pods[i := s.w.pods[i].(phase := phase)]))
    case PodGone(k) => s.(w := s.w.(pods := RemovePod(s.w.pods, k)))
    case NodeChanges(i, node) => s.(w := s.w.(nodes := s.w.nodes[i := node]))
    case NodeJoins(node) => s.(w := s.w.(nodes := s.w.nodes + [node]))
  }

  /** No jobs and no pods yet, and nodes the controller has not labelled. */
  ghost predicate Init(s: State) {
    && s.w.log == [] && s.w.seen == 0 && s.w.pods == []
    && s.dirty == {} && s.delayed == {} && s.pc == Idle
    && DistinctNames(s.w.nodes)
    && (forall n | n in s.w.nodes :: Label(n, HIGH_DENSITY_AFFINITY_LABEL).None?)
  }

  ghost predicate IsRun(states: seq<State>, steps: seq<Step>) {
    && |states| == |steps| + 1
    && Init(states[0])
    && forall i | 0 <= i < |steps| :: Enabled(states[i], steps[i]) && states[i + 1] == Next(states[i], steps[i])
  }

  // ----- what the worker knows -----

  /** The values a program counter can carry. */
  ghost predicate Shape(pc: Pc) {
    match pc
    case GetPod(f) => f.job.phase == Pending || f.job.phase == Running
    case SetPhase(f, phase, ok, ko) =>
      && Requeues(ko) && (phase == Running ==> ok == DONE)
      && (|| (f.job.phase == Failed && phase == Failed && ok == DONE)
          || ((f.job.phase == Pending || f.job.phase == Running)
              && (phase == Running || phase == Failed || phase == Complete))
          || (f.job.phase == Running && phase == Pending && ok == RECHECK))
    case ListNodes(f) => f.job.phase == Pending && ValidSpec(f.job.spec)
    case QueryHealth(f, _) => f.job.phase == Pending && ValidSpec(f.job.spec)
    case Sync(f, _, todo) => f.job.phase == Pending && ValidSpec(f.job.spec) && DisjointNames(todo)
    case CreatePod(f, pod) =>
      f.job.phase == Pending && ValidSpec(f.job.spec) && exists inUse :: pod == HpcPod(f.key, f.job.spec, inUse)
    case DeleteFailed(f) => f.job.phase == Failed
    case ListPods(k, owner) => owner.Some? ==> owner.value.key == k && Dormant(owner.value.job.phase)
    case DeletePods(k, owner, left) =>
      && (owner.Some? ==> owner.value.key == k && Dormant(owner.value.job.phase))
      && left != [] && (forall p | p in left :: p.key == k)
    case DropFinalizer(f) => Dormant(f.job.phase)
    case _ => true
  }

  /** Phases the controller no longer acts on. */
  predicate Dormant(phase: Phase) {
    phase != Unset && phase != Pending && phase != Running && phase != Failed
  }

  function FetchedOf(pc: Pc): Option<Fetched> {
    match pc
    case GetPod(f) => Some(f)
    case SetPhase(f, _, _, _) => Some(f)
    case ListNodes(f) => Some(f)
    case QueryHealth(f, _) => Some(f)
    case Sync(f, _, _) => Some(f)
    case CreatePod(f, _) => Some(f)
    case DeleteFailed(f) => Some(f)
    case ListPods(_, owner) => owner
    case DeletePods(_, owner, _) => owner
    case DropFinalizer(f) => Some(f)
    case _ => None
  }

  ghost predicate WasRead(w: World, f: Fetched) {
    && f.ver < w.seen <= |w.log|
    && IsPutOf(w.log[f.ver], f.key)
    && f.job == Localised(w.log[f.ver].job)
  }

  predicate IsPutOf(e: Event, k: Key) {
    e.Put? && e.key == k
  }

  /** The fetched job is still what the cache holds, unless the key was dirtied since. */
  ghost predicate Fresh(s: State, f: Fetched) {
    && WasRead(s.w, f)
    && (f.key in s.dirty || CachedJob(s.w, f.key) == Some(Stored(s.w.log[f.ver].job, f.ver)))
  }

  ghost predicate CleanupFresh(s: State) {
    (s.pc.ListPods? || s.pc.DeletePods?) && s.pc.owner.None? ==> s.pc.key in s.dirty || CachedJob(s.w, s.pc.key).None?
  }

  ghost predicate Inv(s: State) {
    && ValidWorld(s.w)
    && LogOk(s.w.log)
    && Shape(s.pc)
    && (FetchedOf(s.pc).Some? ==> Fresh(s, FetchedOf(s.pc).value))
    && CleanupFresh(s)
  }

  // ----- the invariant is kept -----

  lemma ResumeShape(f: Fetched, healthy: seq<Node>, todo: SyncPc)
    requires f.job.phase == Pending && ValidSpec(f.job.spec) && DisjointNames(todo)
    ensures Shape(Resume(f, healthy, todo))
  {
    var best := LeastDensity(healthy, f.job.spec.gpuCount);
    if SyncDone(todo) && best.Some? {
      assert Decide(f, healthy) == CreatePod(f, HpcPod(f.key, f.job.spec, best.value));
    }
  }

  lemma SyncCallKeepsShape(w: World, pc: Pc, c: Choice)
    requires Shape(pc) && (pc.Sync? || pc.QueryHealth?)
    ensures Shape(Call(w, pc, c).1)
  {
    if pc.QueryHealth? {
      if c.reply.Vector? {
        var vec := c.reply.samples;
        var healthy := WithVerdict(pc.gpuNodes, vec, Healthy);
        ClassesAreDisjoint(pc.gpuNodes, vec);
        ResumeShape(pc.f, healthy, SyncPc(healthy, None, WithVerdict(pc.gpuNodes, vec, Unhealthy)));
      }
    } else if SyncDone(pc.todo) {
      ResumeShape(pc.f, pc.healthy, pc.todo);
    } else {
      var todo := pc.todo;
      var (_, todo') :=
        if todo.restore == [] || (c.isolateFirst && todo.isolate != []) then IsolateStep(w.nodes, todo, c.answer)
        else RestoreStep(w.nodes, w.pods, todo, c.answer);
      assert forall n | n in todo'.restore :: n in todo.restore;
      assert forall n | n in todo'.isolate :: n in todo.isolate;
      ResumeShape(pc.f, pc.healthy, todo');
    }
  }

  lemma CallKeepsShape(w: World, pc: Pc, c: Choice)
    requires Shape(pc)
    ensures Shape(Call(w, pc, c).1)
  {
    hide UpdateStatus, UpdateFinalizers, AddPod, DropPod, ReadPod, CachedJob, RestoreStep, IsolateStep;
    if pc.Sync? || pc.QueryHealth? {
      SyncCallKeepsShape(w, pc, c);
    }
  }

  /** A call writes at most one job event, and only about the key being reconciled. */
  lemma CallWrites(w: World, pc: Pc, c: Choice)
    ensures var w' := Call(w, pc, c).0;
            && w'.seen == w.seen && w.log <= w'.log && |w'.log| <= |w.log| + 1
            && (w'.log != w.log ==> |w'.log| == |w.log| + 1 && Some(w'.log[|w.log|].key) == KeyOf(pc))
  {
  }

  lemma WriteKeepsLookups(log: seq<Event>, e: Event)
    ensures forall n, k | 0 <= n <= |log| :: Lookup(log + [e], n, k) == Lookup(log, n, k)
  {
    forall n, k | 0 <= n <= |log|
      ensures Lookup(log + [e], n, k) == Lookup(log, n, k)
    {
      LookupAppend(log, [e], n, k);
    }
  }

  lemma WriteKeepsInv(s: State, e: Event)
    requires Inv(s) && EntryOk(s.w.log + [e], |s.w.log|)
    ensures Inv(Write(s, e))
  {
    LogOkAppend(s.w.log, e);
    WriteKeepsLookups(s.w.log, e);
  }

  /** The status update is an allowed move: it is accepted only over the very version that was fetched. */
  lemma StatusWriteIsAllowed(s: State, c: Choice)
    requires Inv(s) && s.pc.SetPhase?
    ensures var w' := Call(s.w, s.pc, c).0;
            || w'.log == s.w.log
            || (w' == s.w.(log := w'.log)
                && exists e :: w'.log == s.w.log + [e] && EntryOk(s.w.log + [e], |s.w.log|))
  {
    var f := s.pc.f;
    var w' := Call(s.w, s.pc, c).0;
    if w'.log != s.w.log {
      var st := StoredJob(s.w, f.key).value;
      LookupVersion(s.w.log, |s.w.log|, f.key);
      var e := Put(f.key, st.job.(phase := s.pc.phase));
      assert w'.log == s.w.log + [e];
      LookupAppend(s.w.log, [e], |s.w.log|, f.key);
      assert EntryOk(s.w.log + [e], |s.w.log|);
    }
  }

  lemma FinalizerWriteIsAllowed(s: State, c: Choice)
    requires Inv(s) && s.pc.DropFinalizer?
    ensures var w' := Call(s.w, s.pc, c).0;
            || w'.log == s.w.log
            || (w' == s.w.(log := w'.log)
                && exists e :: w'.log == s.w.log + [e] && EntryOk(s.w.log + [e], |s.w.log|))
  {
    var f := s.pc.f;
    var w' := Call(s.w, s.pc, c).0;
    if w'.log != s.w.log {
      var e := w'.log[|s.w.log|];
      assert w'.log == s.w.log + [e];
      LookupAppend(s.w.log, [e], |s.w.log|, f.key);
      assert EntryOk(s.w.log + [e], |s.w.log|);
    }
  }

  /** What the worker fetched, if anything, stays the same value until it is done with the key. */
  lemma CallKeepsFetched(w: World, pc: Pc, c: Choice)
    ensures var f' := FetchedOf(Call(w, pc, c).1);
            f'.Some? && f' != FetchedOf(pc) ==>
              && pc.Fetch? && CachedJob(w, pc.key).Some?
              && f'.value == Fetched(pc.key, Localised(CachedJob(w, pc.key).value.job), CachedJob(w, pc.key).value.ver)
  {
    hide UpdateStatus, UpdateFinalizers, AddPod, DropPod, ReadPod, RestoreStep, IsolateStep, PodsNamed;
  }

  /** A cleanup without an owner starts from a fetch that finds nothing. */
  lemma CleanupStartsFromFetch(w: World, pc: Pc, c: Choice)
    ensures var pc' := Call(w, pc, c).1;
            (pc'.ListPods? || pc'.DeletePods?) && pc'.owner.None? ==>
              && KeyOf(pc') == KeyOf(pc)
              && (|| (pc.Fetch? && CachedJob(w, pc.key).None?)
                  || ((pc.ListPods? || pc.DeletePods?) && pc.owner.None?))
  {
    hide UpdateStatus, UpdateFinalizers, AddPod, DropPod, ReadPod, RestoreStep, IsolateStep, PodsNamed;
  }

  lemma AdvanceKeepsFresh(s: State, c: Choice)
    requires Inv(s) && Enabled(s, Advance(c)) && Call(s.w, s.pc, c).0.log == s.w.log
    ensures Inv(Next(s, Advance(c)))
  {
    hide Call, Shape, LogOk;
    CallKeepsShape(s.w, s.pc, c);
    CallWrites(s.w, s.pc, c);
    CallKeepsFetched(s.w, s.pc, c);
    CleanupStartsFromFetch(s.w, s.pc, c);
    if s.pc.Fetch? {
      LookupVersion(s.w.log, s.w.seen, s.pc.key);
    }
  }

  lemma AdvanceKeepsInv(s: State, c: Choice)
    requires Inv(s) && Enabled(s, Advance(c))
    ensures Inv(Next(s, Advance(c)))
  {
    var (w', pc') := Call(s.w, s.pc, c);
    if w'.log == s.w.log {
      AdvanceKeepsFresh(s, c);
    } else {
      assert s.pc.SetPhase? || s.pc.DropFinalizer?;
      if s.pc.SetPhase? {
        StatusWriteIsAllowed(s, c);
      } else {
        FinalizerWriteIsAllowed(s, c);
      }
      var e :| w'.log == s.w.log + [e] && EntryOk(s.w.log + [e], |s.w.log|);
      WriteKeepsInv(s, e);
      assert Next(s, Advance(c)) == Write(s, e).(pc := pc');
      assert pc'.Finish?;
    }
  }

  lemma UserWriteKeepsInv(s: State, step: Step)
    requires Inv(s) && Enabled(s, step)
    requires step.UserCreate? || step.UserEdit? || step.UserDelete? || step.OthersFinalizers?
    ensures Inv(Next(s, step))
  {
    var k := step.k;
    var e := Next(s, step).w.log[|s.w.log|];
    assert Next(s, step) == Write(s, e);
    LookupAppend(s.w.log, [e], |s.w.log|, k);
    assert EntryOk(s.w.log + [e], |s.w.log|);
    WriteKeepsInv(s, e);
  }

  lemma StepKeepsInv(s: State, step: Step)
    requires Inv(s) && Enabled(s, step)
    ensures Inv(Next(s, step))
  {
    match step {
      case Advance(c) => AdvanceKeepsInv(s, c);
      case UserCreate(_, _, _) => UserWriteKeepsInv(s, step);
      case UserEdit(_, _) => UserWriteKeepsInv(s, step);
      case UserDelete(_) => UserWriteKeepsInv(s, step);
      case OthersFinalizers(_, _) => UserWriteKeepsInv(s, step);
      case _ =>
    }
  }

  lemma {:induction false} InvAlways(states: seq<State>, steps: seq<Step>, i: nat)
    requires IsRun(states, steps) && i < |states|
    ensures Inv(states[i])
  {
    if i > 0 {
      InvAlways(states, steps, i - 1);
      StepKeepsInv(states[i - 1], steps[i - 1]);
    }
  }
}
