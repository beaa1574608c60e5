/**
 The reconciler as a machine that makes one API call a step.
 A program counter is a call the code of internal/controller/hpcjob_controller.go is about to make, with the
 values it has in hand; `Call` makes the call on the cluster and follows the code to the next one.
 */
module ReconcileProtocol {
  import opened Capacity
  import opened Finalizers
  import opened GpuNodeDiscovery
  import opened JobLog
  import opened KubeTypes
  import opened NodePatches
  import opened PrometheusClient
  import opened Wrappers

  // ----- the API server -----

  /** `seen` counts the job writes the controller's informer cache has received. */
  datatype World = World(nodes: seq<Node>, pods: seq<Pod>, log: seq<Event>, seen: nat)

  ghost predicate ValidWorld(w: World) {
    w.seen <= |w.log|
  }

  datatype ApiError = NotFound | AlreadyExists | Conflict | Internal

  function Refusal(answer: Answer): ApiError {
    if answer == Conflicted then Conflict else Internal
  }

  function StoredJob(w: World, k: Key): Option<Stored> {
    Lookup(w.log, |w.log|, k)
  }

  function CachedJob(w: World, k: Key): Option<Stored> {
    if w.seen <= |w.log| then Lookup(w.log, w.seen, k) else None
  }

  function PodsNamed(pods: seq<Pod>, k: Key): (r: seq<Pod>)
    ensures forall p :: p in r <==> p in pods && p.key == k
  {
    if pods == [] then []
    else
      assert pods == [pods[0]] + pods[1..];
      (if pods[0].key == k then [pods[0]] else []) + PodsNamed(pods[1..], k)
  }

  function RemovePod(pods: seq<Pod>, k: Key): (r: seq<Pod>)
    ensures forall p :: p in r <==> p in pods && p.key != k
  {
    if pods == [] then []
    else
      assert pods == [pods[0]] + pods[1..];
      (if pods[0].key != k then [pods[0]] else []) + RemovePod(pods[1..], k)
  }

  function ReadPod(w: World, k: Key, answer: Answer): Result<Pod, ApiError> {
    if answer != Served then Err(Refusal(answer))
    else if PodsNamed(w.pods, k) == [] then Err(NotFound)
    else Ok(PodsNamed(w.pods, k)[0])
  }

  /** Creating over an existing name fails with AlreadyExists, which is a different reason than Conflict. */
  function AddPod(w: World, pod: Pod, answer: Answer): Result<World, ApiError> {
    if answer != Served then Err(Refusal(answer))
    else if PodsNamed(w.pods, pod.key) != [] then Err(AlreadyExists)
    else Ok(w.(pods := w.pods + [pod]))
  }

  function DropPod(w: World, k: Key, answer: Answer): Result<World, ApiError> {
    if answer != Served then Err(Refusal(answer))
    else if PodsNamed(w.pods, k) == [] then Err(NotFound)
    else Ok(w.(pods := RemovePod(w.pods, k)))
  }

  /** Status update under optimistic concurrency; an update that changes nothing is not a write. */
  function UpdateStatus(w: World, k: Key, ver: nat, phase: Phase, answer: Answer): Result<World, ApiError> {
    if answer != Served then Err(Refusal(answer))
    else match StoredJob(w, k)
      case None => Err(NotFound)
      case Some(st) =>
        if st.ver != ver then Err(Conflict)
        else if st.job.phase == phase then Ok(w)
        else Ok(w.(log := w.log + [Put(k, st.job.(phase := phase))]))
  }

  /** Replacing the finalizer list; an object marked for deletion goes away with its last finalizer. */
  function UpdateFinalizers(
    w: World, k: Key, ver: nat, finalizers: seq<string>, answer: Answer): Result<World, ApiError>
  {
    if answer != Served then Err(Refusal(answer))
    else match StoredJob(w, k)
      case None => Err(NotFound)
      case Some(st) =>
        if st.ver != ver then Err(Conflict)
        else if st.job.deleting && finalizers == [] then Ok(w.(log := w.log + [Del(k)]))
        else if st.job.finalizers == finalizers then Ok(w)
        else Ok(w.(log := w.log + [Put(k, st.job.(finalizers := finalizers))]))
  }

  // ----- the reconciler -----

  /** `ctrl.Result` with the error flag; the delay is in seconds. */
  datatype ReconcileResult = Reconciled(err: bool, requeueAfter: nat)

  const FIVE_MINUTES: nat := 300
  const DONE := Reconciled(false, 0)
  const RECHECK := Reconciled(false, FIVE_MINUTES)
  const FAILURE := Reconciled(true, 0)
  const FAILURE_RECHECK := Reconciled(true, FIVE_MINUTES)

  predicate Requeues(r: ReconcileResult) {
    r.err || r.requeueAfter > 0
  }

  /** The job in the reconciler's memory: an empty phase has been replaced by Pending. */
  datatype Fetched = Fetched(key: Key, job: Job, ver: nat)

  function Localised(job: Job): Job {
    if job.phase == Unset then job.(phase := Pending) else job
  }

  predicate ValidSpec(spec: JobSpec) {
    spec.gpuCount > 0 && |spec.image| > 0
  }

  datatype Pc =
    | Idle
    | Fetch(key: Key)
    | GetPod(f: Fetched)
    | SetPhase(f: Fetched, phase: Phase, ok: ReconcileResult, ko: ReconcileResult)
    | ListNodes(f: Fetched)
    | QueryHealth(f: Fetched, gpuNodes: seq<Node>)
    | Sync(f: Fetched, healthy: seq<Node>, todo: SyncPc)
    | CreatePod(f: Fetched, pod: Pod)
    | DeleteFailed(f: Fetched)
    | ListPods(key: Key, owner: Option<Fetched>)
    | DeletePods(key: Key, owner: Option<Fetched>, left: seq<Pod>)
    | DropFinalizer(f: Fetched)
    | Finish(key: Key, result: ReconcileResult)

  /** Everything the outside decides about one call. */
  datatype Choice = Choice(answer: Answer, reply: PromReply, isolateFirst: bool)

  function Begin(k: Key, cached: Option<Stored>): Pc {
    match cached
    case None => ListPods(k, None)
    case Some(st) =>
      var f := Fetched(k, Localised(st.job), st.ver);
      match f.job.phase
      case Pending => GetPod(f)
      case Running => GetPod(f)
      case Failed => DeleteFailed(f)
      case _ => if f.job.deleting then ListPods(k, Some(f)) else Finish(k, DONE)
  }

  function AfterGetPod(f: Fetched, reply: Result<Pod, ApiError>): Pc {
    match reply
    case Err(e) =>
      if e != NotFound then SetPhase(f, Failed, FAILURE, FAILURE)
      else if f.job.phase == Running then SetPhase(f, Pending, RECHECK, FAILURE_RECHECK)
      else if !ValidSpec(f.job.spec) then SetPhase(f, Failed, DONE, FAILURE)
      else ListNodes(f)
    case Ok(pod) =>
      match pod.phase
      case PodRunning => SetPhase(f, Running, DONE, FAILURE)
      case PodFailed => SetPhase(f, Failed, FAILURE, FAILURE)
      case PodSucceeded => SetPhase(f, Complete, DONE, FAILURE)
      case _ => Finish(f.key, if f.job.phase == Pending then RECHECK else DONE)
  }

  function Decide(f: Fetched, healthy: seq<Node>): Pc {
    match LeastDensity(healthy, f.job.spec.gpuCount)
    case None => Finish(f.key, RECHECK)
    case Some(inUse) => CreatePod(f, HpcPod(f.key, f.job.spec, inUse))
  }

  function Resume(f: Fetched, healthy: seq<Node>, todo: SyncPc): Pc {
    if SyncDone(todo) then Decide(f, healthy) else Sync(f, healthy, todo)
  }

  function AfterDeletes(k: Key, owner: Option<Fetched>, left: seq<Pod>): Pc {
    if left != [] then DeletePods(k, owner, left)
    else match owner case None => Finish(k, DONE) case Some(f) => DropFinalizer(f)
  }

  /** Make the pending call and follow the code to the next one. */
  function Call(w: World, pc: Pc, c: Choice): (World, Pc) {
    match pc
    case Idle => (w, pc)
    case Finish(_, _) => (w, pc)
    case Fetch(k) =>
      if c.answer != Served then (w, Finish(k, DONE)) else (w, Begin(k, CachedJob(w, k)))
    case GetPod(f) => (w, AfterGetPod(f, ReadPod(w, f.key, c.answer)))
    case SetPhase(f, phase, ok, ko) =>
      (match UpdateStatus(w, f.key, f.ver, phase, c.answer)
       case Ok(w') => (w', Finish(f.key, ok))
       case Err(_) => (w, Finish(f.key, ko)))
    case ListNodes(f) =>
      if c.answer != Served then (w, Finish(f.key, FAILURE)) else (w, QueryHealth(f, GpuNodes(w.nodes)))
    case QueryHealth(f, gpuNodes) =>
      (match c.reply
       case Vector(vec) =>
         var healthy, unhealthy := WithVerdict(gpuNodes, vec, Healthy), WithVerdict(gpuNodes, vec, Unhealthy);
         (w, Resume(f, healthy, SyncPc(healthy, None, unhealthy)))
       case _ => (w, Finish(f.key, FAILURE)))
    case Sync(f, healthy, todo) =>
      if SyncDone(todo) then (w, Decide(f, healthy))
      else
        var (nodes, todo') :=
          if todo.restore == [] || (c.isolateFirst && todo.isolate != []) then IsolateStep(w.nodes, todo, c.answer)
          else RestoreStep(w.nodes, w.pods, todo, c.answer);
        (w.(nodes := nodes), Resume(f, healthy, todo'))
    case CreatePod(f, pod) =>
      (match AddPod(w, pod, c.answer)
       case Ok(w') => (w', Finish(f.key, RECHECK))
       case Err(e) => (w, Finish(f.key, if e == Conflict then RECHECK else FAILURE)))
    case DeleteFailed(f) =>
      (match DropPod(w, f.key, c.answer)
       case Ok(w') => (w', SetPhase(f, Failed, DONE, FAILURE_RECHECK))
       case Err(e) =>
         if e == NotFound then (w, SetPhase(f, Failed, DONE, FAILURE_RECHECK)) else (w, Finish(f.key, FAILURE_RECHECK)))
    case ListPods(k, owner) =>
      if c.answer != Served then (w, Finish(k, FAILURE_RECHECK))
      else (w, AfterDeletes(k, owner, PodsNamed(w.pods, k)))
    case DeletePods(k, owner, left) =>
      if left == [] then (w, AfterDeletes(k, owner, left))
      else
        (match DropPod(w, left[0].key, c.answer)
         case Ok(w') => (w', AfterDeletes(k, owner, left[1..]))
         case Err(_) => (w, Finish(k, FAILURE_RECHECK)))
    case DropFinalizer(f) =>
      (match UpdateFinalizers(w, f.key, f.ver, RemoveFinalizer(f.job.finalizers), c.answer)
       case Ok(w') => (w', Finish(f.key, DONE))
       case Err(_) => (w, Finish(f.key, FAILURE_RECHECK)))
  }

  // ----- an undisturbed reconcile -----

  function Stage(pc: Pc): nat {
    match pc
    case Idle => 0
    case Finish(_, _) => 0
    case SetPhase(_, _, _, _) => 1
    case DropFinalizer(_) => 1
    case DeletePods(_, _, _) => 2
    case DeleteFailed(_) => 2
    case CreatePod(_, _) => 2
    case ListPods(_, _) => 3
    case Sync(_, _, _) => 3
    case QueryHealth(_, _) => 4
    case ListNodes(_) => 5
    case GetPod(_) => 6
    case Fetch(_) => 7
  }

  function SyncWork(todo: SyncPc): nat {
    2 * |todo.restore| + |todo.isolate| + if todo.reading.None? && todo.restore != [] then 1 else 0
  }

  function Left(pc: Pc): nat {
    match pc
    case Sync(_, _, todo) => SyncWork(todo)
    case DeletePods(_, _, left) => |left|
    case _ => 0
  }

  predicate Stopped(pc: Pc) {
    pc.Idle? || pc.Finish?
  }

  lemma CallProgresses(w: World, pc: Pc, c: Choice)
    requires !Stopped(pc)
    ensures var pc' := Call(w, pc, c).1;
            Stage(pc') < Stage(pc) || (Stage(pc') == Stage(pc) && Left(pc') < Left(pc))
  {
  }

  type Script = nat -> Choice

  /** Run the machine alone to the end of the reconcile, the n-th call meeting the n-th choice of the script. */
  function Drive(script: Script, w: World, calls: nat, pc: Pc): (World, nat, Pc)
    decreases Stage(pc), Left(pc)
  {
    if Stopped(pc) then (w, calls, pc)
    else
      CallProgresses(w, pc, script(calls));
      var (w', pc') := Call(w, pc, script(calls));
      Drive(script, w', calls + 1, pc')
  }

  lemma DriveStep(script: Script, w: World, calls: nat, pc: Pc)
    requires !Stopped(pc)
    ensures Drive(script, w, calls, pc)
         == Drive(script, Call(w, pc, script(calls)).0, calls + 1, Call(w, pc, script(calls)).1)
  {
  }

  lemma DriveStopped(script: Script, w: World, calls: nat, pc: Pc)
    requires Stopped(pc)
    ensures Drive(script, w, calls, pc) == (w, calls, pc)
  {
  }
}
