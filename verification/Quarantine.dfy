/**
 Quarantine over whole runs: an isolated node gets no pod of the controller before a later health pass finds it
 healthy. And the invariants of the node store the affinity decision relies on.
 */
module Quarantine {
  import opened Capacity
  import opened ControllerSystem
  import opened Decimal
  import opened GpuAllocations
  import opened GpuNodeDiscovery
  import opened KubeTypes
  import opened NodePatches
  import opened ReconcileProtocol
  import opened Wrappers

  ghost predicate OnList(nodes: seq<Node>, name: string) {
    exists n | n in nodes :: n.name == name
  }

  /** The call isolates the node, and the API server applies the patch. */
  ghost predicate Isolates(s: State, step: Step, name: string) {
    && s.pc.Sync? && step.Advance? && step.c.answer == Served
    && s.pc.todo.isolate != [] && (s.pc.todo.restore == [] || step.c.isolateFirst)
    && s.pc.todo.isolate[0].name == name && OnList(s.w.nodes, name)
  }

  /** The call reads a scan that finds the listed node healthy. */
  ghost predicate FindsHealthy(s: State, step: Step, name: string) {
    && s.pc.QueryHealth? && step.Advance? && step.c.reply.Vector?
    && OnList(s.pc.gpuNodes, name) && VerdictOf(step.c.reply.samples, name) == Healthy
  }

  /** The store has a node of this name, and it carries the unhealthy taint. */
  ghost predicate Tainted(nodes: seq<Node>, name: string) {
    OnList(nodes, name) && forall n | n in nodes && n.name == name :: UNHEALTHY_TAINT in n.taints
  }

  /** The node carries the unhealthy taint and is not about to be restored. */
  ghost predicate Quarantined(s: State, name: string) {
    && Tainted(s.w.nodes, name)
    && (s.pc.Sync? ==> !OnList(s.pc.todo.restore, name))
  }

  lemma PatchOthers(nodes: seq<Node>, target: string, patch: NodePatch, name: string)
    requires OnList(nodes, name)
    ensures OnList(PatchNode(nodes, target, patch), name)
    ensures target != name ==> forall n | n in PatchNode(nodes, target, patch) && n.name == name :: n in nodes
    ensures target == name ==>
      forall n | n in PatchNode(nodes, target, patch) && n.name == name :: n.taints == patch.taints
  {
    var n :| n in nodes && n.name == name;
    var i :| 0 <= i < |nodes| && nodes[i] == n;
    assert PatchNode(nodes, target, patch)[i].name == name;
  }

  lemma IsolationQuarantines(s: State, step: Step, name: string)
    requires Inv(s) && Enabled(s, step) && Isolates(s, step, name)
    ensures Quarantined(Next(s, step), name)
  {
    PatchOthers(s.w.nodes, name, IsolationPatch(), name);
    var todo := s.pc.todo;
    assert todo.isolate[0] in todo.isolate;
    assert !OnList(todo.restore, name);
  }

  lemma RestoreKeepsTainted(nodes: seq<Node>, pods: seq<Pod>, todo: SyncPc, answer: Answer, name: string)
    requires todo.restore != [] && Tainted(nodes, name) && !OnList(todo.restore, name)
    ensures var (nodes', todo') := RestoreStep(nodes, pods, todo, answer);
            Tainted(nodes', name) && !OnList(todo'.restore, name)
  {
    assert todo.restore[0] in todo.restore;
    assert forall n | n in todo.restore[1..] :: n in todo.restore;
    if todo.reading.Some? {
      PatchOthers(nodes, todo.restore[0].name, RestorePatch(todo.restore[0], todo.reading.value), name);
    }
  }

  lemma IsolateKeepsTainted(nodes: seq<Node>, todo: SyncPc, answer: Answer, name: string)
    requires todo.isolate != [] && Tainted(nodes, name)
    ensures var (nodes', todo') := IsolateStep(nodes, todo, answer);
            Tainted(nodes', name) && todo'.restore == todo.restore
  {
    PatchOthers(nodes, todo.isolate[0].name, IsolationPatch(), name);
  }

  lemma SyncKeepsQuarantine(s: State, step: Step, name: string)
    requires Inv(s) && Enabled(s, step) && step.Advance? && s.pc.Sync? && Quarantined(s, name)
    ensures Quarantined(Next(s, step), name)
  {
    hide Tainted, OnList, RestoreStep, IsolateStep, LeastDensity, Inv;
    var todo := s.pc.todo;
    if !SyncDone(todo) {
      if todo.restore == [] || (step.c.isolateFirst && todo.isolate != []) {
        IsolateKeepsTainted(s.w.nodes, todo, step.c.answer, name);
      } else {
        RestoreKeepsTainted(s.w.nodes, s.w.pods, todo, step.c.answer, name);
      }
    }
  }

  lemma ScanKeepsQuarantine(s: State, step: Step, name: string)
    requires Inv(s) && Enabled(s, step) && step.Advance? && s.pc.QueryHealth? && Quarantined(s, name)
    requires !FindsHealthy(s, step, name)
    ensures Quarantined(Next(s, step), name)
  {
    if step.c.reply.Vector? {
      WithVerdictMembers(s.pc.gpuNodes, step.c.reply.samples, Healthy);
    }
  }

  lemma NodeStepKeepsQuarantine(s: State, step: Step, name: string)
    requires Enabled(s, step) && (step.NodeChanges? || step.NodeJoins?) && Quarantined(s, name)
    ensures Quarantined(Next(s, step), name)
  {
    var n :| n in s.w.nodes && n.name == name;
    var j :| 0 <= j < |s.w.nodes| && s.w.nodes[j] == n;
    assert Next(s, step).w.nodes[j].name == name;
    if step.NodeChanges? {
      assert s.w.nodes[step.i] in s.w.nodes;
    }
  }

  lemma StepKeepsQuarantine(s: State, step: Step, name: string)
    requires Inv(s) && Enabled(s, step) && Quarantined(s, name) && !FindsHealthy(s, step, name)
    ensures Quarantined(Next(s, step), name)
  {
    match step {
      case Advance(c) =>
        if s.pc.Sync? {
          SyncKeepsQuarantine(s, step, name);
        } else if s.pc.QueryHealth? {
          ScanKeepsQuarantine(s, step, name);
        }
      case NodeChanges(_, _) => NodeStepKeepsQuarantine(s, step, name);
      case NodeJoins(_) => NodeStepKeepsQuarantine(s, step, name);
      case _ =>
    }
  }

  /** Pods are the controller's: they tolerate the GPU taint only and request what a valid job asks for. */
  ghost predicate MadeByController(p: Pod) {
    p.tolerations == [GPU_TOLERATION] && forall c | c in p.containers :: ContainerGpus(c) >= 0
  }

  ghost predicate PodsMade(s: State) {
    forall p | p in s.w.pods :: MadeByController(p)
  }

  lemma StepKeepsPodsMade(s: State, step: Step)
    requires Inv(s) && Enabled(s, step) && PodsMade(s)
    ensures PodsMade(Next(s, step))
  {
    var s' := Next(s, step);
    forall p | p in s'.w.pods
      ensures MadeByController(p)
    {
      if step.Bind? || step.PodMoves? {
        var j :| 0 <= j < |s'.w.pods| && s'.w.pods[j] == p;
        assert MadeByController(s.w.pods[j]);
      }
    }
  }

  lemma {:induction false} PodsMadeAlways(states: seq<State>, steps: seq<Step>, i: nat)
    requires IsRun(states, steps) && i < |states|
    ensures PodsMade(states[i])
  {
    if i > 0 {
      PodsMadeAlways(states, steps, i - 1);
      InvAlways(states, steps, i - 1);
      StepKeepsPodsMade(states[i - 1], steps[i - 1]);
    }
  }

  lemma QuarantineRepels(s: State, i: nat, name: string)
    requires PodsMade(s) && Quarantined(s, name)
    ensures !Enabled(s, Bind(i, name))
  {
    assert |GPU_NODE_TAINT_KEY| != |UNHEALTHY_TAINT_KEY|;
    forall p | p in s.w.pods
      ensures TolerateExisting(UNHEALTHY_TAINT.key, UNHEALTHY_TAINT.effect) !in p.tolerations
    {
      assert MadeByController(p);
    }
    forall n, p | n in s.w.nodes && n.name == name && p in s.w.pods
      ensures !Tolerates(p, n)
    {
      assert UNHEALTHY_TAINT in n.taints;
    }
  }

  lemma {:induction false} QuarantineLasts(states: seq<State>, steps: seq<Step>, i: nat, j: nat, name: string)
    requires IsRun(states, steps) && i < j <= |steps| && Isolates(states[i], steps[i], name)
    requires forall m | i < m < j :: !FindsHealthy(states[m], steps[m], name)
    ensures Quarantined(states[j], name)
  {
    InvAlways(states, steps, j - 1);
    if j == i + 1 {
      IsolationQuarantines(states[i], steps[i], name);
    } else {
      QuarantineLasts(states, steps, i, j - 1, name);
      StepKeepsQuarantine(states[j - 1], steps[j - 1], name);
    }
  }

  /** Between an isolation and the binding of a pod to the node, some scan found the node healthy. */
  lemma BindingFollowsRecovery(states: seq<State>, steps: seq<Step>, i: nat, j: nat, name: string)
    requires IsRun(states, steps) && i < j < |steps| && Isolates(states[i], steps[i], name)
    requires steps[j].Bind? && steps[j].target == name
    ensures exists m | i < m < j :: FindsHealthy(states[m], steps[m], name)
  {
    if forall m | i < m < j :: !FindsHealthy(states[m], steps[m], name) {
      QuarantineLasts(states, steps, i, j, name);
      PodsMadeAlways(states, steps, j);
      QuarantineRepels(states[j], steps[j].i, name);
      assert false;
    }
  }

  // ----- densities over runs -----

  function Listed(pc: Pc): seq<Node> {
    match pc
    case QueryHealth(_, gpuNodes) => gpuNodes
    case Sync(_, healthy, _) => healthy
    case _ => []
  }

  /** Labels in the store and in the worker's snapshots are never negative, nor is an allocation in hand. */
  ghost predicate DensitiesOk(s: State) {
    && NonNegativeDensities(s.w.nodes)
    && NonNegativeDensities(Listed(s.pc))
    && (forall n | n in Listed(s.pc) :: n.labels.Some?)
    && (s.pc.Sync? && s.pc.todo.reading.Some? ==> s.pc.todo.reading.value >= 0)
  }

  lemma PatchKeepsDensities(nodes: seq<Node>, name: string, patch: NodePatch)
    requires NonNegativeDensities(nodes)
    requires Atoi(patch.density).Some? ==> Atoi(patch.density).value >= 0
    ensures NonNegativeDensities(PatchNode(nodes, name, patch))
  {
    forall n | n in PatchNode(nodes, name, patch) && Label(n, HIGH_DENSITY_AFFINITY_LABEL).Some?
      ensures var d := Atoi(Label(n, HIGH_DENSITY_AFFINITY_LABEL).value); d.Some? ==> d.value >= 0
    {
      var j :| 0 <= j < |nodes| && PatchNode(nodes, name, patch)[j] == n;
      assert nodes[j] in nodes;
    }
  }

  lemma ZeroLabel()
    ensures Itoa(0) == "0" && Atoi("0") == Some(0)
  {
    AtoiOfItoa(0);
  }

  lemma SyncKeepsDensities(s: State, c: Choice)
    requires Inv(s) && s.pc.Sync? && PodsMade(s) && DensitiesOk(s)
    ensures DensitiesOk(Next(s, Advance(c)))
  {
    var todo := s.pc.todo;
    if !SyncDone(todo) {
      if todo.restore == [] || (c.isolateFirst && todo.isolate != []) {
        ZeroLabel();
        PatchKeepsDensities(s.w.nodes, todo.isolate[0].name, IsolationPatch());
      } else if todo.reading.Some? {
        AtoiOfItoa(todo.reading.value);
        PatchKeepsDensities(s.w.nodes, todo.restore[0].name, RestorePatch(todo.restore[0], todo.reading.value));
      } else {
        AllocatedNonNegative(s.w.pods, todo.restore[0].name);
      }
    }
  }

  lemma ListingKeepsDensities(s: State, c: Choice)
    requires !s.pc.Sync? && !Stopped(s.pc) && DensitiesOk(s)
    ensures var (w', pc') := Call(s.w, s.pc, c); DensitiesOk(s.(w := w', pc := pc'))
  {
    hide Atoi, LeastDensity, VerdictOf, ReadPod, RemovePod, PodsNamed;
    if s.pc.ListNodes? {
      GpuNodesMembers(s.w.nodes);
    } else if s.pc.QueryHealth? && c.reply.Vector? {
      WithVerdictMembers(s.pc.gpuNodes, c.reply.samples, Healthy);
    }
  }

  lemma StepKeepsDensities(s: State, step: Step)
    requires Inv(s) && Enabled(s, step) && PodsMade(s) && DensitiesOk(s)
    ensures DensitiesOk(Next(s, step))
  {
    match step {
      case Advance(c) =>
        if s.pc.Sync? {
          SyncKeepsDensities(s, c);
        } else {
          ListingKeepsDensities(s, c);
        }
      case NodeChanges(i, node) =>
        assert s.w.nodes[i] in s.w.nodes;
      case _ =>
    }
  }

  /** In every reachable state the density labels meet the assumption of the affinity threshold. */
  lemma {:induction false} DensitiesAlways(states: seq<State>, steps: seq<Step>, i: nat)
    requires IsRun(states, steps) && i < |states|
    ensures DensitiesOk(states[i])
  {
    if i > 0 {
      DensitiesAlways(states, steps, i - 1);
      InvAlways(states, steps, i - 1);
      PodsMadeAlways(states, steps, i - 1);
      StepKeepsDensities(states[i - 1], steps[i - 1]);
    }
  }

  /**
   The affinity of every pod a run decides on: the healthy nodes with room satisfy it exactly when they already run
   something, and no listed node less dense than the least qualifying one does.
   */
  lemma AffinityInRuns(states: seq<State>, steps: seq<Step>, i: nat, node: Node)
    requires IsRun(states, steps) && i < |states| && states[i].pc.Sync?
    requires node in states[i].pc.healthy
    requires LeastDensity(states[i].pc.healthy, states[i].pc.f.job.spec.gpuCount).Some?
    ensures var f := states[i].pc.f;
            var required := f.job.spec.gpuCount;
            var least := LeastDensity(states[i].pc.healthy, required).value;
            var bound := HpcPod(f.key, f.job.spec, least).densityAbove;
            && Decide(f, states[i].pc.healthy) == CreatePod(f, HpcPod(f.key, f.job.spec, least))
            && (Candidate(node, required).Some? ==>
                  (DensityGreater(node, bound) <==> Candidate(node, required).value >= 1))
            && (DensityGreater(node, bound) ==> Atoi(Label(node, HIGH_DENSITY_AFFINITY_LABEL).value).value >= least)
  {
    DensitiesAlways(states, steps, i);
    var f := states[i].pc.f;
    AffinityPrefersLoadedCandidates(states[i].pc.healthy, f.job.spec.gpuCount, node, f.key, f.job.spec);
  }
}
