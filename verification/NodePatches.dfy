/**
 The two node patches and the concurrent health sync.
 Models IsolateUnhealthyNodes and RestoreHealthyNodes of pkg/kube/client.go and the two goroutines of
 SyncNodeHealthStatus in internal/controller/gpu_node_discovery.go, one API call a step.
 */
module NodePatches {
  import opened Decimal
  import opened GpuAllocations
  import opened KubeTypes
  import opened Wrappers

  /** A strategic merge patch: labels merge key by key, the taint list is replaced. */
  datatype NodePatch = NodePatch(density: string, taints: seq<Taint>)

  const UNHEALTHY_TAINT := Taint(UNHEALTHY_TAINT_KEY, "true", NoSchedule)

  function ApplyPatch(node: Node, patch: NodePatch): Node {
    var labels := if node.labels.Some? then node.labels.value else map[];
    node.(labels := Some(labels[HIGH_DENSITY_AFFINITY_LABEL := patch.density]), taints := patch.taints)
  }

  lemma PatchTwice(node: Node, patch: NodePatch)
    ensures ApplyPatch(ApplyPatch(node, patch), patch) == ApplyPatch(node, patch)
  {
    var once := ApplyPatch(node, patch).labels.value;
    assert once[HIGH_DENSITY_AFFINITY_LABEL := patch.density] == once;
  }

  /** Patching by name; a name that is not in the store changes nothing. */
  function PatchNode(nodes: seq<Node>, name: string, patch: NodePatch): (r: seq<Node>)
    ensures |r| == |nodes|
    ensures forall i | 0 <= i < |nodes| ::
      r[i] == if nodes[i].name == name then ApplyPatch(nodes[i], patch) else nodes[i]
  {
    seq(|nodes|, i requires 0 <= i < |nodes| => if nodes[i].name == name then ApplyPatch(nodes[i], patch) else nodes[i])
  }

  function WithoutUnhealthy(taints: seq<Taint>): seq<Taint> {
    if taints == [] then []
    else
      var rest, last := taints[..|taints| - 1], taints[|taints| - 1];
      if last.key != UNHEALTHY_TAINT_KEY then WithoutUnhealthy(rest) + [last] else WithoutUnhealthy(rest)
  }

  function IsolationPatch(): NodePatch {
    NodePatch("0", [UNHEALTHY_TAINT])
  }

  /** Built from the listed snapshot of the node, not from its state at patch time. */
  function RestorePatch(snapshot: Node, inUse: int): NodePatch {
    NodePatch(Itoa(inUse), WithoutUnhealthy(snapshot.taints))
  }

  // ----- the sync as two interleaved goroutines -----

  datatype Answer = Served | Conflicted | Broken

  /** Nodes still to restore, the allocation read for the first of them, and nodes still to isolate. */
  datatype SyncPc = SyncPc(restore: seq<Node>, reading: Option<int>, isolate: seq<Node>)

  predicate SyncDone(pc: SyncPc) {
    pc.restore == [] && pc.isolate == []
  }

  function RestoreStep(nodes: seq<Node>, pods: seq<Pod>, pc: SyncPc, answer: Answer): (seq<Node>, SyncPc)
    requires pc.restore != []
  {
    var head := pc.restore[0];
    match pc.reading
    case None =>
      if answer == Served then (nodes, pc.(reading := Some(Allocated(pods, head.name))))
      else (nodes, pc.(restore := pc.restore[1..]))
    case Some(inUse) =>
      (if answer == Served then PatchNode(nodes, head.name, RestorePatch(head, inUse)) else nodes,
       pc.(restore := pc.restore[1..], reading := None))
  }

  function IsolateStep(nodes: seq<Node>, pc: SyncPc, answer: Answer): (seq<Node>, SyncPc)
    requires pc.isolate != []
  {
    (if answer == Served then PatchNode(nodes, pc.isolate[0].name, IsolationPatch()) else nodes,
     pc.(isolate := pc.isolate[1..]))
  }

  ghost predicate DisjointNames(pc: SyncPc) {
    forall a, b | a in pc.restore && b in pc.isolate :: a.name != b.name
  }

  /** Fixed outcomes of the API calls about each node. */
  datatype Answers = Answers(read: string -> Answer, patch: string -> Answer)

  /** One move: the isolating goroutine when `isolating`, else the restoring one; a finished goroutine idles. */
  function Move(nodes: seq<Node>, pods: seq<Pod>, pc: SyncPc, isolating: bool, answers: Answers): (seq<Node>, SyncPc) {
    if isolating then
      if pc.isolate == [] then (nodes, pc) else IsolateStep(nodes, pc, answers.patch(pc.isolate[0].name))
    else
      if pc.restore == [] then (nodes, pc)
      else RestoreStep(nodes, pods, pc, (if pc.reading.None? then answers.read else answers.patch)(pc.restore[0].name))
  }

  function Interleave(
    nodes: seq<Node>, pods: seq<Pod>, pc: SyncPc, moves: seq<bool>, answers: Answers): (seq<Node>, SyncPc)
    decreases |moves|
  {
    if moves == [] then (nodes, pc)
    else
      var (nodes', pc') := Move(nodes, pods, pc, moves[0], answers);
      Interleave(nodes', pods, pc', moves[1..], answers)
  }

  // ----- what the remaining work will make of a node, whatever the order -----

  function AfterRestore(
    node: Node, pods: seq<Pod>, restore: seq<Node>, reading: Option<int>, answers: Answers): (r: Node)
    ensures r.name == node.name
    decreases |restore|
  {
    if restore == [] then node
    else
      var head := restore[0];
      var inUse := if reading.Some? then reading.value else Allocated(pods, head.name);
      var hit :=
        && head.name == node.name && (reading.Some? || answers.read(head.name) == Served)
        && answers.patch(head.name) == Served;
      AfterRestore(if hit then ApplyPatch(node, RestorePatch(head, inUse)) else node, pods, restore[1..], None, answers)
  }

  function AfterIsolate(node: Node, isolate: seq<Node>, answers: Answers): (r: Node)
    ensures r.name == node.name
    decreases |isolate|
  {
    if isolate == [] then node
    else
      var hit := isolate[0].name == node.name && answers.patch(node.name) == Served;
      AfterIsolate(if hit then ApplyPatch(node, IsolationPatch()) else node, isolate[1..], answers)
  }

  /** The node store that remains to be reached from a point of the sync. */
  function Outcome(nodes: seq<Node>, pods: seq<Pod>, pc: SyncPc, answers: Answers): (r: seq<Node>)
    ensures |r| == |nodes|
    ensures forall i | 0 <= i < |nodes| ::
      r[i] == AfterIsolate(AfterRestore(nodes[i], pods, pc.restore, pc.reading, answers), pc.isolate, answers)
  {
    seq(|nodes|, i requires 0 <= i < |nodes| =>
      AfterIsolate(AfterRestore(nodes[i], pods, pc.restore, pc.reading, answers), pc.isolate, answers))
  }

  lemma {:induction false} RestoreMisses(
    node: Node, pods: seq<Pod>, restore: seq<Node>, reading: Option<int>, answers: Answers)
    requires forall r | r in restore :: r.name != node.name
    ensures AfterRestore(node, pods, restore, reading, answers) == node
    decreases |restore|
  {
    if restore != [] {
      assert restore[0] in restore;
      RestoreMisses(node, pods, restore[1..], None, answers);
    }
  }

  /** No move changes the outcome: each goroutine only brings its own part of it about. */
  lemma MoveKeepsOutcome(nodes: seq<Node>, pods: seq<Pod>, pc: SyncPc, isolating: bool, answers: Answers)
    requires DisjointNames(pc)
    ensures var (nodes', pc') := Move(nodes, pods, pc, isolating, answers);
            DisjointNames(pc') && Outcome(nodes', pods, pc', answers) == Outcome(nodes, pods, pc, answers)
  {
    var (nodes', pc') := Move(nodes, pods, pc, isolating, answers);
    assert forall n | n in pc'.restore :: n in pc.restore;
    assert forall n | n in pc'.isolate :: n in pc.isolate;
    forall i | 0 <= i < |nodes|
      ensures Outcome(nodes', pods, pc', answers)[i] == Outcome(nodes, pods, pc, answers)[i]
    {
      if isolating && pc.isolate != [] {
        if pc.isolate[0].name == nodes[i].name {
          assert pc.isolate[0] in pc.isolate;
          RestoreMisses(nodes[i], pods, pc.restore, pc.reading, answers);
          RestoreMisses(nodes'[i], pods, pc.restore, pc.reading, answers);
        }
      }
    }
  }

  lemma {:induction false} InterleavingReachesOutcome(
    nodes: seq<Node>, pods: seq<Pod>, pc: SyncPc, moves: seq<bool>, answers: Answers)
    requires DisjointNames(pc)
    ensures var (nodes', pc') := Interleave(nodes, pods, pc, moves, answers);
            SyncDone(pc') ==> nodes' == Outcome(nodes, pods, pc, answers)
    decreases |moves|
  {
    if moves == [] {
      if SyncDone(pc) {
        assert nodes == Outcome(nodes, pods, pc, answers);
      }
    } else {
      MoveKeepsOutcome(nodes, pods, pc, moves[0], answers);
      var (nodes', pc') := Move(nodes, pods, pc, moves[0], answers);
      InterleavingReachesOutcome(nodes', pods, pc', moves[1..], answers);
    }
  }

  /** The sequential schedule: all restore calls (at most two a node), then all isolation patches. */
  function RestoreThenIsolate(pc: SyncPc): seq<bool> {
    seq(2 * |pc.restore|, i => false) + seq(|pc.isolate|, i => true)
  }

  lemma {:induction false} SequentialCompletes(nodes: seq<Node>, pods: seq<Pod>, pc: SyncPc, r: nat, answers: Answers)
    requires 2 * |pc.restore| - (if pc.reading.Some? && pc.restore != [] then 1 else 0) <= r
    ensures SyncDone(Interleave(nodes, pods, pc, seq(r, i => false) + seq(|pc.isolate|, i => true), answers).1)
    decreases r, |pc.isolate|
  {
    var moves := seq(r, i => false) + seq(|pc.isolate|, i => true);
    if r > 0 {
      assert moves[1..] == seq(r - 1, i => false) + seq(|pc.isolate|, i => true);
      var (nodes', pc') := Move(nodes, pods, pc, false, answers);
      SequentialCompletes(nodes', pods, pc', r - 1, answers);
    } else if pc.isolate != [] {
      assert moves[1..] == seq(0, i => false) + seq(|pc.isolate| - 1, i => true);
      var (nodes', pc') := Move(nodes, pods, pc, true, answers);
      SequentialCompletes(nodes', pods, pc', 0, answers);
    } else {
      assert moves == [];
    }
  }

  /**
   Confluence: for fixed API outcomes every complete interleaving of the two goroutines leaves the same
   node store as running the restoration and then the isolation.
   */
  lemma SyncIsConfluent(nodes: seq<Node>, pods: seq<Pod>, pc: SyncPc, moves: seq<bool>, answers: Answers)
    requires DisjointNames(pc)
    requires SyncDone(Interleave(nodes, pods, pc, moves, answers).1)
    ensures var sequential := Interleave(nodes, pods, pc, RestoreThenIsolate(pc), answers);
            SyncDone(sequential.1) && Interleave(nodes, pods, pc, moves, answers).0 == sequential.0
  {
    InterleavingReachesOutcome(nodes, pods, pc, moves, answers);
    SequentialCompletes(nodes, pods, pc, 2 * |pc.restore|, answers);
    InterleavingReachesOutcome(nodes, pods, pc, RestoreThenIsolate(pc), answers);
  }

  // ----- isolation is not undone by restoration -----

  /** Restoring an isolated node gives the taints back exactly when there were none. */
  lemma IsolationLosesTaints(node: Node, inUse: int)
    ensures var isolated := ApplyPatch(node, IsolationPatch());
            var restored := ApplyPatch(isolated, RestorePatch(isolated, inUse));
            restored.taints == [] && (restored.taints == node.taints <==> node.taints == [])
  {
    assert WithoutUnhealthy([UNHEALTHY_TAINT]) == WithoutUnhealthy([UNHEALTHY_TAINT][..0]);
  }

  /** Restoration drops exactly the unhealthy taints, */
  lemma {:induction false} RestorationDropsUnhealthy(taints: seq<Taint>)
    ensures forall t :: t in WithoutUnhealthy(taints) <==> t in taints && t.key != UNHEALTHY_TAINT_KEY
  {
    if taints != [] {
      RestorationDropsUnhealthy(taints[..|taints| - 1]);
      assert taints == taints[..|taints| - 1] + [taints[|taints| - 1]];
    }
  }

  /** and keeps the others as they are and in their order. */
  lemma {:induction false} RestorationKeepsOthers(taints: seq<Taint>)
    requires forall t | t in taints :: t.key != UNHEALTHY_TAINT_KEY
    ensures WithoutUnhealthy(taints) == taints
  {
    if taints != [] {
      var rest, last := taints[..|taints| - 1], taints[|taints| - 1];
      assert forall t | t in rest :: t in taints;
      RestorationKeepsOthers(rest);
      assert taints == rest + [last];
    }
  }

  lemma RestorationIsIdempotent(taints: seq<Taint>)
    ensures WithoutUnhealthy(WithoutUnhealthy(taints)) == WithoutUnhealthy(taints)
  {
    RestorationDropsUnhealthy(taints);
    RestorationKeepsOthers(WithoutUnhealthy(taints));
  }

  lemma {:induction false} RestorationSplits(a: seq<Taint>, b: seq<Taint>)
    ensures WithoutUnhealthy(a + b) == WithoutUnhealthy(a) + WithoutUnhealthy(b)
  {
    if b == [] {
      assert a + b == a;
    } else {
      RestorationSplits(a, b[..|b| - 1]);
      assert (a + b)[..|a + b| - 1] == a + b[..|b| - 1];
    }
  }

  // ----- restoration works on a snapshot -----

  /** The node has the same taints besides the controller's own, in the same order. */
  predicate KeepsOtherTaints(before: Node, after: Node) {
    WithoutUnhealthy(after.taints) == WithoutUnhealthy(before.taints)
  }

  /** Restoring keeps the stored node's other taints exactly when they are still those of the listed snapshot, */
  lemma RestorationKeepsTaintsExactly(snapshot: Node, stored: Node, inUse: int)
    ensures KeepsOtherTaints(stored, ApplyPatch(stored, RestorePatch(snapshot, inUse)))
       <==> KeepsOtherTaints(snapshot, stored)
  {
    RestorationIsIdempotent(snapshot.taints);
  }

  /** and otherwise rewinds them: what was added since the listing is lost, what was removed since comes back. */
  lemma RestorationRewindsTaints(snapshot: Node, stored: Node, inUse: int)
    ensures var restored := ApplyPatch(stored, RestorePatch(snapshot, inUse));
            forall t: Taint | t.key != UNHEALTHY_TAINT_KEY :: t in restored.taints <==> t in snapshot.taints
    ensures var restored := ApplyPatch(stored, RestorePatch(snapshot, inUse));
            forall t: Taint | t.key == UNHEALTHY_TAINT_KEY :: t !in restored.taints
  {
    RestorationDropsUnhealthy(snapshot.taints);
  }

  // ----- what the scheduler sees of a patched node -----

  /**
   After an isolation only pods that tolerate the unhealthy taint may be scheduled, whatever taints the node had before,
   and no pod that runs there is evicted: no taint has effect NoExecute.
   */
  lemma IsolationRepels(node: Node, pod: Pod)
    ensures var isolated := ApplyPatch(node, IsolationPatch());
            && (Tolerates(pod, isolated) <==> TolerateExisting("hpc-sentinel/unhealthy", NoSchedule) in pod.tolerations)
            && (forall t | t in isolated.taints :: t == Taint("hpc-sentinel/unhealthy", "true", NoSchedule))
            && isolated.taints != [] && Label(isolated, "hpc-sentinel/density") == Some("0")
  {
    assert UNHEALTHY_TAINT in ApplyPatch(node, IsolationPatch()).taints;
  }

  /** After a restoration from an unchanged snapshot exactly the pods that tolerate its other taints are admitted. */
  lemma RestorationAdmits(node: Node, inUse: int, pod: Pod)
    ensures var restored := ApplyPatch(node, RestorePatch(node, inUse));
            && (Tolerates(pod, restored) <==>
                  forall t | t in node.taints && t.key != "hpc-sentinel/unhealthy" && t.effect != PreferNoSchedule ::
                    TolerateExisting(t.key, t.effect) in pod.tolerations)
            && Label(restored, "hpc-sentinel/density") == Some(Itoa(inUse))
  {
    RestorationDropsUnhealthy(node.taints);
  }
}
