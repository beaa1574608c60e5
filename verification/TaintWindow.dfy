/**
 The taints of restored nodes over whole runs: a restoration patch carries the taint list of the listing its reconcile
 started from, so what others do to taints between that listing and the patch is undone.
 */
module TaintWindow {
  import opened ControllerSystem
  import opened GpuNodeDiscovery
  import opened KubeTypes
  import opened NodePatches
  import opened ReconcileProtocol

  /** Listed nodes the worker has in hand to restore. */
  function Snapshots(pc: Pc): seq<Node> {
    match pc
    case QueryHealth(_, gpuNodes) => gpuNodes
    case Sync(_, _, todo) => todo.restore
    case _ => []
  }

  predicate InPass(pc: Pc) {
    pc.QueryHealth? || pc.Sync?
  }

  /** The worker's next call is the listing. */
  ghost predicate Lists(s: State, step: Step) {
    s.pc.ListNodes? && step.Advance? && step.c.answer == Served
  }

  /** A call enters the pass by the listing, and after that only drops snapshots. */
  lemma CallKeepsSnapshots(w: World, pc: Pc, c: Choice)
    requires InPass(Call(w, pc, c).1)
    ensures InPass(pc) || (pc.ListNodes? && c.answer == Served)
    ensures forall n | n in Snapshots(Call(w, pc, c).1) :: n in (if pc.ListNodes? then w.nodes else Snapshots(pc))
  {
    if pc.ListNodes? {
      GpuNodesMembers(w.nodes);
    } else if pc.QueryHealth? {
      WithVerdictMembers(pc.gpuNodes, c.reply.samples, Healthy);
    }
  }

  /** In a pass, the worker's snapshots were stored nodes when it listed them, and it has not left the pass since. */
  lemma {:induction false} SnapshotsWereListed(states: seq<State>, steps: seq<Step>, i: nat) returns (m: nat)
    requires IsRun(states, steps) && i < |states| && InPass(states[i].pc)
    ensures m < i && Lists(states[m], steps[m]) && (forall x | m < x <= i :: InPass(states[x].pc))
    ensures forall n | n in Snapshots(states[i].pc) :: n in states[m].w.nodes
  {
    hide Call;
    assert i > 0;
    var s, step := states[i - 1], steps[i - 1];
    assert Enabled(s, step) && states[i] == Next(s, step);
    if step.Advance? {
      CallKeepsSnapshots(s.w, s.pc, step.c);
    }
    if s.pc.ListNodes? {
      m := i - 1;
    } else {
      m := SnapshotsWereListed(states, steps, i - 1);
    }
  }

  /** The call restores the node, and the API server applies the patch. */
  ghost predicate Restores(s: State, step: Step, name: string) {
    && s.pc.Sync? && step.Advance? && step.c.answer == Served
    && s.pc.todo.restore != [] && !(step.c.isolateFirst && s.pc.todo.isolate != []) && s.pc.todo.reading.Some?
    && s.pc.todo.restore[0].name == name
  }

  /**
   A restoration in a run: the node was listed earlier in the same pass, and its other taints are kept exactly when at
   the time of the patch they are those of the listing.
   */
  lemma TaintsComeFromListing(states: seq<State>, steps: seq<Step>, j: nat, i: nat) returns (m: nat, listed: Node)
    requires IsRun(states, steps) && j < |steps| && i < |states[j].w.nodes|
    requires Restores(states[j], steps[j], states[j].w.nodes[i].name)
    ensures m < j && Lists(states[m], steps[m]) && (forall x | m < x <= j :: InPass(states[x].pc))
    ensures listed in states[m].w.nodes && listed.name == states[j].w.nodes[i].name
    ensures |states[j + 1].w.nodes| == |states[j].w.nodes|
    ensures KeepsOtherTaints(states[j].w.nodes[i], states[j + 1].w.nodes[i])
       <==> KeepsOtherTaints(listed, states[j].w.nodes[i])
    ensures KeepsOtherTaints(listed, states[j + 1].w.nodes[i])
  {
    m := SnapshotsWereListed(states, steps, j);
    var todo := states[j].pc.todo;
    listed := todo.restore[0];
    assert states[j + 1] == Next(states[j], steps[j]);
    RestorationKeepsTaintsExactly(listed, states[j].w.nodes[i], todo.reading.value);
    RestorationIsIdempotent(listed.taints);
  }
}
