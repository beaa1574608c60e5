/**
 What a density label says over whole runs: it is absent until the controller first patches the node, and after that it
 is the zero of an isolation or the allocation that was read for the last restoration.
 */
module DensityLabels {
  import opened ControllerSystem
  import opened Decimal
  import opened GpuAllocations
  import opened KubeTypes
  import opened NodePatches
  import opened Quarantine
  import opened ReconcileProtocol
  import opened TaintWindow
  import opened Wrappers

  /** The call writes the label of a stored node. */
  ghost predicate Patches(s: State, step: Step, name: string) {
    OnList(s.w.nodes, name) && (Isolates(s, step, name) || Restores(s, step, name))
  }

  /** The call reads the allocation of the node the pass will restore next. */
  ghost predicate Reads(s: State, step: Step, name: string) {
    && s.pc.Sync? && step.Advance? && step.c.answer == Served
    && s.pc.todo.restore != [] && !(step.c.isolateFirst && s.pc.todo.isolate != []) && s.pc.todo.reading.None?
    && s.pc.todo.restore[0].name == name
  }

  function DensityLabel(node: Node): Option<string> {
    Label(node, HIGH_DENSITY_AFFINITY_LABEL)
  }

  /** Patching by name, at one place of the list. */
  lemma PatchAt(nodes: seq<Node>, name: string, patch: NodePatch, j: nat)
    requires j < |nodes|
    ensures var r := PatchNode(nodes, name, patch);
            && |r| == |nodes| && r[j].name == nodes[j].name
            && DensityLabel(r[j]) == if nodes[j].name == name then Some(patch.density) else DensityLabel(nodes[j])
  {
  }

  /** What one call does to the label of one node. */
  lemma CallOnLabel(s: State, c: Choice, j: nat)
    requires Enabled(s, Advance(c)) && j < |s.w.nodes|
    ensures var before, after := s.w.nodes, Call(s.w, s.pc, c).0.nodes;
            && |after| == |before| && after[j].name == before[j].name
            && (!Patches(s, Advance(c), before[j].name) ==> DensityLabel(after[j]) == DensityLabel(before[j]))
            && (Isolates(s, Advance(c), before[j].name) ==> DensityLabel(after[j]) == Some("0"))
            && (Restores(s, Advance(c), before[j].name) ==>
                  DensityLabel(after[j]) == Some(Itoa(s.pc.todo.reading.value)))
  {
    hide DensityLabel, AfterGetPod;
    var name := s.w.nodes[j].name;
    assert OnList(s.w.nodes, name);
    if s.pc.Sync? && !SyncDone(s.pc.todo) {
      var todo := s.pc.todo;
      if todo.isolate != [] {
        PatchAt(s.w.nodes, todo.isolate[0].name, IsolationPatch(), j);
      }
      if todo.restore != [] && todo.reading.Some? {
        PatchAt(s.w.nodes, todo.restore[0].name, RestorePatch(todo.restore[0], todo.reading.value), j);
      }
    }
  }

  lemma StepOnLabel(s: State, step: Step, j: nat)
    requires Enabled(s, step) && j < |s.w.nodes|
    ensures var before, after := s.w.nodes, Next(s, step).w.nodes;
            && |before| <= |after| && after[j].name == before[j].name
            && (!Patches(s, step, before[j].name) ==> DensityLabel(after[j]) == DensityLabel(before[j]))
            && (Isolates(s, step, before[j].name) ==> DensityLabel(after[j]) == Some("0"))
            && (Restores(s, step, before[j].name) ==>
                  DensityLabel(after[j]) == Some(Itoa(s.pc.todo.reading.value)))
  {
    hide Call, Patches;
    if step.Advance? {
      CallOnLabel(s, step.c, j);
    }
  }

  /** A node that appears has a new name and no label. */
  lemma NodesAppearUnlabelled(s: State, step: Step, j: nat)
    requires Enabled(s, step) && |s.w.nodes| <= j < |Next(s, step).w.nodes|
    ensures var node := Next(s, step).w.nodes[j]; DensityLabel(node).None? && !OnList(s.w.nodes, node.name)
  {
    if step.Advance? {
      CallKeepsNodeCount(s.w, s.pc, step.c);
    }
  }

  lemma CallKeepsNodeCount(w: World, pc: Pc, c: Choice)
    ensures |Call(w, pc, c).0.nodes| == |w.nodes|
  {
  }

  /** Nodes stay in the cluster under their names. */
  lemma {:induction false} NodesStay(states: seq<State>, steps: seq<Step>, a: nat, b: nat, name: string)
    requires IsRun(states, steps) && a <= b < |states| && OnList(states[a].w.nodes, name)
    ensures OnList(states[b].w.nodes, name)
  {
    hide Next, Enabled, Init;
    if a < b {
      NodesStay(states, steps, a, b - 1, name);
      var n :| n in states[b - 1].w.nodes && n.name == name;
      var j :| 0 <= j < |states[b - 1].w.nodes| && states[b - 1].w.nodes[j] == n;
      StepOnLabel(states[b - 1], steps[b - 1], j);
      assert states[b].w.nodes[j] in states[b].w.nodes;
    }
  }

  // ----- the allocation in hand -----

  /** The allocation in the worker's hands was read for the node it restores next, earlier in the same sync. */
  lemma {:induction false} ReadingWasMade(states: seq<State>, steps: seq<Step>, i: nat) returns (m: nat)
    requires IsRun(states, steps) && i < |states| && states[i].pc.Sync? && states[i].pc.todo.reading.Some?
    ensures states[i].pc.todo.restore != []
    ensures var name := states[i].pc.todo.restore[0].name;
            && m < i && Reads(states[m], steps[m], name) && (forall x | m <= x <= i :: states[x].pc.Sync?)
            && states[i].pc.todo.reading.value == Allocated(states[m].w.pods, name)
  {
    hide Call;
    assert i > 0;
    var s, step := states[i - 1], steps[i - 1];
    assert Enabled(s, step) && states[i] == Next(s, step);
    if step.Advance? {
      CallKeepsReading(s.w, s.pc, step.c);
    }
    if s.pc.Sync? && s.pc.todo.reading.Some? {
      m := ReadingWasMade(states, steps, i - 1);
    } else {
      m := i - 1;
    }
  }

  /** A call that ends with an allocation in hand kept it, or has just read it. */
  lemma CallKeepsReading(w: World, pc: Pc, c: Choice)
    ensures var pc' := Call(w, pc, c).1;
            pc'.Sync? && pc'.todo.reading.Some? ==>
              && pc.Sync? && pc'.todo.restore == pc.todo.restore
              && (|| pc'.todo.reading == pc.todo.reading
                  || (pc.todo.reading.None? && pc.todo.restore != [] && c.answer == Served
                      && !(c.isolateFirst && pc.todo.isolate != [])
                      && pc'.todo.reading.value == Allocated(w.pods, pc.todo.restore[0].name)))
  {
    hide Allocated;
  }

  // ----- where a label comes from -----

  ghost predicate NeverPatched(states: seq<State>, steps: seq<Step>, i: nat, name: string)
    requires i <= |steps| < |states|
  {
    forall p | 0 <= p < i :: !Patches(states[p], steps[p], name)
  }

  /** The last patch of the node before a state. */
  ghost predicate LastPatch(states: seq<State>, steps: seq<Step>, p: nat, i: nat, name: string)
    requires i <= |steps| < |states|
  {
    && p < i && Patches(states[p], steps[p], name)
    && forall x | p < x < i :: !Patches(states[x], steps[x], name)
  }

  /** The patch is an isolation, and the label its zero. */
  ghost predicate ZeroOfIsolation(states: seq<State>, steps: seq<Step>, p: nat, name: string, text: string)
    requires p < |steps| < |states|
  {
    Isolates(states[p], steps[p], name) && text == "0"
  }

  /** The patch is a restoration, and the label the allocation at an earlier read of the node in the same sync. */
  ghost predicate PrintOfRead(states: seq<State>, steps: seq<Step>, m: nat, p: nat, name: string, text: string)
    requires p < |steps| < |states|
  {
    && m < p && Restores(states[p], steps[p], name) && Reads(states[m], steps[m], name)
    && (forall x | m <= x <= p :: states[x].pc.Sync?)
    && text == Itoa(Allocated(states[m].w.pods, name))
  }

  ghost predicate Explained(states: seq<State>, steps: seq<Step>, i: nat, node: Node)
    requires i <= |steps| < |states|
  {
    match DensityLabel(node)
    case None => NeverPatched(states, steps, i, node.name)
    case Some(text) =>
      exists p | LastPatch(states, steps, p, i, node.name) ::
        || ZeroOfIsolation(states, steps, p, node.name, text)
        || exists m :: PrintOfRead(states, steps, m, p, node.name, text)
  }

  /**
   In every run the label of every stored node is absent exactly as long as the node has not been patched, and after
   that it is the zero of the last patch, if that was an isolation, or else the allocation read before it.
   */
  lemma {:induction false} LabelsAreExplained(states: seq<State>, steps: seq<Step>, i: nat, j: nat)
    requires IsRun(states, steps) && i < |states| && j < |states[i].w.nodes|
    ensures Explained(states, steps, i, states[i].w.nodes[j])
  {
    hide Next, Enabled, Patches, Isolates, Restores, Reads;
    if i > 0 {
      if j < |states[i - 1].w.nodes| {
        LabelsAreExplained(states, steps, i - 1, j);
        PatchExplains(states, steps, i, j);
      } else {
        NewNodeIsExplained(states, steps, i, j);
      }
    }
  }

  lemma NewNodeIsExplained(states: seq<State>, steps: seq<Step>, i: nat, j: nat)
    requires IsRun(states, steps) && 0 < i < |states| && |states[i - 1].w.nodes| <= j < |states[i].w.nodes|
    ensures Explained(states, steps, i, states[i].w.nodes[j])
  {
    hide Next, Enabled, Init, Isolates, Restores;
    var name := states[i].w.nodes[j].name;
    NodesAppearUnlabelled(states[i - 1], steps[i - 1], j);
    forall p | 0 <= p < i
      ensures !Patches(states[p], steps[p], name)
    {
      if OnList(states[p].w.nodes, name) {
        NodesStay(states, steps, p, i - 1, name);
      }
    }
  }

  lemma PatchExplains(states: seq<State>, steps: seq<Step>, i: nat, j: nat)
    requires IsRun(states, steps) && 0 < i < |states| && j < |states[i - 1].w.nodes|
    requires Explained(states, steps, i - 1, states[i - 1].w.nodes[j])
    ensures j < |states[i].w.nodes| && Explained(states, steps, i, states[i].w.nodes[j])
  {
    hide Next, Enabled, Init, Isolates, Restores, Reads;
    var s, step, name := states[i - 1], steps[i - 1], states[i - 1].w.nodes[j].name;
    assert Enabled(s, step) && states[i] == Next(s, step);
    StepOnLabel(s, step, j);
    if Patches(s, step, name) {
      assert LastPatch(states, steps, i - 1, i, name);
      if Isolates(s, step, name) {
        assert ZeroOfIsolation(states, steps, i - 1, name, "0");
      } else {
        var m := RestoredReading(states, steps, i - 1, name);
        assert PrintOfRead(states, steps, m, i - 1, name, DensityLabel(states[i].w.nodes[j]).value);
      }
    } else if DensityLabel(s.w.nodes[j]).Some? {
      var p :| LastPatch(states, steps, p, i - 1, name)
        && (|| ZeroOfIsolation(states, steps, p, name, DensityLabel(s.w.nodes[j]).value)
            || exists m :: PrintOfRead(states, steps, m, p, name, DensityLabel(s.w.nodes[j]).value));
      assert LastPatch(states, steps, p, i, name);
    }
  }

  lemma RestoredReading(states: seq<State>, steps: seq<Step>, p: nat, name: string) returns (m: nat)
    requires IsRun(states, steps) && p < |steps| && Restores(states[p], steps[p], name)
    ensures PrintOfRead(states, steps, m, p, name, Itoa(states[p].pc.todo.reading.value))
  {
    m := ReadingWasMade(states, steps, p);
  }

  /** So the label of a restored node is right at a later moment exactly when the allocation is again what was read. */
  lemma LabelIsRightExactly(states: seq<State>, steps: seq<Step>, m: nat, p: nat, i: nat, j: nat)
    requires IsRun(states, steps) && i < |states| && j < |states[i].w.nodes|
    requires LastPatch(states, steps, p, i, states[i].w.nodes[j].name) && DensityLabel(states[i].w.nodes[j]).Some?
    requires PrintOfRead(states, steps, m, p, states[i].w.nodes[j].name, DensityLabel(states[i].w.nodes[j]).value)
    ensures var name := states[i].w.nodes[j].name;
            DensityLabel(states[i].w.nodes[j]) == Some(Itoa(Allocated(states[i].w.pods, name)))
            <==> Allocated(states[i].w.pods, name) == Allocated(states[m].w.pods, name)
  {
    ParseOfItoa(Allocated(states[i].w.pods, states[i].w.nodes[j].name));
    ParseOfItoa(Allocated(states[m].w.pods, states[i].w.nodes[j].name));
  }
}
