/**
 The two goroutines of the health sync under any script: any order of their calls, any pattern of failures.
 Joins `Drive`, and so the code, to the confluence of NodePatches.
 */
module ConcurrentSync {
  import opened Capacity
  import opened GpuAllocations
  import opened GpuNodeDiscovery
  import opened KubeTypes
  import opened NodePatches
  import opened PrometheusClient
  import opened ReconcileProtocol
  import opened Wrappers

  ghost predicate AgreeOnRestore(restore: seq<Node>, reading: Option<int>, a: Answers, b: Answers) {
    && (forall n | n in restore :: a.patch(n.name) == b.patch(n.name))
    && (forall i | (if reading.Some? then 1 else 0) <= i < |restore| ::
          a.read(restore[i].name) == b.read(restore[i].name))
  }

  lemma {:induction false} RestoreDependsOn(
    node: Node, pods: seq<Pod>, restore: seq<Node>, reading: Option<int>, a: Answers, b: Answers)
    requires AgreeOnRestore(restore, reading, a, b)
    ensures AfterRestore(node, pods, restore, reading, a) == AfterRestore(node, pods, restore, reading, b)
    decreases |restore|
  {
    if restore != [] {
      var head := restore[0];
      var inUse := if reading.Some? then reading.value else Allocated(pods, head.name);
      var hit :=
        head.name == node.name && (reading.Some? || a.read(head.name) == Served) && a.patch(head.name) == Served;
      forall i | 0 <= i < |restore[1..]|
        ensures a.read(restore[1..][i].name) == b.read(restore[1..][i].name)
      {
        assert restore[1..][i] == restore[i + 1];
      }
      var node' := if hit then ApplyPatch(node, RestorePatch(head, inUse)) else node;
      RestoreDependsOn(node', pods, restore[1..], None, a, b);
    }
  }

  lemma {:induction false} IsolateDependsOn(node: Node, isolate: seq<Node>, a: Answers, b: Answers)
    requires forall n | n in isolate :: a.patch(n.name) == b.patch(n.name)
    ensures AfterIsolate(node, isolate, a) == AfterIsolate(node, isolate, b)
    decreases |isolate|
  {
    if isolate != [] {
      var hit := isolate[0].name == node.name && a.patch(node.name) == Served;
      assert isolate[0] in isolate;
      IsolateDependsOn(if hit then ApplyPatch(node, IsolationPatch()) else node, isolate[1..], a, b);
    }
  }

  /** What is left of the sync depends only on the answers about the nodes that are left. */
  lemma OutcomeDependsOn(nodes: seq<Node>, pods: seq<Pod>, todo: SyncPc, a: Answers, b: Answers)
    requires AgreeOnRestore(todo.restore, todo.reading, a, b)
    requires forall n | n in todo.isolate :: a.patch(n.name) == b.patch(n.name)
    ensures Outcome(nodes, pods, todo, a) == Outcome(nodes, pods, todo, b)
  {
    forall i | 0 <= i < |nodes|
      ensures Outcome(nodes, pods, todo, a)[i] == Outcome(nodes, pods, todo, b)[i]
    {
      RestoreDependsOn(nodes[i], pods, todo.restore, todo.reading, a, b);
      IsolateDependsOn(AfterRestore(nodes[i], pods, todo.restore, todo.reading, a), todo.isolate, a, b);
    }
  }

  /** No two calls of one kind left in the sync are about the same node. */
  ghost predicate Separate(todo: SyncPc) {
    DistinctNames(todo.restore) && DistinctNames(todo.isolate) && DisjointNames(todo)
  }

  /** The answers with one of them set. */
  function Answered(answers: Answers, read: bool, name: string, a: Answer): Answers {
    if read then answers.(read := x => if x == name then a else answers.read(x))
    else answers.(patch := x => if x == name then a else answers.patch(x))
  }

  /** The next call of the sync: is it the isolating goroutine's, is it a read, and about which node. */
  function Isolating(todo: SyncPc, c: Choice): bool {
    todo.restore == [] || (c.isolateFirst && todo.isolate != [])
  }

  // ----- each refused call costs one node -----

  /** The restoration of the node does not come about: its read is still to come and refused, or its patch is. */
  predicate RestoreMissed(name: string, reading: bool, answers: Answers) {
    (!reading && answers.read(name) != Served) || answers.patch(name) != Served
  }

  function CountRestoreMissed(restore: seq<Node>, reading: bool, answers: Answers): nat {
    if restore == [] then 0
    else
      var later := CountRestoreMissed(restore[1..], false, answers);
      if RestoreMissed(restore[0].name, reading, answers) then later + 1 else later
  }

  function CountIsolateMissed(isolate: seq<Node>, answers: Answers): nat {
    if isolate == [] then 0
    else
      var later := CountIsolateMissed(isolate[1..], answers);
      if answers.patch(isolate[0].name) != Served then later + 1 else later
  }

  /** How many of the nodes left in the sync will not be patched. */
  function CountMissed(todo: SyncPc, answers: Answers): nat {
    CountRestoreMissed(todo.restore, todo.reading.Some?, answers) + CountIsolateMissed(todo.isolate, answers)
  }

  /** How many calls of the script in a range are refused. */
  function Refusals(script: Script, a: nat, b: nat): nat
    decreases b - a
  {
    if a >= b then 0
    else
      var later := Refusals(script, a + 1, b);
      if script(a).answer != Served then later + 1 else later
  }

  lemma {:induction false} RestoreCountDependsOn(restore: seq<Node>, reading: Option<int>, a: Answers, b: Answers)
    requires AgreeOnRestore(restore, reading, a, b)
    ensures CountRestoreMissed(restore, reading.Some?, a) == CountRestoreMissed(restore, reading.Some?, b)
    decreases |restore|
  {
    if restore != [] {
      forall i | 0 <= i < |restore[1..]|
        ensures a.read(restore[1..][i].name) == b.read(restore[1..][i].name)
      {
        assert restore[1..][i] == restore[i + 1];
      }
      RestoreCountDependsOn(restore[1..], None, a, b);
    }
  }

  lemma {:induction false} IsolateCountDependsOn(isolate: seq<Node>, a: Answers, b: Answers)
    requires forall n | n in isolate :: a.patch(n.name) == b.patch(n.name)
    ensures CountIsolateMissed(isolate, a) == CountIsolateMissed(isolate, b)
  {
    if isolate != [] {
      assert isolate[0] in isolate;
      IsolateCountDependsOn(isolate[1..], a, b);
    }
  }

  /** The answers of the calls still to come, and of the one just made. */
  function AnsweredNow(todo: SyncPc, isolating: bool, a: Answer, later: Answers): Answers
    requires if isolating then todo.isolate != [] else todo.restore != []
  {
    if isolating then Answered(later, false, todo.isolate[0].name, a)
    else Answered(later, todo.reading.None?, todo.restore[0].name, a)
  }

  /** They agree with those still to come about all nodes that are left. */
  lemma AnswerIsUsedOnce(nodes: seq<Node>, pods: seq<Pod>, todo: SyncPc, isolating: bool, a: Answer, later: Answers)
    requires Separate(todo) && (if isolating then todo.isolate != [] else todo.restore != [])
    ensures var answers := AnsweredNow(todo, isolating, a, later);
            var (_, todo') := Move(nodes, pods, todo, isolating, answers);
            && Move(nodes, pods, todo, isolating, answers)
               == (if isolating then IsolateStep(nodes, todo, a) else RestoreStep(nodes, pods, todo, a))
            && Separate(todo') && AgreeOnRestore(todo'.restore, todo'.reading, answers, later)
            && (forall n | n in todo'.isolate :: answers.patch(n.name) == later.patch(n.name))
  {
    hide ApplyPatch, PatchNode, RestorePatch, IsolationPatch, Allocated;
    var (_, todo') := Move(nodes, pods, todo, isolating, AnsweredNow(todo, isolating, a, later));
    assert forall n | n in todo'.restore :: n in todo.restore;
    assert forall n | n in todo'.isolate :: n in todo.isolate;
    assert isolating ==> todo.isolate[0] in todo.isolate;
    assert !isolating ==> todo.restore[0] in todo.restore;
  }

  /** So a refused call adds one to the nodes missed, and a served call none. */
  lemma RefusalCostsOneNode(nodes: seq<Node>, pods: seq<Pod>, todo: SyncPc, isolating: bool, a: Answer, later: Answers)
    requires Separate(todo) && (if isolating then todo.isolate != [] else todo.restore != [])
    ensures var answers := AnsweredNow(todo, isolating, a, later);
            CountMissed(todo, answers)
            == CountMissed(Move(nodes, pods, todo, isolating, answers).1, later) + if a != Served then 1 else 0
  {
    hide ApplyPatch, PatchNode, RestorePatch, IsolationPatch, Allocated, Separate;
    var answers := AnsweredNow(todo, isolating, a, later);
    AnswerIsUsedOnce(nodes, pods, todo, isolating, a, later);
    var todo' := Move(nodes, pods, todo, isolating, answers).1;
    RestoreCountDependsOn(todo'.restore, todo'.reading, answers, later);
    IsolateCountDependsOn(todo'.isolate, answers, later);
  }

  /**
   Any script, in any order, takes the sync to the outcome of some fixed answers about each node, in which every refused
   call of the script costs exactly one node.
   */
  lemma {:induction false} SyncLeavesAnOutcome(
    script: Script, w: World, calls: nat, f: Fetched, healthy: seq<Node>, todo: SyncPc)
    returns (answers: Answers, n: nat)
    requires Separate(todo)
    ensures Drive(script, w, calls, Resume(f, healthy, todo))
         == Drive(script, w.(nodes := Outcome(w.nodes, w.pods, todo, answers)), n, Decide(f, healthy))
    ensures calls <= n && CountMissed(todo, answers) == Refusals(script, calls, n)
    decreases SyncWork(todo)
  {
    hide Call, Drive;
    if SyncDone(todo) {
      answers, n := ALL_SERVED, calls;
      assert Outcome(w.nodes, w.pods, todo, answers) == w.nodes;
    } else {
      var c := script(calls);
      var isolating := Isolating(todo, c);
      var (nodes', todo') :=
        if isolating then IsolateStep(w.nodes, todo, c.answer) else RestoreStep(w.nodes, w.pods, todo, c.answer);
      AnswerIsUsedOnce(w.nodes, w.pods, todo, isolating, c.answer, ALL_SERVED);
      DriveStep(script, w, calls, Sync(f, healthy, todo));
      SyncCall(w, f, healthy, todo, c);
      var later;
      later, n := SyncLeavesAnOutcome(script, w.(nodes := nodes'), calls + 1, f, healthy, todo');
      answers := AnsweredNow(todo, isolating, c.answer, later);
      AnswerIsUsedOnce(w.nodes, w.pods, todo, isolating, c.answer, later);
      RefusalCostsOneNode(w.nodes, w.pods, todo, isolating, c.answer, later);
      OutcomeDependsOn(nodes', w.pods, todo', answers, later);
      MoveKeepsOutcome(w.nodes, w.pods, todo, isolating, answers);
    }
  }

  /**
   So whatever fails, and whichever goroutine is faster, the code leaves the node store that restore-then-isolate leaves
   when the calls about each node meet the same answers.
   */
  lemma AnyOrderIsSequential(script: Script, w: World, calls: nat, f: Fetched, healthy: seq<Node>, todo: SyncPc)
    returns (answers: Answers, n: nat)
    requires Separate(todo)
    ensures var sequential := Interleave(w.nodes, w.pods, todo, RestoreThenIsolate(todo), answers).0;
            Drive(script, w, calls, Resume(f, healthy, todo))
            == Drive(script, w.(nodes := sequential), n, Decide(f, healthy))
  {
    hide Drive;
    answers, n := SyncLeavesAnOutcome(script, w, calls, f, healthy, todo);
    SequentialCompletes(w.nodes, w.pods, todo, 2 * |todo.restore|, answers);
    InterleavingReachesOutcome(w.nodes, w.pods, todo, RestoreThenIsolate(todo), answers);
  }

  lemma SyncCall(w: World, f: Fetched, healthy: seq<Node>, todo: SyncPc, c: Choice)
    requires !SyncDone(todo)
    ensures var (nodes', todo') :=
              if Isolating(todo, c) then IsolateStep(w.nodes, todo, c.answer)
              else RestoreStep(w.nodes, w.pods, todo, c.answer);
            Call(w, Sync(f, healthy, todo), c) == (w.(nodes := nodes'), Resume(f, healthy, todo'))
  {
  }

  // ----- the whole pass -----

  /** The calls about the node that its verdict asks for are not all served. */
  predicate Missed(node: Node, vec: seq<Sample>, answers: Answers) {
    match VerdictOf(vec, node.name)
    case Healthy => answers.read(node.name) != Served || answers.patch(node.name) != Served
    case Unhealthy => answers.patch(node.name) != Served
    case Silent => false
  }

  /** Failures do not spread: a node misses its part of the pass exactly when a call about that very node fails. */
  lemma OutcomeOnNode(nodes: seq<Node>, pods: seq<Pod>, vec: seq<Sample>, answers: Answers, i: nat)
    requires DistinctNames(nodes) && i < |nodes|
    ensures Outcome(nodes, pods, StartSync(nodes, vec), answers)[i]
         == if Missed(nodes[i], vec, answers) then nodes[i] else SyncNode(nodes[i], pods, vec)
  {
    hide ApplyPatch, VerdictOf, IsGpuNode, AfterIsolate, AfterRestore;
    var node := nodes[i];
    var healthy, unhealthy := HealthyGpuNodes(nodes, vec), UnhealthyGpuNodes(nodes, vec);
    HealthyGpuNodesMembers(nodes, vec);
    GpuNodesMembers(nodes);
    WithVerdictMembers(GpuNodes(nodes), vec, Unhealthy);
    SyncIsSeparate(nodes, vec);
    assert forall n | n in nodes && n.name == node.name :: n == node;
    if node in healthy {
      RestoreHitsAtMostOnce(node, pods, healthy, answers);
    } else {
      RestoreMisses(node, pods, healthy, None, answers);
    }
    IsolateHitsOrMisses(AfterRestore(node, pods, healthy, None, answers), unhealthy, answers);
    if n :| n in unhealthy && n.name == node.name {
      assert n == node;
    }
  }

  lemma SyncIsSeparate(nodes: seq<Node>, vec: seq<Sample>)
    requires DistinctNames(nodes)
    ensures Separate(StartSync(nodes, vec))
  {
    GpuNodesDistinct(nodes);
    WithVerdictDistinct(GpuNodes(nodes), vec, Healthy);
    WithVerdictDistinct(GpuNodes(nodes), vec, Unhealthy);
    StartIsDisjoint(nodes, vec);
  }

  lemma {:induction false} RestoreHitsAtMostOnce(node: Node, pods: seq<Pod>, restore: seq<Node>, answers: Answers)
    requires DistinctNames(restore) && node in restore
    ensures AfterRestore(node, pods, restore, None, answers)
         == if RestoreMissed(node.name, false, answers) then node
            else ApplyPatch(node, RestorePatch(node, Allocated(pods, node.name)))
  {
    if restore[0] == node {
      RestoreMisses(node, pods, restore[1..], None, answers);
      var patched := ApplyPatch(node, RestorePatch(node, Allocated(pods, node.name)));
      RestoreMisses(patched, pods, restore[1..], None, answers);
    } else {
      RestoreHitsAtMostOnce(node, pods, restore[1..], answers);
    }
  }

  lemma {:induction false} IsolateHitsOrMisses(node: Node, isolate: seq<Node>, answers: Answers)
    ensures var listed := exists n | n in isolate :: n.name == node.name;
            AfterIsolate(node, isolate, answers)
            == if listed && answers.patch(node.name) == Served then ApplyPatch(node, IsolationPatch()) else node
    decreases |isolate|
  {
    if isolate != [] {
      var patched := ApplyPatch(node, IsolationPatch());
      assert isolate[0] in isolate;
      assert forall n | n in isolate[1..] :: n in isolate;
      IsolateHitsOrMisses(patched, isolate[1..], answers);
      IsolateHitsOrMisses(node, isolate[1..], answers);
      PatchTwice(node, IsolationPatch());
    }
  }

  /** Each node the answers miss is as before, every other as a pass without errors would leave it. */
  ghost predicate PartialPass(
    before: seq<Node>, after: seq<Node>, pods: seq<Pod>, vec: seq<Sample>, answers: Answers)
  {
    && |after| == |before|
    && forall i | 0 <= i < |before| ::
         after[i] == if Missed(before[i], vec, answers) then before[i] else SyncNode(before[i], pods, vec)
  }

  /**
   A pass in which anything may fail, and the goroutines run in any order, leaves each node untouched or as a pass
   without errors would leave it: the former exactly for the nodes the fixed answers miss, one for every refused call.
   */
  lemma AnyPassIsPartial(script: Script, w: World, calls: nat, f: Fetched, vec: seq<Sample>)
    returns (synced: seq<Node>, n: nat, answers: Answers)
    requires DistinctNames(w.nodes)
    ensures Drive(script, w, calls, Resume(f, HealthyGpuNodes(w.nodes, vec), StartSync(w.nodes, vec)))
         == Drive(script, w.(nodes := synced), n, Decide(f, HealthyGpuNodes(w.nodes, vec)))
    ensures PartialPass(w.nodes, synced, w.pods, vec, answers)
    ensures calls <= n && CountMissed(StartSync(w.nodes, vec), answers) == Refusals(script, calls, n)
  {
    hide Drive;
    SyncIsSeparate(w.nodes, vec);
    answers, n := SyncLeavesAnOutcome(script, w, calls, f, HealthyGpuNodes(w.nodes, vec), StartSync(w.nodes, vec));
    synced := Outcome(w.nodes, w.pods, StartSync(w.nodes, vec), answers);
    forall i | 0 <= i < |w.nodes| {
      OutcomeOnNode(w.nodes, w.pods, vec, answers, i);
    }
  }

  // ----- the whole reconcile -----

  /** Calls after which no node is patched any more. */
  predicate OffSync(pc: Pc) {
    !pc.Fetch? && !pc.GetPod? && !pc.ListNodes? && !pc.QueryHealth? && !pc.Sync?
  }

  lemma OffSyncCall(w: World, pc: Pc, c: Choice)
    requires OffSync(pc)
    ensures var (w', pc') := Call(w, pc, c); w'.nodes == w.nodes && OffSync(pc')
  {
  }

  lemma {:induction false} OffSyncKeepsNodes(script: Script, w: World, calls: nat, pc: Pc)
    requires OffSync(pc)
    ensures Drive(script, w, calls, pc).0.nodes == w.nodes
    decreases Stage(pc), Left(pc)
  {
    if Stopped(pc) {
      DriveStopped(script, w, calls, pc);
    } else {
      CallProgresses(w, pc, script(calls));
      OffSyncCall(w, pc, script(calls));
      DriveStep(script, w, calls, pc);
      OffSyncKeepsNodes(script, Call(w, pc, script(calls)).0, calls + 1, Call(w, pc, script(calls)).1);
    }
  }

  /** The nodes are as before, unless Prometheus answered with a vector, by which a pass was made at least in part. */
  ghost predicate MadeByPass(before: seq<Node>, after: seq<Node>, pods: seq<Pod>, reply: PromReply) {
    after == before || (reply.Vector? && exists answers :: PartialPass(before, after, pods, reply.samples, answers))
  }

  lemma FromListing(script: Script, w: World, calls: nat, f: Fetched)
    requires DistinctNames(w.nodes)
    ensures MadeByPass(w.nodes, Drive(script, w, calls, ListNodes(f)).0.nodes, w.pods, script(calls + 1).reply)
  {
    hide Drive, Call, SyncNode;
    var gpuNodes, c := GpuNodes(w.nodes), script(calls + 1);
    DriveStep(script, w, calls, ListNodes(f));
    FromListingCalls(w, f, script(calls), c);
    if script(calls).answer == Served && c.reply.Vector? {
      var vec := c.reply.samples;
      DriveStep(script, w, calls + 1, QueryHealth(f, gpuNodes));
      var synced, n, answers := AnyPassIsPartial(script, w, calls + 2, f, vec);
      OffSyncKeepsNodes(script, w.(nodes := synced), n, Decide(f, HealthyGpuNodes(w.nodes, vec)));
      assert PartialPass(w.nodes, synced, w.pods, vec, answers);
    } else if script(calls).answer == Served {
      DriveStep(script, w, calls + 1, QueryHealth(f, gpuNodes));
      OffSyncKeepsNodes(script, w, calls + 2, Finish(f.key, FAILURE));
    } else {
      OffSyncKeepsNodes(script, w, calls + 1, Finish(f.key, FAILURE));
    }
  }

  lemma FromListingCalls(w: World, f: Fetched, first: Choice, second: Choice)
    ensures Call(w, ListNodes(f), first)
         == (w, if first.answer == Served then QueryHealth(f, GpuNodes(w.nodes)) else Finish(f.key, FAILURE))
    ensures Call(w, QueryHealth(f, GpuNodes(w.nodes)), second)
         == (w, if second.reply.Vector? then
                  var vec := second.reply.samples; Resume(f, HealthyGpuNodes(w.nodes, vec), StartSync(w.nodes, vec))
                else Finish(f.key, FAILURE))
  {
  }

  /**
   Any reconcile of any key, whatever its calls meet and however the goroutines take turns, makes no other change to a
   node than an error-free pass over the vector it got.
   */
  lemma AnyReconcileIsPartial(script: Script, w: World, calls: nat, k: Key)
    requires DistinctNames(w.nodes)
    ensures MadeByPass(w.nodes, Drive(script, w, calls, Fetch(k)).0.nodes, w.pods, script(calls + 3).reply)
  {
    hide Drive, SyncNode, AfterGetPod, ReadPod;
    DriveStep(script, w, calls, Fetch(k));
    var pc := Call(w, Fetch(k), script(calls)).1;
    if pc.GetPod? {
      DriveStep(script, w, calls + 1, pc);
      var next := AfterGetPod(pc.f, ReadPod(w, pc.f.key, script(calls + 1).answer));
      AfterReading(pc.f, ReadPod(w, pc.f.key, script(calls + 1).answer));
      if next.ListNodes? {
        FromListing(script, w, calls + 2, pc.f);
      } else {
        OffSyncKeepsNodes(script, w, calls + 2, next);
      }
    } else {
      OffSyncKeepsNodes(script, w, calls + 1, pc);
    }
  }

  lemma AfterReading(f: Fetched, reply: Result<Pod, ApiError>)
    ensures AfterGetPod(f, reply) == ListNodes(f) || OffSync(AfterGetPod(f, reply))
  {
  }
}
