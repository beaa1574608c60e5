# kube-hpc-sentinel: a verified model of the HPCJob operator

The operator watches `HPCJob` objects and gives each a pod with GPUs. Before it places a pod it runs a health pass over
the GPU nodes: it reads a Prometheus vector, classifies the nodes, and two goroutines patch them. Healthy nodes lose the
unhealthy taint and get a density label with the GPUs in use; unhealthy nodes get the taint and density 0. The next
capacity decision reads that label back. This project models the controller as a protocol and proves what it keeps.

## How the model is built

- **Job store** (`JobLog`). Job objects are a log of writes. A resource version is a position in the log, the store is
  the state after the whole log, the informer cache is the state after a prefix of it. Stale reads and rejected status
  updates come out of this, they are not assumed.
- **Reconciler as a machine** (`ReconcileProtocol`). A program counter is the API call the code is about to make; `Call`
  makes it and follows the code to the next one. Every call can fail. `Drive` runs the machine alone to the end.
- **The code itself** (`KubeClient`, `HPCJobController`). The Go methods on mutable objects, each proved to do what
  `Drive` does from its first call: same cluster, same number of calls, same result. This holds for every script of
  answers and every order in which the two goroutines of the health sync make their calls. The methods follow the code
  statement by statement, with one exception: `SyncNodeHealthStatus` does not call the goroutines' loops
  `RestoreHealthyNodes` and `IsolateUnhealthyNodes` but schedules their calls one at a time. `DriveRestore` and
  `DriveIsolate` tie each loop to those calls when the other list is empty.
- **The controller in its environment** (`ControllerSystem`). One worker, the work queue, watch events, resyncs, timers,
  users, a scheduler that honours taints, pods and nodes that change. A run is any interleaving of these with single API
  calls. `Attention`, `Progress`, `LostKeys`, `PodCreation`, `PodSpecs`, `PhaseProtocol`, `Quarantine`, `TaintWindow` and
  `DensityLabels` prove statements about all runs.
- **The health pass** (`PrometheusClient`, `GpuNodeDiscovery`, `NodePatches`, `GpuAllocations`, `Capacity`, `Decimal`).
- **Single reconciles** (`UndisturbedReconcile`, `ConcurrentSync`, `JobOutcomes`, `ReconcileTable`), **scenario generator**
  (`FakeScenario`), **finalizers** (`Finalizers`).

## Results

- Whatever calls fail and in whatever order the two goroutines of the health sync make them, the code leaves the node
  store that restore-then-isolate leaves when the calls about each node meet the same answers; every refused call leaves
  exactly one node as it was, and every other node is as one error-free map over the nodes would leave it. The map is idempotent, and its frame is stated node kind by
  node kind.
- In every run a pod whose job is gone, and a job that is still unset or Pending, has an event under way, is queued, is
  delayed, or is in the worker's hands on a path that ends by cleaning up or coming back, if and only if no fetch of
  that key broke while nothing else signalled it. Noticed means that the system can, by itself, get rid of the orphan,
  or look at the job as it is stored; not noticed means that it cannot. A lost orphan stays until somebody creates a job
  of its name or removes the pod, a lost job until somebody writes it or a resync replays it.
- In every run the loss of a Running job's pod is noticed, if and only if none of three steps happened, which are named.
- In every run a density label is absent until the first patch of the node, and then the zero of the last isolation or
  the allocation read for the last restoration; the containers of every pod are what a written version of its job asks
  for.
- In every run pod keys are distinct, and a creation never meets an existing pod.
- The informer cache always shows the store of one earlier moment.
- One reconcile is a table: for every phase of the job, every state of its pod, every spec and every answer of the calls,
  the writes, the error and the delay are stated on the cluster before it (`ReconcileTable`).
- Stored phases Failed and Complete absorb, Pending is written only over Running, although the cache may lag.
- After an error-free reconcile of a Failed job, its pod does not exist again while that job object lives.
- Between the isolation of a node and the binding of a pod to it some scan found the node healthy.
- Two passes are needed and enough for a capacity decision that is exact.
- The generator of fake metrics and the detector agree, with the exact condition for each metric.

Where the code does less than its messages or comments promise, the code is modelled as it is:

- A fetch error other than NotFound drops the key (hpcjob_controller.go:61-67). `OrphansAreNoticed` and
  `JobsAreRemembered` say exactly when that loses something; `RunLosesOrphan` and `RunLosesJob` give runs from an empty
  cluster, on any nodes on which the job fits, in which that one failure does it.
- Pods are not watched. The loss of a Running job's pod is missed exactly if nothing signals the key and either the pod
  goes while the worker is not about to look, or it is gone and the fetch breaks, or it went after the worker had read it
  as running and the status update is served: `LossIsMissedExactly`, `LossesAreNoticed`. The job then stays so until
  somebody writes it or a resync replays it (`StrandedStays`); `RunStrandsJob` gives runs without any failure that end
  there.
- A pod is made for the spec that was fetched. If the job is edited or replaced before the creation, the pod does not fit
  the stored job, and no later reconcile compares them: `CreatedPodFitsStoredJob`, `ExistingPodStays`.
- Isolating a node drops its other taints, and restoring does not bring them back: `IsolationLosesTaints`.
- A restoration patch carries the taint list of the listing, so a taint added between listing and patch is lost, and one
  removed comes back: `RestorationKeepsTaintsExactly`, `TaintsComeFromListing`.
- The code takes a Conflict on creation for an existing pod, but the API server answers AlreadyExists, which makes the
  reconcile fail. In the system modelled it cannot happen (`CreationNeverCollides`); it takes another creator of a pod
  of that name between the read and the creation (`OutsideCreatorBreaksCreation`).
- The pod's density bound comes from the labels before the pass, the scheduler compares the labels after it:
  `PreferenceAfterPlacement`, `LeastCandidateStaysPreferred`; the two agree on nodes the pass does not change.
- One read of the pod that fails with anything but NotFound fails the job for good: `OneFailedPodReadFailsTheJob`.
- The density preference of a pod leaves out an idle candidate node: `IdleCandidateIsNotPreferred`.
- Removing the finalizer after adding it restores the list only when it was not there: `AddThenRemove`.
- Chaos events on temperature, ECC errors and GPU utilisation may fall in the healthy range:
  `ChaosReadingIsOutOfRangeExactly`.

## Assumptions

- A strategic merge patch replaces the taint list and merges labels key by key. Node names are unique.
- Others do not write the density label or the unhealthy taint, do not change job status, and create no pods. Pod
  deletion is immediate. One worker runs. A label selector or field selector returns exactly the matching objects.
- The cache is updated and the key queued in one step; the informer does the first just before the second. A resync, for
  which cmd/manager/main.go leaves the period at its default, may replay any cached object at any time.
- A status update or finalizer update with an old resource version is refused; a status update that changes nothing is
  not a write. `RemoveResourceFinalizer` is taken to reach the job object.

## Model

| member | source | states |
|---|---|---|
| Decimal.AtoiOfItoa | pkg/kube/client.go:232-239 | what is printed as density parses back to the same number exactly for the 64-bit values, and is an error otherwise |
| Decimal.ParsesExactly | internal/controller/hpcjob_controller.go:283-287 | exactly an optional sign and digits whose value is within 64 bits parse, with that value |
| Decimal.DigitsValueSplits | internal/controller/hpcjob_controller.go:283-287 | the value of digits is positional in base ten |
| Decimal.PrintsCanonically | pkg/kube/client.go:237 | a printed number is a minus if negative and digits without leading zeros |
| PrometheusClient.LastValue | pkg/prometheus/client.go:73-85 | a series has a value exactly when the vector has a sample of it |
| PrometheusClient.LastSampleWins | pkg/prometheus/client.go:73-85 | by position: the value of a series is that of its last sample, whatever stands before it |
| PrometheusClient.RecordSample | pkg/prometheus/client.go:78-84 | one loop iteration sets one entry and makes the inner maps it needs |
| PrometheusClient.GetFullGPUClusterHealthCheck | pkg/prometheus/client.go:60-88 | an error exactly when the reply is not a vector; else every series holds its last value, nothing else is held, no inner map is empty |
| PrometheusClient.ScanIsDetermined | pkg/prometheus/client.go:72-87 | those three facts determine the nested map |
| GpuAllocations.SumAllocations | pkg/kube/client.go:133-143 | the accumulation loops compute the sum over counted phases and all containers |
| GpuAllocations.AllocatedOfPodsOn | pkg/kube/client.go:127-134 | summing over the pods listed for the node is summing its shares over all pods |
| GpuAllocations.PhaseDecidesAllocation | pkg/kube/client.go:134-143 | a bound pod adds its requests while pending, running or failed, and nothing once succeeded or unknown |
| GpuAllocations.RequestsAdd | pkg/kube/client.go:138-142 | the requests of all containers of a pod add up |
| GpuAllocations.AllocationsAdd | pkg/kube/client.go:133-143 | the allocations of two groups of pods add up |
| GpuAllocations.PodsOnSplits | pkg/kube/client.go:127-129 | the pods listed for a node keep their order |
| GpuAllocations.AllocationsAreConserved | pkg/kube/client.go:125-149 | over distinct nodes the allocations add up to the requests of all counted pods bound to them |
| GpuAllocations.CreationAllocatesNothing | internal/controller/hpcjob_controller.go:307-361 | creating an unbound pod changes no node's allocation |
| GpuAllocations.BindingAllocatesOnce | pkg/kube/client.go:125-149 | binding a counted pod raises one node's allocation by its requests and no other |
| NodePatches.MoveKeepsOutcome | internal/controller/gpu_node_discovery.go:66-90 | no step of either goroutine changes the store that remains to be reached |
| NodePatches.SyncIsConfluent | internal/controller/gpu_node_discovery.go:66-90 | for fixed API outcomes every complete interleaving leaves the store of restore-then-isolate |
| NodePatches.IsolationLosesTaints | pkg/kube/client.go:164-179 | restoring an isolated node gives its taints back exactly when it had none |
| NodePatches.IsolationRepels | pkg/kube/client.go:164-179 | an isolated node admits exactly the pods that tolerate the unhealthy taint, and evicts none: no taint has effect NoExecute |
| NodePatches.RestorationAdmits | pkg/kube/client.go:217-242 | a node restored from its own state admits exactly the pods that tolerate its other taints |
| NodePatches.RestorationDropsUnhealthy | pkg/kube/client.go:220-225 | exactly the unhealthy taints are dropped |
| NodePatches.RestorationSplits | pkg/kube/client.go:220-225 | the filter works element by element, so the order of the others is kept |
| NodePatches.RestorationKeepsOthers | pkg/kube/client.go:220-225 | a list without unhealthy taints is left as it is |
| NodePatches.RestorationKeepsTaintsExactly | pkg/kube/client.go:217-242 | a restoration keeps the stored node's other taints exactly when they are still those of the listed snapshot |
| NodePatches.RestorationRewindsTaints | pkg/kube/client.go:217-242 | otherwise the restored node has exactly the snapshot's other taints, and no unhealthy one |
| GpuNodeDiscovery.LabelledNodesSuffice | pkg/kube/client.go:93-103 | selecting by label existence on the server loses no valid GPU node |
| GpuNodeDiscovery.SelectValidNodes | pkg/kube/client.go:104-114 | the loop keeps exactly the nodes with a positive integer count, in order |
| GpuNodeDiscovery.GpuNodeExactly | pkg/kube/client.go:105-114 | a node counts exactly when its count label is the text of a positive 64-bit integer |
| GpuNodeDiscovery.GpuNodesSplit | pkg/kube/client.go:104-116 | the valid nodes keep the order of the list |
| GpuNodeDiscovery.CheckMetrics | internal/controller/gpu_node_discovery.go:44-55 | in any iteration order the flag says whether every metric is in range |
| GpuNodeDiscovery.ScanAgreesWithVector | internal/controller/gpu_node_discovery.go:36-60 | the verdict on the nested map is the verdict on the last samples of the vector |
| GpuNodeDiscovery.Classify | internal/controller/gpu_node_discovery.go:36-61 | the two lists are the listed nodes with that verdict, in list order |
| GpuNodeDiscovery.WithVerdictMembers | internal/controller/gpu_node_discovery.go:56-60 | a node is on a list exactly when it was listed and has the verdict |
| GpuNodeDiscovery.WithVerdictSplits | internal/controller/gpu_node_discovery.go:36-61 | a classified list keeps the order of the nodes |
| GpuNodeDiscovery.HealthyByLastSamples | internal/controller/gpu_node_discovery.go:36-60 | by position: silent without a sample, unhealthy exactly when the last sample of some series is out of range |
| GpuNodeDiscovery.VerdictsPartition | internal/controller/gpu_node_discovery.go:36-60 | healthy, unhealthy and silent nodes split the listed nodes with their multiplicity |
| GpuNodeDiscovery.ClassesAreDisjoint | internal/controller/gpu_node_discovery.go:56-60 | no name is on both lists |
| GpuNodeDiscovery.PassIsPointwise | internal/controller/gpu_node_discovery.go:25-90 | listing, classifying and patching by name amounts to one map over the store |
| GpuNodeDiscovery.ConcurrentPassIsPointwise | internal/controller/gpu_node_discovery.go:66-90 | so does every complete interleaving of the two goroutines |
| GpuNodeDiscovery.SyncNodeFrame | pkg/kube/client.go:161-267 | what healthy, unhealthy, silent and non-GPU nodes keep and get |
| GpuNodeDiscovery.SyncPassIsIdempotent | pkg/kube/client.go:161-267 | a second pass under the same scan and pods changes no node |
| Capacity.LeastDensity | internal/controller/hpcjob_controller.go:294-304 | defined exactly when a node qualifies, and then the least candidate density |
| Capacity.CapacityIsDetermined | internal/controller/hpcjob_controller.go:272-305 | existence and minimality determine the decision |
| Capacity.CollectCandidates | internal/controller/hpcjob_controller.go:275-293 | the first loop appends the candidate densities in order and ignores unparsable labels |
| Capacity.CandidatesMembers | internal/controller/hpcjob_controller.go:275-293 | the appended values are exactly the densities of qualifying nodes |
| Capacity.CalculateClusterCapacityForJob | internal/controller/hpcjob_controller.go:272-305 | has capacity exactly when a node qualifies; the value is the least density among those |
| Capacity.CapacityIgnoresOrder | internal/controller/hpcjob_controller.go:272-305 | permuting the listed nodes does not change the decision |
| Capacity.HpcPodRequests | internal/controller/hpcjob_controller.go:344-358 | the pod requests exactly the job's GPU count |
| Capacity.NewPodAllocatesNothing | internal/controller/hpcjob_controller.go:312-361 | the created pod is pending and changes no node's allocation |
| Capacity.PodIsAdmittedExactly | internal/controller/hpcjob_controller.go:319-325 | the created pod is admitted by a node exactly when every taint there is the GPU taint with effect NoSchedule or has effect PreferNoSchedule |
| Capacity.AffinityPrefersLoadedCandidates | internal/controller/hpcjob_controller.go:307-341 | a qualifying node satisfies the preference exactly from density one on; no node below the minimum does |
| Capacity.IdleCandidateIsNotPreferred | internal/controller/hpcjob_controller.go:308-337 | the least loaded candidate satisfies its own preference exactly when it is not idle |
| Capacity.LabelIsFaithful | pkg/kube/client.go:232-242 | after a restoring pass the capacity test sees the true allocation |
| Capacity.BindingOnFaithfulLabelFits | internal/controller/hpcjob_controller.go:283-291 | binding the pod to a node that qualified on a faithful label does not overcommit it |
| Capacity.UnlabelledNodesNeverQualify | internal/controller/hpcjob_controller.go:278-292 | without density labels nothing qualifies: the branch for nodes without labels is never reached |
| Capacity.SecondDecisionIsExact | internal/controller/hpcjob_controller.go:262-305 | after a complete pass capacity is found exactly when a healthy GPU node really has room |
| Finalizers.FilterFinalizers | pkg/kube/client.go:302-308 | the removal loop computes the filtered list |
| Finalizers.JoinedContains | pkg/kube/client.go:283-286 | the substring test on the joined list holds exactly when a single entry contains the text |
| Finalizers.AddIsIdempotent | pkg/kube/client.go:283-287 | adding twice is adding once, and afterwards the test succeeds |
| Finalizers.RemoveDeletesEqual | pkg/kube/client.go:301-308 | exactly the equal entries go, the others keep their number |
| Finalizers.RemovalSplits | pkg/kube/client.go:302-308 | the others keep their order |
| Finalizers.AddAppendsExactly | pkg/kube/client.go:283-287 | the finalizer is appended exactly when no entry contains its text |
| Finalizers.AddThenRemove | pkg/kube/client.go:283-308 | removing after adding restores the list exactly when the finalizer was not on it |
| JobLog.ObjectLivesBetween | internal/controller/hpcjob_controller.go:364-371 | between two writes of one object it is stored throughout |
| JobLog.TerminalPhaseIsAbsorbing | internal/controller/hpcjob_controller.go:364-371 | a terminal phase is the phase of every later write of the object |
| JobLog.PendingComesFromRunning | internal/controller/hpcjob_controller.go:143-149 | Pending is written only over Running, or rewritten over itself |
| ReconcileProtocol.CallProgresses | internal/controller/hpcjob_controller.go:55-85 | every call brings the reconcile closer to its end |
| ControllerSystem.CallWrites | internal/controller/hpcjob_controller.go:364-371 | a call writes at most one job event, only about the key being reconciled |
| ControllerSystem.CallKeepsFetched | internal/controller/hpcjob_controller.go:60-71 | the worker acts on the one object it fetched until it is done |
| ControllerSystem.StatusWriteIsAllowed | internal/controller/hpcjob_controller.go:364-371 | an accepted status update moves the stored phase along the protocol, even from a stale read |
| ControllerSystem.InvAlways | internal/controller/hpcjob_controller.go:55-85 | in every reachable state the log follows the protocol and the worker's knowledge is fresh or its key dirty |
| Attention.StaleIsSignalled | internal/controller/hpcjob_controller.go:60-68 | if the store moved on from what was fetched, an event is under way or the key is queued |
| Attention.PodsAppearByCreation | internal/controller/hpcjob_controller.go:126-133 | a pod of a key appears only by the worker's creation for that key |
| Attention.OrphanStep | internal/controller/hpcjob_controller.go:194-209 | no step but a broken fetch leaves an orphan unnoticed |
| Attention.AwaitingStep | internal/controller/hpcjob_controller.go:100-151 | no step but a broken fetch forgets an unset or Pending job |
| Attention.OrphanIsLostExactlyByBrokenFetch | internal/controller/hpcjob_controller.go:61-67 | a step loses an orphan exactly when the fetch of its key breaks and nothing else signals it |
| Attention.JobIsLostExactlyByBrokenFetch | internal/controller/hpcjob_controller.go:61-67 | the same for an unset or Pending job |
| Attention.OrphansAreNoticed | internal/controller/hpcjob_controller.go:194-209 | through any part of a run every orphan of a key is noticed exactly when no broken fetch of that key drops one |
| Attention.JobsAreRemembered | internal/controller/hpcjob_controller.go:100-151 | likewise no unset or Pending job of the key is forgotten exactly when no broken fetch of that key drops one |
| Attention.NothingIsForgotten | internal/controller/hpcjob_controller.go:55-209 | both over all keys: failed fetches of other keys, or of keys something else brings back, lose nothing |
| Attention.UnnoticedIsLost | internal/controller/hpcjob_controller.go:60-71 | an unnoticed orphan is in nobody's hands: no signal, and no worker on the key |
| Attention.ForgottenIsLost | internal/controller/hpcjob_controller.go:60-71 | the same for a forgotten job |
| Attention.OrphanStaysLost | internal/controller/hpcjob_controller.go:66-67 | a lost orphan stays lost exactly until a job of its name is created again or the pod is removed by others |
| Attention.ResyncNeedsJob | cmd/manager/main.go:161-180 | a resync can replay an unsignalled key exactly when its job is stored, so never a lost orphan's |
| Attention.JobStaysLost | internal/controller/hpcjob_controller.go:66-67 | a lost job stays lost exactly until somebody writes it or a resync replays it, which is always possible |
| Attention.LossIsMissedExactly | internal/controller/hpcjob_controller.go:138-151 | a step leaves the loss of a Running job's pod unnoticed exactly when it is one of three: the pod goes unobserved, the fetch breaks after it, or a served update says Running after it |
| Attention.LossesAreNoticed | internal/controller/hpcjob_controller.go:138-151 | through any part of a run the loss is noticed exactly when no step is one of the three |
| Attention.MissedLossStrands | internal/controller/hpcjob_controller.go:60-71 | a loss that is not noticed is in nobody's hands: no signal, and no worker on the key |
| Attention.StrandedStays | internal/controller/hpcjob_controller.go:138-151 | such a job stays Running without a pod exactly until somebody writes it or a resync replays it, which is always possible |
| Progress.NoticedExactlyIfCleanable | internal/controller/hpcjob_controller.go:194-209 | an orphan is noticed exactly when queue, events and worker can by themselves get to a state without its pod |
| Progress.RememberedExactlyIfReachable | internal/controller/hpcjob_controller.go:55-85 | a waiting job is remembered exactly when they can get to one in which it waits no longer or is about to be read as it is stored |
| Attention.DeletionDuringCreationIsNoticed | internal/controller/hpcjob_controller.go:126-135 | a job deleted between fetch and creation leaves an orphan, with its deletion event still to come |
| LostKeys.TwoReconcilesPlace | internal/controller/hpcjob_controller.go:100-136 | a run from an empty cluster to the first job's pod, if the job fits on some healthy node |
| LostKeys.RunLosesOrphan | internal/controller/hpcjob_controller.go:61-67 | on every such cluster a run with one failing call ends with a lost orphan |
| LostKeys.RunLosesJob | internal/controller/hpcjob_controller.go:61-67 | on every new cluster a run with one failing call ends with a lost job |
| LostKeys.RunsAndRests | internal/controller/hpcjob_controller.go:229-240 | a run in which the pod of a placed job starts, the job becomes Running and its key comes to rest |
| LostKeys.RunStrandsJob | internal/controller/hpcjob_controller.go:138-151 | on every such cluster a run without failures ends with a Running job whose pod is gone, unnoticed |
| LostKeys.KeysAreLostInRuns | internal/controller/hpcjob_controller.go:61-151 | such clusters exist, so each of the losses happens in some run for every valid job |
| LostKeys.FailedJobSettles | internal/controller/hpcjob_controller.go:153-170 | in a run that takes a Failed job with an up-to-date cache, three served calls end without error, the job alive and its pod gone |
| LostKeys.FailedJobsSettleInRuns | internal/controller/hpcjob_controller.go:153-170 | such runs exist for every valid job: its pod fails, it becomes Failed, and the pod is deleted |
| PodCreation.PodsOkAlways | internal/controller/hpcjob_controller.go:100-126 | in every reachable state pod keys are distinct, and from the node listing to the creation the job has no pod |
| PodCreation.CreationNeverCollides | internal/controller/hpcjob_controller.go:126-135 | in every run a creation fails the reconcile exactly when the call is broken, and adds the pod exactly when it is served |
| PodCreation.OutsideCreatorBreaksCreation | internal/controller/hpcjob_controller.go:126-133 | were somebody else to create a pod in between, the creation would fail exactly when it has the job's key |
| PodCreation.ReadFindsThePod | pkg/kube/client.go:156-159 | with distinct keys a read returns a pod exactly when it is the stored one of that key, and NotFound exactly when there is none |
| PodCreation.ListFindsThePod | pkg/kube/client.go:273-281 | with distinct keys the list by name is the pod of that key or empty |
| PodSpecs.CreatedPodFitsStoredJob | internal/controller/hpcjob_controller.go:126-133 | a created pod is one for the stored job exactly when that still has the fetched spec; otherwise the key is signalled |
| PodSpecs.ExistingPodStays | internal/controller/hpcjob_controller.go:211-260 | the reconcile of a waiting or Running job leaves an existing pod in place, whatever its spec |
| PodSpecs.PodsAskedForAlways | internal/controller/hpcjob_controller.go:307-361 | in every reachable state the containers of every pod are those a written version of a job of its name asks for |
| PhaseProtocol.StoredTerminalPhaseAbsorbs | internal/controller/hpcjob_controller.go:73-84 | in any run a stored Failed or Complete stays for that object |
| PhaseProtocol.CachedIsPast | internal/controller/hpcjob_controller.go:94-98 | in every reachable state the cache shows, for all keys at once, the store of one earlier moment |
| PhaseProtocol.StepMovesPhaseAlongProtocol | internal/controller/hpcjob_controller.go:138-170 | every step moves a stored phase along the protocol, and only the status update moves it |
| PhaseProtocol.FailedPodGoneAlways | internal/controller/hpcjob_controller.go:153-164 | the status update of a Failed job is reached only with its pod gone |
| PhaseProtocol.FailedReconcileSettles | internal/controller/hpcjob_controller.go:153-170 | the error-free end of that reconcile leaves no pod, a Failed store and a Failed cache |
| PhaseProtocol.FailedPodNeverReturns | internal/controller/hpcjob_controller.go:153-170 | from then on no pod of the key exists while the job object lives |
| Quarantine.IsolationQuarantines | pkg/kube/client.go:161-204 | a served isolation taints the node, and the same pass will not restore it |
| Quarantine.StepKeepsQuarantine | pkg/kube/client.go:217-243 | only a scan that finds the node healthy ends that |
| Quarantine.QuarantineRepels | internal/controller/hpcjob_controller.go:319-325 | no pod of the controller can be bound to a quarantined node |
| Quarantine.BindingFollowsRecovery | internal/controller/gpu_node_discovery.go:56-60 | in any run a binding after an isolation has a scan in between that found the node healthy |
| Quarantine.PatchOthers | pkg/kube/client.go:188-194 | a patch by name leaves the node in the list, sets its taints and leaves the nodes of other names alone |
| Quarantine.DensitiesAlways | pkg/kube/client.go:173-238 | in every reachable state no density label or listed snapshot is negative |
| Quarantine.AffinityInRuns | internal/controller/hpcjob_controller.go:294-340 | so in every run the affinity of the pod decided on separates the listed nodes as stated for the decision |
| TaintWindow.SnapshotsWereListed | pkg/kube/client.go:91-117 | in every run the nodes still to be restored were stored nodes at the listing of the same pass |
| TaintWindow.TaintsComeFromListing | pkg/kube/client.go:217-242 | in every run a restoration keeps a node's other taints exactly when at the patch they are those of that listing, and sets them to those |
| DensityLabels.ReadingWasMade | pkg/kube/client.go:227-232 | in every run the allocation in the worker's hands was read for the node it restores next, earlier in the same sync |
| DensityLabels.LabelsAreExplained | pkg/kube/client.go:172-176 | in every run a density label is absent exactly until the first patch, then "0" if the last patch isolated the node, else the print of the allocation read before it |
| DensityLabels.LabelIsRightExactly | pkg/kube/client.go:234-239 | the label of a restored node is the present allocation exactly when that equals the one read |
| KubeClient.Clientset.StatusUpdate | internal/controller/hpcjob_controller.go:364-371 | the whole new store under optimistic concurrency |
| KubeClient.Clientset.CreatePod | pkg/kube/client.go:151-154 | appends the pod unless its key is taken or the call fails |
| KubeClient.Clientset.DeletePod | pkg/kube/client.go:269-271 | removes the pods of the key, or NotFound |
| KubeClient.Clientset.GetClusterGPUNodes | pkg/kube/client.go:91-117 | the valid GPU nodes in store order |
| KubeClient.Clientset.GetGpuNodeAllocations | pkg/kube/client.go:125-149 | the allocation of the node over all pods |
| KubeClient.Clientset.IsolateUnhealthyNodes | pkg/kube/client.go:161-204 | the loop patches node by node and goes on after failures |
| KubeClient.Clientset.KeepOtherTaints | pkg/kube/client.go:220-225 | the taint loop computes the filtered list |
| KubeClient.Clientset.RestoreHealthyNodes | pkg/kube/client.go:217-267 | the loop reads and patches node by node and goes on after failures |
| KubeClient.Clientset.RestoreCall | pkg/kube/client.go:217-267 | the next call of that loop is one restore step of the protocol: the read of the node, or its patch |
| KubeClient.Clientset.IsolateCall | pkg/kube/client.go:161-204 | the next call of the isolation loop is one isolate step |
| KubeClient.Clientset.AddResourceFinalizer | pkg/kube/client.go:283-299 | adds unless some entry contains the finalizer, and only then makes the call |
| KubeClient.Clientset.RemoveResourceFinalizer | pkg/kube/client.go:301-320 | the job's list is filtered in place and the store follows if the version is current |
| HPCJobController.UpdateJobStatus | internal/controller/hpcjob_controller.go:364-371 | changes the job in memory even on failure; call and result as in the protocol |
| HPCJobController.ScanPodStatus | internal/controller/hpcjob_controller.go:229-260 | is the protocol from the pod read to the end or to the missing pod |
| HPCJobController.ManageExistingPod | internal/controller/hpcjob_controller.go:211-222 | the same with the delay for a pod that has not started |
| HPCJobController.ListGPUNodes | internal/controller/gpu_node_discovery.go:25-64 | the two lists of the pass, or an error, in the protocol's calls |
| HPCJobController.DriveRestore | pkg/kube/client.go:217-267 | the restoration loop alone is the protocol's restore steps |
| HPCJobController.DriveIsolate | pkg/kube/client.go:161-204 | the isolation loop alone is the protocol's isolate steps |
| HPCJobController.SyncNodeHealthStatus | internal/controller/gpu_node_discovery.go:66-90 | the two goroutines, in any order the scheduler gives their calls, carry the protocol to the decision |
| HPCJobController.FetchNodesAndSyncStatus | internal/controller/hpcjob_controller.go:262-270 | returns the list made before the patches, after them |
| HPCJobController.CreateHpcPod | internal/controller/hpcjob_controller.go:307-362 | creates exactly the pod of the job with the affinity bound one below the minimum |
| HPCJobController.PlacePod | internal/controller/hpcjob_controller.go:120-135 | decision, creation and result as in the protocol |
| HPCJobController.HandlePending | internal/controller/hpcjob_controller.go:100-136 | is the protocol from the pod read to the end |
| HPCJobController.HandleRunning | internal/controller/hpcjob_controller.go:138-151 | is the protocol from the pod read to the end |
| HPCJobController.HandleFailed | internal/controller/hpcjob_controller.go:153-170 | is the protocol from the deletion to the end |
| HPCJobController.DeleteAll | internal/controller/hpcjob_controller.go:200-206 | deletes in list order and stops at the first error |
| HPCJobController.HandleDeletedByName | internal/controller/hpcjob_controller.go:194-209 | is the protocol's cleanup |
| HPCJobController.HandleDeleted | internal/controller/hpcjob_controller.go:172-192 | is the protocol's cleanup followed by the finalizer |
| HPCJobController.Reconcile | internal/controller/hpcjob_controller.go:55-85 | one reconcile is one undisturbed run of the protocol, for every script: same cluster, calls and result |
| UndisturbedReconcile.DriveIsWorkerAlone | internal/controller/hpcjob_controller.go:55-85 | an undisturbed reconcile is a run of the interleaved system in which only the worker moves |
| UndisturbedReconcile.NothingPendingIsDropped | internal/controller/hpcjob_controller.go:69-151 | after an up-to-date fetch, a reconcile that leaves an unset or Pending job or an orphan asks to come back, whatever fails |
| UndisturbedReconcile.CalmSync | internal/controller/gpu_node_discovery.go:66-90 | served calls reach the outcome of the pass in any order of the goroutines |
| UndisturbedReconcile.CalmReconcile | internal/controller/hpcjob_controller.go:100-136 | nodes are mapped by the pass and one pod is added exactly when the old labels showed room |
| UndisturbedReconcile.TwoPassCompleteness | internal/controller/hpcjob_controller.go:100-136 | on unlabelled nodes the first reconcile creates nothing and the second creates a pod exactly when one fits |
| UndisturbedReconcile.PreferenceAfterPlacement | internal/controller/hpcjob_controller.go:294-340 | the stored nodes that satisfy the new pod's preference are the restored ones whose allocation is above its bound, never an isolated one |
| UndisturbedReconcile.LeastCandidateStaysPreferred | internal/controller/hpcjob_controller.go:294-340 | the least candidate satisfies it exactly when it is loaded and not less than its old label says |
| UndisturbedReconcile.PreferenceAgreesOnSyncedNodes | internal/controller/hpcjob_controller.go:294-340 | on nodes the pass does not change, candidates satisfy it exactly when they run something, as the decision had it |
| ConcurrentSync.SyncLeavesAnOutcome | internal/controller/gpu_node_discovery.go:66-90 | any answers in any order take the sync to the outcome of fixed answers about each node, in which every refused call costs exactly one node |
| ConcurrentSync.AnyOrderIsSequential | internal/controller/gpu_node_discovery.go:66-90 | so the code leaves the store of restore-then-isolate under the same answers per node |
| ConcurrentSync.OutcomeOnNode | pkg/kube/client.go:196-199 | failures do not spread: a node misses its part of the pass exactly when a call about that node is refused |
| ConcurrentSync.AnyPassIsPartial | internal/controller/gpu_node_discovery.go:66-90 | whatever fails, exactly the missed nodes are untouched, every other is as an error-free pass leaves it, and there is one missed node for every refused call |
| ConcurrentSync.AnyReconcileIsPartial | internal/controller/hpcjob_controller.go:55-85 | any reconcile changes nodes only that way, by the vector it got |
| JobOutcomes.FailedIsStoredExactly | internal/controller/hpcjob_controller.go:100-151 | from the cluster before it: a reconcile stores Failed exactly when fetch and update are served and the pod read failed, the pod failed, or an invalid waiting job has no pod |
| JobOutcomes.RunningIsLeftExactly | internal/controller/hpcjob_controller.go:138-151 | a Running job is left Running without a requeue exactly when its pod is found neither failed, succeeded nor missing, and a running pod's update is served |
| JobOutcomes.RunningPodMarksJob | internal/controller/hpcjob_controller.go:240-246 | a running pod makes the job Running without a requeue, and writes nothing when it is already so |
| JobOutcomes.OneFailedPodReadFailsTheJob | internal/controller/hpcjob_controller.go:230-238 | one failed pod read stores Failed, whatever the spec and the pod |
| JobOutcomes.CleanupCompletes | internal/controller/hpcjob_controller.go:194-209 | a served cleanup of a key without a job leaves no pod of it and ends for good |
| JobOutcomes.FailedCleanupCompletes | internal/controller/hpcjob_controller.go:153-170 | a served reconcile of a Failed job leaves no pod of it, the job as it is, and ends for good |
| JobOutcomes.DeletionCompletes | internal/controller/hpcjob_controller.go:172-192 | a served reconcile of a completed job marked for deletion leaves no pod, and no job exactly when no other finalizer is left |
| ReconcileTable.FailedFetchEnds | internal/controller/hpcjob_controller.go:60-68 | a failed fetch ends at once, with no error, no delay and no change |
| ReconcileTable.CompletedJobIsLeftAlone | internal/controller/hpcjob_controller.go:73-84 | a job that is complete or in an unknown phase is left alone with pod and finalizers while it is not deleted |
| ReconcileTable.FailedReadEnds | internal/controller/hpcjob_controller.go:229-238 | a failed read of the pod stores Failed and ends in error, for every answer of the update |
| ReconcileTable.PodDecides | internal/controller/hpcjob_controller.go:240-259 | for every phase of the pod and every answer: the phase stored, the error and the delay |
| ReconcileTable.MissingPodSendsBack | internal/controller/hpcjob_controller.go:143-149 | a Running job without a pod is stored Pending and looked at in five minutes |
| ReconcileTable.InvalidSpecFails | internal/controller/hpcjob_controller.go:108-115 | a waiting job without a pod that asks for no GPU or names no image is stored Failed, without an error |
| ReconcileTable.NoPassEnds | internal/controller/hpcjob_controller.go:116-119 | without node list or vector nothing changes and the reconcile ends in error |
| ReconcileTable.PassDecides | internal/controller/hpcjob_controller.go:100-136 | with both: nodes patched but one for every refused call, and by room and answer one pod or none, the error and the delay |
| ReconcileTable.FailedJobTable | internal/controller/hpcjob_controller.go:153-170 | a Failed job, for every answer: its pod stays only if the deletion fails, and then the key comes back |
| ReconcileTable.VanishedJobTable | internal/controller/hpcjob_controller.go:194-209 | a key without a job, for every answer: its pod stays only with an error and a delay |
| ReconcileTable.DeletedJobTable | internal/controller/hpcjob_controller.go:172-192 | a deleted job of no handler's phase, for every answer: pod, finalizers and object, error and delay |
| ReconcileTable.WriteOverChangedJobFails | internal/controller/hpcjob_controller.go:364-371 | a write to a job that changed or went since the fetch changes nothing and ends like a failed call |
| ReconcileTable.DeletingWhatIsGone | internal/controller/hpcjob_controller.go:155-163 | a pod gone before its deletion: an error and a delay in a cleanup, as good as deleted for a Failed job |
| FakeScenario.RoundsToAtLeast | internal/provisioner/fake-scenario/scenario-manager.go:103-138 | where rounding for printing steps up |
| FakeScenario.CalmReadingIsInRange | internal/provisioner/fake-scenario/scenario-manager.go:86-138 | a draw without chaos reads in the detector's range, for every metric |
| FakeScenario.ChaosReadingIsOutOfRangeExactly | internal/provisioner/fake-scenario/scenario-manager.go:86-138 | for which positions a chaos draw reads out of range |
| FakeScenario.PrintedExactly | internal/provisioner/fake-scenario/scenario-manager.go:86-138 | for every metric, with and without chaos, exactly the values of its interval can be printed, both ends included |
| FakeScenario.GenerateMetrics | internal/provisioner/fake-scenario/scenario-manager.go:96-141 | one sample for each metric of the GPU, with its printed draw |
| FakeScenario.NodeMetrics | internal/provisioner/fake-scenario/scenario-manager.go:151-155 | the samples of a node are those of its GPUs and nothing else |
| FakeScenario.Tick | internal/provisioner/fake-scenario/scenario-manager.go:149-156 | the samples of a tick are those of the registered nodes, in any map order |
| FakeScenario.VerdictOfTick | internal/controller/gpu_node_discovery.go:36-60 | the detector's verdict by the readings alone, wherever the samples stand |
| FakeScenario.GeneratorAndDetectorAgree | internal/provisioner/fake-scenario/scenario-manager.go:86-156 | a node is healthy exactly when no chaos event that hit it shows |
| FakeScenario.CalmTickIsHealthy | internal/provisioner/fake-scenario/scenario-manager.go:86-156 | no chaos draw makes a node with a GPU healthy |
| FakeScenario.ChaosIsDetected | internal/provisioner/fake-scenario/scenario-manager.go:109-138 | chaos on memory copy, frame buffer, power or NVLink of one GPU makes its node unhealthy |

## Left out

- GpuAllocations.SumAllocations: does not model wrap-around of the int64 sum; sums above 2^63 - 1 appear as they are,
  and their label does not parse.
- Capacity.CalculateClusterCapacityForJob: does not model wrap-around of the int64 subtraction, which needs labels near
  the ends of the 64-bit range.
- FakeScenario.Tick: takes the registered GPU ids as given; `InitializeClusterMap` and its `Sscanf` are not part of the
  model.
- GpuNodeDiscovery.SyncNodeFrame: speaks of a node that does not change between listing and patch;
  RestorationKeepsTaintsExactly and TaintsComeFromListing cover the others.
- Quarantine.AffinityInRuns: speaks of the labels the decision read; PreferenceAfterPlacement covers those the scheduler
  reads after the pass.
- KubeClient.Clientset.RemoveResourceFinalizer: like the adding method, models the PUT as an update of the job object,
  not the REST path it is sent to.
- Restarts of the controller: queue and delays are in memory, so an orphan whose job vanished while the controller was
  down gets no event.
- Rate limits, back-off times and the order of the work queue: any queued key may be next, any delayed key may come
  back.
- Prometheus text, float32 rounding and NaN: readings are reals with decimal rounding.
- Graceful pod termination, init containers, evictions and nodes that leave the cluster.
- `GetFullGPUNodeHealthCheck`, `IsNvlinkCapable`, topology constraints and conditions: not used by the reconcile path.
- Client construction, configuration, logging, TLS, provisioning with Kind and Helm, the exporter's HTTP server,
  generated code and YAML.
