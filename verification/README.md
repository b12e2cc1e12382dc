# A verified model of mcp-capi's write paths

mcp-capi is an MCP server through which agents operate Cluster API clusters. Its client acts on a management
cluster's API server, a store that other controllers, users and kubelets write to at the same time, in several
requests per operation. This project models that client and proves what its operations do and do not guarantee.

## How it is modelled

- **The store** (`store.dfy`) is a map of typed objects with uid, resourceVersion, labels, annotations and the spec and
  status fields the code looks at, a clock, and the history of everything the server applied. A request is one atomic
  step: Get, List, Update (only with the stored resourceVersion), Create, Delete (no precondition), Evict (by name).
- **Everybody else** is a script of turns. Before each request one turn is taken: any number of legal steps of others
  (write, recreate, remove, let time pass, cancel the call in progress), a fault (the request is dropped, or it takes
  effect and its reply is lost), the disruption budgets' answer, and which ready case a `select` picks. A lemma about
  every script is a lemma about every interleaving. A step is legal if it keeps an object's uid and never reuses one, never
  rebinds a pod, and binds only DaemonSet and mirror pods to a cordoned node.
- **A run** is any sequence of calls under one policy, each with a context of its own (`runs.dfy`).
- **The client** (`capi.dfy`) is a class whose methods send requests one by one; the drain, the upgrade, the scaling, the
  resource sets and the listing are methods over it, with the loops of the code. Every method is proved equal to a
  specification function of the store and its script, so that the theorems about those functions are about the methods.
- **The per-caller client cache** (`bearer.dfy`) is a class with the two critical sections, and a state machine of any
  number of threads with program counters over a shared cache and a clock.

| file | what it holds |
|---|---|
| `store.dfy`, `interleaving.dfy`, `footprint.dfy` | the store, what every interleaving keeps, and which events are this client's |
| `policy.dfy`, `changes.dfy`, `capi.dfy`, `gated.dfy` | the write policy, the changes to one object, and the gated read-check-write methods |
| `drainplan.dfy`, `drain.dfy`, `drainsafety.dfy`, `drainreport.dfy`, `drainoutcomes.dfy` | the drain protocol: plan, methods, safety and termination, report, and how it ends |
| `upgrade.dfy`, `upgradesafety.dfy`, `upgradetargets.dfy`, `scaling.dfy`, `resourceset.dfy`, `resourcesetoutcomes.dfy` | the operations on several objects, and what each writes by the objects' own fields |
| `deletions.dfy`, `outcomes.dfy` | what a delete removes, and when the calls succeed |
| `resourcesetoverwrites.dfy` | when creating a resource set changes what was there |
| `runs.dfy`, `runsafety.dfy`, `idempotence.dfy` | whole runs of calls, and repeated calls |
| `tools.dfy` | the tool filter and its classification |
| `bearer.dfy` | the client cache |
| `listing.dfy`, `listingsafety.dfy`, `listingfields.dfy` | the bulk status listing and what it shows |

## Where the code does not do what one may expect

Each of these is stated as a lemma with the inputs that show it, beside the condition under which the property holds.

- An eviction goes by name. It reaches the planned pod if and only if that pod still exists when the request arrives;
  otherwise the pod that took over the name is evicted (`EvictionHitsThePlannedPodIffItStillExists`,
  `EvictionHitsTheReplacement`).
- A delete carries no precondition. It removes the state it checked if and only if nobody else wrote the object between
  its Get and its Delete; a label or marker set in between does not help (`DeletesWhatItCheckedIffUntouched`,
  `DeleteRemovesAnUncheckedState`).
- An error does not mean that nothing was written, and a drain without a result may have cordoned the node: an applied
  write is reported if and only if its reply arrives (`WriteIsReportedIffAnswered`, `AppliedIsReportedIffAnswered`,
  `ResultIffCordonAnswered`, `ScaleTouchesOneField`, `LostReplyHidesAWrite`, `LostReplyHidesTheCordon`).
- `capi_create_cluster_resource_set` is annotated as only creating, but it overwrites existing ConfigMaps and Secrets,
  also when it ends with an error (`FailedCreationOverwrites`). `AdditiveIff` gives the exact condition on the request
  and the store under which it leaves everything that was there as it was.
- A cached client is handed out past its expiry by the shared clock if the entry expired between the captured time and
  the look-up, and only then (`HitIsLateIff`, `LateHit`). It keeps its policy when the factory's changes, so a returned
  client carries the present policy if and only if the factory had it when that client was built
  (`ReturnedClientKeepsItsPolicy`, `CachedClientKeepsItsPolicy`).
- The string key of the listing's groups is as good as the pair only because namespaces have no slash
  (`GroupIsOwnedIffNothingCollides`, `JoinedCollides`).

`readonly.go` documents unknown tool names as mutating, while the filter would offer a built tool of no class on a
read-only server (`UnclassifiedToolIsOffered`). No tool that is built today is without a class
(`EveryBuiltToolHasOneClass`); `ReadOnlyServerHidesTheRestIff` shows that the filter relies on it.

## Model

| member | source | states |
|---|---|---|
| Policy.ManagedByFirstMarker | pkg/capi/policy.go:99-151 | ManagedBy names the first marker of the precedence table that is set, under that marker's owner kind, and no owner exactly when none is set |
| Outcomes.PolicyAllowsIff | pkg/capi/policy.go:157-203 | what each check lets through, by the names of the markers and of the prevent-deletion label, and which refusal it gives |
| Outcomes.OwnerIsNamed | pkg/capi/policy.go:99-151 | an owner is reported under the name its own marker gives, in the namespace named beside it |
| Interleaving.SameVersionSameObject | pkg/capi/client.go:956-958 | optimistic concurrency: across any interleaving, equal resourceVersions under a key mean the same state |
| Interleaving.GoneForEver | pkg/capi/drain.go:156-180 | a uid that is gone never comes back, whatever others do |
| Interleaving.KeyInvariant | pkg/capi/policy.go:190-203 | a property of one key that every write to it keeps holds at the end of any recorded history |
| Changes.ApplyPatch | pkg/capi/client.go:926-954 | the merge in which an empty value deletes gives the same map for every iteration order |
| Changes.OverlayComposes | pkg/capi/client.go:926-954 | two patches in a row are the one patch in which the later wins |
| Changes.ConfigureSetsWhatIsAsked | pkg/capi/client.go:1245-1291 | an update sets exactly the asked fields; its patches set each of their keys, remove those with an empty value and keep every other |
| Changes.RelabelPatches | pkg/capi/client.go:926-954 | labels and annotations are each patched by their own patch: a key is set, or gone if its value is empty, and every other key stays |
| Changes.PauseIsMarked | pkg/capi/client.go:599-651 | pausing leaves the annotation with the value true, resuming removes it, and nothing else changes |
| Changes.RemediationIsMarked | pkg/capi/client.go:311-337 | a Machine to remediate carries the second of the call, and nothing else changes |
| Changes.RolloutIsMarked | pkg/capi/client.go:1313-1335 | a rollout is due at the second of the call and keeps its reason if one is given |
| Changes.FieldIsSet | pkg/capi/providers.go:114-131 | each of the other changes sets one field and keeps all others |
| Changes.DecimalIsWritten | pkg/capi/client.go:311-337 | the digits stored for a number are digits, and reading them gives the number |
| Changes.ResumeUndoesPauseIff | pkg/capi/client.go:599-651 | pause then resume restores the cluster if and only if it was not paused before |
| Changes.UncordonUndoesCordonIff | pkg/capi/client.go:1410-1423 | cordon then uncordon restores the node if and only if it was schedulable before |
| Changes.DecimalIsInjective | pkg/capi/client.go:311-337 | different remediation seconds give different annotation values |
| Capi.Client.PauseCluster | pkg/capi/client.go:599-624 | refines the get-check-write specification with the pause change |
| Capi.Client.ResumeCluster | pkg/capi/client.go:627-651 | refines the get-check-write specification with the resume change |
| Capi.Client.UpdateCluster | pkg/capi/client.go:912-961 | refines the get-check-write specification with the overlaid labels and annotations |
| Capi.Client.RemediateMachine | pkg/capi/client.go:311-337 | refines the get-check-write specification with the time stamp of the call |
| Capi.Client.UpdateMachineDeployment | pkg/capi/client.go:1236-1298 | refines the get-check-write specification with the asked fields |
| Capi.Client.RolloutMachineDeployment | pkg/capi/client.go:1313-1335 | refines the get-check-write specification with the rollout stamp, in the whole seconds it is stored in, and the reason |
| Capi.Client.DeleteCluster | pkg/capi/client.go:654-674 | refines get, CheckDelete, delete |
| Capi.Client.DeleteMachine | pkg/capi/client.go:265-302 | refines get, CheckDelete, the health and control-plane check unless forced, delete |
| Deletions.DeletionWasChecked | pkg/capi/client.go:265-302 | whoever else writes, at most the one named object is removed, after a state of it was read that passes CheckDelete; without force a Machine was read that has no control-plane label and no condition HealthCheckSucceeded True |
| Deletions.DeletionSucceedsIff | pkg/capi/client.go:265-302 | without faults and other writers a delete succeeds exactly if the object is there, passes CheckDelete and needs no force that was not given; an otherwise deletable Machine is called invalid exactly if it needs one |
| Capi.Client.CreateCluster | pkg/capi/client.go:752-828 | refines check, read the ClusterClass, create with class, version, replicas, workers, variables and network as asked |
| Capi.Client.CreateMachineDeployment | pkg/capi/client.go:1167-1218 | refines check, create with the asked fields and a template of the asked cluster |
| Capi.NewTemplate | pkg/capi/client.go:1183-1206 | a new MachineDeployment selects the machines of its own template, which carry its cluster's name |
| Capi.Client.ResolveNodeName | pkg/capi/client.go:1392-1407 | the given name, else the Machine's node reference, else an error |
| Capi.Client.SetNodeUnschedulable | pkg/capi/client.go:1410-1423 | refines the get-check-write specification on the Node |
| Capi.Client.CordonNode | pkg/capi/client.go:1426-1432 | refines resolving the name and then cordoning or uncordoning |
| Outcomes.NodeNameIsTheNode | pkg/capi/client.go:1392-1407 | whoever else writes, the name is the given one or that of the Machine as it is read, and it is found exactly if there is one |
| Outcomes.CordonWritesTheNode | pkg/capi/client.go:1426-1432 | a cordon writes at most that Node and sets only whether it is schedulable, as asked |
| Outcomes.CordonSucceedsIff | pkg/capi/client.go:1426-1432 | it succeeds exactly if the Node named is there and may be updated |
| Gated.RewriteMade | pkg/capi/client.go:912-961 | whoever writes in between, a get-check-write call applies at most one write, its change to a state the policy let it update; no write means an error |
| Gated.WriteIsReportedIffAnswered | pkg/capi/client.go:956-960 | an applied write reports success if and only if the reply to its update arrived |
| Gated.AppliedIsReportedIffAnswered | pkg/capi/client.go:912-960 | the same of a whole get-check-write call |
| Outcomes.RewriteSucceedsIff | pkg/capi/client.go:912-961 | without faults and other writers a get-check-write call succeeds exactly if the object is there and may be updated |
| Gated.LostReplyHidesAWrite | pkg/capi/client.go:956-960 | for every object that passes the check, a lost reply gives an error although the change is stored |
| Gated.MakeClusterMade | pkg/capi/client.go:752-828 | at most the one new Cluster, every field of it as asked, never over an existing object, and only after its ClusterClass was read in the same namespace |
| Outcomes.CreatingAClusterSucceedsIff | pkg/capi/client.go:752-828 | a Cluster is created exactly if the policy is not read-only, its class is in its namespace and its name is new |
| Gated.MakeDeploymentMade | pkg/capi/client.go:1167-1218 | at most the one new MachineDeployment, every field of it as asked, never over an existing object |
| Outcomes.CreatingADeploymentSucceedsIff | pkg/capi/client.go:1167-1218 | a MachineDeployment is created exactly if the policy is not read-only and its name is new |
| DrainPlanning.DrainPlan | pkg/capi/drain.go:86-119 | the loop computes the pods to evict, to leave and to refuse, each in list order |
| DrainPlanning.PlanSortsByTheirFields | pkg/capi/drain.go:86-119 | a listed pod of the node is refused, left or evicted exactly as its own annotations, phase, owners and volumes and the three options say |
| DrainPlanning.AnyEmptyDir | pkg/capi/drain.go:182-189 | whether some volume is an emptyDir |
| DrainPlanning.PlanPartitions | pkg/capi/drain.go:86-119 | as multisets the classes add up to the listed pods: none lost, none in two classes |
| DrainPlanning.PlanKeepsOrder | pkg/capi/drain.go:86-119 | a pod stands in its class behind exactly the pods of that class listed before it |
| DrainPlanning.OptionsOnlyWiden | pkg/capi/drain.go:86-119 | turning an option on never adds a refusal nor moves an accepted pod; all three on refuse nothing |
| DrainPlanning.PlanSparesExemptPods | pkg/capi/drain.go:86-119 | only pods of this node are evicted, never a mirror pod, a DaemonSet pod only when finished; pods left are mirror or DaemonSet pods |
| Drain.EvictPods | pkg/capi/drain.go:123-152 | the two nested loops refine the specification of evicting with retries, and terminate |
| Drain.WaitForPodsGone | pkg/capi/drain.go:156-180 | the two nested loops refine the specification of waiting, and terminate |
| Drain.DrainNode | pkg/capi/drain.go:45-82 | the whole drain refines its specification: node name, cordon, deadline, list, plan, evict, wait |
| DrainSafety.EvictLoopConserves | pkg/capi/drain.go:123-152 | for every schedule of answers and any number of rounds, evicted plus still pending equals the input as multisets; no error exactly when nothing is left |
| DrainSafety.AllEvicted | pkg/capi/drain.go:123-152 | success means that the evicted pods are a permutation of the input |
| DrainSafety.EvictLoopReports | pkg/capi/drain.go:123-152 | evicted names exactly the pods whose eviction was accepted or not found, in order; only the last eviction can have gone unanswered |
| DrainSafety.DrainTerminates | pkg/capi/drain.go:55-60 | both loops together make at most ceil(timeout / poll interval) + 2 rounds, whatever the selects pick |
| DrainSafety.DefaultDrainTerminates | pkg/capi/drain.go:55-60 | with the default timeout that is at most 26 rounds |
| DrainSafety.DrainDeadlineIsTheEarlier | pkg/capi/drain.go:55-60 | the drain's deadline is its own timeout, two minutes by default, or the caller's deadline if that is earlier |
| DrainSafety.WaitTakesFiveSeconds | pkg/capi/drain.go:145-149 | a wait between rounds takes the five seconds of the poll interval unless the context ends first |
| DrainSafety.WaitLoopGone | pkg/capi/drain.go:156-180 | no error means that no pod of the input exists any more under its uid, also those found gone rounds earlier |
| DrainSafety.DrainLeavesOnlyExemptPods | pkg/capi/drain.go:45-82 | a drain without error leaves the node cordoned, and every pod on it was skipped or was bound after the listing as a DaemonSet or mirror pod |
| DrainOutcomes.DrainRefusesIff | pkg/capi/drain.go:62-71 | a drain that cordoned and listed errs as invalid exactly if the listing holds a pod of the node that must be refused by its own fields, and then it sent no eviction |
| DrainOutcomes.DrainEvictsWhatMayGo | pkg/capi/drain.go:45-82 | a drain without error evicted exactly the stored pods of the node that may go by their own fields |
| DrainOutcomes.DrainIsOfTheNode | pkg/capi/drain.go:45-54 | whoever else writes, the drained node is the one the options name |
| DrainOutcomes.DrainCordonsIff | pkg/capi/drain.go:45-54 | without faults and other writers a drain gets past its cordon exactly if the Node named is there and may be updated |
| DrainOutcomes.DrainSucceeds | pkg/capi/drain.go:45-82 | a drain whose pods are all accepted and then found gone returns no error, with every planned pod reported |
| DrainOutcomes.NothingToEvictSucceeds | pkg/capi/drain.go:45-82 | a node whose pods may all stay is drained at once |
| DrainOutcomes.EvictingErrsForCause | pkg/capi/drain.go:123-152 | evicting fails only because an eviction got no answer, or because the time was up while a budget still refused each pod left |
| DrainOutcomes.WaitingErrsForCause | pkg/capi/drain.go:156-180 | waiting fails only because a look-up failed, or because the time was up while a pod was still there |
| DrainReporting.DrainReportIsExact | pkg/capi/drain.go:45-82 | on every path: a result exactly names the pods accepted or gone, none twice, and this call's writes are the cordon and those evictions; a refusal means no eviction was sent; without a result there was at most the one write to the Node |
| DrainReporting.ResultIffCordonAnswered | pkg/mcp/handlers/machine.go:806-823 | a call that wrote nothing has no result, and one that cordoned has a result if and only if the reply to its cordon arrived |
| DrainReporting.LostReplyHidesTheCordon | pkg/mcp/handlers/machine.go:806-823 | for every node it may cordon, a lost reply gives a cordoned node and a call without a result |
| DrainReporting.EvictionHitsThePlannedPodIffItStillExists | pkg/capi/drain.go:129-132 | an accepted eviction reaches the listed pod if and only if it still exists when the request arrives |
| DrainReporting.EvictionHitsTheReplacement | pkg/capi/drain.go:129-132 | a pod recreated under the listed name before the eviction arrives is evicted instead, on whatever node it runs |
| Upgrade.UpgradeCluster | pkg/capi/client.go:839-901 | refines the specification: check, control plane, list, loop over the MachineDeployments with a version |
| UpgradeSafety.UpgradeWritesAPrefix | pkg/capi/client.go:839-901 | whoever writes in between and however it ends, its writes set the target version and nothing else on a prefix of: the referenced control plane, then the versioned MachineDeployments in list order; success means all; a protected cluster or another kind of control plane gets no write and an error |
| UpgradeSafety.UpgradeLeavesAPrefixState | pkg/capi/client.go:839-901 | without other writers the store afterwards is the store before with the target version on that prefix |
| UpgradeSafety.UpgradeRerunReachesTheSameStore | pkg/capi/client.go:839-901 | rerunning a stopped upgrade to success reaches the store one successful upgrade reaches |
| UpgradeTargets.UpgradeWritesItsOwn | pkg/capi/client.go:839-901 | whoever else writes, an upgrade writes only the control plane its cluster refers to and MachineDeployments that, in the state it replaces, are in the cluster's namespace, carry its name and have a version; each gets the target version and no other change |
| UpgradeTargets.UpgradeReachesItsOwn | pkg/capi/client.go:839-901 | success means that it wrote that control plane and every MachineDeployment of that namespace, label and a version that was stored when it listed them |
| UpgradeTargets.UpgradeEndState | pkg/capi/client.go:839-901 | without other writers every other object stays exactly as it is, and success leaves the target version on all of these |
| UpgradeTargets.UpgradeSucceedsIff | pkg/capi/client.go:839-901 | without faults and other writers it succeeds exactly if the cluster, the control plane it refers to and, if asked, each of its workers are there and may be updated and the control plane is of the known kind |
| Scaling.ScaleCluster | pkg/capi/providers.go:141-167 | refines the specification: range check, topology or direct scaling |
| Scaling.ScaleClusterTopology | pkg/capi/providers.go:172-217 | refines the specification of scaling through the topology |
| Scaling.SetWorkerReplicas | pkg/capi/providers.go:197-209 | the search loop changes the first entry of the name, or reports that there is none |
| Scaling.ResolveTopologyName | pkg/capi/providers.go:225-235 | the generated object's label if it can be read and is set, else the argument |
| Scaling.ScaleMachineDeployment | pkg/capi/providers.go:238-255 | refines the get-check-write specification with the replica count |
| Scaling.ScaleControlPlaneObject | pkg/capi/providers.go:114-131 | refines the get-check-write specification with the replica count |
| Scaling.ScaleTouchesOneField | pkg/capi/providers.go:141-235 | at most one write, gated, of exactly one replica field, to a value in int32 range; a topology cluster is scaled only through the Cluster, in the first entry the argument stands for; nothing written means an error, and an applied write reports success if and only if its reply arrived |
| Outcomes.ScaleSucceedsIff | pkg/capi/providers.go:141-255 | without faults and other writers scaling succeeds exactly if the count is in int32 range and what holds it is there and may be updated: the Cluster with the named worker, or the control plane or MachineDeployment itself |
| ResourceSets.CreateClusterResourceSet | pkg/capi/resourceset.go:47-103 | refines the specification: validation, upserts in order, then the set |
| ResourceSets.CreateOrUpdateConfigMap | pkg/capi/resourceset.go:108-127 | refines create, and on AlreadyExists get and update with the new data |
| ResourceSets.CreateOrUpdateSecret | pkg/capi/resourceset.go:134-155 | refines create, and on AlreadyExists get and update with the forced type and overlaid data |
| ResourceSets.DeleteClusterResourceSet | pkg/capi/resourceset.go:183-192 | refines get and delete, without any policy |
| ResourceSetOutcomes.RemovalIsTheSet | pkg/capi/resourceset.go:183-192 | whoever else writes, deleting removes at most the set named |
| ResourceSetOutcomes.RemovalSucceedsIff | pkg/capi/resourceset.go:183-192 | without faults and other writers it succeeds exactly if the set is there, whatever the policy |
| ResourceSets.ResourceSetIsLast | pkg/capi/resourceset.go:47-103 | whoever else writes, the call upserts a prefix of the inline entries in order and creates the set, with references in request order, only after all of them; success means it did |
| ResourceSets.ResourceSetContents | pkg/capi/resourceset.go:64-103 | without other writers, success leaves under every key what the inline entries naming it make of it in order, and every other key as it was |
| ResourceSets.LastConfigMapWins | pkg/capi/resourceset.go:108-127 | a ConfigMap ends up with the data of the last entry naming it |
| ResourceSets.SecretTypeIsForced | pkg/capi/resourceset.go:134-155 | every Secret an entry names ends up with the resource-set type, every other is as before |
| ResourceSets.LastSecretKeyWins | pkg/capi/resourceset.go:134-155 | a key of a Secret holds the value of the last entry that writes it |
| ResourceSets.UnwrittenSecretKeyStays | pkg/capi/resourceset.go:134-155 | a key of a Secret that no entry writes keeps its older value |
| ResourceSetOutcomes.ConfigMapIsLeft | pkg/capi/resourceset.go:64-127 | after a successful call without other writers a ConfigMap holds the data of the last entry of the request that carries data for it |
| ResourceSetOutcomes.SecretIsLeft | pkg/capi/resourceset.go:64-155 | a Secret has the resource-set type and under each key the value of the last entry that carries one |
| ResourceSetOutcomes.OtherSecretKeysStay | pkg/capi/resourceset.go:134-155 | a key no entry carries a value for keeps its value |
| ResourceSetOutcomes.OthersAreLeft | pkg/capi/resourceset.go:64-103 | whatever no entry carries data for is as it was, apart from the set |
| ResourceSetOutcomes.MalformedSendsNothing | pkg/capi/resourceset.go:47-63 | a request without selector or entries, or with another strategy, is refused before anything is sent |
| ResourceSetOutcomes.CreationSucceedsIff | pkg/capi/resourceset.go:47-103 | without faults and other writers creation succeeds exactly if the request is well-formed, every entry is of a known kind and can be written, and the set is named and new |
| ResourceSetOverwrites.CreatingASetLeavesExistingIff | pkg/capi/resourceset.go:64-155 | however a call without other writers ends, it leaves every existing object unchanged if and only if each ConfigMap the written entries name already has their last data, and each Secret the forced type and the last value of every key |
| ResourceSetOverwrites.AdditiveIff | pkg/mcp/handlers/readonly.go:98-106 | the additive hint of the resource set tool: from every store and for every request, without faults, the call changes no existing object if and only if that condition holds of the entries before the first it rejects |
| ResourceSetOverwrites.FailedCreationOverwrites | pkg/capi/resourceset.go:64-103 | for every existing ConfigMap, a request naming it with other data before an entry of unknown kind returns an error and has overwritten it |
| Runs.RunIsLawful | pkg/capi/policy.go:166-203 | over every run of calls with contexts of their own, every policy and interleaving: each write of a policed kind passed the policy on the very state it replaced, each deletion passed CheckDelete on a state read with nothing of ours in between, nothing happens read-only, and only UpdateCluster drops the prevent-deletion label |
| Runs.EraseLawful | pkg/capi/client.go:654-674 | a delete that took effect had read, with only others acting since, a state that passes CheckDelete |
| RunSafety.GuardedUpdatesHitUnmanagedStates | pkg/capi/policy.go:190-203 | under the GitOps guard every applied update of a policed kind replaces a state without an ownership marker |
| RunSafety.ManagedIsNeverTouched | pkg/capi/policy.go:99-203 | under the guard a managed object of a policed kind is never changed or deleted by any run, as long as others who write it keep it managed |
| RunSafety.OnceManagedFrozen | pkg/capi/client.go:912-961 | without other writers, once some call of a run makes an object managed, no later call changes it |
| RunSafety.LabelledIsNeverDeleted | pkg/capi/policy.go:180-188 | under every policy a labelled Cluster or Machine stays, labelled, unless others remove the label or a call is an UpdateCluster that does |
| RunSafety.LabelledMachineIsNeverDeleted | pkg/capi/client.go:265-302 | no sequence of calls deletes a Machine with the prevent-deletion label |
| RunSafety.ReadOnlyRunsTouchNoPolicedKind | pkg/capi/policy.go:166-176 | a read-only client causes only ConfigMap, Secret and ClusterResourceSet writes; without other writers every other object is unchanged |
| RunSafety.DeletesWhatItCheckedIffUntouched | pkg/capi/client.go:265-302 | a delete removes the state it checked if and only if nobody else wrote the object between its two requests |
| RunSafety.DeleteRemovesAnUncheckedState | pkg/capi/client.go:654-674 | whatever state another writer gives the object after the check, also a managed or labelled one, is deleted |
| Idempotence.StampedChangeRepeatsIff | pkg/mcp/handlers/readonly.go:108-120 | repeating a remediation or a rollout changes nothing exactly within the same second |
| Idempotence.ChangeIdempotent | pkg/mcp/handlers/readonly.go:108-120 | repeating any other change of one object changes nothing more |
| Idempotence.UpdateCallsCompose | pkg/capi/client.go:926-954 | two updates in a row leave what one overlaid update leaves, unless the first makes the object managed and the second is refused |
| Idempotence.CallIsIdempotent | pkg/mcp/handlers/readonly.go:108-120 | from every store and under every policy a second identical call leaves the objects as the first did |
| Tools.BuildAllTools | pkg/mcp/handlers/registry.go:38-61 | the loop computes the filtered registrations, in order, with their annotations |
| Tools.FilteredHasOffered | pkg/mcp/handlers/registry.go:44-60 | exactly the tools the switch lets through are registered, each with the annotations of its class |
| Tools.EveryBuiltToolHasOneClass | pkg/mcp/handlers/readonly.go:16-96 | every built tool is in exactly one class, and the classes list no other |
| Tools.OfferedIffItsClassMay | pkg/mcp/handlers/registry.go:44-60 | the filter agrees with the client's own checks, class by class |
| Tools.UnclassifiedToolIsOffered | pkg/mcp/handlers/registry.go:47-58 | the switch lets a name in no class through for every policy, annotated as a destructive write |
| Tools.ReadOnlyServerHidesTheRestIff | pkg/mcp/handlers/registry.go:44-60 | a read-only server offers only read-only tools if and only if every built tool is classified and no credential tool is exposed |
| Tools.HintsTellTheClass | pkg/mcp/handlers/readonly.go:130-140 | each hint is true exactly of its classes: the read-only hint of the tools that do not write |
| Tools.ClassesFollowTheCalls | pkg/mcp/handlers/readonly.go:51-120 | a built tool is mutating exactly if it runs programs or may make a call that is not a read; idempotent and additive exactly if all writes it may make are repeatable, or creations |
| Tools.ExecutorsAreOfferedIff | pkg/mcp/handlers/readonly.go:53-96 | the kubectl and helm tools are offered, as destructive writes, exactly by a server that is not read-only |
| Tools.ReadOnlyServerChangesNothing | pkg/mcp/handlers/registry.go:38-61 | no sequence of calls to tools a read-only server offers causes any event at the API server; without other writers the store is unchanged |
| Tools.ReadsCauseNoEvent | pkg/mcp/handlers/readonly.go:16-49 | the bulk listing, the per-cluster status query and any other reads cause no event |
| Tools.IdempotentToolsAreIdempotent | pkg/mcp/handlers/readonly.go:108-120 | the idempotent hint is true of every tool that carries it |
| Tools.AdditiveToolsOnlyCreate | pkg/mcp/handlers/readonly.go:98-106 | the other two additive tools only create new objects |
| Bearer.ClientExpiryIsTheEarlierLimit | pkg/capi/bearer.go:163-173 | an entry expires at the readable exp claim or after ten minutes, whichever is earlier; an opaque token's after five |
| Bearer.BearerClientFactory.LookUp | pkg/capi/bearer.go:120-125 | the first critical section: a hit strictly before the entry's expiry |
| Bearer.BearerClientFactory.Sweep | pkg/capi/bearer.go:135-139 | the sweep keeps exactly the entries not expired at the captured time, in whatever order it runs |
| Bearer.BearerClientFactory.Insert | pkg/capi/bearer.go:132-143 | the second critical section: sweep when full, insert when there is room |
| Bearer.BearerClientFactory.ClientFor | pkg/capi/bearer.go:113-145 | one caller on its own: no token, a hit, a build failure, or a new client, with the cache that results |
| Bearer.InsertedIsInsertion | pkg/capi/bearer.go:132-143 | with a free place, or an expired entry to sweep, exactly the new client is stored under its token's digest; a full cache keeps no other entry expired at that time and loses no live one |
| Bearer.InsertStoresTheClient | pkg/capi/bearer.go:132-143 | the same of the insert step in every reached state, and the stored client is then hit until its expiry |
| Bearer.StepKeepsInv | pkg/capi/bearer.go:113-145 | every atomic step of every caller keeps the cache within maxEntries and every entry under its own token's digest |
| Bearer.EveryInterleavingKeepsInv | pkg/capi/bearer.go:113-145 | in every interleaving of any number of calls that invariant holds |
| Bearer.LiveEntriesStay | pkg/capi/bearer.go:134-140 | no step removes an entry that is live at the shared clock, although the sweep uses an earlier time |
| Bearer.EntriesExpireInTime | pkg/capi/bearer.go:132-173 | in every interleaving each entry was stored by the insert of a call for its own token and has been in the cache since; it is sized from the time that call captured at its own capture step: at most ten minutes after it, five for an opaque token, never past a readable exp claim |
| Bearer.CachedRefinesUncached | pkg/capi/bearer.go:113-145 | in every run what a call returns is what an uncached call returns under the policy the factory had at the build step of the returned client; without a SetWritePolicy that is the one policy |
| Bearer.ReturnedClientKeepsItsPolicy | pkg/capi/bearer.go:107-145 | in every run, whatever SetWritePolicy does, a returned client carries its own token and the policy the factory had at the step that built it; so it carries the present policy if and only if that step had it |
| Bearer.CachedClientWasBuilt | pkg/capi/bearer.go:107-110 | in every run each cached client carries the policy the factory had at the step that built it |
| Bearer.CachedClientKeepsItsPolicy | pkg/capi/bearer.go:107-110 | in every reached state a call about to hit returns the client built under the old policy although the factory's is another by then |
| Bearer.CallHasCapture | pkg/capi/bearer.go:117-118 | a call in progress carries the time the shared clock showed at its own capture step |
| Bearer.ReturnedClientHasStory | pkg/capi/bearer.go:113-145 | in every interleaving a returned client was built and inserted by the call that returns it, or the look-up found the very entry an earlier call for the same token stored, strictly before its expiry by the time captured at the finding call's own capture step |
| Bearer.HitIsLateIff | pkg/capi/bearer.go:118-124 | for every hit a run can reach: the found entry is live at the time captured at the call's own capture step, and expired by the shared clock if and only if the clock ticked away the rest of that entry's life since |
| Bearer.LateHit | pkg/capi/bearer.go:118-124 | in every reached state a caller about to hit that waits for the lock past the entry's expiry still gets the client |
| Bearer.WarmUpHits | pkg/capi/bearer.go:113-145 | such states are reached: in every factory with room, the second caller of an unexpired token is about to hit |
| Listing.IsConditionTrue | pkg/capi/utils.go:191-198 | true exactly if the first condition of the type has status True |
| Listing.GetClusterStatus | pkg/capi/utils.go:34-84 | refines the per-cluster status specification, request by request |
| Listing.GetClusterStatusFromList | pkg/capi/utils.go:89-130 | refines the status specification on fetched objects |
| ListingFields.StatusShowsTheStore | pkg/capi/utils.go:34-84 | whoever else writes, every field of a status is that field of the fetched cluster, the first Ready condition decides ready, the provider follows the kind, the counts are the numbers of stored machines of the cluster and of those with a node reference, and the version is the topology's or that of the control plane in the cluster's namespace; only the first request's failure is reported |
| Listing.GroupMachines | pkg/mcp/handlers/cluster.go:205-211 | the map holds under every key exactly the machines with that key, in list order |
| Listing.SearchCluster | pkg/mcp/handlers/cluster.go:175-197 | a term matches the name or some label value, in whatever order the values are tried |
| Listing.ListClusters | pkg/mcp/handlers/cluster.go:150-225 | the handler refines its specification: list, filter, list machines, group, summarize |
| ListingFields.ListShowsTheStore | pkg/mcp/handlers/cluster.go:150-225 | whoever else writes, the listing shows exactly the stored clusters that match the namespace, the selector and the search, each once with its own fields, and the numbers of machines stored for it at the second request |
| ListingFields.SnapshotShowsVersions | pkg/capi/utils.go:89-130 | on one snapshot each status shows its cluster's version as stored |
| ListingFields.ListKeepsOrder | pkg/mcp/handlers/cluster.go:213-222 | the statuses follow the order of the list request |
| Listing.SingleStatusOnlyReads | pkg/capi/utils.go:34-84 | the per-cluster status query causes no event, whoever else writes |
| Listing.ListStatusesOnlyReads | pkg/mcp/handlers/cluster.go:150-225 | nor does the bulk listing |
| ListingSafety.JoinedIsInjective | pkg/mcp/handlers/cluster.go:205-217 | for slash-free namespaces the joined key determines namespace and name |
| ListingSafety.JoinedCollides | pkg/mcp/handlers/cluster.go:205-217 | otherwise different clusters share a key |
| ListingSafety.GroupIsOwnedIffNothingCollides | pkg/mcp/handlers/cluster.go:205-217 | the group under a cluster's key is exactly its machines if and only if no other machine's key collides, and so is the total |
| ListingSafety.GroupsPartition | pkg/mcp/handlers/cluster.go:205-211 | as multisets, the groups of distinct owners and the machines of none of them are exactly the machines listed |
| ListingSafety.GroupKeepsOrder | pkg/mcp/handlers/cluster.go:205-211 | a machine stands in its group behind exactly the machines of that group listed before it |
| ListingSafety.BulkAgreesWithQueries | pkg/mcp/handlers/cluster.go:171-224 | on one snapshot the bulk listing gives every listed cluster exactly the status the per-cluster query gives |
| ListingSafety.TotalsAddUp | pkg/mcp/handlers/cluster.go:199-222 | in every interleaving the clusters' totals plus the machines of no listed cluster equal the machines listed |

## Left out

- Finalizers and deletion timestamps: a Delete removes the object at once, and an accepted eviction only starts a deletion that others complete.
- An Update that changes nothing still gets a new resourceVersion, and the server's own defaulting and admission appear only as failed requests.
- UpgradeSafety.UpgradeRerunReachesTheSameStore: the stores are compared without resourceVersions, because a rerun writes the version again.
- Outcomes.RewriteSucceedsIff: this and the other conditions for success are stated without faults and other writers, because with them a call may also fail for what others do; what then still holds is stated by the lemmas over every script.
- Idempotence.CallIsIdempotent: stated for calls without faults and other writers, because a call that failed the first time may succeed the second; the stores are compared without resourceVersions.
- ListingFields.ListShowsTheStore: assumes that namespaces have no slash, as Kubernetes requires; a version read from a control plane is stated on one snapshot (`ListingFields.SnapshotShowsVersions`).
- ListingSafety.BulkAgreesWithQueries: stated on one snapshot, because the two paths send different requests, which others may write between.
- Tools.ReadOnlyServerChangesNothing: which client calls a handler makes is written down in the model; only the listing and status queries are modelled request by request, other read tools as any number of reads.
- DrainSafety.DrainLeavesOnlyExemptPods: assumes that nobody else uncordons or removes the node after the cordon.
- JSON encoding of ClusterClass variables (kept as text, so its failure is not modelled) and the grace period of evictions, which is passed through.
- ResourceSets.CreateOrUpdateSecret: an API server refuses to change an existing Secret's type, so there the update of a Secret of another type always fails; the model lets it pass and covers the refusal only as a failed request.
- GetClusterHealth, FindClustersByLabelValue, GetMachinePhase and UserMetadata: reads that would only add easy members.
- ExecKubectl, ExecHelm and the kubeconfig file: subprocesses on workload clusters; in runs they only read the management store.
- MoveCluster and BackupCluster: they only format text; in runs they are reads.
- The readiness check of the capi_delete_cluster handler: it only adds a read and a refusal in front of DeleteCluster.
- SHA-256, base64 and JSON: the digest is injective and the exp claim a partial function of the token; client construction either succeeds or fails.
- Labels are matched exactly and lower-casing is a parameter; lists return objects in the order in which their keys were first stored.
- Error texts, JSON results, tool descriptions, flags, transports, OAuth and logging.
