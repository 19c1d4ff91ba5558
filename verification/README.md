# Reconcile protocol of the CCE infrastructure provider

Three controllers bring CCE clusters up and down: one reconciles a `CCEManagedControlPlane`, one the
`CCEManagedMachinePool`s of its cluster, and one copies the control-plane endpoint to the
`CCEManagedCluster`. They share state only through persisted Kubernetes objects, each works on its own
copy in memory that reaches the API server by patches, and they drive a cloud that holds VPCs, subnets,
clusters, node pools and public IPs. Patches and calls fail, replies get lost, controllers crash, users
create and delete objects, and the cloud moves on its own. This project models that protocol and proves
what holds in every run of it.

`dafny verify dfyconfig.toml` checks everything.

## How it is built

* **Steps.** `ControlPlaneProgram` and `PoolProgram` describe one reconcile as a sequence of labelled
  steps; a label carries the answer of the API server or the cloud, so the next place in the code and the
  object in memory are functions of the frame and the label. `Protocol` puts the persisted objects, the
  reconciles in flight, the cloud and a recording history into one `World`, says which steps are possible
  (`Enabled`) and what they do (`Apply`), and defines runs (`Reachable`). Every API or cloud call is one
  step; crashes, failed patches, lost replies, user actions and moves of the cloud are steps too.
* **Invariants.** `Invariants`, `Leakage`, `Networks`, `PublicIps`, `Records`, `EndpointChoice`, `Fleets`,
  `FleetMoves` and `Dependencies` hold the inductive invariants, `ControlPlaneFrames`, `Convergence` and `Footprints`
  facts about single steps; `Runs` puts the invariants together.
* **Results.** `Theorems`, `Tallies`, `PoolTallies`, `Observations`, `OnePass`, `Passes`, `Endings` and `WaitLaws` state what follows for every run.
  `Scenario` has concrete runs: they show that the reconciles reach their ends, and give the inputs on
  which four stronger statements fail.
* **Code.** `Objects`, the two scopes, the services (`NetworkService`, `ClusterService`, `AccessService`,
  `TeardownService`, `NodepoolService`), `Waiting` and the three controller modules follow the source
  method by method, on classes whose fields the methods assign. They run against `Environment`, whose
  methods let everybody else move and then give any possible answer. Its history is a run of the state
  machine and a call is accepted only where the machine allows that step, so every result about runs holds
  for the code. `Synced` says that the machine's object is the one that the code holds; each service method
  is entered and left with it, up to the fields that a caller is about to assign, and the scopes require it
  for every patch and for the final Close. `calls` and `PoolCalls` log the steps of the code itself; the contracts of the
  services say what the whole log is, with the phases, counts and names written out.
* **Pure parts.** `StatusRules`, `Endpoints`, `Kubeconfigs`, `ProviderIds` and `WakeUps`.

## Assumptions

* Reads are fresh, and the reconciles of one object are serial.
* Cloud ids are not empty, not shared and never reused; so are the uids of pools.
* A cluster or node pool whose deletion was accepted stays in phase Deleting until it is gone. The waits
  for a deletion take any other phase for success.
* A show request with an empty id is a 404.
* Users do not edit the id labels, Ready, or the VPC and subnet ids after creation, and the cluster-name label
  of a pool stays as it was when the pool was created. There is one control
  plane; a new one under the same name after its deletion is another run.
* `PatchObject` writes the whole object in memory, all or nothing, except the deletion timestamp, which
  belongs to the API server. A deleted object disappears when its last finalizer goes.
* A failed call has no effect, except that a create may have worked and lost its reply.
* The cloud rejects a second default-range subnet in a VPC with VPC.0204, and others put subnets only into
  VPCs that this controller did not create. A cluster has a public endpoint exactly when a public IP is
  bound to it, and only this controller binds one.
* The kubeconfig secret is written by this controller only, and encoding is undone by decoding.
* Node uids hold no slash and are not shared; a node keeps its pool annotation.

A nil dereference (a cluster that vanishes during a wait, EndpointAccess not set, a new cluster that is
Available at once) ends the reconcile in `Panicked`; the deferred Close still runs.

## Where the code and an expectation part

* The bound on creation events does not hold with the persisted Creating condition: `setStatus` records the
  event before it patches. `Scenario.PersistedConditionLags` gives a run; `Theorems.CreationsAreAnnouncedOnce`
  says with which condition it does hold, and that the persisted one can break it only between the
  observation of an available cluster and the next successful patch.
* A public IP that was bound but whose id was lost with its write stays bound and is never recorded: later passes
  find the public endpoint and return. `Scenario.BoundEipIsForgotten` gives a run; `Theorems.BoundEipIsRecorded`
  says that this is the only way in which the recorded public IP can differ from the bound one.
* The order of the teardown covers exactly the pools that the dependency count sees: pool objects that carry
  the cluster-name label and exist when the deletion's reconcile counts. `Theorems.TeardownOrder` and
  `OnePass.TeardownAfterCount` prove it for all of those. `Scenario.UnlabelledPoolIsOverlooked` and
  `Scenario.LatePoolIsOverlooked` give runs for a pool without the label and for one created after the count.
* `reconcileSubnets` tests for a missing VpcReady condition, which `ReconcileNetwork` has just set; the
  branch is never taken (`Theorems.SubnetBranchIsDead`).

## Model

| member | source | states |
|---|---|---|
| Theorems.TeardownOrder | internal/controller/ccemanagedcontrolplane_controller.go:210-239 | in every run, when DeleteCluster is issued, a pool object that is left is unlabelled or was created after the count, and so is the pool of every node pool that is left and was ever recorded; no pool is left that was labelled and created before the deletion timestamp |
| Theorems.NoClusterOutlivesItsPlane | internal/controller/ccemanagedcontrolplane_controller.go:222-239 | once the control plane is gone, its recorded cluster id is empty or its cluster is gone |
| Theorems.CreatesAreGuarded | internal/controller/ccemanagedcontrolplane_controller.go:255-273 | every VPC, subnet, cluster and public IP is created while the finalizer is persisted |
| Theorems.NodepoolCreatesAreGuarded | internal/controller/ccemanagedmachinepool_controller.go:198-210 | every node pool is created while its pool's finalizer is persisted |
| Theorems.DeletionIsReported | pkg/cloud/services/cce/nodepool.go:59-93 | after a node pool deletion, False with reason Deleted is persisted and the node pool is gone before the finalizer goes |
| Theorems.FailedDeletionKeepsFinalizer | internal/controller/ccemanagedmachinepool_controller.go:187-192 | a pool deletion that ends without success keeps the finalizer, in memory and persisted |
| Theorems.LiveClustersAreBounded | pkg/cloud/services/cce/cluster.go:48-59 | live clusters of one control plane are at most one more than those whose id was lost, which are at most lost writes plus lost replies |
| Theorems.NoNodepoolOutlivesItsPool | internal/controller/ccemanagedmachinepool_controller.go:187-192 | once a pool object is gone, so is every node pool whose id it ever persisted |
| OnePass.TeardownAfterCount | internal/controller/ccemanagedcontrolplane_controller.go:210-239 | a reconcile that counted its dependencies and goes on to DeleteCluster finds every labelled pool of the count gone, with every node pool it ever recorded |
| Theorems.VpcsAreBounded | pkg/cloud/services/cce/vpc.go:22-38 | VPCs ever created are at most one more than those whose id was lost |
| Theorems.LiveNodepoolsAreBounded | pkg/cloud/services/cce/nodepool.go:101-115 | live node pools of one pool are at most one more than those whose id was lost |
| Tallies.LeaksAreCovered | pkg/cloud/services/cce/cluster.go:48-59 | live clusters are at most one plus the reconciles of the run that created a cluster and ended with no successful patch afterwards, and the lost replies to such creates; likewise VPCs ever created |
| Tallies.EipsAreCovered | pkg/cloud/services/cce/eip.go:25-83 | public IPs created for a cluster are at most one plus the binds for that cluster that failed, the crashes of its reconcile between create and bind, and the lost replies to creates for it |
| Tallies.AnnouncementsAreCovered | pkg/cloud/services/cce/cluster.go:264-270 | creation events never exceed the successful cluster creates of the run plus its reconciles that lost a write |
| Tallies.AnnouncementsAreCounted | pkg/cloud/services/cce/cluster.go:264-267 | creation events are exactly as many as the steps of the run at which a held True Creating condition ends |
| Tallies.RunIsCovered | pkg/cloud/scope/managedcontrolplane.go:70-87 | lost writes and successful creates are counted exactly, lost ids at most, by the steps of the run |
| PoolTallies.NodepoolLeaksAreCovered | pkg/cloud/services/cce/nodepool.go:101-115 | live node pools of one pool are at most one plus its reconciles of the run that created a node pool and ended with no successful patch afterwards, and the lost replies to such creates |
| Theorems.OwnVpcHoldsOneSubnet | pkg/cloud/services/cce/subnets.go:61-80 | with any number of lost writes, a VPC that the controller created never holds two subnets |
| Theorems.SubnetLiesInItsVpc | pkg/cloud/services/cce/subnets.go:24-41 | a recorded subnet that the user did not choose lies in the recorded VPC |
| Theorems.IdsAreWrittenOnce | pkg/cloud/services/cce/vpc.go:22-38 | persisted VPC and subnet ids never change; a persisted cluster id changes only when its cluster is gone |
| Theorems.NoEipForPublicCluster | pkg/cloud/services/cce/eip.go:25-31 | no public IP is created while the cluster has a public endpoint |
| Theorems.EipsAreBounded | pkg/cloud/services/cce/eip.go:52-83 | all public IPs created for a cluster but one were wasted on it |
| Theorems.BoundEipIsRecorded | pkg/cloud/services/cce/eip.go:57-61 | in every state the public IP that the controller holds, and at rest the persisted one, is the bound one exactly when the write that recorded the bound one was not lost |
| OnePass.ReadyPassChoosesEndpoint | pkg/cloud/services/cce/cluster.go:93-122 | a pass that ends without error and ready leaves the last External entry, else the last Internal one, else the endpoint it found when it opened; without a list, the one it found |
| OnePass.UnreadyPassTouchesNothing | pkg/cloud/services/cce/cluster.go:80-82 | a pass that ends not ready leaves endpoint, Initialized and the kubeconfig secret as they were when it opened, in memory and persisted |
| Theorems.ReadyPlaneHasCluster | pkg/cloud/services/cce/cluster.go:256-285 | a persisted Ready comes with a cluster id |
| Theorems.NodepoolCallsUseReadyCluster | internal/controller/ccemanagedmachinepool_controller.go:111-121 | every node pool call uses a cluster id that is not empty and was once persisted with Ready |
| Theorems.CreationsAreAnnouncedOnce | pkg/cloud/services/cce/cluster.go:248-284 | events plus a True Creating condition, as held, never exceed created clusters plus lost writes; the persisted condition can break this only between the observation of an available cluster and the next successful patch |
| Theorems.InitializedMeansSecret | pkg/cloud/services/cce/config.go:31-50 | a persisted Initialized means that a usable kubeconfig secret exists |
| Theorems.CopyLagsBehind | internal/controller/ccemanagedcluster_controller.go:103-127 | the copied endpoint is zero or one that was persisted, the copy never gets older, Ready never returns to false |
| Passes.CleanPassConverges | internal/controller/ccemanagedcontrolplane_controller.go:242-276 | a pass that gets only the hoped-for answers ends with every id, Ready, Initialized and the conditions recorded, and its Close persists them |
| Passes.CleanPassSettles | pkg/cloud/services/cce/cluster.go:40-129 | after a clean pass the control plane is settled, with its public endpoint if it should have one |
| Passes.SecondPassChangesNothing | pkg/cloud/services/cce/cluster.go:40-129 | a further pass against an unchanged cloud issues no create and changes neither object, pools nor cloud |
| Passes.PassAfterCleanPass | internal/controller/ccemanagedcontrolplane_controller.go:242-276 | both together, from a clean pass on |
| Convergence.CleanInvSteps | pkg/cloud/services/cce/network.go:12-34 | each hoped-for answer keeps a reconcile on its way to convergence |
| Convergence.SteadyStep | pkg/cloud/services/cce/eip.go:29-31 | each step of a second pass leaves the object as it is and creates nothing |
| Endings.ReconcileEnds | internal/controller/ccemanagedcontrolplane_controller.go:203-276 | whatever the answers are, a control-plane reconcile makes at most 200 steps and stops only at its end |
| Endings.PoolReconcileEnds | internal/controller/ccemanagedmachinepool_controller.go:179-215 | whatever the answers are, a pool reconcile makes at most 200 steps and stops only at its end |
| WaitLaws.GivesUpAfterForty | pkg/cloud/services/cce/cluster.go:150-159 | in every control-plane reconcile, a wait is given up only after exactly 40 polls that did not meet its condition |
| WaitLaws.AvailableInTime | pkg/cloud/services/cce/cluster.go:66-76 | a cluster that is shown Available at any of the first 40 polls ends the wait, and a clean pass stays clean |
| WaitLaws.PoolGivesUpAfterForty | pkg/cloud/services/cce/nodepool.go:291-300 | the same for every pool reconcile |
| WaitLaws.ActiveInTime | pkg/cloud/services/cce/nodepool.go:121-131 | a node pool that is shown in the empty phase at any of the first 40 polls ends the wait |
| Scenario.PersistedConditionLags | pkg/cloud/services/cce/cluster.go:264-284 | a run in which the event bound fails with the persisted condition |
| Scenario.BoundEipIsForgotten | pkg/cloud/services/cce/eip.go:29-61 | a run after which the cluster has a public IP that the control plane at rest does not record |
| Scenario.UnlabelledPoolIsOverlooked | internal/controller/ccemanagedcontrolplane_controller.go:285-296 | a run in which the cluster can be deleted under a pool without the label |
| Scenario.LatePoolIsOverlooked | internal/controller/ccemanagedcontrolplane_controller.go:210-222 | a run in which the cluster can be deleted under a labelled pool that was created after the count |
| Scenario.CleanPassExists | internal/controller/ccemanagedcontrolplane_controller.go:242-276 | a clean pass from empty ids to its end that creates VPC, subnet, cluster and public IP |
| Runs.SystemKept | internal/controller/ccemanagedcontrolplane_controller.go:76-128 | every step of the system keeps all invariants |
| Runs.SystemHolds | internal/controller/ccemanagedcontrolplane_controller.go:76-128 | every reachable state satisfies all invariants |
| Invariants.BaseKept | pkg/cloud/services/cce/cluster.go:302-368 | ids, finalizers and what a deletion has achieved stay consistent between memory, the persisted object and the cloud |
| Dependencies.DependenciesKept | internal/controller/ccemanagedcontrolplane_controller.go:278-299 | a deletion past the dependency count keeps having no labelled pool that existed at the count |
| FleetMoves.FleetKept | internal/controller/ccemanagedmachinepool_controller.go:70-152 | every step keeps the invariants of the pools, their reconciles and their node pools |
| PublicIps.LostEipsKept | pkg/cloud/services/cce/eip.go:57-61 | a public IP whose id was lost is never recorded again |
| PublicIps.EipKept | pkg/cloud/services/cce/eip.go:25-83 | every public IP created is bound, about to be bound, or accounted as wasted |
| Networks.NetworkKept | pkg/cloud/services/cce/subnets.go:44-85 | every step keeps one subnet per own VPC and the recorded subnet in the recorded VPC |
| Leakage.AccountedKept | pkg/cloud/services/cce/cluster.go:248-248 | every live cluster and every VPC is the recorded one or lost |
| Records.RecordsKept | pkg/cloud/services/cce/cluster.go:256-286 | events, Initialized, Ready and endpoints stay covered by what was done |
| EndpointChoice.EndpointKept | pkg/cloud/services/cce/cluster.go:80-126 | how endpoint and Initialized relate to the persisted ones at every place of a pass |
| ControlPlaneFrames.FrameInvSteps | pkg/cloud/services/cce/cluster.go:40-129 | ids are obtained in order, the deletion path is taken exactly by deleted objects |
| Theorems.SubnetBranchIsDead | pkg/cloud/services/cce/subnets.go:29-34 | in every run, whenever the subnet code is about to run, the condition VpcReady is there, so the branch for a missing one is never taken |
| PoolProgram.PoolFrameInvSteps | pkg/cloud/services/cce/nodepool.go:59-93 | the pool's finalizer leaves memory only when its deletion has finished |
| StatusRules.ReadyFollowsLastRecognised | pkg/cloud/services/cce/cluster.go:256-280 | after any observations, Ready says that the last recognised phase was Available or Upgrading |
| StatusRules.FailureFollowsLastDecisive | pkg/cloud/services/cce/cluster.go:260-265 | after any observations, FailureMessage is set exactly when the last of Available and Unavailable was Unavailable, and carries its reason and message |
| StatusRules.AvailableSettles | pkg/cloud/services/cce/cluster.go:264-272 | after any observations, a True Creating or Updating condition is False with its reason exactly when Available was observed, and no other condition has changed |
| StatusRules.PoolReadyFollowsLastRecognised | pkg/cloud/services/cce/nodepool.go:246-261 | the same for a pool's Ready and the empty phase |
| StatusRules.PoolFailureFollowsLastDecisive | pkg/cloud/services/cce/nodepool.go:249-260 | the same for a pool's FailureMessage and the phases empty, Error and SoldOut |
| Observations.StatusFollowsObservations | pkg/cloud/services/cce/cluster.go:256-286 | in every run Ready and FailureMessage, as persisted, are what the observations that were patched amount to, and as held, what all of them do; a reconcile that ends unsaved falls back to the former |
| Observations.ReadyIsLastSavedPhase | pkg/cloud/services/cce/cluster.go:256-280 | in every run the persisted Ready says that the last recognised phase observed and saved was Available or Upgrading, FailureMessage that the last of Available and Unavailable was Unavailable |
| Observations.PoolFollowsObservations | pkg/cloud/services/cce/nodepool.go:241-287 | the same fold for the pools of a run |
| Observations.PoolReadyIsLastSavedPhase | pkg/cloud/services/cce/nodepool.go:246-261 | the persisted Ready and FailureMessage of a pool of a run, by the last phases observed and saved |
| Endpoints.ToInt32 | pkg/cloud/services/cce/cluster.go:106-106 | the port is truncated to 32 bits in two's complement |
| Endpoints.ParseUrlMeaning | pkg/cloud/services/cce/service.go:131-141 | an address is understood exactly when it is well-formed with a port that fits 64 bits, and the port is cut to 32 bits |
| Endpoints.ScanMeaning | pkg/cloud/services/cce/cluster.go:98-109 | one loop ends with the last entry of its kind and fails exactly when one of them does not parse |
| Endpoints.ScanStops | pkg/cloud/services/cce/cluster.go:98-109 | a loop that fails leaves the last entry of its kind before the first one that does not parse, else what it started with |
| Endpoints.ChooseMeaning | pkg/cloud/services/cce/cluster.go:97-122 | both loops: last External, else last Internal, else unchanged |
| Endpoints.ChooseStops | pkg/cloud/services/cce/cluster.go:97-122 | what both loops leave when one of them fails |
| Endpoints.ChooseAgain | pkg/cloud/services/cce/cluster.go:97-122 | choosing again from the same list changes nothing |
| Endpoints.ScanLoop | pkg/cloud/services/cce/cluster.go:98-109 | the loop computes `Scan` |
| Kubeconfigs.BaseIsUsable | pkg/cloud/services/cce/config.go:99-133 | a new kubeconfig's current context leads to the cluster at the recorded endpoint, without a certificate check, and to the CAPI user with the given certificate and key |
| Kubeconfigs.RenewalsKeepUsable | pkg/cloud/services/cce/config.go:172-186 | any number of renewals finds the user, keeps the kubeconfig usable and changes only that user's certificate and key |
| Kubeconfigs.LoadedConfig.SetClientData | pkg/cloud/services/cce/config.go:177-179 | the two assignments are one renewal |
| ProviderIds.IndexIsOrderedSelection | pkg/cloud/services/cce/nodepool.go:270-280 | the list is the order-preserving selection of the pool's nodes |
| ProviderIds.IndexHasNoDuplicates | pkg/cloud/services/cce/nodepool.go:270-280 | it has no duplicates |
| ProviderIds.IndexesAreDisjoint | pkg/cloud/services/cce/nodepool.go:270-280 | lists of two pools share nothing, even from different node lists |
| ProviderIds.ProviderIdFixesUid | pkg/cloud/services/cce/nodepool.go:278-278 | a provider id determines zone and uid |
| ProviderIds.IndexLoop | pkg/cloud/services/cce/nodepool.go:269-280 | the loop computes `Index` |
| WakeUps.LookUpOwner | internal/controller/ccemanagedmachinepool_controller.go:259-276 | the loop stops at the first reference that decides |
| WakeUps.LookUpFinds | internal/controller/ccemanagedmachinepool_controller.go:259-276 | an owner is found exactly when one is there and no unparsable reference of the kind stands before it, and it is the first one |
| WakeUps.RequestsInOrder | internal/controller/ccemanagedmachinepool_controller.go:246-254 | the request list is exactly the order-preserving selection of the matching machine pools |
| WakeUps.MapAll | internal/controller/ccemanagedmachinepool_controller.go:246-254 | the loop computes that list |
| WakeUps.MapControlPlane | internal/controller/ccemanagedmachinepool_controller.go:217-256 | unless the list request fails, the requests are exactly for the pools that a labelled, matching MachinePool of the owning cluster of a control plane that is not being deleted references, in the order of the list |
| WakeUps.NoLostWakeUp | internal/controller/ccemanagedmachinepool_controller.go:217-301 | for a control plane that is not being deleted and its first owning cluster, every labelled, matching MachinePool of that cluster gets its pool into the request list |
| Waiting.WaitUntil | pkg/cloud/services/cce/service.go:114-129 | for every condition function and retry count: at most that many calls, stops at the first error or true, nil exactly when the last call was true; for the four conditions of the services, the show that was just made found it met, and on an error the last show failed or the polls had run out |
| Waiting.PollClusterActive | pkg/cloud/services/cce/cluster.go:150-159 | one show: true exactly when it finds the cluster Available, an error when it fails, a panic on a 404 |
| Waiting.PollClusterDeleted | pkg/cloud/services/cce/cluster.go:351-363 | one show: true exactly on a 404 or a phase other than Deleting, an error when it fails |
| Waiting.PollNodepoolActive | pkg/cloud/services/cce/nodepool.go:291-300 | one show: true exactly when it finds the empty phase, an error when it fails, a panic on a 404 |
| Waiting.PollNodepoolDeleted | pkg/cloud/services/cce/nodepool.go:320-332 | one show: true exactly on a 404 or a phase other than Deleting, an error when it fails |
| Waiting.DeletedMeansGone | pkg/cloud/services/cce/cluster.go:350-368 | a successful wait after an accepted deletion means that the cluster is gone |
| Waiting.DeletedNodepoolMeansGone | pkg/cloud/services/cce/nodepool.go:319-337 | the same for a node pool |
| ControlPlaneScope.ManagedControlPlaneScope.PatchObject | pkg/cloud/scope/managedcontrolplane.go:70-82 | success persists the object in memory |
| ControlPlaneScope.ManagedControlPlaneScope.SetInfraClusterID | pkg/cloud/scope/managedcontrolplane.go:96-103 | sets one label and nothing else |
| ControlPlaneScope.ManagedControlPlaneScope.Fail | pkg/cloud/services/cce/cluster.go:30-33 | an error marks its condition False with its reason |
| NetworkService.ReconcileVPC | pkg/cloud/services/cce/vpc.go:19-41 | an id that is there is left alone without a call; else the first time an announcement that is patched, then one create, whose id is recorded |
| NetworkService.CreateVPC | pkg/cloud/services/cce/vpc.go:43-68 | the id of the created VPC |
| NetworkService.CreateSubnet | pkg/cloud/services/cce/subnets.go:44-85 | a new subnet, or on a conflict the first listed one; a panic exactly on a conflict with an empty list |
| NetworkService.ReconcileSubnets | pkg/cloud/services/cce/subnets.go:21-42 | an id that is there is left alone without a call; else the created or adopted one |
| NetworkService.ReconcileNetwork | pkg/cloud/services/cce/network.go:12-34 | success: both ids and both conditions; failure: the failing part's condition False with its reason; ids kept |
| ClusterService.SetStatus | pkg/cloud/services/cce/cluster.go:256-286 | the status is the observation applied, exactly one event for an Available cluster while Creating is True and none otherwise; a recognised phase is patched, and success means persisted |
| ClusterService.CreateCluster | pkg/cloud/services/cce/cluster.go:178-254 | one create call; the id in its answer is recorded and Creating is marked |
| ClusterService.WaitForClusterActive | pkg/cloud/services/cce/cluster.go:149-176 | fewer than 40 shows of another phase, then one of Available, then one more show whose status is applied and saved; a wait that fails ends with a failed show or after exactly 40 shows of another phase |
| ClusterService.FindOrCreate | pkg/cloud/services/cce/cluster.go:48-63 | without a recorded id a create; else a show, and a create exactly after a 404; the status and the object are those of the answers |
| ClusterService.ChooseEndpoint | pkg/cloud/services/cce/cluster.go:97-122 | both loops, on the object in memory |
| ClusterService.ReconcileCluster | pkg/cloud/services/cce/cluster.go:40-129 | the whole call log and the object it leads to; success and ready: endpoint chosen, Initialized, usable secret; success and not ready: endpoint, Initialized and secret untouched, the rest persisted |
| ClusterService.CreatingIsWaitedFor | pkg/cloud/services/cce/cluster.go:66-82 | in a pass that succeeds, a cluster first seen Creating or Upgrading was then seen Available within 40 polls, and the pass goes on with the status shown and saved after that; after any other first status it goes on without a show |
| ClusterService.ReconcileControlPlane | pkg/cloud/services/cce/cluster.go:26-38 | the same, and the ready condition reports the outcome |
| AccessService.ReconcileEIP | pkg/cloud/services/cce/eip.go:19-84 | nothing for a public cluster; else one create, whose id is recorded, and, if it worked, one bind that decides; success with a create means that the recorded public IP is bound |
| AccessService.CreateCAPIKubeconfigSecret | pkg/cloud/services/cce/config.go:55-89 | the stored kubeconfig logs in to the cluster at the recorded endpoint as the CAPI user with the certificate and key that this pass was given |
| AccessService.UpdateCAPIKubeconfigSecret | pkg/cloud/services/cce/config.go:159-194 | the stored secret is the read one with, for the CAPI user, the certificate and key that this pass was given |
| AccessService.ReconcileKubeconfig | pkg/cloud/services/cce/config.go:23-53 | success: usable secret with the certificate of this pass, new or renewed as the read says, and Initialized; failure: neither secret nor memory changes |
| TeardownService.DeleteCluster | pkg/cloud/services/cce/cluster.go:302-324 | no id is a success without a call to the cloud; a 404 of the show is a success without a delete call; else the delete |
| TeardownService.DeleteClusterAndWait | pkg/cloud/services/cce/cluster.go:326-348 | a 404 of the delete is a success without a wait; an accepted deletion is waited for, up to 40 polls, and succeeds exactly when a show finds the cluster gone or not being deleted |
| TeardownService.DeleteControlPlane | pkg/cloud/services/cce/cluster.go:289-299 | success means that the recorded cluster is gone |
| ControlPlaneController.DependencyCount | internal/controller/ccemanagedcontrolplane_controller.go:278-299 | the number of labelled pool objects at that moment |
| ControlPlaneController.ReconcileDelete | internal/controller/ccemanagedcontrolplane_controller.go:203-240 | the finalizer goes only when no labelled pool of the count and no recorded cluster is left; else the object is unchanged |
| ControlPlaneController.Prepare | internal/controller/ccemanagedcontrolplane_controller.go:255-265 | the finalizer is persisted before the service is used, and patched exactly when it was not there |
| ControlPlaneController.ReconcileNormal | internal/controller/ccemanagedcontrolplane_controller.go:242-276 | what a pass that ends without error has recorded |
| ControlPlaneController.Reconcile | internal/controller/ccemanagedcontrolplane_controller.go:76-128 | the body runs exactly for an object that was read and whose gate is open; an error exactly when the owner lookup, the body or the deferred Close failed; another reconcile exactly when the Get failed or the body asked for it; no error means that all the body left in memory is persisted |
| PoolScope.ManagedMachinePoolScope.PatchObject | pkg/cloud/scope/managednodepool.go:85-92 | success persists the object in memory |
| PoolScope.ManagedMachinePoolScope.SetInfraMachinePoolID | pkg/cloud/scope/managednodepool.go:114-121 | sets one label and nothing else |
| PoolScope.ManagedMachinePoolScope.NodepoolReadyFalse | pkg/cloud/scope/managednodepool.go:124-140 | marks the condition False with the reason and patches |
| NodepoolService.DeleteNodepoolAndWait | pkg/cloud/services/cce/nodepool.go:59-93 | nil means False with reason Deleted, persisted; the delete begins only when its announcement was patched and waits for up to 40 polls; every failure keeps the finalizer and leaves False with reason Deleted exactly when the delete itself worked, else with DeletingFailed, or with Deleting when the announcement was not patched |
| NodepoolService.ReconcilePoolDelete | pkg/cloud/services/cce/nodepool.go:36-57 | a 404 of the show is a success without a delete; nil means that the node pool is gone |
| NodepoolService.FindOrCreate | pkg/cloud/services/cce/nodepool.go:101-115 | without a recorded id a create, whose id is recorded; else a show, and a create exactly after a 404 |
| NodepoolService.SetStatus | pkg/cloud/services/cce/nodepool.go:241-287 | the status is the observation applied; the nodes are listed exactly when it is then ready and more than 0 nodes are reported; success means persisted |
| NodepoolService.RefreshMeaning | pkg/cloud/services/cce/nodepool.go:262-282 | a refresh sets the replicas to the reported number and the provider ids to the selection of the pool's nodes, and nothing else |
| NodepoolService.WaitForNodepoolActive | pkg/cloud/services/cce/nodepool.go:289-317 | fewer than 40 shows of another phase, then one of the empty phase, then one more show whose status is applied and saved; a wait that fails ends with a failed show or after exactly 40 shows of another phase |
| NodepoolService.ReconcileNodepool | pkg/cloud/services/cce/nodepool.go:95-133 | the whole call log and the pool it leads to; success means that a node pool id is recorded and the result persisted |
| NodepoolService.SynchronizingIsWaitedFor | pkg/cloud/services/cce/nodepool.go:117-131 | in a pass that succeeds, a node pool first seen Synchronizing or Synchronized was then seen in the empty phase within 40 polls, and the status shown and saved after that is in memory; after any other first status nothing is shown |
| NodepoolService.ReconcilePool | pkg/cloud/services/cce/nodepool.go:24-34 | the same, and the ready condition reports the outcome |
| PoolController.ReconcileDelete | internal/controller/ccemanagedmachinepool_controller.go:179-193 | the finalizer goes only when the node pool is gone |
| PoolController.ReconcileNormal | internal/controller/ccemanagedmachinepool_controller.go:195-215 | a pass that ends without error has recorded a node pool under the finalizer |
| PoolController.Reconcile | internal/controller/ccemanagedmachinepool_controller.go:70-152 | how far a pass gets is exactly what the two Gets and the gate between them say; without the body no call is made, the pool is as it was, and an error means a failed owner lookup; after the body an error exactly when it or the deferred Close failed, no error means persisted, and a failed deletion keeps the finalizer |
| ClusterController.Reconcile | internal/controller/ccemanagedcluster_controller.go:73-132 | with an owner, the only errors are a failed Get of the control plane and a failed patch; else Ready is set and the copied endpoint was the persisted one at some moment since the reconcile began |

## Left out

* Request bodies, credentials, regions, logging, manager setup, flags, watches, RBAC and manifests: plumbing. The SDK clients are the methods of `Environment`.
* Severity and message of conditions, the summary condition of pools, and events other than the creation of a cluster. CCEControlPlaneUpdating is settled by the model but nothing in the source sets it.
* The text of URLs: `ParseUrl` starts from what the URL parser makes of an address.
* Patch diffs: a patch writes the whole object, so nothing is said about two writers of one object.
* The owner and pause lookups before a scope is opened are inputs (`Gate`); so is whether the infrastructure is ready, which stands for both tests of reconcileNormal. Failing to build a scope or a secret without its key counts as a failed call.
* The map functions between control plane and managed cluster: they return one reference after a row of tests.
* Deletion of VPC, subnet and public IP: the source does not free them (`DeleteNetwork` is empty).
* Time: waits poll without a clock, and nothing is said about how often a reconcile is run again, so no result says that a deletion makes progress.
* `Replicas` and the provider ids come from separate reads; nothing relates them.
* A condition function of a wait is one of the four of the services or is given by the results of its calls; in the latter case its own effects are not modelled.
* Lost replies of subnet creates are possible in the model but are not counted, because the conflict answer makes the next pass adopt the subnet.
