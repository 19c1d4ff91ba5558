/** What holds in every run of the system, with any interleaving of the controllers, users and the cloud, any
    number of failed calls, failed patches and crashes. */
module Theorems {
  import opened Types
  import opened Protocol
  import opened Leakage
  import opened Records
  import opened Fleets
  import opened Runs
  import CP = ControlPlaneProgram
  import Footprints
  import Kubeconfigs
  import NP = PoolProgram

  lemma AtMostOneMore<T>(s: set<T>, others: set<T>, x: T)
    requires s <= others + {x}
    ensures |s| <= |others| + 1
  {
    var rest := s - {x};
    assert rest <= others;
    assert s <= rest + {x};
    SubsetIsSmaller(rest, others);
    AddOne(rest, x);
    SubsetIsSmaller(s, rest + {x});
  }

  lemma {:induction false} SubsetIsSmaller<T>(s: set<T>, t: set<T>)
    requires s <= t
    ensures |s| <= |t|
    decreases s
  {
    if s != {} {
      var x :| x in s;
      SubsetIsSmaller(s - {x}, t - {x});
    }
  }

  // ---------------------------------------------------------------- deletion

  /** When DeleteCluster is issued, a pool object that is still there has no cluster-name label or was created
      after this reconcile counted its dependencies; and a node pool that is still there and whose id was ever
      persisted belongs to such a pool. Hence no pool is left that was labelled and created before the control
      plane's deletion timestamp (`guarded`), nor any node pool that such a pool ever persisted. */
  lemma TeardownOrder(start: World, steps: seq<Step>, w: World, removal: Removal)
    requires Reachable(start, steps, w)
    requires Enabled(w, ByPlane(Do(CP.Teardown(CP.DeleteCluster(removal)))))
    ensures forall k :: k in w.fleet.pools ==> !w.fleet.pools[k].labelled || k !in w.fleet.hist.counted
    ensures forall n :: n in w.fleet.hist.recorded && n in w.cloud.nodepools ==>
              var k := w.fleet.hist.recorded[n];
              k in w.fleet.pools && (!w.fleet.pools[k].labelled || k !in w.fleet.hist.counted)
    ensures forall k :: k in w.fleet.hist.guarded ==> k !in w.fleet.pools
    ensures forall n :: n in w.fleet.hist.recorded && w.fleet.hist.recorded[n] in w.fleet.hist.guarded ==>
              n !in w.cloud.nodepools
  {
    SystemHolds(start, steps, w);
  }

  /** When a pool object is gone, so is every node pool whose id it ever persisted. */
  lemma NoNodepoolOutlivesItsPool(start: World, steps: seq<Step>, w: World, n: Id)
    requires Reachable(start, steps, w)
    requires n in w.fleet.hist.recorded && w.fleet.hist.recorded[n] !in w.fleet.pools
    ensures n !in w.cloud.nodepools
  {
    SystemHolds(start, steps, w);
  }

  /** When this controller has removed the control plane's finalizer, or the object is gone in any other way,
      the recorded cluster id is empty or its cluster is gone. */
  lemma NoClusterOutlivesItsPlane(start: World, steps: seq<Step>, w: World)
    requires Reachable(start, steps, w) && !w.plane.alive
    ensures w.plane.obj.clusterId == NO_ID || w.plane.obj.clusterId !in w.cloud.clusters
  {
    SystemHolds(start, steps, w);
  }

  /** Every VPC, subnet, cluster and public IP is created while the control plane's finalizer is persisted. */
  lemma CreatesAreGuarded(start: World, steps: seq<Step>, w: World, s: CP.CPStep)
    requires Reachable(start, steps, w)
    requires Enabled(w, ByPlane(Do(s))) && CP.IsCreate(s)
    ensures w.plane.alive && w.plane.obj.finalizer
  {
    FrameHolds(start, steps, w);
  }

  /** Every node pool is created while its pool's finalizer is persisted. */
  lemma NodepoolCreatesAreGuarded(start: World, steps: seq<Step>, w: World, key: Key, made: Made<NodepoolStatus>)
    requires Reachable(start, steps, w)
    requires Enabled(w, ByPool(key, DoPool(NP.Nodepool(NP.CreateNodepool(made)))))
    ensures key in w.fleet.pools && w.fleet.pools[key].finalizer
  {
    PoolFrameHolds(start, steps, w, key);
  }

  /** A pool whose deletion went through the DeleteNodePool call has its condition persisted as False with
      reason Deleted before the finalizer goes. */
  lemma DeletionIsReported(start: World, steps: seq<Step>, w: World, key: Key)
    requires Reachable(start, steps, w)
    requires key in w.fleet.inFlight && w.fleet.inFlight[key].pc == NP.AtDeleteDone(true)
    ensures key in w.fleet.pools && w.fleet.pools[key].cond == Some(Condition(false, DeletedReason))
    ensures w.fleet.inFlight[key].mem.poolId !in w.cloud.nodepools
  {
    PoolFrameHolds(start, steps, w, key);
  }

  /** A pool deletion that ends without success leaves the finalizer in memory and persisted. */
  lemma FailedDeletionKeepsFinalizer(start: World, steps: seq<Step>, w: World, key: Key)
    requires Reachable(start, steps, w)
    requires key in w.fleet.inFlight && w.fleet.inFlight[key].mem.deleting
    requires w.fleet.inFlight[key].pc.Closing? && w.fleet.inFlight[key].pc.exit != Finished
    ensures w.fleet.inFlight[key].mem.finalizer
    ensures key in w.fleet.pools && w.fleet.pools[key].finalizer
  {
    PoolFrameHolds(start, steps, w, key);
  }

  // ---------------------------------------------------------------- leakage

  function LiveClusters(w: World): set<Id> {
    w.plane.hist.clusters * w.cloud.clusters.Keys
  }

  /** The live clusters created for a control plane are at most one more than those lost: at most one more than
      its reconciles that lost a write and the creates whose reply was lost. */
  lemma LiveClustersAreBounded(start: World, steps: seq<Step>, w: World)
    requires Reachable(start, steps, w)
    ensures |LiveClusters(w)| <= 1 + |w.plane.hist.lostClusters|
    ensures |w.plane.hist.lostClusters| <= w.plane.hist.lostWrites + w.plane.hist.lostReplies
  {
    SystemHolds(start, steps, w);
    AtMostOneMore(LiveClusters(w), w.plane.hist.lostClusters, Tracked(w.plane).clusterId);
  }

  /** VPCs: of all those ever created, because no code deletes one. */
  lemma VpcsAreBounded(start: World, steps: seq<Step>, w: World)
    requires Reachable(start, steps, w)
    ensures |w.plane.hist.vpcs| <= 1 + |w.plane.hist.lostVpcs|
    ensures |w.plane.hist.lostVpcs| <= w.plane.hist.lostWrites + w.plane.hist.lostReplies
  {
    SystemHolds(start, steps, w);
    AtMostOneMore(w.plane.hist.vpcs, w.plane.hist.lostVpcs, Tracked(w.plane).spec.vpcId);
  }

  /** The live node pools that were created for one pool. */
  function LiveNodepools(w: World, key: Key): set<Id> {
    set n | n in w.fleet.hist.nodepools && w.fleet.hist.nodepools[n] == key && n in w.cloud.nodepools
  }

  /** The node pools of one pool whose id was lost: one for each of its reconciles that created a node pool
      and ended without saving its id, or whose create lost its reply. */
  function LostNodepools(h: FleetHistory, key: Key): set<Id> {
    set n | n in h.lostNodepools && n in h.nodepools && h.nodepools[n] == key
  }

  lemma LiveNodepoolsAreBounded(start: World, steps: seq<Step>, w: World, key: Key)
    requires Reachable(start, steps, w)
    ensures |LiveNodepools(w, key)| <= 1 + |LostNodepools(w.fleet.hist, key)|
  {
    SystemHolds(start, steps, w);
    AtMostOneMore(LiveNodepools(w, key), LostNodepools(w.fleet.hist, key), TrackedNodepool(w.fleet, key));
  }

  // ---------------------------------------------------------------- network

  /** However many writes are lost, a VPC that the controller created never holds two subnets. */
  lemma OwnVpcHoldsOneSubnet(start: World, steps: seq<Step>, w: World, i: Id, j: Id)
    requires Reachable(start, steps, w)
    requires i in w.cloud.subnets && j in w.cloud.subnets && w.cloud.subnets[i].vpc == w.cloud.subnets[j].vpc
    requires w.cloud.subnets[i].vpc in w.plane.hist.vpcs
    ensures i == j
  {
    SystemHolds(start, steps, w);
  }

  /** A recorded subnet that the user did not choose lies in the recorded VPC. */
  lemma SubnetLiesInItsVpc(start: World, steps: seq<Step>, w: World)
    requires Reachable(start, steps, w)
    requires w.plane.obj.spec.subnetId != NO_ID && start.plane.obj.spec.subnetId == NO_ID
    ensures w.plane.obj.spec.subnetId in w.cloud.subnets
    ensures w.cloud.subnets[w.plane.obj.spec.subnetId].vpc == w.plane.obj.spec.vpcId
  {
    SystemHolds(start, steps, w);
  }

  /** The branch of reconcileSubnets that tests for a missing VpcReady condition is never taken:
      ReconcileNetwork has just marked that condition. */
  lemma SubnetBranchIsDead(start: World, steps: seq<Step>, w: World)
    requires Reachable(start, steps, w) && w.plane.inFlight.Some? && w.plane.inFlight.value.pc.AtSubnet?
    ensures VpcReady in w.plane.inFlight.value.mem.status.conds
  {
    FrameHolds(start, steps, w);
  }

  /** The persisted VPC and subnet ids are written once, and the persisted cluster id is replaced only by
      another one, after its cluster is gone. */
  lemma IdsAreWrittenOnce(start: World, steps: seq<Step>, w: World, s: Step)
    requires Reachable(start, steps, w) && Enabled(w, s)
    ensures var before, after := w.plane.obj, Apply(w, s).plane.obj;
            && (before.spec.vpcId != NO_ID ==> after.spec.vpcId == before.spec.vpcId)
            && (before.spec.subnetId != NO_ID ==> after.spec.subnetId == before.spec.subnetId)
            && (after.clusterId != before.clusterId ==> before.clusterId !in w.cloud.clusters)
  {
    match s
    case ByPlane(Do(cps)) =>
      FrameHolds(start, steps, w);
      PlaneEffectAges(w.plane, w.cloud, w.plane.inFlight.value, cps);
    case ByPlane(Close(_)) => FrameHolds(start, steps, w);
    case _ =>
  }

  // ---------------------------------------------------------------- public IPs

  /** No public IP is created while the cluster has a public endpoint. */
  lemma NoEipForPublicCluster(start: World, steps: seq<Step>, w: World, made: Made<()>)
    requires Reachable(start, steps, w) && Enabled(w, ByPlane(Do(CP.Access(CP.CreateEip(made)))))
    ensures w.plane.inFlight.value.mem.clusterId !in w.cloud.eipOf
  {
    SystemHolds(start, steps, w);
  }

  /** The public IPs created for one cluster. */
  function EipsOf(w: World, cluster: Id): set<Id> {
    set e | e in w.plane.hist.eips && w.plane.hist.eips[e] == cluster
  }

  /** Those of them that were wasted: their bind failed or was never tried, or the reply to the create was lost. */
  function WastedEips(h: PlaneHistory, cluster: Id): set<Id> {
    set e | e in h.wastedEips && e in h.eips && h.eips[e] == cluster
  }

  /** All but one of the public IPs created for a cluster were wasted. */
  lemma EipsAreBounded(start: World, steps: seq<Step>, w: World, cluster: Id)
    requires Reachable(start, steps, w)
    ensures |EipsOf(w, cluster)| <= 1 + |WastedEips(w.plane.hist, cluster)|
  {
    SystemHolds(start, steps, w);
    var kept := if cluster in w.cloud.eipOf then w.cloud.eipOf[cluster] else Tracked(w.plane).status.eip;
    AtMostOneMore(EipsOf(w, cluster), WastedEips(w.plane.hist, cluster), kept);
  }

  /** The public IP that the controller holds for a cluster with a public endpoint is the bound one exactly when
      the write that recorded the bound one was not lost; at rest this is the persisted one. What became of
      other public IPs of the cluster does not matter. */
  lemma BoundEipIsRecorded(start: World, steps: seq<Step>, w: World)
    requires Reachable(start, steps, w) && Tracked(w.plane).clusterId in w.cloud.eipOf
    ensures var m := Tracked(w.plane);
            m.status.eip == w.cloud.eipOf[m.clusterId] <==> w.cloud.eipOf[m.clusterId] !in w.plane.hist.lostEips
    ensures w.plane.inFlight.None? ==> Tracked(w.plane) == w.plane.obj
  {
    SystemHolds(start, steps, w);
  }

  // ---------------------------------------------------------------- ids, events, secret, copy

  /** A persisted control plane that is Ready has a cluster id. */
  lemma ReadyPlaneHasCluster(start: World, steps: seq<Step>, w: World)
    requires Reachable(start, steps, w) && w.plane.obj.status.ready
    ensures w.plane.obj.clusterId != NO_ID && w.plane.obj.clusterId in w.plane.hist.readyIds
  {
    SystemHolds(start, steps, w);
  }

  /** Every call about node pools uses a cluster id that is not empty and was once persisted with Ready. */
  lemma NodepoolCallsUseReadyCluster(start: World, steps: seq<Step>, w: World, key: Key, s: NP.PoolStep)
    requires Reachable(start, steps, w) && Enabled(w, ByPool(key, DoPool(s)))
    requires s.Nodepool? || (s.Teardown? && s.teardown.DeleteNodepool?)
    ensures w.fleet.inFlight[key].cluster != NO_ID && w.fleet.inFlight[key].cluster in w.plane.hist.readyIds
  {
    PoolFrameHolds(start, steps, w, key);
  }

  /** Creation events plus one if the Creating condition is True never exceed created clusters plus lost
      writes, with the condition as the controller holds it. With the persisted condition this can fail only
      between the observation of an available cluster and the next successful patch: while the reconcile saves
      that status, or after it failed to. */
  lemma CreationsAreAnnouncedOnce(start: World, steps: seq<Step>, w: World)
    requires Reachable(start, steps, w)
    ensures var h, held, saved := w.plane.hist, Footprints.IsCreating(Tracked(w.plane)), Footprints.IsCreating(w.plane.obj);
            && h.announcements + (if held then 1 else 0) <= h.clusterCreates + h.lostWrites
            && (!saved || held ==> h.announcements + (if saved then 1 else 0) <= h.clusterCreates + h.lostWrites)
            && (saved && !held ==> w.plane.inFlight.Some? && SavesAvailable(w.plane.inFlight.value.pc))
            && (h.lostWrites == 0 ==> h.announcements <= h.clusterCreates)
  {
    SystemHolds(start, steps, w);
  }

  /** A persisted Initialized means that the kubeconfig secret exists and is usable. */
  lemma InitializedMeansSecret(start: World, steps: seq<Step>, w: World)
    requires Reachable(start, steps, w) && w.plane.obj.status.initialized
    ensures w.plane.secret.Some? && Kubeconfigs.Usable(w.plane.secret.value, w.plane.obj.name)
  {
    SystemHolds(start, steps, w);
  }

  /** The managed cluster's endpoint is zero or one that the control plane persisted; what it copies never
      gets older, and its Ready never returns to false. */
  lemma CopyLagsBehind(start: World, steps: seq<Step>, w: World, s: Step)
    requires Reachable(start, steps, w) && Enabled(w, s)
    ensures var mi := w.mirror;
            && mi.copied <= |w.plane.hist.endpoints|
            && mi.obj.endpoint == (if mi.copied == 0 then ZERO_ENDPOINT else w.plane.hist.endpoints[mi.copied - 1])
    ensures w.mirror.copied <= Apply(w, s).mirror.copied
    ensures w.plane.hist.endpoints <= Apply(w, s).plane.hist.endpoints
    ensures w.mirror.obj.ready ==> Apply(w, s).mirror.obj.ready
  {
    SystemHolds(start, steps, w);
    MirrorKept(w, s);
    match s
    case ByPlane(move) => EndpointsGrow(w.plane, w.cloud, |Labelled(w.fleet)|, move);
    case _ =>
  }
}
