/** The whole system as a state machine: the persisted objects, the reconciles in flight, the cloud, and a
    history that only records. Each step is one API or cloud call of one controller, or a move of a user or
    of the cloud; any controller may crash at any point. */
module Protocol {
  import opened Types
  import opened StatusRules
  import opened Kubeconfigs
  import CP = ControlPlaneProgram
  import NP = PoolProgram

  // ---------------------------------------------------------------- the cloud

  datatype Nodepool = Nodepool(cluster: Id, status: NodepoolStatus)

  /** `overlaps` says whether the subnet's range overlaps the default range of the controller's subnets. */
  datatype SubnetInfo = SubnetInfo(vpc: Id, overlaps: bool)

  /** `used` holds every id ever given out. A node pool lives inside a cluster and goes with it. `eipOf` maps a
      cluster to the public IP bound to it: it has a public endpoint exactly when it is in the map. */
  datatype Cloud = Cloud(
    used: set<Id>,
    clusters: map<Id, ClusterInfo>,
    nodepools: map<Id, Nodepool>,
    subnets: map<Id, SubnetInfo>,
    eipOf: map<Id, Id>)

  predicate Fresh(c: Cloud, id: Id) {
    id != NO_ID && id !in c.used
  }

  predicate FreshIfMade<T>(c: Cloud, made: Made<T>) {
    match made
    case Done(id, _) => Fresh(c, id)
    case LostReply(id, _) => Fresh(c, id)
    case MakeFailed => true
  }

  /** The ids after a create request. */
  function UsedAfter<T>(c: Cloud, made: Made<T>): set<Id> {
    match made
    case Done(id, _) => c.used + {id}
    case LostReply(id, _) => c.used + {id}
    case MakeFailed => c.used
  }

  /** The cloud rejects another default-range subnet in the VPC. */
  predicate Conflict(c: Cloud, vpc: Id) {
    exists id :: id in c.subnets && c.subnets[id].vpc == vpc && c.subnets[id].overlaps
  }

  /** ListSubnets answers with the subnets of the VPC, in any order. */
  predicate ListsSubnets(c: Cloud, vpc: Id, ids: seq<Id>) {
    && (forall id :: id in ids ==> id in c.subnets && c.subnets[id].vpc == vpc)
    && (forall id :: id in c.subnets && c.subnets[id].vpc == vpc ==> id in ids)
  }

  // ---------------------------------------------------------------- the control plane

  /** What has happened to the control plane so far. A reconcile loses a write when it ends with changes
      that no successful patch carried. */
  datatype PlaneHistory = PlaneHistory(
    lostWrites: nat,            // reconciles that lost a write
    lostReplies: nat,           // creates that worked but reported an error
    vpcs: set<Id>,              // VPCs created
    lostVpcs: set<Id>,          // those whose id was lost with a write or a reply
    clusters: set<Id>,          // clusters created
    lostClusters: set<Id>,      // those whose id was lost with a write or a reply
    clusterCreates: nat,        // CreateCluster calls that succeeded
    announcements: nat,         // SuccessfulCreateCCEControlPlane events
    eips: map<Id, Id>,          // public IPs created, and the cluster each was created for
    wastedEips: set<Id>,        // those whose bind failed or was never tried
    lostEips: set<Id>,          // public IPs whose id was lost with a write
    readyIds: set<Id>,          // cluster ids ever persisted together with Ready
    endpoints: seq<APIEndpoint>)// control-plane endpoints persisted, oldest first

  /** `obj` keeps its last persisted value after the object is gone. */
  datatype Plane = Plane(
    alive: bool,
    obj: ControlPlane,
    inFlight: Option<CP.CPFrame>,
    secret: Option<Kubeconfig>,
    hist: PlaneHistory)

  /** Leave ends a reconcile that has done nothing but read the object. */
  datatype PlaneMove = Open | Leave | Do(cps: CP.CPStep) | Close(saved: bool) | Crash

  // ------------------------------------------------ which answers are possible

  predicate NetworkAllowed(c: Cloud, m: ControlPlane, s: CP.NetworkStep) {
    match s
    case CreateVpc(vpc) => FreshIfMade(c, vpc)
    case CreateSubnet(subnet) => (match subnet
      case SubnetMade(id) => Fresh(c, id) && !Conflict(c, m.spec.vpcId)
      case SubnetLost(id) => Fresh(c, id) && !Conflict(c, m.spec.vpcId)
      case SubnetConflict => Conflict(c, m.spec.vpcId)
      case SubnetFailed => true)
    case ListSubnets(ids) => ids.Some? ==> ListsSubnets(c, m.spec.vpcId, ids.value)
    case _ => true
  }

  predicate ClusterAllowed(c: Cloud, m: ControlPlane, s: CP.ClusterStep) {
    match s
    case ShowCluster(answer) => (match answer
      case Found(info) => m.clusterId in c.clusters && c.clusters[m.clusterId] == info
      case Missing => m.clusterId !in c.clusters
      case ShowFailed => true)
    case CreateCluster(cluster) => FreshIfMade(c, cluster)
    case _ => true
  }

  predicate AccessAllowed(p: Plane, c: Cloud, m: ControlPlane, s: CP.AccessStep) {
    match s
    case ShowEndpoints(public) => public.Some? ==> (public.value <==> m.clusterId in c.eipOf)
    case CreateEip(eip) => FreshIfMade(c, eip)
    case GetSecret(read) => read.Some? ==> read.value == p.secret
    case _ => true
  }

  predicate TeardownAllowed(c: Cloud, labelled: nat, m: ControlPlane, s: CP.TeardownStep) {
    match s
    case ListPools(count) => count.Some? ==> count.value == labelled
    case DeleteCluster(removal) => (match removal
      case Accepted => m.clusterId in c.clusters
      case NotFound => m.clusterId !in c.clusters
      case RemovalFailed => true)
    case _ => true
  }

  /** `labelled` is the number of pool objects that carry the cluster-name label. */
  predicate CPAllowed(p: Plane, c: Cloud, labelled: nat, m: ControlPlane, s: CP.CPStep) {
    match s
    case Common(s') => s'.Patch? && s'.saved ==> p.alive
    case Network(s') => NetworkAllowed(c, m, s')
    case Cluster(s') => ClusterAllowed(c, m, s')
    case Access(s') => AccessAllowed(p, c, m, s')
    case Teardown(s') => TeardownAllowed(c, labelled, m, s')
  }

  predicate PlaneEnabled(p: Plane, c: Cloud, labelled: nat, move: PlaneMove) {
    match move
    case Open => p.inFlight.None? && p.alive
    case Leave => p.inFlight.Some? && p.inFlight.value == CP.CPOpened(p.inFlight.value.mem) && !Unsaved(p, p.inFlight.value.mem)
    case Do(s) => p.inFlight.Some? && CP.CPGuard(p.inFlight.value, s) && CPAllowed(p, c, labelled, p.inFlight.value.mem, s)
    case Close(saved) => p.inFlight.Some? && p.inFlight.value.pc.Closing? && (saved ==> p.alive)
    case Crash => p.inFlight.Some?
  }

  // ------------------------------------------------ what a step does to the cloud

  function NetworkCloud(c: Cloud, m: ControlPlane, s: CP.NetworkStep): Cloud {
    match s
    case CreateVpc(vpc) => c.(used := UsedAfter(c, vpc))
    case CreateSubnet(subnet) => (match subnet
      case SubnetMade(id) => c.(used := c.used + {id}, subnets := c.subnets[id := SubnetInfo(m.spec.vpcId, true)])
      case SubnetLost(id) => c.(used := c.used + {id}, subnets := c.subnets[id := SubnetInfo(m.spec.vpcId, true)])
      case _ => c)
    case _ => c
  }

  function ClusterCloud(c: Cloud, s: CP.ClusterStep): Cloud {
    match s
    case CreateCluster(cluster) => (match cluster
      case Done(id, st) => c.(used := c.used + {id}, clusters := c.clusters[id := ClusterInfo(st, None)])
      case LostReply(id, st) => c.(used := c.used + {id}, clusters := c.clusters[id := ClusterInfo(st, None)])
      case MakeFailed => c)
    case _ => c
  }

  function AccessCloud(c: Cloud, m: ControlPlane, s: CP.AccessStep): Cloud {
    match s
    case CreateEip(eip) => c.(used := UsedAfter(c, eip))
    case BindEip(bound) => if bound then c.(eipOf := c.eipOf[m.clusterId := m.status.eip]) else c
    case _ => c
  }

  function TeardownCloud(c: Cloud, m: ControlPlane, s: CP.TeardownStep): Cloud {
    var id := m.clusterId;
    if s == CP.DeleteCluster(Accepted) && id in c.clusters
    then c.(clusters := c.clusters[id := c.clusters[id].(status := c.clusters[id].status.(phase := Deleting))])
    else c
  }

  function PlaneCloud(p: Plane, c: Cloud, move: PlaneMove): Cloud {
    if move.Do? && p.inFlight.Some? then
      var m := p.inFlight.value.mem;
      match move.cps
      case Common(_) => c
      case Network(s) => NetworkCloud(c, m, s)
      case Cluster(s) => ClusterCloud(c, s)
      case Access(s) => AccessCloud(c, m, s)
      case Teardown(s) => TeardownCloud(c, m, s)
    else c
  }

  // ------------------------------------------------ what a step does to the control plane

  /** A patch writes the whole in-memory object; the deletion timestamp belongs to the API server, which
      drops a deleted object once its finalizer is gone. */
  function Save(p: Plane, m: ControlPlane): Plane {
    p.(obj := m.(deleting := p.obj.deleting),
       alive := m.finalizer || !p.obj.deleting,
       hist := p.hist.(
         readyIds := p.hist.readyIds + if m.status.ready then {m.clusterId} else {},
         endpoints := p.hist.endpoints + [m.spec.endpoint]))
  }

  predicate Unsaved(p: Plane, m: ControlPlane) {
    m.(deleting := p.obj.deleting) != p.obj
  }

  /** A reconcile ends without a final successful patch: what it had in memory is gone. */
  function Lose(p: Plane, f: CP.CPFrame): Plane {
    var m, h := f.mem, p.hist;
    p.(inFlight := None, hist := h.(
      lostWrites := h.lostWrites + if Unsaved(p, m) then 1 else 0,
      lostVpcs := h.lostVpcs + if m.spec.vpcId != p.obj.spec.vpcId then {m.spec.vpcId} else {},
      lostClusters := h.lostClusters + if m.clusterId != p.obj.clusterId then {m.clusterId} else {},
      lostEips := h.lostEips + if m.status.eip != p.obj.status.eip then {m.status.eip} else {},
      wastedEips := h.wastedEips + if f.pc.AtEipBind? then {m.status.eip} else {}))
  }

  function NetworkHistory(h: PlaneHistory, s: CP.NetworkStep): PlaneHistory {
    match s
    case CreateVpc(vpc) => (match vpc
      case Done(id, _) => h.(vpcs := h.vpcs + {id})
      case LostReply(id, _) => h.(vpcs := h.vpcs + {id}, lostVpcs := h.lostVpcs + {id}, lostReplies := h.lostReplies + 1)
      case MakeFailed => h)
    case _ => h
  }

  function ClusterHistory(h: PlaneHistory, f: CP.CPFrame, s: CP.ClusterStep): PlaneHistory {
    match s
    case CreateCluster(cluster) => (match cluster
      case Done(id, _) => h.(clusters := h.clusters + {id}, clusterCreates := h.clusterCreates + 1)
      case LostReply(id, _) =>
        h.(clusters := h.clusters + {id}, lostClusters := h.lostClusters + {id}, lostReplies := h.lostReplies + 1)
      case MakeFailed => h)
    case ObserveStatus =>
      if f.pc.AtStatus? && Announces(f.mem.status, f.pc.st) then h.(announcements := h.announcements + 1) else h
    case _ => h
  }

  function AccessHistory(h: PlaneHistory, m: ControlPlane, s: CP.AccessStep): PlaneHistory {
    match s
    case CreateEip(eip) => (match eip
      case Done(id, _) => h.(eips := h.eips[id := m.clusterId])
      case LostReply(id, _) =>
        h.(eips := h.eips[id := m.clusterId], wastedEips := h.wastedEips + {id}, lostReplies := h.lostReplies + 1)
      case MakeFailed => h)
    case BindEip(bound) =>
      if bound then h else h.(wastedEips := h.wastedEips + {m.status.eip})
    case _ => h
  }

  /** Everything but the frame. */
  function PlaneEffect(p: Plane, f: CP.CPFrame, s: CP.CPStep): Plane {
    match s
    case Common(s') => if s' == CP.Patch(true) then Save(p, f.mem) else p
    case Network(s') => p.(hist := NetworkHistory(p.hist, s'))
    case Cluster(s') => p.(hist := ClusterHistory(p.hist, f, s'))
    case Access(s') =>
      var secret := if s' == CP.WriteSecret(true) && f.pc.AtSecretWrite? then Some(f.pc.cfg) else p.secret;
      p.(secret := secret, hist := AccessHistory(p.hist, f.mem, s'))
    case Teardown(_) => p
  }

  function PlaneAfter(p: Plane, c: Cloud, labelled: nat, move: PlaneMove): Plane
    requires PlaneEnabled(p, c, labelled, move)
  {
    match move
    case Open => p.(inFlight := Some(CP.CPOpened(p.obj)))
    case Leave => p.(inFlight := None)
    case Do(s) => PlaneEffect(p, p.inFlight.value, s).(inFlight := Some(CP.CPNext(p.inFlight.value, s)))
    case Close(saved) => if saved then Save(p, p.inFlight.value.mem).(inFlight := None) else Lose(p, p.inFlight.value)
    case Crash => Lose(p, p.inFlight.value)
  }

  // ---------------------------------------------------------------- the pools

  datatype FleetHistory = FleetHistory(
    keys: set<Key>,             // pools ever created
    guarded: set<Key>,          // those labelled, and created before the control plane's deletion
    counted: set<Key>,          // those created before the dependencies were last counted
    nodepools: map<Id, Key>,    // node pools created, and the pool each was created for
    lostNodepools: set<Id>,     // those whose id was lost with a write or a reply
    recorded: map<Id, Key>)     // node pool ids ever persisted, and the pool that recorded each

  datatype Fleet = Fleet(
    pools: map<Key, Pool>,
    inFlight: map<Key, NP.PoolFrame>,
    hist: FleetHistory)

  datatype PoolMove = OpenPool | LeavePool | DoPool(ps: NP.PoolStep) | ClosePool(saved: bool) | CrashPool

  function Labelled(fl: Fleet): set<Key> {
    set k | k in fl.pools && fl.pools[k].labelled
  }

  /** The node pool that a request with this cluster id and node pool id reaches. */
  predicate Reaches(c: Cloud, cluster: Id, id: Id) {
    id in c.nodepools && c.nodepools[id].cluster == cluster
  }

  predicate PoolAllowed(p: Plane, fl: Fleet, c: Cloud, key: Key, f: NP.PoolFrame, s: NP.PoolStep) {
    match s
    case Common(s') => (match s'
      case ReadControlPlane(cluster) => p.alive && p.obj.status.ready && cluster == p.obj.clusterId
      case Patch(saved) => saved ==> key in fl.pools
      case _ => true)
    case Nodepool(s') => (match s'
      case ShowNodepool(answer) => (match answer
        case Found(st) => Reaches(c, f.cluster, f.mem.poolId) && c.nodepools[f.mem.poolId].status == st
        case Missing => !Reaches(c, f.cluster, f.mem.poolId)
        case ShowFailed => true)
      case CreateNodepool(made) => FreshIfMade(c, made) && (!made.MakeFailed? ==> f.cluster in c.clusters)
      case _ => true)
    case Teardown(s') => (match s'
      case DeleteNodepool(removal) => (match removal
        case Accepted => Reaches(c, f.cluster, f.mem.poolId)
        case NotFound => !Reaches(c, f.cluster, f.mem.poolId)
        case RemovalFailed => true)
      case _ => true)
  }

  predicate PoolEnabled(p: Plane, fl: Fleet, c: Cloud, key: Key, move: PoolMove) {
    match move
    case OpenPool => key in fl.pools && key !in fl.inFlight
    case LeavePool => key in fl.inFlight && fl.inFlight[key].pc.AtReadControlPlane?
    case DoPool(s) => key in fl.inFlight && NP.PoolGuard(fl.inFlight[key], s) && PoolAllowed(p, fl, c, key, fl.inFlight[key], s)
    case ClosePool(saved) => key in fl.inFlight && fl.inFlight[key].pc.Closing? && (saved ==> key in fl.pools)
    case CrashPool => key in fl.inFlight
  }

  function NodepoolCloud(c: Cloud, f: NP.PoolFrame, s: NP.PoolStep): Cloud {
    match s
    case Common(_) => c
    case Nodepool(s') => (match s'
      case CreateNodepool(made) => (match made
        case Done(id, st) => c.(used := c.used + {id}, nodepools := c.nodepools[id := Nodepool(f.cluster, st)])
        case LostReply(id, st) => c.(used := c.used + {id}, nodepools := c.nodepools[id := Nodepool(f.cluster, st)])
        case MakeFailed => c)
      case _ => c)
    case Teardown(s') =>
      var id := f.mem.poolId;
      if s' == NP.DeleteNodepool(Accepted) && id in c.nodepools
      then c.(nodepools := c.nodepools[id := c.nodepools[id].(status := c.nodepools[id].status.(phase := NpDeleting))])
      else c
  }

  function PoolCloud(fl: Fleet, c: Cloud, key: Key, move: PoolMove): Cloud {
    if move.DoPool? && key in fl.inFlight then NodepoolCloud(c, fl.inFlight[key], move.ps) else c
  }

  function SavePool(fl: Fleet, key: Key, m: Pool): Fleet
    requires key in fl.pools
  {
    var deleting := fl.pools[key].deleting;
    fl.(pools := if deleting && !m.finalizer then fl.pools - {key} else fl.pools[key := m.(deleting := deleting)],
        hist := if m.poolId == NO_ID then fl.hist else fl.hist.(recorded := fl.hist.recorded[m.poolId := key]))
  }

  predicate PoolUnsaved(fl: Fleet, key: Key, m: Pool) {
    m.poolId != NO_ID && (key !in fl.pools || fl.pools[key].poolId != m.poolId)
  }

  function LosePool(fl: Fleet, key: Key): Fleet
    requires key in fl.inFlight
  {
    var m, h := fl.inFlight[key].mem, fl.hist;
    fl.(inFlight := fl.inFlight - {key},
        hist := if PoolUnsaved(fl, key, m) then h.(lostNodepools := h.lostNodepools + {m.poolId}) else h)
  }

  function PoolHistory(h: FleetHistory, key: Key, s: NP.PoolStep): FleetHistory {
    if !(s.Nodepool? && s.nodepool.CreateNodepool?) then h
    else match s.nodepool.made
      case Done(id, _) => h.(nodepools := h.nodepools[id := key])
      case LostReply(id, _) => h.(nodepools := h.nodepools[id := key], lostNodepools := h.lostNodepools + {id})
      case MakeFailed => h
  }

  /** Everything but the frame. */
  function FleetEffect(fl: Fleet, key: Key, f: NP.PoolFrame, s: NP.PoolStep): Fleet {
    if s == NP.Common(NP.Patch(true)) && key in fl.pools then SavePool(fl, key, f.mem)
    else fl.(hist := PoolHistory(fl.hist, key, s))
  }

  function FleetAfter(p: Plane, fl: Fleet, c: Cloud, key: Key, move: PoolMove): Fleet
    requires PoolEnabled(p, fl, c, key, move)
  {
    match move
    case OpenPool => fl.(inFlight := fl.inFlight[key := NP.PoolOpened(fl.pools[key])])
    case LeavePool => fl.(inFlight := fl.inFlight - {key})
    case DoPool(s) =>
      FleetEffect(fl, key, fl.inFlight[key], s).(inFlight := fl.inFlight[key := NP.PoolNext(fl.inFlight[key], s)])
    case ClosePool(saved) =>
      if saved then SavePool(fl, key, fl.inFlight[key].mem).(inFlight := fl.inFlight - {key}) else LosePool(fl, key)
    case CrashPool => LosePool(fl, key)
  }

  // ---------------------------------------------------------------- the managed cluster

  datatype ManagedCluster = ManagedCluster(ready: bool, endpoint: APIEndpoint)

  /** A managed-cluster reconcile between its read of the control plane and its patch. The endpoint it read
      was the last of the first `upTo` endpoints persisted. */
  datatype CopyFrame = CopyFrame(upTo: nat, endpoint: APIEndpoint)

  /** The object holds the last of the first `copied` endpoints persisted; 0 means that nothing was copied yet. */
  datatype Mirror = Mirror(obj: ManagedCluster, inFlight: Option<CopyFrame>, copied: nat)

  datatype CopyMove = ReadPlane | PatchCopy(saved: bool) | CrashCopy

  predicate CopyEnabled(p: Plane, mi: Mirror, move: CopyMove) {
    match move
    case ReadPlane => mi.inFlight.None? && p.alive
    case _ => mi.inFlight.Some?
  }

  function MirrorAfter(p: Plane, mi: Mirror, move: CopyMove): Mirror
    requires CopyEnabled(p, mi, move)
  {
    match move
    case ReadPlane => mi.(inFlight := Some(CopyFrame(|p.hist.endpoints|, p.obj.spec.endpoint)))
    case PatchCopy(saved) =>
      if saved then Mirror(ManagedCluster(true, mi.inFlight.value.endpoint), None, mi.inFlight.value.upTo)
      else mi.(inFlight := None)
    case CrashCopy => mi.(inFlight := None)
  }

  // ---------------------------------------------------------------- users and the cloud on its own

  datatype UserStep = DeletesControlPlane | CreatesPool(key: Key, labelled: bool) | DeletesPool(key: Key)

  datatype CloudStep =
    | ClusterChanges(id: Id, info: ClusterInfo)
    | ClusterGone(id: Id)
    | NodepoolChanges(id: Id, status: NodepoolStatus)
    | NodepoolGone(id: Id)
    | ForeignSubnet(id: Id, vpc: Id, overlaps: bool)

  predicate UserEnabled(p: Plane, fl: Fleet, s: UserStep) {
    match s
    case DeletesControlPlane => p.alive
    case CreatesPool(key, _) => key !in fl.hist.keys
    case DeletesPool(key) => key in fl.pools
  }

  function EmptyPool(labelled: bool): Pool {
    Pool(labelled, false, false, NO_ID, false, None, 0, [], None)
  }

  function PlaneAfterUser(p: Plane, s: UserStep): Plane {
    if s.DeletesControlPlane? then p.(obj := p.obj.(deleting := true), alive := p.obj.finalizer) else p
  }

  function FleetAfterUser(p: Plane, fl: Fleet, s: UserStep): Fleet
    requires UserEnabled(p, fl, s)
  {
    match s
    case DeletesControlPlane => fl
    case CreatesPool(key, labelled) =>
      var guarded := if labelled && p.alive && !p.obj.deleting then {key} else {};
      fl.(pools := fl.pools[key := EmptyPool(labelled)],
          hist := fl.hist.(keys := fl.hist.keys + {key}, guarded := fl.hist.guarded + guarded))
    case DeletesPool(key) =>
      fl.(pools := if fl.pools[key].finalizer then fl.pools[key := fl.pools[key].(deleting := true)] else fl.pools - {key})
  }

  predicate FindsCount(move: PlaneMove) {
    match move
    case Do(Teardown(ListPools(count))) => count.Some?
    case _ => false
  }

  /** The control plane's reconcile only looks at the pools: counting them is remembered. */
  function FleetAfterPlane(fl: Fleet, move: PlaneMove): Fleet {
    if FindsCount(move) then fl.(hist := fl.hist.(counted := fl.hist.keys)) else fl
  }

  predicate CloudEnabled(p: Plane, c: Cloud, s: CloudStep) {
    match s
    case ClusterChanges(id, info) =>
      id in c.clusters && (c.clusters[id].status.phase == Deleting ==> info.status.phase == Deleting)
    case ClusterGone(id) => id in c.clusters
    case NodepoolChanges(id, status) =>
      id in c.nodepools && (c.nodepools[id].status.phase == NpDeleting ==> status.phase == NpDeleting)
    case NodepoolGone(id) => id in c.nodepools
    case ForeignSubnet(id, vpc, _) => Fresh(c, id) && vpc in c.used && vpc !in p.hist.vpcs
  }

  function CloudAfter(p: Plane, c: Cloud, s: CloudStep): Cloud
    requires CloudEnabled(p, c, s)
  {
    match s
    case ClusterChanges(id, info) => c.(clusters := c.clusters[id := info])
    case ClusterGone(id) =>
      c.(clusters := c.clusters - {id},
         nodepools := map n | n in c.nodepools && c.nodepools[n].cluster != id :: c.nodepools[n])
    case NodepoolChanges(id, status) => c.(nodepools := c.nodepools[id := c.nodepools[id].(status := status)])
    case NodepoolGone(id) => c.(nodepools := c.nodepools - {id})
    case ForeignSubnet(id, vpc, overlaps) =>
      c.(used := c.used + {id}, subnets := c.subnets[id := SubnetInfo(vpc, overlaps)])
  }

  // ---------------------------------------------------------------- the system

  datatype World = World(plane: Plane, fleet: Fleet, mirror: Mirror, cloud: Cloud)

  datatype Step =
    | User(user: UserStep)
    | ByCloud(change: CloudStep)
    | ByPlane(plane: PlaneMove)
    | ByPool(key: Key, pool: PoolMove)
    | ByCopy(copy: CopyMove)

  predicate PlaneInit(p: Plane, c: Cloud) {
    && p.alive && !p.obj.finalizer && !p.obj.deleting && p.obj.clusterId == NO_ID
    && p.obj.status == ControlPlaneStatus(false, false, None, NO_ID, map[])
    && (p.obj.spec.vpcId != NO_ID ==> p.obj.spec.vpcId in c.used)
    && (p.obj.spec.subnetId != NO_ID ==> p.obj.spec.subnetId in c.used)
    && p.inFlight == None && p.secret == None
    && p.hist == PlaneHistory(0, 0, {}, {}, {}, {}, 0, 0, map[], {}, {}, {}, [p.obj.spec.endpoint])
  }

  predicate CloudInit(c: Cloud) {
    && NO_ID !in c.used && c.subnets.Keys <= c.used
    && (forall id :: id in c.subnets ==> c.subnets[id].vpc in c.used)
    && c.clusters == map[] && c.nodepools == map[] && c.eipOf == map[]
  }

  /** A control plane that a user has just created, in an account that may already hold networks. */
  predicate Init(w: World) {
    && PlaneInit(w.plane, w.cloud)
    && w.fleet == Fleet(map[], map[], FleetHistory({}, {}, {}, map[], {}, map[]))
    && w.mirror == Mirror(ManagedCluster(false, ZERO_ENDPOINT), None, 0)
    && CloudInit(w.cloud)
  }

  predicate Enabled(w: World, s: Step) {
    match s
    case User(u) => UserEnabled(w.plane, w.fleet, u)
    case ByCloud(change) => CloudEnabled(w.plane, w.cloud, change)
    case ByPlane(move) => PlaneEnabled(w.plane, w.cloud, |Labelled(w.fleet)|, move)
    case ByPool(key, move) => PoolEnabled(w.plane, w.fleet, w.cloud, key, move)
    case ByCopy(move) => CopyEnabled(w.plane, w.mirror, move)
  }

  function Apply(w: World, s: Step): World
    requires Enabled(w, s)
  {
    match s
    case User(u) => w.(plane := PlaneAfterUser(w.plane, u), fleet := FleetAfterUser(w.plane, w.fleet, u))
    case ByCloud(change) => w.(cloud := CloudAfter(w.plane, w.cloud, change))
    case ByPlane(move) =>
      w.(plane := PlaneAfter(w.plane, w.cloud, |Labelled(w.fleet)|, move),
         fleet := FleetAfterPlane(w.fleet, move),
         cloud := PlaneCloud(w.plane, w.cloud, move))
    case ByPool(key, move) =>
      w.(fleet := FleetAfter(w.plane, w.fleet, w.cloud, key, move), cloud := PoolCloud(w.fleet, w.cloud, key, move))
    case ByCopy(move) => w.(mirror := MirrorAfter(w.plane, w.mirror, move))
  }

  /** The state after making the steps one after the other from w, if each is possible when its turn comes. */
  function Run(w: World, steps: seq<Step>): Option<World> {
    if steps == [] then Some(w)
    else
      var last := steps[|steps| - 1];
      match Run(w, steps[..|steps| - 1])
      case None => None
      case Some(v) => if Enabled(v, last) then Some(Apply(v, last)) else None
  }

  /** The system, started in `start`, is in w after these steps. */
  predicate Reachable(start: World, steps: seq<Step>, w: World) {
    Init(start) && Run(start, steps) == Some(w)
  }
}
