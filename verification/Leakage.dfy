/** How many clusters and VPCs a control plane can leave behind. */
module Leakage {
  import opened Types
  import opened Protocol
  import opened Invariants
  import opened Footprints
  import CP = ControlPlaneProgram
  import Frames = ControlPlaneFrames

  /** The object as the controller sees it: in memory during a reconcile, else persisted. */
  function Tracked(p: Plane): ControlPlane {
    if p.inFlight.Some? then p.inFlight.value.mem else p.obj
  }

  /** Every live cluster that was created for the control plane is the tracked one or was lost. */
  predicate ClustersAccounted(h: PlaneHistory, c: Cloud, tracked: Id) {
    && (forall id :: id in h.clusters && id in c.clusters ==> id in h.lostClusters || id == tracked)
    && |h.lostClusters| <= h.lostWrites + h.lostReplies
  }

  /** Every VPC that was created is the tracked one or was lost. */
  predicate VpcsAccounted(h: PlaneHistory, tracked: Id) {
    && (forall id :: id in h.vpcs ==> id in h.lostVpcs || id == tracked)
    && |h.lostVpcs| <= h.lostWrites + h.lostReplies
  }

  predicate Accounted(p: Plane, c: Cloud) {
    ClustersAccounted(p.hist, c, Tracked(p).clusterId) && VpcsAccounted(p.hist, Tracked(p).spec.vpcId)
  }

  lemma AddOne<T>(s: set<T>, x: T)
    ensures |s + {x}| <= |s| + 1
  {
    if x in s {
      assert s + {x} == s;
    }
  }

  lemma LoseAccounts(p: Plane, c: Cloud, f: CP.CPFrame)
    requires Base(p, c) && p.inFlight == Some(f) && Accounted(p, c)
    ensures Accounted(Lose(p, f), c)
  {
    AddOne(p.hist.lostClusters, f.mem.clusterId);
    AddOne(p.hist.lostVpcs, f.mem.spec.vpcId);
  }

  lemma NetworkAccounts(h: PlaneHistory, c: Cloud, f: CP.CPFrame, s: CP.NetworkStep)
    requires CloudInv(c) && KnownHistory(c, h) && CP.NetworkGuard(f, s)
    requires ClustersAccounted(h, c, f.mem.clusterId) && VpcsAccounted(h, f.mem.spec.vpcId)
    ensures ClustersAccounted(NetworkHistory(h, s), NetworkCloud(c, f.mem, s), CP.NetworkAdvance(f, s).0.clusterId)
    ensures VpcsAccounted(NetworkHistory(h, s), CP.NetworkAdvance(f, s).0.spec.vpcId)
  {
    if s.CreateVpc? && s.vpc.LostReply? {
      AddOne(h.lostVpcs, s.vpc.lost);
    }
  }

  /** A cluster is created only when the recorded id is empty or its cluster is gone. */
  lemma ClusterAccounts(h: PlaneHistory, c: Cloud, f: CP.CPFrame, s: CP.ClusterStep)
    requires CloudInv(c) && KnownHistory(c, h) && CP.ClusterGuard(f, s)
    requires f.pc.AtClusterCreate? ==> f.mem.clusterId !in c.clusters
    requires ClustersAccounted(h, c, f.mem.clusterId) && VpcsAccounted(h, f.mem.spec.vpcId)
    ensures ClustersAccounted(ClusterHistory(h, f, s), ClusterCloud(c, s), CP.ClusterAdvance(f, s).0.clusterId)
    ensures VpcsAccounted(ClusterHistory(h, f, s), CP.ClusterAdvance(f, s).0.spec.vpcId)
  {
    ClusterSpares(f, s);
    if s.CreateCluster? && s.cluster.LostReply? {
      AddOne(h.lostClusters, s.cluster.lost);
    }
  }

  /** The other steps touch neither the ids nor these parts of the history. */
  lemma OthersAccount(p: Plane, c: Cloud, f: CP.CPFrame, s: CP.CPStep)
    requires Accounted(p, c) && p.inFlight == Some(f) && CP.CPGuard(f, s) && Frames.ModeInv(f.mem, f.pc)
    requires s.Common? || s.Access? || s.Teardown?
    ensures ClustersAccounted(PlaneEffect(p, f, s).hist, PlaneCloud(p, c, Do(s)), CP.Advance(f, s).0.clusterId)
    ensures VpcsAccounted(PlaneEffect(p, f, s).hist, CP.Advance(f, s).0.spec.vpcId)
  {
    match s
    case Common(s') => CommonSpares(f, s');
    case Access(s') => AccessSpares(f, s');
    case Teardown(s') => TeardownSpares(f, s');
  }

  lemma AccountedKeptByPlane(p: Plane, c: Cloud, labelled: nat, move: PlaneMove)
    requires Base(p, c) && FrameOk(p) && PlaneEnabled(p, c, labelled, move)
    requires Accounted(p, c)
    ensures Accounted(PlaneAfter(p, c, labelled, move), PlaneCloud(p, c, move))
  {
    match move
    case Open =>
    case Leave =>
    case Do(Network(s)) => NetworkAccounts(p.hist, c, p.inFlight.value, s);
    case Do(Cluster(s)) => ClusterAccounts(p.hist, c, p.inFlight.value, s);
    case Do(s) => OthersAccount(p, c, p.inFlight.value, s);
    case Close(_) => LoseAccounts(p, c, p.inFlight.value);
    case Crash => LoseAccounts(p, c, p.inFlight.value);
  }

  lemma AccountedKept(w: World, s: Step)
    requires Base(w.plane, w.cloud) && FrameOk(w.plane) && Enabled(w, s)
    requires Accounted(w.plane, w.cloud)
    ensures Accounted(Apply(w, s).plane, Apply(w, s).cloud)
  {
    match s
    case User(u) =>
    case ByCloud(change) => CloudMoves(w.plane, w.cloud, change);
    case ByPlane(move) => AccountedKeptByPlane(w.plane, w.cloud, |Labelled(w.fleet)|, move);
    case ByPool(key, move) => PoolMoves(w.plane, w.fleet, w.cloud, key, move);
    case ByCopy(_) =>
  }
}
