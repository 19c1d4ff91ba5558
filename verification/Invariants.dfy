/** The basic invariants of the control plane: ids, finalizers, and how the object in memory relates to the
    persisted one. They mention the control plane and the cloud only. */
module Invariants {
  import opened Types
  import opened Kubeconfigs
  import opened Protocol
  import CP = ControlPlaneProgram
  import Frames = ControlPlaneFrames
  import Convergence
  import NP = PoolProgram

  predicate Known(c: Cloud, id: Id) {
    id == NO_ID || id in c.used
  }

  predicate CloudInv(c: Cloud) {
    && NO_ID !in c.used
    && c.clusters.Keys <= c.used && c.nodepools.Keys <= c.used && c.subnets.Keys <= c.used && c.eipOf.Keys <= c.used
    && (forall n :: n in c.nodepools ==> c.nodepools[n].cluster in c.clusters)
    && (forall id :: id in c.subnets ==> c.subnets[id].vpc in c.used)
  }

  predicate KnownIds(c: Cloud, m: ControlPlane) {
    Known(c, m.clusterId) && Known(c, m.spec.vpcId) && Known(c, m.spec.subnetId) && Known(c, m.status.eip)
  }

  predicate KnownHistory(c: Cloud, h: PlaneHistory) {
    h.vpcs <= c.used && h.clusters <= c.used && h.eips.Keys <= c.used && h.readyIds <= c.used
  }

  /** The persisted control plane: a deleted one still has its finalizer, an id is recorded only under the
      finalizer, and once the object is gone its cluster is gone too. */
  predicate PersistedInv(p: Plane, c: Cloud) {
    && Frames.ReadyHasId(p.obj)
    && (p.alive && p.obj.deleting ==> p.obj.finalizer)
    && (p.alive && !p.obj.finalizer ==> p.obj.clusterId == NO_ID)
    && (!p.alive ==> p.obj.clusterId !in c.clusters)
    && (p.secret.Some? ==> Usable(p.secret.value, p.obj.name))
  }

  /** Past the first patch, the finalizer is persisted. */
  predicate Backed(p: Plane, m: ControlPlane, pc: CP.Pc) {
    && (!pc.Closing? && !pc.AtStart? && !pc.AtFinalizerPatch? ==> p.alive && p.obj.finalizer)
    && (pc.AtStart? && m.finalizer ==> p.alive && p.obj.finalizer)
    && (m.deleting ==> p.alive && p.obj.finalizer && p.obj.deleting)
    && (!m.finalizer && !m.deleting ==> m.(deleting := p.obj.deleting) == p.obj)
  }

  /** The ids in memory extend the persisted ones; a persisted cluster id is replaced only after a 404. */
  predicate Extends(p: Plane, c: Cloud, m: ControlPlane, pc: CP.Pc) {
    && m.name == p.obj.name
    && (p.obj.spec.vpcId != NO_ID ==> m.spec.vpcId == p.obj.spec.vpcId)
    && (p.obj.spec.subnetId != NO_ID ==> m.spec.subnetId == p.obj.spec.subnetId)
    && (m.clusterId != p.obj.clusterId ==> p.obj.clusterId !in c.clusters)
    && (pc.AtClusterCreate? ==> m.clusterId !in c.clusters)
  }

  /** What a deletion has achieved so far. */
  predicate Deletes(p: Plane, c: Cloud, m: ControlPlane, pc: CP.Pc) {
    && (m.deleting ==> m.clusterId == p.obj.clusterId)
    && (pc.AtDeleteWait? && m.clusterId in c.clusters ==> c.clusters[m.clusterId].status.phase == Deleting)
    && (pc.AtDeleteDone? || (m.deleting && !m.finalizer) ==> m.clusterId !in c.clusters)
  }

  predicate InFlightInv(p: Plane, c: Cloud, m: ControlPlane, pc: CP.Pc) {
    KnownIds(c, m) && Backed(p, m, pc) && Extends(p, c, m, pc) && Deletes(p, c, m, pc)
  }

  predicate AtRest(p: Plane, c: Cloud) {
    CloudInv(c) && KnownIds(c, p.obj) && KnownHistory(c, p.hist) && PersistedInv(p, c)
  }

  predicate Base(p: Plane, c: Cloud) {
    AtRest(p, c) && (p.inFlight.Some? ==> InFlightInv(p, c, p.inFlight.value.mem, p.inFlight.value.pc))
  }

  /** What concerns the frame alone. */
  predicate FrameOk(p: Plane) {
    p.inFlight.Some? ==>
      Frames.FrameInv(p.inFlight.value.mem, p.inFlight.value.pc) && Convergence.CleanInv(p.inFlight.value)
  }

  lemma BaseInit(p: Plane, c: Cloud)
    requires PlaneInit(p, c) && CloudInit(c)
    ensures Base(p, c) && FrameOk(p)
  {
  }

  // ---------------------------------------------------------------- the frame alone

  lemma FrameKept(p: Plane, c: Cloud, labelled: nat, move: PlaneMove)
    requires Base(p, c) && FrameOk(p) && PlaneEnabled(p, c, labelled, move)
    ensures FrameOk(PlaneAfter(p, c, labelled, move))
  {
    match move
    case Open => FrameOpens(p);
    case Do(s) =>
      var f := p.inFlight.value;
      AnswersAreSound(p, c, labelled, f, s);
      Frames.FrameInvSteps(f, s);
      Convergence.CleanInvSteps(f, s);
    case _ =>
  }

  lemma FrameOpens(p: Plane)
    requires Frames.ReadyHasId(p.obj) && (p.obj.deleting ==> p.obj.finalizer)
    ensures Frames.FrameInv(CP.CPOpened(p.obj).mem, CP.CPOpened(p.obj).pc) && Convergence.CleanInv(CP.CPOpened(p.obj))
  {
    Frames.FrameInvOpens(p.obj);
    Convergence.CleanInvOpens(p.obj);
  }

  lemma AnswersAreSound(p: Plane, c: Cloud, labelled: nat, f: CP.CPFrame, s: CP.CPStep)
    requires Base(p, c) && p.inFlight == Some(f) && CPAllowed(p, c, labelled, f.mem, s)
    ensures Frames.SoundAnswer(f.mem, s)
  {
  }

  // ---------------------------------------------------------------- control-plane steps

  lemma BaseCommon(p: Plane, c: Cloud, f: CP.CPFrame, s: CP.CommonStep)
    requires Base(p, c) && p.inFlight == Some(f) && Frames.FrameInv(f.mem, f.pc)
    requires CP.CommonGuard(f, s) && (s.Patch? && s.saved ==> p.alive)
    ensures var q, (m, pc) := PlaneEffect(p, f, CP.Common(s)), CP.CommonAdvance(f, s);
            AtRest(q, c) && InFlightInv(q, c, m, pc)
  {
  }

  lemma BaseCreateVpc(p: Plane, c: Cloud, f: CP.CPFrame, made: Made<()>)
    requires Base(p, c) && p.inFlight == Some(f) && Frames.FrameInv(f.mem, f.pc)
    requires CP.NetworkGuard(f, CP.CreateVpc(made)) && FreshIfMade(c, made)
    ensures var s := CP.CreateVpc(made);
            var q, d, (m, pc) := p.(hist := NetworkHistory(p.hist, s)), NetworkCloud(c, f.mem, s), CP.NetworkAdvance(f, s);
            AtRest(q, d) && InFlightInv(q, d, m, pc)
  {
  }

  lemma BaseCreateSubnet(p: Plane, c: Cloud, f: CP.CPFrame, reply: CP.SubnetReply)
    requires Base(p, c) && p.inFlight == Some(f) && Frames.FrameInv(f.mem, f.pc)
    requires CP.NetworkGuard(f, CP.CreateSubnet(reply)) && NetworkAllowed(c, f.mem, CP.CreateSubnet(reply))
    ensures var d, (m, pc) := NetworkCloud(c, f.mem, CP.CreateSubnet(reply)), CP.NetworkAdvance(f, CP.CreateSubnet(reply));
            AtRest(p, d) && InFlightInv(p, d, m, pc)
  {
  }

  lemma BaseNetwork(p: Plane, c: Cloud, f: CP.CPFrame, s: CP.NetworkStep)
    requires Base(p, c) && p.inFlight == Some(f) && Frames.FrameInv(f.mem, f.pc)
    requires CP.NetworkGuard(f, s) && NetworkAllowed(c, f.mem, s)
    ensures var q, d, (m, pc) := p.(hist := NetworkHistory(p.hist, s)), NetworkCloud(c, f.mem, s), CP.NetworkAdvance(f, s);
            AtRest(q, d) && InFlightInv(q, d, m, pc)
  {
    match s
    case CreateVpc(vpc) => BaseCreateVpc(p, c, f, vpc);
    case CreateSubnet(subnet) =>
      BaseCreateSubnet(p, c, f, subnet);
      assert NetworkHistory(p.hist, s) == p.hist;
    case _ =>
      assert NetworkCloud(c, f.mem, s) == c && NetworkHistory(p.hist, s) == p.hist;
  }

  lemma BaseCreateCluster(p: Plane, c: Cloud, f: CP.CPFrame, made: Made<ClusterStatus>)
    requires Base(p, c) && p.inFlight == Some(f) && Frames.FrameInv(f.mem, f.pc)
    requires CP.ClusterGuard(f, CP.CreateCluster(made)) && FreshIfMade(c, made)
    ensures var s := CP.CreateCluster(made);
            var q, d, (m, pc) := p.(hist := ClusterHistory(p.hist, f, s)), ClusterCloud(c, s), CP.ClusterAdvance(f, s);
            AtRest(q, d) && InFlightInv(q, d, m, pc)
  {
  }

  lemma BaseCluster(p: Plane, c: Cloud, f: CP.CPFrame, s: CP.ClusterStep)
    requires Base(p, c) && p.inFlight == Some(f) && Frames.FrameInv(f.mem, f.pc)
    requires CP.ClusterGuard(f, s) && ClusterAllowed(c, f.mem, s)
    ensures var q, d, (m, pc) := p.(hist := ClusterHistory(p.hist, f, s)), ClusterCloud(c, s), CP.ClusterAdvance(f, s);
            AtRest(q, d) && InFlightInv(q, d, m, pc)
  {
    match s
    case CreateCluster(cluster) => BaseCreateCluster(p, c, f, cluster);
    case _ =>
      assert ClusterCloud(c, s) == c;
  }

  lemma BaseEip(p: Plane, c: Cloud, f: CP.CPFrame, s: CP.AccessStep)
    requires Base(p, c) && p.inFlight == Some(f) && Frames.FrameInv(f.mem, f.pc)
    requires CP.AccessGuard(f, s) && AccessAllowed(p, c, f.mem, s) && (s.CreateEip? || s.BindEip?)
    ensures var q, d, (m, pc) := PlaneEffect(p, f, CP.Access(s)), AccessCloud(c, f.mem, s), CP.AccessAdvance(f, s);
            AtRest(q, d) && InFlightInv(q, d, m, pc)
  {
  }

  lemma BaseAccess(p: Plane, c: Cloud, f: CP.CPFrame, s: CP.AccessStep)
    requires Base(p, c) && p.inFlight == Some(f) && Frames.FrameInv(f.mem, f.pc)
    requires CP.AccessGuard(f, s) && AccessAllowed(p, c, f.mem, s)
    ensures var q, d, (m, pc) := PlaneEffect(p, f, CP.Access(s)), AccessCloud(c, f.mem, s), CP.AccessAdvance(f, s);
            AtRest(q, d) && InFlightInv(q, d, m, pc)
  {
    if s.CreateEip? || s.BindEip? {
      BaseEip(p, c, f, s);
    } else {
      assert AccessCloud(c, f.mem, s) == c && AccessHistory(p.hist, f.mem, s) == p.hist;
    }
  }

  lemma BaseTeardown(p: Plane, c: Cloud, labelled: nat, f: CP.CPFrame, s: CP.TeardownStep)
    requires Base(p, c) && p.inFlight == Some(f) && Frames.FrameInv(f.mem, f.pc)
    requires CP.TeardownGuard(f, s) && TeardownAllowed(c, labelled, f.mem, s)
    ensures var d, (m, pc) := TeardownCloud(c, f.mem, s), CP.TeardownAdvance(f, s);
            AtRest(p, d) && InFlightInv(p, d, m, pc)
  {
  }

  lemma BaseEnds(p: Plane, c: Cloud, f: CP.CPFrame)
    requires Base(p, c) && p.inFlight == Some(f) && Frames.FrameInv(f.mem, f.pc)
    ensures Base(Lose(p, f), c)
    ensures f.pc.Closing? && p.alive ==> Base(Save(p, f.mem).(inFlight := None), c)
  {
  }

  lemma BaseKeptByPlane(p: Plane, c: Cloud, labelled: nat, move: PlaneMove)
    requires Base(p, c) && FrameOk(p) && PlaneEnabled(p, c, labelled, move)
    ensures Base(PlaneAfter(p, c, labelled, move), PlaneCloud(p, c, move))
  {
    match move
    case Open =>
    case Leave =>
    case Do(s) =>
      var f := p.inFlight.value;
      match s {
        case Common(s') => BaseCommon(p, c, f, s');
        case Network(s') => BaseNetwork(p, c, f, s');
        case Cluster(s') => BaseCluster(p, c, f, s');
        case Access(s') => BaseAccess(p, c, f, s');
        case Teardown(s') => BaseTeardown(p, c, labelled, f, s');
      }
    case Close(_) => BaseEnds(p, c, p.inFlight.value);
    case Crash => BaseEnds(p, c, p.inFlight.value);
  }

  // ---------------------------------------------------------------- the other steps

  /** What any move but a control-plane one does to the cloud, as far as clusters are concerned. */
  predicate ClustersOnlyFade(c: Cloud, c': Cloud) {
    && c.used <= c'.used && c'.clusters.Keys <= c.clusters.Keys && c'.eipOf == c.eipOf
    && (forall id :: id in c'.clusters && c.clusters[id].status.phase == Deleting ==>
          c'.clusters[id].status.phase == Deleting)
  }

  lemma CloudMoves(p: Plane, c: Cloud, s: CloudStep)
    requires CloudInv(c) && CloudEnabled(p, c, s)
    ensures CloudInv(CloudAfter(p, c, s)) && ClustersOnlyFade(c, CloudAfter(p, c, s))
  {
  }

  lemma NodepoolMoves(p: Plane, fl: Fleet, c: Cloud, key: Key, f: NP.PoolFrame, s: NP.PoolStep)
    requires CloudInv(c) && PoolAllowed(p, fl, c, key, f, s)
    ensures var c' := NodepoolCloud(c, f, s);
            CloudInv(c') && c.used <= c'.used && c' == c.(used := c'.used, nodepools := c'.nodepools)
  {
  }

  lemma PoolMoves(p: Plane, fl: Fleet, c: Cloud, key: Key, move: PoolMove)
    requires CloudInv(c) && PoolEnabled(p, fl, c, key, move)
    ensures var c' := PoolCloud(fl, c, key, move);
            && CloudInv(c') && ClustersOnlyFade(c, c')
            && c' == c.(used := c'.used, nodepools := c'.nodepools)
  {
    if move.DoPool? {
      NodepoolMoves(p, fl, c, key, fl.inFlight[key], move.ps);
    }
  }

  lemma BaseFades(p: Plane, c: Cloud, c': Cloud)
    requires Base(p, c) && CloudInv(c') && ClustersOnlyFade(c, c')
    ensures Base(p, c')
  {
  }

  lemma BaseKeptByUser(p: Plane, fl: Fleet, c: Cloud, s: UserStep)
    requires Base(p, c) && FrameOk(p) && UserEnabled(p, fl, s)
    ensures Base(PlaneAfterUser(p, s), c) && FrameOk(PlaneAfterUser(p, s))
  {
  }

  /** Every step of the system keeps the basic invariants. */
  lemma BaseKept(w: World, s: Step)
    requires Base(w.plane, w.cloud) && FrameOk(w.plane) && Enabled(w, s)
    ensures Base(Apply(w, s).plane, Apply(w, s).cloud) && FrameOk(Apply(w, s).plane)
  {
    var p, fl, c := w.plane, w.fleet, w.cloud;
    match s
    case User(u) => BaseKeptByUser(p, fl, c, u);
    case ByCloud(change) =>
      CloudMoves(p, c, change);
      BaseFades(p, c, CloudAfter(p, c, change));
    case ByPlane(move) =>
      FrameKept(p, c, |Labelled(fl)|, move);
      BaseKeptByPlane(p, c, |Labelled(fl)|, move);
    case ByPool(key, move) =>
      PoolMoves(p, fl, c, key, move);
      BaseFades(p, c, PoolCloud(fl, c, key, move));
    case ByCopy(_) =>
  }
}
