/** The bounds on what a control plane can leave behind, in terms of the steps of the run alone. */
module Tallies {
  import opened Types
  import opened Protocol
  import opened Invariants
  import opened Footprints
  import opened Leakage
  import opened PublicIps
  import opened Runs
  import opened Theorems
  import CP = ControlPlaneProgram

  /** How many steps of the run from `start` are of this kind; the kind of a step may depend on the state in
      which it is made. */
  function Count(start: World, steps: seq<Step>, kind: (World, Step) -> bool): nat
    decreases |steps|
  {
    if steps == [] then 0
    else
      var n := |steps| - 1;
      match Run(start, steps[..n])
      case None => 0
      case Some(w) => Count(start, steps[..n], kind) + if kind(w, steps[n]) then 1 else 0
  }

  // ---------------------------------------------------------------- kinds of steps

  /** A control-plane reconcile crashes, or its last patch fails. */
  predicate EndsUnsaved(w: World, s: Step) {
    (s == ByPlane(Crash) || s == ByPlane(Close(false))) && w.plane.inFlight.Some?
  }

  /** It had changes in memory that no successful patch carried. */
  predicate LosesWrite(w: World, s: Step) {
    EndsUnsaved(w, s) && Unsaved(w.plane, w.plane.inFlight.value.mem)
  }

  /** It had created a cluster whose id no successful patch carried; or the reply to the create was lost. */
  predicate LosesCluster(w: World, s: Step) {
    || (EndsUnsaved(w, s) && w.plane.inFlight.value.mem.clusterId != w.plane.obj.clusterId)
    || (match s
        case ByPlane(Do(Cluster(CreateCluster(cluster)))) => cluster.LostReply?
        case _ => false)
  }

  /** The same for a VPC. */
  predicate LosesVpc(w: World, s: Step) {
    || (EndsUnsaved(w, s) && w.plane.inFlight.value.mem.spec.vpcId != w.plane.obj.spec.vpcId)
    || (match s
        case ByPlane(Do(Network(CreateVpc(vpc)))) => vpc.LostReply?
        case _ => false)
  }

  /** A public IP made for the cluster is wasted: its bind fails, the reconcile crashes between the create and
      the bind, or the reply to the create is lost. */
  predicate WastesEip(cluster: Id, w: World, s: Step) {
    && w.plane.inFlight.Some? && w.plane.inFlight.value.mem.clusterId == cluster
    && (match s
        case ByPlane(Do(Access(BindEip(bound)))) => !bound
        case ByPlane(Do(Access(CreateEip(eip)))) => eip.LostReply?
        case ByPlane(Crash) => w.plane.inFlight.value.pc.AtEipBind?
        case _ => false)
  }

  predicate CreatesCluster(w: World, s: Step) {
    match s
    case ByPlane(Do(Cluster(CreateCluster(cluster)))) => cluster.Done?
    case _ => false
  }

  /** A step of a reconcile after which the Creating condition, as held, is no longer True. */
  predicate EndsCreating(w: World, s: Step) {
    && s.ByPlane? && s.plane.Do? && Enabled(w, s)
    && IsCreating(w.plane.inFlight.value.mem) && !IsCreating(CP.Advance(w.plane.inFlight.value, s.plane.cps).0)
  }

  // ---------------------------------------------------------------- what one step costs

  /** A step adds at most one lost cluster and one lost VPC, and only if it is of that kind. */
  predicate LosesAtMost(w: World, s: Step, h: PlaneHistory, h': PlaneHistory) {
    && |h'.lostClusters| <= |h.lostClusters| + (if LosesCluster(w, s) then 1 else 0)
    && |h'.lostVpcs| <= |h.lostVpcs| + (if LosesVpc(w, s) then 1 else 0)
  }

  lemma LoseCosts(w: World, s: Step)
    requires Enabled(w, s) && EndsUnsaved(w, s)
    ensures LosesAtMost(w, s, w.plane.hist, Apply(w, s).plane.hist)
  {
    AddOne(w.plane.hist.lostClusters, w.plane.inFlight.value.mem.clusterId);
    AddOne(w.plane.hist.lostVpcs, w.plane.inFlight.value.mem.spec.vpcId);
    assert w.plane.hist.lostClusters + {} == w.plane.hist.lostClusters;
    assert w.plane.hist.lostVpcs + {} == w.plane.hist.lostVpcs;
  }

  lemma DoCosts(w: World, s: CP.CPStep)
    requires Enabled(w, ByPlane(Do(s)))
    ensures LosesAtMost(w, ByPlane(Do(s)), w.plane.hist, PlaneEffect(w.plane, w.plane.inFlight.value, s).hist)
  {
    match s
    case Network(CreateVpc(LostReply(id, _))) => AddOne(w.plane.hist.lostVpcs, id);
    case Cluster(CreateCluster(LostReply(id, _))) => AddOne(w.plane.hist.lostClusters, id);
    case _ =>
  }

  lemma StepCosts(w: World, s: Step)
    requires Enabled(w, s)
    ensures LosesAtMost(w, s, w.plane.hist, Apply(w, s).plane.hist)
  {
    match s
    case ByPlane(Do(cps)) => DoCosts(w, cps);
    case ByPlane(Crash) => LoseCosts(w, s);
    case ByPlane(Close(saved)) =>
      if !saved {
        LoseCosts(w, s);
      }
    case _ =>
  }

  lemma DoCounts(p: Plane, f: CP.CPFrame, s: CP.CPStep)
    ensures PlaneEffect(p, f, s).hist.lostWrites == p.hist.lostWrites
    ensures PlaneEffect(p, f, s).hist.clusterCreates ==
            p.hist.clusterCreates + if s.Cluster? && s.cluster.CreateCluster? && s.cluster.cluster.Done? then 1 else 0
  {
  }

  lemma StepCounts(w: World, s: Step)
    requires Enabled(w, s)
    ensures Apply(w, s).plane.hist.lostWrites == w.plane.hist.lostWrites + if LosesWrite(w, s) then 1 else 0
    ensures Apply(w, s).plane.hist.clusterCreates == w.plane.hist.clusterCreates + if CreatesCluster(w, s) then 1 else 0
  {
    match s
    case ByPlane(Do(cps)) => DoCounts(w.plane, w.plane.inFlight.value, cps);
    case _ =>
  }

  lemma ObservationAnnounces(h: PlaneHistory, f: CP.CPFrame, s: CP.ClusterStep)
    requires CP.ClusterGuard(f, s)
    ensures ClusterHistory(h, f, s).announcements ==
            h.announcements + if IsCreating(f.mem) && !IsCreating(CP.ClusterAdvance(f, s).0) then 1 else 0
  {
  }

  /** The event is recorded exactly when the held Creating condition ends. */
  lemma StepAnnounces(w: World, s: Step)
    requires Enabled(w, s) && FrameOk(w.plane)
    ensures Apply(w, s).plane.hist.announcements == w.plane.hist.announcements + if EndsCreating(w, s) then 1 else 0
  {
    match s
    case ByPlane(Do(cps)) =>
      var f := w.plane.inFlight.value;
      match cps {
        case Common(s') => CommonSpares(f, s');
        case Network(s') => NetworkSpares(f, s');
        case Cluster(s') => ObservationAnnounces(w.plane.hist, f, s');
        case Access(s') => AccessSpares(f, s');
        case Teardown(s') => TeardownSpares(f, s');
      }
    case _ =>
  }

  lemma WasteCosts(w: World, s: Step, cluster: Id)
    requires Enabled(w, s) && EipInv(w.plane, w.cloud) && w.plane.hist.eips.Keys <= w.cloud.used
    ensures |WastedEips(Apply(w, s).plane.hist, cluster)| <=
            |WastedEips(w.plane.hist, cluster)| + if WastesEip(cluster, w, s) then 1 else 0
  {
    var h, h' := w.plane.hist, Apply(w, s).plane.hist;
    if WastesEip(cluster, w, s) {
      var id := if s.plane.Do? && s.plane.cps.access.CreateEip? then s.plane.cps.access.eip.lost
                else w.plane.inFlight.value.mem.status.eip;
      WasteIsOne(w, s, cluster, id);
      AtMostOneMore(WastedEips(h', cluster), WastedEips(h, cluster), id);
    } else {
      WasteIsNone(w, s, cluster);
      SubsetIsSmaller(WastedEips(h', cluster), WastedEips(h, cluster));
    }
  }

  lemma WasteIsOne(w: World, s: Step, cluster: Id, id: Id)
    requires Enabled(w, s) && EipInv(w.plane, w.cloud) && w.plane.hist.eips.Keys <= w.cloud.used
    requires WastesEip(cluster, w, s)
    requires id == if s.plane.Do? && s.plane.cps.access.CreateEip? then s.plane.cps.access.eip.lost
                   else w.plane.inFlight.value.mem.status.eip
    ensures WastedEips(Apply(w, s).plane.hist, cluster) <= WastedEips(w.plane.hist, cluster) + {id}
  {
  }

  lemma AccessWastesNone(p: Plane, c: Cloud, f: CP.CPFrame, s: CP.AccessStep, cluster: Id)
    requires p.inFlight == Some(f) && CP.AccessGuard(f, s) && AccessAllowed(p, c, f.mem, s)
    requires EipInv(p, c) && p.hist.eips.Keys <= c.used
    requires f.mem.clusterId == cluster ==> !(s.BindEip? && !s.bound) && !(s.CreateEip? && s.eip.LostReply?)
    ensures WastedEips(AccessHistory(p.hist, f.mem, s), cluster) <= WastedEips(p.hist, cluster)
  {
  }

  lemma WasteIsNone(w: World, s: Step, cluster: Id)
    requires Enabled(w, s) && EipInv(w.plane, w.cloud) && w.plane.hist.eips.Keys <= w.cloud.used
    requires !WastesEip(cluster, w, s)
    ensures WastedEips(Apply(w, s).plane.hist, cluster) <= WastedEips(w.plane.hist, cluster)
  {
    match s
    case ByPlane(Do(Access(a))) => AccessWastesNone(w.plane, w.cloud, w.plane.inFlight.value, a, cluster);
    case ByPlane(Do(cps)) => OthersWasteNone(w.plane, w.plane.inFlight.value, cps);
    case _ =>
  }

  lemma OthersWasteNone(p: Plane, f: CP.CPFrame, s: CP.CPStep)
    requires !s.Access?
    ensures PlaneEffect(p, f, s).hist.eips == p.hist.eips && PlaneEffect(p, f, s).hist.wastedEips == p.hist.wastedEips
  {
  }

  // ---------------------------------------------------------------- whole runs

  predicate Covered(start: World, steps: seq<Step>, h: PlaneHistory) {
    && |h.lostClusters| <= Count(start, steps, LosesCluster)
    && |h.lostVpcs| <= Count(start, steps, LosesVpc)
    && h.lostWrites == Count(start, steps, LosesWrite)
    && h.clusterCreates == Count(start, steps, CreatesCluster)
  }

  lemma {:induction false} RunIsCovered(start: World, steps: seq<Step>, w: World)
    requires Reachable(start, steps, w)
    ensures Covered(start, steps, w.plane.hist)
    decreases |steps|
  {
    if steps != [] {
      var n := |steps| - 1;
      var before := Run(start, steps[..n]).value;
      RunIsCovered(start, steps[..n], before);
      StepCosts(before, steps[n]);
      StepCounts(before, steps[n]);
    }
  }

  lemma {:induction false} WasteIsCovered(start: World, steps: seq<Step>, w: World, cluster: Id)
    requires Reachable(start, steps, w)
    ensures |WastedEips(w.plane.hist, cluster)| <= Count(start, steps, (v, s) => WastesEip(cluster, v, s))
    decreases |steps|
  {
    if steps == [] {
      assert WastedEips(w.plane.hist, cluster) == {};
    } else {
      var n := |steps| - 1;
      var before := Run(start, steps[..n]).value;
      WasteIsCovered(start, steps[..n], before, cluster);
      SystemHolds(start, steps[..n], before);
      WasteCosts(before, steps[n], cluster);
    }
  }

  /** Leakage: every live cluster but one costs a reconcile that created a cluster and ended without a
      successful patch afterwards, or a lost reply to such a create. The same holds for every VPC ever
      created. */
  lemma LeaksAreCovered(start: World, steps: seq<Step>, w: World)
    requires Reachable(start, steps, w)
    ensures |LiveClusters(w)| <= 1 + Count(start, steps, LosesCluster)
    ensures |w.plane.hist.vpcs| <= 1 + Count(start, steps, LosesVpc)
  {
    LiveClustersAreBounded(start, steps, w);
    VpcsAreBounded(start, steps, w);
    RunIsCovered(start, steps, w);
  }

  /** Public IPs: every one made for a cluster but one costs a bind that failed for that cluster, a crash of its
      reconcile between create and bind, or a lost reply to a create for it. */
  lemma EipsAreCovered(start: World, steps: seq<Step>, w: World, cluster: Id)
    requires Reachable(start, steps, w)
    ensures |EipsOf(w, cluster)| <= 1 + Count(start, steps, (v, s) => WastesEip(cluster, v, s))
  {
    EipsAreBounded(start, steps, w, cluster);
    WasteIsCovered(start, steps, w, cluster);
  }

  /** Creation events are counted exactly: one for each step at which a True Creating condition, as held, ends. */
  lemma {:induction false} AnnouncementsAreCounted(start: World, steps: seq<Step>, w: World)
    requires Reachable(start, steps, w)
    ensures w.plane.hist.announcements == Count(start, steps, EndsCreating)
    decreases |steps|
  {
    if steps != [] {
      var n := |steps| - 1;
      var before := Run(start, steps[..n]).value;
      AnnouncementsAreCounted(start, steps[..n], before);
      SystemHolds(start, steps[..n], before);
      StepAnnounces(before, steps[n]);
    }
  }

  /** Creation events never exceed the created clusters plus the reconciles that lost a write. */
  lemma AnnouncementsAreCovered(start: World, steps: seq<Step>, w: World)
    requires Reachable(start, steps, w)
    ensures w.plane.hist.announcements <= Count(start, steps, CreatesCluster) + Count(start, steps, LosesWrite)
  {
    CreationsAreAnnouncedOnce(start, steps, w);
    RunIsCovered(start, steps, w);
  }
}
