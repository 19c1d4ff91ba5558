/** Where the public IPs that a control plane created have gone. */
module PublicIps {
  import opened Types
  import opened Protocol
  import opened Invariants
  import opened Footprints
  import opened Leakage
  import CP = ControlPlaneProgram
  import Frames = ControlPlaneFrames

  /** A public IP is bound to the cluster it was created for, about to be bound to it, or wasted. */
  predicate EipsAccounted(h: PlaneHistory, c: Cloud, m: ControlPlane, pc: CP.Pc) {
    && (forall e :: e in h.eips ==>
          || e in h.wastedEips
          || (h.eips[e] in c.eipOf && c.eipOf[h.eips[e]] == e)
          || (pc.AtEipBind? && m.status.eip == e && h.eips[e] == m.clusterId))
    && (pc.AtEipCreate? || pc.AtEipBind? ==> m.clusterId !in c.eipOf)
    && (pc.AtEipBind? ==> m.status.eip in h.eips && h.eips[m.status.eip] == m.clusterId)
    && h.wastedEips <= h.eips.Keys
  }

  /** The recorded public IP is the bound one, unless the write that recorded the bound one was lost. */
  predicate EipRecorded(h: PlaneHistory, c: Cloud, m: ControlPlane) {
    m.clusterId in c.eipOf && c.eipOf[m.clusterId] !in h.lostEips ==> m.status.eip == c.eipOf[m.clusterId]
  }

  /** A public IP whose id was lost is never recorded again: what is held or persisted is none of those. */
  predicate EipsLost(h: PlaneHistory, held: Id, saved: Id) {
    && h.lostEips <= h.eips.Keys && held !in h.lostEips && saved !in h.lostEips
    && (held == saved || held in h.eips)
  }

  predicate LostEipsInv(p: Plane) {
    EipsLost(p.hist, Tracked(p).status.eip, p.obj.status.eip)
  }

  /** The places that come before a public IP is created in a reconcile. */
  predicate BeforeEip(pc: CP.Pc) {
    || pc.AtStart? || pc.AtFinalizerPatch? || pc.AtServiceInit? || pc.AtVpc? || pc.AtVpcPatch? || pc.AtSubnet?
    || pc.AtSubnetAdopt? || pc.AtCluster? || pc.AtClusterCreate? || pc.AtStatus? || pc.AtStatusPatch? || pc.AtWait?
    || pc.AtWaited? || pc.AtEipShow? || pc.AtEipCreate?
  }

  predicate EipInv(p: Plane, c: Cloud) {
    match p.inFlight
    case None => EipsAccounted(p.hist, c, p.obj, CP.AtStart) && EipRecorded(p.hist, c, p.obj)
    case Some(f) =>
      && EipsAccounted(p.hist, c, f.mem, f.pc) && EipRecorded(p.hist, c, f.mem)
      && (BeforeEip(f.pc) ==> f.mem.status.eip == p.obj.status.eip)
      && (EipRecorded(p.hist, c, p.obj) || f.mem.clusterId == p.obj.clusterId)
  }

  lemma LoseKeepsEips(p: Plane, c: Cloud, f: CP.CPFrame)
    requires Base(p, c) && p.inFlight == Some(f) && EipInv(p, c)
    ensures EipInv(Lose(p, f), c)
  {
  }

  lemma AccessKeepsEips(h: PlaneHistory, c: Cloud, f: CP.CPFrame, s: CP.AccessStep)
    requires CloudInv(c) && KnownHistory(c, h) && CP.AccessGuard(f, s)
    requires s.ShowEndpoints? ==> (s.public == Some(false) ==> f.mem.clusterId !in c.eipOf)
    requires s.CreateEip? ==> FreshIfMade(c, s.eip)
    requires EipsAccounted(h, c, f.mem, f.pc) && EipRecorded(h, c, f.mem)
    ensures var h', c', (m, pc) := AccessHistory(h, f.mem, s), AccessCloud(c, f.mem, s), CP.AccessAdvance(f, s);
            EipsAccounted(h', c', m, pc) && EipRecorded(h', c', m)
  {
  }

  /** How an access step concerns the persisted public IP. */
  lemma AccessKeepsPersistedEip(p: Plane, c: Cloud, f: CP.CPFrame, s: CP.AccessStep)
    requires CP.AccessGuard(f, s) && p.inFlight == Some(f) && EipInv(p, c)
    ensures var h', c', (m, pc) := AccessHistory(p.hist, f.mem, s), AccessCloud(c, f.mem, s), CP.AccessAdvance(f, s);
            && (BeforeEip(pc) ==> m.status.eip == p.obj.status.eip)
            && (EipRecorded(h', c', p.obj) || m.clusterId == p.obj.clusterId)
  {
  }

  lemma ClusterKeepsEips(p: Plane, c: Cloud, f: CP.CPFrame, s: CP.ClusterStep)
    requires CloudInv(c) && p.inFlight == Some(f) && CP.ClusterGuard(f, s) && ClusterAllowed(c, f.mem, s)
    requires EipInv(p, c) && Frames.ModeInv(f.mem, f.pc)
    ensures var h', c', (m, pc) := ClusterHistory(p.hist, f, s), ClusterCloud(c, s), CP.ClusterAdvance(f, s);
            && EipsAccounted(h', c', m, pc) && EipRecorded(h', c', m)
            && (BeforeEip(pc) ==> m.status.eip == p.obj.status.eip)
            && (EipRecorded(h', c', p.obj) || m.clusterId == p.obj.clusterId)
  {
    ClusterSpares(f, s);
  }

  /** The other steps leave the public IPs and their history alone, and lead to no place of the EIP code. */
  lemma OthersSpareEips(p: Plane, c: Cloud, f: CP.CPFrame, s: CP.CPStep)
    requires CP.CPGuard(f, s) && p.inFlight == Some(f)
    requires Frames.ModeInv(f.mem, f.pc) && (s.Common? || s.Network? || s.Teardown?)
    ensures var h, h' := p.hist, PlaneEffect(p, f, s).hist;
            && h'.eips == h.eips && h'.wastedEips == h.wastedEips && h'.lostEips == h.lostEips
    ensures PlaneCloud(p, c, Do(s)).eipOf == c.eipOf
    ensures var (m, pc) := CP.Advance(f, s);
            && m.clusterId == f.mem.clusterId && m.status.eip == f.mem.status.eip
            && !pc.AtEipCreate? && !pc.AtEipBind? && (BeforeEip(pc) ==> BeforeEip(f.pc))
  {
    match s
    case Common(s') => CommonSpares(f, s');
    case Network(s') => NetworkSpares(f, s');
    case Teardown(s') => TeardownSpares(f, s');
  }

  lemma OthersKeepEips(p: Plane, c: Cloud, f: CP.CPFrame, s: CP.CPStep)
    requires p.inFlight == Some(f) && CP.CPGuard(f, s)
    requires EipInv(p, c) && Frames.ModeInv(f.mem, f.pc) && (s.Common? || s.Network? || s.Teardown?)
    ensures var q, c', (m, pc) := PlaneEffect(p, f, s), PlaneCloud(p, c, Do(s)), CP.Advance(f, s);
            && EipsAccounted(q.hist, c', m, pc) && EipRecorded(q.hist, c', m)
            && (BeforeEip(pc) ==> m.status.eip == q.obj.status.eip)
            && (EipRecorded(q.hist, c', q.obj) || m.clusterId == q.obj.clusterId)
  {
    OthersSpareEips(p, c, f, s);
    assert !f.pc.AtEipCreate? && !f.pc.AtEipBind?;
  }

  lemma EipKeptByPlane(p: Plane, c: Cloud, labelled: nat, move: PlaneMove)
    requires Base(p, c) && FrameOk(p) && PlaneEnabled(p, c, labelled, move)
    requires EipInv(p, c)
    ensures EipInv(PlaneAfter(p, c, labelled, move), PlaneCloud(p, c, move))
  {
    match move
    case Open =>
    case Leave =>
    case Do(Access(s)) =>
      AccessKeepsEips(p.hist, c, p.inFlight.value, s);
      AccessKeepsPersistedEip(p, c, p.inFlight.value, s);
    case Do(Cluster(s)) => ClusterKeepsEips(p, c, p.inFlight.value, s);
    case Do(s) => OthersKeepEips(p, c, p.inFlight.value, s);
    case Close(_) => LoseKeepsEips(p, c, p.inFlight.value);
    case Crash => LoseKeepsEips(p, c, p.inFlight.value);
  }

  lemma EipKept(w: World, s: Step)
    requires Base(w.plane, w.cloud) && FrameOk(w.plane) && Enabled(w, s)
    requires EipInv(w.plane, w.cloud)
    ensures EipInv(Apply(w, s).plane, Apply(w, s).cloud)
  {
    match s
    case User(u) =>
    case ByCloud(change) => CloudMoves(w.plane, w.cloud, change);
    case ByPlane(move) => EipKeptByPlane(w.plane, w.cloud, |Labelled(w.fleet)|, move);
    case ByPool(key, move) => PoolMoves(w.plane, w.fleet, w.cloud, key, move);
    case ByCopy(_) =>
  }

  // ---------------------------------------------------------------- the lost ones

  lemma AccessLosesNoEip(h: PlaneHistory, c: Cloud, f: CP.CPFrame, s: CP.AccessStep, saved: Id)
    requires h.eips.Keys <= c.used && CP.AccessGuard(f, s) && (s.CreateEip? ==> FreshIfMade(c, s.eip))
    requires EipsLost(h, f.mem.status.eip, saved)
    ensures EipsLost(AccessHistory(h, f.mem, s), CP.AccessAdvance(f, s).0.status.eip, saved)
  {
  }

  lemma AccessKeepsLostEips(p: Plane, c: Cloud, f: CP.CPFrame, s: CP.AccessStep)
    requires p.hist.eips.Keys <= c.used && CP.AccessGuard(f, s) && (s.CreateEip? ==> FreshIfMade(c, s.eip))
    requires p.inFlight == Some(f) && LostEipsInv(p)
    ensures LostEipsInv(PlaneEffect(p, f, CP.Access(s)).(inFlight := Some(CP.CPNext(f, CP.Access(s)))))
  {
    AccessLosesNoEip(p.hist, c, f, s, p.obj.status.eip);
  }

  lemma EndKeepsLostEips(p: Plane, f: CP.CPFrame)
    requires p.inFlight == Some(f) && LostEipsInv(p)
    ensures LostEipsInv(Lose(p, f)) && LostEipsInv(Save(p, f.mem).(inFlight := None))
  {
  }

  lemma DoKeepsLostEips(p: Plane, c: Cloud, f: CP.CPFrame, s: CP.CPStep)
    requires p.inFlight == Some(f) && CP.CPGuard(f, s) && !s.Access? && Frames.ModeInv(f.mem, f.pc) && LostEipsInv(p)
    ensures LostEipsInv(PlaneEffect(p, f, s).(inFlight := Some(CP.CPNext(f, s))))
  {
    match s
    case Cluster(s') => ClusterSpares(f, s');
    case _ => OthersSpareEips(p, c, f, s);
  }

  lemma LostEipsKeptByPlane(p: Plane, c: Cloud, labelled: nat, move: PlaneMove)
    requires Base(p, c) && FrameOk(p) && PlaneEnabled(p, c, labelled, move) && LostEipsInv(p)
    ensures LostEipsInv(PlaneAfter(p, c, labelled, move))
  {
    match move
    case Open =>
    case Leave =>
    case Do(Access(s)) => AccessKeepsLostEips(p, c, p.inFlight.value, s);
    case Do(s) => DoKeepsLostEips(p, c, p.inFlight.value, s);
    case Close(_) => EndKeepsLostEips(p, p.inFlight.value);
    case Crash => EndKeepsLostEips(p, p.inFlight.value);
  }

  /** What is held or persisted is never a public IP whose id was lost. */
  lemma LostEipsKept(w: World, s: Step)
    requires Base(w.plane, w.cloud) && FrameOk(w.plane) && Enabled(w, s) && LostEipsInv(w.plane)
    ensures LostEipsInv(Apply(w, s).plane)
  {
    match s
    case ByPlane(move) => LostEipsKeptByPlane(w.plane, w.cloud, |Labelled(w.fleet)|, move);
    case _ =>
  }
}
