/** The network of a control plane: which subnet it ends up with, and how many a VPC can hold. */
module Networks {
  import opened Types
  import opened Protocol
  import opened Invariants
  import opened Footprints
  import opened Leakage
  import CP = ControlPlaneProgram
  import Frames = ControlPlaneFrames

  /** A VPC that the controller created holds at most one subnet, and it is one that would conflict. */
  predicate OneSubnetEach(h: PlaneHistory, c: Cloud) {
    && (forall id :: id in c.subnets && c.subnets[id].vpc in h.vpcs ==> c.subnets[id].overlaps)
    && (forall i, j :: i in c.subnets && j in c.subnets && c.subnets[i].vpc in h.vpcs && c.subnets[j].vpc == c.subnets[i].vpc
          ==> i == j)
  }

  /** The recorded subnet is the user's choice or lies in the recorded VPC. */
  predicate SubnetFits(c: Cloud, m: ControlPlane, users: Id) {
    var id := m.spec.subnetId;
    id != NO_ID && id != users ==> id in c.subnets && c.subnets[id].vpc == m.spec.vpcId
  }

  predicate NetworkInv(p: Plane, c: Cloud, users: Id) {
    && OneSubnetEach(p.hist, c)
    && SubnetFits(c, p.obj, users)
    && SubnetFits(c, Tracked(p), users)
  }

  lemma NewVpcIsEmpty(h: PlaneHistory, c: Cloud, made: Made<()>)
    requires CloudInv(c) && FreshIfMade(c, made) && OneSubnetEach(h, c)
    ensures OneSubnetEach(NetworkHistory(h, CP.CreateVpc(made)), c)
  {
  }

  /** A subnet is made only where no conflicting one is, so the VPC had none if the controller created it. */
  lemma NewSubnetIsAlone(h: PlaneHistory, c: Cloud, vpc: Id, id: Id)
    requires Fresh(c, id) && !Conflict(c, vpc) && OneSubnetEach(h, c)
    ensures OneSubnetEach(h, c.(subnets := c.subnets[id := SubnetInfo(vpc, true)]))
  {
  }

  lemma SubnetStillFits(c: Cloud, f: CP.CPFrame, s: CP.NetworkStep, users: Id)
    requires CloudInv(c) && CP.NetworkGuard(f, s) && NetworkAllowed(c, f.mem, s)
    requires SubnetFits(c, f.mem, users)
    ensures SubnetFits(NetworkCloud(c, f.mem, s), CP.NetworkAdvance(f, s).0, users)
  {
  }

  lemma NetworkStepKeeps(h: PlaneHistory, c: Cloud, f: CP.CPFrame, s: CP.NetworkStep, users: Id)
    requires CloudInv(c) && CP.NetworkGuard(f, s) && NetworkAllowed(c, f.mem, s)
    requires OneSubnetEach(h, c) && SubnetFits(c, f.mem, users)
    ensures OneSubnetEach(NetworkHistory(h, s), NetworkCloud(c, f.mem, s))
    ensures SubnetFits(NetworkCloud(c, f.mem, s), CP.NetworkAdvance(f, s).0, users)
  {
    SubnetStillFits(c, f, s, users);
    match s
    case CreateVpc(made) => NewVpcIsEmpty(h, c, made);
    case CreateSubnet(SubnetMade(id)) => NewSubnetIsAlone(h, c, f.mem.spec.vpcId, id);
    case CreateSubnet(SubnetLost(id)) => NewSubnetIsAlone(h, c, f.mem.spec.vpcId, id);
    case _ =>
  }

  /** Subnets are never removed by a control-plane step. */
  lemma SubnetsStay(p: Plane, c: Cloud, move: PlaneMove, labelled: nat)
    requires CloudInv(c) && PlaneEnabled(p, c, labelled, move)
    ensures forall id :: id in c.subnets ==>
              id in PlaneCloud(p, c, move).subnets && PlaneCloud(p, c, move).subnets[id] == c.subnets[id]
  {
  }

  lemma OthersKeepNetwork(p: Plane, c: Cloud, f: CP.CPFrame, s: CP.CPStep)
    requires p.inFlight == Some(f) && CP.CPGuard(f, s) && Frames.ModeInv(f.mem, f.pc) && !s.Network?
    ensures CP.Advance(f, s).0.spec.vpcId == f.mem.spec.vpcId && CP.Advance(f, s).0.spec.subnetId == f.mem.spec.subnetId
    ensures PlaneEffect(p, f, s).hist.vpcs == p.hist.vpcs
    ensures PlaneCloud(p, c, Do(s)).subnets == c.subnets
  {
    match s
    case Common(s') => CommonSpares(f, s');
    case Cluster(s') => ClusterSpares(f, s');
    case Access(s') => AccessSpares(f, s');
    case Teardown(s') => TeardownSpares(f, s');
  }

  lemma NetworkKeptByNetwork(p: Plane, c: Cloud, f: CP.CPFrame, s: CP.NetworkStep, labelled: nat, users: Id)
    requires CloudInv(c) && p.inFlight == Some(f) && PlaneEnabled(p, c, labelled, Do(CP.Network(s)))
    requires NetworkInv(p, c, users)
    ensures NetworkInv(PlaneAfter(p, c, labelled, Do(CP.Network(s))), PlaneCloud(p, c, Do(CP.Network(s))), users)
  {
    SubnetsStay(p, c, Do(CP.Network(s)), labelled);
    NetworkStepKeeps(p.hist, c, f, s, users);
  }

  /** The other steps leave the network alone; a patch may persist the subnet that is held. */
  lemma NetworkKeptByOthers(p: Plane, c: Cloud, f: CP.CPFrame, s: CP.CPStep, labelled: nat, users: Id)
    requires p.inFlight == Some(f) && PlaneEnabled(p, c, labelled, Do(s)) && Frames.ModeInv(f.mem, f.pc) && !s.Network?
    requires NetworkInv(p, c, users)
    ensures NetworkInv(PlaneAfter(p, c, labelled, Do(s)), PlaneCloud(p, c, Do(s)), users)
  {
    OthersKeepNetwork(p, c, f, s);
    assert PlaneEffect(p, f, s).obj.spec == p.obj.spec || PlaneEffect(p, f, s).obj.spec == f.mem.spec;
  }

  lemma NetworkKeptByDo(p: Plane, c: Cloud, labelled: nat, s: CP.CPStep, users: Id)
    requires Base(p, c) && FrameOk(p) && PlaneEnabled(p, c, labelled, Do(s))
    requires NetworkInv(p, c, users)
    ensures NetworkInv(PlaneAfter(p, c, labelled, Do(s)), PlaneCloud(p, c, Do(s)), users)
  {
    match s
    case Network(n) => NetworkKeptByNetwork(p, c, p.inFlight.value, n, labelled, users);
    case _ => NetworkKeptByOthers(p, c, p.inFlight.value, s, labelled, users);
  }

  lemma NetworkKeptByPlane(p: Plane, c: Cloud, labelled: nat, move: PlaneMove, users: Id)
    requires Base(p, c) && FrameOk(p) && PlaneEnabled(p, c, labelled, move)
    requires NetworkInv(p, c, users)
    ensures NetworkInv(PlaneAfter(p, c, labelled, move), PlaneCloud(p, c, move), users)
  {
    match move
    case Do(s) => NetworkKeptByDo(p, c, labelled, s, users);
    case _ =>
  }

  lemma NetworkKeptByCloud(p: Plane, c: Cloud, s: CloudStep, users: Id)
    requires CloudInv(c) && CloudEnabled(p, c, s) && NetworkInv(p, c, users)
    ensures NetworkInv(p, CloudAfter(p, c, s), users)
  {
  }

  lemma NetworkKept(w: World, s: Step, users: Id)
    requires Base(w.plane, w.cloud) && FrameOk(w.plane) && Enabled(w, s)
    requires NetworkInv(w.plane, w.cloud, users)
    ensures NetworkInv(Apply(w, s).plane, Apply(w, s).cloud, users)
  {
    match s
    case User(u) =>
    case ByCloud(change) => NetworkKeptByCloud(w.plane, w.cloud, change, users);
    case ByPlane(move) => NetworkKeptByPlane(w.plane, w.cloud, |Labelled(w.fleet)|, move, users);
    case ByPool(key, move) => PoolMoves(w.plane, w.fleet, w.cloud, key, move);
    case ByCopy(_) =>
  }
}
