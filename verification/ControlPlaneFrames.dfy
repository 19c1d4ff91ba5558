/** What every frame of a control-plane reconcile satisfies, whatever the answers are. */
module ControlPlaneFrames {
  import opened Types
  import opened Kubeconfigs
  import opened ControlPlaneProgram

  predicate InDeletion(pc: Pc) {
    pc.AtDeleteList? || pc.AtDeleteInit? || pc.AtDeleteShow? || pc.AtDeleteCall? || pc.AtDeleteWait? || pc.AtDeleteDone?
  }

  /** Places that are reached only with a cluster id. */
  predicate PastCluster(pc: Pc) {
    || pc.AtStatus? || pc.AtStatusPatch? || pc.AtWait? || pc.AtWaited? || pc.AtReconciled? || Serving(pc)
    || pc.AtDeleteCall? || pc.AtDeleteWait?
  }

  /** Places that are reached only by a ready control plane. */
  predicate Serving(pc: Pc) {
    || pc.AtEipShow? || pc.AtEipCreate? || pc.AtEipBind? || pc.AtFinalShow? || pc.AtEndpoint?
    || pc.AtSecretGet? || pc.AtCert? || pc.AtSecretWrite?
  }

  /** A ready control plane has a cluster id. */
  predicate ReadyHasId(m: ControlPlane) {
    m.status.ready ==> m.clusterId != NO_ID
  }

  /** The ids recorded so far, in the order in which the code obtains them. */
  predicate IdsInv(m: ControlPlane, pc: Pc) {
    && ReadyHasId(m)
    && (pc.AtSubnet? || pc.AtSubnetAdopt? ==> m.spec.vpcId != NO_ID && VpcReady in m.status.conds)
    && (pc.AtSubnetAdopt? ==> m.spec.subnetId == NO_ID)
    && (pc.AtCluster? || pc.AtClusterCreate? || (PastCluster(pc) && !InDeletion(pc)) ==>
          m.spec.vpcId != NO_ID && m.spec.subnetId != NO_ID)
    && (PastCluster(pc) ==> m.clusterId != NO_ID)
    && (Serving(pc) ==> m.status.ready)
  }

  /** The deletion path is taken exactly by a deleted object, and the finalizer leaves memory only at its end. */
  predicate ModeInv(m: ControlPlane, pc: Pc) {
    && (!pc.Closing? ==> (m.deleting <==> InDeletion(pc)))
    && (!pc.Closing? && !pc.AtStart? ==> m.finalizer)
    && (m.deleting && !m.finalizer ==> pc == Closing(Finished))
    && (pc.AtFailing? ==> pc.cond in {VpcReady, SubnetsReady, ControlPlaneReady})
  }

  predicate SecretInv(m: ControlPlane, pc: Pc) {
    && (pc.AtCert? && pc.stored.Some? ==> Usable(pc.stored.value, m.name))
    && (pc.AtSecretWrite? ==> Usable(pc.cfg, m.name))
  }

  predicate FrameInv(m: ControlPlane, pc: Pc) {
    IdsInv(m, pc) && ModeInv(m, pc) && SecretInv(m, pc)
  }

  /** The ids in an answer are not empty, and a secret that is read is one this controller wrote. */
  predicate SoundAnswer(m: ControlPlane, s: CPStep) {
    match s
    case Network(CreateVpc(Done(id, _))) => id != NO_ID
    case Network(CreateSubnet(SubnetMade(id))) => id != NO_ID
    case Network(ListSubnets(Some(ids))) => NO_ID !in ids
    case Cluster(CreateCluster(Done(id, _))) => id != NO_ID
    case Access(GetSecret(Some(Some(cfg)))) => Usable(cfg, m.name)
    case _ => true
  }

  lemma FrameInvOpens(cp: ControlPlane)
    requires ReadyHasId(cp) && (cp.deleting ==> cp.finalizer)
    ensures FrameInv(CPOpened(cp).mem, CPOpened(cp).pc)
  {
  }

  lemma CommonKeepsFrame(f: CPFrame, s: CommonStep)
    requires FrameInv(f.mem, f.pc) && CommonGuard(f, s)
    ensures FrameInv(CommonAdvance(f, s).0, CommonAdvance(f, s).1)
  {
  }

  lemma SubnetKeepsIds(f: CPFrame, s: NetworkStep)
    requires IdsInv(f.mem, f.pc) && NetworkGuard(f, s) && SoundAnswer(f.mem, Network(s))
    requires s.CreateSubnet? || s.ListSubnets? || s.SubnetDone?
    ensures IdsInv(NetworkAdvance(f, s).0, NetworkAdvance(f, s).1)
  {
  }

  lemma NetworkKeepsIds(f: CPFrame, s: NetworkStep)
    requires IdsInv(f.mem, f.pc) && NetworkGuard(f, s) && SoundAnswer(f.mem, Network(s))
    ensures IdsInv(NetworkAdvance(f, s).0, NetworkAdvance(f, s).1)
  {
    if s.CreateSubnet? || s.ListSubnets? || s.SubnetDone? {
      SubnetKeepsIds(f, s);
    }
  }

  lemma NetworkKeepsFrame(f: CPFrame, s: NetworkStep)
    requires FrameInv(f.mem, f.pc) && NetworkGuard(f, s) && SoundAnswer(f.mem, Network(s))
    ensures FrameInv(NetworkAdvance(f, s).0, NetworkAdvance(f, s).1)
  {
    NetworkKeepsIds(f, s);
  }

  lemma ClusterKeepsFrame(f: CPFrame, s: ClusterStep)
    requires FrameInv(f.mem, f.pc) && ClusterGuard(f, s) && SoundAnswer(f.mem, Cluster(s))
    ensures FrameInv(ClusterAdvance(f, s).0, ClusterAdvance(f, s).1)
  {
  }

  lemma AccessKeepsSecret(f: CPFrame, s: AccessStep)
    requires SecretInv(f.mem, f.pc) && AccessGuard(f, s) && SoundAnswer(f.mem, Access(s))
    ensures SecretInv(AccessAdvance(f, s).0, AccessAdvance(f, s).1)
  {
    if s.CreateCert? && s.creds.Some? && f.pc.stored.None? {
      BaseIsUsable(f.mem.name, f.mem.spec.endpoint, s.creds.value);
    }
  }

  lemma AccessKeepsFrame(f: CPFrame, s: AccessStep)
    requires FrameInv(f.mem, f.pc) && AccessGuard(f, s) && SoundAnswer(f.mem, Access(s))
    ensures FrameInv(AccessAdvance(f, s).0, AccessAdvance(f, s).1)
  {
    AccessKeepsSecret(f, s);
  }

  lemma TeardownKeepsFrame(f: CPFrame, s: TeardownStep)
    requires FrameInv(f.mem, f.pc) && TeardownGuard(f, s)
    ensures FrameInv(TeardownAdvance(f, s).0, TeardownAdvance(f, s).1)
  {
  }

  lemma FrameInvSteps(f: CPFrame, s: CPStep)
    requires FrameInv(f.mem, f.pc) && CPGuard(f, s) && SoundAnswer(f.mem, s)
    ensures FrameInv(Advance(f, s).0, Advance(f, s).1)
  {
    match s
    case Common(c) => CommonKeepsFrame(f, c);
    case Network(n) => NetworkKeepsFrame(f, n);
    case Cluster(c) => ClusterKeepsFrame(f, c);
    case Access(a) => AccessKeepsFrame(f, a);
    case Teardown(t) => TeardownKeepsFrame(f, t);
  }
}
