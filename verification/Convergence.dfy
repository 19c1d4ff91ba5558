/** A reconcile that gets the answers it hopes for ends converged, and a reconcile of a converged control
    plane against an unchanged cloud changes nothing. Both are facts about a single frame. */
module Convergence {
  import opened Types
  import opened Endpoints
  import opened Kubeconfigs
  import opened ControlPlaneProgram
  import opened ControlPlaneFrames

  /** Everything reconcileNormal is there to record has been recorded. */
  predicate Converged(m: ControlPlane) {
    && m.finalizer
    && m.spec.vpcId != NO_ID && m.spec.subnetId != NO_ID && m.clusterId != NO_ID
    && m.status.ready && m.status.initialized && m.status.failure == None
    && Holds(m, VpcReady) && Holds(m, SubnetsReady) && Holds(m, ControlPlaneReady)
    && !IsTrue(m.status.conds, ControlPlaneCreating) && !IsTrue(m.status.conds, ControlPlaneUpdating)
  }

  // ---------------------------------------------------------------- the first pass

  predicate HopedStatus(st: ClusterStatus, shown: Option<ClusterInfo>, again: bool) {
    && (st.phase == Available || (!again && (st.phase == Creating || st.phase == Upgrading)))
    && (st.phase == Available ==> shown.Some? && shown.value.endpoints.Some?)
  }

  /** After an Available status. */
  predicate Settled(m: ControlPlane) {
    && m.status.ready && m.status.failure == None
    && !IsTrue(m.status.conds, ControlPlaneCreating) && !IsTrue(m.status.conds, ControlPlaneUpdating)
  }

  /** How far a clean reconcile has come. */
  predicate CleanProgress(m: ControlPlane, pc: Pc) {
    && !pc.AtFailing?
    && (pc.Closing? ==> pc.exit == Finished && Converged(m))
    && (pc.AtSubnet? || pc.AtSubnetAdopt? ==> Holds(m, VpcReady))
    && (pc.AtCluster? || pc.AtClusterCreate? || PastCluster(pc) ==> Holds(m, VpcReady) && Holds(m, SubnetsReady))
    && (pc.AtStatus? ==> HopedStatus(pc.st, pc.shown, pc.again))
    && (pc.AtStatusPatch? ==>
          && (pc.phase == Available || (!pc.again && (pc.phase == Creating || pc.phase == Upgrading)))
          && (pc.phase == Available ==> Settled(m) && pc.shown.Some? && pc.shown.value.endpoints.Some?))
    && (pc.AtWait? ==> pc.left > 0)
    && (Serving(pc) || pc.AtReconciled? ==> Settled(m))
    && (pc.AtReconciled? ==> m.status.initialized)
  }

  /** The endpoints about to be chosen from all parse. */
  predicate Parses(m: ControlPlane, pc: Pc) {
    pc.AtEndpoint? ==> Choose(pc.entries, m.spec.endpoint).1
  }

  /** The reconciles that the convergence result is about: of an object that is not being deleted and whose
      EndpointAccess is set. */
  predicate Applies(m: ControlPlane) {
    !m.deleting && m.spec.publicAccess.Some?
  }

  predicate Promising(m: ControlPlane, pc: Pc) {
    Applies(m) && FrameInv(m, pc) && CleanProgress(m, pc) && Parses(m, pc)
  }

  lemma CleanCommon(f: CPFrame, s: CommonStep)
    requires Promising(f.mem, f.pc) && CommonGuard(f, s) && CommonHoped(s)
    ensures CleanProgress(CommonAdvance(f, s).0, CommonAdvance(f, s).1)
    ensures Parses(CommonAdvance(f, s).0, CommonAdvance(f, s).1)
  {
  }

  lemma CleanNetwork(f: CPFrame, s: NetworkStep)
    requires Promising(f.mem, f.pc) && NetworkGuard(f, s) && NetworkHoped(s)
    ensures CleanProgress(NetworkAdvance(f, s).0, NetworkAdvance(f, s).1)
    ensures Parses(NetworkAdvance(f, s).0, NetworkAdvance(f, s).1)
  {
  }

  lemma CleanCluster(f: CPFrame, s: ClusterStep)
    requires Promising(f.mem, f.pc) && ClusterGuard(f, s) && ClusterHoped(f, s)
    ensures CleanProgress(ClusterAdvance(f, s).0, ClusterAdvance(f, s).1)
    ensures Parses(ClusterAdvance(f, s).0, ClusterAdvance(f, s).1)
  {
  }

  lemma CleanAccess(f: CPFrame, s: AccessStep)
    requires Promising(f.mem, f.pc) && AccessGuard(f, s) && AccessHoped(s)
    ensures CleanProgress(AccessAdvance(f, s).0, AccessAdvance(f, s).1)
    ensures Parses(AccessAdvance(f, s).0, AccessAdvance(f, s).1)
  {
  }

  predicate CleanInv(f: CPFrame) {
    f.clean && Applies(f.mem) ==> CleanProgress(f.mem, f.pc) && Parses(f.mem, f.pc)
  }

  lemma CleanInvOpens(cp: ControlPlane)
    ensures CleanInv(CPOpened(cp))
  {
  }

  /** Along any reconcile, as long as every answer is the hoped-for one, the reconcile is on its way to
      convergence; when it reaches its end, it has converged. */
  lemma CleanInvSteps(f: CPFrame, s: CPStep)
    requires FrameInv(f.mem, f.pc) && CPGuard(f, s) && SoundAnswer(f.mem, s)
    requires CleanInv(f)
    ensures CleanInv(CPNext(f, s))
  {
    if CPNext(f, s).clean && Applies(CPNext(f, s).mem) {
      ModeIsKept(f, s);
      match s
      case Common(c) => CleanCommon(f, c);
      case Network(n) => CleanNetwork(f, n);
      case Cluster(c) => CleanCluster(f, c);
      case Access(a) => CleanAccess(f, a);
      case Teardown(t) => assert false;
    }
  }

  /** No step of a reconcile touches the deletion timestamp, the name or EndpointAccess. */
  lemma ModeIsKept(f: CPFrame, s: CPStep)
    requires CPGuard(f, s)
    ensures CPNext(f, s).mem.deleting == f.mem.deleting
    ensures CPNext(f, s).mem.name == f.mem.name
    ensures CPNext(f, s).mem.spec.publicAccess == f.mem.spec.publicAccess
  {
    match s
    case Common(c) =>
    case Network(n) =>
    case Cluster(c) =>
    case Access(a) =>
    case Teardown(t) =>
  }

  // ---------------------------------------------------------------- the second pass

  /** A converged control plane whose cluster is shown as `info`, with endpoints already chosen from it. */
  predicate Steady(m: ControlPlane, info: ClusterInfo) {
    && Converged(m) && !m.deleting && m.spec.publicAccess.Some?
    && info.status.phase == Available && info.endpoints.Some?
    && Choose(info.endpoints, m.spec.endpoint) == (m.spec.endpoint, true)
  }

  /** An answer of an unchanged cloud to a call that does not fail. */
  predicate SteadyAnswer(m: ControlPlane, info: ClusterInfo, s: CPStep) {
    match s
    case Common(c) => CommonHoped(c)
    case Cluster(ShowCluster(answer)) => answer == Found(info)
    case Access(ShowEndpoints(public)) => public == Some(true)
    case Access(GetSecret(read)) => read.Some? && read.value.Some? && Usable(read.value.value, m.name)
    case Access(a) => AccessHoped(a)
    case _ => true
  }

  predicate SteadyPlace(pc: Pc, info: ClusterInfo) {
    match pc
    case AtStart => true
    case AtServiceInit => true
    case AtVpc => true
    case AtSubnet => true
    case AtCluster => true
    case AtStatus(st, shown, again) => st == info.status && shown == Some(info) && !again
    case AtStatusPatch(phase, shown, again) => phase == Available && shown == Some(info) && !again
    case AtEipShow => true
    case AtFinalShow => true
    case AtEndpoint(entries) => entries == info.endpoints
    case AtSecretGet => true
    case AtCert(_) => true
    case AtSecretWrite(_) => true
    case AtReconciled => true
    case Closing(exit) => exit == Finished
    case _ => false
  }

  /** Neither the in-memory object nor the number of create calls has moved. */
  predicate SteadyFrame(f: CPFrame, m: ControlPlane, info: ClusterInfo) {
    && f.mem == m && f.creates == 0 && SteadyPlace(f.pc, info) && SecretInv(f.mem, f.pc)
    && (f.pc.AtEipShow? ==> m.spec.publicAccess.Some? && m.spec.publicAccess.value.GetOr(true))
  }

  lemma SteadyAccess(f: CPFrame, a: AccessStep, m: ControlPlane, info: ClusterInfo)
    requires Steady(m, info) && SteadyFrame(f, m, info)
    requires AccessGuard(f, a) && SteadyAnswer(m, info, Access(a))
    ensures SteadyFrame(CPNext(f, Access(a)), m, info) && !IsCreate(Access(a))
  {
    if a.CreateCert? && a.creds.Some? && f.pc.stored.None? {
      BaseIsUsable(m.name, m.spec.endpoint, a.creds.value);
    }
  }

  /** Each step of a second pass leaves the object as it is and issues no create. */
  lemma SteadyStep(f: CPFrame, s: CPStep, m: ControlPlane, info: ClusterInfo)
    requires Steady(m, info) && SteadyFrame(f, m, info)
    requires CPGuard(f, s) && SteadyAnswer(m, info, s)
    ensures SteadyFrame(CPNext(f, s), m, info)
    ensures !IsCreate(s)
  {
    assert m.status.conds[VpcReady := TRUE_CONDITION] == m.status.conds;
    assert m.status.conds[SubnetsReady := TRUE_CONDITION] == m.status.conds;
    assert m.status.conds[ControlPlaneReady := TRUE_CONDITION] == m.status.conds;
    match s
    case Common(c) =>
    case Network(n) =>
    case Cluster(c) =>
    case Access(a) => SteadyAccess(f, a, m, info);
    case Teardown(t) =>
  }
}
