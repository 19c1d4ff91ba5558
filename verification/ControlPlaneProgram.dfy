/** One reconcile of the control plane as a sequence of labelled steps. A label carries the answer that the
    API server or the cloud gave, so what the reconcile does next is a function of its frame (the in-memory
    object and the place in the code) and the label. Whether an answer is possible is decided in Protocol. */
module ControlPlaneProgram {
  import opened Types
  import opened StatusRules
  import opened Endpoints
  import opened Kubeconfigs

  /** The place in the code, named after the call that comes next. A wait knows how many polls it has left. */
  datatype Pc =
    | AtStart
    | AtFinalizerPatch
    | AtServiceInit
    | AtVpc
    | AtVpcPatch
    | AtSubnet
    | AtSubnetAdopt
    | AtCluster
    | AtClusterCreate
    | AtStatus(st: ClusterStatus, shown: Option<ClusterInfo>, again: bool)
    | AtStatusPatch(phase: ClusterPhase, shown: Option<ClusterInfo>, again: bool)
    | AtWait(left: nat)
    | AtWaited
    | AtEipShow
    | AtEipCreate
    | AtEipBind
    | AtFinalShow
    | AtEndpoint(entries: Option<seq<EndpointEntry>>)
    | AtSecretGet
    | AtCert(stored: Option<Kubeconfig>)
    | AtSecretWrite(cfg: Kubeconfig)
    | AtReconciled
    | AtFailing(cond: ConditionType)
    | AtDeleteList
    | AtDeleteInit
    | AtDeleteShow
    | AtDeleteCall
    | AtDeleteWait(left: nat)
    | AtDeleteDone
    | Closing(exit: Exit)

  /** The steps of the reconciler itself and of the scope. */
  datatype CommonStep =
    | CheckInfrastructure(infraReady: bool)
    | Patch(saved: bool)
    | NewService(ok: bool)
    | MarkReady
    | MarkFailed

  /** VPC.0204 is the answer to a subnet that already exists or overlaps another one. */
  datatype SubnetReply = SubnetMade(id: Id) | SubnetConflict | SubnetFailed | SubnetLost(lost: Id)

  /** The steps of vpc.go, subnets.go and network.go. */
  datatype NetworkStep =
    | StartVpc
    | CreateVpc(vpc: Made<()>)
    | VpcDone
    | CreateSubnet(subnet: SubnetReply)
    | ListSubnets(ids: Option<seq<Id>>)
    | SubnetDone

  /** The steps of cluster.go up to a settled status; ShowCluster also serves the deletion. */
  datatype ClusterStep =
    | ShowCluster(answer: Shown<ClusterInfo>)
    | CreateCluster(cluster: Made<ClusterStatus>)
    | ObserveStatus
    | GiveUp

  /** The steps of eip.go, of the endpoint loops and of config.go. */
  datatype AccessStep =
    | ShowEndpoints(public: Option<bool>)
    | CreateEip(eip: Made<()>)
    | BindEip(bound: bool)
    | ChooseEndpoint
    | GetSecret(read: Option<Option<Kubeconfig>>)
    | CreateCert(creds: Option<Credentials>)
    | WriteSecret(written: bool)

  /** The steps of the deletion. */
  datatype TeardownStep =
    | ListPools(count: Option<nat>)
    | SkipDelete
    | DeleteCluster(removal: Removal)
    | RemoveFinalizer

  datatype CPStep =
    | Common(common: CommonStep)
    | Network(network: NetworkStep)
    | Cluster(cluster: ClusterStep)
    | Access(access: AccessStep)
    | Teardown(teardown: TeardownStep)

  /** `clean` says that every answer so far was the hoped-for one, `creates` counts the create calls issued,
      and `chosen` holds the endpoint list that the endpoint loops went over, if they have run. */
  datatype CPFrame = CPFrame(
    mem: ControlPlane,
    pc: Pc,
    clean: bool,
    creates: nat,
    chosen: Option<Option<seq<EndpointEntry>>>)

  function WithCondition(m: ControlPlane, c: ConditionType, cond: Condition): ControlPlane {
    m.(status := m.status.(conds := m.status.conds[c := cond]))
  }

  // ---------------------------------------------------------------- the reconciler and the scope

  predicate CommonGuard(f: CPFrame, s: CommonStep) {
    match s
    case CheckInfrastructure(_) => f.pc.AtStart?
    case Patch(_) => f.pc.AtFinalizerPatch? || f.pc.AtVpcPatch? || f.pc.AtStatusPatch?
    case NewService(_) => f.pc.AtServiceInit? || f.pc.AtDeleteInit?
    case MarkReady => f.pc.AtReconciled?
    case MarkFailed => f.pc.AtFailing?
  }

  /** What follows a status that was applied and saved: wait for a cluster that is being made or upgraded;
      stop when not ready; otherwise go on to the endpoints. The code dereferences the shown cluster, its
      endpoints and EndpointAccess without checking them. */
  function AfterStatus(m: ControlPlane, phase: ClusterPhase, shown: Option<ClusterInfo>, again: bool): Pc {
    if !again && (phase == Creating || phase == Upgrading) then AtWait(MAX_POLLS)
    else if !m.status.ready then AtReconciled
    else if shown.None? || shown.value.endpoints.None? || m.spec.publicAccess.None? then Closing(Panicked)
    else if m.spec.publicAccess.value.GetOr(true) then AtEipShow
    else AtFinalShow
  }

  function AfterPatch(f: CPFrame, saved: bool): Pc {
    match f.pc
    case AtFinalizerPatch => if saved then AtServiceInit else Closing(Errored)
    case AtVpcPatch => if saved then AtVpc else AtFailing(VpcReady)
    case AtStatusPatch(phase, shown, again) =>
      if saved then AfterStatus(f.mem, phase, shown, again) else AtFailing(ControlPlaneReady)
    case _ => f.pc
  }

  function FailureReason(c: ConditionType): Reason {
    match c
    case VpcReady => VpcReconciliationFailedReason
    case SubnetsReady => SubnetsReconciliationFailedReason
    case _ => ControlPlaneReconciliationFailedReason
  }

  function CommonAdvance(f: CPFrame, s: CommonStep): (ControlPlane, Pc)
    requires CommonGuard(f, s)
  {
    match s
    case CheckInfrastructure(infraReady) =>
      if !infraReady then (f.mem, Closing(Requeued))
      else if f.mem.finalizer then (f.mem, AtServiceInit)
      else (f.mem.(finalizer := true), AtFinalizerPatch)
    case Patch(saved) => (f.mem, AfterPatch(f, saved))
    case NewService(ok) =>
      (f.mem, if !ok then Closing(Errored) else if f.pc.AtServiceInit? then AtVpc else AtDeleteShow)
    case MarkReady => (WithCondition(f.mem, ControlPlaneReady, TRUE_CONDITION), Closing(Finished))
    case MarkFailed => (WithCondition(f.mem, f.pc.cond, Condition(false, FailureReason(f.pc.cond))), Closing(Errored))
  }

  predicate CommonHoped(s: CommonStep) {
    match s
    case CheckInfrastructure(infraReady) => infraReady
    case Patch(saved) => saved
    case NewService(ok) => ok
    case _ => true
  }

  // ---------------------------------------------------------------- network

  predicate NetworkGuard(f: CPFrame, s: NetworkStep) {
    match s
    case StartVpc => f.pc.AtVpc? && f.mem.spec.vpcId == NO_ID && VpcReady !in f.mem.status.conds
    case CreateVpc(_) => f.pc.AtVpc? && f.mem.spec.vpcId == NO_ID && VpcReady in f.mem.status.conds
    case VpcDone => f.pc.AtVpc? && f.mem.spec.vpcId != NO_ID
    case CreateSubnet(_) => f.pc.AtSubnet? && f.mem.spec.subnetId == NO_ID
    case ListSubnets(_) => f.pc.AtSubnetAdopt?
    case SubnetDone => f.pc.AtSubnet? && f.mem.spec.subnetId != NO_ID
  }

  function NetworkAdvance(f: CPFrame, s: NetworkStep): (ControlPlane, Pc)
    requires NetworkGuard(f, s)
  {
    var m := f.mem;
    match s
    case StartVpc => (WithCondition(m, VpcReady, Condition(false, VpcCreationStartedReason)), AtVpcPatch)
    case CreateVpc(vpc) =>
      if vpc.Done? then (m.(spec := m.spec.(vpcId := vpc.id)), AtVpc) else (m, AtFailing(VpcReady))
    case VpcDone => (WithCondition(m, VpcReady, TRUE_CONDITION), AtSubnet)
    case CreateSubnet(subnet) => (match subnet
      case SubnetMade(id) => (m.(spec := m.spec.(subnetId := id)), AtSubnet)
      case SubnetConflict => (m, AtSubnetAdopt)
      case _ => (m, AtFailing(SubnetsReady)))
    case ListSubnets(ids) =>
      if ids.None? then (m, AtFailing(SubnetsReady))
      else if ids.value == [] then (m, Closing(Panicked))
      else (m.(spec := m.spec.(subnetId := ids.value[0])), AtSubnet)
    case SubnetDone => (WithCondition(m, SubnetsReady, TRUE_CONDITION), AtCluster)
  }

  predicate NetworkHoped(s: NetworkStep) {
    match s
    case CreateVpc(vpc) => vpc.Done?
    case CreateSubnet(subnet) => subnet.SubnetConflict? || subnet.SubnetMade?
    case ListSubnets(ids) => ids.Some? && ids.value != []
    case _ => true
  }

  // ---------------------------------------------------------------- cluster

  predicate AtShow(pc: Pc) {
    || pc.AtCluster? || (pc.AtWait? && pc.left > 0) || pc.AtWaited? || pc.AtFinalShow?
    || pc.AtDeleteShow? || (pc.AtDeleteWait? && pc.left > 0)
  }

  predicate ClusterGuard(f: CPFrame, s: ClusterStep) {
    match s
    case ShowCluster(_) => AtShow(f.pc) && f.mem.clusterId != NO_ID
    case CreateCluster(_) => f.pc.AtClusterCreate? || (f.pc.AtCluster? && f.mem.clusterId == NO_ID)
    case ObserveStatus => f.pc.AtStatus?
    case GiveUp => (f.pc.AtWait? || f.pc.AtDeleteWait?) && f.pc.left == 0
  }

  function AfterFound(pc: Pc, info: ClusterInfo): Pc
    requires AtShow(pc)
  {
    match pc
    case AtCluster => AtStatus(info.status, Some(info), false)
    case AtWait(n) => if info.status.phase == Available then AtWaited else AtWait(n - 1)
    case AtWaited => AtStatus(info.status, Some(info), true)
    case AtFinalShow => AtEndpoint(info.endpoints)
    case AtDeleteShow => AtDeleteCall
    case AtDeleteWait(n) => if info.status.phase == Deleting then AtDeleteWait(n - 1) else AtDeleteDone
    case _ => pc
  }

  /** A 404: make the cluster, or be done deleting it; elsewhere the code dereferences the missing answer. */
  function AfterMissing(pc: Pc): Pc {
    if pc.AtCluster? then AtClusterCreate
    else if pc.AtDeleteShow? || pc.AtDeleteWait? then AtDeleteDone
    else Closing(Panicked)
  }

  function AfterShow(pc: Pc, answer: Shown<ClusterInfo>): Pc
    requires AtShow(pc)
  {
    match answer
    case Found(info) => AfterFound(pc, info)
    case Missing => AfterMissing(pc)
    case ShowFailed => if pc.AtDeleteShow? || pc.AtDeleteWait? then Closing(Errored) else AtFailing(ControlPlaneReady)
  }

  function ClusterAdvance(f: CPFrame, s: ClusterStep): (ControlPlane, Pc)
    requires ClusterGuard(f, s)
  {
    var m := f.mem;
    match s
    case ShowCluster(answer) => (m, AfterShow(f.pc, answer))
    case CreateCluster(cluster) =>
      if cluster.Done?
      then (WithCondition(m.(clusterId := cluster.id), ControlPlaneCreating, TRUE_CONDITION), AtStatus(cluster.value, None, false))
      else (m, AtFailing(ControlPlaneReady))
    case ObserveStatus =>
      if Recognised(f.pc.st.phase)
      then (m.(status := Observe(m.status, f.pc.st)), AtStatusPatch(f.pc.st.phase, f.pc.shown, f.pc.again))
      else (m, AtFailing(ControlPlaneReady))
    case GiveUp => (m, if f.pc.AtDeleteWait? then Closing(Errored) else AtFailing(ControlPlaneReady))
  }

  predicate HopedInfo(info: ClusterInfo) {
    || info.status.phase == Creating || info.status.phase == Upgrading
    || (info.status.phase == Available && info.endpoints.Some?)
  }

  /** A new cluster is being made; one that is being made or upgraded turns Available before the polls run
      out, stays so, and reports endpoints that parse. */
  predicate ClusterHoped(f: CPFrame, s: ClusterStep) {
    match s
    case ShowCluster(answer) => (match f.pc
      case AtCluster => answer.Missing? || (answer.Found? && HopedInfo(answer.value))
      case AtWait(n) => answer.Found? && (answer.value.status.phase == Available || n > 1)
      case AtWaited => answer.Found? && answer.value.status.phase == Available && answer.value.endpoints.Some?
      case AtFinalShow => answer.Found? && Choose(answer.value.endpoints, f.mem.spec.endpoint).1
      case _ => !answer.ShowFailed?)
    case CreateCluster(cluster) => cluster.Done? && cluster.value.phase == Creating
    case GiveUp => false
    case ObserveStatus => true
  }

  // ---------------------------------------------------------------- EIP, endpoint, kubeconfig

  predicate AccessGuard(f: CPFrame, s: AccessStep) {
    match s
    case ShowEndpoints(_) => f.pc.AtEipShow?
    case CreateEip(_) => f.pc.AtEipCreate?
    case BindEip(_) => f.pc.AtEipBind?
    case ChooseEndpoint => f.pc.AtEndpoint?
    case GetSecret(_) => f.pc.AtSecretGet?
    case CreateCert(_) => f.pc.AtCert?
    case WriteSecret(_) => f.pc.AtSecretWrite?
  }

  /** The kubeconfig that a new certificate leads to; the update path indexes a missing user without a check. */
  function NewConfig(m: ControlPlane, stored: Option<Kubeconfig>, creds: Credentials): Option<Kubeconfig> {
    match stored
    case None => Some(Base(m.name, m.spec.endpoint, creds))
    case Some(cfg) => if UserName(m.name) in cfg.authInfos then Some(Renew(cfg, UserName(m.name), creds)) else None
  }

  function AccessAdvance(f: CPFrame, s: AccessStep): (ControlPlane, Pc)
    requires AccessGuard(f, s)
  {
    var m := f.mem;
    var failing := AtFailing(ControlPlaneReady);
    match s
    case ShowEndpoints(public) =>
      (m, if public.None? then failing else if public.value then AtFinalShow else AtEipCreate)
    case CreateEip(eip) =>
      if eip.Done? then (m.(status := m.status.(eip := eip.id)), AtEipBind) else (m, failing)
    case BindEip(bound) => (m, if bound then AtFinalShow else failing)
    case ChooseEndpoint =>
      var (ep, ok) := Choose(f.pc.entries, m.spec.endpoint);
      (m.(spec := m.spec.(endpoint := ep)), if ok then AtSecretGet else failing)
    case GetSecret(read) => (m, if read.None? then failing else AtCert(read.value))
    case CreateCert(creds) =>
      if creds.None? then (m, failing)
      else
        var cfg := NewConfig(m, f.pc.stored, creds.value);
        (m, if cfg.None? then Closing(Panicked) else AtSecretWrite(cfg.value))
    case WriteSecret(written) =>
      if written then (m.(status := m.status.(initialized := true)), AtReconciled) else (m, failing)
  }

  predicate AccessHoped(s: AccessStep) {
    match s
    case ShowEndpoints(public) => public.Some?
    case CreateEip(eip) => eip.Done?
    case BindEip(bound) => bound
    case ChooseEndpoint => true
    case GetSecret(read) => read.Some?
    case CreateCert(creds) => creds.Some?
    case WriteSecret(written) => written
  }

  // ---------------------------------------------------------------- deletion

  predicate TeardownGuard(f: CPFrame, s: TeardownStep) {
    match s
    case ListPools(_) => f.pc.AtDeleteList?
    case SkipDelete => f.pc.AtDeleteShow? && f.mem.clusterId == NO_ID
    case DeleteCluster(_) => f.pc.AtDeleteCall?
    case RemoveFinalizer => f.pc.AtDeleteDone?
  }

  function TeardownAdvance(f: CPFrame, s: TeardownStep): (ControlPlane, Pc)
    requires TeardownGuard(f, s)
  {
    match s
    case ListPools(count) =>
      (f.mem, if count.None? then Closing(Errored) else if count.value > 0 then Closing(Requeued) else AtDeleteInit)
    case SkipDelete => (f.mem, AtDeleteDone)
    case DeleteCluster(removal) => (f.mem, match removal
      case Accepted => AtDeleteWait(MAX_POLLS)
      case NotFound => AtDeleteDone
      case RemovalFailed => Closing(Errored))
    case RemoveFinalizer => (f.mem.(finalizer := false), Closing(Finished))
  }

  predicate TeardownHoped(s: TeardownStep) {
    match s
    case ListPools(count) => count == Some(0)
    case DeleteCluster(removal) => !removal.RemovalFailed?
    case _ => true
  }

  // ---------------------------------------------------------------- all steps

  /** The conditions that the code tests before it makes the step. */
  predicate CPGuard(f: CPFrame, s: CPStep) {
    match s
    case Common(c) => CommonGuard(f, c)
    case Network(n) => NetworkGuard(f, n)
    case Cluster(c) => ClusterGuard(f, c)
    case Access(a) => AccessGuard(f, a)
    case Teardown(t) => TeardownGuard(f, t)
  }

  /** The in-memory object and the place in the code after a step. */
  function Advance(f: CPFrame, s: CPStep): (ControlPlane, Pc)
    requires CPGuard(f, s)
  {
    match s
    case Common(c) => CommonAdvance(f, c)
    case Network(n) => NetworkAdvance(f, n)
    case Cluster(c) => ClusterAdvance(f, c)
    case Access(a) => AccessAdvance(f, a)
    case Teardown(t) => TeardownAdvance(f, t)
  }

  predicate Hoped(f: CPFrame, s: CPStep) {
    match s
    case Common(c) => CommonHoped(c)
    case Network(n) => NetworkHoped(n)
    case Cluster(c) => ClusterHoped(f, c)
    case Access(a) => AccessHoped(a)
    case Teardown(t) => TeardownHoped(t)
  }

  predicate IsCreate(s: CPStep) {
    || (s.Network? && (s.network.CreateVpc? || s.network.CreateSubnet?))
    || (s.Cluster? && s.cluster.CreateCluster?)
    || (s.Access? && s.access.CreateEip?)
  }

  /** The frame after a step. */
  function CPNext(f: CPFrame, s: CPStep): CPFrame
    requires CPGuard(f, s)
  {
    var (m, pc) := Advance(f, s);
    CPFrame(
      m,
      pc,
      f.clean && Hoped(f, s),
      if IsCreate(s) then f.creates + 1 else f.creates,
      if s == Access(ChooseEndpoint) then Some(f.pc.entries) else f.chosen)
  }

  /** The frame with which a reconcile starts: a fresh read of the persisted object. */
  function CPOpened(cp: ControlPlane): CPFrame {
    CPFrame(cp, if cp.deleting then AtDeleteList else AtStart, true, 0, None)
  }
}
