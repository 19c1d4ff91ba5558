/** Runs of the system, step by step: a control plane comes up from empty ids without a failed call and with a
    public endpoint; a pool is added that the deletion of the control plane does not count, because it has no
    cluster-name label or because it comes after the count. They show that the reconciles reach their ends, and
    where statements that are stronger than the proved ones fail. */
module Scenario {
  import opened Types
  import opened Endpoints
  import opened Kubeconfigs
  import opened Protocol
  import opened Convergence
  import opened Footprints
  import CP = ControlPlaneProgram
  import NP = PoolProgram

  const VPC := Id("vpc")
  const SUBNET := Id("subnet")
  const CLUSTER := Id("cluster")
  const EIP := Id("eip")
  const NODEPOOL := Id("nodepool")
  const ENDPOINT := APIEndpoint("demo", 5443)

  const FIRST_STATUS := ControlPlaneStatus(false, false, None, NO_ID, map[])
  const FIRST_OBJECT := ControlPlane("demo", false, false, NO_ID, ControlPlaneSpec(NO_ID, NO_ID, Some(Some(true)), ZERO_ENDPOINT), FIRST_STATUS)
  const NO_HISTORY := PlaneHistory(0, 0, {}, {}, {}, {}, 0, 0, map[], {}, {}, {}, [ZERO_ENDPOINT])
  const NO_POOLS := Fleet(map[], map[], FleetHistory({}, {}, {}, map[], {}, map[]))
  const NO_COPY := Mirror(ManagedCluster(false, ZERO_ENDPOINT), None, 0)
  const NOTHING := Cloud({}, map[], map[], map[], map[])

  /** A control plane that a user has just created, in an empty account, with a public endpoint wanted. */
  const FIRST := World(Plane(true, FIRST_OBJECT, None, None, NO_HISTORY), NO_POOLS, NO_COPY, NOTHING)

  ghost predicate Reached(w: World) {
    exists steps :: Reachable(FIRST, steps, w)
  }

  lemma Begin()
    ensures Reached(FIRST)
  {
    assert Reachable(FIRST, [], FIRST);
  }

  lemma Then(w: World, s: Step) returns (v: World)
    requires Reached(w) && Enabled(w, s)
    ensures Reached(v) && v == Apply(w, s)
  {
    var steps :| Reachable(FIRST, steps, w);
    v := Apply(w, s);
    assert (steps + [s])[..|steps|] == steps;
    assert Reachable(FIRST, steps + [s], v);
  }

  /** A world in which a clean reconcile is in flight. */
  function InFlight(obj: ControlPlane, hist: PlaneHistory, c: Cloud, f: CP.CPFrame): World {
    World(Plane(true, obj, Some(f), None, hist), NO_POOLS, NO_COPY, c)
  }

  function Clean(m: ControlPlane, pc: CP.Pc, creates: nat): CP.CPFrame {
    CP.CPFrame(m, pc, true, creates, None)
  }

  // ---------------------------------------------------------------- the network

  const FINALIZED := FIRST_OBJECT.(finalizer := true)
  const ONE_SAVE := NO_HISTORY.(endpoints := [ZERO_ENDPOINT, ZERO_ENDPOINT])

  lemma FinalizerIsSaved()
    ensures Reached(InFlight(FINALIZED, ONE_SAVE, NOTHING, Clean(FINALIZED, CP.AtServiceInit, 0)))
  {
    Begin();
    var w1 := Then(FIRST, ByPlane(Open));
    var w2 := Then(w1, ByPlane(Do(CP.Common(CP.CheckInfrastructure(true)))));
    var w3 := Then(w2, ByPlane(Do(CP.Common(CP.Patch(true)))));
    assert w3.plane.hist == ONE_SAVE;
    assert w3 == InFlight(FINALIZED, ONE_SAVE, NOTHING, Clean(FINALIZED, CP.AtServiceInit, 0));
  }

  const STARTED := FINALIZED.(status := FIRST_STATUS.(conds := map[VpcReady := Condition(false, VpcCreationStartedReason)]))
  const TWO_SAVES := NO_HISTORY.(endpoints := [ZERO_ENDPOINT, ZERO_ENDPOINT, ZERO_ENDPOINT])

  lemma VpcIsAnnounced()
    ensures Reached(InFlight(STARTED, TWO_SAVES, NOTHING, Clean(STARTED, CP.AtVpc, 0)))
  {
    FinalizerIsSaved();
    var w1 := Then(InFlight(FINALIZED, ONE_SAVE, NOTHING, Clean(FINALIZED, CP.AtServiceInit, 0)), ByPlane(Do(CP.Common(CP.NewService(true)))));
    var w2 := Then(w1, ByPlane(Do(CP.Network(CP.StartVpc))));
    var w3 := Then(w2, ByPlane(Do(CP.Common(CP.Patch(true)))));
    assert w3.plane.hist == TWO_SAVES;
    assert w3 == InFlight(STARTED, TWO_SAVES, NOTHING, Clean(STARTED, CP.AtVpc, 0));
  }

  const HOSTED := STARTED.(spec := STARTED.spec.(vpcId := VPC), status := FIRST_STATUS.(conds := map[VpcReady := TRUE_CONDITION]))
  const ONE_VPC := TWO_SAVES.(vpcs := {VPC})

  lemma VpcIsCreated()
    ensures Reached(InFlight(STARTED, ONE_VPC, NOTHING.(used := {VPC}), Clean(HOSTED, CP.AtSubnet, 1)))
  {
    VpcIsAnnounced();
    var w1 := Then(InFlight(STARTED, TWO_SAVES, NOTHING, Clean(STARTED, CP.AtVpc, 0)), ByPlane(Do(CP.Network(CP.CreateVpc(Done(VPC, ()))))));
    assert w1.plane.hist == ONE_VPC && w1.cloud == NOTHING.(used := {VPC});
    var w2 := Then(w1, ByPlane(Do(CP.Network(CP.VpcDone))));
    assert w2.plane.inFlight.value.mem.status.conds == HOSTED.status.conds;
    assert w2 == InFlight(STARTED, ONE_VPC, NOTHING.(used := {VPC}), Clean(HOSTED, CP.AtSubnet, 1));
  }

  const CONNECTED := HOSTED.(
    spec := HOSTED.spec.(subnetId := SUBNET),
    status := FIRST_STATUS.(conds := map[VpcReady := TRUE_CONDITION, SubnetsReady := TRUE_CONDITION]))
  const NETWORK := NOTHING.(used := {VPC, SUBNET}, subnets := map[SUBNET := SubnetInfo(VPC, true)])

  lemma SubnetIsCreated()
    ensures Reached(InFlight(STARTED, ONE_VPC, NETWORK, Clean(CONNECTED, CP.AtCluster, 2)))
  {
    VpcIsCreated();
    var w1 := Then(InFlight(STARTED, ONE_VPC, NOTHING.(used := {VPC}), Clean(HOSTED, CP.AtSubnet, 1)),
                   ByPlane(Do(CP.Network(CP.CreateSubnet(CP.SubnetMade(SUBNET))))));
    assert w1.cloud == NETWORK;
    var w2 := Then(w1, ByPlane(Do(CP.Network(CP.SubnetDone))));
    assert w2.plane.inFlight.value.mem.status.conds == CONNECTED.status.conds;
    assert w2 == InFlight(STARTED, ONE_VPC, NETWORK, Clean(CONNECTED, CP.AtCluster, 2));
  }

  // ---------------------------------------------------------------- the cluster

  const CREATING := ClusterStatus(Creating, "", "")
  const AVAILABLE := ClusterInfo(ClusterStatus(Available, "", ""), Some([EndpointEntry(Internal, Url("demo", Some(5443)))]))
  const CREATED := CONNECTED.(
    clusterId := CLUSTER,
    status := FIRST_STATUS.(conds := map[VpcReady := TRUE_CONDITION, SubnetsReady := TRUE_CONDITION, ControlPlaneCreating := TRUE_CONDITION]))
  const ONE_CLUSTER := ONE_VPC.(clusters := {CLUSTER}, clusterCreates := 1)
  const NEW_CLUSTER := NETWORK.(used := {VPC, SUBNET, CLUSTER}, clusters := map[CLUSTER := ClusterInfo(CREATING, None)])

  lemma CreateStep()
    ensures var f, s := Clean(CONNECTED, CP.AtCluster, 2), CP.Cluster(CP.CreateCluster(Done(CLUSTER, CREATING)));
            CP.CPGuard(f, s) && CP.CPNext(f, s) == Clean(CREATED, CP.AtStatus(CREATING, None, false), 3)
  {
    assert CONNECTED.status.conds[ControlPlaneCreating := TRUE_CONDITION] == CREATED.status.conds;
  }

  lemma ClusterIsCreated()
    ensures Reached(InFlight(STARTED, ONE_CLUSTER, NEW_CLUSTER, Clean(CREATED, CP.AtStatus(CREATING, None, false), 3)))
  {
    SubnetIsCreated();
    CreateStep();
    var w := Then(InFlight(STARTED, ONE_VPC, NETWORK, Clean(CONNECTED, CP.AtCluster, 2)),
                  ByPlane(Do(CP.Cluster(CP.CreateCluster(Done(CLUSTER, CREATING))))));
    assert w.cloud == NEW_CLUSTER && w.plane.hist == ONE_CLUSTER;
  }

  const THREE_SAVES := ONE_CLUSTER.(endpoints := [ZERO_ENDPOINT, ZERO_ENDPOINT, ZERO_ENDPOINT, ZERO_ENDPOINT])

  lemma ObserveStep()
    ensures var f, s := Clean(CREATED, CP.AtStatus(CREATING, None, false), 3), CP.Cluster(CP.ObserveStatus);
            CP.CPGuard(f, s) && CP.CPNext(f, s) == Clean(CREATED, CP.AtStatusPatch(Creating, None, false), 3)
  {
  }

  lemma ClusterIsObserved()
    ensures Reached(InFlight(STARTED, ONE_CLUSTER, NEW_CLUSTER, Clean(CREATED, CP.AtStatusPatch(Creating, None, false), 3)))
  {
    ClusterIsCreated();
    ObserveStep();
    var w := Then(InFlight(STARTED, ONE_CLUSTER, NEW_CLUSTER, Clean(CREATED, CP.AtStatus(CREATING, None, false), 3)),
                  ByPlane(Do(CP.Cluster(CP.ObserveStatus))));
    assert w == InFlight(STARTED, ONE_CLUSTER, NEW_CLUSTER, Clean(CREATED, CP.AtStatusPatch(Creating, None, false), 3));
  }

  lemma SaveStep()
    ensures var f, s := Clean(CREATED, CP.AtStatusPatch(Creating, None, false), 3), CP.Common(CP.Patch(true));
            CP.CPGuard(f, s) && CP.CPNext(f, s) == Clean(CREATED, CP.AtWait(MAX_POLLS), 3)
  {
  }

  lemma ClusterIsSaved()
    ensures Reached(InFlight(CREATED, THREE_SAVES, NEW_CLUSTER, Clean(CREATED, CP.AtWait(MAX_POLLS), 3)))
  {
    ClusterIsObserved();
    SaveStep();
    var w := Then(InFlight(STARTED, ONE_CLUSTER, NEW_CLUSTER, Clean(CREATED, CP.AtStatusPatch(Creating, None, false), 3)),
                  ByPlane(Do(CP.Common(CP.Patch(true)))));
    assert w.plane.hist == THREE_SAVES;
    assert w == InFlight(CREATED, THREE_SAVES, NEW_CLUSTER, Clean(CREATED, CP.AtWait(MAX_POLLS), 3));
  }

  const WITH_CLUSTER := NEW_CLUSTER.(clusters := map[CLUSTER := AVAILABLE])

  lemma ClusterBecomesAvailable()
    ensures Reached(InFlight(CREATED, THREE_SAVES, WITH_CLUSTER, Clean(CREATED, CP.AtWait(MAX_POLLS), 3)))
  {
    ClusterIsSaved();
    var w := Then(InFlight(CREATED, THREE_SAVES, NEW_CLUSTER, Clean(CREATED, CP.AtWait(MAX_POLLS), 3)), ByCloud(ClusterChanges(CLUSTER, AVAILABLE)));
    assert w.cloud.clusters == WITH_CLUSTER.clusters;
    assert w == InFlight(CREATED, THREE_SAVES, WITH_CLUSTER, Clean(CREATED, CP.AtWait(MAX_POLLS), 3));
  }

  lemma WaitSteps()
    ensures var f, s := Clean(CREATED, CP.AtWait(MAX_POLLS), 3), CP.Cluster(CP.ShowCluster(Found(AVAILABLE)));
            && CP.CPGuard(f, s) && CP.CPNext(f, s) == f.(pc := CP.AtWaited)
            && CP.CPGuard(f.(pc := CP.AtWaited), s)
            && CP.CPNext(f.(pc := CP.AtWaited), s) == f.(pc := CP.AtStatus(AVAILABLE.status, Some(AVAILABLE), true))
  {
  }

  const READY := CREATED.(status := ControlPlaneStatus(true, false, None, NO_ID,
    map[VpcReady := TRUE_CONDITION, SubnetsReady := TRUE_CONDITION, ControlPlaneCreating := Condition(false, CreatedReason)]))
  const ANNOUNCED := THREE_SAVES.(announcements := 1)

  lemma AvailableStep()
    ensures var f, s := Clean(CREATED, CP.AtStatus(AVAILABLE.status, Some(AVAILABLE), true), 3), CP.Cluster(CP.ObserveStatus);
            CP.CPGuard(f, s) && CP.CPNext(f, s) == Clean(READY, CP.AtStatusPatch(Available, Some(AVAILABLE), true), 3)
  {
    assert CREATED.status.conds[ControlPlaneCreating := Condition(false, CreatedReason)] == READY.status.conds;
  }

  lemma ClusterIsShown()
    ensures Reached(InFlight(CREATED, THREE_SAVES, WITH_CLUSTER, Clean(CREATED, CP.AtStatus(AVAILABLE.status, Some(AVAILABLE), true), 3)))
  {
    ClusterBecomesAvailable();
    WaitSteps();
    var w1 := Then(InFlight(CREATED, THREE_SAVES, WITH_CLUSTER, Clean(CREATED, CP.AtWait(MAX_POLLS), 3)),
                   ByPlane(Do(CP.Cluster(CP.ShowCluster(Found(AVAILABLE))))));
    var w2 := Then(w1, ByPlane(Do(CP.Cluster(CP.ShowCluster(Found(AVAILABLE))))));
    assert w2 == InFlight(CREATED, THREE_SAVES, WITH_CLUSTER, Clean(CREATED, CP.AtStatus(AVAILABLE.status, Some(AVAILABLE), true), 3));
  }

  lemma ClusterIsAvailable()
    ensures Reached(InFlight(CREATED, ANNOUNCED, WITH_CLUSTER, Clean(READY, CP.AtStatusPatch(Available, Some(AVAILABLE), true), 3)))
  {
    ClusterIsShown();
    AvailableStep();
    var w := Then(InFlight(CREATED, THREE_SAVES, WITH_CLUSTER, Clean(CREATED, CP.AtStatus(AVAILABLE.status, Some(AVAILABLE), true), 3)),
                  ByPlane(Do(CP.Cluster(CP.ObserveStatus))));
    assert w == InFlight(CREATED, ANNOUNCED, WITH_CLUSTER, Clean(READY, CP.AtStatusPatch(Available, Some(AVAILABLE), true), 3));
  }

  /** With the persisted Creating condition in place of the one that the controller holds, the bound on
      creation events fails: between the event and the patch that follows it, the one cluster that was created
      has been announced and the persisted condition is still True. */
  lemma PersistedConditionLags()
    ensures exists steps, w: World ::
              && Reachable(FIRST, steps, w)
              && var h := w.plane.hist;
                 h.announcements + (if IsCreating(w.plane.obj) then 1 else 0) > h.clusterCreates + h.lostWrites
  {
    ClusterIsAvailable();
    var w := InFlight(CREATED, ANNOUNCED, WITH_CLUSTER, Clean(READY, CP.AtStatusPatch(Available, Some(AVAILABLE), true), 3));
    var steps :| Reachable(FIRST, steps, w);
    assert IsCreating(w.plane.obj);
  }

  // ---------------------------------------------------------------- the public endpoint

  const FOUR_SAVES := ANNOUNCED.(readyIds := {CLUSTER},
                                 endpoints := [ZERO_ENDPOINT, ZERO_ENDPOINT, ZERO_ENDPOINT, ZERO_ENDPOINT, ZERO_ENDPOINT])

  lemma StatusIsSaved()
    ensures Reached(InFlight(READY, FOUR_SAVES, WITH_CLUSTER, Clean(READY, CP.AtEipShow, 3)))
  {
    ClusterIsAvailable();
    var w := Then(InFlight(CREATED, ANNOUNCED, WITH_CLUSTER, Clean(READY, CP.AtStatusPatch(Available, Some(AVAILABLE), true), 3)),
                  ByPlane(Do(CP.Common(CP.Patch(true)))));
    assert w.plane.hist == FOUR_SAVES;
    assert w == InFlight(READY, FOUR_SAVES, WITH_CLUSTER, Clean(READY, CP.AtEipShow, 3));
  }

  const EXPOSED := READY.(status := READY.status.(eip := EIP))
  const ONE_EIP := FOUR_SAVES.(eips := map[EIP := CLUSTER])
  const WITH_EIP := WITH_CLUSTER.(used := {VPC, SUBNET, CLUSTER, EIP})

  lemma ClusterIsPrivate()
    ensures Reached(InFlight(READY, FOUR_SAVES, WITH_CLUSTER, Clean(READY, CP.AtEipCreate, 3)))
  {
    StatusIsSaved();
    var w := Then(InFlight(READY, FOUR_SAVES, WITH_CLUSTER, Clean(READY, CP.AtEipShow, 3)), ByPlane(Do(CP.Access(CP.ShowEndpoints(Some(false))))));
    assert w == InFlight(READY, FOUR_SAVES, WITH_CLUSTER, Clean(READY, CP.AtEipCreate, 3));
  }

  lemma EipIsCreated()
    ensures Reached(InFlight(READY, ONE_EIP, WITH_EIP, Clean(EXPOSED, CP.AtEipBind, 4)))
  {
    ClusterIsPrivate();
    var w := Then(InFlight(READY, FOUR_SAVES, WITH_CLUSTER, Clean(READY, CP.AtEipCreate, 3)), ByPlane(Do(CP.Access(CP.CreateEip(Done(EIP, ()))))));
    assert w.plane.hist == ONE_EIP && w.cloud == WITH_EIP;
    assert w == InFlight(READY, ONE_EIP, WITH_EIP, Clean(EXPOSED, CP.AtEipBind, 4));
  }

  const PUBLIC := WITH_EIP.(eipOf := map[CLUSTER := EIP])

  lemma EipIsBound()
    ensures Reached(InFlight(READY, ONE_EIP, PUBLIC, Clean(EXPOSED, CP.AtFinalShow, 4)))
  {
    EipIsCreated();
    var w := Then(InFlight(READY, ONE_EIP, WITH_EIP, Clean(EXPOSED, CP.AtEipBind, 4)), ByPlane(Do(CP.Access(CP.BindEip(true)))));
    assert w.cloud == PUBLIC;
    assert w == InFlight(READY, ONE_EIP, PUBLIC, Clean(EXPOSED, CP.AtFinalShow, 4));
  }

  /** A crash after the bind loses the id of the public IP: the cluster has a public endpoint, and the control
      plane at rest does not record the public IP behind it. */
  lemma BoundEipIsForgotten()
    ensures exists steps, w: World ::
              && Reachable(FIRST, steps, w) && w.plane.inFlight.None?
              && w.plane.obj.clusterId in w.cloud.eipOf && w.plane.obj.status.eip != w.cloud.eipOf[w.plane.obj.clusterId]
  {
    EipIsBound();
    var w := Then(InFlight(READY, ONE_EIP, PUBLIC, Clean(EXPOSED, CP.AtFinalShow, 4)), ByPlane(Crash));
    var steps :| Reachable(FIRST, steps, w);
    assert w.plane.obj == READY && w.cloud == PUBLIC;
  }

  // ---------------------------------------------------------------- the pass ends clean

  const LISTED := AVAILABLE.endpoints
  const ADDRESSED := EXPOSED.(spec := EXPOSED.spec.(endpoint := ENDPOINT))
  const CREDENTIALS := Credentials("cert", "key")
  const KUBECONFIG := Base("demo", ENDPOINT, CREDENTIALS)

  /** A clean frame after the endpoint loops. */
  function Chosen(m: ControlPlane, pc: CP.Pc): CP.CPFrame {
    CP.CPFrame(m, pc, true, 4, Some(LISTED))
  }

  lemma ChooseSteps()
    ensures var f, s := Clean(EXPOSED, CP.AtFinalShow, 4), CP.Cluster(CP.ShowCluster(Found(AVAILABLE)));
            CP.CPGuard(f, s) && CP.CPNext(f, s) == f.(pc := CP.AtEndpoint(LISTED))
    ensures var f, s := Clean(EXPOSED, CP.AtEndpoint(LISTED), 4), CP.Access(CP.ChooseEndpoint);
            CP.CPGuard(f, s) && CP.CPNext(f, s) == Chosen(ADDRESSED, CP.AtSecretGet)
  {
    var entries := LISTED.value;
    assert entries[1..] == [];
    assert ParseUrl(entries[0].url) == Some(ENDPOINT);
    assert Scan(Internal, entries, ZERO_ENDPOINT) == (ENDPOINT, true);
    assert Scan(External, entries, ENDPOINT) == (ENDPOINT, true);
  }

  lemma EndpointIsChosen()
    ensures Reached(InFlight(READY, ONE_EIP, PUBLIC, Chosen(ADDRESSED, CP.AtSecretGet)))
  {
    EipIsBound();
    ChooseSteps();
    var w1 := Then(InFlight(READY, ONE_EIP, PUBLIC, Clean(EXPOSED, CP.AtFinalShow, 4)), ByPlane(Do(CP.Cluster(CP.ShowCluster(Found(AVAILABLE))))));
    var w2 := Then(w1, ByPlane(Do(CP.Access(CP.ChooseEndpoint))));
    assert w2 == InFlight(READY, ONE_EIP, PUBLIC, Chosen(ADDRESSED, CP.AtSecretGet));
  }

  const INITIALIZED := ADDRESSED.(status := ADDRESSED.status.(initialized := true))

  function WithSecret(w: World): World {
    w.(plane := w.plane.(secret := Some(KUBECONFIG)))
  }

  lemma SecretSteps()
    ensures var f, s := Chosen(ADDRESSED, CP.AtSecretGet), CP.Access(CP.GetSecret(Some(None)));
            CP.CPGuard(f, s) && CP.CPNext(f, s) == f.(pc := CP.AtCert(None))
    ensures var f, s := Chosen(ADDRESSED, CP.AtCert(None)), CP.Access(CP.CreateCert(Some(CREDENTIALS)));
            CP.CPGuard(f, s) && CP.CPNext(f, s) == f.(pc := CP.AtSecretWrite(KUBECONFIG))
    ensures var f, s := Chosen(ADDRESSED, CP.AtSecretWrite(KUBECONFIG)), CP.Access(CP.WriteSecret(true));
            CP.CPGuard(f, s) && CP.CPNext(f, s) == Chosen(INITIALIZED, CP.AtReconciled)
  {
  }

  lemma CertificateIsMade()
    ensures Reached(InFlight(READY, ONE_EIP, PUBLIC, Chosen(ADDRESSED, CP.AtSecretWrite(KUBECONFIG))))
  {
    EndpointIsChosen();
    SecretSteps();
    var w1 := Then(InFlight(READY, ONE_EIP, PUBLIC, Chosen(ADDRESSED, CP.AtSecretGet)), ByPlane(Do(CP.Access(CP.GetSecret(Some(None))))));
    var w2 := Then(w1, ByPlane(Do(CP.Access(CP.CreateCert(Some(CREDENTIALS))))));
    assert w2 == InFlight(READY, ONE_EIP, PUBLIC, Chosen(ADDRESSED, CP.AtSecretWrite(KUBECONFIG)));
  }

  lemma SecretIsWritten()
    ensures Reached(WithSecret(InFlight(READY, ONE_EIP, PUBLIC, Chosen(INITIALIZED, CP.AtReconciled))))
  {
    CertificateIsMade();
    SecretSteps();
    var w := Then(InFlight(READY, ONE_EIP, PUBLIC, Chosen(ADDRESSED, CP.AtSecretWrite(KUBECONFIG))), ByPlane(Do(CP.Access(CP.WriteSecret(true)))));
    assert w == WithSecret(InFlight(READY, ONE_EIP, PUBLIC, Chosen(INITIALIZED, CP.AtReconciled)));
  }

  const DONE := INITIALIZED.(status := INITIALIZED.status.(conds :=
    map[VpcReady := TRUE_CONDITION, SubnetsReady := TRUE_CONDITION, ControlPlaneCreating := Condition(false, CreatedReason),
        ControlPlaneReady := TRUE_CONDITION]))

  lemma LastStep()
    ensures var f, s := Chosen(INITIALIZED, CP.AtReconciled), CP.Common(CP.MarkReady);
            CP.CPGuard(f, s) && CP.CPNext(f, s) == Chosen(DONE, CP.Closing(Finished))
    ensures Converged(DONE)
  {
    assert INITIALIZED.status.conds[ControlPlaneReady := TRUE_CONDITION] == DONE.status.conds;
  }

  /** A clean pass exists that takes a control plane from empty ids to its end, creating a VPC, a subnet, a
      cluster and a public IP, with everything recorded. */
  lemma CleanPassExists()
    ensures Reached(WithSecret(InFlight(READY, ONE_EIP, PUBLIC, Chosen(DONE, CP.Closing(Finished)))))
    ensures Converged(DONE)
  {
    SecretIsWritten();
    LastStep();
    var w := Then(WithSecret(InFlight(READY, ONE_EIP, PUBLIC, Chosen(INITIALIZED, CP.AtReconciled))), ByPlane(Do(CP.Common(CP.MarkReady))));
    assert w == WithSecret(InFlight(READY, ONE_EIP, PUBLIC, Chosen(DONE, CP.Closing(Finished))));
  }

  const LAST_SAVE := ONE_EIP.(endpoints := ONE_EIP.endpoints + [ENDPOINT])
  const UP := World(Plane(true, DONE, None, Some(KUBECONFIG), LAST_SAVE), NO_POOLS, NO_COPY, PUBLIC)

  lemma PassIsClosed()
    ensures Reached(UP)
  {
    CleanPassExists();
    var w := Then(WithSecret(InFlight(READY, ONE_EIP, PUBLIC, Chosen(DONE, CP.Closing(Finished)))), ByPlane(Close(true)));
    assert w.plane.hist == LAST_SAVE;
    assert w == UP;
  }

  // ---------------------------------------------------------------- a pool with a node pool

  const STRAY: Key := 0
  const SYNCHRONIZING := NodepoolStatus(NpSynchronizing, None)

  function Held(labelled: bool): Pool {
    EmptyPool(labelled).(finalizer := true)
  }

  function Made(labelled: bool): Pool {
    Held(labelled).(poolId := NODEPOOL)
  }

  /** A ready control plane without pools; a labelled pool comes only after its deletion timestamp. */
  predicate Hosts(base: World, labelled: bool) {
    && base.fleet == NO_POOLS && base.cloud == PUBLIC && base.plane.alive && base.plane.obj.status.ready
    && base.plane.obj.clusterId == CLUSTER && (labelled ==> base.plane.obj.deleting)
  }

  function WithPool(base: World, pool: Pool, f: NP.PoolFrame): World {
    base.(fleet := Fleet(map[STRAY := pool], map[STRAY := f], FleetHistory({STRAY}, {}, {}, map[], {}, map[])))
  }

  lemma PoolIsAdded(base: World, labelled: bool)
    requires Reached(base) && Hosts(base, labelled)
    ensures Reached(WithPool(base, EmptyPool(labelled), NP.PoolFrame(EmptyPool(labelled), CLUSTER, NP.AtStart)))
  {
    var pool := EmptyPool(labelled);
    var w1 := Then(base, User(CreatesPool(STRAY, labelled)));
    assert w1.fleet == Fleet(map[STRAY := pool], map[], FleetHistory({STRAY}, {}, {}, map[], {}, map[]));
    var w2 := Then(w1, ByPool(STRAY, OpenPool));
    var w3 := Then(w2, ByPool(STRAY, DoPool(NP.Common(NP.ReadControlPlane(CLUSTER)))));
    assert w3 == WithPool(base, pool, NP.PoolFrame(pool, CLUSTER, NP.AtStart));
  }

  lemma PoolIsBegun(base: World, labelled: bool)
    requires Reached(base) && Hosts(base, labelled)
    ensures Reached(WithPool(base, EmptyPool(labelled), NP.PoolFrame(Held(labelled), CLUSTER, NP.AtFinalizerPatch)))
  {
    PoolIsAdded(base, labelled);
    var w := Then(WithPool(base, EmptyPool(labelled), NP.PoolFrame(EmptyPool(labelled), CLUSTER, NP.AtStart)),
                  ByPool(STRAY, DoPool(NP.Common(NP.Begin))));
    assert w == WithPool(base, EmptyPool(labelled), NP.PoolFrame(Held(labelled), CLUSTER, NP.AtFinalizerPatch));
  }

  lemma PoolSteps(labelled: bool)
    ensures var f, s := NP.PoolFrame(Held(labelled), CLUSTER, NP.AtFinalizerPatch), NP.Common(NP.Patch(true));
            NP.PoolGuard(f, s) && NP.PoolNext(f, s) == f.(pc := NP.AtServiceInit)
    ensures var f, s := NP.PoolFrame(Held(labelled), CLUSTER, NP.AtServiceInit), NP.Common(NP.NewService(true));
            NP.PoolGuard(f, s) && NP.PoolNext(f, s) == f.(pc := NP.AtReconcile)
    ensures var f, s := NP.PoolFrame(Held(labelled), CLUSTER, NP.AtReconcile), CREATES_NODEPOOL;
            NP.PoolGuard(f, s) && NP.PoolNext(f, s) == NP.PoolFrame(Made(labelled), CLUSTER, NP.AtStatus(SYNCHRONIZING, false))
  {
  }

  lemma PoolIsSaved(base: World, labelled: bool)
    requires Reached(base) && Hosts(base, labelled)
    ensures Reached(WithPool(base, Held(labelled), NP.PoolFrame(Held(labelled), CLUSTER, NP.AtServiceInit)))
  {
    PoolIsBegun(base, labelled);
    PoolSteps(labelled);
    var w := Then(WithPool(base, EmptyPool(labelled), NP.PoolFrame(Held(labelled), CLUSTER, NP.AtFinalizerPatch)),
                  ByPool(STRAY, DoPool(NP.Common(NP.Patch(true)))));
    assert w == WithPool(base, Held(labelled), NP.PoolFrame(Held(labelled), CLUSTER, NP.AtServiceInit));
  }

  lemma PoolIsHeld(base: World, labelled: bool)
    requires Reached(base) && Hosts(base, labelled)
    ensures Reached(WithPool(base, Held(labelled), NP.PoolFrame(Held(labelled), CLUSTER, NP.AtReconcile)))
  {
    PoolIsSaved(base, labelled);
    PoolSteps(labelled);
    var w := Then(WithPool(base, Held(labelled), NP.PoolFrame(Held(labelled), CLUSTER, NP.AtServiceInit)),
                  ByPool(STRAY, DoPool(NP.Common(NP.NewService(true)))));
    assert w == WithPool(base, Held(labelled), NP.PoolFrame(Held(labelled), CLUSTER, NP.AtReconcile));
  }

  const WITH_NODEPOOL := PUBLIC.(used := {VPC, SUBNET, CLUSTER, EIP, NODEPOOL}, nodepools := map[NODEPOOL := Nodepool(CLUSTER, SYNCHRONIZING)])

  function WithNodepool(base: World, pool: Pool, f: NP.PoolFrame, recorded: map<Id, Key>): World {
    base.(fleet := Fleet(map[STRAY := pool], map[STRAY := f], FleetHistory({STRAY}, {}, {}, map[NODEPOOL := STRAY], {}, recorded)),
          cloud := WITH_NODEPOOL)
  }

  const CREATES_NODEPOOL := NP.Nodepool(NP.CreateNodepool(Done(NODEPOOL, SYNCHRONIZING)))

  lemma CloudMakesNodepool(f: NP.PoolFrame)
    requires f.cluster == CLUSTER
    ensures NodepoolCloud(PUBLIC, f, CREATES_NODEPOOL) == WITH_NODEPOOL
  {
    assert PUBLIC.used + {NODEPOOL} == WITH_NODEPOOL.used;
  }

  lemma FleetMakesNodepool(p: Plane, labelled: bool)
    ensures var f, hist := NP.PoolFrame(Held(labelled), CLUSTER, NP.AtReconcile), FleetHistory({STRAY}, {}, {}, map[], {}, map[]);
            var fl, move := Fleet(map[STRAY := Held(labelled)], map[STRAY := f], hist), DoPool(CREATES_NODEPOOL);
            && PoolEnabled(p, fl, PUBLIC, STRAY, move)
            && FleetAfter(p, fl, PUBLIC, STRAY, move)
               == Fleet(fl.pools, map[STRAY := NP.PoolFrame(Made(labelled), CLUSTER, NP.AtStatus(SYNCHRONIZING, false))],
                        hist.(nodepools := map[NODEPOOL := STRAY]))
  {
    PoolSteps(labelled);
  }

  lemma NodepoolIsMade(base: World, labelled: bool)
    requires Reached(base) && Hosts(base, labelled)
    ensures Reached(WithNodepool(base, Held(labelled), NP.PoolFrame(Made(labelled), CLUSTER, NP.AtStatus(SYNCHRONIZING, false)), map[]))
  {
    PoolIsHeld(base, labelled);
    FleetMakesNodepool(base.plane, labelled);
    CloudMakesNodepool(NP.PoolFrame(Held(labelled), CLUSTER, NP.AtReconcile));
    var w := Then(WithPool(base, Held(labelled), NP.PoolFrame(Held(labelled), CLUSTER, NP.AtReconcile)),
                  ByPool(STRAY, DoPool(CREATES_NODEPOOL)));
    assert w == WithNodepool(base, Held(labelled), NP.PoolFrame(Made(labelled), CLUSTER, NP.AtStatus(SYNCHRONIZING, false)), map[]);
  }

  lemma NodepoolStatusStep(labelled: bool)
    ensures var f, s := NP.PoolFrame(Made(labelled), CLUSTER, NP.AtStatus(SYNCHRONIZING, false)), NP.Nodepool(NP.ObserveStatus);
            NP.PoolGuard(f, s) && NP.PoolNext(f, s) == f.(pc := NP.AtStatusPatch(NpSynchronizing, false))
    ensures var f, s := NP.PoolFrame(Made(labelled), CLUSTER, NP.AtStatusPatch(NpSynchronizing, false)), NP.Common(NP.Patch(true));
            NP.PoolGuard(f, s) && NP.PoolNext(f, s) == f.(pc := NP.AtWait(MAX_POLLS))
  {
  }

  lemma NodepoolIsObserved(base: World, labelled: bool)
    requires Reached(base) && Hosts(base, labelled)
    ensures Reached(WithNodepool(base, Held(labelled), NP.PoolFrame(Made(labelled), CLUSTER, NP.AtStatusPatch(NpSynchronizing, false)), map[]))
  {
    NodepoolIsMade(base, labelled);
    NodepoolStatusStep(labelled);
    var w := Then(WithNodepool(base, Held(labelled), NP.PoolFrame(Made(labelled), CLUSTER, NP.AtStatus(SYNCHRONIZING, false)), map[]),
                  ByPool(STRAY, DoPool(NP.Nodepool(NP.ObserveStatus))));
    assert w == WithNodepool(base, Held(labelled), NP.PoolFrame(Made(labelled), CLUSTER, NP.AtStatusPatch(NpSynchronizing, false)), map[]);
  }

  /** The pool has recorded its node pool and waits for it. */
  function Recorded(base: World, labelled: bool): World {
    WithNodepool(base, Made(labelled), NP.PoolFrame(Made(labelled), CLUSTER, NP.AtWait(MAX_POLLS)), map[NODEPOOL := STRAY])
  }

  lemma NodepoolIsRecorded(base: World, labelled: bool)
    requires Reached(base) && Hosts(base, labelled)
    ensures Reached(Recorded(base, labelled))
  {
    NodepoolIsObserved(base, labelled);
    NodepoolStatusStep(labelled);
    var w := Then(WithNodepool(base, Held(labelled), NP.PoolFrame(Made(labelled), CLUSTER, NP.AtStatusPatch(NpSynchronizing, false)), map[]),
                  ByPool(STRAY, DoPool(NP.Common(NP.Patch(true)))));
    assert w == Recorded(base, labelled);
  }

  // ---------------------------------------------------------------- the control plane is deleted

  const DELETED := DONE.(deleting := true)

  /** The deletion of the control plane in w, at this place. */
  function Deleting(w: World, pc: CP.Pc): World {
    w.(plane := w.plane.(obj := DELETED, inFlight := Some(CP.CPFrame(DELETED, pc, true, 0, None))))
  }

  /** The pools that exist have been counted. */
  function Counted(w: World): World {
    w.(fleet := w.fleet.(hist := w.fleet.hist.(counted := w.fleet.hist.keys)))
  }

  lemma DeletionOpens(w: World)
    requires Reached(w) && w.plane == UP.plane
    ensures Reached(Deleting(w, CP.AtDeleteList))
  {
    var w1 := Then(w, User(DeletesControlPlane));
    var w2 := Then(w1, ByPlane(Open));
    assert w2 == Deleting(w, CP.AtDeleteList);
  }

  lemma NoneIsCounted(w: World)
    requires Reached(w) && w.plane == UP.plane && Labelled(w.fleet) == {}
    ensures Reached(Counted(Deleting(w, CP.AtDeleteInit)))
  {
    DeletionOpens(w);
    var v := Then(Deleting(w, CP.AtDeleteList), ByPlane(Do(CP.Teardown(CP.ListPools(Some(0))))));
    assert v == Counted(Deleting(w, CP.AtDeleteInit));
  }

  lemma DeleteSteps()
    ensures var f, s := CP.CPFrame(DELETED, CP.AtDeleteInit, true, 0, None), CP.Common(CP.NewService(true));
            CP.CPGuard(f, s) && CP.CPNext(f, s) == f.(pc := CP.AtDeleteShow)
    ensures var f, s := CP.CPFrame(DELETED, CP.AtDeleteShow, true, 0, None), CP.Cluster(CP.ShowCluster(Found(AVAILABLE)));
            CP.CPGuard(f, s) && CP.CPNext(f, s) == f.(pc := CP.AtDeleteCall)
  {
  }

  /** From the count on, whatever pools there are, the deletion gets to its DeleteCluster call. */
  lemma DeletionIsNext(w: World)
    requires Reached(Deleting(w, CP.AtDeleteInit)) && w.cloud == WITH_NODEPOOL
    ensures Reached(Deleting(w, CP.AtDeleteCall))
    ensures Enabled(Deleting(w, CP.AtDeleteCall), ByPlane(Do(CP.Teardown(CP.DeleteCluster(Accepted)))))
  {
    DeleteSteps();
    var w1 := Then(Deleting(w, CP.AtDeleteInit), ByPlane(Do(CP.Common(CP.NewService(true)))));
    assert w1 == Deleting(w, CP.AtDeleteShow);
    var w2 := Then(w1, ByPlane(Do(CP.Cluster(CP.ShowCluster(Found(AVAILABLE))))));
    assert w2 == Deleting(w, CP.AtDeleteCall);
  }

  /** In w, DeleteCluster can be issued although the pool STRAY and its recorded node pool are there. */
  predicate Overlooks(w: World) {
    && Enabled(w, ByPlane(Do(CP.Teardown(CP.DeleteCluster(Accepted)))))
    && STRAY in w.fleet.pools && w.fleet.pools[STRAY].poolId == NODEPOOL
    && NODEPOOL in w.fleet.hist.recorded && NODEPOOL in w.cloud.nodepools
  }

  /** The first condition of the teardown order is needed: a pool object without the cluster-name label is not
      counted, and the cluster is deleted while the pool and its recorded node pool are still there. */
  lemma UnlabelledPoolIsOverlooked()
    ensures exists steps, w: World :: Reachable(FIRST, steps, w) && Overlooks(w) && !w.fleet.pools[STRAY].labelled
  {
    PassIsClosed();
    NodepoolIsRecorded(UP, false);
    var v := Recorded(UP, false);
    assert Labelled(v.fleet) == {};
    NoneIsCounted(v);
    assert Counted(Deleting(v, CP.AtDeleteInit)) == Deleting(Counted(v), CP.AtDeleteInit);
    DeletionIsNext(Counted(v));
    var w := Deleting(Counted(v), CP.AtDeleteCall);
    var steps :| Reachable(FIRST, steps, w);
    assert Overlooks(w);
  }

  /** So is the second: a labelled pool that is created after the count is not counted either. */
  lemma LatePoolIsOverlooked()
    ensures exists steps, w: World :: Reachable(FIRST, steps, w) && Overlooks(w) && w.fleet.pools[STRAY].labelled
  {
    PassIsClosed();
    assert Labelled(UP.fleet) == {};
    NoneIsCounted(UP);
    var base := Deleting(UP, CP.AtDeleteInit);
    assert Counted(base) == base;
    NodepoolIsRecorded(base, true);
    var v := Recorded(base, true);
    assert v == Deleting(v, CP.AtDeleteInit);
    DeletionIsNext(v);
    var w := Deleting(v, CP.AtDeleteCall);
    var steps :| Reachable(FIRST, steps, w);
    assert Overlooks(w);
  }
}
