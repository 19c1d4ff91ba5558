/** Every reconcile comes to its end: at each place but the last some step is the next one, and every step
    brings the end closer. So one reconcile makes a bounded number of calls, whatever the answers are. */
module Endings {
  import opened Types
  import CP = ControlPlaneProgram
  import Frames = ControlPlaneFrames
  import NP = PoolProgram

  /** An upper bound on the steps that a control-plane reconcile still makes. */
  function StepsLeft(m: ControlPlane, pc: CP.Pc): nat {
    match pc
    case AtStart => 200
    case AtFinalizerPatch => 199
    case AtServiceInit => 198
    case AtVpc => if m.spec.vpcId != NO_ID then 193 else if VpcReady in m.status.conds then 194 else 197
    case AtVpcPatch => 195
    case AtSubnet => if m.spec.subnetId != NO_ID then 190 else 192
    case AtSubnetAdopt => 191
    case AtCluster => 189
    case AtClusterCreate => 188
    case AtStatus(_, _, again) => if again then 128 else 187
    case AtStatusPatch(_, _, again) => if again then 127 else 186
    case AtWait(left) => 130 + left
    case AtWaited => 129
    case AtEipShow => 126
    case AtEipCreate => 125
    case AtEipBind => 124
    case AtFinalShow => 123
    case AtEndpoint(_) => 122
    case AtSecretGet => 121
    case AtCert(_) => 120
    case AtSecretWrite(_) => 119
    case AtReconciled => 1
    case AtFailing(_) => 1
    case AtDeleteList => 200
    case AtDeleteInit => 199
    case AtDeleteShow => 198
    case AtDeleteCall => 197
    case AtDeleteWait(left) => 130 + left
    case AtDeleteDone => 1
    case Closing(_) => 0
  }

  /** A patch of the VPC conditions happens only when there is no VPC id yet. */
  predicate PatchesVpcOnce(m: ControlPlane, pc: CP.Pc) {
    pc.AtVpcPatch? ==> m.spec.vpcId == NO_ID && VpcReady in m.status.conds
  }

  lemma CommonComesCloser(f: CP.CPFrame, s: CP.CommonStep)
    requires CP.CommonGuard(f, s) && PatchesVpcOnce(f.mem, f.pc)
    ensures var (m, pc) := CP.CommonAdvance(f, s);
            StepsLeft(m, pc) < StepsLeft(f.mem, f.pc) && PatchesVpcOnce(m, pc)
  {
  }

  lemma NetworkComesCloser(f: CP.CPFrame, s: CP.NetworkStep)
    requires CP.NetworkGuard(f, s) && PatchesVpcOnce(f.mem, f.pc) && Frames.SoundAnswer(f.mem, CP.Network(s))
    ensures var (m, pc) := CP.NetworkAdvance(f, s);
            StepsLeft(m, pc) < StepsLeft(f.mem, f.pc) && PatchesVpcOnce(m, pc)
  {
  }

  lemma ClusterComesCloser(f: CP.CPFrame, s: CP.ClusterStep)
    requires CP.ClusterGuard(f, s) && PatchesVpcOnce(f.mem, f.pc)
    ensures var (m, pc) := CP.ClusterAdvance(f, s);
            StepsLeft(m, pc) < StepsLeft(f.mem, f.pc) && PatchesVpcOnce(m, pc)
  {
  }

  lemma AccessComesCloser(f: CP.CPFrame, s: CP.AccessStep)
    requires CP.AccessGuard(f, s) && PatchesVpcOnce(f.mem, f.pc)
    ensures var (m, pc) := CP.AccessAdvance(f, s);
            StepsLeft(m, pc) < StepsLeft(f.mem, f.pc) && PatchesVpcOnce(m, pc)
  {
  }

  lemma TeardownComesCloser(f: CP.CPFrame, s: CP.TeardownStep)
    requires CP.TeardownGuard(f, s) && PatchesVpcOnce(f.mem, f.pc)
    ensures var (m, pc) := CP.TeardownAdvance(f, s);
            StepsLeft(m, pc) < StepsLeft(f.mem, f.pc) && PatchesVpcOnce(m, pc)
  {
  }

  lemma StepsComeCloser(f: CP.CPFrame, s: CP.CPStep)
    requires CP.CPGuard(f, s) && PatchesVpcOnce(f.mem, f.pc) && Frames.SoundAnswer(f.mem, s)
    ensures var (m, pc) := CP.Advance(f, s);
            StepsLeft(m, pc) < StepsLeft(f.mem, f.pc) && PatchesVpcOnce(m, pc)
  {
    match s
    case Common(c) => CommonComesCloser(f, c);
    case Network(n) => NetworkComesCloser(f, n);
    case Cluster(c) => ClusterComesCloser(f, c);
    case Access(a) => AccessComesCloser(f, a);
    case Teardown(t) => TeardownComesCloser(f, t);
  }

  /** The reconcile makes these steps, one after the other, from f to g. */
  predicate Makes(f: CP.CPFrame, calls: seq<CP.CPStep>, g: CP.CPFrame)
    decreases |calls|
  {
    if calls == [] then g == f
    else CP.CPGuard(f, calls[0]) && Frames.SoundAnswer(f.mem, calls[0]) && Makes(CP.CPNext(f, calls[0]), calls[1..], g)
  }

  lemma {:induction false} CallsAreBounded(f: CP.CPFrame, calls: seq<CP.CPStep>, g: CP.CPFrame)
    requires PatchesVpcOnce(f.mem, f.pc) && Makes(f, calls, g)
    ensures |calls| + StepsLeft(g.mem, g.pc) <= StepsLeft(f.mem, f.pc)
    decreases |calls|
  {
    if calls != [] {
      StepsComeCloser(f, calls[0]);
      CallsAreBounded(CP.CPNext(f, calls[0]), calls[1..], g);
    }
  }

  /** Whatever the answers are, a control-plane reconcile makes at most 200 steps, and stops only at its end. */
  lemma ReconcileEnds(cp: ControlPlane, calls: seq<CP.CPStep>, g: CP.CPFrame)
    requires Frames.ReadyHasId(cp) && (cp.deleting ==> cp.finalizer)
    requires Makes(CP.CPOpened(cp), calls, g)
    ensures |calls| <= 200
    ensures (forall s :: !CP.CPGuard(g, s)) <==> g.pc.Closing?
  {
    CallsAreBounded(CP.CPOpened(cp), calls, g);
    Frames.FrameInvOpens(cp);
    FramesStaySound(CP.CPOpened(cp), calls, g);
    if !g.pc.Closing? {
      var s := SomeStepIsNext(g);
    }
  }

  lemma {:induction false} FramesStaySound(f: CP.CPFrame, calls: seq<CP.CPStep>, g: CP.CPFrame)
    requires Frames.FrameInv(f.mem, f.pc) && Makes(f, calls, g)
    ensures Frames.FrameInv(g.mem, g.pc)
    decreases |calls|
  {
    if calls != [] {
      Frames.FrameInvSteps(f, calls[0]);
      FramesStaySound(CP.CPNext(f, calls[0]), calls[1..], g);
    }
  }

  lemma SomeStepIsNext(f: CP.CPFrame) returns (s: CP.CPStep)
    requires Frames.FrameInv(f.mem, f.pc) && !f.pc.Closing?
    ensures CP.CPGuard(f, s)
  {
    match f.pc
    case AtStart => s := CP.Common(CP.CheckInfrastructure(true));
    case AtFinalizerPatch => s := CP.Common(CP.Patch(false));
    case AtServiceInit => s := CP.Common(CP.NewService(false));
    case AtVpc =>
      s := CP.Network(if f.mem.spec.vpcId != NO_ID then CP.VpcDone
                      else if VpcReady in f.mem.status.conds then CP.CreateVpc(MakeFailed) else CP.StartVpc);
    case AtVpcPatch => s := CP.Common(CP.Patch(false));
    case AtSubnet => s := CP.Network(if f.mem.spec.subnetId != NO_ID then CP.SubnetDone else CP.CreateSubnet(CP.SubnetFailed));
    case AtSubnetAdopt => s := CP.Network(CP.ListSubnets(None));
    case AtCluster => s := CP.Cluster(if f.mem.clusterId != NO_ID then CP.ShowCluster(ShowFailed) else CP.CreateCluster(MakeFailed));
    case AtClusterCreate => s := CP.Cluster(CP.CreateCluster(MakeFailed));
    case AtStatus(_, _, _) => s := CP.Cluster(CP.ObserveStatus);
    case AtStatusPatch(_, _, _) => s := CP.Common(CP.Patch(false));
    case AtWait(left) => s := CP.Cluster(if left > 0 then CP.ShowCluster(ShowFailed) else CP.GiveUp);
    case AtWaited => s := CP.Cluster(CP.ShowCluster(ShowFailed));
    case AtEipShow => s := CP.Access(CP.ShowEndpoints(None));
    case AtEipCreate => s := CP.Access(CP.CreateEip(MakeFailed));
    case AtEipBind => s := CP.Access(CP.BindEip(false));
    case AtFinalShow => s := CP.Cluster(CP.ShowCluster(ShowFailed));
    case AtEndpoint(_) => s := CP.Access(CP.ChooseEndpoint);
    case AtSecretGet => s := CP.Access(CP.GetSecret(None));
    case AtCert(_) => s := CP.Access(CP.CreateCert(None));
    case AtSecretWrite(_) => s := CP.Access(CP.WriteSecret(false));
    case AtReconciled => s := CP.Common(CP.MarkReady);
    case AtFailing(_) => s := CP.Common(CP.MarkFailed);
    case AtDeleteList => s := CP.Teardown(CP.ListPools(None));
    case AtDeleteInit => s := CP.Common(CP.NewService(false));
    case AtDeleteShow => s := if f.mem.clusterId != NO_ID then CP.Cluster(CP.ShowCluster(ShowFailed)) else CP.Teardown(CP.SkipDelete);
    case AtDeleteCall => s := CP.Teardown(CP.DeleteCluster(RemovalFailed));
    case AtDeleteWait(left) => s := CP.Cluster(if left > 0 then CP.ShowCluster(ShowFailed) else CP.GiveUp);
    case AtDeleteDone => s := CP.Teardown(CP.RemoveFinalizer);
  }

  /** An upper bound on the steps that a pool reconcile still makes. */
  function PoolStepsLeft(pc: NP.PoolPc): nat {
    match pc
    case AtReadControlPlane => 200
    case AtStart => 199
    case AtFinalizerPatch => 198
    case AtServiceInit => 197
    case AtReconcile => 196
    case AtCreate => 195
    case AtStatus(_, again) => if again then 128 else 194
    case AtListNodes(_, again) => if again then 127 else 193
    case AtStatusPatch(_, again) => if again then 126 else 192
    case AtWait(left) => 130 + left
    case AtWaited => 129
    case AtReconciled => 1
    case AtFailing => 1
    case AtDeleteInit => 198
    case AtDeleteShow => 197
    case AtDeleteMark => 196
    case AtDeleteMarkPatch => 195
    case AtDeleteCall => 194
    case AtDeleteWait(left) => 130 + left
    case AtDeleteReport(_) => 3
    case AtDeleteReportPatch(_) => 2
    case AtDeleteDone(_) => 1
    case Closing(_) => 0
  }

  lemma PoolStepsComeCloser(f: NP.PoolFrame, s: NP.PoolStep)
    requires NP.PoolGuard(f, s)
    ensures PoolStepsLeft(NP.PoolNext(f, s).pc) < PoolStepsLeft(f.pc)
  {
    match s
    case Common(c) =>
    case Nodepool(n) =>
    case Teardown(t) =>
  }

  predicate PoolMakes(f: NP.PoolFrame, calls: seq<NP.PoolStep>, g: NP.PoolFrame)
    decreases |calls|
  {
    if calls == [] then g == f
    else NP.PoolGuard(f, calls[0]) && PoolMakes(NP.PoolNext(f, calls[0]), calls[1..], g)
  }

  lemma SomePoolStepIsNext(f: NP.PoolFrame) returns (s: NP.PoolStep)
    requires !f.pc.Closing?
    ensures NP.PoolGuard(f, s)
  {
    match f.pc
    case AtReadControlPlane => s := NP.Common(NP.ReadControlPlane(NO_ID));
    case AtStart => s := NP.Common(NP.Begin);
    case AtFinalizerPatch => s := NP.Common(NP.Patch(false));
    case AtServiceInit => s := NP.Common(NP.NewService(false));
    case AtReconcile => s := NP.Nodepool(if f.mem.poolId != NO_ID then NP.ShowNodepool(ShowFailed) else NP.CreateNodepool(MakeFailed));
    case AtCreate => s := NP.Nodepool(NP.CreateNodepool(MakeFailed));
    case AtStatus(_, _) => s := NP.Nodepool(NP.ObserveStatus);
    case AtListNodes(_, _) => s := NP.Nodepool(NP.ListNodes(None));
    case AtStatusPatch(_, _) => s := NP.Common(NP.Patch(false));
    case AtWait(left) => s := NP.Nodepool(if left > 0 then NP.ShowNodepool(ShowFailed) else NP.GiveUp);
    case AtWaited => s := NP.Nodepool(NP.ShowNodepool(ShowFailed));
    case AtReconciled => s := NP.Common(NP.MarkReady);
    case AtFailing => s := NP.Common(NP.MarkFailed);
    case AtDeleteInit => s := NP.Common(NP.NewService(false));
    case AtDeleteShow => s := NP.Nodepool(NP.ShowNodepool(ShowFailed));
    case AtDeleteMark => s := NP.Teardown(NP.MarkDeleting);
    case AtDeleteMarkPatch => s := NP.Common(NP.Patch(false));
    case AtDeleteCall => s := NP.Teardown(NP.DeleteNodepool(RemovalFailed));
    case AtDeleteWait(left) => s := NP.Nodepool(if left > 0 then NP.ShowNodepool(ShowFailed) else NP.GiveUp);
    case AtDeleteReport(_) => s := NP.Teardown(NP.ReportDeletion);
    case AtDeleteReportPatch(_) => s := NP.Common(NP.Patch(false));
    case AtDeleteDone(_) => s := NP.Teardown(NP.RemoveFinalizer);
  }

  /** Whatever the answers are, a pool reconcile makes at most 200 steps, and stops only at its end. */
  lemma {:induction false} PoolReconcileEnds(f: NP.PoolFrame, calls: seq<NP.PoolStep>, g: NP.PoolFrame)
    requires PoolMakes(f, calls, g)
    ensures |calls| <= PoolStepsLeft(f.pc)
    ensures f.pc.AtReadControlPlane? ==> |calls| <= 200
    ensures (forall s :: !NP.PoolGuard(g, s)) <==> g.pc.Closing?
    decreases |calls|
  {
    if calls == [] {
      if !g.pc.Closing? {
        var s := SomePoolStepIsNext(g);
      }
    } else {
      PoolStepsComeCloser(f, calls[0]);
      PoolReconcileEnds(NP.PoolNext(f, calls[0]), calls[1..], g);
    }
  }
}
