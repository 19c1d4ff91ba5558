/** What each group of control-plane steps leaves alone. */
module Footprints {
  import opened Types
  import opened ControlPlaneProgram
  import opened ControlPlaneFrames

  /** The object apart from its conditions. */
  function Unconditioned(m: ControlPlane): ControlPlane {
    m.(status := m.status.(conds := map[]))
  }

  predicate IsCreating(m: ControlPlane) {
    IsTrue(m.status.conds, ControlPlaneCreating)
  }

  /** The reconciler and the scope: only the finalizer and conditions. */
  lemma CommonSpares(f: CPFrame, s: CommonStep)
    requires CommonGuard(f, s) && ModeInv(f.mem, f.pc)
    ensures var m := CommonAdvance(f, s).0;
            && Unconditioned(m) == Unconditioned(f.mem).(finalizer := m.finalizer)
            && IsCreating(m) == IsCreating(f.mem)
    ensures !CommonAdvance(f, s).1.AtEipCreate? && !CommonAdvance(f, s).1.AtEipBind?
    ensures !CommonAdvance(f, s).1.AtDeleteCall?
  {
  }

  /** The network: only the VPC id, the subnet id and conditions. */
  lemma NetworkSpares(f: CPFrame, s: NetworkStep)
    requires NetworkGuard(f, s)
    ensures var m := NetworkAdvance(f, s).0;
            && Unconditioned(m) == Unconditioned(f.mem).(spec := m.spec)
            && m.spec == f.mem.spec.(vpcId := m.spec.vpcId, subnetId := m.spec.subnetId)
            && IsCreating(m) == IsCreating(f.mem)
    ensures !NetworkAdvance(f, s).1.AtEipCreate? && !NetworkAdvance(f, s).1.AtEipBind?
  {
  }

  /** The cluster: only its id and the status, and of the status neither the public IP nor Initialized. */
  lemma ClusterSpares(f: CPFrame, s: ClusterStep)
    requires ClusterGuard(f, s)
    ensures var m := ClusterAdvance(f, s).0;
            && m == f.mem.(clusterId := m.clusterId, status := m.status)
            && m.status.eip == f.mem.status.eip && m.status.initialized == f.mem.status.initialized
            && (m.clusterId == f.mem.clusterId || (s.CreateCluster? && s.cluster.Done? && m.clusterId == s.cluster.id))
    ensures !ClusterAdvance(f, s).1.AtEipCreate? && !ClusterAdvance(f, s).1.AtEipBind?
  {
  }

  /** Public IP, endpoint and kubeconfig: only the recorded public IP, Initialized and the endpoint. */
  lemma AccessSpares(f: CPFrame, s: AccessStep)
    requires AccessGuard(f, s)
    ensures var m := AccessAdvance(f, s).0;
            && m == f.mem.(spec := m.spec, status := m.status)
            && m.spec == f.mem.spec.(endpoint := m.spec.endpoint)
            && m.status == f.mem.status.(eip := m.status.eip, initialized := m.status.initialized)
  {
  }

  /** The deletion: only the finalizer. */
  lemma TeardownSpares(f: CPFrame, s: TeardownStep)
    requires TeardownGuard(f, s)
    ensures var m := TeardownAdvance(f, s).0;
            m == f.mem.(finalizer := m.finalizer)
    ensures !TeardownAdvance(f, s).1.AtEipCreate? && !TeardownAdvance(f, s).1.AtEipBind?
  {
  }
}
