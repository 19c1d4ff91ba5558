/** Which endpoint a control-plane reconcile leaves behind, and what a ready pass has seen to before. */
module EndpointChoice {
  import opened Types
  import opened Endpoints
  import opened Protocol
  import opened Invariants
  import opened Footprints
  import CP = ControlPlaneProgram
  import Frames = ControlPlaneFrames

  /** The places between the endpoint loops and the written kubeconfig. */
  predicate WritesSecret(pc: CP.Pc) {
    pc.AtSecretGet? || pc.AtCert? || pc.AtSecretWrite?
  }

  /** Before the endpoint loops, the endpoint and Initialized are as persisted; after them, the endpoint is
      what the loops made of the persisted one, and nothing is patched any more before the final Close. */
  predicate ChoiceInv(obj: ControlPlane, m: ControlPlane, pc: CP.Pc, chosen: Option<Option<seq<EndpointEntry>>>) {
    match chosen
    case None => m.spec.endpoint == obj.spec.endpoint && m.status.initialized == obj.status.initialized && !WritesSecret(pc)
    case Some(list) =>
      && m.spec.endpoint == Choose(list, obj.spec.endpoint).0
      && (WritesSecret(pc) || pc.AtReconciled? || pc.AtFailing? || pc.Closing?)
      && (WritesSecret(pc) || pc.AtReconciled? || pc == CP.Closing(Finished) ==> Choose(list, obj.spec.endpoint).1)
  }

  /** A pass runs the endpoint loops exactly when the control plane is ready, and by then the cluster has the
      public endpoint that it should have. */
  predicate ReadyInv(c: Cloud, m: ControlPlane, pc: CP.Pc, chosen: Option<Option<seq<EndpointEntry>>>) {
    && (chosen.Some? ==> m.status.ready && !m.deleting)
    && (pc.AtReconciled? || (pc == CP.Closing(Finished) && !m.deleting) ==> (chosen.Some? <==> m.status.ready))
    && (chosen.Some? || pc.AtFinalShow? || pc.AtEndpoint? ==>
          m.spec.publicAccess.Some? && (m.spec.publicAccess.value.GetOr(true) ==> m.clusterId in c.eipOf))
  }

  predicate EndpointInv(p: Plane, c: Cloud) {
    p.inFlight.Some? ==>
      var f := p.inFlight.value;
      ChoiceInv(p.obj, f.mem, f.pc, f.chosen) && ReadyInv(c, f.mem, f.pc, f.chosen)
      && (f.pc.AtEipShow? || f.pc.AtEipCreate? || f.pc.AtEipBind? ==> f.mem.spec.publicAccess.Some?)
  }

  lemma AccessKeepsChoice(obj: ControlPlane, f: CP.CPFrame, s: CP.AccessStep)
    requires CP.AccessGuard(f, s) && ChoiceInv(obj, f.mem, f.pc, f.chosen)
    ensures var (m, pc) := CP.AccessAdvance(f, s);
            ChoiceInv(obj, m, pc, if s == CP.ChooseEndpoint then Some(f.pc.entries) else f.chosen)
  {
  }

  lemma AccessKeepsReady(p: Plane, c: Cloud, f: CP.CPFrame, s: CP.AccessStep)
    requires CP.AccessGuard(f, s) && AccessAllowed(p, c, f.mem, s) && Frames.FrameInv(f.mem, f.pc)
    requires EndpointInv(p, c) && p.inFlight == Some(f)
    ensures var (m, pc) := CP.AccessAdvance(f, s);
            && ReadyInv(AccessCloud(c, f.mem, s), m, pc, if s == CP.ChooseEndpoint then Some(f.pc.entries) else f.chosen)
            && (pc.AtEipShow? || pc.AtEipCreate? || pc.AtEipBind? ==> m.spec.publicAccess.Some?)
  {
    AccessSpares(f, s);
  }

  lemma CommonKeepsChoice(p: Plane, f: CP.CPFrame, s: CP.CommonStep)
    requires CP.CommonGuard(f, s) && ChoiceInv(p.obj, f.mem, f.pc, f.chosen) && Frames.ModeInv(f.mem, f.pc)
    ensures var (m, pc) := CP.CommonAdvance(f, s);
            ChoiceInv(PlaneEffect(p, f, CP.Common(s)).obj, m, pc, f.chosen)
  {
    CommonSpares(f, s);
  }

  lemma OthersKeepChoice(p: Plane, f: CP.CPFrame, s: CP.CPStep)
    requires CP.CPGuard(f, s) && !s.Access? && ChoiceInv(p.obj, f.mem, f.pc, f.chosen) && Frames.ModeInv(f.mem, f.pc)
    ensures var (m, pc) := CP.Advance(f, s);
            ChoiceInv(PlaneEffect(p, f, s).obj, m, pc, f.chosen)
  {
    match s
    case Common(s') => CommonKeepsChoice(p, f, s');
    case Network(s') => NetworkSpares(f, s');
    case Cluster(s') => ClusterSpares(f, s');
    case Teardown(s') => TeardownSpares(f, s');
  }

  lemma CommonKeepsReady(c: Cloud, f: CP.CPFrame, s: CP.CommonStep)
    requires CP.CommonGuard(f, s) && Frames.FrameInv(f.mem, f.pc) && ReadyInv(c, f.mem, f.pc, f.chosen)
    requires f.chosen.Some? ==> f.pc.AtReconciled? || f.pc.AtFailing?
    ensures var (m, pc) := CP.CommonAdvance(f, s);
            ReadyInv(c, m, pc, f.chosen) && (pc.AtEipShow? || pc.AtEipCreate? || pc.AtEipBind? ==> m.spec.publicAccess.Some?)
  {
    CommonSpares(f, s);
  }

  lemma ClusterKeepsReady(c: Cloud, f: CP.CPFrame, s: CP.ClusterStep)
    requires CP.ClusterGuard(f, s) && Frames.FrameInv(f.mem, f.pc) && ReadyInv(c, f.mem, f.pc, f.chosen)
    requires f.chosen.None?
    ensures var (m, pc) := CP.ClusterAdvance(f, s);
            ReadyInv(ClusterCloud(c, s), m, pc, f.chosen) && !pc.AtEipShow? && !pc.AtEipCreate? && !pc.AtEipBind?
  {
    ClusterSpares(f, s);
  }

  lemma OthersKeepReady(p: Plane, c: Cloud, f: CP.CPFrame, s: CP.CPStep)
    requires CP.CPGuard(f, s) && !s.Access? && Frames.FrameInv(f.mem, f.pc)
    requires EndpointInv(p, c) && p.inFlight == Some(f)
    ensures var (m, pc) := CP.Advance(f, s);
            && ReadyInv(PlaneCloud(p, c, Do(s)), m, pc, f.chosen)
            && (pc.AtEipShow? || pc.AtEipCreate? || pc.AtEipBind? ==> m.spec.publicAccess.Some?)
  {
    match s
    case Common(s') => CommonKeepsReady(c, f, s');
    case Network(s') => NetworkSpares(f, s');
    case Cluster(s') => ClusterKeepsReady(c, f, s');
    case Teardown(s') => TeardownSpares(f, s');
  }

  lemma EndpointKept(w: World, s: Step)
    requires FrameOk(w.plane) && Base(w.plane, w.cloud) && Enabled(w, s) && EndpointInv(w.plane, w.cloud)
    ensures EndpointInv(Apply(w, s).plane, Apply(w, s).cloud)
  {
    match s
    case ByPlane(Do(Access(a))) =>
      AccessKeepsChoice(w.plane.obj, w.plane.inFlight.value, a);
      AccessKeepsReady(w.plane, w.cloud, w.plane.inFlight.value, a);
    case ByPlane(Do(cps)) =>
      OthersKeepChoice(w.plane, w.plane.inFlight.value, cps);
      OthersKeepReady(w.plane, w.cloud, w.plane.inFlight.value, cps);
    case ByPlane(_) =>
    case ByCloud(change) => CloudMoves(w.plane, w.cloud, change);
    case ByPool(key, move) => PoolMoves(w.plane, w.fleet, w.cloud, key, move);
    case _ =>
  }
}
