/** The remaining records of a control plane: creation events, ids persisted with Ready, the kubeconfig
    secret behind Initialized, and the endpoints that the managed cluster copies. */
module Records {
  import opened Types
  import opened Protocol
  import opened Invariants
  import opened Footprints
  import opened Leakage
  import CP = ControlPlaneProgram
  import Frames = ControlPlaneFrames

  /** Creation events, and the one that a True Creating condition still promises, are paid for by created
      clusters and lost writes. */
  predicate EventsPaid(h: PlaneHistory, m: ControlPlane) {
    h.announcements + (if IsCreating(m) then 1 else 0) <= h.clusterCreates + h.lostWrites
  }

  /** The places between the observation of an available cluster and the next successful patch. */
  predicate SavesAvailable(pc: CP.Pc) {
    (pc.AtStatusPatch? && pc.phase == Available) || pc == CP.AtFailing(ControlPlaneReady) || pc == CP.Closing(Errored)
  }

  /** A persisted Creating condition that the reconcile in flight has settled is about to be saved. */
  predicate SettledIsSaved(p: Plane) {
    p.inFlight.Some? && IsCreating(p.obj) && !IsCreating(p.inFlight.value.mem) ==> SavesAvailable(p.inFlight.value.pc)
  }

  /** A control plane that is or becomes Initialized has its secret. */
  predicate InitializedHasSecret(p: Plane) {
    (p.obj.status.initialized || Tracked(p).status.initialized) ==> p.secret.Some?
  }

  predicate EndpointsRecorded(p: Plane) {
    |p.hist.endpoints| > 0 && p.hist.endpoints[|p.hist.endpoints| - 1] == p.obj.spec.endpoint
  }

  predicate ReadyRecorded(p: Plane) {
    p.obj.status.ready ==> p.obj.clusterId in p.hist.readyIds
  }

  /** The records other than the settled condition. */
  predicate OtherRecords(p: Plane) {
    EventsPaid(p.hist, Tracked(p)) && InitializedHasSecret(p) && EndpointsRecorded(p) && ReadyRecorded(p)
  }

  predicate RecordsInv(p: Plane) {
    OtherRecords(p) && SettledIsSaved(p)
  }

  lemma ClusterPaysEvents(h: PlaneHistory, f: CP.CPFrame, s: CP.ClusterStep)
    requires CP.ClusterGuard(f, s) && EventsPaid(h, f.mem)
    ensures EventsPaid(ClusterHistory(h, f, s), CP.ClusterAdvance(f, s).0)
  {
  }

  lemma DoKeepsSettled(p: Plane, f: CP.CPFrame, s: CP.CPStep)
    requires p.inFlight == Some(f) && CP.CPGuard(f, s) && Frames.ModeInv(f.mem, f.pc) && SettledIsSaved(p)
    ensures SettledIsSaved(PlaneEffect(p, f, s).(inFlight := Some(CP.CPNext(f, s))))
  {
    match s
    case Common(s') => CommonSpares(f, s');
    case Network(s') => NetworkSpares(f, s');
    case Cluster(s') =>
    case Access(s') => AccessSpares(f, s');
    case Teardown(s') => TeardownSpares(f, s');
  }

  lemma CommonKeepsOthers(p: Plane, f: CP.CPFrame, s: CP.CommonStep)
    requires p.inFlight == Some(f) && CP.CommonGuard(f, s) && Frames.ModeInv(f.mem, f.pc) && OtherRecords(p)
    ensures OtherRecords(PlaneEffect(p, f, CP.Common(s)).(inFlight := Some(CP.CPNext(f, CP.Common(s)))))
  {
    CommonSpares(f, s);
  }

  lemma NetworkKeepsOthers(p: Plane, f: CP.CPFrame, s: CP.NetworkStep)
    requires p.inFlight == Some(f) && CP.NetworkGuard(f, s) && OtherRecords(p)
    ensures OtherRecords(PlaneEffect(p, f, CP.Network(s)).(inFlight := Some(CP.CPNext(f, CP.Network(s)))))
  {
    NetworkSpares(f, s);
  }

  lemma ClusterKeepsOthers(p: Plane, f: CP.CPFrame, s: CP.ClusterStep)
    requires p.inFlight == Some(f) && CP.ClusterGuard(f, s) && OtherRecords(p)
    ensures OtherRecords(PlaneEffect(p, f, CP.Cluster(s)).(inFlight := Some(CP.CPNext(f, CP.Cluster(s)))))
  {
    ClusterSpares(f, s);
    ClusterPaysEvents(p.hist, f, s);
  }

  lemma AccessKeepsOthers(p: Plane, f: CP.CPFrame, s: CP.AccessStep)
    requires p.inFlight == Some(f) && CP.AccessGuard(f, s) && OtherRecords(p)
    ensures OtherRecords(PlaneEffect(p, f, CP.Access(s)).(inFlight := Some(CP.CPNext(f, CP.Access(s)))))
  {
    AccessSpares(f, s);
  }

  lemma TeardownKeepsOthers(p: Plane, f: CP.CPFrame, s: CP.TeardownStep)
    requires p.inFlight == Some(f) && CP.TeardownGuard(f, s) && OtherRecords(p)
    ensures OtherRecords(PlaneEffect(p, f, CP.Teardown(s)).(inFlight := Some(CP.CPNext(f, CP.Teardown(s)))))
  {
    TeardownSpares(f, s);
  }

  lemma DoKeepsOthers(p: Plane, f: CP.CPFrame, s: CP.CPStep)
    requires p.inFlight == Some(f) && CP.CPGuard(f, s) && Frames.ModeInv(f.mem, f.pc) && OtherRecords(p)
    ensures OtherRecords(PlaneEffect(p, f, s).(inFlight := Some(CP.CPNext(f, s))))
  {
    match s
    case Common(s') => CommonKeepsOthers(p, f, s');
    case Network(s') => NetworkKeepsOthers(p, f, s');
    case Cluster(s') => ClusterKeepsOthers(p, f, s');
    case Access(s') => AccessKeepsOthers(p, f, s');
    case Teardown(s') => TeardownKeepsOthers(p, f, s');
  }

  lemma EndKeepsRecords(p: Plane, f: CP.CPFrame)
    requires p.inFlight == Some(f) && RecordsInv(p)
    ensures RecordsInv(Lose(p, f)) && RecordsInv(Save(p, f.mem).(inFlight := None))
  {
  }

  lemma RecordsKept(w: World, s: Step)
    requires FrameOk(w.plane) && Enabled(w, s) && RecordsInv(w.plane)
    ensures RecordsInv(Apply(w, s).plane)
  {
    match s
    case User(u) =>
    case ByCloud(change) =>
    case ByPlane(Do(cps)) =>
      DoKeepsOthers(w.plane, w.plane.inFlight.value, cps);
      DoKeepsSettled(w.plane, w.plane.inFlight.value, cps);
    case ByPlane(Open) =>
    case ByPlane(Leave) =>
    case ByPlane(Close(_)) => EndKeepsRecords(w.plane, w.plane.inFlight.value);
    case ByPlane(Crash) => EndKeepsRecords(w.plane, w.plane.inFlight.value);
    case ByPool(key, move) =>
    case ByCopy(_) =>
  }

  // ---------------------------------------------------------------- the lagging copy

  /** The managed cluster holds zero or the last of the first `copied` endpoints, and a reconcile in flight
      holds a later or equal one. */
  predicate MirrorInv(p: Plane, mi: Mirror) {
    && mi.copied <= |p.hist.endpoints|
    && mi.obj == (if mi.copied == 0 then ManagedCluster(false, ZERO_ENDPOINT)
                  else ManagedCluster(true, p.hist.endpoints[mi.copied - 1]))
    && (mi.inFlight.Some? ==>
          var f := mi.inFlight.value;
          mi.copied <= f.upTo <= |p.hist.endpoints| && f.upTo > 0 && f.endpoint == p.hist.endpoints[f.upTo - 1])
  }

  lemma EndpointsGrow(p: Plane, c: Cloud, labelled: nat, move: PlaneMove)
    requires PlaneEnabled(p, c, labelled, move)
    ensures p.hist.endpoints <= PlaneAfter(p, c, labelled, move).hist.endpoints
  {
  }

  lemma MirrorKept(w: World, s: Step)
    requires Enabled(w, s) && EndpointsRecorded(w.plane) && MirrorInv(w.plane, w.mirror)
    ensures MirrorInv(Apply(w, s).plane, Apply(w, s).mirror)
    ensures w.mirror.copied <= Apply(w, s).mirror.copied
    ensures w.mirror.obj.ready ==> Apply(w, s).mirror.obj.ready
  {
    match s
    case ByPlane(move) => EndpointsGrow(w.plane, w.cloud, |Labelled(w.fleet)|, move);
    case _ =>
  }
}
