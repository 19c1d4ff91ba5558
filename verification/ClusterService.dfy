/** cluster.go: bringing a control plane up. */
module ClusterService {
  import opened Types
  import opened StatusRules
  import opened Endpoints
  import opened Kubeconfigs
  import opened Environment
  import opened ControlPlaneScope
  import opened AccessService
  import opened Waiting
  import CP = ControlPlaneProgram

  /** Everything but the cluster id, the endpoint and the status. */
  function OutsideCluster(m: ControlPlane): ControlPlane {
    m.(clusterId := NO_ID,
       spec := m.spec.(endpoint := ZERO_ENDPOINT),
       status := ControlPlaneStatus(false, false, None, NO_ID, map[]))
  }

  /** Everything but the cluster id and the status; Initialized is kept. */
  function Unobserved(m: ControlPlane): ControlPlane {
    m.(clusterId := NO_ID, status := ControlPlaneStatus(false, m.status.initialized, None, NO_ID, map[]))
  }

  function WithStatus(m: ControlPlane, st: ClusterStatus): ControlPlane {
    m.(status := Observe(m.status, st))
  }

  /** The creation events of an observation: exactly one for an Available cluster while the Creating condition is
      True. */
  function Announced(m: ControlPlane, st: ClusterStatus): nat {
    if st.phase == Available && ControlPlaneCreating in m.status.conds && m.status.conds[ControlPlaneCreating].status then 1 else 0
  }

  /** The switch of setStatus on the object in memory, and the event it records. */
  method ApplyPhase(scope: ManagedControlPlaneScope, st: ClusterStatus) returns (recognised: bool)
    modifies scope, scope.controlPlane
    ensures recognised == Recognised(st.phase)
    ensures scope.controlPlane.Value() == WithStatus(old(scope.controlPlane.Value()), st)
    ensures scope.events == old(scope.events) + Announced(old(scope.controlPlane.Value()), st)
  {
    var cp := scope.controlPlane;
    match st.phase {
      case Deleting =>
        cp.ready := false;
      case Unavailable =>
        cp.ready := false;
        cp.failure := Some(FailureText(st));
      case Available =>
        cp.ready := true;
        cp.failure := None;
        if IsTrue(cp.conds, ControlPlaneCreating) {
          scope.events := scope.events + 1;
          cp.MarkFalse(ControlPlaneCreating, CreatedReason);
        }
        if IsTrue(cp.conds, ControlPlaneUpdating) {
          cp.MarkFalse(ControlPlaneUpdating, UpdatedReason);
        }
      case Creating =>
        cp.ready := false;
      case Upgrading =>
        cp.ready := true;
      case OtherPhase(_) =>
        return false;
    }
    return true;
  }

  /** The switch, and the machine's step that goes with it. */
  method Observes(scope: ManagedControlPlaneScope, st: ClusterStatus, ghost shown: Option<ClusterInfo>, ghost again: bool)
    returns (recognised: bool)
    requires scope.At(CP.AtStatus(st, shown, again))
    modifies scope.env, scope, scope.controlPlane
    ensures recognised == Recognised(st.phase)
    ensures scope.At(if recognised then CP.AtStatusPatch(st.phase, shown, again) else CP.AtFailing(ControlPlaneReady))
    ensures scope.env.Kept() == old(scope.env.Kept()) && old(scope.env.trace) <= scope.env.trace
    ensures scope.env.calls == old(scope.env.calls) + [CP.Cluster(CP.ObserveStatus)]
    ensures scope.controlPlane.Value() == WithStatus(old(scope.controlPlane.Value()), st)
    ensures scope.events == old(scope.events) + Announced(old(scope.controlPlane.Value()), st)
  {
    recognised := ApplyPhase(scope, st);
    scope.env.Local(CP.Cluster(CP.ObserveStatus));
  }

  /** Where the code goes on after setStatus. */
  function AfterSetStatus(ok: bool, m: ControlPlane, phase: ClusterPhase, shown: Option<ClusterInfo>, again: bool): CP.Pc {
    if ok then CP.AfterStatus(m, phase, shown, again) else CP.AtFailing(ControlPlaneReady)
  }

  lemma PatchSettles(f: CP.CPFrame, saved: bool)
    requires f.pc.AtStatusPatch?
    ensures CP.AfterPatch(f, saved) == AfterSetStatus(saved, f.mem, f.pc.phase, f.pc.shown, f.pc.again)
  {
  }

  /** The calls of setStatus: a recognised phase is patched. */
  predicate StatusLog(before: seq<CP.CPStep>, after: seq<CP.CPStep>, phase: ClusterPhase, ok: bool) {
    if phase.OtherPhase? then !ok && after == before + [CP.Cluster(CP.ObserveStatus)]
    else after == before + [CP.Cluster(CP.ObserveStatus)] + [CP.Common(CP.Patch(ok))]
  }

  /** The observed phase is applied; a phase that is not recognised changes nothing and is an error; success
      means that the result was persisted. */
  method SetStatus(scope: ManagedControlPlaneScope, st: ClusterStatus, ghost shown: Option<ClusterInfo>, ghost again: bool)
    returns (ok: bool)
    requires scope.At(CP.AtStatus(st, shown, again))
    modifies scope.env, scope, scope.controlPlane
    ensures scope.At(AfterSetStatus(ok, scope.controlPlane.Value(), st.phase, shown, again))
    ensures scope.env.Kept() == old(scope.env.Kept()) && old(scope.env.trace) <= scope.env.trace
    ensures scope.controlPlane.Value() == WithStatus(old(scope.controlPlane.Value()), st)
    ensures scope.events == old(scope.events) + Announced(old(scope.controlPlane.Value()), st)
    ensures StatusLog(old(scope.env.calls), scope.env.calls, st.phase, ok)
    ensures ok ==> scope.env.world.plane.obj == scope.controlPlane.Value().(deleting := scope.env.world.plane.obj.deleting)
  {
    var recognised := Observes(scope, st, shown, again);
    if !recognised {
      return false;
    }
    ghost var f := scope.env.Frame();
    ok := scope.PatchObject();
    PatchSettles(f, ok);
  }

  /** Where the code goes on after waitForClusterActive. */
  function AfterWait(r: Outcome, m: ControlPlane, cluster: Option<ClusterInfo>): CP.Pc {
    match r
    case Success => if cluster.Some? then CP.AfterStatus(m, cluster.value.status.phase, cluster, true) else CP.AtWaited
    case Failure => CP.AtFailing(ControlPlaneReady)
    case Panic => CP.Closing(Panicked)
  }

  /** The object after the second show, and its status, if the answer was one. */
  function AfterAgain(m: ControlPlane, again: Option<ClusterInfo>): ControlPlane {
    if again.Some? then WithStatus(m, again.value.status) else m
  }

  /** The calls of the second half of waitForClusterActive. */
  predicate ShowsAgain(before: seq<CP.CPStep>, after: seq<CP.CPStep>, again: Option<ClusterInfo>, r: Outcome) {
    && before < after && after[|before|].Cluster? && after[|before|].cluster.ShowCluster?
    && match after[|before|].cluster.answer
       case ShowFailed => |after| == |before| + 1 && again.None? && r == Failure
       case Missing => |after| == |before| + 1 && again.None? && r == Panic
       case Found(info) =>
         again == Some(info) && r != Panic && StatusLog(after[..|before| + 1], after, info.status.phase, r == Success)
  }

  lemma StatusFollowsShow(before: seq<CP.CPStep>, after: seq<CP.CPStep>, info: ClusterInfo, ok: bool)
    requires StatusLog(before + [CP.Cluster(CP.ShowCluster(Found(info)))], after, info.status.phase, ok)
    ensures ShowsAgain(before, after, Some(info), if ok then Success else Failure)
  {
    assert after[..|before| + 1] == before + [CP.Cluster(CP.ShowCluster(Found(info)))];
  }

  /** The second half of waitForClusterActive. */
  method ShowAgain(scope: ManagedControlPlaneScope) returns (r: Outcome, cluster: Option<ClusterInfo>)
    requires scope.At(CP.AtWaited) && scope.InfraClusterID() != NO_ID
    modifies scope.env, scope, scope.controlPlane
    ensures scope.At(AfterWait(r, scope.controlPlane.Value(), cluster)) && (r.Success? ==> cluster.Some?)
    ensures scope.env.Kept() == old(scope.env.Kept()) && old(scope.env.trace) <= scope.env.trace
    ensures ShowsAgain(old(scope.env.calls), scope.env.calls, cluster, r)
    ensures scope.controlPlane.Value() == AfterAgain(old(scope.controlPlane.Value()), cluster)
    ensures r.Success? ==> scope.env.world.plane.obj == scope.controlPlane.Value().(deleting := scope.env.world.plane.obj.deleting)
  {
    ghost var before := scope.env.calls;
    var answer := scope.env.ShowCluster();
    if answer.ShowFailed? {
      return Failure, None;
    }
    if answer.Missing? {
      return Panic, None;
    }
    cluster := Some(answer.value);
    var ok := SetStatus(scope, answer.value.status, cluster, true);
    StatusFollowsShow(before, scope.env.calls, answer.value, ok);
    return if ok then Success else Failure, cluster;
  }

  /** The calls of waitForClusterActive, of which `waited` are those up to the end of the wait: fewer than 40 shows of
      another phase and then one of Available, after which the cluster is shown and its status set once more; or
      a wait that failed. */
  predicate WaitsAndShows(before: seq<CP.CPStep>, waited: seq<CP.CPStep>, after: seq<CP.CPStep>, again: Option<ClusterInfo>, r: Outcome) {
    if ClusterWait(before, waited, true, Success) then ShowsAgain(waited, after, again, r)
    else after == waited && again.None? && r != Success && ClusterWait(before, waited, true, r)
  }

  /** Success means that the cluster was seen Available within 40 polls, and that its status was then shown,
      applied and persisted once more: it need not be Available any longer. */
  method WaitForClusterActive(scope: ManagedControlPlaneScope) returns (r: Outcome, cluster: Option<ClusterInfo>, ghost waited: seq<CP.CPStep>)
    requires scope.At(CP.AtWait(MAX_POLLS)) && scope.InfraClusterID() != NO_ID
    modifies scope.env, scope, scope.controlPlane
    ensures scope.At(AfterWait(r, scope.controlPlane.Value(), cluster)) && (r.Success? ==> cluster.Some?)
    ensures WaitsAndShows(old(scope.env.calls), waited, scope.env.calls, cluster, r)
    ensures scope.env.Kept() == old(scope.env.Kept()) && old(scope.env.trace) <= scope.env.trace
    ensures scope.controlPlane.Value() == AfterAgain(old(scope.controlPlane.Value()), cluster)
    ensures r.Success? ==> scope.env.world.plane.obj == scope.controlPlane.Value().(deleting := scope.env.world.plane.obj.deleting)
  {
    ghost var log := LogOf(scope.env, ClusterIsActive);
    ghost var polls;
    r, polls := WaitUntil(scope.env, ClusterIsActive, MAX_POLLS);
    waited := scope.env.calls;
    ClusterWaitEnds(true, log, LogOf(scope.env, ClusterIsActive), polls, r);
    cluster := None;
    if r.Success? {
      r, cluster := ShowAgain(scope);
    }
  }

  method CreateCluster(scope: ManagedControlPlaneScope) returns (created: Option<ClusterStatus>)
    requires scope.Synced() && CP.ClusterGuard(scope.env.Frame(), CP.CreateCluster(MakeFailed))
    modifies scope.env, scope.controlPlane
    ensures scope.env.Running() && scope.env.Kept() == old(scope.env.Kept()) && old(scope.env.trace) <= scope.env.trace
    ensures match created
            case Some(st) => scope.At(CP.AtStatus(st, None, false)) && scope.InfraClusterID() != NO_ID
            case None => scope.At(CP.AtFailing(ControlPlaneReady))
    ensures var before, after := old(scope.env.calls), scope.env.calls;
            |after| == |before| + 1 && before <= after
            && Creates(after[|before|], created, old(scope.controlPlane.Value()), scope.controlPlane.Value())
  {
    var made := scope.env.CreateCluster();
    if !made.Done? {
      return None;
    }
    scope.SetInfraClusterID(made.id);
    scope.controlPlane.MarkTrue(ControlPlaneCreating);
    return Some(made.value);
  }

  // ---------------------------------------------------------------- reconcileCluster

  /** The calls of the start of reconcileCluster from the object m to the object m': without a recorded id a
      create; else a show, and a create exactly after a 404. */
  predicate FindsOrCreates(before: seq<CP.CPStep>, after: seq<CP.CPStep>, m: ControlPlane, m': ControlPlane,
                           status: Option<ClusterStatus>, cluster: Option<ClusterInfo>) {
    var n := |before|;
    && before < after
    && if m.clusterId == NO_ID then |after| == n + 1 && cluster.None? && Creates(after[n], status, m, m')
       else
         && after[n].Cluster? && after[n].cluster.ShowCluster?
         && match after[n].cluster.answer
            case Found(info) => |after| == n + 1 && cluster == Some(info) && status == Some(info.status) && m' == m
            case ShowFailed => |after| == n + 1 && cluster.None? && status.None? && m' == m
            case Missing => |after| == n + 2 && cluster.None? && Creates(after[n + 1], status, m, m')
  }

  /** A create call whose answer is the status; the id of a cluster that was made is recorded, and the Creating
      condition marked. */
  predicate Creates(s: CP.CPStep, status: Option<ClusterStatus>, m: ControlPlane, m': ControlPlane) {
    && s.Cluster? && s.cluster.CreateCluster?
    && var made := s.cluster.cluster;
       if made.Done? then
         && status == Some(made.value)
         && m' == m.(clusterId := made.id, status := m.status.(conds := m.status.conds[ControlPlaneCreating := TRUE_CONDITION]))
       else status.None? && m' == m
  }

  /** The start of reconcileCluster: the recorded cluster, or a new one when none is recorded or it is gone. */
  method FindOrCreate(scope: ManagedControlPlaneScope) returns (status: Option<ClusterStatus>, cluster: Option<ClusterInfo>)
    requires scope.At(CP.AtCluster)
    modifies scope.env, scope.controlPlane
    ensures scope.env.Running() && scope.env.Kept() == old(scope.env.Kept()) && old(scope.env.trace) <= scope.env.trace
    ensures match status
            case Some(st) => scope.At(CP.AtStatus(st, cluster, false)) && scope.InfraClusterID() != NO_ID
            case None => scope.At(CP.AtFailing(ControlPlaneReady)) && cluster.None?
    ensures FindsOrCreates(old(scope.env.calls), scope.env.calls, old(scope.controlPlane.Value()), scope.controlPlane.Value(), status, cluster)
  {
    cluster := None;
    ghost var before, m := scope.env.calls, scope.controlPlane.Value();
    if scope.InfraClusterID() != NO_ID {
      var answer := scope.env.ShowCluster();
      if !answer.Missing? {
        ShowFinds(before, m, answer);
      }
      if answer.ShowFailed? {
        return None, None;
      }
      if answer.Found? {
        return Some(answer.value.status), Some(answer.value);
      }
    }
    ghost var mid := scope.env.calls;
    status := CreateCluster(scope);
    CreateFinds(before, mid, scope.env.calls, m, scope.controlPlane.Value(), status);
  }

  lemma ShowFinds(before: seq<CP.CPStep>, m: ControlPlane, answer: Shown<ClusterInfo>)
    requires m.clusterId != NO_ID && !answer.Missing?
    ensures FindsOrCreates(before, before + [CP.Cluster(CP.ShowCluster(answer))], m, m,
                           if answer.Found? then Some(answer.value.status) else None, if answer.Found? then Some(answer.value) else None)
  {
  }

  lemma CreateFinds(before: seq<CP.CPStep>, mid: seq<CP.CPStep>, after: seq<CP.CPStep>, m: ControlPlane, m': ControlPlane, status: Option<ClusterStatus>)
    requires mid == if m.clusterId == NO_ID then before else before + [CP.Cluster(CP.ShowCluster(Missing))]
    requires |after| == |mid| + 1 && mid <= after && Creates(after[|mid|], status, m, m')
    ensures FindsOrCreates(before, after, m, m', status, None)
  {
    assert m.clusterId != NO_ID ==> after[|before|] == mid[|before|];
  }

  /** The two endpoint loops; an entry that does not parse ends them, and the endpoints before it stay set. */
  method ChooseEndpoint(scope: ManagedControlPlaneScope, entries: Option<seq<EndpointEntry>>) returns (ok: bool)
    requires scope.At(CP.AtEndpoint(entries))
    modifies scope.env, scope.controlPlane
    ensures scope.At(if ok then CP.AtSecretGet else CP.AtFailing(ControlPlaneReady))
    ensures scope.env.Frame().chosen == Some(entries) && old(scope.env.trace) <= scope.env.trace
    ensures scope.env.calls == old(scope.env.calls) + [CP.Access(CP.ChooseEndpoint)]
    ensures (scope.controlPlane.endpoint, ok) == Choose(entries, old(scope.controlPlane.endpoint))
    ensures scope.controlPlane.Value() ==
            old(scope.controlPlane.Value()).(spec := old(scope.controlPlane.Value()).spec.(endpoint := scope.controlPlane.endpoint))
  {
    ok := true;
    if entries.Some? {
      var ep;
      ep, ok := ScanLoop(Internal, entries.value, scope.controlPlane.endpoint);
      scope.controlPlane.endpoint := ep;
      if ok {
        ep, ok := ScanLoop(External, entries.value, scope.controlPlane.endpoint);
        scope.controlPlane.endpoint := ep;
      }
    }
    scope.env.Local(CP.Access(CP.ChooseEndpoint));
  }

  function AfterCluster(r: Outcome): CP.Pc {
    match r
    case Success => CP.AtReconciled
    case Failure => CP.AtFailing(ControlPlaneReady)
    case Panic => CP.Closing(Panicked)
  }

  /** What a pass leaves of endpoint, Initialized and the kubeconfig secret: all as they were when the endpoint
      loops did not run; else the endpoint that the loops chose, and Initialized if the pass succeeded. */
  ghost predicate Chosen(scope: ManagedControlPlaneScope, r: Outcome, endpoint: APIEndpoint, initialized: bool, secret: Option<Kubeconfig>)
    reads scope.env, scope.controlPlane
  {
    && scope.env.Running()
    && match scope.env.Frame().chosen
       case None =>
         && scope.controlPlane.endpoint == endpoint && scope.controlPlane.initialized == initialized
         && scope.env.world.plane.secret == secret
       case Some(list) =>
         && scope.controlPlane.endpoint == Choose(list, endpoint).0
         && scope.controlPlane.initialized == (initialized || r.Success?)
         && (r.Success? ==> Choose(list, endpoint).1)
  }

  lemma AfterFinalShow(answer: Shown<ClusterInfo>)
    ensures CP.AfterShow(CP.AtFinalShow, answer) == (match answer
              case ShowFailed => CP.AtFailing(ControlPlaneReady)
              case Missing => CP.Closing(Panicked)
              case Found(info) => CP.AtEndpoint(info.endpoints))
  {
  }

  // ---------------------------------------------------------------- public IP, endpoint and kubeconfig

  /** The calls of the end of reconcileCluster once the cluster has been shown with these endpoints, from the
      object m to the object m': the endpoint loops, which leave what they parsed even when they fail, and then
      the kubeconfig. */
  predicate PublishesFrom(before: seq<CP.CPStep>, after: seq<CP.CPStep>, m: ControlPlane, m': ControlPlane,
                          entries: Option<seq<EndpointEntry>>, secret: Option<Kubeconfig>, r: Outcome) {
    var (ep, ok) := Choose(entries, m.spec.endpoint);
    var chosen, placed := before + [CP.Access(CP.ChooseEndpoint)], m.(spec := m.spec.(endpoint := ep));
    if !ok then after == chosen && m' == placed && r == Failure
    else
      && r != Panic && KubeconfigCalls(chosen, after, placed, secret, r == Success)
      && m' == if r == Success then placed.(status := placed.status.(initialized := true)) else placed
  }

  /** The last show of the cluster, and what is published from it. */
  predicate Publishes(before: seq<CP.CPStep>, after: seq<CP.CPStep>, m: ControlPlane, m': ControlPlane, secret: Option<Kubeconfig>, r: Outcome) {
    && before < after && after[|before|].Cluster? && after[|before|].cluster.ShowCluster?
    && match after[|before|].cluster.answer
       case ShowFailed => |after| == |before| + 1 && m' == m && r == Failure
       case Missing => |after| == |before| + 1 && m' == m && r == Panic
       case Found(info) => PublishesFrom(after[..|before| + 1], after, m, m', info.endpoints, secret, r)
  }

  /** The log and the object before the last show of the cluster. */
  datatype Exposed = Exposed(log: seq<CP.CPStep>, held: ControlPlane)

  /** The end of reconcileCluster for a ready control plane: a public IP, unless EndpointAccess says that the
      cluster is not public, then what is published. */
  predicate Serves(before: seq<CP.CPStep>, after: seq<CP.CPStep>, m: ControlPlane, m': ControlPlane, e: Exposed,
                   secret: Option<Kubeconfig>, r: Outcome) {
    if m.spec.publicAccess == Some(Some(false)) then e == Exposed(before, m) && Publishes(before, after, m, m', secret, r)
    else if EipCalls(before, e.log, m, e.held, true) then Publishes(e.log, after, e.held, m', secret, r)
    else EipCalls(before, e.log, m, e.held, false) && after == e.log && m' == e.held && r == Failure
  }

  /** The same; the quantifier keeps it folded in the methods, which need not look inside. */
  ghost predicate Served(before: seq<CP.CPStep>, after: seq<CP.CPStep>, m: ControlPlane, m': ControlPlane, e: Exposed,
                         secret: Option<Kubeconfig>, r: Outcome) {
    forall b, a, x, y, f, k, s {:trigger Serves(b, a, x, y, f, k, s)} ::
      b == before && a == after && x == m && y == m' && f == e && k == secret && s == r ==> Serves(b, a, x, y, f, k, s)
  }

  /** The end of reconcileCluster for a ready control plane: public IP, endpoint, kubeconfig. */
  method Serve(scope: ManagedControlPlaneScope) returns (r: Outcome, ghost e: Exposed)
    requires scope.env.Running() && scope.At(if scope.controlPlane.publicAccess.Some? && scope.controlPlane.publicAccess.value.GetOr(true)
                                             then CP.AtEipShow else CP.AtFinalShow)
    requires scope.controlPlane.publicAccess.Some? && scope.InfraClusterID() != NO_ID && scope.env.Frame().chosen.None?
    modifies scope.env, scope.controlPlane
    ensures scope.At(AfterCluster(r)) && old(scope.env.trace) <= scope.env.trace
    ensures scope.controlPlane.ready == old(scope.controlPlane.ready) && scope.InfraClusterID() == old(scope.InfraClusterID())
    ensures OutsideCluster(scope.controlPlane.Value()) == old(OutsideCluster(scope.controlPlane.Value()))
    ensures Chosen(scope, r, old(scope.controlPlane.endpoint), old(scope.controlPlane.initialized), old(scope.env.world.plane.secret))
    ensures r.Success? ==> scope.env.Frame().chosen.Some? && SecretUsable(scope)
    ensures Served(old(scope.env.calls), scope.env.calls, old(scope.controlPlane.Value()), scope.controlPlane.Value(), e, scope.env.world.plane.secret, r)
  {
    ghost var before, m := scope.env.calls, scope.controlPlane.Value();
    var ok;
    ok, e := Expose(scope);
    if !ok {
      NotExposed(before, m, e, scope.env.world.plane.secret);
      return Failure, e;
    }
    r := Publish(scope);
    ExposedFirst(before, scope.env.calls, m, scope.controlPlane.Value(), e, scope.env.world.plane.secret, r);
  }

  /** The cluster has its public endpoint, or should not have one: what has been done for it. */
  predicate Exposes(before: seq<CP.CPStep>, m: ControlPlane, e: Exposed, ok: bool) {
    if m.spec.publicAccess == Some(Some(false)) then ok && e == Exposed(before, m) else EipCalls(before, e.log, m, e.held, ok)
  }

  /** The public IP, unless EndpointAccess says that the cluster is not public. */
  method Expose(scope: ManagedControlPlaneScope) returns (ok: bool, ghost e: Exposed)
    requires scope.env.Running() && scope.At(if scope.controlPlane.publicAccess.Some? && scope.controlPlane.publicAccess.value.GetOr(true)
                                             then CP.AtEipShow else CP.AtFinalShow)
    requires scope.controlPlane.publicAccess.Some?
    modifies scope.env, scope.controlPlane
    ensures scope.At(if ok then CP.AtFinalShow else CP.AtFailing(ControlPlaneReady)) && old(scope.env.trace) <= scope.env.trace
    ensures scope.env.Kept() == old(scope.env.Kept())
    ensures scope.controlPlane.Value() == old(scope.controlPlane.Value()).(status := WithEip(old(scope.controlPlane.Value()), scope.controlPlane.eip))
    ensures e == Exposed(scope.env.calls, scope.controlPlane.Value())
    ensures Exposes(old(scope.env.calls), old(scope.controlPlane.Value()), e, ok)
  {
    ok := true;
    if scope.controlPlane.publicAccess.value.GetOr(true) {
      ok := ReconcileEIP(scope);
    }
    e := Exposed(scope.env.calls, scope.controlPlane.Value());
  }

  function WithEip(m: ControlPlane, eip: Id): ControlPlaneStatus {
    m.status.(eip := eip)
  }

  lemma NotExposed(before: seq<CP.CPStep>, m: ControlPlane, e: Exposed, secret: Option<Kubeconfig>)
    requires Exposes(before, m, e, false)
    ensures Served(before, e.log, m, e.held, e, secret, Failure)
  {
  }

  lemma ExposedFirst(before: seq<CP.CPStep>, after: seq<CP.CPStep>, m: ControlPlane, m': ControlPlane, e: Exposed,
                     secret: Option<Kubeconfig>, r: Outcome)
    requires Exposes(before, m, e, true)
    requires Publishes(e.log, after, e.held, m', secret, r)
    ensures Served(before, after, m, m', e, secret, r)
  {
  }

  lemma ShowLeads(before: seq<CP.CPStep>, after: seq<CP.CPStep>, info: ClusterInfo, m: ControlPlane, m': ControlPlane,
                  secret: Option<Kubeconfig>, r: Outcome)
    requires PublishesFrom(before + [CP.Cluster(CP.ShowCluster(Found(info)))], after, m, m', info.endpoints, secret, r)
    ensures Publishes(before, after, m, m', secret, r)
  {
    assert after[..|before| + 1] == before + [CP.Cluster(CP.ShowCluster(Found(info)))];
  }

  /** The last show of the cluster, and what is published from it. */
  method Publish(scope: ManagedControlPlaneScope) returns (r: Outcome)
    requires scope.At(CP.AtFinalShow) && scope.InfraClusterID() != NO_ID && scope.env.Frame().chosen.None?
    modifies scope.env, scope.controlPlane
    ensures scope.At(AfterCluster(r)) && old(scope.env.trace) <= scope.env.trace
    ensures scope.controlPlane.ready == old(scope.controlPlane.ready) && scope.InfraClusterID() == old(scope.InfraClusterID())
    ensures OutsideCluster(scope.controlPlane.Value()) == old(OutsideCluster(scope.controlPlane.Value()))
    ensures Chosen(scope, r, old(scope.controlPlane.endpoint), old(scope.controlPlane.initialized), old(scope.env.world.plane.secret))
    ensures r.Success? ==> scope.env.Frame().chosen.Some? && SecretUsable(scope)
    ensures Publishes(old(scope.env.calls), scope.env.calls, old(scope.controlPlane.Value()), scope.controlPlane.Value(), scope.env.world.plane.secret, r)
  {
    ghost var before, m := scope.env.calls, scope.controlPlane.Value();
    var answer := scope.env.ShowCluster();
    AfterFinalShow(answer);
    if answer.ShowFailed? {
      return Failure;
    }
    if answer.Missing? {
      return Panic;
    }
    r := PublishFrom(scope, answer.value.endpoints);
    ShowLeads(before, scope.env.calls, answer.value, m, scope.controlPlane.Value(), scope.env.world.plane.secret, r);
  }

  /** The endpoint loops and the kubeconfig. */
  method PublishFrom(scope: ManagedControlPlaneScope, entries: Option<seq<EndpointEntry>>) returns (r: Outcome)
    requires scope.At(CP.AtEndpoint(entries))
    modifies scope.env, scope.controlPlane
    ensures scope.At(AfterCluster(r)) && old(scope.env.trace) <= scope.env.trace && r != Panic
    ensures scope.controlPlane.ready == old(scope.controlPlane.ready) && scope.InfraClusterID() == old(scope.InfraClusterID())
    ensures OutsideCluster(scope.controlPlane.Value()) == old(OutsideCluster(scope.controlPlane.Value()))
    ensures Chosen(scope, r, old(scope.controlPlane.endpoint), old(scope.controlPlane.initialized), old(scope.env.world.plane.secret))
    ensures scope.env.Frame().chosen == Some(entries) && (r.Success? ==> SecretUsable(scope))
    ensures PublishesFrom(old(scope.env.calls), scope.env.calls, old(scope.controlPlane.Value()), scope.controlPlane.Value(),
                          entries, scope.env.world.plane.secret, r)
  {
    ghost var before, m := scope.env.calls, scope.controlPlane.Value();
    var ok := ChooseEndpoint(scope, entries);
    if !ok {
      LoopsFail(before, m, entries, scope.env.world.plane.secret);
      return Failure;
    }
    ok := ReconcileKubeconfig(scope);
    r := if ok then Success else Failure;
    LoopsLead(before, scope.env.calls, m, entries, scope.env.world.plane.secret, r);
  }

  /** The object m with the endpoint that the loops choose. */
  function Placed(m: ControlPlane, entries: Option<seq<EndpointEntry>>): ControlPlane {
    m.(spec := m.spec.(endpoint := Choose(entries, m.spec.endpoint).0))
  }

  lemma LoopsFail(before: seq<CP.CPStep>, m: ControlPlane, entries: Option<seq<EndpointEntry>>, secret: Option<Kubeconfig>)
    requires !Choose(entries, m.spec.endpoint).1
    ensures PublishesFrom(before, before + [CP.Access(CP.ChooseEndpoint)], m, Placed(m, entries), entries, secret, Failure)
  {
  }

  lemma LoopsLead(before: seq<CP.CPStep>, after: seq<CP.CPStep>, m: ControlPlane, entries: Option<seq<EndpointEntry>>,
                  secret: Option<Kubeconfig>, r: Outcome)
    requires Choose(entries, m.spec.endpoint).1 && r != Panic
    requires KubeconfigLogged(before + [CP.Access(CP.ChooseEndpoint)], after, Placed(m, entries), secret, r == Success)
    ensures PublishesFrom(before, after, m, if r == Success then Initialized(Placed(m, entries)) else Placed(m, entries), entries, secret, r)
  {
  }

  // ---------------------------------------------------------------- a settled status

  /** Where the code goes on once the status is settled. */
  function AfterSettled(r: Outcome, m: ControlPlane): CP.Pc {
    match r
    case Failure => CP.AtFailing(ControlPlaneReady)
    case Panic => CP.Closing(Panicked)
    case Success =>
      if !m.status.ready then CP.AtReconciled
      else if m.spec.publicAccess.Some? && m.spec.publicAccess.value.GetOr(true) then CP.AtEipShow
      else CP.AtFinalShow
  }

  /** How the checks and dereferences after a settled status end. */
  function Checked(m: ControlPlane, cluster: Option<ClusterInfo>): Outcome {
    if m.status.ready && (cluster.None? || cluster.value.endpoints.None? || m.spec.publicAccess.None?) then Panic else Success
  }

  lemma SettledPlace(m: ControlPlane, phase: ClusterPhase, cluster: Option<ClusterInfo>, again: bool)
    requires again || (phase != Creating && phase != Upgrading)
    ensures CP.AfterStatus(m, phase, cluster, again) == AfterSettled(Checked(m, cluster), m)
  {
  }

  lemma WaitingPlace(m: ControlPlane, phase: ClusterPhase, cluster: Option<ClusterInfo>)
    requires phase == Creating || phase == Upgrading
    ensures CP.AfterStatus(m, phase, cluster, false) == CP.AtWait(MAX_POLLS)
  {
  }

  lemma StatusSpares(m: ControlPlane, st: ClusterStatus)
    ensures Unobserved(WithStatus(m, st)) == Unobserved(m) && WithStatus(m, st).clusterId == m.clusterId
  {
  }

  /** The dereferences that follow a settled status: of the shown cluster, its endpoints and EndpointAccess. */
  method Dereference(scope: ManagedControlPlaneScope, cluster: Option<ClusterInfo>) returns (r: Outcome)
    ensures r == Checked(scope.controlPlane.Value(), cluster)
    ensures r.Success? && scope.controlPlane.ready ==> scope.controlPlane.publicAccess.Some?
  {
    if scope.controlPlane.ready && (cluster.None? || cluster.value.endpoints.None? || scope.controlPlane.publicAccess.None?) {
      return Panic;
    }
    return Success;
  }

  /** A ready control plane at one of the three dereferences: no cluster was shown, it reports no endpoints, or
      EndpointAccess is not set. */
  predicate Faults(m: ControlPlane, shown: Option<ClusterInfo>) {
    m.status.ready && (shown.None? || shown.value.endpoints.None? || m.spec.publicAccess.None?)
  }

  /** The logs of a pass after the cluster was found or created, after its first status was set, and after the wait,
      if there was one; and how waitForClusterActive ended. */
  datatype Pass = Pass(begun: seq<CP.CPStep>, patched: seq<CP.CPStep>, waited: seq<CP.CPStep>, again: Option<ClusterInfo>, wait: Outcome)

  function AfterSettle(m: ControlPlane, st: ClusterStatus, p: Pass): ControlPlane {
    AfterAgain(WithStatus(m, st), p.again)
  }

  /** The calls after a cluster was found or created: its status is set; then a cluster that is being created or
      upgraded is waited for, and any other is not; then the dereferences. */
  predicate Settles(after: seq<CP.CPStep>, m: ControlPlane, st: ClusterStatus, found: Option<ClusterInfo>, p: Pass, r: Outcome) {
    if StatusLog(p.begun, p.patched, st.phase, true) then
      if st.phase == Creating || st.phase == Upgrading then
        && WaitsAndShows(p.patched, p.waited, after, p.again, p.wait)
        && r == if p.wait == Success && Faults(AfterSettle(m, st, p), p.again) then Panic else p.wait
      else after == p.patched && p.again.None? && r == if Faults(AfterSettle(m, st, p), found) then Panic else Success
    else after == p.patched && p.again.None? && r == Failure && StatusLog(p.begun, p.patched, st.phase, false)
  }

  /** The same; the quantifier keeps it folded in the methods, which need not look inside. */
  ghost predicate Settled(after: seq<CP.CPStep>, m: ControlPlane, st: ClusterStatus, found: Option<ClusterInfo>, p: Pass, r: Outcome) {
    forall a, x, t, f, q, s {:trigger Settles(a, x, t, f, q, s)} ::
      a == after && x == m && t == st && f == found && q == p && s == r ==> Settles(a, x, t, f, q, s)
  }

  /** The wait for a cluster that is being made or upgraded, and the dereferences that follow it. */
  method WaitAndCheck(scope: ManagedControlPlaneScope, ghost phase: ClusterPhase, ghost shown: Option<ClusterInfo>)
    returns (r: Outcome, ghost waited: seq<CP.CPStep>, ghost again: Option<ClusterInfo>, ghost wait: Outcome)
    requires scope.At(AfterSetStatus(true, scope.controlPlane.Value(), phase, shown, false)) && (phase == Creating || phase == Upgrading)
    requires scope.InfraClusterID() != NO_ID
    modifies scope.env, scope, scope.controlPlane
    ensures scope.At(AfterSettled(r, scope.controlPlane.Value())) && old(scope.env.trace) <= scope.env.trace
    ensures scope.env.Kept() == old(scope.env.Kept())
    ensures WaitsAndShows(old(scope.env.calls), waited, scope.env.calls, again, wait)
    ensures scope.controlPlane.Value() == AfterAgain(old(scope.controlPlane.Value()), again)
    ensures r == if wait == Success && Faults(scope.controlPlane.Value(), again) then Panic else wait
    ensures r.Success? ==> scope.env.world.plane.obj == scope.controlPlane.Value().(deleting := scope.env.world.plane.obj.deleting)
  {
    WaitingPlace(scope.controlPlane.Value(), phase, shown);
    var cluster;
    r, cluster, waited := WaitForClusterActive(scope);
    again, wait := cluster, r;
    if !r.Success? {
      return;
    }
    SettledPlace(scope.controlPlane.Value(), cluster.value.status.phase, cluster, true);
    r := Dereference(scope, cluster);
  }

  /** The status of the cluster is applied, and one that is being made or upgraded is waited for. */
  method SettleFound(scope: ManagedControlPlaneScope, st: ClusterStatus, cluster: Option<ClusterInfo>) returns (r: Outcome, ghost p: Pass)
    requires scope.At(CP.AtStatus(st, cluster, false)) && scope.InfraClusterID() != NO_ID
    modifies scope.env, scope, scope.controlPlane
    ensures scope.At(AfterSettled(r, scope.controlPlane.Value())) && old(scope.env.trace) <= scope.env.trace
    ensures scope.env.Kept() == old(scope.env.Kept())
    ensures p.begun == old(scope.env.calls) && Settled(scope.env.calls, old(scope.controlPlane.Value()), st, cluster, p, r)
    ensures scope.controlPlane.Value() == AfterSettle(old(scope.controlPlane.Value()), st, p)
    ensures r.Success? ==> scope.env.world.plane.obj == scope.controlPlane.Value().(deleting := scope.env.world.plane.obj.deleting)
  {
    ghost var before, m := scope.env.calls, scope.controlPlane.Value();
    StatusSpares(m, st);
    var ok := SetStatus(scope, st, cluster, false);
    ghost var patched := scope.env.calls;
    p := Pass(before, patched, patched, None, Success);
    if !ok {
      NotSettled(m, st, cluster, p);
      return Failure, p;
    }
    if st.phase == Creating || st.phase == Upgrading {
      ghost var waited, again, wait;
      r, waited, again, wait := WaitAndCheck(scope, st.phase, cluster);
      p := Pass(before, patched, waited, again, wait);
      WaitSettles(scope.env.calls, m, st, cluster, p, r);
    } else {
      SettledPlace(scope.controlPlane.Value(), st.phase, cluster, false);
      r := Dereference(scope, cluster);
      SettlesAtOnce(m, st, cluster, p, r);
    }
  }

  lemma NotSettled(m: ControlPlane, st: ClusterStatus, found: Option<ClusterInfo>, p: Pass)
    requires StatusLog(p.begun, p.patched, st.phase, false) && p.again.None?
    ensures Settled(p.patched, m, st, found, p, Failure)
  {
    assert !st.phase.OtherPhase? ==> p.patched[|p.patched| - 1] == CP.Common(CP.Patch(false));
    assert !StatusLog(p.begun, p.patched, st.phase, true);
  }

  lemma SettlesAtOnce(m: ControlPlane, st: ClusterStatus, found: Option<ClusterInfo>, p: Pass, r: Outcome)
    requires StatusLog(p.begun, p.patched, st.phase, true) && p.again.None? && st.phase != Creating && st.phase != Upgrading
    requires r == if Faults(WithStatus(m, st), found) then Panic else Success
    ensures Settled(p.patched, m, st, found, p, r)
  {
  }

  lemma WaitSettles(after: seq<CP.CPStep>, m: ControlPlane, st: ClusterStatus, found: Option<ClusterInfo>, p: Pass, r: Outcome)
    requires StatusLog(p.begun, p.patched, st.phase, true) && (st.phase == Creating || st.phase == Upgrading)
    requires WaitsAndShows(p.patched, p.waited, after, p.again, p.wait)
    requires r == if p.wait == Success && Faults(AfterSettle(m, st, p), p.again) then Panic else p.wait
    ensures Settled(after, m, st, found, p, r)
  {
  }

  // ---------------------------------------------------------------- the whole of reconcileCluster

  /** What a pass went through: the first status and the cluster that was found, if one was; the object with its
      cluster id; the pass up to the settled status, and how that ended; and the last part. */
  datatype Trail = Trail(first: Option<ClusterStatus>, found: Option<ClusterInfo>, located: ControlPlane, pass: Pass,
                         settled: seq<CP.CPStep>, outcome: Outcome, exposed: Exposed)

  /** The whole of reconcileCluster, from the object m to the object m': a cluster first seen being created or
      upgraded is waited for, and its status shown and applied once more; a control plane that is then not
      ready is left alone; a ready one is served. */
  ghost predicate Reconciles(before: seq<CP.CPStep>, after: seq<CP.CPStep>, m: ControlPlane, m': ControlPlane, t: Trail,
                             secret: Option<Kubeconfig>, r: Outcome) {
    && FindsOrCreates(before, t.pass.begun, m, t.located, t.first, t.found)
    && match t.first
       case None => after == t.pass.begun && m' == t.located && r == Failure
       case Some(st) =>
         && Settled(t.settled, t.located, st, t.found, t.pass, t.outcome)
         && var settled := AfterSettle(t.located, st, t.pass);
            if t.outcome == Success && settled.status.ready then Served(t.settled, after, settled, m', t.exposed, secret, r)
            else after == t.settled && m' == settled && r == t.outcome
  }

  /** The same; the quantifier keeps it folded in the methods, which need not look inside. */
  ghost predicate Reconciled(before: seq<CP.CPStep>, after: seq<CP.CPStep>, m: ControlPlane, m': ControlPlane, t: Trail,
                             secret: Option<Kubeconfig>, r: Outcome) {
    forall b, a, x, y, l, k, s {:trigger Reconciles(b, a, x, y, l, k, s)} ::
      b == before && a == after && x == m && y == m' && l == t && k == secret && s == r ==> Reconciles(b, a, x, y, l, k, s)
  }

  lemma ServingExtends(before: seq<CP.CPStep>, after: seq<CP.CPStep>, m: ControlPlane, m': ControlPlane, e: Exposed,
                       secret: Option<Kubeconfig>, r: Outcome)
    requires Served(before, after, m, m', e, secret, r)
    ensures before <= after && m'.status.ready == m.status.ready
  {
    assert Serves(before, after, m, m', e, secret, r);
  }

  /** A status that was settled: a cluster first seen being created or upgraded was then seen Available, within 40
      polls, and its status after that, shown and saved once more, is the one that counts; after any other
      first status nothing was shown. */
  predicate SettledWell(settled: seq<CP.CPStep>, m: ControlPlane, st: ClusterStatus, p: Pass) {
    && p.begun < p.patched && |settled| > 0 && settled[|settled| - 1] == CP.Common(CP.Patch(true))
    && if st.phase == Creating || st.phase == Upgrading then
         && p.again.Some? && AfterSettle(m, st, p) == WithStatus(WithStatus(m, st), p.again.value.status)
         && |p.patched| < |p.waited| <= |p.patched| + 40 && p.patched < p.waited < settled
         && ClusterMet(p.waited[|p.waited| - 1], true)
         && settled[|p.waited|] == CP.Cluster(CP.ShowCluster(Found(p.again.value)))
       else settled == p.patched && AfterSettle(m, st, p) == WithStatus(m, st)
  }

  lemma SettlingWaits(settled: seq<CP.CPStep>, m: ControlPlane, st: ClusterStatus, found: Option<ClusterInfo>, p: Pass)
    requires Settled(settled, m, st, found, p, Success)
    ensures SettledWell(settled, m, st, p)
  {
    assert Settles(settled, m, st, found, p, Success);
  }

  /** A pass that succeeded has settled its status in that way, and goes by the object that this left: one that is
      not ready is left alone. */
  lemma CreatingIsWaitedFor(before: seq<CP.CPStep>, after: seq<CP.CPStep>, m: ControlPlane, m': ControlPlane, t: Trail, secret: Option<Kubeconfig>)
    requires Reconciled(before, after, m, m', t, secret, Success)
    ensures t.first.Some? && t.settled <= after && SettledWell(t.settled, t.located, t.first.value, t.pass)
    ensures var settled := AfterSettle(t.located, t.first.value, t.pass);
            m'.status.ready == settled.status.ready && (!m'.status.ready ==> after == t.settled && m' == settled)
  {
    assert Reconciles(before, after, m, m', t, secret, Success);
    SettlingWaits(t.settled, t.located, t.first.value, t.found, t.pass);
    var settled := AfterSettle(t.located, t.first.value, t.pass);
    if settled.status.ready {
      ServingExtends(t.settled, after, settled, m', t.exposed, secret, Success);
    }
  }

  /** reconcileCluster up to the point at which a control plane that is not ready is left alone. */
  method Settle(scope: ManagedControlPlaneScope) returns (r: Outcome, ghost t: Trail)
    requires scope.At(CP.AtCluster)
    modifies scope.env, scope, scope.controlPlane
    ensures scope.At(AfterSettled(r, scope.controlPlane.Value())) && old(scope.env.trace) <= scope.env.trace
    ensures scope.env.Kept() == old(scope.env.Kept())
    ensures Unobserved(scope.controlPlane.Value()) == old(Unobserved(scope.controlPlane.Value()))
    ensures r.Success? ==> scope.InfraClusterID() != NO_ID && (scope.controlPlane.ready ==> scope.controlPlane.publicAccess.Some?)
    ensures r.Success? ==> scope.env.world.plane.obj == scope.controlPlane.Value().(deleting := scope.env.world.plane.obj.deleting)
    ensures Begun(old(scope.env.calls), scope.env.calls, old(scope.controlPlane.Value()), scope.controlPlane.Value(), t, r)
  {
    ghost var before, m := scope.env.calls, scope.controlPlane.Value();
    var status, cluster := FindOrCreate(scope);
    ghost var begun, located := scope.env.calls, scope.controlPlane.Value();
    FindingSpares(before, begun, m, located, status, cluster);
    if status.None? {
      t := Trail(None, cluster, located, Pass(begun, begun, begun, None, Failure), begun, Failure, Exposed(begun, located));
      return Failure, t;
    }
    ghost var p;
    r, p := SettleFound(scope, status.value, cluster);
    t := Trail(Some(status.value), cluster, located, p, scope.env.calls, r, Exposed(begun, located));
    SettlingSpares(t.settled, located, status.value, cluster, p, r);
  }

  /** The first half of reconcileCluster. */
  ghost predicate Begun(before: seq<CP.CPStep>, after: seq<CP.CPStep>, m: ControlPlane, m': ControlPlane, t: Trail, r: Outcome) {
    && FindsOrCreates(before, t.pass.begun, m, t.located, t.first, t.found)
    && t.settled == after && t.outcome == r
    && match t.first
       case None => after == t.pass.begun && m' == t.located && r == Failure
       case Some(st) => Settled(after, t.located, st, t.found, t.pass, r) && m' == AfterSettle(t.located, st, t.pass)
  }

  lemma FindingSpares(before: seq<CP.CPStep>, after: seq<CP.CPStep>, m: ControlPlane, m': ControlPlane,
                      status: Option<ClusterStatus>, cluster: Option<ClusterInfo>)
    requires FindsOrCreates(before, after, m, m', status, cluster)
    ensures Unobserved(m') == Unobserved(m)
  {
  }

  lemma SettlingSpares(after: seq<CP.CPStep>, m: ControlPlane, st: ClusterStatus, found: Option<ClusterInfo>, p: Pass, r: Outcome)
    requires Settled(after, m, st, found, p, r)
    ensures var m' := AfterSettle(m, st, p);
            Unobserved(m') == Unobserved(m) && m'.clusterId == m.clusterId && (r.Success? && m'.status.ready ==> m'.spec.publicAccess.Some?)
  {
    StatusSpares(m, st);
    if p.again.Some? {
      StatusSpares(WithStatus(m, st), p.again.value.status);
    }
    assert Settles(after, m, st, found, p, r);
  }

  lemma LeftAlone(before: seq<CP.CPStep>, after: seq<CP.CPStep>, m: ControlPlane, m': ControlPlane, t: Trail, secret: Option<Kubeconfig>, r: Outcome)
    requires Begun(before, after, m, m', t, r) && !(r == Success && m'.status.ready)
    ensures Reconciled(before, after, m, m', t, secret, r)
  {
  }

  lemma ServedThen(before: seq<CP.CPStep>, settled: seq<CP.CPStep>, after: seq<CP.CPStep>, m: ControlPlane, mid: ControlPlane, m': ControlPlane,
                   t: Trail, e: Exposed, secret: Option<Kubeconfig>, r: Outcome)
    requires Begun(before, settled, m, mid, t, Success) && mid.status.ready && Served(settled, after, mid, m', e, secret, r)
    ensures Reconciled(before, after, m, m', t.(exposed := e), secret, r)
  {
  }

  /** A successful pass that ends ready has chosen the endpoint and stored a usable kubeconfig; one that ends
      not ready leaves endpoint, Initialized and secret alone, and what it holds is persisted. */
  method ReconcileCluster(scope: ManagedControlPlaneScope) returns (r: Outcome, ghost t: Trail)
    requires scope.At(CP.AtCluster) && scope.env.Frame().chosen.None?
    modifies scope.env, scope, scope.controlPlane
    ensures scope.At(AfterCluster(r)) && old(scope.env.trace) <= scope.env.trace
    ensures OutsideCluster(scope.controlPlane.Value()) == old(OutsideCluster(scope.controlPlane.Value()))
    ensures Chosen(scope, r, old(scope.controlPlane.endpoint), old(scope.controlPlane.initialized), old(scope.env.world.plane.secret))
    ensures r.Success? ==>
              && scope.InfraClusterID() != NO_ID
              && (scope.env.Frame().chosen.Some? <==> scope.controlPlane.ready)
              && (scope.controlPlane.ready ==> SecretUsable(scope))
              && (!scope.controlPlane.ready ==>
                    scope.env.world.plane.obj == scope.controlPlane.Value().(deleting := scope.env.world.plane.obj.deleting))
    ensures Reconciled(old(scope.env.calls), scope.env.calls, old(scope.controlPlane.Value()), scope.controlPlane.Value(),
                       t, scope.env.world.plane.secret, r)
  {
    ghost var before, m := scope.env.calls, scope.controlPlane.Value();
    r, t := Settle(scope);
    ghost var settled, mid := scope.env.calls, scope.controlPlane.Value();
    if r.Success? && scope.controlPlane.ready {
      ghost var e;
      r, e := Serve(scope);
      ServedThen(before, settled, scope.env.calls, m, mid, scope.controlPlane.Value(), t, e, scope.env.world.plane.secret, r);
      t := t.(exposed := e);
    } else {
      LeftAlone(before, settled, m, mid, t, scope.env.world.plane.secret, r);
    }
  }

  function ExitOf(r: Outcome): Exit {
    match r
    case Success => Finished
    case Failure => Errored
    case Panic => Panicked
  }

  /** The last step of ReconcileControlPlane; a panic leaves none. */
  function Marks(r: Outcome): seq<CP.CPStep> {
    match r
    case Success => [CP.Common(CP.MarkReady)]
    case Failure => [CP.Common(CP.MarkFailed)]
    case Panic => []
  }

  /** The ready condition reports the outcome. */
  method ReconcileControlPlane(scope: ManagedControlPlaneScope) returns (r: Outcome, ghost t: Trail, ghost log: seq<CP.CPStep>)
    requires scope.At(CP.AtCluster) && scope.env.Frame().chosen.None?
    modifies scope.env, scope, scope.controlPlane
    ensures scope.At(CP.Closing(ExitOf(r))) && old(scope.env.trace) <= scope.env.trace
    ensures OutsideCluster(scope.controlPlane.Value()) == old(OutsideCluster(scope.controlPlane.Value()))
    ensures Chosen(scope, r, old(scope.controlPlane.endpoint), old(scope.controlPlane.initialized), old(scope.env.world.plane.secret))
    ensures match r
            case Success => Holds(scope.controlPlane.Value(), ControlPlaneReady)
            case Failure => MarkedFalse(scope.controlPlane.Value(), ControlPlaneReady, ControlPlaneReconciliationFailedReason)
            case Panic => true
    ensures r.Success? ==>
              && scope.InfraClusterID() != NO_ID
              && (scope.env.Frame().chosen.Some? <==> scope.controlPlane.ready)
              && (scope.controlPlane.ready ==> SecretUsable(scope))
    ensures scope.env.calls == log + Marks(r)
    ensures exists m' ::
              && Reconciled(old(scope.env.calls), log, old(scope.controlPlane.Value()), m', t, scope.env.world.plane.secret, r)
              && scope.controlPlane.Value() == Marked(m', r)
  {
    r, t := ReconcileCluster(scope);
    log := scope.env.calls;
    ghost var m' := scope.controlPlane.Value();
    match r {
      case Success =>
        scope.controlPlane.MarkTrue(ControlPlaneReady);
        scope.env.Local(CP.Common(CP.MarkReady));
      case Failure =>
        scope.Fail(ControlPlaneReady, ControlPlaneReconciliationFailedReason);
      case Panic =>
    }
    assert scope.controlPlane.Value() == Marked(m', r);
  }

  /** The object with the ready condition that reports the outcome. */
  function Marked(m: ControlPlane, r: Outcome): ControlPlane {
    match r
    case Success => CP.WithCondition(m, ControlPlaneReady, TRUE_CONDITION)
    case Failure => CP.WithCondition(m, ControlPlaneReady, Condition(false, ControlPlaneReconciliationFailedReason))
    case Panic => m
  }
}
