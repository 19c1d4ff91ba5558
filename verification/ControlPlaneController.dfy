/** ccemanagedcontrolplane_controller.go. */
module ControlPlaneController {
  import opened Types
  import opened Endpoints
  import opened Kubeconfigs
  import opened Protocol
  import opened Objects
  import opened Environment
  import opened ControlPlaneScope
  import opened AccessService
  import opened ClusterService
  import opened TeardownService
  import opened NetworkService
  import CP = ControlPlaneProgram
  import Dependencies
  import Runs

  /** The pools that still carry the cluster-name label, or None when they cannot be listed. */
  method DependencyCount(scope: ManagedControlPlaneScope) returns (count: Option<nat>)
    requires scope.At(CP.AtDeleteList)
    modifies scope.env
    ensures scope.Synced() && old(scope.env.trace) <= scope.env.trace
    ensures scope.env.Frame().pc == (match count
              case None => CP.Closing(Errored)
              case Some(n) => if n > 0 then CP.Closing(Requeued) else CP.AtDeleteInit)
    ensures count.Some? ==>
              count.value == |Labelled(scope.env.world.fleet)| && scope.env.world.fleet.hist.counted == scope.env.world.fleet.hist.keys
  {
    count := scope.env.ListPools();
  }

  /** The finalizer goes only when no labelled pool that was there at the count is left and the recorded
      cluster is gone; on every other
      way out the object is unchanged. */
  method ReconcileDelete(scope: ManagedControlPlaneScope) returns (exit: Exit)
    requires scope.At(CP.AtDeleteList)
    modifies scope.env, scope.controlPlane
    ensures scope.At(CP.Closing(exit)) && old(scope.env.trace) <= scope.env.trace
    ensures scope.controlPlane.Value() == old(scope.controlPlane.Value()).(finalizer := old(scope.controlPlane.finalizer) && exit != Finished)
    ensures exit == Finished ==>
              && Dependencies.CountedPoolsAreGone(scope.env.world.fleet)
              && scope.InfraClusterID() !in scope.env.world.cloud.clusters
  {
    scope.Facts();
    var count := DependencyCount(scope);
    if count.None? {
      return Errored;
    }
    if count.value > 0 {
      return Requeued;
    }
    var deleted := Delete(scope);
    if !deleted {
      return Errored;
    }
    // DeleteNetwork frees nothing.
    RemoveFinalizer(scope);
    return Finished;
  }

  method Delete(scope: ManagedControlPlaneScope) returns (ok: bool)
    requires scope.At(CP.AtDeleteInit)
    modifies scope.env
    ensures scope.At(AfterDelete(ok)) && old(scope.env.trace) <= scope.env.trace
  {
    ok := scope.env.InitService();
    if ok {
      ok := DeleteControlPlane(scope);
    }
  }

  method RemoveFinalizer(scope: ManagedControlPlaneScope)
    requires scope.At(CP.AtDeleteDone)
    modifies scope.env, scope.controlPlane
    ensures scope.At(CP.Closing(Finished)) && old(scope.env.trace) <= scope.env.trace
    ensures scope.controlPlane.Value() == old(scope.controlPlane.Value()).(finalizer := false)
    ensures Dependencies.CountedPoolsAreGone(scope.env.world.fleet)
    ensures scope.InfraClusterID() !in scope.env.world.cloud.clusters
  {
    scope.Facts();
    scope.controlPlane.RemoveFinalizer();
    scope.env.Local(CP.Teardown(CP.RemoveFinalizer));
    ReachedIsReachable(scope.env.start, scope.env.trace, scope.env.world);
    Runs.SystemHolds(scope.env.start, scope.env.trace, scope.env.world);
  }

  /** The calls before anything is created: a finalizer that is not there yet is patched, one that is there is not,
      and then the service is made. */
  predicate PreparationCalls(before: seq<CP.CPStep>, after: seq<CP.CPStep>, finalizer: bool, ok: bool) {
    var checked := before + [CP.Common(CP.CheckInfrastructure(true))];
    if finalizer then after == checked + [CP.Common(CP.NewService(ok))]
    else
      || (!ok && after == checked + [CP.Common(CP.Patch(false))])
      || after == checked + [CP.Common(CP.Patch(true))] + [CP.Common(CP.NewService(ok))]
  }

  /** The finalizer is persisted before the service exists, and so before anything is created. */
  method Prepare(scope: ManagedControlPlaneScope) returns (ok: bool)
    requires scope.At(CP.AtStart)
    modifies scope.env, scope.controlPlane
    ensures scope.At(if ok then CP.AtVpc else CP.Closing(Errored)) && old(scope.env.trace) <= scope.env.trace
    ensures scope.env.Kept() == old(scope.env.Kept())
    ensures scope.controlPlane.Value() == old(scope.controlPlane.Value()).(finalizer := true)
    ensures ok ==> scope.env.world.plane.alive && scope.env.world.plane.obj.finalizer
    ensures PreparationCalls(old(scope.env.calls), scope.env.calls, old(scope.controlPlane.finalizer), ok)
  {
    ok := AddFinalizer(scope);
    if ok {
      ok := scope.env.InitService();
    }
    if ok {
      FinalizerIsPersisted(scope);
    }
  }

  lemma FinalizerIsPersisted(scope: ManagedControlPlaneScope)
    requires scope.At(CP.AtVpc)
    ensures scope.env.world.plane.alive && scope.env.world.plane.obj.finalizer
  {
    ReachedIsReachable(scope.env.start, scope.env.trace, scope.env.world);
    Runs.SystemHolds(scope.env.start, scope.env.trace, scope.env.world);
  }

  method AddFinalizer(scope: ManagedControlPlaneScope) returns (ok: bool)
    requires scope.At(CP.AtStart)
    modifies scope.env, scope.controlPlane
    ensures scope.At(if ok then CP.AtServiceInit else CP.Closing(Errored)) && old(scope.env.trace) <= scope.env.trace
    ensures scope.env.Kept() == old(scope.env.Kept())
    ensures scope.controlPlane.Value() == old(scope.controlPlane.Value()).(finalizer := true)
    ensures var checked := old(scope.env.calls) + [CP.Common(CP.CheckInfrastructure(true))];
            if old(scope.controlPlane.finalizer) then ok && scope.env.calls == checked
            else scope.env.calls == checked + [CP.Common(CP.Patch(ok))]
  {
    var changed := scope.controlPlane.AddFinalizer();
    scope.env.Local(CP.Common(CP.CheckInfrastructure(true)));
    ok := true;
    if changed {
      ok := scope.PatchObject();
    }
  }

  /** What a pass that ends without error has recorded. */
  predicate Recorded(m: ControlPlane) {
    m.finalizer && m.spec.vpcId != NO_ID && m.spec.subnetId != NO_ID && m.clusterId != NO_ID && Holds(m, ControlPlaneReady)
  }

  /** A pass that ends without error has recorded every id; if it ends ready, it has chosen the endpoint and
      stored a usable kubeconfig; if not, it has left endpoint and Initialized alone. */
  method ReconcileNormal(scope: ManagedControlPlaneScope, infrastructureReady: bool) returns (exit: Exit)
    requires scope.At(CP.AtStart) && scope.env.Frame().chosen.None?
    modifies scope.env, scope, scope.controlPlane
    ensures scope.At(CP.Closing(exit)) && old(scope.env.trace) <= scope.env.trace
    ensures exit == Requeued <==> !infrastructureReady
    ensures exit == Requeued ==> scope.controlPlane.Value() == old(scope.controlPlane.Value())
    ensures exit == Finished ==>
              && Recorded(scope.controlPlane.Value())
              && Chosen(scope, Success, old(scope.controlPlane.endpoint), old(scope.controlPlane.initialized), old(scope.env.world.plane.secret))
              && (scope.env.Frame().chosen.Some? <==> scope.controlPlane.ready)
              && (scope.controlPlane.ready ==> SecretUsable(scope))
  {
    if !infrastructureReady {
      scope.env.Local(CP.Common(CP.CheckInfrastructure(false)));
      return Requeued;
    }
    var ok := Prepare(scope);
    if !ok {
      return Errored;
    }
    exit := ReconcileAll(scope);
  }

  /** Network first, then the control plane. */
  method ReconcileAll(scope: ManagedControlPlaneScope) returns (exit: Exit)
    requires scope.At(CP.AtVpc) && scope.env.Frame().chosen.None? && scope.controlPlane.finalizer
    modifies scope.env, scope, scope.controlPlane
    ensures scope.At(CP.Closing(exit)) && old(scope.env.trace) <= scope.env.trace && exit != Requeued
    ensures exit == Finished ==>
              && Recorded(scope.controlPlane.Value())
              && Chosen(scope, Success, old(scope.controlPlane.endpoint), old(scope.controlPlane.initialized), old(scope.env.world.plane.secret))
              && (scope.env.Frame().chosen.Some? <==> scope.controlPlane.ready)
              && (scope.controlPlane.ready ==> SecretUsable(scope))
  {
    var r := ReconcileNetwork(scope);
    if r.Success? {
      ghost var t, log;
      r, t, log := ReconcileControlPlane(scope);
    }
    return ExitOf(r);
  }

  /** What the body of a reconcile that read `was`, and found this secret, has done when it ends, with frame f,
      without error. */
  predicate WorkDone(p: Plane, secret: Option<Kubeconfig>, was: ControlPlane, f: CP.CPFrame) {
    if was.deleting then f.mem.deleting && !f.mem.finalizer
    else
      && Recorded(f.mem)
      && match f.chosen
         case None =>
           && !f.mem.status.ready && f.mem.spec.endpoint == was.spec.endpoint
           && f.mem.status.initialized == was.status.initialized && p.secret == secret
         case Some(list) =>
           && f.mem.status.ready && f.mem.status.initialized
           && Choose(list, was.spec.endpoint) == (f.mem.spec.endpoint, true)
           && p.secret.Some? && Usable(p.secret.value, f.mem.name)
  }

  /** What a reconcile that returned no error has persisted: all that its body left in memory. */
  predicate Achieved(p: Plane, secret: Option<Kubeconfig>, was: ControlPlane, ended: CP.CPFrame) {
    && p.obj == ended.mem.(deleting := p.obj.deleting)
    && (ended.pc == CP.Closing(Finished) ==> WorkDone(p, secret, was, ended) && (was.deleting ==> !p.alive))
  }

  /** The body between the opening of the scope and its deferred Close. */
  method Work(scope: ManagedControlPlaneScope, infrastructureReady: bool) returns (exit: Exit)
    requires scope.Synced() && scope.env.Frame() == CP.CPOpened(scope.controlPlane.Value())
    modifies scope.env, scope, scope.controlPlane
    ensures scope.At(CP.Closing(exit)) && old(scope.env.trace) <= scope.env.trace
    ensures exit == Finished ==>
              WorkDone(scope.env.world.plane, old(scope.env.world.plane.secret), old(scope.controlPlane.Value()), scope.env.Frame())
  {
    if scope.controlPlane.deleting {
      exit := ReconcileDelete(scope);
    } else {
      exit := ReconcileNormal(scope, infrastructureReady);
    }
  }

  /** A reconcile that ran its body has failed: the body ended with an error or a panic, or the deferred Close,
      which is the last step, failed. */
  predicate Failed(exit: Exit, last: Option<Step>) {
    exit == Errored || exit == Panicked || last == Some(ByPlane(Close(false)))
  }

  /** The body runs exactly for an object that was read and whose gate is open; otherwise no call is made and
      nothing is patched. The result is an error exactly when the owner lookup failed, the body failed or
      panicked, or only the deferred Close failed; it asks for another reconcile exactly when the Get failed or
      the body said so. Without an error, everything the body left in memory has been persisted. */
  method Reconcile(env: Environment, gate: Gate, infrastructureReady: bool)
    returns (requeue: bool, err: bool, ghost was: Option<ControlPlane>, ghost ended: Option<CP.CPFrame>)
    requires env.Valid() && env.world.plane.inFlight.None?
    modifies env, env.gets
    ensures env.Valid() && env.world.plane.inFlight.None? && old(env.trace) <= env.trace
    ensures was.Some? <==> env.gets.own.Found?
    ensures ended.Some? <==> env.gets.own.Found? && gate == Owned
    ensures ended.Some? ==> ended.value.pc.Closing?
    ensures requeue <==> env.gets.own.ShowFailed? || (ended.Some? && ended.value.pc.exit == Requeued)
    ensures err <==> || (env.gets.own.Found? && gate == OwnerLookupFailed)
                     || (ended.Some? && Failed(ended.value.pc.exit, Last(env.trace)))
    ensures ended.Some? && !err ==> Achieved(env.world.plane, old(env.world.plane.secret), was.value, ended.value)
    ensures ended.None? ==>
              && env.calls == old(env.calls) && env.world.plane.secret == old(env.world.plane.secret)
              && env.world.plane.obj == old(env.world.plane.obj).(deleting := env.world.plane.obj.deleting)
  {
    was, ended := None, None;
    var read := env.GetPlane();
    if read.Missing? {
      return false, false, None, None;
    }
    if read.ShowFailed? {
      return true, false, None, None;
    }
    was := Some(read.value);
    if gate != Owned {
      env.LeavePlane();
      return false, gate == OwnerLookupFailed, was, None;
    }
    var controlPlane := new CCEManagedControlPlane.Get(read.value);
    var scope := new ManagedControlPlaneScope(env, controlPlane);
    var exit := Work(scope, infrastructureReady);
    ended := Some(env.Frame());
    var saved := scope.Close();
    return exit == Requeued, exit == Errored || exit == Panicked || !saved, was, ended;
  }
}
