/** ccemanagedmachinepool_controller.go. */
module PoolController {
  import opened Types
  import opened Protocol
  import opened Objects
  import opened Environment
  import opened PoolScope
  import opened NodepoolService
  import opened ControlPlaneScope
  import NP = PoolProgram

  method BeginDelete(scope: ManagedMachinePoolScope) returns (ok: bool)
    requires scope.At(NP.AtStart) && scope.managedMachinePool.deleting
    modifies scope.env
    ensures scope.At(if ok then NP.AtDeleteShow else NP.Closing(Errored)) && old(scope.env.trace) <= scope.env.trace
  {
    scope.env.LocalPool(scope.key, NP.Common(NP.Begin));
    ok := scope.env.InitNodepoolService(scope.key);
  }

  /** The finalizer goes only when the node pool is gone; on every other way out it stays. */
  method ReconcileDelete(scope: ManagedMachinePoolScope) returns (exit: Exit)
    requires scope.At(NP.AtStart) && scope.managedMachinePool.deleting
    modifies scope.env, scope.managedMachinePool
    ensures scope.At(NP.Closing(exit)) && old(scope.env.trace) <= scope.env.trace
    ensures exit == Finished || exit == Errored
    ensures if exit == Finished then !scope.managedMachinePool.finalizer && scope.InfraMachinePoolID() !in scope.env.world.cloud.nodepools
            else scope.managedMachinePool.finalizer == old(scope.managedMachinePool.finalizer)
  {
    var ok := BeginDelete(scope);
    if ok {
      ok := DeletePool(scope);
    }
    if !ok {
      return Errored;
    }
    RemoveFinalizer(scope);
    return Finished;
  }

  /** ReconcilePoolDelete, as far as the finalizer is concerned. */
  method DeletePool(scope: ManagedMachinePoolScope) returns (ok: bool)
    requires scope.At(NP.AtDeleteShow)
    modifies scope.env, scope.managedMachinePool
    ensures scope.Synced() && old(scope.env.trace) <= scope.env.trace
    ensures if ok then scope.env.PoolFrame(scope.key).pc.AtDeleteDone? else scope.env.PoolFrame(scope.key).pc == NP.Closing(Errored)
    ensures scope.managedMachinePool.finalizer == old(scope.managedMachinePool.finalizer)
  {
    ok := ReconcilePoolDelete(scope);
  }

  method RemoveFinalizer(scope: ManagedMachinePoolScope)
    requires scope.Synced() && scope.env.PoolFrame(scope.key).pc.AtDeleteDone?
    modifies scope.env, scope.managedMachinePool
    ensures scope.At(NP.Closing(Finished)) && old(scope.env.trace) <= scope.env.trace
    ensures scope.managedMachinePool.Value() == old(scope.managedMachinePool.Value()).(finalizer := false)
    ensures scope.InfraMachinePoolID() !in scope.env.world.cloud.nodepools
  {
    scope.managedMachinePool.RemoveFinalizer();
    scope.env.LocalPool(scope.key, NP.Teardown(NP.RemoveFinalizer));
    NotStillThere(scope);
  }

  /** A deleted pool without finalizer in memory has seen its node pool gone. */
  lemma NotStillThere(scope: ManagedMachinePoolScope)
    requires scope.Synced() && scope.env.PoolFrame(scope.key).pc == NP.Closing(Finished) && !scope.managedMachinePool.finalizer
    ensures scope.InfraMachinePoolID() !in scope.env.world.cloud.nodepools
  {
    PoolFrameFacts(scope.env.start, scope.env.trace, scope.env.world, scope.key);
  }

  /** The finalizer is persisted before the service exists, and so before a node pool is created. */
  method AddFinalizer(scope: ManagedMachinePoolScope) returns (ok: bool)
    requires scope.At(NP.AtStart) && !scope.managedMachinePool.deleting
    modifies scope.env, scope.managedMachinePool
    ensures scope.At(if ok then NP.AtServiceInit else NP.Closing(Errored)) && old(scope.env.trace) <= scope.env.trace
    ensures scope.managedMachinePool.Value() == old(scope.managedMachinePool.Value()).(finalizer := true)
    ensures scope.Cluster() == old(scope.Cluster())
    ensures var begun := old(scope.env.PoolCalls(scope.key)) + [NP.Common(NP.Begin)];
            if old(scope.managedMachinePool.finalizer) then ok && scope.env.PoolCalls(scope.key) == begun
            else scope.env.PoolCalls(scope.key) == begun + [NP.Common(NP.Patch(ok))]
  {
    var changed := scope.managedMachinePool.AddFinalizer();
    scope.env.LocalPool(scope.key, NP.Common(NP.Begin));
    ok := true;
    if changed {
      ok := scope.PatchObject();
    }
  }

  /** A pass that ends without error has recorded a node pool under the finalizer. */
  method ReconcileNormal(scope: ManagedMachinePoolScope) returns (exit: Exit)
    requires scope.At(NP.AtStart) && !scope.managedMachinePool.deleting
    modifies scope.env, scope.managedMachinePool
    ensures scope.At(NP.Closing(exit)) && old(scope.env.trace) <= scope.env.trace && exit != Requeued
    ensures scope.managedMachinePool.finalizer
    ensures exit == Finished ==> scope.InfraMachinePoolID() != NO_ID && scope.managedMachinePool.cond == Some(TRUE_CONDITION)
  {
    var ok := AddFinalizer(scope);
    if !ok {
      return Errored;
    }
    ok := scope.env.InitNodepoolService(scope.key);
    if !ok {
      return Errored;
    }
    ghost var first, p, log;
    var r;
    r, first, p, log := ReconcilePool(scope);
    match r {
      case Success => return Finished;
      case Failure => return Errored;
      case Panic => return Panicked;
    }
  }

  /** What the body of a reconcile has done when it ends, with frame f, without error. */
  predicate WorkDone(f: NP.PoolFrame) {
    if f.mem.deleting then !f.mem.finalizer
    else f.mem.finalizer && f.mem.poolId != NO_ID && f.mem.cond == Some(TRUE_CONDITION)
  }

  /** What a reconcile that ran its body has achieved: an error exactly when the body failed or panicked, or the
      deferred Close, which is the last step, failed; without an error all that the body left in memory, in
      frame f, is persisted; a deletion that failed anywhere keeps the finalizer, and one that did not has
      removed the pool. */
  predicate Achieved(fl: Fleet, key: Key, f: NP.PoolFrame, last: Option<Step>, err: bool) {
    && (err <==> f.pc == NP.Closing(Errored) || f.pc == NP.Closing(Panicked) || last == Some(ByPool(key, ClosePool(false))))
    && (!err ==> WorkDone(f))
    && (!err && !f.mem.deleting && key in fl.pools ==> fl.pools[key] == f.mem.(deleting := fl.pools[key].deleting))
    && (f.mem.deleting ==> if err then key in fl.pools && fl.pools[key].finalizer else key !in fl.pools)
  }

  method Work(scope: ManagedMachinePoolScope) returns (exit: Exit)
    requires scope.At(NP.AtStart) && (scope.managedMachinePool.deleting ==> scope.managedMachinePool.finalizer)
    modifies scope.env, scope.managedMachinePool
    ensures scope.At(NP.Closing(exit)) && old(scope.env.trace) <= scope.env.trace
    ensures exit != Requeued && (exit == Finished ==> WorkDone(scope.env.PoolFrame(scope.key)))
    ensures exit != Finished && scope.managedMachinePool.deleting ==> scope.managedMachinePool.finalizer
  {
    if scope.managedMachinePool.deleting {
      exit := ReconcileDelete(scope);
    } else {
      exit := ReconcileNormal(scope);
    }
  }

  /** How far a reconcile got: no pool, no answer, no owner, no control plane, a control plane that is not Ready
      (the pool is parked), or the body. */
  datatype Reached = NoPool | NoAnswer | NoOwner | NoControlPlane | Parked | Body

  /** How far the answers of the two Gets and the gate between them let a reconcile get. */
  function Reaches(own: Shown<()>, gate: Gate, plane: PlaneRead): Reached {
    match own
    case Missing => NoPool
    case ShowFailed => NoAnswer
    case Found(_) =>
      if gate != Owned then NoOwner
      else match plane
        case Unreadable => NoControlPlane
        case NotReady => Parked
        case ReadyAs(_) => Body
  }

  /** The body runs exactly for a pool that was read, whose gate is open and whose control plane was read and is
      Ready; its cluster id was persisted with Ready. A pool whose control plane is not Ready is parked. Without
      the body no call is made for the pool and it is as it was, and there is an error exactly when the owner
      lookup failed. Another reconcile is asked for exactly when the first Get failed. */
  method Reconcile(env: Environment, key: Key, gate: Gate)
    returns (requeue: bool, err: bool, how: Reached, ghost ended: Option<NP.PoolFrame>)
    requires env.Valid() && key !in env.world.fleet.inFlight
    modifies env, env.gets
    ensures env.Valid() && key !in env.world.fleet.inFlight && old(env.trace) <= env.trace
    ensures how == Reaches(env.gets.own, gate, env.gets.plane) && (how.Body? <==> ended.Some?)
    ensures requeue <==> how.NoAnswer?
    ensures !how.Body? ==>
              && env.PoolCalls(key) == old(env.PoolCalls(key)) && PoolSpared(key, old(env.world).fleet, env.world.fleet)
              && (err <==> how.NoOwner? && gate == OwnerLookupFailed)
    ensures how.Parked? ==> env.world.plane.alive && !env.world.plane.obj.status.ready
    ensures how.Body? ==>
              && ended.value.cluster != NO_ID && ended.value.cluster in env.world.plane.hist.readyIds
              && Achieved(env.world.fleet, key, ended.value, Last(env.trace), err)
  {
    var read := env.GetPool(key);
    if read.Missing? {
      return false, false, NoPool, None;
    }
    if read.ShowFailed? {
      return true, false, NoAnswer, None;
    }
    if gate != Owned {
      env.LeavePoolReconcile(key);
      return false, gate == OwnerLookupFailed, NoOwner, None;
    }
    PoolFrameFacts(env.start, env.trace, env.world, key);
    err, how, ended := ReconcileOwned(env, key, read.value);
    requeue := false;
  }

  /** The rest of Reconcile, from the Get of the control plane on. */
  method ReconcileOwned(env: Environment, key: Key, was: Pool) returns (err: bool, how: Reached, ghost ended: Option<NP.PoolFrame>)
    requires env.RunningPool(key) && env.PoolFrame(key) == NP.PoolOpened(was) && (was.deleting ==> was.finalizer)
    modifies env, env.gets
    ensures env.Valid() && key !in env.world.fleet.inFlight && old(env.trace) <= env.trace
    ensures env.gets.own == old(env.gets.own)
    ensures how == Reaches(Found(()), Owned, env.gets.plane) && (how.Body? <==> ended.Some?)
    ensures !how.Body? ==>
              !err && env.PoolCalls(key) == old(env.PoolCalls(key)) && PoolSpared(key, old(env.world).fleet, env.world.fleet)
    ensures how.Parked? ==> env.world.plane.alive && !env.world.plane.obj.status.ready
    ensures how.Body? ==>
              && ended.value.cluster != NO_ID && ended.value.cluster in env.world.plane.hist.readyIds
              && Achieved(env.world.fleet, key, ended.value, Last(env.trace), err)
  {
    var controlPlane := env.GetControlPlane(key);
    match controlPlane {
      case Unreadable =>
        env.LeavePoolReconcile(key);
        return false, NoControlPlane, None;
      case NotReady =>
        env.LeavePoolReconcile(key);
        return false, Parked, None;
      case ReadyAs(cluster) =>
        err, ended := Run(env, key, was);
        return err, Body, ended;
    }
  }

  /** The scope, the body, and the deferred Close. */
  method Run(env: Environment, key: Key, was: Pool) returns (err: bool, ghost ended: Option<NP.PoolFrame>)
    requires env.RunningPool(key) && env.PoolFrame(key).pc == NP.AtStart && env.PoolFrame(key).mem == was
    requires was.deleting ==> was.finalizer
    modifies env
    ensures env.Valid() && key !in env.world.fleet.inFlight && old(env.trace) <= env.trace && ended.Some?
    ensures ended.value.cluster != NO_ID && ended.value.cluster in env.world.plane.hist.readyIds
    ensures Achieved(env.world.fleet, key, ended.value, Last(env.trace), err)
  {
    var pool := new CCEManagedMachinePool.Get(was);
    var scope := new ManagedMachinePoolScope(env, key, pool);
    var exit := Work(scope);
    ended := Some(env.PoolFrame(key));
    var saved := scope.Close();
    return exit != Finished || !saved, ended;
  }
}
