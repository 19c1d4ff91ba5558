/** The scope of one machine-pool reconcile. */
module PoolScope {
  import opened Types
  import opened Protocol
  import opened Objects
  import opened Environment
  import NP = PoolProgram

  class ManagedMachinePoolScope {
    const env: Environment
    const key: Key
    const managedMachinePool: CCEManagedMachinePool

    /** The machine stands where the code stands: its object is the one in memory. */
    ghost predicate Synced()
      reads env, managedMachinePool
    {
      env.RunningPool(key) && env.PoolFrame(key).mem == managedMachinePool.Value()
    }

    ghost predicate At(pc: NP.PoolPc)
      reads env, managedMachinePool
    {
      Synced() && env.PoolFrame(key).pc == pc
    }

    /** The cluster id of the control plane copy that the scope holds. */
    ghost function Cluster(): Id
      reads env
    {
      if key in env.world.fleet.inFlight then env.PoolFrame(key).cluster else NO_ID
    }

    constructor (env: Environment, key: Key, managedMachinePool: CCEManagedMachinePool)
      ensures this.env == env && this.key == key && this.managedMachinePool == managedMachinePool
    {
      this.env, this.key, this.managedMachinePool := env, key, managedMachinePool;
    }

    function InfraMachinePoolID(): Id
      reads managedMachinePool
    {
      LabelId(managedMachinePool.labels, INFRA_MACHINEPOOL_ID_LABEL)
    }

    method SetInfraMachinePoolID(id: Id)
      modifies managedMachinePool`labels
      ensures managedMachinePool.labels == old(managedMachinePool.labels)["cluster.x-k8s.io/infra-machinepool-id" := id.text]
      ensures managedMachinePool.Value() == old(managedMachinePool.Value()).(poolId := id)
    {
      managedMachinePool.labels := managedMachinePool.labels[INFRA_MACHINEPOOL_ID_LABEL := id.text];
    }

    /** The persisted pool, if it is still there, is the one in memory. */
    ghost predicate Persisted()
      reads env, managedMachinePool
    {
      key in env.world.fleet.pools ==>
        env.world.fleet.pools[key] == managedMachinePool.Value().(deleting := env.world.fleet.pools[key].deleting)
    }

    method PatchObject() returns (saved: bool)
      requires Synced() && NP.CommonGuard(env.PoolFrame(key), NP.Patch(true))
      modifies env
      ensures At(NP.AfterPatch(old(env.PoolFrame(key)).pc, saved)) && old(env.trace) <= env.trace
      ensures Cluster() == old(Cluster()) && (saved ==> Persisted())
      ensures env.PoolCalls(key) == old(env.PoolCalls(key)) + [NP.Common(NP.Patch(saved))]
    {
      saved := env.PatchPool(key);
    }

    /** The deferred Close: one last patch of the object in memory. */
    method Close() returns (saved: bool)
      requires Synced() && env.PoolFrame(key).pc.Closing?
      modifies env
      ensures env.Valid() && key !in env.world.fleet.inFlight && old(env.trace) <= env.trace && (saved ==> Persisted())
      ensures Last(env.trace) == Some(ByPool(key, ClosePool(saved)))
      ensures saved && managedMachinePool.deleting && !managedMachinePool.finalizer ==> key !in env.world.fleet.pools
      ensures managedMachinePool.deleting && (!saved || managedMachinePool.finalizer) ==>
                key in env.world.fleet.pools && env.world.fleet.pools[key].finalizer
      ensures old(Cluster()) != NO_ID && old(Cluster()) in env.world.plane.hist.readyIds
    {
      saved := env.ClosePoolScope(key);
    }

    method MarkNotReady(reason: Reason, ghost ok: bool)
      requires At(BeforeMark(reason, ok)) && (reason == DeletingReason || reason == ReportReason(ok))
      modifies env, managedMachinePool
      ensures At(MarkPatch(reason, ok)) && old(env.trace) <= env.trace && Cluster() == old(Cluster())
      ensures managedMachinePool.Value() == NP.WithCond(old(managedMachinePool.Value()), false, reason)
      ensures env.PoolCalls(key) == old(env.PoolCalls(key)) + [MarkStep(reason)]
    {
      managedMachinePool.MarkFalse(reason);
      env.LocalPool(key, MarkStep(reason));
    }

    /** Marks the ready condition false and patches. */
    method NodepoolReadyFalse(reason: Reason, ghost ok: bool) returns (saved: bool)
      requires At(BeforeMark(reason, ok)) && (reason == DeletingReason || reason == ReportReason(ok))
      modifies env, managedMachinePool
      ensures At(NP.AfterPatch(MarkPatch(reason, ok), saved))
      ensures old(env.trace) <= env.trace && Cluster() == old(Cluster()) && (saved ==> Persisted())
      ensures managedMachinePool.Value() == NP.WithCond(old(managedMachinePool.Value()), false, reason)
      ensures env.PoolCalls(key) == old(env.PoolCalls(key)) + [MarkStep(reason)] + [NP.Common(NP.Patch(saved))]
    {
      MarkNotReady(reason, ok);
      saved := PatchObject();
    }
  }

  function ReportReason(ok: bool): Reason {
    if ok then DeletedReason else DeletingFailedReason
  }

  function MarkStep(reason: Reason): NP.PoolStep {
    NP.Teardown(if reason == DeletingReason then NP.MarkDeleting else NP.ReportDeletion)
  }

  /** Where the code stands when it marks a deletion as begun, or reports how it ended. */
  function BeforeMark(reason: Reason, ok: bool): NP.PoolPc {
    if reason == DeletingReason then NP.AtDeleteMark else NP.AtDeleteReport(ok)
  }

  function MarkPatch(reason: Reason, ok: bool): NP.PoolPc {
    if reason == DeletingReason then NP.AtDeleteMarkPatch else NP.AtDeleteReportPatch(ok)
  }
}
