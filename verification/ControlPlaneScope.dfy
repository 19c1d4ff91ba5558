/** The scope of one control-plane reconcile: the object in memory and the way to persist it. */
module ControlPlaneScope {
  import opened Types
  import opened Protocol
  import opened Objects
  import opened Environment
  import CP = ControlPlaneProgram
  import Frames = ControlPlaneFrames

  /** How a call into the services ended. */
  datatype Outcome = Success | Failure | Panic

  class ManagedControlPlaneScope {
    const env: Environment
    const controlPlane: CCEManagedControlPlane
    /** The SuccessfulCreateCCEControlPlane events recorded so far. */
    var events: nat

    /** The machine stands where the code stands: its object is the one in memory. */
    ghost predicate Synced()
      reads env, controlPlane
    {
      env.Running() && env.Frame().mem == controlPlane.Value()
    }

    ghost predicate At(pc: CP.Pc)
      reads env, controlPlane
    {
      Synced() && env.Frame().pc == pc
    }

    constructor (env: Environment, controlPlane: CCEManagedControlPlane)
      ensures this.env == env && this.controlPlane == controlPlane && events == 0
    {
      this.env, this.controlPlane, events := env, controlPlane, 0;
    }

    method PatchObject() returns (saved: bool)
      requires Synced() && CP.CommonGuard(env.Frame(), CP.Patch(true))
      modifies env
      ensures Synced() && old(env.trace) <= env.trace
      ensures env.Frame().pc == CP.AfterPatch(old(env.Frame()), saved) && Counts(old(env.Frame()), env.Frame(), 0)
      ensures env.Kept() == old(env.Kept()) && env.calls == old(env.calls) + [CP.Common(CP.Patch(saved))]
      ensures saved ==> env.world.plane.obj == controlPlane.Value().(deleting := env.world.plane.obj.deleting)
    {
      saved := env.PatchPlane();
    }

    /** The deferred Close: one last patch of the object in memory. */
    method Close() returns (saved: bool)
      requires Synced() && env.Frame().pc.Closing?
      modifies env
      ensures env.Valid() && env.world.plane.inFlight.None? && old(env.trace) <= env.trace
      ensures Last(env.trace) == Some(ByPlane(PlaneMove.Close(saved)))
      ensures saved ==> env.world.plane.obj == controlPlane.Value().(deleting := env.world.plane.obj.deleting)
      ensures !saved ==> env.world.plane.obj == old(env.world.plane.obj).(deleting := env.world.plane.obj.deleting)
      ensures saved && controlPlane.deleting && !controlPlane.finalizer ==> !env.world.plane.alive
      ensures env.world.plane.secret == old(env.world.plane.secret)
    {
      saved := env.ClosePlane();
    }

    function InfraClusterID(): Id
      reads controlPlane
    {
      LabelId(controlPlane.labels, INFRA_CLUSTER_ID_LABEL)
    }

    method SetInfraClusterID(id: Id)
      modifies controlPlane`labels
      ensures controlPlane.labels == old(controlPlane.labels)["cluster.x-k8s.io/infra-cluster-id" := id.text]
      ensures controlPlane.Value() == old(controlPlane.Value()).(clusterId := id)
    {
      controlPlane.labels := controlPlane.labels[INFRA_CLUSTER_ID_LABEL := id.text];
    }

    /** The error exit of a service: its condition becomes False with the reason, and the error is returned. */
    method Fail(c: ConditionType, reason: Reason)
      requires At(CP.AtFailing(c)) && reason == CP.FailureReason(c)
      modifies env, controlPlane
      ensures At(CP.Closing(Errored)) && old(env.trace) <= env.trace
      ensures Counts(old(env.Frame()), env.Frame(), 0) && env.Kept() == old(env.Kept())
      ensures env.calls == old(env.calls) + [CP.Common(CP.MarkFailed)]
      ensures controlPlane.Value() == CP.WithCondition(old(controlPlane.Value()), c, Condition(false, reason))
    {
      controlPlane.MarkFalse(c, reason);
      env.Local(CP.Common(CP.MarkFailed));
    }

    /** What every run guarantees about the object at this place in the code. */
    lemma Facts()
      requires Synced()
      ensures Frames.FrameInv(controlPlane.Value(), env.Frame().pc)
    {
      FrameFacts(env.start, env.trace, env.world);
    }
  }
}
