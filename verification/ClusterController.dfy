/** ccemanagedcluster_controller.go. */
module ClusterController {
  import opened Types
  import opened Protocol
  import opened Environment

  /** A CCEManagedCluster in memory. */
  class CCEManagedCluster {
    var ready: bool
    var endpoint: APIEndpoint

    ghost function Value(): ManagedCluster
      reads this
    {
      ManagedCluster(ready, endpoint)
    }

    constructor Get(mc: ManagedCluster)
      ensures Value() == mc
    {
      ready, endpoint := mc.ready, mc.endpoint;
    }

    method Write() returns (mc: ManagedCluster)
      ensures mc == Value()
    {
      mc := ManagedCluster(ready, endpoint);
    }
  }

  /** With an owner, the endpoint of the control plane is copied and Ready set, unless the Get of the control
      plane or the patch, which is the last step, fails, and that is the only error then. What is copied was
      the persisted endpoint at some moment since the reconcile began. Otherwise the object is as it was. */
  method Reconcile(env: Environment, gate: Gate) returns (err: bool, ghost copied: Option<APIEndpoint>)
    requires env.Valid() && env.world.mirror.inFlight.None?
    modifies env, env.gets
    ensures env.Valid() && env.world.mirror.inFlight.None? && old(env.trace) <= env.trace
    ensures gate != Owned ==> (err <==> gate == OwnerLookupFailed) && copied.None?
    ensures gate == Owned ==>
              && (err <==> env.gets.endpoint.None? || Last(env.trace) == Some(ByCopy(PatchCopy(false))))
              && copied == if err then None else env.gets.endpoint
    ensures copied.Some? ==>
              var h, n := env.world.plane.hist.endpoints, env.world.mirror.copied;
              && |old(env.world.plane.hist.endpoints)| <= n <= |h| && n > 0 && copied.value == h[n - 1]
    ensures env.world.mirror.obj == if copied.Some? then ManagedCluster(true, copied.value) else old(env.world.mirror.obj)
  {
    copied := None;
    if gate != Owned {
      return gate == OwnerLookupFailed, None;
    }
    var endpoint := env.GetEndpoint();
    if endpoint.None? {
      return true, None;
    }
    var managedCluster := new CCEManagedCluster.Get(env.world.mirror.obj);
    managedCluster.ready := true;
    managedCluster.endpoint := endpoint.value;
    var mc := managedCluster.Write();
    var saved := env.PatchManagedCluster(mc);
    if saved {
      CopyIsPersisted(env.start, env.trace, env.world);
    }
    return !saved, if saved then endpoint else None;
  }
}
