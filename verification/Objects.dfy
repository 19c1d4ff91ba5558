/** The objects that a reconcile holds in memory and edits field by field. `Value` is what such an object
    amounts to for the protocol. */
module Objects {
  import opened Types

  const INFRA_CLUSTER_ID_LABEL := "cluster.x-k8s.io/infra-cluster-id"
  const INFRA_MACHINEPOOL_ID_LABEL := "cluster.x-k8s.io/infra-machinepool-id"

  type Labels = map<string, string>

  /** The id in a label; a missing label reads as the empty id. */
  function LabelId(labels: Labels, name: string): Id {
    if name in labels then Id(labels[name]) else NO_ID
  }

  class CCEManagedControlPlane {
    const name: string
    const deleting: bool
    const publicAccess: Option<Option<bool>>
    var finalizer: bool
    var labels: Labels
    var vpcId: Id
    var subnetId: Id
    var endpoint: APIEndpoint
    var ready: bool
    var initialized: bool
    var failure: Option<string>
    var eip: Id
    var conds: Conditions

    ghost function Value(): ControlPlane
      reads this
    {
      ControlPlane(
        name, finalizer, deleting, LabelId(labels, INFRA_CLUSTER_ID_LABEL),
        ControlPlaneSpec(vpcId, subnetId, publicAccess, endpoint),
        ControlPlaneStatus(ready, initialized, failure, eip, conds))
    }

    /** A fresh read of the persisted object. */
    constructor Get(cp: ControlPlane)
      ensures Value() == cp
    {
      name, deleting, publicAccess := cp.name, cp.deleting, cp.spec.publicAccess;
      finalizer, labels := cp.finalizer, map[INFRA_CLUSTER_ID_LABEL := cp.clusterId.text];
      vpcId, subnetId, endpoint := cp.spec.vpcId, cp.spec.subnetId, cp.spec.endpoint;
      ready, initialized, failure := cp.status.ready, cp.status.initialized, cp.status.failure;
      eip, conds := cp.status.eip, cp.status.conds;
    }

    /** controllerutil.AddFinalizer: whether the object has changed. */
    method AddFinalizer() returns (changed: bool)
      modifies this`finalizer
      ensures changed == !old(finalizer) && finalizer
    {
      changed := !finalizer;
      finalizer := true;
    }

    method RemoveFinalizer()
      modifies this`finalizer
      ensures !finalizer
    {
      finalizer := false;
    }

    predicate Has(c: ConditionType)
      reads this
    {
      c in conds
    }

    method MarkTrue(c: ConditionType)
      modifies this`conds
      ensures conds == old(conds)[c := TRUE_CONDITION]
    {
      conds := conds[c := TRUE_CONDITION];
    }

    method MarkFalse(c: ConditionType, reason: Reason)
      modifies this`conds
      ensures conds == old(conds)[c := Condition(false, reason)]
    {
      conds := conds[c := Condition(false, reason)];
    }
  }

  class CCEManagedMachinePool {
    const labelled: bool
    const deleting: bool
    var finalizer: bool
    var labels: Labels
    var ready: bool
    var failure: Option<string>
    var replicas: int
    var providerIds: seq<string>
    var cond: Option<Condition>

    ghost function Value(): Pool
      reads this
    {
      Pool(labelled, finalizer, deleting, LabelId(labels, INFRA_MACHINEPOOL_ID_LABEL), ready, failure, replicas, providerIds, cond)
    }

    constructor Get(p: Pool)
      ensures Value() == p
    {
      labelled, deleting, finalizer := p.labelled, p.deleting, p.finalizer;
      labels := map[INFRA_MACHINEPOOL_ID_LABEL := p.poolId.text];
      ready, failure, replicas, providerIds, cond := p.ready, p.failure, p.replicas, p.providerIds, p.cond;
    }

    method AddFinalizer() returns (changed: bool)
      modifies this`finalizer
      ensures changed == !old(finalizer) && finalizer
    {
      changed := !finalizer;
      finalizer := true;
    }

    method RemoveFinalizer()
      modifies this`finalizer
      ensures !finalizer
    {
      finalizer := false;
    }

    /** The ready condition of a pool; it has no other. */
    method MarkTrue()
      modifies this`cond
      ensures cond == Some(TRUE_CONDITION)
    {
      cond := Some(TRUE_CONDITION);
    }

    method MarkFalse(reason: Reason)
      modifies this`cond
      ensures cond == Some(Condition(false, reason))
    {
      cond := Some(Condition(false, reason));
    }
  }
}
