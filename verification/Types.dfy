/** The values shared by the three controllers: the persisted Kubernetes objects, the answers
    of the cloud, and the small vocabulary (ids, conditions, phases) they are made of. */
module Types {

  datatype Option<+T> = None | Some(value: T) {
    function GetOr(default: T): T {
      match this
      case Some(v) => v
      case None => default
    }
  }

  /** A cloud resource id. NO_ID is the empty string: an id label or field that is not set. */
  datatype Id = Id(text: string)
  const NO_ID := Id("")

  /** The identity (uid) of a CCEManagedMachinePool object; never reused. */
  type Key = nat

  /** How many times waitUntil evaluates its condition, in all four waits. */
  const MAX_POLLS: nat := 40

  // ---------------------------------------------------------------- conditions

  datatype ConditionType =
    | VpcReady
    | SubnetsReady
    | ControlPlaneCreating
    | ControlPlaneReady
    | ControlPlaneUpdating

  datatype Reason =
    | NoReason
    | VpcCreationStartedReason
    | VpcReconciliationFailedReason
    | SubnetsReconciliationFailedReason
    | ControlPlaneReconciliationFailedReason
    | CreatedReason
    | UpdatedReason
    | NodepoolReconciliationFailedReason
    | DeletingReason
    | DeletedReason
    | DeletingFailedReason

  datatype Condition = Condition(status: bool, reason: Reason)

  const TRUE_CONDITION := Condition(true, NoReason)

  type Conditions = map<ConditionType, Condition>

  predicate IsTrue(conds: Conditions, c: ConditionType) {
    c in conds && conds[c].status
  }

  // ---------------------------------------------------------------- cloud answers

  datatype ClusterPhase =
    | Creating
    | Available
    | Unavailable
    | Upgrading
    | Deleting
    | OtherPhase(name: string)

  datatype ClusterStatus = ClusterStatus(phase: ClusterPhase, reason: string, message: string)

  datatype EndpointKind = Internal | External | OtherKind(name: string)

  /** What net/url makes of an endpoint address: it may not parse at all, and the port may be missing. */
  datatype Url = Malformed | Url(host: string, port: Option<nat>)

  datatype EndpointEntry = EndpointEntry(kind: EndpointKind, url: Url)

  datatype ClusterInfo = ClusterInfo(status: ClusterStatus, endpoints: Option<seq<EndpointEntry>>)

  /** A node pool's phase; NpActive is the empty string of the source. */
  datatype NodepoolPhase =
    | NpActive
    | NpSynchronizing
    | NpSynchronized
    | NpDeleting
    | NpError
    | NpSoldOut
    | NpOther(name: string)

  datatype NodepoolStatus = NodepoolStatus(phase: NodepoolPhase, currentNode: Option<int>)

  datatype Node = Node(az: string, uid: string, annotations: map<string, string>)

  /** The answer to a show request: the resource, a 404, or any other error. */
  datatype Shown<+T> = Found(value: T) | Missing | ShowFailed

  /** The answer to a create request. With a lost reply the caller sees an error
      although the cloud has created the resource. */
  datatype Made<+T> = Done(id: Id, value: T) | MakeFailed | LostReply(lost: Id, hidden: T)

  datatype Removal = Accepted | NotFound | RemovalFailed

  // ---------------------------------------------------------------- kubernetes objects

  datatype APIEndpoint = APIEndpoint(host: string, port: int)
  const ZERO_ENDPOINT := APIEndpoint("", 0)

  /** The parts of CCEManagedControlPlaneSpec that the controllers read or write. The outer option
      of `publicAccess` is the EndpointAccess pointer, the inner one its Public pointer. */
  datatype ControlPlaneSpec = ControlPlaneSpec(
    vpcId: Id,
    subnetId: Id,
    publicAccess: Option<Option<bool>>,
    endpoint: APIEndpoint)

  datatype ControlPlaneStatus = ControlPlaneStatus(
    ready: bool,
    initialized: bool,
    failure: Option<string>,
    eip: Id,
    conds: Conditions)

  /** A CCEManagedControlPlane; `clusterId` is its infra-cluster-id label. */
  datatype ControlPlane = ControlPlane(
    name: string,
    finalizer: bool,
    deleting: bool,
    clusterId: Id,
    spec: ControlPlaneSpec,
    status: ControlPlaneStatus)

  predicate Holds(m: ControlPlane, c: ConditionType) {
    c in m.status.conds && m.status.conds[c] == TRUE_CONDITION
  }

  predicate MarkedFalse(m: ControlPlane, c: ConditionType, reason: Reason) {
    c in m.status.conds && m.status.conds[c] == Condition(false, reason)
  }

  /** A CCEManagedMachinePool. `labelled` says whether it carries the cluster-name label,
      `poolId` is its infra-machinepool-id label. */
  datatype Pool = Pool(
    labelled: bool,
    finalizer: bool,
    deleting: bool,
    poolId: Id,
    ready: bool,
    failure: Option<string>,
    replicas: int,
    providerIds: seq<string>,
    cond: Option<Condition>)

  /** How a reconcile ended. A panic still runs the deferred Close. */
  datatype Exit = Finished | Requeued | Errored | Panicked
}
