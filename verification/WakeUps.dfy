/** Which machine pools are reconciled when a control plane changes: the owner lookups and the event map
    functions of ccemanagedmachinepool_controller.go. */
module WakeUps {
  import opened Types

  const CLUSTER_API_GROUP := "cluster.x-k8s.io"

  /** An owner reference; `group` is what its API version parses to, or None when it does not parse. */
  datatype OwnerReference = OwnerReference(kind: string, group: Option<string>, name: string)

  datatype ObjectKey = ObjectKey(namespace: string, name: string)

  datatype GroupKind = GroupKind(group: string, kind: string)

  datatype InfrastructureRef = InfrastructureRef(groupKind: GroupKind, name: string)

  /** A MachinePool; `clusterName` is its cluster-name label. */
  datatype MachinePool = MachinePool(namespace: string, name: string, clusterName: Option<string>, infrastructureRef: InfrastructureRef)

  /** The metadata of a control plane that the map function looks at. */
  datatype Meta = Meta(namespace: string, deleting: bool, owners: seq<OwnerReference>)

  /** The answer of an owner lookup: an owner, none, or an API version that does not parse. */
  datatype Lookup = Owner(key: ObjectKey) | NoOwner | BadVersion

  // ---------------------------------------------------------------- owner lookups

  /** The lookup stops at this reference. */
  predicate Decides(ref: OwnerReference, kind: string) {
    ref.kind == kind && (ref.group.None? || ref.group == Some(CLUSTER_API_GROUP))
  }

  /** The first reference that decides, if there is one. */
  function FirstDeciding(owners: seq<OwnerReference>, kind: string): (ref: Option<OwnerReference>)
    ensures ref.None? <==> forall r :: r in owners ==> !Decides(r, kind)
    ensures ref.Some? ==> ref.value in owners && Decides(ref.value, kind)
  {
    if owners == [] then None
    else if Decides(owners[0], kind) then Some(owners[0])
    else FirstDeciding(owners[1..], kind)
  }

  function LookUp(namespace: string, owners: seq<OwnerReference>, kind: string): Lookup {
    match FirstDeciding(owners, kind)
    case None => NoOwner
    case Some(ref) => if ref.group.None? then BadVersion else Owner(ObjectKey(namespace, ref.name))
  }

  /** The reference at i is of the kind and in the Cluster API's group, and is the first of the kind that is in
      that group or has an API version that does not parse. */
  predicate Owns(owners: seq<OwnerReference>, kind: string, i: nat) {
    && i < |owners| && owners[i].kind == kind && owners[i].group == Some("cluster.x-k8s.io")
    && forall j :: 0 <= j < i ==> !Decides(owners[j], kind)
  }

  /** The lookup answers with an owner exactly when there is such a reference, and then with that one's name:
      a reference that does not parse hides every owner behind it. */
  lemma {:induction false} LookUpFinds(namespace: string, owners: seq<OwnerReference>, kind: string)
    ensures LookUp(namespace, owners, kind).Owner? <==> exists i: nat :: Owns(owners, kind, i)
    ensures forall i: nat :: Owns(owners, kind, i) ==> LookUp(namespace, owners, kind) == Owner(ObjectKey(namespace, owners[i].name))
  {
    if owners != [] {
      var rest := owners[1..];
      LookUpFinds(namespace, rest, kind);
      assert forall j :: 0 < j < |owners| ==> owners[j] == rest[j - 1];
      if Decides(owners[0], kind) {
        assert owners[0].group.Some? ==> Owns(owners, kind, 0);
      } else {
        assert forall i: nat :: Owns(owners, kind, i) ==> i > 0 && Owns(rest, kind, i - 1);
        if i: nat :| Owns(rest, kind, i) {
          assert Owns(owners, kind, i + 1);
        }
      }
    }
  }

  /** The loop of GetOwnerClusterKey, and of getOwnerMachinePool before its Get. */
  method LookUpOwner(namespace: string, owners: seq<OwnerReference>, kind: string) returns (r: Lookup)
    ensures r == LookUp(namespace, owners, kind)
  {
    for i := 0 to |owners|
      invariant FirstDeciding(owners, kind) == FirstDeciding(owners[i..], kind)
    {
      var ref := owners[i];
      assert owners[i..][1..] == owners[i + 1..];
      if ref.kind != kind {
        continue;
      }
      if ref.group.None? {
        return BadVersion;
      }
      if ref.group.value == CLUSTER_API_GROUP {
        return Owner(ObjectKey(namespace, ref.name));
      }
    }
    return NoOwner;
  }

  // ---------------------------------------------------------------- event maps

  /** machinePoolToInfrastructureMapFunc. */
  function MapMachinePool(gk: GroupKind, m: MachinePool): (requests: seq<ObjectKey>)
    ensures |requests| <= 1
    ensures forall k :: k in requests <==> m.infrastructureRef.groupKind == gk && k == ObjectKey(m.namespace, m.infrastructureRef.name)
  {
    if m.infrastructureRef.groupKind != gk then [] else [ObjectKey(m.namespace, m.infrastructureRef.name)]
  }

  predicate Matches(m: MachinePool, gk: GroupKind) {
    m.infrastructureRef.groupKind == gk
  }

  /** The requests of a list of machine pools. */
  function Requests(gk: GroupKind, items: seq<MachinePool>): seq<ObjectKey> {
    if items == [] then []
    else Requests(gk, items[..|items| - 1]) + MapMachinePool(gk, items[|items| - 1])
  }

  /** Request i comes from the machine pool at position at[i]; the positions increase strictly and meet every
      machine pool of the group and kind. */
  predicate InOrder(gk: GroupKind, items: seq<MachinePool>, requests: seq<ObjectKey>, at: seq<nat>) {
    && |at| == |requests|
    && (forall i :: 0 <= i < |at| ==>
          && at[i] < |items| && Matches(items[at[i]], gk)
          && requests[i] == ObjectKey(items[at[i]].namespace, items[at[i]].infrastructureRef.name))
    && (forall i, j :: 0 <= i < j < |at| ==> at[i] < at[j])
    && (forall n :: 0 <= n < |items| && Matches(items[n], gk) ==> n in at)
  }

  /** The requests are exactly the order-preserving selection of the matching machine pools. */
  lemma {:induction false} RequestsInOrder(gk: GroupKind, items: seq<MachinePool>) returns (at: seq<nat>)
    ensures InOrder(gk, items, Requests(gk, items), at)
  {
    if items == [] {
      at := [];
    } else {
      var n := |items| - 1;
      at := RequestsInOrder(gk, items[..n]);
      if Matches(items[n], gk) {
        at := at + [n];
      }
    }
  }

  /** The loop over the machine pools of a cluster. */
  method MapAll(gk: GroupKind, items: seq<MachinePool>) returns (results: seq<ObjectKey>)
    ensures results == Requests(gk, items)
  {
    results := [];
    for i := 0 to |items|
      invariant results == Requests(gk, items[..i])
    {
      assert items[..i + 1][..i] == items[..i];
      var mapped := MapMachinePool(gk, items[i]);
      results := results + mapped;
    }
    assert items[..|items|] == items;
  }

  /** The answer to a list request with the namespace and the cluster-name label of a cluster. */
  predicate Lists(all: set<MachinePool>, cluster: ObjectKey, items: seq<MachinePool>) {
    && (forall m :: m in items ==> m in all && m.namespace == cluster.namespace && m.clusterName == Some(cluster.name))
    && (forall m :: m in all && m.namespace == cluster.namespace && m.clusterName == Some(cluster.name) ==> m in items)
  }

  /** The machine pools that the API server holds. */
  class Client {
    const pools: set<MachinePool>

    constructor (pools: set<MachinePool>)
      ensures this.pools == pools
    {
      this.pools := pools;
    }

    /** List with the namespace of a cluster and its name as the cluster-name label; in any order. */
    method List(cluster: ObjectKey) returns (items: seq<MachinePool>)
      ensures Lists(pools, cluster, items)
    {
      items := [];
      var rest := set m | m in pools && m.namespace == cluster.namespace && m.clusterName == Some(cluster.name);
      while rest != {}
        invariant rest <= pools
        invariant forall m :: m in rest ==> m.namespace == cluster.namespace && m.clusterName == Some(cluster.name)
        invariant forall m :: m in items ==> m in pools && m.namespace == cluster.namespace && m.clusterName == Some(cluster.name)
        invariant forall m :: m in pools && m.namespace == cluster.namespace && m.clusterName == Some(cluster.name) ==>
                    m in rest || m in items
        decreases |rest|
      {
        var m :| m in rest;
        rest := rest - {m};
        items := items + [m];
      }
    }
  }

  /** A MachinePool of the cluster, labelled with its name, references the pool with the right group and kind. */
  predicate Referenced(all: set<MachinePool>, cluster: ObjectKey, gk: GroupKind, pool: ObjectKey) {
    exists m :: m in all && Matches(m, gk) && m.clusterName == Some(cluster.name)
                && m.namespace == cluster.namespace == pool.namespace && m.infrastructureRef.name == pool.name
  }

  lemma RequestsAreReferenced(gk: GroupKind, cluster: ObjectKey, all: set<MachinePool>, items: seq<MachinePool>, pool: ObjectKey)
    requires Lists(all, cluster, items)
    ensures pool in Requests(gk, items) <==> Referenced(all, cluster, gk, pool)
  {
    var results := Requests(gk, items);
    var at := RequestsInOrder(gk, items);
    if pool in results {
      var i :| 0 <= i < |results| && results[i] == pool;
      assert items[at[i]] in items;
    }
    if Referenced(all, cluster, gk, pool) {
      var m :| m in all && Matches(m, gk) && m.clusterName == Some(cluster.name)
               && m.namespace == cluster.namespace == pool.namespace && m.infrastructureRef.name == pool.name;
      var n :| 0 <= n < |items| && items[n] == m;
      var j :| 0 <= j < |at| && at[j] == n;
      assert results[j] == pool;
    }
  }

  /** The pool that a control plane's change wakes: the control plane is not being deleted, an owner reference
      of it names a cluster, and a MachinePool of that cluster references the pool. */
  ghost predicate Wakes(meta: Meta, all: set<MachinePool>, gk: GroupKind, pool: ObjectKey) {
    && !meta.deleting
    && exists i: nat :: Owns(meta.owners, "Cluster", i) && Referenced(all, ObjectKey(meta.namespace, meta.owners[i].name), gk, pool)
  }

  lemma WakesByLookUp(meta: Meta, all: set<MachinePool>, gk: GroupKind, pool: ObjectKey)
    ensures var owner := LookUp(meta.namespace, meta.owners, "Cluster");
            Wakes(meta, all, gk, pool) <==> !meta.deleting && owner.Owner? && Referenced(all, owner.key, gk, pool)
  {
    LookUpFinds(meta.namespace, meta.owners, "Cluster");
  }

  /** managedControlPlaneToManagedMachinePoolMapFunc. No lost wake-up: unless the list request fails, the
      requests are exactly for the pools that the change wakes, in the order of the listed machine pools. */
  method MapControlPlane(client: Client, gk: GroupKind, meta: Meta, listFails: bool) returns (results: seq<ObjectKey>)
    ensures listFails ==> results == []
    ensures !listFails ==> forall pool :: pool in results <==> Wakes(meta, client.pools, gk, pool)
    ensures results != [] ==>
              exists items, i: nat ::
                && Owns(meta.owners, "Cluster", i) && Lists(client.pools, ObjectKey(meta.namespace, meta.owners[i].name), items)
                && results == Requests(gk, items)
  {
    forall pool {
      WakesByLookUp(meta, client.pools, gk, pool);
    }
    if meta.deleting {
      return [];
    }
    var cluster := LookUpOwner(meta.namespace, meta.owners, "Cluster");
    if !cluster.Owner? {
      return [];
    }
    if listFails {
      return [];
    }
    var items := client.List(cluster.key);
    results := MapAll(gk, items);
    LookUpFinds(meta.namespace, meta.owners, "Cluster");
    ghost var i: nat :| Owns(meta.owners, "Cluster", i);
    assert Lists(client.pools, ObjectKey(meta.namespace, meta.owners[i].name), items);
    forall pool {
      RequestsAreReferenced(gk, cluster.key, client.pools, items, pool);
    }
  }

  /** A parked pool is woken: for every machine pool of the cluster that owns a control plane, labelled and of
      the right group and kind, the pool it references is in the request list of a change of the control
      plane, unless that is being deleted. */
  lemma NoLostWakeUp(meta: Meta, i: nat, all: set<MachinePool>, gk: GroupKind, m: MachinePool, items: seq<MachinePool>)
    requires !meta.deleting && Owns(meta.owners, "Cluster", i)
    requires m in all && Matches(m, gk) && m.namespace == meta.namespace && m.clusterName == Some(meta.owners[i].name)
    requires LookUp(meta.namespace, meta.owners, "Cluster").Owner? ==>
               Lists(all, LookUp(meta.namespace, meta.owners, "Cluster").key, items)
    ensures ObjectKey(m.namespace, m.infrastructureRef.name) in Requests(gk, items)
    ensures Wakes(meta, all, gk, ObjectKey(m.namespace, m.infrastructureRef.name))
  {
    var pool := ObjectKey(m.namespace, m.infrastructureRef.name);
    LookUpFinds(meta.namespace, meta.owners, "Cluster");
    RequestsAreReferenced(gk, ObjectKey(meta.namespace, meta.owners[i].name), all, items, pool);
  }
}
