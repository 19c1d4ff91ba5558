/** The provider-id index that setStatus of a node pool rebuilds from the nodes of the cluster. */
module ProviderIds {
  import opened Types

  const POOL_ANNOTATION := "kubernetes.io/node-pool.id"

  predicate Belongs(node: Node, poolId: Id) {
    |node.annotations| != 0 && POOL_ANNOTATION in node.annotations
      && node.annotations[POOL_ANNOTATION] == poolId.text
  }

  /** fmt.Sprintf("cce:////%s/%s", node.Spec.Az, *node.Metadata.Uid) */
  function ProviderId(node: Node): string {
    "cce:////" + node.az + "/" + node.uid
  }

  /** The provider ids of the nodes of a pool, in the order of the node list. */
  function Index(nodes: seq<Node>, poolId: Id): seq<string> {
    if nodes == [] then []
    else
      var last := nodes[|nodes| - 1];
      Index(nodes[..|nodes| - 1], poolId) + if Belongs(last, poolId) then [ProviderId(last)] else []
  }

  /** `Index` is a filter and a map that keep the order: entry i comes from the node at position at[i],
      the positions increase strictly, and every node of the pool is met. */
  predicate OrderedSelection(nodes: seq<Node>, poolId: Id, ids: seq<string>, at: seq<nat>) {
    && |at| == |ids|
    && (forall i :: 0 <= i < |at| ==>
          at[i] < |nodes| && OfPool(nodes[at[i]], poolId) && ids[i] == "cce:////" + nodes[at[i]].az + "/" + nodes[at[i]].uid)
    && (forall i, j :: 0 <= i < j < |at| ==> at[i] < at[j])
    && (forall n :: 0 <= n < |nodes| && OfPool(nodes[n], poolId) ==> n in at)
  }

  /** The annotation that says which node pool a node belongs to. */
  predicate OfPool(node: Node, poolId: Id) {
    "kubernetes.io/node-pool.id" in node.annotations && node.annotations["kubernetes.io/node-pool.id"] == poolId.text
  }

  lemma {:induction false} IndexIsOrderedSelection(nodes: seq<Node>, poolId: Id) returns (at: seq<nat>)
    ensures OrderedSelection(nodes, poolId, Index(nodes, poolId), at)
  {
    if nodes == [] {
      at := [];
    } else {
      var n := |nodes| - 1;
      at := IndexIsOrderedSelection(nodes[..n], poolId);
      if Belongs(nodes[n], poolId) {
        at := at + [n];
      }
    }
  }

  // ---------------------------------------------------------------- no duplicates, no sharing

  predicate SlashFree(s: string) {
    forall i :: 0 <= i < |s| ==> s[i] != '/'
  }

  predicate UniqueUids(nodes: seq<Node>) {
    forall i, j :: 0 <= i < j < |nodes| ==> nodes[i].uid != nodes[j].uid
  }

  predicate SlashFreeUids(nodes: seq<Node>) {
    forall i :: 0 <= i < |nodes| ==> SlashFree(nodes[i].uid)
  }

  /** Two node lists, possibly taken at different times, in which a node keeps its pool annotation. */
  ghost predicate KeepPools(first: seq<Node>, second: seq<Node>) {
    forall m, n, p :: m in first && n in second && m.uid == n.uid ==> (Belongs(m, p) <==> Belongs(n, p))
  }

  /** The characters of a provider id: the slash before the uid, the zone before it, the uid after it. */
  lemma ProviderIdParts(n: Node)
    ensures var id, slash := ProviderId(n), 8 + |n.az|;
            |id| == slash + 1 + |n.uid| && id[slash] == '/' && id[8..slash] == n.az && id[slash + 1..] == n.uid
  {
    var front := "cce:////" + n.az;
    assert ProviderId(n) == front + ("/" + n.uid);
    assert front[8..] == n.az;
  }

  /** A provider id determines the node's uid, because a uid holds no slash. */
  lemma {:induction false} ProviderIdFixesUid(m: Node, n: Node)
    requires SlashFree(m.uid) && SlashFree(n.uid)
    requires ProviderId(m) == ProviderId(n)
    ensures m.uid == n.uid && m.az == n.az
  {
    var id := ProviderId(m);
    var i, j := 8 + |m.az|, 8 + |n.az|;
    ProviderIdParts(m);
    ProviderIdParts(n);
    assert forall k :: i < k < |id| ==> id[k] == m.uid[k - i - 1];
    assert forall k :: j < k < |id| ==> id[k] == n.uid[k - j - 1];
    assert i == j;
  }

  /** A node of one pool and a node of another have different provider ids. */
  lemma PoolsDoNotShare(m: Node, p: Id, n: Node, q: Id)
    requires Belongs(m, p) && Belongs(n, q) && p != q
    requires SlashFree(m.uid) && SlashFree(n.uid)
    requires m.uid == n.uid ==> (Belongs(m, p) <==> Belongs(n, p))
    ensures ProviderId(m) != ProviderId(n)
  {
    assert p.text != q.text;
    if ProviderId(m) == ProviderId(n) {
      ProviderIdFixesUid(m, n);
    }
  }

  lemma IndexHasNoDuplicates(nodes: seq<Node>, poolId: Id)
    requires UniqueUids(nodes) && SlashFreeUids(nodes)
    ensures var ids := Index(nodes, poolId);
            forall i, j :: 0 <= i < j < |ids| ==> ids[i] != ids[j]
  {
    var ids := Index(nodes, poolId);
    var at := IndexIsOrderedSelection(nodes, poolId);
    forall i, j | 0 <= i < j < |ids|
      ensures ids[i] != ids[j]
    {
      if ids[i] == ids[j] {
        ProviderIdFixesUid(nodes[at[i]], nodes[at[j]]);
      }
    }
  }

  /** The indexes of two pools never share an id, even when they come from different node lists. */
  lemma IndexesAreDisjoint(first: seq<Node>, p: Id, second: seq<Node>, q: Id)
    requires p != q
    requires SlashFreeUids(first) && SlashFreeUids(second) && KeepPools(first, second)
    ensures forall id :: id in Index(first, p) ==> id !in Index(second, q)
  {
    var atFirst := IndexIsOrderedSelection(first, p);
    var atSecond := IndexIsOrderedSelection(second, q);
    forall i, j | 0 <= i < |atFirst| && 0 <= j < |atSecond|
      ensures Index(first, p)[i] != Index(second, q)[j]
    {
      PoolsDoNotShare(first[atFirst[i]], p, second[atSecond[j]], q);
    }
  }

  /** The loop of setStatus. */
  method IndexLoop(nodes: seq<Node>, poolId: Id) returns (ids: seq<string>)
    ensures ids == Index(nodes, poolId)
  {
    ids := [];
    for i := 0 to |nodes|
      invariant ids == Index(nodes[..i], poolId)
    {
      var node := nodes[i];
      assert nodes[..i + 1][..i] == nodes[..i];
      if |node.annotations| == 0 {
        continue;
      }
      if POOL_ANNOTATION !in node.annotations || node.annotations[POOL_ANNOTATION] != poolId.text {
        continue;
      }
      ids := ids + [ProviderId(node)];
    }
    assert nodes[..|nodes|] == nodes;
  }
}
