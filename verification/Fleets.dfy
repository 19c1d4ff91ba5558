/** The invariants of the machine pools, their reconciles in flight and their node pools. */
module Fleets {
  import opened Types
  import opened Protocol
  import opened Invariants
  import CP = ControlPlaneProgram
  import NP = PoolProgram

  // ---------------------------------------------------------------- how the rest of the system ages

  /** Ids are never reused: what an old id names can only disappear, and a node pool never changes its
      cluster or leaves the deletion. */
  predicate Ages(c: Cloud, c': Cloud) {
    && c.used <= c'.used
    && (forall id :: id in c.used && id in c'.clusters ==> id in c.clusters)
    && (forall id :: id in c.used && id in c'.nodepools ==>
          && id in c.nodepools && c'.nodepools[id].cluster == c.nodepools[id].cluster
          && (c.nodepools[id].status.phase == NpDeleting ==> c'.nodepools[id].status.phase == NpDeleting))
  }

  /** The persisted cluster id changes only after its cluster is gone. */
  predicate PlaneAges(p: Plane, p': Plane, c': Cloud) {
    && p.hist.readyIds <= p'.hist.readyIds
    && (p'.obj.clusterId == p.obj.clusterId || p.obj.clusterId !in c'.clusters)
  }

  lemma ClusterAges(c: Cloud, m: ControlPlane, s: CP.ClusterStep)
    requires CloudInv(c) && ClusterAllowed(c, m, s)
    ensures Ages(c, ClusterCloud(c, s))
  {
  }

  lemma DoAges(p: Plane, c: Cloud, labelled: nat, f: CP.CPFrame, s: CP.CPStep)
    requires CloudInv(c) && p.inFlight == Some(f) && CPAllowed(p, c, labelled, f.mem, s)
    ensures Ages(c, PlaneCloud(p, c, Do(s)))
  {
    match s
    case Common(_) =>
    case Network(s') => assert NetworkCloud(c, f.mem, s').(used := c.used, subnets := c.subnets) == c;
    case Cluster(s') => ClusterAges(c, f.mem, s');
    case Access(s') => assert AccessCloud(c, f.mem, s').(used := c.used, eipOf := c.eipOf) == c;
    case Teardown(_) =>
  }

  lemma PlaneEffectAges(p: Plane, c: Cloud, f: CP.CPFrame, s: CP.CPStep)
    requires Extends(p, c, f.mem, f.pc)
    ensures PlaneAges(p, PlaneEffect(p, f, s), c)
    ensures !s.Common? ==> PlaneEffect(p, f, s).obj == p.obj && PlaneEffect(p, f, s).hist.readyIds == p.hist.readyIds
  {
  }

  lemma PlaneMovesAge(p: Plane, c: Cloud, labelled: nat, move: PlaneMove)
    requires Base(p, c) && FrameOk(p) && PlaneEnabled(p, c, labelled, move)
    ensures Ages(c, PlaneCloud(p, c, move))
    ensures PlaneAges(p, PlaneAfter(p, c, labelled, move), PlaneCloud(p, c, move))
  {
    match move
    case Do(s) =>
      DoAges(p, c, labelled, p.inFlight.value, s);
      PlaneEffectAges(p, c, p.inFlight.value, s);
    case _ =>
  }

  lemma NodepoolAges(c: Cloud, f: NP.PoolFrame, s: NP.PoolStep)
    requires CloudInv(c) && (s.Nodepool? && s.nodepool.CreateNodepool? ==> FreshIfMade(c, s.nodepool.made))
    ensures Ages(c, NodepoolCloud(c, f, s))
  {
  }

  lemma PoolMovesAge(p: Plane, fl: Fleet, c: Cloud, key: Key, move: PoolMove)
    requires CloudInv(c) && PoolEnabled(p, fl, c, key, move)
    ensures Ages(c, PoolCloud(fl, c, key, move))
  {
    if move.DoPool? {
      NodepoolAges(c, fl.inFlight[key], move.ps);
    }
  }

  lemma CloudMovesAge(p: Plane, c: Cloud, s: CloudStep)
    requires CloudInv(c) && CloudEnabled(p, c, s)
    ensures Ages(c, CloudAfter(p, c, s))
  {
  }

  lemma Aging(w: World, s: Step)
    requires Base(w.plane, w.cloud) && FrameOk(w.plane) && Enabled(w, s)
    ensures Ages(w.cloud, Apply(w, s).cloud)
    ensures PlaneAges(w.plane, Apply(w, s).plane, Apply(w, s).cloud)
  {
    match s
    case User(_) =>
    case ByCloud(change) => CloudMovesAge(w.plane, w.cloud, change);
    case ByPlane(move) => PlaneMovesAge(w.plane, w.cloud, |Labelled(w.fleet)|, move);
    case ByPool(key, move) => PoolMovesAge(w.plane, w.fleet, w.cloud, key, move);
    case ByCopy(_) =>
  }

  // ---------------------------------------------------------------- one pool

  /** A persisted pool: a deleted one still has its finalizer, an id is recorded only under the finalizer,
      and a live node pool lies in the recorded cluster. */
  predicate PoolFits(p: Plane, c: Cloud, pool: Pool) {
    && Known(c, pool.poolId)
    && (pool.deleting ==> pool.finalizer)
    && (pool.poolId != NO_ID ==> pool.finalizer)
    && (pool.poolId in c.nodepools ==> c.nodepools[pool.poolId].cluster == p.obj.clusterId)
  }

  /** The finalizer a reconcile relies on is persisted; `held` is the persisted pool, if it exists. */
  predicate Held(held: Option<Pool>, f: NP.PoolFrame) {
    && (NP.Early(f.pc) && f.mem.finalizer ==> held.Some? && held.value.finalizer)
    && (NP.Early(f.pc) && f.mem.poolId != NO_ID ==> f.mem.finalizer)
    && (NP.Early(f.pc) && held.Some? ==> held.value.poolId == f.mem.poolId)
    && (!NP.Early(f.pc) && !f.pc.Closing? && !f.pc.AtFinalizerPatch? ==> held.Some? && held.value.finalizer)
    && (f.mem.deleting ==> held.Some? && held.value.finalizer && held.value.deleting && held.value.poolId == f.mem.poolId)
    && (held.Some? ==> held.value.labelled == f.mem.labelled)
  }

  /** The cluster id that a reconcile uses was persisted with Ready, and names the recorded cluster or none. */
  predicate UsesReadyCluster(p: Plane, c: Cloud, f: NP.PoolFrame) {
    if f.pc.AtReadControlPlane? then
      f.mem.poolId in c.nodepools ==> c.nodepools[f.mem.poolId].cluster == p.obj.clusterId
    else
      && f.cluster != NO_ID && f.cluster in p.hist.readyIds
      && (f.cluster == p.obj.clusterId || f.cluster !in c.clusters)
      && (f.mem.poolId in c.nodepools ==> c.nodepools[f.mem.poolId].cluster == f.cluster)
  }

  /** The reconcile has observed that its node pool is gone. */
  predicate SeenGone(f: NP.PoolFrame) {
    || (f.pc.AtDeleteReport? && f.pc.ok) || (f.pc.AtDeleteReportPatch? && f.pc.ok) || f.pc.AtDeleteDone?
    || (f.mem.deleting && !f.mem.finalizer)
  }

  /** A recorded node pool id is replaced only after a 404, and given up only when the node pool is gone. */
  predicate TracksNodepool(c: Cloud, held: Option<Pool>, f: NP.PoolFrame) {
    && Known(c, f.mem.poolId)
    && (held.Some? && held.value.poolId != f.mem.poolId ==> held.value.poolId !in c.nodepools)
    && (f.pc.AtCreate? ==> f.mem.poolId !in c.nodepools)
    && (f.pc.AtDeleteWait? && f.mem.poolId in c.nodepools ==> c.nodepools[f.mem.poolId].status.phase == NpDeleting)
    && (SeenGone(f) ==> f.mem.poolId !in c.nodepools)
    && (f.pc.AtDeleteDone? && f.pc.reported ==> held.Some? && held.value.cond == Some(Condition(false, DeletedReason)))
  }

  predicate FrameFits(p: Plane, c: Cloud, held: Option<Pool>, f: NP.PoolFrame) {
    NP.PoolFrameInv(f) && Held(held, f) && UsesReadyCluster(p, c, f) && TracksNodepool(c, held, f)
  }

  /** The persisted pool after a step of its reconcile. */
  function HeldAfter(held: Option<Pool>, f: NP.PoolFrame, s: NP.PoolStep): Option<Pool> {
    if s == NP.Common(NP.Patch(true)) && held.Some? then SavedPool(held.value, f.mem) else held
  }

  function SavedPool(held: Pool, m: Pool): Option<Pool> {
    if held.deleting && !m.finalizer then None else Some(m.(deleting := held.deleting))
  }

  /** A saved pool fits: its id is live only in the recorded cluster. */
  lemma SavedFits(p: Plane, c: Cloud, held: Pool, f: NP.PoolFrame)
    requires CloudInv(c) && FrameFits(p, c, Some(held), f) && PoolFits(p, c, held)
    requires !NP.Early(f.pc)
    ensures SavedPool(held, f.mem).Some? ==> PoolFits(p, c, SavedPool(held, f.mem).value)
    ensures SavedPool(held, f.mem).None? ==> f.mem.poolId !in c.nodepools && held.poolId == f.mem.poolId
  {
  }

  predicate ReadyIdsKnown(p: Plane) {
    p.obj.status.ready ==> p.obj.clusterId in p.hist.readyIds
  }

  lemma CommonKeepsPool(p: Plane, fl: Fleet, c: Cloud, key: Key, held: Option<Pool>, f: NP.PoolFrame, s: NP.PoolCommonStep)
    requires AtRest(p, c) && FrameFits(p, c, held, f) && NP.CommonGuard(f, s)
    requires PoolAllowed(p, fl, c, key, f, NP.Common(s)) && ReadyIdsKnown(p) && (key in fl.pools <==> held.Some?)
    ensures FrameFits(p, c, HeldAfter(held, f, NP.Common(s)), NP.CommonAdvance(f, s))
  {
    NP.PoolFrameInvSteps(f, NP.Common(s));
  }

  lemma CreateKeepsPool(p: Plane, c: Cloud, held: Option<Pool>, f: NP.PoolFrame, made: Made<NodepoolStatus>)
    requires AtRest(p, c) && FrameFits(p, c, held, f) && NP.NodepoolGuard(f, NP.CreateNodepool(made))
    requires FreshIfMade(c, made) && (held.Some? ==> PoolFits(p, c, held.value))
    ensures FrameFits(p, NodepoolCloud(c, f, NP.Nodepool(NP.CreateNodepool(made))), held, NP.NodepoolAdvance(f, NP.CreateNodepool(made)))
  {
    NP.PoolFrameInvSteps(f, NP.Nodepool(NP.CreateNodepool(made)));
  }

  lemma ShowKeepsPool(p: Plane, fl: Fleet, c: Cloud, key: Key, held: Option<Pool>, f: NP.PoolFrame, answer: Shown<NodepoolStatus>)
    requires AtRest(p, c) && FrameFits(p, c, held, f) && NP.NodepoolGuard(f, NP.ShowNodepool(answer))
    requires PoolAllowed(p, fl, c, key, f, NP.Nodepool(NP.ShowNodepool(answer)))
    ensures FrameFits(p, c, held, NP.NodepoolAdvance(f, NP.ShowNodepool(answer)))
  {
    NP.PoolFrameInvSteps(f, NP.Nodepool(NP.ShowNodepool(answer)));
  }

  lemma NodepoolKeepsPool(p: Plane, fl: Fleet, c: Cloud, key: Key, held: Option<Pool>, f: NP.PoolFrame, s: NP.NodepoolStep)
    requires AtRest(p, c) && FrameFits(p, c, held, f) && NP.NodepoolGuard(f, s)
    requires PoolAllowed(p, fl, c, key, f, NP.Nodepool(s)) && (held.Some? ==> PoolFits(p, c, held.value))
    ensures FrameFits(p, NodepoolCloud(c, f, NP.Nodepool(s)), held, NP.NodepoolAdvance(f, s))
  {
    match s
    case CreateNodepool(made) => CreateKeepsPool(p, c, held, f, made);
    case ShowNodepool(answer) => ShowKeepsPool(p, fl, c, key, held, f, answer);
    case _ =>
      NP.PoolFrameInvSteps(f, NP.Nodepool(s));
      assert NodepoolCloud(c, f, NP.Nodepool(s)) == c;
  }

  lemma TeardownKeepsPool(p: Plane, fl: Fleet, c: Cloud, key: Key, held: Option<Pool>, f: NP.PoolFrame, s: NP.PoolTeardownStep)
    requires AtRest(p, c) && FrameFits(p, c, held, f) && NP.TeardownGuard(f, s)
    requires PoolAllowed(p, fl, c, key, f, NP.Teardown(s))
    ensures FrameFits(p, NodepoolCloud(c, f, NP.Teardown(s)), held, NP.TeardownAdvance(f, s))
  {
    NP.PoolFrameInvSteps(f, NP.Teardown(s));
  }

  lemma PoolFitsAges(p: Plane, c: Cloud, p': Plane, c': Cloud, pool: Pool)
    requires CloudInv(c') && Ages(c, c') && PlaneAges(p, p', c') && PoolFits(p, c, pool)
    ensures PoolFits(p', c', pool)
  {
  }

  lemma FrameFitsAges(p: Plane, c: Cloud, p': Plane, c': Cloud, held: Option<Pool>, f: NP.PoolFrame)
    requires CloudInv(c') && p.hist.readyIds <= c.used && Ages(c, c') && PlaneAges(p, p', c') && NO_ID !in c'.used
    requires FrameFits(p, c, held, f) && (held.Some? ==> PoolFits(p, c, held.value))
    ensures FrameFits(p', c', held, f)
  {
  }

  // ---------------------------------------------------------------- all pools

  function HeldIn(fl: Fleet, key: Key): Option<Pool> {
    if key in fl.pools then Some(fl.pools[key]) else None
  }

  /** The node pool id a pool stands for: in memory during a reconcile, else persisted. */
  function TrackedNodepool(fl: Fleet, key: Key): Id {
    if key in fl.inFlight then fl.inFlight[key].mem.poolId
    else if key in fl.pools then fl.pools[key].poolId
    else NO_ID
  }

  predicate KeysKnown(fl: Fleet) {
    && fl.pools.Keys <= fl.hist.keys && fl.inFlight.Keys <= fl.hist.keys && fl.hist.guarded <= fl.hist.keys
    && (forall k :: k in fl.hist.guarded && k in fl.pools ==> fl.pools[k].labelled)
  }

  predicate Members(p: Plane, fl: Fleet, c: Cloud) {
    && KeysKnown(fl)
    && fl.hist.nodepools.Keys <= c.used && fl.hist.recorded.Keys <= c.used
    && (forall k :: k in fl.pools ==> PoolFits(p, c, fl.pools[k]))
    && (forall k :: k in fl.inFlight ==> FrameFits(p, c, HeldIn(fl, k), fl.inFlight[k]))
  }

  /** Every node pool id that was ever persisted is gone from the cloud or still the id of its pool. */
  predicate RecordedInv(fl: Fleet, c: Cloud) {
    forall n :: n in fl.hist.recorded && n in c.nodepools ==>
      fl.hist.recorded[n] in fl.pools && fl.pools[fl.hist.recorded[n]].poolId == n
  }

  /** Every live node pool that was created for a pool is the tracked one or was lost. */
  predicate LeaksInv(fl: Fleet, c: Cloud) {
    forall n :: n in fl.hist.nodepools && n in c.nodepools ==>
      n in fl.hist.lostNodepools || n == TrackedNodepool(fl, fl.hist.nodepools[n])
  }

  predicate FleetInv(p: Plane, fl: Fleet, c: Cloud) {
    Members(p, fl, c) && RecordedInv(fl, c) && LeaksInv(fl, c)
  }

  /** Time passing around the pools keeps their invariants. */
  lemma FleetAges(p: Plane, fl: Fleet, c: Cloud, p': Plane, c': Cloud)
    requires FleetInv(p, fl, c) && p.hist.readyIds <= c.used
    requires CloudInv(c') && Ages(c, c') && PlaneAges(p, p', c')
    ensures FleetInv(p', fl, c')
  {
    forall k | k in fl.pools
      ensures PoolFits(p', c', fl.pools[k])
    {
      PoolFitsAges(p, c, p', c', fl.pools[k]);
    }
    forall k | k in fl.inFlight
      ensures FrameFits(p', c', HeldIn(fl, k), fl.inFlight[k])
    {
      FrameFitsAges(p, c, p', c', HeldIn(fl, k), fl.inFlight[k]);
    }
  }

  /** fl' differs from fl only in the pool `key` and in the history. */
  predicate OnlyAt(fl: Fleet, fl': Fleet, key: Key) {
    && fl'.pools - {key} == fl.pools - {key} && fl'.inFlight - {key} == fl.inFlight - {key}
    && fl'.hist.guarded == fl.hist.guarded && fl'.hist.keys == fl.hist.keys
  }

  predicate FitsAt(p: Plane, fl: Fleet, c: Cloud, key: Key) {
    && (key in fl.pools ==> PoolFits(p, c, fl.pools[key]))
    && (key in fl.inFlight ==> FrameFits(p, c, HeldIn(fl, key), fl.inFlight[key]))
    && (key in fl.hist.guarded && key in fl.pools ==> fl.pools[key].labelled)
  }

  lemma MembersUpdate(p: Plane, fl: Fleet, fl': Fleet, c: Cloud, key: Key)
    requires Members(p, fl, c) && OnlyAt(fl, fl', key) && FitsAt(p, fl', c, key) && key in fl.hist.keys
    requires fl'.hist.nodepools.Keys <= c.used && fl'.hist.recorded.Keys <= c.used
    ensures Members(p, fl', c)
  {
    assert forall k :: k != key ==> (k in fl'.pools <==> k in fl.pools - {key}) && (k in fl.pools <==> k in fl.pools - {key});
    assert forall k :: k != key ==> (k in fl'.inFlight <==> k in fl.inFlight - {key}) && (k in fl.inFlight <==> k in fl.inFlight - {key});
    forall k | k in fl'.pools && k != key
      ensures k in fl.pools && fl'.pools[k] == fl.pools[k]
    {
      assert (fl'.pools - {key})[k] == (fl.pools - {key})[k];
    }
    forall k | k in fl'.inFlight && k != key
      ensures k in fl.inFlight && fl'.inFlight[k] == fl.inFlight[k] && HeldIn(fl', k) == HeldIn(fl, k)
    {
      assert (fl'.inFlight - {key})[k] == (fl.inFlight - {key})[k];
    }
  }
}
