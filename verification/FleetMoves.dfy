/** Every step of the system keeps the invariants of the pools. */
module FleetMoves {
  import opened Types
  import opened Protocol
  import opened Invariants
  import opened Fleets
  import NP = PoolProgram

  /** The step of a reconcile keeps what concerns its own pool. */
  lemma DoFitsAt(p: Plane, fl: Fleet, c: Cloud, key: Key, s: NP.PoolStep)
    requires AtRest(p, c) && ReadyIdsKnown(p) && Members(p, fl, c) && PoolEnabled(p, fl, c, key, DoPool(s))
    ensures var f := fl.inFlight[key];
            FrameFits(p, NodepoolCloud(c, f, s), HeldAfter(HeldIn(fl, key), f, s), NP.PoolNext(f, s))
  {
    var f, held := fl.inFlight[key], HeldIn(fl, key);
    match s
    case Common(s') => CommonKeepsPool(p, fl, c, key, held, f, s');
    case Nodepool(s') => NodepoolKeepsPool(p, fl, c, key, held, f, s');
    case Teardown(s') => TeardownKeepsPool(p, fl, c, key, held, f, s');
  }

  /** The pools after one of them was saved and its reconcile went on with frame `next` or ended. */
  function AfterSave(fl: Fleet, key: Key, next: Option<NP.PoolFrame>): Fleet
    requires key in fl.inFlight && key in fl.pools
  {
    SavePool(fl, key, fl.inFlight[key].mem).(
      inFlight := if next.Some? then fl.inFlight[key := next.value] else fl.inFlight - {key})
  }

  lemma SaveKeepsMembers(p: Plane, fl: Fleet, c: Cloud, key: Key, next: Option<NP.PoolFrame>)
    requires CloudInv(c) && Members(p, fl, c) && key in fl.inFlight && key in fl.pools && !NP.Early(fl.inFlight[key].pc)
    requires next.Some? ==> FrameFits(p, c, SavedPool(fl.pools[key], fl.inFlight[key].mem), next.value)
    ensures Members(p, AfterSave(fl, key, next), c)
  {
    SavedFits(p, c, fl.pools[key], fl.inFlight[key]);
    assert HeldIn(AfterSave(fl, key, next), key) == SavedPool(fl.pools[key], fl.inFlight[key].mem);
    MembersUpdate(p, fl, AfterSave(fl, key, next), c, key);
  }

  /** A recorded id is overwritten, and a pool is given up, only when the node pool is gone. */
  lemma SaveKeepsRecorded(p: Plane, fl: Fleet, c: Cloud, key: Key, next: Option<NP.PoolFrame>)
    requires CloudInv(c) && Members(p, fl, c) && key in fl.inFlight && key in fl.pools && !NP.Early(fl.inFlight[key].pc)
    requires RecordedInv(fl, c)
    ensures RecordedInv(AfterSave(fl, key, next), c)
  {
    SavedFits(p, c, fl.pools[key], fl.inFlight[key]);
  }

  lemma SaveKeepsLeaks(p: Plane, fl: Fleet, c: Cloud, key: Key, next: Option<NP.PoolFrame>)
    requires CloudInv(c) && Members(p, fl, c) && key in fl.inFlight && key in fl.pools && !NP.Early(fl.inFlight[key].pc)
    requires next.Some? ==> next.value.mem.poolId == fl.inFlight[key].mem.poolId
    requires LeaksInv(fl, c)
    ensures LeaksInv(AfterSave(fl, key, next), c)
  {
    SavedFits(p, c, fl.pools[key], fl.inFlight[key]);
  }

  lemma SaveKeeps(p: Plane, fl: Fleet, c: Cloud, key: Key, next: Option<NP.PoolFrame>)
    requires CloudInv(c) && FleetInv(p, fl, c) && key in fl.inFlight && key in fl.pools && !NP.Early(fl.inFlight[key].pc)
    requires next.Some? ==>
               && FrameFits(p, c, SavedPool(fl.pools[key], fl.inFlight[key].mem), next.value)
               && next.value.mem.poolId == fl.inFlight[key].mem.poolId
    ensures FleetInv(p, AfterSave(fl, key, next), c)
  {
    SaveKeepsMembers(p, fl, c, key, next);
    SaveKeepsRecorded(p, fl, c, key, next);
    SaveKeepsLeaks(p, fl, c, key, next);
  }

  lemma LoseKeeps(p: Plane, fl: Fleet, c: Cloud, key: Key)
    requires CloudInv(c) && FleetInv(p, fl, c) && key in fl.inFlight
    ensures FleetInv(p, LosePool(fl, key), c)
  {
    MembersUpdate(p, fl, LosePool(fl, key), c, key);
  }

  lemma OpenKeeps(p: Plane, fl: Fleet, c: Cloud, key: Key)
    requires CloudInv(c) && FleetInv(p, fl, c) && PoolEnabled(p, fl, c, key, OpenPool)
    ensures FleetInv(p, FleetAfter(p, fl, c, key, OpenPool), c)
  {
    MembersUpdate(p, fl, FleetAfter(p, fl, c, key, OpenPool), c, key);
  }

  lemma LeaveKeeps(p: Plane, fl: Fleet, c: Cloud, key: Key)
    requires CloudInv(c) && FleetInv(p, fl, c) && PoolEnabled(p, fl, c, key, LeavePool)
    ensures FleetInv(p, fl.(inFlight := fl.inFlight - {key}), c)
  {
    MembersUpdate(p, fl, fl.(inFlight := fl.inFlight - {key}), c, key);
  }

  /** A step that saves nothing. */
  lemma CallKeeps(p: Plane, fl: Fleet, c: Cloud, key: Key, s: NP.PoolStep)
    requires AtRest(p, c) && ReadyIdsKnown(p) && FleetInv(p, fl, c) && PoolEnabled(p, fl, c, key, DoPool(s))
    requires s != NP.Common(NP.Patch(true))
    ensures FleetInv(p, FleetAfter(p, fl, c, key, DoPool(s)), PoolCloud(fl, c, key, DoPool(s)))
  {
    var f := fl.inFlight[key];
    var c', next := NodepoolCloud(c, f, s), NP.PoolNext(f, s);
    var fl' := FleetAfter(p, fl, c, key, DoPool(s));
    DoFitsAt(p, fl, c, key, s);
    NodepoolMoves(p, fl, c, key, f, s);
    NodepoolAges(c, f, s);
    FleetAges(p, fl, c, p, c');
    assert fl' == fl.(inFlight := fl.inFlight[key := next], hist := PoolHistory(fl.hist, key, s));
    HistoryGrows(p, fl, c, key, f, s);
    MembersUpdate(p, fl, fl', c', key);
    CallKeepsLeaks(p, fl, c, key, s);
  }

  lemma HistoryGrows(p: Plane, fl: Fleet, c: Cloud, key: Key, f: NP.PoolFrame, s: NP.PoolStep)
    requires PoolAllowed(p, fl, c, key, f, s)
    ensures var h, h' := fl.hist, PoolHistory(fl.hist, key, s);
            && h'.keys == h.keys && h'.guarded == h.guarded && h'.counted == h.counted && h'.recorded == h.recorded
            && h.lostNodepools <= h'.lostNodepools
            && h'.nodepools.Keys <= h.nodepools.Keys + (NodepoolCloud(c, f, s).used - c.used)
  {
  }

  /** A node pool is created only when the recorded id is empty or its node pool is gone. */
  lemma CallKeepsLeaks(p: Plane, fl: Fleet, c: Cloud, key: Key, s: NP.PoolStep)
    requires CloudInv(c) && FleetInv(p, fl, c) && PoolEnabled(p, fl, c, key, DoPool(s))
    requires s != NP.Common(NP.Patch(true))
    ensures var f := fl.inFlight[key];
            LeaksInv(fl.(inFlight := fl.inFlight[key := NP.PoolNext(f, s)], hist := PoolHistory(fl.hist, key, s)),
                     NodepoolCloud(c, f, s))
  {
    var f := fl.inFlight[key];
    NodepoolAges(c, f, s);
    if !(s.Nodepool? && s.nodepool.CreateNodepool?) {
      PoolIdKept(f, s);
    }
  }

  lemma PoolIdKept(f: NP.PoolFrame, s: NP.PoolStep)
    requires NP.PoolGuard(f, s) && !(s.Nodepool? && s.nodepool.CreateNodepool?)
    ensures NP.PoolNext(f, s).mem.poolId == f.mem.poolId
  {
  }

  lemma DoKeeps(p: Plane, fl: Fleet, c: Cloud, key: Key, s: NP.PoolStep)
    requires AtRest(p, c) && ReadyIdsKnown(p) && FleetInv(p, fl, c) && PoolEnabled(p, fl, c, key, DoPool(s))
    ensures FleetInv(p, FleetAfter(p, fl, c, key, DoPool(s)), PoolCloud(fl, c, key, DoPool(s)))
  {
    if s == NP.Common(NP.Patch(true)) {
      var f := fl.inFlight[key];
      DoFitsAt(p, fl, c, key, s);
      PoolIdKept(f, s);
      SaveKeeps(p, fl, c, key, Some(NP.PoolNext(f, s)));
    } else {
      CallKeeps(p, fl, c, key, s);
    }
  }

  lemma FleetKeptByPool(p: Plane, fl: Fleet, c: Cloud, key: Key, move: PoolMove)
    requires AtRest(p, c) && ReadyIdsKnown(p) && FleetInv(p, fl, c) && PoolEnabled(p, fl, c, key, move)
    ensures FleetInv(p, FleetAfter(p, fl, c, key, move), PoolCloud(fl, c, key, move))
  {
    match move
    case OpenPool => OpenKeeps(p, fl, c, key);
    case LeavePool => LeaveKeeps(p, fl, c, key);
    case DoPool(s) => DoKeeps(p, fl, c, key, s);
    case ClosePool(saved) =>
      if saved {
        SaveKeeps(p, fl, c, key, None);
      } else {
        LoseKeeps(p, fl, c, key);
      }
    case CrashPool => LoseKeeps(p, fl, c, key);
  }

  lemma NewPoolFits(p: Plane, fl: Fleet, c: Cloud, key: Key, labelled: bool)
    requires CloudInv(c) && FleetInv(p, fl, c) && UserEnabled(p, fl, CreatesPool(key, labelled))
    ensures FleetInv(p, FleetAfterUser(p, fl, CreatesPool(key, labelled)), c)
  {
  }

  lemma FleetKeptByUser(p: Plane, fl: Fleet, c: Cloud, s: UserStep)
    requires CloudInv(c) && FleetInv(p, fl, c) && UserEnabled(p, fl, s)
    ensures FleetInv(p, FleetAfterUser(p, fl, s), c)
  {
    match s
    case DeletesControlPlane =>
    case CreatesPool(key, labelled) => NewPoolFits(p, fl, c, key, labelled);
    case DeletesPool(key) => MembersUpdate(p, fl, FleetAfterUser(p, fl, s), c, key);
  }

  lemma CountKeepsFleet(p: Plane, fl: Fleet, c: Cloud, move: PlaneMove)
    requires FleetInv(p, fl, c)
    ensures FleetInv(p, FleetAfterPlane(fl, move), c)
  {
    assert forall k :: HeldIn(FleetAfterPlane(fl, move), k) == HeldIn(fl, k);
  }

  lemma FleetKept(w: World, s: Step)
    requires Base(w.plane, w.cloud) && FrameOk(w.plane) && ReadyIdsKnown(w.plane) && Enabled(w, s)
    requires FleetInv(w.plane, w.fleet, w.cloud)
    ensures FleetInv(Apply(w, s).plane, Apply(w, s).fleet, Apply(w, s).cloud)
  {
    var w' := Apply(w, s);
    BaseKept(w, s);
    Aging(w, s);
    match s
    case User(u) =>
      FleetKeptByUser(w.plane, w.fleet, w.cloud, u);
      FleetAges(w.plane, w'.fleet, w.cloud, w'.plane, w'.cloud);
    case ByPool(key, move) => FleetKeptByPool(w.plane, w.fleet, w.cloud, key, move);
    case ByPlane(move) =>
      FleetAges(w.plane, w.fleet, w.cloud, w'.plane, w'.cloud);
      CountKeepsFleet(w'.plane, w.fleet, w'.cloud, move);
    case _ => FleetAges(w.plane, w.fleet, w.cloud, w'.plane, w'.cloud);
  }
}
