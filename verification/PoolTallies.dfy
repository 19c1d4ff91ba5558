/** The node pools that a pool can leave behind, in terms of the run. */
module PoolTallies {
  import opened Types
  import opened Protocol
  import opened Runs
  import opened Theorems
  import opened Tallies
  import FleetMoves
  import NP = PoolProgram

  /** A reconcile of the pool crashes or its last patch fails, and it had created a node pool whose id no
      successful patch carried; or the reply to a create for the pool was lost. */
  predicate LosesNodepool(key: Key, w: World, s: Step) {
    || ((s == ByPool(key, CrashPool) || s == ByPool(key, ClosePool(false)))
        && key in w.fleet.inFlight && PoolUnsaved(w.fleet, key, w.fleet.inFlight[key].mem))
    || (match s
        case ByPool(k, DoPool(Nodepool(CreateNodepool(made)))) => k == key && made.LostReply?
        case _ => false)
  }

  /** A node pool id belongs to the pool it was created for. */
  predicate OwnsId(h: FleetHistory, key: Key, id: Id) {
    id != NO_ID ==> id in h.nodepools && h.nodepools[id] == key
  }

  predicate OwnIds(fl: Fleet) {
    && fl.hist.lostNodepools <= fl.hist.nodepools.Keys
    && (forall k :: k in fl.pools ==> OwnsId(fl.hist, k, fl.pools[k].poolId))
    && (forall k :: k in fl.inFlight ==> OwnsId(fl.hist, k, fl.inFlight[k].mem.poolId))
  }

  lemma HistoryOwns(h: FleetHistory, c: Cloud, key: Key, s: NP.PoolStep)
    requires h.nodepools.Keys <= c.used
    requires s.Nodepool? && s.nodepool.CreateNodepool? ==> FreshIfMade(c, s.nodepool.made)
    ensures forall k, id :: OwnsId(h, k, id) ==> OwnsId(PoolHistory(h, key, s), k, id)
  {
  }

  lemma CreateOwns(fl: Fleet, c: Cloud, key: Key, f: NP.PoolFrame, s: NP.PoolStep)
    requires NP.PoolGuard(f, s) && OwnsId(fl.hist, key, f.mem.poolId) && fl.hist.nodepools.Keys <= c.used
    requires s.Nodepool? && s.nodepool.CreateNodepool? ==> FreshIfMade(c, s.nodepool.made)
    ensures OwnsId(PoolHistory(fl.hist, key, s), key, NP.PoolNext(f, s).mem.poolId)
    ensures forall k, id :: OwnsId(fl.hist, k, id) ==> OwnsId(PoolHistory(fl.hist, key, s), k, id)
  {
    HistoryOwns(fl.hist, c, key, s);
    if !(s.Nodepool? && s.nodepool.CreateNodepool?) {
      FleetMoves.PoolIdKept(f, s);
    }
  }

  lemma OwnIdsKeptByPool(p: Plane, fl: Fleet, c: Cloud, key: Key, move: PoolMove)
    requires OwnIds(fl) && fl.hist.nodepools.Keys <= c.used && PoolEnabled(p, fl, c, key, move)
    ensures OwnIds(FleetAfter(p, fl, c, key, move))
  {
    if move.DoPool? {
      CreateOwns(fl, c, key, fl.inFlight[key], move.ps);
    }
  }

  lemma OwnIdsKept(w: World, s: Step)
    requires OwnIds(w.fleet) && w.fleet.hist.nodepools.Keys <= w.cloud.used && Enabled(w, s)
    ensures OwnIds(Apply(w, s).fleet)
  {
    match s
    case ByPool(key, move) => OwnIdsKeptByPool(w.plane, w.fleet, w.cloud, key, move);
    case _ =>
  }

  /** A step costs a pool at most one node pool, and only if it is of that kind. */
  lemma PoolStepLoses(w: World, k: Key, move: PoolMove, key: Key)
    requires OwnIds(w.fleet) && w.fleet.hist.nodepools.Keys <= w.cloud.used && Enabled(w, ByPool(k, move))
    ensures |LostNodepools(Apply(w, ByPool(k, move)).fleet.hist, key)| <=
            |LostNodepools(w.fleet.hist, key)| + if LosesNodepool(key, w, ByPool(k, move)) then 1 else 0
  {
    var fl, h, h' := w.fleet, w.fleet.hist, Apply(w, ByPool(k, move)).fleet.hist;
    if LosesNodepool(key, w, ByPool(k, move)) {
      var id := if move.DoPool? then move.ps.nodepool.made.lost else fl.inFlight[k].mem.poolId;
      assert LostNodepools(h', key) <= LostNodepools(h, key) + {id};
      AtMostOneMore(LostNodepools(h', key), LostNodepools(h, key), id);
    } else {
      assert LostNodepools(h', key) <= LostNodepools(h, key);
      SubsetIsSmaller(LostNodepools(h', key), LostNodepools(h, key));
    }
  }

  lemma StepLoses(w: World, s: Step, key: Key)
    requires OwnIds(w.fleet) && w.fleet.hist.nodepools.Keys <= w.cloud.used && Enabled(w, s)
    ensures |LostNodepools(Apply(w, s).fleet.hist, key)| <=
            |LostNodepools(w.fleet.hist, key)| + if LosesNodepool(key, w, s) then 1 else 0
  {
    match s
    case ByPool(k, move) => PoolStepLoses(w, k, move, key);
    case _ => assert LostNodepools(Apply(w, s).fleet.hist, key) == LostNodepools(w.fleet.hist, key);
  }

  lemma {:induction false} LossesAreCovered(start: World, steps: seq<Step>, w: World, key: Key)
    requires Reachable(start, steps, w)
    ensures OwnIds(w.fleet)
    ensures |LostNodepools(w.fleet.hist, key)| <= Count(start, steps, (v, s) => LosesNodepool(key, v, s))
    decreases |steps|
  {
    if steps == [] {
      assert LostNodepools(w.fleet.hist, key) == {};
    } else {
      var n := |steps| - 1;
      var before := Run(start, steps[..n]).value;
      LossesAreCovered(start, steps[..n], before, key);
      SystemHolds(start, steps[..n], before);
      OwnIdsKept(before, steps[n]);
      StepLoses(before, steps[n], key);
    }
  }

  /** Leakage of one pool: every live node pool created for it but one costs a reconcile of that pool that
      created a node pool and ended without a successful patch afterwards, or a lost reply to such a create. */
  lemma NodepoolLeaksAreCovered(start: World, steps: seq<Step>, w: World, key: Key)
    requires Reachable(start, steps, w)
    ensures |LiveNodepools(w, key)| <= 1 + Count(start, steps, (v, s) => LosesNodepool(key, v, s))
  {
    LiveNodepoolsAreBounded(start, steps, w, key);
    LossesAreCovered(start, steps, w, key);
  }
}
