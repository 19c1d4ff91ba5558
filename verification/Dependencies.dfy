/** The ordering of the teardown: once its dependencies were counted and none was found, a deletion has no
    labelled pool left that existed at the count. */
module Dependencies {
  import opened Types
  import opened Protocol
  import opened Invariants
  import opened Fleets
  import CP = ControlPlaneProgram
  import Frames = ControlPlaneFrames

  /** The deletion has counted its dependencies and found none. */
  predicate PastCount(m: ControlPlane, pc: CP.Pc) {
    || pc.AtDeleteInit? || pc.AtDeleteShow? || pc.AtDeleteCall? || pc.AtDeleteWait? || pc.AtDeleteDone?
    || (m.deleting && !m.finalizer)
  }

  /** A pool object that was created before the count and is still there has no cluster-name label. */
  predicate CountedPoolsAreGone(fl: Fleet) {
    forall k :: k in fl.hist.counted && k in fl.pools ==> !fl.pools[k].labelled
  }

  predicate DependenciesInv(p: Plane, fl: Fleet) {
    && fl.hist.counted <= fl.hist.keys
    && (p.inFlight.Some? && PastCount(p.inFlight.value.mem, p.inFlight.value.pc) ==>
          CountedPoolsAreGone(fl) && fl.hist.guarded <= fl.hist.counted)
  }

  lemma NoneLabelled(fl: Fleet)
    requires KeysKnown(fl) && |Labelled(fl)| == 0
    ensures forall k :: k in fl.pools ==> !fl.pools[k].labelled
  {
    assert Labelled(fl) == {};
    forall k | k in fl.pools
      ensures !fl.pools[k].labelled
    {
      assert k !in Labelled(fl);
    }
  }

  /** Only the dependency count leads past itself. */
  lemma OnlyTheCountPasses(f: CP.CPFrame, s: CP.CPStep)
    requires CP.CPGuard(f, s) && Frames.ModeInv(f.mem, f.pc) && PastCount(CP.Advance(f, s).0, CP.Advance(f, s).1)
    ensures PastCount(f.mem, f.pc) || s == CP.Teardown(CP.ListPools(Some(0)))
    ensures PastCount(f.mem, f.pc) ==> !FindsCount(Do(s))
  {
    match s
    case Common(_) =>
    case Network(_) =>
    case Cluster(_) =>
    case Access(_) =>
    case Teardown(_) =>
  }

  lemma PoolMovesAddNone(p: Plane, fl: Fleet, c: Cloud, key: Key, move: PoolMove)
    requires PoolEnabled(p, fl, c, key, move)
    requires forall k :: k in fl.inFlight && k in fl.pools ==> fl.inFlight[k].mem.labelled == fl.pools[k].labelled
    ensures var fl' := FleetAfter(p, fl, c, key, move);
            && fl'.hist.guarded == fl.hist.guarded && fl'.hist.counted == fl.hist.counted && fl'.hist.keys == fl.hist.keys
            && (forall k :: k in fl'.pools ==> k in fl.pools && fl'.pools[k].labelled == fl.pools[k].labelled)
  {
  }

  lemma LabelsAgree(p: Plane, fl: Fleet, c: Cloud)
    requires Members(p, fl, c)
    ensures forall k :: k in fl.inFlight && k in fl.pools ==> fl.inFlight[k].mem.labelled == fl.pools[k].labelled
  {
    forall k | k in fl.inFlight && k in fl.pools
      ensures fl.inFlight[k].mem.labelled == fl.pools[k].labelled
    {
      assert FrameFits(p, c, HeldIn(fl, k), fl.inFlight[k]);
    }
  }

  lemma DependenciesKept(w: World, s: Step)
    requires Base(w.plane, w.cloud) && FrameOk(w.plane) && FleetInv(w.plane, w.fleet, w.cloud) && Enabled(w, s)
    requires DependenciesInv(w.plane, w.fleet)
    ensures DependenciesInv(Apply(w, s).plane, Apply(w, s).fleet)
  {
    var p, fl, c := w.plane, w.fleet, w.cloud;
    match s
    case User(u) =>
    case ByCloud(_) =>
    case ByPlane(Do(cps)) =>
      var f := p.inFlight.value;
      if PastCount(CP.Advance(f, cps).0, CP.Advance(f, cps).1) {
        OnlyTheCountPasses(f, cps);
        if !PastCount(f.mem, f.pc) {
          NoneLabelled(fl);
        }
      }
    case ByPlane(_) =>
    case ByPool(key, move) =>
      LabelsAgree(p, fl, c);
      PoolMovesAddNone(p, fl, c, key, move);
    case ByCopy(_) =>
  }
}
