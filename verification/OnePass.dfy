/** One pass of the control-plane reconciler from an earlier moment of it on: what it leaves of the endpoint, of
    Initialized and of the kubeconfig secret, compared with what it found when it opened; and what its dependency
    count means for the deletion that follows. */
module OnePass {
  import opened Types
  import opened Endpoints
  import opened Protocol
  import opened EndpointChoice
  import opened Runs
  import Theorems
  import CP = ControlPlaneProgram

  /** The control plane's reconcile in flight goes on; everybody else moves as they like. */
  predicate GoesOn(s: Step) {
    s.ByPlane? ==> s.plane.Do?
  }

  /** w is reached within one pass that opened in w0. */
  predicate Within(start: World, before: seq<Step>, w0: World, during: seq<Step>, w: World) {
    && Reachable(start, before, w0) && Enabled(w0, ByPlane(Open))
    && Run(Apply(w0, ByPlane(Open)), during) == Some(w)
    && forall s :: s in during ==> GoesOn(s)
  }

  /** The persisted endpoint and Initialized, and the secret as long as the endpoint loops have not run, are
      those of the opening. */
  predicate AsOpened(w0: World, w: World) {
    && w.plane.inFlight.Some?
    && w.plane.obj.spec.endpoint == w0.plane.obj.spec.endpoint
    && w.plane.obj.status.initialized == w0.plane.obj.status.initialized
    && (w.plane.inFlight.value.chosen.None? ==> w.plane.secret == w0.plane.secret)
  }

  /** Nothing is patched after the endpoint loops until the final Close, and the secret is written only then. */
  lemma DoStaysAsOpened(w0: World, w: World, s: CP.CPStep)
    requires AsOpened(w0, w) && EndpointInv(w.plane, w.cloud) && Enabled(w, ByPlane(Do(s)))
    ensures AsOpened(w0, Apply(w, ByPlane(Do(s))))
  {
    match s
    case Common(_) =>
    case Network(_) =>
    case Cluster(_) =>
    case Access(_) =>
    case Teardown(_) =>
  }

  lemma StepStaysAsOpened(w0: World, w: World, s: Step)
    requires AsOpened(w0, w) && EndpointInv(w.plane, w.cloud) && Enabled(w, s) && GoesOn(s)
    ensures AsOpened(w0, Apply(w, s))
  {
    match s
    case ByPlane(Do(cps)) => DoStaysAsOpened(w0, w, cps);
    case _ =>
  }

  lemma {:induction false} PassStaysAsOpened(start: World, before: seq<Step>, w0: World, during: seq<Step>, w: World)
    requires Within(start, before, w0, during, w)
    ensures AsOpened(w0, w) && EndpointInv(w.plane, w.cloud)
    decreases |during|
  {
    var users := start.plane.obj.spec.subnetId;
    var begun := Apply(w0, ByPlane(Open));
    SystemHolds(start, before, w0);
    SystemKept(w0, ByPlane(Open), users);
    SystemRuns(begun, during, w, users);
    if during != [] {
      var n := |during| - 1;
      var v := Run(begun, during[..n]).value;
      PassStaysAsOpened(start, before, w0, during[..n], v);
      StepStaysAsOpened(w0, v, during[n]);
    }
  }

  /** A pass that has not run its endpoint loops has touched neither endpoint nor Initialized, in memory and
      persisted, nor the kubeconfig secret. A live control plane's pass that ends without error and not ready
      is one of those. */
  lemma UnreadyPassTouchesNothing(start: World, before: seq<Step>, w0: World, during: seq<Step>, w: World)
    requires Within(start, before, w0, during, w)
    ensures w.plane.inFlight.Some?
    ensures var f := w.plane.inFlight.value;
            && (f.pc == CP.Closing(Finished) && !f.mem.deleting && !f.mem.status.ready ==> f.chosen.None?)
            && (f.chosen.None? ==>
                  && f.mem.spec.endpoint == w0.plane.obj.spec.endpoint
                  && f.mem.status.initialized == w0.plane.obj.status.initialized
                  && w.plane.obj.spec.endpoint == w0.plane.obj.spec.endpoint
                  && w.plane.obj.status.initialized == w0.plane.obj.status.initialized
                  && w.plane.secret == w0.plane.secret)
  {
    PassStaysAsOpened(start, before, w0, during, w);
  }

  /** A pass of a live control plane that ends without error and ready has run the endpoint loops on some list,
      and leaves the last External entry, else the last Internal one, else the endpoint it found; without a
      list it leaves the endpoint it found. */
  lemma ReadyPassChoosesEndpoint(start: World, before: seq<Step>, w0: World, during: seq<Step>, w: World)
    requires Within(start, before, w0, during, w)
    requires w.plane.inFlight.Some? && w.plane.inFlight.value.pc == CP.Closing(Finished)
    requires !w.plane.inFlight.value.mem.deleting && w.plane.inFlight.value.mem.status.ready
    ensures var f := w.plane.inFlight.value;
            && f.chosen.Some?
            && match f.chosen.value
               case None => f.mem.spec.endpoint == w0.plane.obj.spec.endpoint
               case Some(entries) =>
                 if !Absent(External, entries) then IsLast(External, entries, f.mem.spec.endpoint)
                 else if !Absent(Internal, entries) then IsLast(Internal, entries, f.mem.spec.endpoint)
                 else f.mem.spec.endpoint == w0.plane.obj.spec.endpoint
  {
    PassStaysAsOpened(start, before, w0, during, w);
    var f := w.plane.inFlight.value;
    if f.chosen.Some? && f.chosen.value.Some? {
      ChooseMeaning(f.chosen.value.value, w0.plane.obj.spec.endpoint);
    }
  }

  // ---------------------------------------------------------------- the teardown

  lemma NoWayBackToTheCount(f: CP.CPFrame, s: CP.CPStep)
    requires CP.CPGuard(f, s) && !f.pc.AtDeleteList?
    ensures !CP.Advance(f, s).1.AtDeleteList? && !FindsCount(Do(s))
  {
    match s
    case Common(_) =>
    case Network(_) =>
    case Cluster(_) =>
    case Access(_) =>
    case Teardown(_) =>
  }

  predicate PastTheList(w: World, counted: set<Key>) {
    w.plane.inFlight.Some? && !w.plane.inFlight.value.pc.AtDeleteList? && w.fleet.hist.counted == counted
  }

  lemma PoolMovesDoNotCount(p: Plane, fl: Fleet, c: Cloud, key: Key, move: PoolMove)
    requires PoolEnabled(p, fl, c, key, move)
    ensures FleetAfter(p, fl, c, key, move).hist.counted == fl.hist.counted
  {
  }

  /** After the count, the reconcile that made it counts no more, and the record of the count stays. */
  lemma CountStays(w: World, s: Step, counted: set<Key>)
    requires Enabled(w, s) && GoesOn(s) && PastTheList(w, counted)
    ensures PastTheList(Apply(w, s), counted)
  {
    match s
    case ByPlane(Do(cps)) => NoWayBackToTheCount(w.plane.inFlight.value, cps);
    case ByPool(key, move) => PoolMovesDoNotCount(w.plane, w.fleet, w.cloud, key, move);
    case _ =>
  }

  lemma {:induction false} CountStaysInPass(begun: World, during: seq<Step>, w: World, counted: set<Key>)
    requires PastTheList(begun, counted) && Run(begun, during) == Some(w) && (forall s :: s in during ==> GoesOn(s))
    ensures PastTheList(w, counted)
    decreases |during|
  {
    if during != [] {
      var n := |during| - 1;
      var v := Run(begun, during[..n]).value;
      CountStaysInPass(begun, during[..n], v, counted);
      CountStays(v, during[n], counted);
    }
  }

  lemma {:induction false} RunsJoin(start: World, before: seq<Step>, v: World, during: seq<Step>, w: World)
    requires Run(start, before) == Some(v) && Run(v, during) == Some(w)
    ensures Run(start, before + during) == Some(w)
    decreases |during|
  {
    if during == [] {
      assert before + during == before;
    } else {
      var n := |during| - 1;
      RunsJoin(start, before, v, during[..n], Run(v, during[..n]).value);
      assert (before + during)[..|before| + n] == before + during[..n];
    }
  }

  /** The order of the teardown, seen from the count: when a reconcile has counted its dependencies in w0 and
      goes on to issue DeleteCluster in w, every labelled pool that existed at the count is gone, and so is
      every node pool that such a pool ever persisted. */
  lemma TeardownAfterCount(start: World, before: seq<Step>, w0: World, count: nat, during: seq<Step>, w: World, removal: Removal)
    requires Reachable(start, before, w0) && Enabled(w0, ByPlane(Do(CP.Teardown(CP.ListPools(Some(count))))))
    requires Run(Apply(w0, ByPlane(Do(CP.Teardown(CP.ListPools(Some(count)))))), during) == Some(w)
    requires forall s :: s in during ==> GoesOn(s)
    requires Enabled(w, ByPlane(Do(CP.Teardown(CP.DeleteCluster(removal)))))
    ensures forall k :: k in w0.fleet.pools && k in w.fleet.pools ==> !w.fleet.pools[k].labelled
    ensures forall n :: n in w.fleet.hist.recorded && n in w.cloud.nodepools && w.fleet.hist.recorded[n] in w0.fleet.hist.keys ==>
              w.fleet.hist.recorded[n] in w.fleet.pools && !w.fleet.pools[w.fleet.hist.recorded[n]].labelled
  {
    var counting := ByPlane(Do(CP.Teardown(CP.ListPools(Some(count)))));
    var begun := Apply(w0, counting);
    SystemHolds(start, before, w0);
    CountStaysInPass(begun, during, w, w0.fleet.hist.keys);
    assert (before + [counting])[..|before|] == before;
    RunsJoin(start, before + [counting], begun, during, w);
    Theorems.TeardownOrder(start, before + [counting] + during, w, removal);
  }
}
