/** Convergence and idempotence of a control-plane reconcile inside the running system. */
module Passes {
  import opened Types
  import opened Endpoints
  import opened Kubeconfigs
  import opened Protocol
  import opened Convergence
  import opened Runs
  import CP = ControlPlaneProgram

  // ---------------------------------------------------------------- the first pass

  /** A reconcile of a control plane that is not being deleted and sets EndpointAccess, all of whose answers
      were the hoped-for ones, ends without error and with every id, Ready and Initialized set; its final
      patch persists all that. Other controllers, users and the cloud may have moved in between. */
  lemma CleanPassConverges(start: World, steps: seq<Step>, w: World)
    requires Reachable(start, steps, w) && w.plane.inFlight.Some?
    requires var f := w.plane.inFlight.value;
             f.clean && f.pc.Closing? && !f.mem.deleting && f.mem.spec.publicAccess.Some?
    ensures w.plane.inFlight.value.pc == CP.Closing(Finished)
    ensures Converged(w.plane.inFlight.value.mem)
    ensures Enabled(w, ByPlane(Close(true))) ==>
              var v := Apply(w, ByPlane(Close(true)));
              Converged(v.plane.obj) && v.plane.inFlight.None? && v.plane.secret.Some?
  {
    SystemHolds(start, steps, w);
    var f := w.plane.inFlight.value;
    assert CleanProgress(f.mem, f.pc);
    if Enabled(w, ByPlane(Close(true))) {
      ConvergedSurvives(f.mem, w.plane.obj.deleting);
    }
  }

  lemma ConvergedSurvives(m: ControlPlane, deleting: bool)
    requires Converged(m)
    ensures Converged(m.(deleting := deleting))
  {
  }

  // ---------------------------------------------------------------- the second pass

  /** A converged control plane at rest whose cluster is Available and reports endpoints that the recorded
      endpoint was already chosen from; it has a public endpoint if it should have one. */
  predicate Settled(w: World, info: ClusterInfo) {
    var p, c := w.plane, w.cloud;
    && p.alive && p.inFlight.None? && Steady(p.obj, info)
    && p.obj.clusterId in c.clusters && c.clusters[p.obj.clusterId] == info
    && (p.obj.spec.publicAccess.value.GetOr(true) ==> p.obj.clusterId in c.eipOf)
    && p.secret.Some? && Usable(p.secret.value, p.obj.name)
  }

  /** The call does not fail. */
  predicate Works(s: CP.CPStep) {
    match s
    case Common(c) => CP.CommonHoped(c)
    case Cluster(ShowCluster(answer)) => !answer.ShowFailed?
    case Access(a) => CP.AccessHoped(a)
    case _ => true
  }

  function Moves(calls: seq<CP.CPStep>): seq<Step> {
    if calls == [] then [] else Moves(calls[..|calls| - 1]) + [ByPlane(Do(calls[|calls| - 1]))]
  }

  /** Nothing of the system has moved but the reconcile in flight and the certificate in the secret. */
  predicate Unmoved(w: World, v: World, info: ClusterInfo) {
    && v.plane.inFlight.Some? && SteadyFrame(v.plane.inFlight.value, w.plane.obj, info)
    && v.plane.alive && v.plane.obj == w.plane.obj
    && v.cloud == w.cloud && v.fleet == w.fleet && v.mirror == w.mirror
    && v.plane.hist.clusterCreates == w.plane.hist.clusterCreates && v.plane.hist.announcements == w.plane.hist.announcements
    && v.plane.secret.Some? && Usable(v.plane.secret.value, w.plane.obj.name)
  }

  lemma AnswersAreSteady(w: World, v: World, info: ClusterInfo, s: CP.CPStep)
    requires Settled(w, info) && Unmoved(w, v, info) && Works(s) && Enabled(v, ByPlane(Do(s)))
    ensures SteadyAnswer(w.plane.obj, info, s)
  {
  }

  lemma StepStaysUnmoved(w: World, v: World, info: ClusterInfo, s: CP.CPStep)
    requires Settled(w, info) && Unmoved(w, v, info) && Works(s) && Enabled(v, ByPlane(Do(s)))
    ensures Unmoved(w, Apply(v, ByPlane(Do(s))), info)
    ensures !CP.IsCreate(s)
  {
    var f := v.plane.inFlight.value;
    AnswersAreSteady(w, v, info, s);
    SteadyStep(f, s, w.plane.obj, info);
    assert w.plane.obj.(deleting := w.plane.obj.deleting) == w.plane.obj;
  }

  lemma {:induction false} CallsStayUnmoved(w: World, begun: World, calls: seq<CP.CPStep>, v: World, info: ClusterInfo)
    requires Settled(w, info) && Unmoved(w, begun, info)
    requires Run(begun, Moves(calls)) == Some(v)
    requires forall s :: s in calls ==> Works(s)
    ensures Unmoved(w, v, info)
    ensures forall s :: s in calls ==> !CP.IsCreate(s)
  {
    if calls != [] {
      var n := |calls| - 1;
      var moves := Moves(calls);
      assert moves[..|moves| - 1] == Moves(calls[..n]);
      var before := Run(begun, Moves(calls[..n])).value;
      CallsStayUnmoved(w, begun, calls[..n], before, info);
      StepStaysUnmoved(w, before, info, calls[n]);
      assert forall s :: s in calls ==> s in calls[..n] || s == calls[n];
    }
  }

  /** A second pass against an unchanged cloud, with no failing call, issues no create, emits no creation
      event and leaves the persisted object, the cloud and the pools as they were. */
  lemma SecondPassChangesNothing(w: World, calls: seq<CP.CPStep>, v: World, info: ClusterInfo)
    requires Settled(w, info)
    requires Run(Apply(w, ByPlane(Open)), Moves(calls)) == Some(v)
    requires forall s :: s in calls ==> Works(s)
    ensures forall s :: s in calls ==> !CP.IsCreate(s)
    ensures v.plane.obj == w.plane.obj && v.cloud == w.cloud && v.fleet == w.fleet
    ensures Enabled(v, ByPlane(Close(true))) ==>
              var end := Apply(v, ByPlane(Close(true)));
              && end.plane.obj == w.plane.obj && end.plane.alive && end.cloud == w.cloud && end.fleet == w.fleet
              && end.plane.hist.announcements == w.plane.hist.announcements
  {
    assert Unmoved(w, Apply(w, ByPlane(Open)), info);
    CallsStayUnmoved(w, Apply(w, ByPlane(Open)), calls, v, info);
    assert w.plane.obj.(deleting := w.plane.obj.deleting) == w.plane.obj;
  }

  // ---------------------------------------------------------------- one after the other

  /** A clean pass settles the control plane, as long as the cluster stays Available with the endpoints that
      the pass chose from. */
  lemma CleanPassSettles(start: World, steps: seq<Step>, w: World, info: ClusterInfo)
    requires Reachable(start, steps, w) && w.plane.inFlight.Some? && Enabled(w, ByPlane(Close(true)))
    requires var f := w.plane.inFlight.value;
             && f.clean && !f.mem.deleting && f.mem.spec.publicAccess.Some? && f.chosen == Some(info.endpoints)
             && f.mem.clusterId in w.cloud.clusters && w.cloud.clusters[f.mem.clusterId] == info
    requires !w.plane.obj.deleting && info.status.phase == Available && info.endpoints.Some?
    ensures Settled(Apply(w, ByPlane(Close(true))), info)
  {
    CleanPassConverges(start, steps, w);
    SystemHolds(start, steps, w);
    ChooseAgain(info.endpoints, w.plane.obj.spec.endpoint);
  }

  /** Convergence and idempotence together: after a clean pass, a further pass without failing calls, against
      an unchanged cloud, issues no create and leaves the persisted object and the cloud as they are. */
  lemma PassAfterCleanPass(start: World, steps: seq<Step>, w: World, info: ClusterInfo, calls: seq<CP.CPStep>, v: World)
    requires Reachable(start, steps, w) && w.plane.inFlight.Some? && Enabled(w, ByPlane(Close(true)))
    requires var f := w.plane.inFlight.value;
             && f.clean && !f.mem.deleting && f.mem.spec.publicAccess.Some? && f.chosen == Some(info.endpoints)
             && f.mem.clusterId in w.cloud.clusters && w.cloud.clusters[f.mem.clusterId] == info
    requires !w.plane.obj.deleting && info.status.phase == Available && info.endpoints.Some?
    requires Run(Apply(Apply(w, ByPlane(Close(true))), ByPlane(Open)), Moves(calls)) == Some(v)
    requires forall s :: s in calls ==> Works(s)
    ensures forall s :: s in calls ==> !CP.IsCreate(s)
    ensures v.plane.obj == w.plane.inFlight.value.mem && Converged(v.plane.obj) && v.cloud == w.cloud
  {
    var rest := Apply(w, ByPlane(Close(true)));
    CleanPassSettles(start, steps, w, info);
    SecondPassChangesNothing(rest, calls, v, info);
    assert w.plane.inFlight.value.mem.(deleting := w.plane.obj.deleting) == w.plane.inFlight.value.mem;
  }
}
