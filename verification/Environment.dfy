/** The API server and the cloud as the code of one controller meets them. Every call first lets the other
    controllers, the users and the cloud move, and then gives any answer that is possible at that moment. The
    whole history is a run of the state machine in Protocol, so what holds in every run holds here; a crash
    of the controller is its Crash step, possible between any two calls. */
module Environment {
  import opened Types
  import opened Kubeconfigs
  import opened StatusRules
  import opened Protocol
  import Records
  import Runs
  import Fleets
  import CP = ControlPlaneProgram
  import NP = PoolProgram
  import Frames = ControlPlaneFrames

  /** What a pool's reconciler reads of the control plane. */
  datatype PlaneRead = Unreadable | NotReady | ReadyAs(cluster: Id)

  /** What a reconciler finds out about the owner of its object before it goes on. */
  datatype Gate = Owned | NotYetOwned | Paused | OwnerLookupFailed

  /** A reconcile that has read a deletion timestamp works on an object that still has it. */
  lemma DeletedIsPersisted(start: World, trace: seq<Step>, w: World)
    requires Reached(start, trace, w) && w.plane.inFlight.Some?
    ensures w.plane.inFlight.value.mem.deleting ==> w.plane.obj.deleting
  {
    ReachedIsReachable(start, trace, w);
    Runs.SystemHolds(start, trace, w);
  }

  lemma ReadyHasCluster(start: World, trace: seq<Step>, w: World)
    requires Reached(start, trace, w) && w.plane.obj.status.ready
    ensures w.plane.obj.clusterId != NO_ID && w.plane.obj.clusterId in w.plane.hist.readyIds
  {
    ReachedIsReachable(start, trace, w);
    Runs.SystemHolds(start, trace, w);
  }

  /** What every run guarantees about a pool reconcile. */
  lemma PoolFrameFacts(start: World, trace: seq<Step>, w: World, key: Key)
    requires Reached(start, trace, w) && key in w.fleet.inFlight
    ensures Fleets.FrameFits(w.plane, w.cloud, Fleets.HeldIn(w.fleet, key), w.fleet.inFlight[key])
  {
    ReachedIsReachable(start, trace, w);
    Runs.PoolFrameHolds(start, trace, w, key);
  }

  /** A Ready managed cluster holds an endpoint that the control plane persisted. */
  lemma CopyIsPersisted(start: World, trace: seq<Step>, w: World)
    requires Reached(start, trace, w) && w.mirror.obj.ready
    ensures 0 < w.mirror.copied <= |w.plane.hist.endpoints|
    ensures w.mirror.obj.endpoint == w.plane.hist.endpoints[w.mirror.copied - 1]
  {
    ReachedIsReachable(start, trace, w);
    Runs.SystemHolds(start, trace, w);
  }

  /** Whose code is running. */
  datatype Actor = ThePlane | ThePool(key: Key) | TheCopy

  predicate Moves(a: Actor, s: Step) {
    match a
    case ThePlane => s.ByPlane?
    case ThePool(key) => s.ByPool? && s.key == key
    case TheCopy => s.ByCopy?
  }

  /** What nobody else changes while the code of `a` runs: its own reconcile, and the object it works on but
      for the deletion timestamp and its existence. */
  predicate Untouched(a: Actor, w: World, v: World) {
    match a
    case ThePlane =>
      v.plane == w.plane.(alive := v.plane.alive, obj := w.plane.obj.(deleting := v.plane.obj.deleting))
    case ThePool(key) =>
      && (key in v.fleet.inFlight <==> key in w.fleet.inFlight)
      && (key in w.fleet.inFlight ==> v.fleet.inFlight[key] == w.fleet.inFlight[key])
      && PoolSpared(key, w.fleet, v.fleet)
    case TheCopy => v.mirror == w.mirror && w.plane.hist.endpoints <= v.plane.hist.endpoints
  }

  /** A pool that has been created is as it was, but for its deletion timestamp and its existence. */
  predicate PoolSpared(key: Key, fl: Fleet, fl': Fleet) {
    && fl.hist.keys <= fl'.hist.keys
    && (key in fl.hist.keys && key in fl'.pools ==>
          key in fl.pools && fl'.pools[key] == fl.pools[key].(deleting := fl'.pools[key].deleting))
  }

  lemma OthersLeaveUntouched(a: Actor, w: World, s: Step)
    requires Enabled(w, s) && !Moves(a, s)
    ensures Untouched(a, w, Apply(w, s))
  {
    match s
    case User(u) =>
    case ByCloud(_) =>
    case ByPlane(move) => Records.EndpointsGrow(w.plane, w.cloud, |Labelled(w.fleet)|, move);
    case ByPool(k, move) => PoolMovesTouchOne(w.plane, w.fleet, w.cloud, k, move);
    case ByCopy(_) =>
  }

  lemma PoolMovesTouchOne(p: Plane, fl: Fleet, c: Cloud, key: Key, move: PoolMove)
    requires PoolEnabled(p, fl, c, key, move)
    ensures FleetAfter(p, fl, c, key, move).inFlight - {key} == fl.inFlight - {key}
    ensures forall k :: k != key ==> (k in FleetAfter(p, fl, c, key, move).inFlight <==> k in fl.inFlight)
    ensures forall k :: k != key && k in fl.inFlight ==> FleetAfter(p, fl, c, key, move).inFlight[k] == fl.inFlight[k]
    ensures forall k :: k != key ==> PoolSpared(k, fl, FleetAfter(p, fl, c, key, move))
  {
  }

  /** The steps of `trace` lead from `start` through `states`, one after the other. */
  ghost predicate Path(start: World, trace: seq<Step>, states: seq<World>) {
    && |states| == |trace| + 1 && states[0] == start && Init(start)
    && forall i :: 0 <= i < |trace| ==> LeadsTo(states[i], trace[i], states[i + 1])
  }

  ghost predicate LeadsTo(w: World, s: Step, v: World) {
    Enabled(w, s) && v == Apply(w, s)
  }

  /** The same as Reachable, without the recursion. */
  ghost predicate Reached(start: World, trace: seq<Step>, w: World) {
    exists states: seq<World> :: Path(start, trace, states) && states[|trace|] == w
  }

  /** The same as Reached; the quantifier keeps it folded in proofs that need not look inside. */
  ghost predicate Lived(start: World, trace: seq<Step>, w: World) {
    forall t: seq<Step>, v: World {:trigger Reached(start, t, v)} :: t == trace && v == w ==> Reached(start, t, v)
  }

  lemma ReachedBegins(start: World)
    requires Init(start)
    ensures Reached(start, [], start)
  {
    assert Path(start, [], [start]);
  }

  lemma ReachedExtends(start: World, trace: seq<Step>, w: World, s: Step)
    requires Reached(start, trace, w) && Enabled(w, s)
    ensures Reached(start, trace + [s], Apply(w, s))
  {
    var states :| Path(start, trace, states) && states[|trace|] == w;
    var t, vs := trace + [s], states + [Apply(w, s)];
    forall i | 0 <= i < |t|
      ensures LeadsTo(vs[i], t[i], vs[i + 1])
    {
      if i < |trace| {
        assert LeadsTo(states[i], trace[i], states[i + 1]);
      }
    }
    assert Path(start, t, vs);
  }

  lemma {:induction false} PathRuns(start: World, trace: seq<Step>, states: seq<World>)
    requires Path(start, trace, states)
    ensures Run(start, trace) == Some(states[|trace|])
    decreases |trace|
  {
    if trace != [] {
      PathRuns(start, trace[..|trace| - 1], states[..|trace|]);
    }
  }

  lemma ReachedIsReachable(start: World, trace: seq<Step>, w: World)
    requires Reached(start, trace, w)
    ensures Reachable(start, trace, w)
  {
    var states :| Path(start, trace, states) && states[|trace|] == w;
    PathRuns(start, trace, states);
  }

  /** The frame of a control-plane reconcile as every run leaves it. */
  lemma FrameFacts(start: World, trace: seq<Step>, w: World)
    requires Reached(start, trace, w) && w.plane.inFlight.Some?
    ensures Frames.FrameInv(w.plane.inFlight.value.mem, w.plane.inFlight.value.pc)
  {
    ReachedIsReachable(start, trace, w);
    Runs.SystemHolds(start, trace, w);
  }

  /** The steps of a control-plane reconcile that neither the API server nor the cloud answers. */
  predicate CallsNothing(s: CP.CPStep) {
    match s
    case Common(c) => c.CheckInfrastructure? || c.MarkReady? || c.MarkFailed?
    case Network(n) => n.StartVpc? || n.VpcDone? || n.SubnetDone?
    case Cluster(c) => c.ObserveStatus? || c.GiveUp?
    case Access(a) => a.ChooseEndpoint?
    case Teardown(t) => t.SkipDelete? || t.RemoveFinalizer?
  }

  /** The steps of a pool reconcile that neither the API server nor the cloud answers. */
  predicate PoolCallsNothing(s: NP.PoolStep) {
    match s
    case Common(c) => c.Begin? || c.MarkReady? || c.MarkFailed?
    case Nodepool(n) => n.ObserveStatus? || n.GiveUp?
    case Teardown(t) => !t.DeleteNodepool?
  }

  /** A reconcile has issued `made` create calls between f and g, and has not run its endpoint loops. */
  predicate Counts(f: CP.CPFrame, g: CP.CPFrame, made: nat) {
    g.creates == f.creates + made && g.chosen == f.chosen
  }

  /** The answers of the last Gets: of the reconciled object, of the control plane by a pool's reconciler, and of
      the control plane's endpoint by the managed cluster's. */
  class Gets {
    ghost var own: Shown<()>
    ghost var plane: PlaneRead
    ghost var endpoint: Option<APIEndpoint>

    constructor ()
    {
    }
  }

  /** The last step of a run. */
  function Last(trace: seq<Step>): Option<Step> {
    if trace == [] then None else Some(trace[|trace| - 1])
  }

  /** An answer without what it holds. */
  function Bare<T>(answer: Shown<T>): Shown<()> {
    match answer
    case Found(_) => Found(())
    case Missing => Missing
    case ShowFailed => ShowFailed
  }

  class Environment {
    const gets: Gets
    ghost const start: World
    var world: World
    ghost var trace: seq<Step>
    /** The steps of control-plane reconciles so far, and those of each pool's reconciles: what the code whose
        turn it is has done, without what the others did in between. */
    ghost var calls: seq<CP.CPStep>
    ghost var poolCalls: map<Key, seq<NP.PoolStep>>

    ghost function PoolCalls(key: Key): seq<NP.PoolStep>
      reads this
    {
      if key in poolCalls then poolCalls[key] else []
    }

    ghost predicate Valid()
      reads this
    {
      Lived(start, trace, world)
    }

    constructor (w: World)
      requires Init(w)
      ensures Valid() && world == w && start == w && trace == []
    {
      gets := new Gets();
      start, world, trace := w, w, [];
      calls, poolCalls := [], map[];
      ReachedBegins(w);
    }

    /** A control-plane reconcile is in flight. */
    ghost predicate Running()
      reads this
    {
      Valid() && world.plane.inFlight.Some?
    }

    function Frame(): CP.CPFrame
      reads this
      requires world.plane.inFlight.Some?
    {
      world.plane.inFlight.value
    }

    /** What only the endpoint loops and the kubeconfig code change: the endpoint list that was gone over, and
        the kubeconfig secret. */
    ghost function Kept(): (Option<Option<seq<EndpointEntry>>>, Option<Kubeconfig>)
      reads this
    {
      (if world.plane.inFlight.Some? then world.plane.inFlight.value.chosen else None, world.plane.secret)
    }

    method Act(s: Step)
      requires Valid() && Enabled(world, s)
      modifies this
      ensures Valid() && world == Apply(old(world), s) && trace == old(trace) + [s]
      ensures calls == match s
                       case ByPlane(Do(cps)) => old(calls) + [cps]
                       case _ => old(calls)
      ensures forall k :: PoolCalls(k) == match s
                case ByPool(key, DoPool(ps)) => if k == key then old(PoolCalls(k)) + [ps] else old(PoolCalls(k))
                case _ => old(PoolCalls(k))
    {
      ReachedExtends(start, trace, world, s);
      world := Apply(world, s);
      trace := trace + [s];
      match s {
        case ByPlane(Do(cps)) => calls := calls + [cps];
        case ByPool(key, DoPool(ps)) => poolCalls := poolCalls[key := PoolCalls(key) + [ps]];
        case _ =>
      }
    }

    /** Everybody else makes any number of steps. */
    method Interfere(a: Actor)
      requires Valid()
      modifies this
      ensures Valid() && Untouched(a, old(world), world) && old(trace) <= trace
      ensures (a.ThePlane? ==> calls == old(calls)) && old(calls) <= calls
      ensures a.ThePool? ==> PoolCalls(a.key) == old(PoolCalls(a.key))
    {
      var n: int := *;
      while n > 0
        invariant Valid() && Untouched(a, old(world), world) && old(trace) <= trace
        invariant (a.ThePlane? ==> calls == old(calls)) && old(calls) <= calls
        invariant a.ThePool? ==> PoolCalls(a.key) == old(PoolCalls(a.key))
      {
        var s: Step := *;
        if Enabled(world, s) && !Moves(a, s) {
          OthersLeaveUntouched(a, world, s);
          Act(s);
        }
        n := n - 1;
      }
    }

    // -------------------------------------------------------------- control plane

    /** A step of the reconcile that calls nothing: the machine follows the code. */
    method Local(s: CP.CPStep)
      requires Running() && CP.CPGuard(Frame(), s) && CallsNothing(s)
      modifies this
      ensures Running() && trace == old(trace) + [ByPlane(Do(s))]
      ensures (Frame().mem, Frame().pc) == CP.Advance(old(Frame()), s) && calls == old(calls) + [s]
      ensures Frame().creates == old(Frame()).creates
      ensures Frame().chosen == if s == CP.Access(CP.ChooseEndpoint) then Some(old(Frame()).pc.entries) else old(Frame()).chosen
      ensures world.plane.secret == old(world.plane.secret)
      ensures s == CP.Cluster(CP.ObserveStatus) ==>
                world.plane.hist.announcements == old(world.plane.hist.announcements)
                  + if Announces(old(Frame()).mem.status, old(Frame()).pc.st) then 1 else 0
    {
      Act(ByPlane(Do(s)));
    }

    /** The Get that begins a reconcile of the control plane. */
    method GetPlane() returns (read: Shown<ControlPlane>)
      requires Valid() && world.plane.inFlight.None?
      modifies this, gets
      ensures Valid() && old(trace) <= trace && gets.own == Bare(read)
      ensures world.plane.obj == old(world.plane.obj).(deleting := world.plane.obj.deleting)
      ensures match read
              case Found(cp) => world.plane.inFlight == Some(CP.CPOpened(cp)) && world.plane.obj == cp
              case Missing => world.plane.inFlight.None? && !world.plane.alive
              case ShowFailed => world.plane.inFlight.None?
      ensures world.plane.secret == old(world.plane.secret) && calls == old(calls)
    {
      Interfere(ThePlane);
      var fails: bool := *;
      gets.own := if fails then ShowFailed else if world.plane.alive then Found(()) else Missing;
      if fails {
        return ShowFailed;
      }
      if !world.plane.alive {
        return Missing;
      }
      read := Found(world.plane.obj);
      Act(ByPlane(Open));
    }

    /** A reconcile returns before it has done anything. */
    method LeavePlane()
      requires Running() && Frame() == CP.CPOpened(world.plane.obj)
      modifies this
      ensures Valid() && world.plane.inFlight.None? && old(trace) <= trace
      ensures world.plane.obj == old(world.plane.obj) && world.plane.hist == old(world.plane.hist) && calls == old(calls)
      ensures world.plane.secret == old(world.plane.secret)
    {
      Act(ByPlane(Leave));
    }

    /** The deferred Close: one last patch. */
    method ClosePlane() returns (saved: bool)
      requires Running() && Frame().pc.Closing?
      modifies this
      ensures Valid() && world.plane.inFlight.None? && old(trace) <= trace && Last(trace) == Some(ByPlane(Close(saved)))
      ensures saved ==> world.plane.obj == old(Frame()).mem.(deleting := world.plane.obj.deleting)
      ensures !saved ==> world.plane.obj == old(world.plane.obj).(deleting := world.plane.obj.deleting)
      ensures saved && old(Frame()).mem.deleting && !old(Frame()).mem.finalizer ==> !world.plane.alive
      ensures world.plane.secret == old(world.plane.secret)
    {
      Interfere(ThePlane);
      saved := *;
      saved := saved && world.plane.alive;
      DeletedIsPersisted(start, trace, world);
      Act(ByPlane(Close(saved)));
    }

    method PatchPlane() returns (saved: bool)
      requires Running() && CP.CommonGuard(Frame(), CP.Patch(true))
      modifies this
      ensures Running() && old(trace) <= trace
      ensures (Frame().mem, Frame().pc) == CP.CommonAdvance(old(Frame()), CP.Patch(saved))
      ensures calls == old(calls) + [CP.Common(CP.Patch(saved))]
      ensures Counts(old(Frame()), Frame(), 0) && world.plane.secret == old(world.plane.secret)
      ensures saved ==> world.plane.obj == Frame().mem.(deleting := world.plane.obj.deleting)
    {
      Interfere(ThePlane);
      saved := *;
      saved := saved && world.plane.alive;
      Act(ByPlane(Do(CP.Common(CP.Patch(saved)))));
    }

    method InitService() returns (ok: bool)
      requires Running() && CP.CommonGuard(Frame(), CP.NewService(true))
      modifies this
      ensures Running() && old(trace) <= trace
      ensures (Frame().mem, Frame().pc) == CP.CommonAdvance(old(Frame()), CP.NewService(ok))
      ensures calls == old(calls) + [CP.Common(CP.NewService(ok))]
      ensures Counts(old(Frame()), Frame(), 0) && world.plane.secret == old(world.plane.secret)
    {
      Interfere(ThePlane);
      ok := *;
      Act(ByPlane(Do(CP.Common(CP.NewService(ok)))));
    }

    method CreateVpc() returns (vpc: Made<()>)
      requires Running() && CP.NetworkGuard(Frame(), CP.CreateVpc(MakeFailed))
      modifies this
      ensures Running() && old(trace) <= trace
      ensures (Frame().mem, Frame().pc) == CP.NetworkAdvance(old(Frame()), CP.CreateVpc(vpc))
      ensures calls == old(calls) + [CP.Network(CP.CreateVpc(vpc))]
      ensures Counts(old(Frame()), Frame(), 1) && world.plane.secret == old(world.plane.secret)
      ensures vpc.Done? ==> vpc.id != NO_ID
    {
      Interfere(ThePlane);
      vpc := *;
      if !FreshIfMade(world.cloud, vpc) {
        vpc := MakeFailed;
      }
      Act(ByPlane(Do(CP.Network(CP.CreateVpc(vpc)))));
    }

    method CreateSubnet() returns (reply: CP.SubnetReply)
      requires Running() && CP.NetworkGuard(Frame(), CP.CreateSubnet(CP.SubnetFailed))
      modifies this
      ensures Running() && old(trace) <= trace
      ensures (Frame().mem, Frame().pc) == CP.NetworkAdvance(old(Frame()), CP.CreateSubnet(reply))
      ensures calls == old(calls) + [CP.Network(CP.CreateSubnet(reply))]
      ensures Counts(old(Frame()), Frame(), 1) && world.plane.secret == old(world.plane.secret)
      ensures reply.SubnetMade? ==> reply.id != NO_ID
    {
      Interfere(ThePlane);
      reply := *;
      if !NetworkAllowed(world.cloud, Frame().mem, CP.CreateSubnet(reply)) {
        reply := CP.SubnetFailed;
      }
      Act(ByPlane(Do(CP.Network(CP.CreateSubnet(reply)))));
    }

    method ListSubnets() returns (ids: Option<seq<Id>>)
      requires Running() && Frame().pc.AtSubnetAdopt?
      modifies this
      ensures Running() && old(trace) <= trace
      ensures (Frame().mem, Frame().pc) == CP.NetworkAdvance(old(Frame()), CP.ListSubnets(ids))
      ensures calls == old(calls) + [CP.Network(CP.ListSubnets(ids))]
      ensures Counts(old(Frame()), Frame(), 0) && world.plane.secret == old(world.plane.secret)
      ensures ids.Some? ==> ListsSubnets(world.cloud, Frame().mem.spec.vpcId, ids.value)
    {
      Interfere(ThePlane);
      ids := *;
      if !NetworkAllowed(world.cloud, Frame().mem, CP.ListSubnets(ids)) {
        ids := None;
      }
      Act(ByPlane(Do(CP.Network(CP.ListSubnets(ids)))));
    }

    method ShowCluster() returns (answer: Shown<ClusterInfo>)
      requires Running() && CP.ClusterGuard(Frame(), CP.ShowCluster(ShowFailed))
      modifies this
      ensures Running() && old(trace) <= trace
      ensures Frame().mem == old(Frame()).mem && Frame().pc == CP.AfterShow(old(Frame()).pc, answer)
      ensures calls == old(calls) + [CP.Cluster(CP.ShowCluster(answer))]
      ensures Counts(old(Frame()), Frame(), 0) && world.plane.secret == old(world.plane.secret)
      ensures ClusterAllowed(world.cloud, Frame().mem, CP.ShowCluster(answer))
    {
      Interfere(ThePlane);
      var id, fails: bool := Frame().mem.clusterId, *;
      answer := if fails then ShowFailed
                else if id in world.cloud.clusters then Found(world.cloud.clusters[id])
                else Missing;
      Act(ByPlane(Do(CP.Cluster(CP.ShowCluster(answer)))));
    }

    method CreateCluster() returns (cluster: Made<ClusterStatus>)
      requires Running() && CP.ClusterGuard(Frame(), CP.CreateCluster(MakeFailed))
      modifies this
      ensures Running() && old(trace) <= trace
      ensures (Frame().mem, Frame().pc) == CP.ClusterAdvance(old(Frame()), CP.CreateCluster(cluster))
      ensures calls == old(calls) + [CP.Cluster(CP.CreateCluster(cluster))]
      ensures Counts(old(Frame()), Frame(), 1) && world.plane.secret == old(world.plane.secret)
      ensures cluster.Done? ==> cluster.id != NO_ID
    {
      Interfere(ThePlane);
      cluster := *;
      if !FreshIfMade(world.cloud, cluster) {
        cluster := MakeFailed;
      }
      Act(ByPlane(Do(CP.Cluster(CP.CreateCluster(cluster)))));
    }

    /** Whether the cluster has a public endpoint, or None when the call fails. */
    method ShowClusterEndpoints() returns (public: Option<bool>)
      requires Running() && Frame().pc.AtEipShow?
      modifies this
      ensures Running() && old(trace) <= trace
      ensures (Frame().mem, Frame().pc) == CP.AccessAdvance(old(Frame()), CP.ShowEndpoints(public))
      ensures calls == old(calls) + [CP.Access(CP.ShowEndpoints(public))]
      ensures Counts(old(Frame()), Frame(), 0) && world.plane.secret == old(world.plane.secret)
    {
      Interfere(ThePlane);
      var fails: bool := *;
      public := if fails then None else Some(Frame().mem.clusterId in world.cloud.eipOf);
      Act(ByPlane(Do(CP.Access(CP.ShowEndpoints(public)))));
    }

    method CreatePublicip() returns (eip: Made<()>)
      requires Running() && Frame().pc.AtEipCreate?
      modifies this
      ensures Running() && old(trace) <= trace
      ensures (Frame().mem, Frame().pc) == CP.AccessAdvance(old(Frame()), CP.CreateEip(eip))
      ensures calls == old(calls) + [CP.Access(CP.CreateEip(eip))]
      ensures Counts(old(Frame()), Frame(), 1) && world.plane.secret == old(world.plane.secret)
    {
      Interfere(ThePlane);
      eip := *;
      if !FreshIfMade(world.cloud, eip) {
        eip := MakeFailed;
      }
      Act(ByPlane(Do(CP.Access(CP.CreateEip(eip)))));
    }

    method UpdateClusterEip() returns (bound: bool)
      requires Running() && Frame().pc.AtEipBind?
      modifies this
      ensures Running() && old(trace) <= trace
      ensures (Frame().mem, Frame().pc) == CP.AccessAdvance(old(Frame()), CP.BindEip(bound))
      ensures calls == old(calls) + [CP.Access(CP.BindEip(bound))]
      ensures Counts(old(Frame()), Frame(), 0) && world.plane.secret == old(world.plane.secret)
      ensures bound ==> Frame().mem.clusterId in world.cloud.eipOf
                        && world.cloud.eipOf[Frame().mem.clusterId] == Frame().mem.status.eip
    {
      Interfere(ThePlane);
      bound := *;
      Act(ByPlane(Do(CP.Access(CP.BindEip(bound)))));
    }

    /** The stored kubeconfig, Some(None) when there is none, or None when the read fails. */
    method GetSecret() returns (read: Option<Option<Kubeconfig>>)
      requires Running() && Frame().pc.AtSecretGet?
      modifies this
      ensures Running() && old(trace) <= trace
      ensures (Frame().mem, Frame().pc) == CP.AccessAdvance(old(Frame()), CP.GetSecret(read))
      ensures calls == old(calls) + [CP.Access(CP.GetSecret(read))]
      ensures Counts(old(Frame()), Frame(), 0) && world.plane.secret == old(world.plane.secret)
    {
      Interfere(ThePlane);
      var fails: bool := *;
      read := if fails then None else Some(world.plane.secret);
      Act(ByPlane(Do(CP.Access(CP.GetSecret(read)))));
    }

    method CreateClusterCert() returns (creds: Option<Credentials>)
      requires Running() && Frame().pc.AtCert?
      modifies this
      ensures Running() && old(trace) <= trace
      ensures (Frame().mem, Frame().pc) == CP.AccessAdvance(old(Frame()), CP.CreateCert(creds))
      ensures calls == old(calls) + [CP.Access(CP.CreateCert(creds))]
      ensures Counts(old(Frame()), Frame(), 0) && world.plane.secret == old(world.plane.secret)
    {
      Interfere(ThePlane);
      creds := *;
      Act(ByPlane(Do(CP.Access(CP.CreateCert(creds)))));
    }

    /** Create or Update of the kubeconfig secret. */
    method WriteSecret(cfg: Kubeconfig) returns (written: bool)
      requires Running() && Frame().pc == CP.AtSecretWrite(cfg)
      modifies this
      ensures Running() && old(trace) <= trace
      ensures (Frame().mem, Frame().pc) == CP.AccessAdvance(old(Frame()), CP.WriteSecret(written))
      ensures calls == old(calls) + [CP.Access(CP.WriteSecret(written))]
      ensures Counts(old(Frame()), Frame(), 0)
      ensures world.plane.secret == if written then Some(cfg) else old(world.plane.secret)
    {
      Interfere(ThePlane);
      written := *;
      Act(ByPlane(Do(CP.Access(CP.WriteSecret(written)))));
    }

    /** The number of pool objects that carry the cluster-name label. */
    method ListPools() returns (count: Option<nat>)
      requires Running() && Frame().pc.AtDeleteList?
      modifies this
      ensures Running() && old(trace) <= trace
      ensures (Frame().mem, Frame().pc) == CP.TeardownAdvance(old(Frame()), CP.ListPools(count))
      ensures calls == old(calls) + [CP.Teardown(CP.ListPools(count))]
      ensures Counts(old(Frame()), Frame(), 0) && world.plane.secret == old(world.plane.secret)
      ensures count.Some? ==> count.value == |Labelled(world.fleet)| && world.fleet.hist.counted == world.fleet.hist.keys
    {
      Interfere(ThePlane);
      var fails: bool := *;
      count := if fails then None else Some(|Labelled(world.fleet)|);
      Act(ByPlane(Do(CP.Teardown(CP.ListPools(count)))));
    }

    method DeleteCluster() returns (removal: Removal)
      requires Running() && Frame().pc.AtDeleteCall?
      modifies this
      ensures Running() && old(trace) <= trace
      ensures (Frame().mem, Frame().pc) == CP.TeardownAdvance(old(Frame()), CP.DeleteCluster(removal))
      ensures calls == old(calls) + [CP.Teardown(CP.DeleteCluster(removal))]
      ensures Counts(old(Frame()), Frame(), 0) && world.plane.secret == old(world.plane.secret)
      ensures removal.NotFound? ==> Frame().mem.clusterId !in world.cloud.clusters
    {
      Interfere(ThePlane);
      var fails: bool := *;
      removal := if fails then RemovalFailed else if Frame().mem.clusterId in world.cloud.clusters then Accepted else NotFound;
      Act(ByPlane(Do(CP.Teardown(CP.DeleteCluster(removal)))));
    }

    // -------------------------------------------------------------- pools

    /** A reconcile of the pool is in flight. */
    ghost predicate RunningPool(key: Key)
      reads this
    {
      Valid() && key in world.fleet.inFlight
    }

    function PoolFrame(key: Key): NP.PoolFrame
      reads this
      requires key in world.fleet.inFlight
    {
      world.fleet.inFlight[key]
    }

    method LocalPool(key: Key, s: NP.PoolStep)
      requires RunningPool(key) && NP.PoolGuard(PoolFrame(key), s) && PoolCallsNothing(s)
      modifies this
      ensures RunningPool(key) && old(calls) <= calls && trace == old(trace) + [ByPool(key, DoPool(s))]
      ensures PoolFrame(key) == NP.PoolNext(old(PoolFrame(key)), s) && PoolCalls(key) == old(PoolCalls(key)) + [s]
    {
      Act(ByPool(key, DoPool(s)));
    }

    /** The Get that begins a reconcile of the pool. */
    method GetPool(key: Key) returns (read: Shown<Pool>)
      requires Valid() && key !in world.fleet.inFlight
      modifies this, gets
      ensures Valid() && old(trace) <= trace && gets.own == Bare(read) && PoolSpared(key, old(world).fleet, world.fleet)
      ensures match read
              case Found(pool) => RunningPool(key) && PoolFrame(key) == NP.PoolOpened(pool)
              case Missing => key !in world.fleet.inFlight && key !in world.fleet.pools
              case ShowFailed => key !in world.fleet.inFlight
      ensures PoolCalls(key) == old(PoolCalls(key))
    {
      Interfere(ThePool(key));
      var fails: bool := *;
      gets.own := if fails then ShowFailed else if key in world.fleet.pools then Found(()) else Missing;
      if fails {
        return ShowFailed;
      }
      if key !in world.fleet.pools {
        return Missing;
      }
      read := Found(world.fleet.pools[key]);
      Act(ByPool(key, OpenPool));
    }

    /** A reconcile returns before it has opened its scope. */
    method LeavePoolReconcile(key: Key)
      requires RunningPool(key) && PoolFrame(key).pc.AtReadControlPlane?
      modifies this
      ensures Valid() && key !in world.fleet.inFlight && old(trace) <= trace
      ensures PoolCalls(key) == old(PoolCalls(key)) && world.fleet.pools == old(world.fleet.pools) && world.plane == old(world.plane)
      ensures world.fleet.hist == old(world.fleet.hist)
    {
      Act(ByPool(key, LeavePool));
    }

    /** The Get of the control plane, with its Ready and its cluster id label. */
    method GetControlPlane(key: Key) returns (read: PlaneRead)
      requires RunningPool(key) && PoolFrame(key).pc.AtReadControlPlane?
      modifies this, gets
      ensures RunningPool(key) && old(trace) <= trace
      ensures gets.plane == read && gets.own == old(gets.own) && PoolSpared(key, old(world).fleet, world.fleet)
      ensures match read
              case ReadyAs(id) =>
                && world.plane.alive && world.plane.obj.status.ready && id == world.plane.obj.clusterId
                && id != NO_ID && id in world.plane.hist.readyIds
                && PoolFrame(key) == old(PoolFrame(key)).(cluster := id, pc := NP.AtStart)
                && PoolCalls(key) == old(PoolCalls(key)) + [NP.Common(NP.ReadControlPlane(id))]
              case NotReady =>
                && world.plane.alive && !world.plane.obj.status.ready
                && PoolFrame(key) == old(PoolFrame(key)) && PoolCalls(key) == old(PoolCalls(key))
              case Unreadable => PoolFrame(key) == old(PoolFrame(key)) && PoolCalls(key) == old(PoolCalls(key))
    {
      Interfere(ThePool(key));
      var fails: bool := *;
      gets.plane := if fails || !world.plane.alive then Unreadable
                    else if world.plane.obj.status.ready then ReadyAs(world.plane.obj.clusterId) else NotReady;
      if fails || !world.plane.alive {
        return Unreadable;
      }
      if !world.plane.obj.status.ready {
        return NotReady;
      }
      read := ReadyAs(world.plane.obj.clusterId);
      ReadyHasCluster(start, trace, world);
      Act(ByPool(key, DoPool(NP.Common(NP.ReadControlPlane(world.plane.obj.clusterId)))));
    }

    /** The deferred Close: one last patch. */
    method ClosePoolScope(key: Key) returns (saved: bool)
      requires RunningPool(key) && PoolFrame(key).pc.Closing?
      modifies this
      ensures Valid() && key !in world.fleet.inFlight && old(trace) <= trace && Last(trace) == Some(ByPool(key, ClosePool(saved)))
      ensures saved && key in world.fleet.pools ==>
                world.fleet.pools[key] == old(PoolFrame(key)).mem.(deleting := world.fleet.pools[key].deleting)
      ensures saved && old(PoolFrame(key)).mem.deleting && !old(PoolFrame(key)).mem.finalizer ==> key !in world.fleet.pools
      ensures old(PoolFrame(key)).mem.deleting && (!saved || old(PoolFrame(key)).mem.finalizer) ==>
                key in world.fleet.pools && world.fleet.pools[key].finalizer
      ensures PoolCalls(key) == old(PoolCalls(key))
      ensures old(PoolFrame(key)).cluster != NO_ID && old(PoolFrame(key)).cluster in world.plane.hist.readyIds
    {
      Interfere(ThePool(key));
      saved := *;
      saved := saved && key in world.fleet.pools;
      PoolFrameFacts(start, trace, world, key);
      Act(ByPool(key, ClosePool(saved)));
    }

    method PatchPool(key: Key) returns (saved: bool)
      requires RunningPool(key) && NP.CommonGuard(PoolFrame(key), NP.Patch(true))
      modifies this
      ensures RunningPool(key) && old(trace) <= trace
      ensures PoolFrame(key) == NP.CommonAdvance(old(PoolFrame(key)), NP.Patch(saved))
      ensures PoolCalls(key) == old(PoolCalls(key)) + [NP.Common(NP.Patch(saved))]
      ensures saved && key in world.fleet.pools ==>
                world.fleet.pools[key] == PoolFrame(key).mem.(deleting := world.fleet.pools[key].deleting)
    {
      Interfere(ThePool(key));
      saved := *;
      saved := saved && key in world.fleet.pools;
      Act(ByPool(key, DoPool(NP.Common(NP.Patch(saved)))));
    }

    method InitNodepoolService(key: Key) returns (ok: bool)
      requires RunningPool(key) && NP.CommonGuard(PoolFrame(key), NP.NewService(true))
      modifies this
      ensures RunningPool(key) && old(trace) <= trace
      ensures PoolFrame(key) == NP.CommonAdvance(old(PoolFrame(key)), NP.NewService(ok))
      ensures PoolCalls(key) == old(PoolCalls(key)) + [NP.Common(NP.NewService(ok))]
    {
      Interfere(ThePool(key));
      ok := *;
      Act(ByPool(key, DoPool(NP.Common(NP.NewService(ok)))));
    }

    method ShowNodepool(key: Key) returns (answer: Shown<NodepoolStatus>)
      requires RunningPool(key) && NP.NodepoolGuard(PoolFrame(key), NP.ShowNodepool(ShowFailed))
      modifies this
      ensures RunningPool(key) && old(calls) <= calls && old(trace) <= trace
      ensures PoolFrame(key) == NP.NodepoolAdvance(old(PoolFrame(key)), NP.ShowNodepool(answer))
      ensures PoolCalls(key) == old(PoolCalls(key)) + [NP.Nodepool(NP.ShowNodepool(answer))]
      ensures answer.Found? ==> Reaches(world.cloud, PoolFrame(key).cluster, PoolFrame(key).mem.poolId)
                                && world.cloud.nodepools[PoolFrame(key).mem.poolId].status == answer.value
      ensures answer.Missing? ==> !Reaches(world.cloud, PoolFrame(key).cluster, PoolFrame(key).mem.poolId)
    {
      Interfere(ThePool(key));
      var id, fails: bool := PoolFrame(key).mem.poolId, *;
      answer := if fails then ShowFailed
                else if Reaches(world.cloud, PoolFrame(key).cluster, id) then Found(world.cloud.nodepools[id].status)
                else Missing;
      Act(ByPool(key, DoPool(NP.Nodepool(NP.ShowNodepool(answer)))));
    }

    method CreateNodepool(key: Key) returns (made: Made<NodepoolStatus>)
      requires RunningPool(key) && NP.NodepoolGuard(PoolFrame(key), NP.CreateNodepool(MakeFailed))
      modifies this
      ensures RunningPool(key) && old(trace) <= trace
      ensures PoolFrame(key) == NP.NodepoolAdvance(old(PoolFrame(key)), NP.CreateNodepool(made))
      ensures PoolCalls(key) == old(PoolCalls(key)) + [NP.Nodepool(NP.CreateNodepool(made))]
      ensures made.Done? ==> made.id != NO_ID
    {
      Interfere(ThePool(key));
      made := *;
      if !FreshIfMade(world.cloud, made) || PoolFrame(key).cluster !in world.cloud.clusters {
        made := MakeFailed;
      }
      Act(ByPool(key, DoPool(NP.Nodepool(NP.CreateNodepool(made)))));
    }

    /** The nodes of the cluster, or None when the call fails. */
    method ListNodes(key: Key) returns (nodes: Option<seq<Node>>)
      requires RunningPool(key) && PoolFrame(key).pc.AtListNodes?
      modifies this
      ensures RunningPool(key) && old(trace) <= trace
      ensures PoolFrame(key) == NP.NodepoolAdvance(old(PoolFrame(key)), NP.ListNodes(nodes))
      ensures PoolCalls(key) == old(PoolCalls(key)) + [NP.Nodepool(NP.ListNodes(nodes))]
    {
      Interfere(ThePool(key));
      nodes := *;
      Act(ByPool(key, DoPool(NP.Nodepool(NP.ListNodes(nodes)))));
    }

    method DeleteNodepool(key: Key) returns (removal: Removal)
      requires RunningPool(key) && PoolFrame(key).pc.AtDeleteCall?
      modifies this
      ensures RunningPool(key) && old(trace) <= trace
      ensures PoolFrame(key) == NP.TeardownAdvance(old(PoolFrame(key)), NP.DeleteNodepool(removal))
      ensures PoolCalls(key) == old(PoolCalls(key)) + [NP.Teardown(NP.DeleteNodepool(removal))]
    {
      Interfere(ThePool(key));
      var fails: bool := *;
      removal := if fails then RemovalFailed
                 else if Reaches(world.cloud, PoolFrame(key).cluster, PoolFrame(key).mem.poolId) then Accepted
                 else NotFound;
      Act(ByPool(key, DoPool(NP.Teardown(NP.DeleteNodepool(removal)))));
    }

    // -------------------------------------------------------------- the managed cluster

    /** The Get of the control plane by the managed-cluster controller: its endpoint. */
    method GetEndpoint() returns (endpoint: Option<APIEndpoint>)
      requires Valid() && world.mirror.inFlight.None?
      modifies this, gets
      ensures Valid() && old(trace) <= trace && world.mirror.obj == old(world.mirror.obj)
      ensures gets.endpoint == endpoint && world.mirror.copied == old(world.mirror.copied)
      ensures old(world.plane.hist.endpoints) <= world.plane.hist.endpoints
      ensures match endpoint
              case None => world.mirror.inFlight.None?
              case Some(ep) => world.mirror.inFlight == Some(CopyFrame(|world.plane.hist.endpoints|, ep)) && ep == world.plane.obj.spec.endpoint
    {
      Interfere(TheCopy);
      var fails: bool := *;
      gets.endpoint := if fails || !world.plane.alive then None else Some(world.plane.obj.spec.endpoint);
      if fails || !world.plane.alive {
        return None;
      }
      endpoint := Some(world.plane.obj.spec.endpoint);
      Act(ByCopy(ReadPlane));
    }

    method PatchManagedCluster(obj: ManagedCluster) returns (saved: bool)
      requires Valid() && world.mirror.inFlight.Some? && obj == ManagedCluster(true, world.mirror.inFlight.value.endpoint)
      modifies this
      ensures Valid() && old(trace) <= trace && world.mirror.inFlight.None?
      ensures world.mirror.obj == (if saved then obj else old(world.mirror.obj)) && Last(trace) == Some(ByCopy(PatchCopy(saved)))
      ensures world.mirror.copied == if saved then old(world.mirror.inFlight.value.upTo) else old(world.mirror.copied)
      ensures old(world.plane.hist.endpoints) <= world.plane.hist.endpoints
    {
      Interfere(TheCopy);
      saved := *;
      Act(ByCopy(PatchCopy(saved)));
    }
  }
}
