/** Ready and FailureMessage in a run: they are what the observations of the run amount to, those that were
    patched for the persisted object and all of them for the one in memory. */
module Observations {
  import opened Types
  import opened StatusRules
  import opened Protocol
  import opened Footprints
  import opened Leakage
  import opened Fleets
  import opened Runs
  import CP = ControlPlaneProgram
  import Frames = ControlPlaneFrames
  import NP = PoolProgram

  /** What setStatus has been called with: in the calls that were patched, and in those that are still held.
      A reconcile that ends without a successful patch falls back to the former. */
  datatype Log<T> = Log(saved: seq<T>, held: seq<T>)

  // ---------------------------------------------------------------- control plane

  function LogPlane(p: Plane, move: PlaneMove, log: Log<ClusterStatus>): Log<ClusterStatus>
    requires move.Do? && move.cps == CP.Cluster(CP.ObserveStatus) ==> p.inFlight.Some? && p.inFlight.value.pc.AtStatus?
  {
    match move
    case Do(Cluster(ObserveStatus)) => log.(held := log.held + [p.inFlight.value.pc.st])
    case Do(Common(Patch(saved))) => if saved then log.(saved := log.held) else log
    case Close(saved) => if saved then log.(saved := log.held) else log.(held := log.saved)
    case Crash => log.(held := log.saved)
    case Leave => log.(held := log.saved)
    case _ => log
  }

  /** The statuses that the control plane's reconciles have observed in the run. */
  function Observed(start: World, steps: seq<Step>): Log<ClusterStatus>
    requires Run(start, steps).Some?
    decreases |steps|
  {
    if steps == [] then Log([], [])
    else
      var n := |steps| - 1;
      var log := Observed(start, steps[..n]);
      match steps[n]
      case ByPlane(move) => LogPlane(Run(start, steps[..n]).value.plane, move, log)
      case _ => log
  }

  /** Ready and FailureMessage are what the observations made of the first ones. */
  predicate Follows(s: ControlPlaneStatus, first: ControlPlaneStatus, seen: seq<ClusterStatus>) {
    s.ready == ObserveAll(first, seen).ready && s.failure == ObserveAll(first, seen).failure
  }

  lemma ObserveOneMore(s: ControlPlaneStatus, first: ControlPlaneStatus, seen: seq<ClusterStatus>, st: ClusterStatus)
    requires Follows(s, first, seen)
    ensures Follows(Observe(s, st), first, seen + [st])
  {
    assert (seen + [st])[..|seen|] == seen;
  }

  predicate PlaneFollows(p: Plane, first: ControlPlaneStatus, log: Log<ClusterStatus>) {
    && log.saved <= log.held && (p.inFlight.None? ==> log.held == log.saved)
    && Follows(p.obj.status, first, log.saved) && Follows(Tracked(p).status, first, log.held)
  }

  /** Nothing but ObserveStatus changes them. */
  lemma OthersSpareReady(f: CP.CPFrame, s: CP.CPStep)
    requires CP.CPGuard(f, s) && Frames.ModeInv(f.mem, f.pc) && s != CP.Cluster(CP.ObserveStatus)
    ensures var m := CP.Advance(f, s).0;
            m.status.ready == f.mem.status.ready && m.status.failure == f.mem.status.failure
  {
    match s
    case Common(s') =>
      CommonSpares(f, s');
      assert Unconditioned(CP.Advance(f, s).0).status.ready == Unconditioned(f.mem).status.ready;
    case Network(s') =>
      NetworkSpares(f, s');
      assert Unconditioned(CP.Advance(f, s).0).status.ready == Unconditioned(f.mem).status.ready;
    case Cluster(s') =>
    case Access(s') => AccessSpares(f, s');
    case Teardown(s') => TeardownSpares(f, s');
  }

  lemma ObservationFollows(f: CP.CPFrame, first: ControlPlaneStatus, seen: seq<ClusterStatus>)
    requires f.pc.AtStatus? && Follows(f.mem.status, first, seen)
    ensures Follows(CP.ClusterAdvance(f, CP.ObserveStatus).0.status, first, seen + [f.pc.st])
  {
    ObserveOneMore(f.mem.status, first, seen, f.pc.st);
  }

  lemma DoFollows(p: Plane, f: CP.CPFrame, s: CP.CPStep, first: ControlPlaneStatus, log: Log<ClusterStatus>)
    requires p.inFlight == Some(f) && CP.CPGuard(f, s) && Frames.ModeInv(f.mem, f.pc) && PlaneFollows(p, first, log)
    ensures PlaneFollows(PlaneEffect(p, f, s).(inFlight := Some(CP.CPNext(f, s))), first, LogPlane(p, Do(s), log))
  {
    if s == CP.Cluster(CP.ObserveStatus) {
      ObservationFollows(f, first, log.held);
    } else {
      OthersSpareReady(f, s);
    }
  }

  lemma PlaneStepFollows(p: Plane, c: Cloud, labelled: nat, move: PlaneMove, first: ControlPlaneStatus, log: Log<ClusterStatus>)
    requires PlaneEnabled(p, c, labelled, move) && PlaneFollows(p, first, log)
    requires p.inFlight.Some? ==> Frames.ModeInv(p.inFlight.value.mem, p.inFlight.value.pc)
    ensures PlaneFollows(PlaneAfter(p, c, labelled, move), first, LogPlane(p, move, log))
  {
    match move
    case Do(s) => DoFollows(p, p.inFlight.value, s, first, log);
    case _ =>
  }

  lemma {:induction false} StatusFollowsObservations(start: World, steps: seq<Step>, w: World)
    requires Reachable(start, steps, w)
    ensures PlaneFollows(w.plane, start.plane.obj.status, Observed(start, steps))
    decreases |steps|
  {
    if steps != [] {
      var n := |steps| - 1;
      var before := Run(start, steps[..n]).value;
      StatusFollowsObservations(start, steps[..n], before);
      match steps[n]
      case ByPlane(move) =>
        if before.plane.inFlight.Some? {
          FrameHolds(start, steps[..n], before);
        }
        PlaneStepFollows(before.plane, before.cloud, |Labelled(before.fleet)|, move, start.plane.obj.status, Observed(start, steps[..n]));
      case _ =>
    }
  }

  /** In every run, the persisted Ready says that the last recognised phase that was observed and saved was
      Available or Upgrading, and the persisted FailureMessage that the last Available or Unavailable one was
      Unavailable. */
  lemma ReadyIsLastSavedPhase(start: World, steps: seq<Step>, w: World, i: int, j: int)
    requires Reachable(start, steps, w)
    requires LastAmong(Observed(start, steps).saved, {Creating, Available, Unavailable, Upgrading, Deleting}, i)
    requires LastAmong(Observed(start, steps).saved, {Available, Unavailable}, j)
    ensures var seen, status := Observed(start, steps).saved, w.plane.obj.status;
            && (status.ready <==> i >= 0 && (seen[i].phase == Available || seen[i].phase == Upgrading))
            && status.failure == if j >= 0 && seen[j].phase == Unavailable
                                 then Some("CCE cluster in unexpected " + seen[j].reason + " reason. " + seen[j].message) else None
  {
    StatusFollowsObservations(start, steps, w);
    ReadyFollowsLastRecognised(start.plane.obj.status, Observed(start, steps).saved, i);
    FailureFollowsLastDecisive(start.plane.obj.status, Observed(start, steps).saved, j);
  }

  // ---------------------------------------------------------------- pools

  function LogPool(f: Option<NP.PoolFrame>, move: PoolMove, log: Log<NodepoolPhase>): Log<NodepoolPhase>
    requires move.DoPool? && move.ps == NP.Nodepool(NP.ObserveStatus) ==> f.Some? && f.value.pc.AtStatus?
  {
    match move
    case DoPool(Nodepool(ObserveStatus)) => log.(held := log.held + [f.value.pc.st.phase])
    case DoPool(Common(Patch(saved))) => if saved then log.(saved := log.held) else log
    case ClosePool(saved) => if saved then log.(saved := log.held) else log.(held := log.saved)
    case CrashPool => log.(held := log.saved)
    case LeavePool => log.(held := log.saved)
    case _ => log
  }

  function FrameOf(fl: Fleet, key: Key): Option<NP.PoolFrame> {
    if key in fl.inFlight then Some(fl.inFlight[key]) else None
  }

  /** The phases that the pool's reconciles have observed in the run. */
  function PoolObserved(start: World, steps: seq<Step>, key: Key): Log<NodepoolPhase>
    requires Run(start, steps).Some?
    decreases |steps|
  {
    if steps == [] then Log([], [])
    else
      var n := |steps| - 1;
      var log := PoolObserved(start, steps[..n], key);
      match steps[n]
      case ByPool(k, move) => if k == key then LogPool(FrameOf(Run(start, steps[..n]).value.fleet, key), move, log) else log
      case _ => log
  }

  const NEW_POOL := EmptyPool(false)

  predicate PoolFollows(m: Pool, seen: seq<NodepoolPhase>) {
    m.ready == ObservePoolAll(NEW_POOL, seen).ready && m.failure == ObservePoolAll(NEW_POOL, seen).failure
  }

  lemma ObservePoolOneMore(m: Pool, seen: seq<NodepoolPhase>, phase: NodepoolPhase)
    requires PoolFollows(m, seen)
    ensures PoolFollows(ObservePool(m, phase), seen + [phase])
  {
    assert (seen + [phase])[..|seen|] == seen;
  }

  /** One pool, persisted and in flight; a pool that was not made yet has seen nothing. */
  predicate LogFits(held: Option<Pool>, f: Option<NP.PoolFrame>, log: Log<NodepoolPhase>) {
    && log.saved <= log.held && (f.None? ==> log.held == log.saved)
    && (held.Some? ==> PoolFollows(held.value, log.saved))
    && (f.Some? ==> PoolFollows(f.value.mem, log.held))
  }

  predicate FleetFollows(fl: Fleet, key: Key, log: Log<NodepoolPhase>) {
    && LogFits(HeldIn(fl, key), FrameOf(fl, key), log)
    && (key !in fl.hist.keys ==> log == Log([], []))
  }

  lemma OthersSparePoolReady(f: NP.PoolFrame, s: NP.PoolStep)
    requires NP.PoolGuard(f, s) && s != NP.Nodepool(NP.ObserveStatus)
    ensures NP.PoolNext(f, s).mem.ready == f.mem.ready && NP.PoolNext(f, s).mem.failure == f.mem.failure
  {
  }

  lemma DoPoolFollows(held: Option<Pool>, f: NP.PoolFrame, s: NP.PoolStep, log: Log<NodepoolPhase>)
    requires NP.PoolGuard(f, s) && LogFits(held, Some(f), log)
    ensures LogFits(HeldAfter(held, f, s), Some(NP.PoolNext(f, s)), LogPool(Some(f), DoPool(s), log))
  {
    if s == NP.Nodepool(NP.ObserveStatus) {
      ObservePoolOneMore(f.mem, log.held, f.pc.st.phase);
    } else {
      OthersSparePoolReady(f, s);
    }
  }

  lemma PoolStepFollows(p: Plane, fl: Fleet, c: Cloud, key: Key, move: PoolMove, log: Log<NodepoolPhase>)
    requires PoolEnabled(p, fl, c, key, move) && FleetFollows(fl, key, log) && KeysKnown(fl)
    ensures FleetFollows(FleetAfter(p, fl, c, key, move), key, LogPool(FrameOf(fl, key), move, log))
  {
    match move
    case DoPool(s) => DoPoolFollows(HeldIn(fl, key), fl.inFlight[key], s, log);
    case _ =>
  }

  /** The reconciles of other pools leave the pool alone. */
  lemma OthersSparePool(p: Plane, fl: Fleet, c: Cloud, k: Key, move: PoolMove, key: Key)
    requires PoolEnabled(p, fl, c, k, move) && k != key
    ensures var fl' := FleetAfter(p, fl, c, k, move);
            HeldIn(fl', key) == HeldIn(fl, key) && FrameOf(fl', key) == FrameOf(fl, key) && fl'.hist.keys == fl.hist.keys
  {
  }

  lemma UserSparesFollows(p: Plane, fl: Fleet, u: UserStep, key: Key, log: Log<NodepoolPhase>)
    requires UserEnabled(p, fl, u) && FleetFollows(fl, key, log) && KeysKnown(fl)
    ensures FleetFollows(FleetAfterUser(p, fl, u), key, log)
  {
  }

  lemma FleetStepFollows(w: World, s: Step, key: Key, log: Log<NodepoolPhase>)
    requires Enabled(w, s) && FleetFollows(w.fleet, key, log) && KeysKnown(w.fleet)
    ensures FleetFollows(Apply(w, s).fleet, key,
                         if s.ByPool? && s.key == key then LogPool(FrameOf(w.fleet, key), s.pool, log) else log)
  {
    match s
    case User(u) => UserSparesFollows(w.plane, w.fleet, u, key, log);
    case ByPool(k, move) =>
      if k == key {
        PoolStepFollows(w.plane, w.fleet, w.cloud, key, move, log);
      } else {
        OthersSparePool(w.plane, w.fleet, w.cloud, k, move, key);
      }
    case _ =>
  }

  lemma {:induction false} PoolFollowsObservations(start: World, steps: seq<Step>, w: World, key: Key)
    requires Reachable(start, steps, w)
    ensures FleetFollows(w.fleet, key, PoolObserved(start, steps, key))
    decreases |steps|
  {
    if steps != [] {
      var n := |steps| - 1;
      var before := Run(start, steps[..n]).value;
      PoolFollowsObservations(start, steps[..n], before, key);
      SystemHolds(start, steps[..n], before);
      FleetStepFollows(before, steps[n], key, PoolObserved(start, steps[..n], key));
    }
  }

  /** The same for a pool: its persisted Ready says that the last recognised phase that was observed and saved
      was the empty one, and FailureMessage that the last of the empty one, Error and SoldOut was not. */
  lemma PoolReadyIsLastSavedPhase(start: World, steps: seq<Step>, w: World, key: Key, i: int, j: int)
    requires Reachable(start, steps, w) && key in w.fleet.pools
    requires LastPhaseAmong(PoolObserved(start, steps, key).saved, {NpActive, NpSynchronizing, NpSynchronized, NpDeleting, NpError, NpSoldOut}, i)
    requires LastPhaseAmong(PoolObserved(start, steps, key).saved, {NpActive, NpError, NpSoldOut}, j)
    ensures var seen, pool := PoolObserved(start, steps, key).saved, w.fleet.pools[key];
            && (pool.ready <==> i >= 0 && seen[i] == NpActive)
            && pool.failure == if j >= 0 && seen[j] != NpActive
                               then Some("CCE nodeppol in failed " + (if seen[j] == NpError then "Error" else "SoldOut") + " status") else None
  {
    PoolFollowsObservations(start, steps, w, key);
    PoolReadyFollowsLastRecognised(NEW_POOL, PoolObserved(start, steps, key).saved, i);
    PoolFailureFollowsLastDecisive(NEW_POOL, PoolObserved(start, steps, key).saved, j);
  }
}
