/** All invariants together, on every reachable state. */
module Runs {
  import opened Types
  import opened Protocol
  import opened Invariants
  import opened Leakage
  import opened Networks
  import opened PublicIps
  import opened Records
  import opened Fleets
  import opened FleetMoves
  import opened Dependencies
  import opened EndpointChoice
  import Frames = ControlPlaneFrames

  /** `users` is the subnet that the user chose, or the empty id. */
  predicate System(w: World, users: Id) {
    && Base(w.plane, w.cloud) && FrameOk(w.plane)
    && Accounted(w.plane, w.cloud)
    && NetworkInv(w.plane, w.cloud, users)
    && EipInv(w.plane, w.cloud) && LostEipsInv(w.plane)
    && RecordsInv(w.plane)
    && EndpointInv(w.plane, w.cloud)
    && MirrorInv(w.plane, w.mirror)
    && FleetInv(w.plane, w.fleet, w.cloud)
    && DependenciesInv(w.plane, w.fleet)
  }

  lemma SystemInit(w: World)
    requires Init(w)
    ensures System(w, w.plane.obj.spec.subnetId)
  {
    BaseInit(w.plane, w.cloud);
  }

  lemma SystemKept(w: World, s: Step, users: Id)
    requires System(w, users) && Enabled(w, s)
    ensures System(Apply(w, s), users)
  {
    BaseKept(w, s);
    AccountedKept(w, s);
    NetworkKept(w, s, users);
    EipKept(w, s);
    LostEipsKept(w, s);
    RecordsKept(w, s);
    EndpointKept(w, s);
    MirrorKept(w, s);
    FleetKept(w, s);
    DependenciesKept(w, s);
  }

  lemma {:induction false} SystemRuns(w: World, steps: seq<Step>, v: World, users: Id)
    requires System(w, users) && Run(w, steps) == Some(v)
    ensures System(v, users)
    decreases |steps|
  {
    if steps != [] {
      var before := Run(w, steps[..|steps| - 1]).value;
      SystemRuns(w, steps[..|steps| - 1], before, users);
      SystemKept(before, steps[|steps| - 1], users);
    }
  }

  /** Every state that the system can be in satisfies every invariant. */
  lemma SystemHolds(start: World, steps: seq<Step>, w: World)
    requires Reachable(start, steps, w)
    ensures System(w, start.plane.obj.spec.subnetId)
  {
    SystemInit(start);
    SystemRuns(start, steps, w, start.plane.obj.spec.subnetId);
  }

  /** What every run guarantees about a pool reconcile in flight. */
  lemma PoolFrameHolds(start: World, steps: seq<Step>, w: World, key: Key)
    requires Reachable(start, steps, w) && key in w.fleet.inFlight
    ensures FrameFits(w.plane, w.cloud, HeldIn(w.fleet, key), w.fleet.inFlight[key])
  {
    SystemHolds(start, steps, w);
  }

  /** What every run guarantees about a control-plane reconcile in flight. */
  lemma FrameHolds(start: World, steps: seq<Step>, w: World)
    requires Reachable(start, steps, w) && w.plane.inFlight.Some?
    ensures var f := w.plane.inFlight.value;
            Frames.FrameInv(f.mem, f.pc) && InFlightInv(w.plane, w.cloud, f.mem, f.pc)
  {
    SystemHolds(start, steps, w);
  }
}
