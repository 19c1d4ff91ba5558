/** The waits as they show in the log of a whole reconcile: how many polls a wait makes before it is given up, and
    that what comes in time is not missed. */
module WaitLaws {
  import opened Types
  import opened Endings
  import opened Waiting
  import CP = ControlPlaneProgram
  import NP = PoolProgram

  // ---------------------------------------------------------------- control plane

  /** The n calls before place i are shows that do not meet the condition. */
  predicate Unmet(log: seq<CP.CPStep>, i: nat, n: nat, active: bool) {
    n <= i <= |log| && forall j :: i - n <= j < i ==> ClusterUnmet(log[j], active)
  }

  /** Wherever a wait was given up, exactly 40 polls have found the condition not met, since the status patch or
      the delete call before them. */
  predicate GivesUpRightly(log: seq<CP.CPStep>) {
    forall i :: 0 <= i < |log| && log[i] == CP.Cluster(CP.GiveUp) ==>
      i > 40 && (Unmet(log, i, 40, true) || Unmet(log, i, 40, false)) && Begins(log[i - 41])
  }

  /** The call that a wait follows. */
  predicate Begins(s: CP.CPStep) {
    s == CP.Common(CP.Patch(true)) || s == CP.Teardown(CP.DeleteCluster(Accepted))
  }

  /** A wait with `left` polls to go has made the others. */
  predicate Polled(log: seq<CP.CPStep>, left: nat, active: bool) {
    left <= 40 && |log| > 40 - left && Unmet(log, |log|, 40 - left, active) && Begins(log[|log| - 41 + left])
  }

  predicate Counted(log: seq<CP.CPStep>, pc: CP.Pc) {
    (pc.AtWait? ==> Polled(log, pc.left, true)) && (pc.AtDeleteWait? ==> Polled(log, pc.left, false))
  }

  lemma PollCounts(log: seq<CP.CPStep>, left: nat, s: CP.CPStep, active: bool)
    requires Polled(log, left, active) && left > 0 && ClusterUnmet(s, active)
    ensures Polled(log + [s], left - 1, active)
  {
    assert forall j :: |log| - (40 - left) <= j < |log| ==> (log + [s])[j] == log[j];
  }

  lemma GivingUpIsRight(log: seq<CP.CPStep>, active: bool)
    requires GivesUpRightly(log) && Polled(log, 0, active)
    ensures GivesUpRightly(log + [CP.Cluster(CP.GiveUp)])
  {
    var after := log + [CP.Cluster(CP.GiveUp)];
    assert Unmet(after, |log|, 40, active);
    OthersAreRight(log, after);
  }

  lemma OthersAreRight(log: seq<CP.CPStep>, after: seq<CP.CPStep>)
    requires GivesUpRightly(log) && log <= after
    ensures forall i :: 0 <= i < |log| && after[i] == CP.Cluster(CP.GiveUp) ==>
              i > 40 && (Unmet(after, i, 40, true) || Unmet(after, i, 40, false)) && Begins(after[i - 41])
  {
    forall i | 0 <= i < |log| && after[i] == CP.Cluster(CP.GiveUp)
      ensures i > 40 && (Unmet(after, i, 40, true) || Unmet(after, i, 40, false)) && Begins(after[i - 41])
    {
      assert log[i] == CP.Cluster(CP.GiveUp);
      assert Unmet(log, i, 40, true) ==> Unmet(after, i, 40, true);
      assert Unmet(log, i, 40, false) ==> Unmet(after, i, 40, false);
    }
  }

  lemma ShowCounts(log: seq<CP.CPStep>, f: CP.CPFrame, answer: Shown<ClusterInfo>)
    requires Counted(log, f.pc) && CP.ClusterGuard(f, CP.ShowCluster(answer))
    ensures Counted(log + [CP.Cluster(CP.ShowCluster(answer))], CP.AfterShow(f.pc, answer))
  {
    var s, pc := CP.Cluster(CP.ShowCluster(answer)), CP.AfterShow(f.pc, answer);
    if f.pc.AtWait? && pc.AtWait? {
      PollCounts(log, f.pc.left, s, true);
    } else if f.pc.AtDeleteWait? && pc.AtDeleteWait? {
      PollCounts(log, f.pc.left, s, false);
    }
  }

  lemma WaitBegins(log: seq<CP.CPStep>, s: CP.CPStep)
    requires Begins(s)
    ensures Polled(log + [s], 40, true) && Polled(log + [s], 40, false)
  {
  }

  lemma StepCounts(log: seq<CP.CPStep>, f: CP.CPFrame, s: CP.CPStep)
    requires GivesUpRightly(log) && Counted(log, f.pc) && CP.CPGuard(f, s)
    ensures GivesUpRightly(log + [s]) && Counted(log + [s], CP.Advance(f, s).1)
  {
    OthersAreRight(log, log + [s]);
    match s
    case Cluster(GiveUp) => GivingUpIsRight(log, f.pc.AtWait?);
    case Cluster(ShowCluster(answer)) => ShowCounts(log, f, answer);
    case _ =>
      if Begins(s) {
        WaitBegins(log, s);
      }
  }

  lemma {:induction false} CallsCount(log: seq<CP.CPStep>, f: CP.CPFrame, calls: seq<CP.CPStep>, g: CP.CPFrame)
    requires GivesUpRightly(log) && Counted(log, f.pc) && Makes(f, calls, g)
    ensures GivesUpRightly(log + calls)
    decreases |calls|
  {
    if calls == [] {
      assert log + calls == log;
    } else {
      StepCounts(log, f, calls[0]);
      CallsCount(log + [calls[0]], CP.CPNext(f, calls[0]), calls[1..], g);
      assert log + [calls[0]] + calls[1..] == log + calls;
    }
  }

  /** Whatever the answers are, a control-plane reconcile gives a wait up only after exactly 40 polls. */
  lemma GivesUpAfterForty(cp: ControlPlane, calls: seq<CP.CPStep>, g: CP.CPFrame)
    requires Makes(CP.CPOpened(cp), calls, g)
    ensures GivesUpRightly(calls)
  {
    CallsCount([], CP.CPOpened(cp), calls, g);
    assert [] + calls == calls;
  }

  function Shows(infos: seq<ClusterInfo>): seq<CP.CPStep> {
    if infos == [] then [] else [CP.Cluster(CP.ShowCluster(Found(infos[0])))] + Shows(infos[1..])
  }

  /** The last of these shows is the first that finds the cluster Available. */
  predicate TurnsAvailable(infos: seq<ClusterInfo>) {
    && |infos| > 0 && infos[|infos| - 1].status.phase == Available
    && forall i :: 0 <= i < |infos| - 1 ==> infos[i].status.phase != Available
  }

  lemma {:induction false} ShowsLead(f: CP.CPFrame, infos: seq<ClusterInfo>)
    requires f.pc.AtWait? && f.mem.clusterId != NO_ID && TurnsAvailable(infos) && |infos| <= f.pc.left
    ensures Makes(f, Shows(infos), f.(pc := CP.AtWaited))
    decreases |infos|
  {
    var s := CP.Cluster(CP.ShowCluster(Found(infos[0])));
    assert Shows(infos)[1..] == Shows(infos[1..]);
    if |infos| == 1 {
      assert Shows(infos[1..]) == [];
      assert CP.CPNext(f, s) == f.(pc := CP.AtWaited);
    } else {
      assert CP.CPNext(f, s) == f.(pc := CP.AtWait(f.pc.left - 1));
      ShowsLead(f.(pc := CP.AtWait(f.pc.left - 1)), infos[1..]);
    }
  }

  /** A cluster that is being created or upgraded, and that is shown Available at any of the first 40 polls, is not
      given up: the wait ends there, and a pass that has got only the hoped-for answers is still one. */
  lemma AvailableInTime(f: CP.CPFrame, infos: seq<ClusterInfo>)
    requires f.pc.AtStatusPatch? && !f.pc.again && (f.pc.phase == Creating || f.pc.phase == Upgrading) && f.mem.clusterId != NO_ID
    requires TurnsAvailable(infos) && |infos| <= 40
    ensures Makes(f, [CP.Common(CP.Patch(true))] + Shows(infos), f.(pc := CP.AtWaited))
  {
    var s := CP.Common(CP.Patch(true));
    assert ([s] + Shows(infos))[1..] == Shows(infos);
    ShowsLead(CP.CPNext(f, s), infos);
  }

  // ---------------------------------------------------------------- pools

  predicate PoolUnmet(log: seq<NP.PoolStep>, i: nat, n: nat, active: bool) {
    n <= i <= |log| && forall j :: i - n <= j < i ==> NodepoolUnmet(log[j], active)
  }

  /** Wherever a wait for a node pool was given up, exactly 40 polls have found the condition not met, since the
      status patch or the delete call before them. */
  predicate PoolGivesUpRightly(log: seq<NP.PoolStep>) {
    forall i :: 0 <= i < |log| && log[i] == NP.Nodepool(NP.GiveUp) ==>
      i > 40 && (PoolUnmet(log, i, 40, true) || PoolUnmet(log, i, 40, false)) && PoolBegins(log[i - 41])
  }

  predicate PoolBegins(s: NP.PoolStep) {
    s == NP.Common(NP.Patch(true)) || s == NP.Teardown(NP.DeleteNodepool(Accepted))
  }

  predicate PoolPolled(log: seq<NP.PoolStep>, left: nat, active: bool) {
    left <= 40 && |log| > 40 - left && PoolUnmet(log, |log|, 40 - left, active) && PoolBegins(log[|log| - 41 + left])
  }

  predicate PoolCounted(log: seq<NP.PoolStep>, pc: NP.PoolPc) {
    (pc.AtWait? ==> PoolPolled(log, pc.left, true)) && (pc.AtDeleteWait? ==> PoolPolled(log, pc.left, false))
  }

  lemma PoolPollCounts(log: seq<NP.PoolStep>, left: nat, s: NP.PoolStep, active: bool)
    requires PoolPolled(log, left, active) && left > 0 && NodepoolUnmet(s, active)
    ensures PoolPolled(log + [s], left - 1, active)
  {
    assert forall j :: |log| - (40 - left) <= j < |log| ==> (log + [s])[j] == log[j];
  }

  lemma PoolGivingUpIsRight(log: seq<NP.PoolStep>, active: bool)
    requires PoolGivesUpRightly(log) && PoolPolled(log, 0, active)
    ensures PoolGivesUpRightly(log + [NP.Nodepool(NP.GiveUp)])
  {
    var after := log + [NP.Nodepool(NP.GiveUp)];
    assert PoolUnmet(after, |log|, 40, active);
    OtherPoolStepsAreRight(log, after);
  }

  lemma OtherPoolStepsAreRight(log: seq<NP.PoolStep>, after: seq<NP.PoolStep>)
    requires PoolGivesUpRightly(log) && log <= after
    ensures forall i :: 0 <= i < |log| && after[i] == NP.Nodepool(NP.GiveUp) ==>
              i > 40 && (PoolUnmet(after, i, 40, true) || PoolUnmet(after, i, 40, false)) && PoolBegins(after[i - 41])
  {
    forall i | 0 <= i < |log| && after[i] == NP.Nodepool(NP.GiveUp)
      ensures i > 40 && (PoolUnmet(after, i, 40, true) || PoolUnmet(after, i, 40, false)) && PoolBegins(after[i - 41])
    {
      assert log[i] == NP.Nodepool(NP.GiveUp);
      assert PoolUnmet(log, i, 40, true) ==> PoolUnmet(after, i, 40, true);
      assert PoolUnmet(log, i, 40, false) ==> PoolUnmet(after, i, 40, false);
    }
  }

  lemma PoolStepCounts(log: seq<NP.PoolStep>, f: NP.PoolFrame, s: NP.PoolStep)
    requires PoolGivesUpRightly(log) && PoolCounted(log, f.pc) && NP.PoolGuard(f, s)
    ensures PoolGivesUpRightly(log + [s]) && PoolCounted(log + [s], NP.PoolNext(f, s).pc)
  {
    OtherPoolStepsAreRight(log, log + [s]);
    match s
    case Nodepool(GiveUp) => PoolGivingUpIsRight(log, f.pc.AtWait?);
    case Nodepool(ShowNodepool(answer)) =>
      if f.pc.AtWait? && NP.PoolNext(f, s).pc.AtWait? {
        PoolPollCounts(log, f.pc.left, s, true);
      } else if f.pc.AtDeleteWait? && NP.PoolNext(f, s).pc.AtDeleteWait? {
        PoolPollCounts(log, f.pc.left, s, false);
      }
    case _ =>
  }

  lemma {:induction false} PoolCallsCount(log: seq<NP.PoolStep>, f: NP.PoolFrame, calls: seq<NP.PoolStep>, g: NP.PoolFrame)
    requires PoolGivesUpRightly(log) && PoolCounted(log, f.pc) && PoolMakes(f, calls, g)
    ensures PoolGivesUpRightly(log + calls)
    decreases |calls|
  {
    if calls == [] {
      assert log + calls == log;
    } else {
      PoolStepCounts(log, f, calls[0]);
      PoolCallsCount(log + [calls[0]], NP.PoolNext(f, calls[0]), calls[1..], g);
      assert log + [calls[0]] + calls[1..] == log + calls;
    }
  }

  /** Whatever the answers are, a pool reconcile gives a wait up only after exactly 40 polls. */
  lemma PoolGivesUpAfterForty(p: Pool, calls: seq<NP.PoolStep>, g: NP.PoolFrame)
    requires PoolMakes(NP.PoolOpened(p), calls, g)
    ensures PoolGivesUpRightly(calls)
  {
    PoolCallsCount([], NP.PoolOpened(p), calls, g);
    assert [] + calls == calls;
  }

  function PoolShows(seen: seq<NodepoolStatus>): seq<NP.PoolStep> {
    if seen == [] then [] else [NP.Nodepool(NP.ShowNodepool(Found(seen[0])))] + PoolShows(seen[1..])
  }

  predicate TurnsActive(seen: seq<NodepoolStatus>) {
    && |seen| > 0 && seen[|seen| - 1].phase == NpActive
    && forall i :: 0 <= i < |seen| - 1 ==> seen[i].phase != NpActive
  }

  lemma {:induction false} PoolShowsLead(f: NP.PoolFrame, seen: seq<NodepoolStatus>)
    requires f.pc.AtWait? && TurnsActive(seen) && |seen| <= f.pc.left
    ensures PoolMakes(f, PoolShows(seen), f.(pc := NP.AtWaited))
    decreases |seen|
  {
    var s := NP.Nodepool(NP.ShowNodepool(Found(seen[0])));
    assert PoolShows(seen)[1..] == PoolShows(seen[1..]);
    if |seen| == 1 {
      assert PoolShows(seen[1..]) == [];
      assert NP.PoolNext(f, s) == f.(pc := NP.AtWaited);
    } else {
      assert NP.PoolNext(f, s) == f.(pc := NP.AtWait(f.pc.left - 1));
      PoolShowsLead(f.(pc := NP.AtWait(f.pc.left - 1)), seen[1..]);
    }
  }

  /** A node pool that is synchronizing or synchronized, and that is shown in the empty phase at any of the first 40
      polls, is not given up. */
  lemma ActiveInTime(f: NP.PoolFrame, seen: seq<NodepoolStatus>)
    requires f.pc.AtStatusPatch? && !f.pc.again && (f.pc.phase == NpSynchronizing || f.pc.phase == NpSynchronized)
    requires TurnsActive(seen) && |seen| <= 40
    ensures PoolMakes(f, [NP.Common(NP.Patch(true))] + PoolShows(seen), f.(pc := NP.AtWaited))
  {
    var s := NP.Common(NP.Patch(true));
    assert ([s] + PoolShows(seen))[1..] == PoolShows(seen);
    PoolShowsLead(NP.PoolNext(f, s), seen);
  }
}
