/** How an observed phase changes the status of a control plane and of a pool, and what a whole
    sequence of observations amounts to. */
module StatusRules {
  import opened Types

  // ---------------------------------------------------------------- control plane

  predicate Recognised(phase: ClusterPhase) {
    !phase.OtherPhase?
  }

  function FailureText(st: ClusterStatus): string {
    "CCE cluster in unexpected " + st.reason + " reason. " + st.message
  }

  function Settle(conds: Conditions, c: ConditionType, reason: Reason): Conditions {
    if IsTrue(conds, c) then conds[c := Condition(false, reason)] else conds
  }

  /** The switch of setStatus for clusters; an unrecognised phase changes nothing (and is an error). */
  function Observe(s: ControlPlaneStatus, st: ClusterStatus): ControlPlaneStatus {
    match st.phase
    case Deleting => s.(ready := false)
    case Unavailable => s.(ready := false, failure := Some(FailureText(st)))
    case Available =>
      var settled := Settle(Settle(s.conds, ControlPlaneCreating, CreatedReason), ControlPlaneUpdating, UpdatedReason);
      s.(ready := true, failure := None, conds := settled)
    case Creating => s.(ready := false)
    case Upgrading => s.(ready := true)
    case OtherPhase(_) => s
  }

  /** Whether observing `st` emits the creation event. */
  predicate Announces(s: ControlPlaneStatus, st: ClusterStatus) {
    st.phase == Available && IsTrue(s.conds, ControlPlaneCreating)
  }

  function ObserveAll(s: ControlPlaneStatus, seen: seq<ClusterStatus>): ControlPlaneStatus {
    if seen == [] then s else Observe(ObserveAll(s, seen[..|seen| - 1]), seen[|seen| - 1])
  }

  /** i is the position of the last element of `seen` whose phase is in `phases`, or -1 when there is none. */
  predicate LastAmong(seen: seq<ClusterStatus>, phases: set<ClusterPhase>, i: int) {
    && -1 <= i < |seen|
    && (i >= 0 ==> seen[i].phase in phases)
    && (forall j :: i < j < |seen| ==> seen[j].phase !in phases)
  }

  /** Ready says that the last recognised phase was Available or Upgrading. */
  lemma {:induction false} ReadyFollowsLastRecognised(s: ControlPlaneStatus, seen: seq<ClusterStatus>, i: int)
    requires LastAmong(seen, {Creating, Available, Unavailable, Upgrading, Deleting}, i)
    ensures ObserveAll(s, seen).ready <==> if i >= 0 then seen[i].phase == Available || seen[i].phase == Upgrading else s.ready
  {
    var n := |seen| - 1;
    if i < n {
      ReadyFollowsLastRecognised(s, seen[..n], i);
    }
  }

  /** FailureMessage is set exactly when the last Available-or-Unavailable phase was Unavailable,
      and carries that observation's reason and message. */
  lemma {:induction false} FailureFollowsLastDecisive(s: ControlPlaneStatus, seen: seq<ClusterStatus>, i: int)
    requires LastAmong(seen, {Available, Unavailable}, i)
    ensures ObserveAll(s, seen).failure ==
            if i < 0 then s.failure
            else if seen[i].phase == Unavailable then Some("CCE cluster in unexpected " + seen[i].reason + " reason. " + seen[i].message)
            else None
  {
    var n := |seen| - 1;
    if i < n {
      FailureFollowsLastDecisive(s, seen[..n], i);
    }
  }

  /** A True Creating condition stays until the cluster is observed Available, and then is False with reason
      "created"; the same holds for Updating and "updated", and no other condition changes. */
  lemma {:induction false} AvailableSettles(s: ControlPlaneStatus, seen: seq<ClusterStatus>, c: ConditionType)
    ensures var before, after := s.conds, ObserveAll(s, seen).conds;
            if (c == ControlPlaneCreating || c == ControlPlaneUpdating) && c in before && before[c].status
               && exists i :: 0 <= i < |seen| && seen[i].phase == Available
            then c in after && after[c] == Condition(false, if c == ControlPlaneCreating then CreatedReason else UpdatedReason)
            else (c in after <==> c in before) && (c in before ==> after[c] == before[c])
  {
    var n := |seen| - 1;
    if n >= 0 {
      AvailableSettles(s, seen[..n], c);
      assert forall i :: 0 <= i < n ==> seen[..n][i] == seen[i];
    }
  }

  // ---------------------------------------------------------------- node pool

  function PoolFailureText(phase: NodepoolPhase): string {
    "CCE nodeppol in failed " + (if phase == NpError then "Error" else "SoldOut") + " status"
  }

  /** The switch of setStatus for node pools; a phase it does not know changes nothing. */
  function ObservePool(p: Pool, phase: NodepoolPhase): Pool {
    match phase
    case NpDeleting => p.(ready := false)
    case NpError => p.(ready := false, failure := Some(PoolFailureText(phase)))
    case NpSoldOut => p.(ready := false, failure := Some(PoolFailureText(phase)))
    case NpSynchronizing => p.(ready := false)
    case NpSynchronized => p.(ready := false)
    case NpActive => p.(ready := true, failure := None)
    case NpOther(_) => p
  }

  function ObservePoolAll(p: Pool, seen: seq<NodepoolPhase>): Pool {
    if seen == [] then p else ObservePool(ObservePoolAll(p, seen[..|seen| - 1]), seen[|seen| - 1])
  }

  predicate LastPhaseAmong(seen: seq<NodepoolPhase>, phases: set<NodepoolPhase>, i: int) {
    && -1 <= i < |seen|
    && (i >= 0 ==> seen[i] in phases)
    && (forall j :: i < j < |seen| ==> seen[j] !in phases)
  }

  /** A pool's Ready says that the last recognised phase was the empty one. */
  lemma {:induction false} PoolReadyFollowsLastRecognised(p: Pool, seen: seq<NodepoolPhase>, i: int)
    requires LastPhaseAmong(seen, {NpActive, NpSynchronizing, NpSynchronized, NpDeleting, NpError, NpSoldOut}, i)
    ensures ObservePoolAll(p, seen).ready <==> if i >= 0 then seen[i] == NpActive else p.ready
  {
    var n := |seen| - 1;
    if i < n {
      PoolReadyFollowsLastRecognised(p, seen[..n], i);
    }
  }

  /** A pool's FailureMessage is set exactly when the last of the empty, Error and SoldOut phases
      was not the empty one. */
  lemma {:induction false} PoolFailureFollowsLastDecisive(p: Pool, seen: seq<NodepoolPhase>, i: int)
    requires LastPhaseAmong(seen, {NpActive, NpError, NpSoldOut}, i)
    ensures ObservePoolAll(p, seen).failure ==
            if i < 0 then p.failure
            else if seen[i] == NpActive then None
            else Some("CCE nodeppol in failed " + (if seen[i] == NpError then "Error" else "SoldOut") + " status")
  {
    var n := |seen| - 1;
    if i < n {
      PoolFailureFollowsLastDecisive(p, seen[..n], i);
    }
  }
}
