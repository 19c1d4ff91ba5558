/** nodepool.go. */
module NodepoolService {
  import opened Types
  import opened StatusRules
  import opened ProviderIds
  import opened Protocol
  import opened Environment
  import opened PoolScope
  import opened Waiting
  import opened ControlPlaneScope
  import NP = PoolProgram

  // ---------------------------------------------------------------- deletion

  lemma DeletionPlaces(f: NP.PoolFrame, answer: Shown<NodepoolStatus>)
    requires f.pc.AtDeleteShow?
    ensures NP.NodepoolAdvance(f, NP.ShowNodepool(answer)) == f.(pc := match answer
              case ShowFailed => NP.Closing(Errored)
              case Missing => NP.AtDeleteDone(false)
              case Found(_) => NP.AtDeleteMark)
  {
  }

  /** The last call of a deletion, when it worked: a 404, or a show that found no deletion going on. */
  predicate DeletionWorked(last: NP.PoolStep) {
    match last
    case Teardown(DeleteNodepool(removal)) => removal.NotFound?
    case Nodepool(ShowNodepool(answer)) => answer.Missing? || (answer.Found? && answer.value.phase != NpDeleting)
    case _ => false
  }

  /** The calls of the deletion begin with the delete; a 404 is a success and another error a failure, both
      without a wait; an accepted deletion is waited for, which decides. */
  predicate Deletes(before: seq<NP.PoolStep>, after: seq<NP.PoolStep>, ok: bool) {
    && before < after && after[|before|].Teardown? && after[|before|].teardown.DeleteNodepool?
    && match after[|before|].teardown.removal
       case NotFound => |after| == |before| + 1 && ok
       case RemovalFailed => |after| == |before| + 1 && !ok
       case Accepted => NodepoolWait(after[..|before| + 1], after, false, if ok then Success else Failure)
  }

  lemma LastCallDecides(before: seq<NP.PoolStep>, after: seq<NP.PoolStep>, ok: bool)
    requires Deletes(before, after, ok)
    ensures ok <==> DeletionWorked(after[|after| - 1])
  {
  }

  /** The DeleteNodePool call and the wait that follows it. */
  method CallDelete(scope: ManagedMachinePoolScope) returns (ok: bool)
    requires scope.At(NP.AtDeleteCall)
    modifies scope.env
    ensures scope.At(NP.AtDeleteReport(ok)) && old(scope.env.trace) <= scope.env.trace
    ensures Deletes(old(scope.env.PoolCalls(scope.key)), scope.env.PoolCalls(scope.key), ok)
  {
    var removal := scope.env.DeleteNodepool(scope.key);
    match removal {
      case RemovalFailed => return false;
      case NotFound => return true;
      case Accepted =>
        ghost var c := NodepoolIsDeleted(scope.key);
        ghost var log := LogOf(scope.env, c);
        ghost var polls;
        var r;
        r, polls := WaitUntil(scope.env, NodepoolIsDeleted(scope.key), MAX_POLLS);
        NodepoolWaitEnds(scope.key, false, log, LogOf(scope.env, c), polls, r);
        assert scope.env.PoolCalls(scope.key)[..|log.pool|] == log.pool;
        return r.Success?;
    }
  }

  /** The deletion, and its report: the condition is False with reason Deleted exactly when the deletion worked,
      else with reason DeletingFailed, and it is patched. */
  predicate Reports(before: seq<NP.PoolStep>, after: seq<NP.PoolStep>, cond: Option<Types.Condition>, ok: bool) {
    var n := |after| - 2;
    && n > 0 && after[n] == NP.Teardown(NP.ReportDeletion) && after[n + 1].Common? && after[n + 1].common.Patch?
    && var deleted := DeletionWorked(after[n - 1]);
       && Deletes(before, after[..n], deleted)
       && cond == Some(Types.Condition(false, if deleted then DeletedReason else DeletingFailedReason))
       && (ok <==> deleted && after[n + 1].common.saved)
  }

  lemma CallsReport(before: seq<NP.PoolStep>, log: seq<NP.PoolStep>, deleted: bool, saved: bool)
    requires Deletes(before, log, deleted)
    ensures Reports(before, log + [MarkStep(ReportReason(deleted))] + [NP.Common(NP.Patch(saved))],
                    Some(Types.Condition(false, ReportReason(deleted))), deleted && saved)
  {
    LastCallDecides(before, log, deleted);
    assert (log + [MarkStep(ReportReason(deleted))] + [NP.Common(NP.Patch(saved))])[..|log|] == log;
  }

  /** The whole of deleteNodepoolAndWait: the deletion is announced with reason Deleting, and begins only when
      that has been patched. */
  predicate AnnouncesAndDeletes(before: seq<NP.PoolStep>, after: seq<NP.PoolStep>, cond: Option<Types.Condition>, ok: bool) {
    var announced := before + [NP.Teardown(NP.MarkDeleting)];
    if after == announced + [NP.Common(NP.Patch(false))] then !ok && cond == Some(Types.Condition(false, DeletingReason))
    else Reports(announced + [NP.Common(NP.Patch(true))], after, cond, ok)
  }

  lemma ReportPlaces(deleted: bool, saved: bool)
    ensures BeforeMark(ReportReason(deleted), deleted) == NP.AtDeleteReport(deleted)
    ensures NP.AfterPatch(MarkPatch(ReportReason(deleted), deleted), saved) ==
            if deleted && saved then NP.AtDeleteDone(true) else NP.Closing(Errored)
  {
  }

  /** The rest of deleteNodepoolAndWait, with its deferred report. */
  method DeleteAndReport(scope: ManagedMachinePoolScope) returns (ok: bool)
    requires scope.At(NP.AtDeleteCall)
    modifies scope.env, scope.managedMachinePool
    ensures scope.At(if ok then NP.AtDeleteDone(true) else NP.Closing(Errored)) && old(scope.env.trace) <= scope.env.trace
    ensures scope.managedMachinePool.Value() == old(scope.managedMachinePool.Value()).(cond := scope.managedMachinePool.cond)
    ensures Reports(old(scope.env.PoolCalls(scope.key)), scope.env.PoolCalls(scope.key), scope.managedMachinePool.cond, ok)
    ensures ok ==> scope.managedMachinePool.cond == Some(Types.Condition(false, DeletedReason)) && scope.Persisted()
  {
    ghost var before := scope.env.PoolCalls(scope.key);
    var deleted := CallDelete(scope);
    ghost var log := scope.env.PoolCalls(scope.key);
    ReportPlaces(deleted, true);
    ReportPlaces(deleted, false);
    var reported := scope.NodepoolReadyFalse(ReportReason(deleted), deleted);
    CallsReport(before, log, deleted, reported);
    return deleted && reported;
  }

  /** Success means that the condition is False with reason Deleted, in memory and persisted. Every failure, also
      one of the deferred patch, leaves the finalizer as before, and the condition False with the reason for the
      point at which the deletion failed. */
  method DeleteNodepoolAndWait(scope: ManagedMachinePoolScope) returns (ok: bool)
    requires scope.At(NP.AtDeleteMark)
    modifies scope.env, scope.managedMachinePool
    ensures scope.At(if ok then NP.AtDeleteDone(true) else NP.Closing(Errored)) && old(scope.env.trace) <= scope.env.trace
    ensures scope.managedMachinePool.Value() == old(scope.managedMachinePool.Value()).(cond := scope.managedMachinePool.cond)
    ensures AnnouncesAndDeletes(old(scope.env.PoolCalls(scope.key)), scope.env.PoolCalls(scope.key), scope.managedMachinePool.cond, ok)
    ensures ok ==> scope.managedMachinePool.cond == Some(Types.Condition(false, DeletedReason)) && scope.Persisted()
  {
    ghost var before := scope.env.PoolCalls(scope.key);
    ok := scope.NodepoolReadyFalse(DeletingReason, false);
    if ok {
      ok := DeleteAndReport(scope);
      ReportsFollow(before, scope.env.PoolCalls(scope.key), scope.managedMachinePool.cond, ok);
    }
  }

  lemma ReportsFollow(before: seq<NP.PoolStep>, after: seq<NP.PoolStep>, cond: Option<Types.Condition>, ok: bool)
    requires Reports(before + [NP.Teardown(NP.MarkDeleting)] + [NP.Common(NP.Patch(true))], after, cond, ok)
    ensures AnnouncesAndDeletes(before, after, cond, ok)
  {
    var begun := before + [NP.Teardown(NP.MarkDeleting)] + [NP.Common(NP.Patch(true))];
    assert begun <= after;
    assert after[|before| + 1] == NP.Common(NP.Patch(true));
  }

  /** The calls of ReconcilePoolDelete: a show, whose 404 is a success without a delete call. */
  predicate ShowsAndDeletes(before: seq<NP.PoolStep>, after: seq<NP.PoolStep>, cond: Option<Types.Condition>, ok: bool) {
    && before < after && after[|before|].Nodepool? && after[|before|].nodepool.ShowNodepool?
    && match after[|before|].nodepool.answer
       case Missing => |after| == |before| + 1 && ok
       case ShowFailed => |after| == |before| + 1 && !ok
       case Found(_) => AnnouncesAndDeletes(after[..|before| + 1], after, cond, ok)
  }

  /** Success means that the node pool is gone. */
  method ReconcilePoolDelete(scope: ManagedMachinePoolScope) returns (ok: bool)
    requires scope.At(NP.AtDeleteShow)
    modifies scope.env, scope.managedMachinePool
    ensures scope.Synced() && old(scope.env.trace) <= scope.env.trace
    ensures if ok then scope.env.PoolFrame(scope.key).pc.AtDeleteDone? else scope.env.PoolFrame(scope.key).pc == NP.Closing(Errored)
    ensures scope.managedMachinePool.Value() == old(scope.managedMachinePool.Value()).(cond := scope.managedMachinePool.cond)
    ensures ok ==> scope.InfraMachinePoolID() !in scope.env.world.cloud.nodepools
    ensures ok && scope.env.PoolFrame(scope.key).pc.reported ==>
              scope.managedMachinePool.cond == Some(Types.Condition(false, DeletedReason)) && scope.Persisted()
    ensures ShowsAndDeletes(old(scope.env.PoolCalls(scope.key)), scope.env.PoolCalls(scope.key), scope.managedMachinePool.cond, ok)
  {
    ok := ShowAndDelete(scope);
    if ok {
      PoolFrameFacts(scope.env.start, scope.env.trace, scope.env.world, scope.key);
    }
  }

  /** ReconcilePoolDelete by its calls. */
  method ShowAndDelete(scope: ManagedMachinePoolScope) returns (ok: bool)
    requires scope.At(NP.AtDeleteShow)
    modifies scope.env, scope.managedMachinePool
    ensures scope.Synced() && old(scope.env.trace) <= scope.env.trace
    ensures if ok then scope.env.PoolFrame(scope.key).pc.AtDeleteDone? else scope.env.PoolFrame(scope.key).pc == NP.Closing(Errored)
    ensures scope.managedMachinePool.Value() == old(scope.managedMachinePool.Value()).(cond := scope.managedMachinePool.cond)
    ensures ok && scope.env.PoolFrame(scope.key).pc.reported ==>
              scope.managedMachinePool.cond == Some(Types.Condition(false, DeletedReason)) && scope.Persisted()
    ensures ShowsAndDeletes(old(scope.env.PoolCalls(scope.key)), scope.env.PoolCalls(scope.key), scope.managedMachinePool.cond, ok)
  {
    ghost var f, before := scope.env.PoolFrame(scope.key), scope.env.PoolCalls(scope.key);
    var np := scope.env.ShowNodepool(scope.key);
    DeletionPlaces(f, np);
    if np.ShowFailed? {
      return false;
    }
    ok := true;
    if np.Found? {
      ok := DeleteNodepoolAndWait(scope);
      ShowLeads(before, np.value, scope.env.PoolCalls(scope.key), scope.managedMachinePool.cond, ok);
    }
  }

  lemma ShowLeads(before: seq<NP.PoolStep>, np: NodepoolStatus, after: seq<NP.PoolStep>, cond: Option<Types.Condition>, ok: bool)
    requires AnnouncesAndDeletes(before + [NP.Nodepool(NP.ShowNodepool(Found(np)))], after, cond, ok)
    ensures ShowsAndDeletes(before, after, cond, ok)
  {
    var shown := before + [NP.Nodepool(NP.ShowNodepool(Found(np)))];
    assert shown <= after;
    assert after[..|before| + 1] == shown;
  }

  // ---------------------------------------------------------------- reconcileNodepool

  lemma ReconcilePlaces(f: NP.PoolFrame, answer: Shown<NodepoolStatus>)
    ensures f.pc == NP.AtReconcile && f.mem.poolId != NO_ID ==> NP.NodepoolAdvance(f, NP.ShowNodepool(answer)) == f.(pc := match answer
              case ShowFailed => NP.AtFailing
              case Missing => NP.AtCreate
              case Found(st) => NP.AtStatus(st, false))
    ensures f.pc == NP.AtWaited ==> NP.NodepoolAdvance(f, NP.ShowNodepool(answer)) == f.(pc := match answer
              case ShowFailed => NP.AtFailing
              case Missing => NP.Closing(Panicked)
              case Found(st) => NP.AtStatus(st, true))
  {
  }

  /** The calls of the start of reconcileNodepool, and the id recorded afterwards: without a recorded id a create;
      else a show, and a create exactly after a 404. */
  predicate FindsOrCreates(before: seq<NP.PoolStep>, after: seq<NP.PoolStep>, id: Id, np: Option<NodepoolStatus>, id': Id) {
    var n := |before|;
    && before < after
    && if id == NO_ID then |after| == n + 1 && Creates(after[n], np, id, id')
       else
         && after[n].Nodepool? && after[n].nodepool.ShowNodepool?
         && match after[n].nodepool.answer
            case Found(st) => |after| == n + 1 && np == Some(st) && id' == id
            case ShowFailed => |after| == n + 1 && np.None? && id' == id
            case Missing => |after| == n + 2 && Creates(after[n + 1], np, id, id')
  }

  /** A create call whose answer is np; the id of a node pool that was made is recorded. */
  predicate Creates(s: NP.PoolStep, np: Option<NodepoolStatus>, id: Id, id': Id) {
    && s.Nodepool? && s.nodepool.CreateNodepool?
    && if s.nodepool.made.Done? then np == Some(s.nodepool.made.value) && id' == s.nodepool.made.id else np.None? && id' == id
  }

  lemma CreatePlaces(f: NP.PoolFrame, made: Made<NodepoolStatus>)
    requires NP.NodepoolGuard(f, NP.CreateNodepool(made))
    ensures NP.NodepoolAdvance(f, NP.CreateNodepool(made)) ==
            if made.Done? then f.(mem := f.mem.(poolId := made.id), pc := NP.AtStatus(made.value, false)) else f.(pc := NP.AtFailing)
  {
  }

  /** The create call, with its id recorded. */
  method CreateNodepool(scope: ManagedMachinePoolScope) returns (np: Option<NodepoolStatus>)
    requires scope.Synced() && NP.NodepoolGuard(scope.env.PoolFrame(scope.key), NP.CreateNodepool(MakeFailed))
    modifies scope.env, scope.managedMachinePool
    ensures scope.At(if np.Some? then NP.AtStatus(np.value, false) else NP.AtFailing)
    ensures scope.Cluster() == old(scope.Cluster()) && old(scope.env.trace) <= scope.env.trace
    ensures scope.managedMachinePool.Value() == old(scope.managedMachinePool.Value()).(poolId := scope.InfraMachinePoolID())
    ensures np.Some? ==> scope.InfraMachinePoolID() != NO_ID
    ensures var before, after := old(scope.env.PoolCalls(scope.key)), scope.env.PoolCalls(scope.key);
            |after| == |before| + 1 && before <= after
            && Creates(after[|before|], np, old(scope.InfraMachinePoolID()), scope.InfraMachinePoolID())
  {
    ghost var f := scope.env.PoolFrame(scope.key);
    var made := scope.env.CreateNodepool(scope.key);
    CreatePlaces(f, made);
    if !made.Done? {
      return None;
    }
    scope.SetInfraMachinePoolID(made.id);
    return Some(made.value);
  }

  /** The recorded node pool, or a new one when none is recorded or it is gone. */
  method FindOrCreate(scope: ManagedMachinePoolScope) returns (np: Option<NodepoolStatus>)
    requires scope.At(NP.AtReconcile)
    modifies scope.env, scope.managedMachinePool
    ensures scope.At(if np.Some? then NP.AtStatus(np.value, false) else NP.AtFailing)
    ensures scope.Cluster() == old(scope.Cluster()) && old(scope.env.trace) <= scope.env.trace
    ensures scope.managedMachinePool.Value() == old(scope.managedMachinePool.Value()).(poolId := scope.InfraMachinePoolID())
    ensures np.Some? ==> scope.InfraMachinePoolID() != NO_ID
    ensures FindsOrCreates(old(scope.env.PoolCalls(scope.key)), scope.env.PoolCalls(scope.key), old(scope.InfraMachinePoolID()), np, scope.InfraMachinePoolID())
  {
    if scope.InfraMachinePoolID() != NO_ID {
      ghost var f := scope.env.PoolFrame(scope.key);
      var answer := scope.env.ShowNodepool(scope.key);
      ReconcilePlaces(f, answer);
      if answer.ShowFailed? {
        return None;
      }
      if answer.Found? {
        return Some(answer.value);
      }
    }
    np := CreateNodepool(scope);
  }

  /** The switch of setStatus on the object in memory. */
  method ApplyPhase(scope: ManagedMachinePoolScope, phase: NodepoolPhase)
    modifies scope.managedMachinePool
    ensures scope.managedMachinePool.Value() == ObservePool(old(scope.managedMachinePool.Value()), phase)
  {
    var pool := scope.managedMachinePool;
    match phase {
      case NpDeleting =>
        pool.ready := false;
      case NpError =>
        pool.ready := false;
        pool.failure := Some(PoolFailureText(phase));
      case NpSoldOut =>
        pool.ready := false;
        pool.failure := Some(PoolFailureText(phase));
      case NpSynchronizing =>
        pool.ready := false;
      case NpSynchronized =>
        pool.ready := false;
      case NpActive =>
        pool.ready := true;
        pool.failure := None;
      case NpOther(_) =>
    }
  }

  /** A pool after its provider ids were rebuilt from a node list. */
  function Refreshed(m: Pool, st: NodepoolStatus, nodes: seq<Node>): Pool {
    m.(providerIds := Index(nodes, m.poolId), replicas := st.currentNode.GetOr(0))
  }

  lemma ObservePlaces(f: NP.PoolFrame)
    requires f.pc.AtStatus?
    ensures var m := ObservePool(f.mem, f.pc.st.phase);
            NP.NodepoolAdvance(f, NP.ObserveStatus) == f.(mem := m, pc :=
              if NP.Refreshes(m, f.pc.st) then NP.AtListNodes(f.pc.st, f.pc.again) else NP.AtStatusPatch(f.pc.st.phase, f.pc.again))
  {
  }

  lemma ListPlaces(f: NP.PoolFrame, nodes: Option<seq<Node>>)
    requires f.pc.AtListNodes?
    ensures NP.NodepoolAdvance(f, NP.ListNodes(nodes)) ==
            if nodes.None? then f.(pc := NP.AtFailing)
            else f.(mem := Refreshed(f.mem, f.pc.st, nodes.value), pc := NP.AtStatusPatch(f.pc.st.phase, f.pc.again))
  {
  }

  /** The switch, and the machine's step that goes with it. */
  method Observes(scope: ManagedMachinePoolScope, np: NodepoolStatus, ghost again: bool)
    requires scope.At(NP.AtStatus(np, again))
    modifies scope.env, scope.managedMachinePool
    ensures scope.Cluster() == old(scope.Cluster()) && old(scope.env.trace) <= scope.env.trace
    ensures scope.env.PoolCalls(scope.key) == old(scope.env.PoolCalls(scope.key)) + [NP.Nodepool(NP.ObserveStatus)]
    ensures scope.managedMachinePool.Value() == ObservePool(old(scope.managedMachinePool.Value()), np.phase)
    ensures scope.At(if NP.Refreshes(scope.managedMachinePool.Value(), np) then NP.AtListNodes(np, again) else NP.AtStatusPatch(np.phase, again))
  {
    ghost var f := scope.env.PoolFrame(scope.key);
    ApplyPhase(scope, np.phase);
    scope.env.LocalPool(scope.key, NP.Nodepool(NP.ObserveStatus));
    ObservePlaces(f);
  }

  /** The refresh branch of setStatus: ListNodes, and the loop that rebuilds the provider ids. */
  method Refresh(scope: ManagedMachinePoolScope, np: NodepoolStatus, ghost again: bool) returns (ok: bool, ghost nodes: Option<seq<Node>>)
    requires scope.At(NP.AtListNodes(np, again)) && np.currentNode.Some?
    modifies scope.env, scope.managedMachinePool
    ensures scope.Cluster() == old(scope.Cluster()) && old(scope.env.trace) <= scope.env.trace
    ensures scope.At(if ok then NP.AtStatusPatch(np.phase, again) else NP.AtFailing) && (ok <==> nodes.Some?)
    ensures scope.env.PoolCalls(scope.key) == old(scope.env.PoolCalls(scope.key)) + [NP.Nodepool(NP.ListNodes(nodes))]
    ensures scope.managedMachinePool.Value() == AfterListing(old(scope.managedMachinePool.Value()), np, nodes)
  {
    ghost var f := scope.env.PoolFrame(scope.key);
    var listed := scope.env.ListNodes(scope.key);
    ListPlaces(f, listed);
    nodes := listed;
    if listed.None? {
      return false, None;
    }
    scope.managedMachinePool.providerIds := IndexLoop(listed.value, scope.InfraMachinePoolID());
    scope.managedMachinePool.replicas := np.currentNode.value;
    ok := true;
  }

  /** The pool after the nodes were listed, or not. */
  function AfterListing(m: Pool, np: NodepoolStatus, nodes: Option<seq<Node>>): Pool {
    if nodes.Some? then Refreshed(m, np, nodes.value) else m
  }

  /** What a refresh changes: the replicas become the number of nodes that the node pool reports, and the provider ids
      the order-preserving selection of its nodes; nothing else changes. */
  lemma RefreshMeaning(m: Pool, np: NodepoolStatus, nodes: seq<Node>) returns (at: seq<nat>)
    requires np.currentNode.Some?
    ensures var m' := AfterListing(m, np, Some(nodes));
            && m' == m.(replicas := np.currentNode.value, providerIds := m'.providerIds)
            && OrderedSelection(nodes, m.poolId, m'.providerIds, at)
  {
    at := IndexIsOrderedSelection(nodes, m.poolId);
  }

  /** The nodes are listed exactly for a pool that is ready and whose node pool reports more than 0 nodes. */
  predicate ListsIfReady(before: seq<NP.PoolStep>, after: seq<NP.PoolStep>, ready: bool, np: NodepoolStatus,
                         nodes: Option<seq<Node>>, ok: bool) {
    if ready && np.currentNode.Some? && np.currentNode.value > 0
    then after == before + [NP.Nodepool(NP.ListNodes(nodes))] && (ok <==> nodes.Some?)
    else after == before && nodes.None? && ok
  }

  /** The test for the refresh branch. */
  method RefreshIfReady(scope: ManagedMachinePoolScope, np: NodepoolStatus, ghost again: bool) returns (ok: bool, ghost nodes: Option<seq<Node>>)
    requires scope.At(if NP.Refreshes(scope.managedMachinePool.Value(), np) then NP.AtListNodes(np, again) else NP.AtStatusPatch(np.phase, again))
    modifies scope.env, scope.managedMachinePool
    ensures scope.Cluster() == old(scope.Cluster()) && old(scope.env.trace) <= scope.env.trace
    ensures scope.At(if ok then NP.AtStatusPatch(np.phase, again) else NP.AtFailing)
    ensures ListsIfReady(old(scope.env.PoolCalls(scope.key)), scope.env.PoolCalls(scope.key), old(scope.managedMachinePool.ready), np, nodes, ok)
    ensures scope.managedMachinePool.Value() == AfterListing(old(scope.managedMachinePool.Value()), np, nodes)
  {
    if scope.managedMachinePool.ready && np.currentNode.Some? && np.currentNode.value > 0 {
      ok, nodes := Refresh(scope, np, again);
      return;
    }
    return true, None;
  }

  /** What setStatus leaves in memory, if it listed these nodes, or none. */
  function AfterSetStatus(m: Pool, np: NodepoolStatus, nodes: Option<seq<Node>>): Pool {
    AfterListing(ObservePool(m, np.phase), np, nodes)
  }

  /** The calls of setStatus on the object m: the switch, perhaps the list of the nodes, and the patch. */
  predicate StatusLog(before: seq<NP.PoolStep>, after: seq<NP.PoolStep>, m: Pool, np: NodepoolStatus, nodes: Option<seq<Node>>, ok: bool) {
    var seen, ready := before + [NP.Nodepool(NP.ObserveStatus)], ObservePool(m, np.phase).ready;
    || (!ok && ListsIfReady(seen, after, ready, np, nodes, false))
    || (|after| > 0 && after[|after| - 1] == NP.Common(NP.Patch(ok)) && ListsIfReady(seen, after[..|after| - 1], ready, np, nodes, true))
  }

  /** Where the code goes on after setStatus. */
  function StatusPlace(ok: bool, phase: NodepoolPhase, again: bool): NP.PoolPc {
    if !ok then NP.AtFailing else if NP.MustWait(phase, again) then NP.AtWait(MAX_POLLS) else NP.AtReconciled
  }

  lemma PatchPlaces(phase: NodepoolPhase, again: bool, saved: bool)
    ensures NP.AfterPatch(NP.AtStatusPatch(phase, again), saved) == StatusPlace(saved, phase, again)
  {
  }

  /** The patch at the end of setStatus. */
  method SaveStatus(scope: ManagedMachinePoolScope, ghost phase: NodepoolPhase, ghost again: bool) returns (ok: bool)
    requires scope.At(NP.AtStatusPatch(phase, again))
    modifies scope.env
    ensures scope.At(StatusPlace(ok, phase, again)) && old(scope.env.trace) <= scope.env.trace
    ensures scope.Cluster() == old(scope.Cluster()) && (ok ==> scope.Persisted())
    ensures scope.env.PoolCalls(scope.key) == old(scope.env.PoolCalls(scope.key)) + [NP.Common(NP.Patch(ok))]
  {
    PatchPlaces(phase, again, true);
    PatchPlaces(phase, again, false);
    ok := scope.PatchObject();
  }

  lemma PatchEndsLog(before: seq<NP.PoolStep>, listed: seq<NP.PoolStep>, m: Pool, np: NodepoolStatus, nodes: Option<seq<Node>>, ok: bool)
    requires ListsIfReady(before + [NP.Nodepool(NP.ObserveStatus)], listed, ObservePool(m, np.phase).ready, np, nodes, true)
    ensures StatusLog(before, listed + [NP.Common(NP.Patch(ok))], m, np, nodes, ok)
  {
    assert (listed + [NP.Common(NP.Patch(ok))])[..|listed|] == listed;
  }

  /** The observed phase is applied, and the provider ids are rebuilt exactly when the pool is then ready and
      its node pool reports nodes; success means that the result was persisted. */
  method SetStatus(scope: ManagedMachinePoolScope, np: NodepoolStatus, ghost again: bool) returns (ok: bool, ghost nodes: Option<seq<Node>>)
    requires scope.At(NP.AtStatus(np, again))
    modifies scope.env, scope.managedMachinePool
    ensures scope.Cluster() == old(scope.Cluster()) && old(scope.env.trace) <= scope.env.trace
    ensures scope.At(StatusPlace(ok, np.phase, again)) && (ok ==> scope.Persisted())
    ensures scope.managedMachinePool.Value() == AfterSetStatus(old(scope.managedMachinePool.Value()), np, nodes)
    ensures StatusLog(old(scope.env.PoolCalls(scope.key)), scope.env.PoolCalls(scope.key), old(scope.managedMachinePool.Value()), np, nodes, ok)
  {
    ghost var before, m := scope.env.PoolCalls(scope.key), scope.managedMachinePool.Value();
    Observes(scope, np, again);
    ok, nodes := RefreshIfReady(scope, np, again);
    if !ok {
      return;
    }
    ghost var listed := scope.env.PoolCalls(scope.key);
    ok := SaveStatus(scope, np.phase, again);
    PatchEndsLog(before, listed, m, np, nodes, ok);
  }

  lemma StatusSpares(m: Pool, np: NodepoolStatus, nodes: Option<seq<Node>>)
    ensures Kept(AfterSetStatus(m, np, nodes)) == Kept(m)
  {
  }

  /** What a status leaves alone. */
  function Kept(m: Pool): (Id, bool, Option<Types.Condition>) {
    (m.poolId, m.finalizer, m.cond)
  }

  /** The second show, and its status, if the answer was one: `again` with these nodes. */
  datatype Again = NotAgain | Again(np: NodepoolStatus, nodes: Option<seq<Node>>)

  function AfterAgain(m: Pool, again: Again): Pool {
    match again
    case NotAgain => m
    case Again(np, nodes) => AfterSetStatus(m, np, nodes)
  }

  /** The calls of the second half of waitForNodepoolActive. */
  predicate ShowsAgain(before: seq<NP.PoolStep>, after: seq<NP.PoolStep>, m: Pool, again: Again, r: Outcome) {
    && before < after && after[|before|].Nodepool? && after[|before|].nodepool.ShowNodepool?
    && match after[|before|].nodepool.answer
       case ShowFailed => |after| == |before| + 1 && again.NotAgain? && r == Failure
       case Missing => |after| == |before| + 1 && again.NotAgain? && r == Panic
       case Found(st) =>
         again.Again? && again.np == st && r != Panic
         && StatusLog(after[..|before| + 1], after, m, st, again.nodes, r == Success)
  }

  lemma StatusFollowsShow(before: seq<NP.PoolStep>, after: seq<NP.PoolStep>, m: Pool, st: NodepoolStatus, nodes: Option<seq<Node>>, ok: bool)
    requires StatusLog(before + [NP.Nodepool(NP.ShowNodepool(Found(st)))], after, m, st, nodes, ok)
    ensures ShowsAgain(before, after, m, Again(st, nodes), if ok then Success else Failure)
  {
    var shown := before + [NP.Nodepool(NP.ShowNodepool(Found(st)))];
    assert shown <= after;
    assert after[..|before| + 1] == shown;
  }

  /** The second half of waitForNodepoolActive. */
  method ShowAgain(scope: ManagedMachinePoolScope) returns (r: Outcome, ghost again: Again)
    requires scope.At(NP.AtWaited)
    modifies scope.env, scope.managedMachinePool
    ensures scope.At(AfterNodepool(r)) && old(scope.env.trace) <= scope.env.trace && scope.Cluster() == old(scope.Cluster())
    ensures ShowsAgain(old(scope.env.PoolCalls(scope.key)), scope.env.PoolCalls(scope.key), old(scope.managedMachinePool.Value()), again, r)
    ensures scope.managedMachinePool.Value() == AfterAgain(old(scope.managedMachinePool.Value()), again) && (r.Success? ==> scope.Persisted())
  {
    again := NotAgain;
    ghost var f, before, m := scope.env.PoolFrame(scope.key), scope.env.PoolCalls(scope.key), scope.managedMachinePool.Value();
    var answer := scope.env.ShowNodepool(scope.key);
    ReconcilePlaces(f, answer);
    if answer.ShowFailed? {
      return Failure, again;
    }
    if answer.Missing? {
      return Panic, again;
    }
    ghost var nodes;
    var ok;
    ok, nodes := SetStatus(scope, answer.value, true);
    StatusFollowsShow(before, scope.env.PoolCalls(scope.key), m, answer.value, nodes, ok);
    return if ok then Success else Failure, Again(answer.value, nodes);
  }

  function AfterNodepool(r: Outcome): NP.PoolPc {
    match r
    case Success => NP.AtReconciled
    case Failure => NP.AtFailing
    case Panic => NP.Closing(Panicked)
  }

  /** The calls of waitForNodepoolActive, of which `waited` are those up to the end of the wait: fewer than 40 shows of
      another phase and then one of the empty phase, after which the node pool is shown and its status set once
      more; or a wait that failed. */
  predicate WaitsAndShows(before: seq<NP.PoolStep>, waited: seq<NP.PoolStep>, after: seq<NP.PoolStep>, m: Pool, again: Again, r: Outcome) {
    if NodepoolWait(before, waited, true, Success) then ShowsAgain(waited, after, m, again, r)
    else after == waited && again.NotAgain? && r != Success && NodepoolWait(before, waited, true, r)
  }

  /** Success means that the empty phase was seen within 40 polls, and that the status then shown was applied
      and persisted once more. */
  method WaitForNodepoolActive(scope: ManagedMachinePoolScope) returns (r: Outcome, ghost waited: seq<NP.PoolStep>, ghost again: Again)
    requires scope.At(NP.AtWait(MAX_POLLS))
    modifies scope.env, scope.managedMachinePool
    ensures scope.At(AfterNodepool(r)) && old(scope.env.trace) <= scope.env.trace && scope.Cluster() == old(scope.Cluster())
    ensures WaitsAndShows(old(scope.env.PoolCalls(scope.key)), waited, scope.env.PoolCalls(scope.key), old(scope.managedMachinePool.Value()), again, r)
    ensures scope.managedMachinePool.Value() == AfterAgain(old(scope.managedMachinePool.Value()), again) && (r.Success? ==> scope.Persisted())
  {
    again := NotAgain;
    ghost var c := NodepoolIsActive(scope.key);
    ghost var log := LogOf(scope.env, c);
    ghost var polls;
    r, polls := WaitUntil(scope.env, NodepoolIsActive(scope.key), MAX_POLLS);
    waited := scope.env.PoolCalls(scope.key);
    NodepoolWaitEnds(scope.key, true, log, LogOf(scope.env, c), polls, r);
    if r.Success? {
      r, again := ShowAgain(scope);
    }
  }

  // ---------------------------------------------------------------- a whole pass

  /** The logs of a pass after the node pool was found or created, after its first status was set with these nodes,
      and after the wait, if there was one. */
  datatype Pass = Pass(begun: seq<NP.PoolStep>, patched: seq<NP.PoolStep>, nodes: Option<seq<Node>>, waited: seq<NP.PoolStep>, again: Again)

  /** The calls after a node pool was found or created: its status is set; then a node pool that is synchronizing
      or synchronized is waited for, and any other is not. */
  predicate Settles(after: seq<NP.PoolStep>, m: Pool, np: NodepoolStatus, p: Pass, r: Outcome) {
    if StatusLog(p.begun, p.patched, m, np, p.nodes, true) then
      if np.phase == NpSynchronizing || np.phase == NpSynchronized
      then WaitsAndShows(p.patched, p.waited, after, AfterSetStatus(m, np, p.nodes), p.again, r)
      else after == p.patched && p.again.NotAgain? && r == Success
    else after == p.patched && p.again.NotAgain? && r == Failure && StatusLog(p.begun, p.patched, m, np, p.nodes, false)
  }

  /** The same; the quantifier keeps it folded in the methods, which need not look inside. */
  ghost predicate Settled(after: seq<NP.PoolStep>, m: Pool, np: NodepoolStatus, p: Pass, r: Outcome) {
    forall a, x, n, q, s {:trigger Settles(a, x, n, q, s)} :: a == after && x == m && n == np && q == p && s == r ==> Settles(a, x, n, q, s)
  }

  function AfterSettle(m: Pool, np: NodepoolStatus, p: Pass): Pool {
    AfterAgain(AfterSetStatus(m, np, p.nodes), p.again)
  }

  /** A status log does not leave open how it ended. */
  lemma StatusIsSettled(before: seq<NP.PoolStep>, after: seq<NP.PoolStep>, m: Pool, np: NodepoolStatus, nodes: Option<seq<Node>>)
    requires StatusLog(before, after, m, np, nodes, false)
    ensures !StatusLog(before, after, m, np, nodes, true)
  {
  }

  /** The status of a node pool that was found or created, and the wait for one that is synchronizing. */
  method Settle(scope: ManagedMachinePoolScope, np: NodepoolStatus) returns (r: Outcome, ghost p: Pass)
    requires scope.At(NP.AtStatus(np, false))
    modifies scope.env, scope.managedMachinePool
    ensures scope.At(AfterNodepool(r)) && old(scope.env.trace) <= scope.env.trace && scope.Cluster() == old(scope.Cluster())
    ensures p.begun == old(scope.env.PoolCalls(scope.key))
    ensures Settled(scope.env.PoolCalls(scope.key), old(scope.managedMachinePool.Value()), np, p, r)
    ensures scope.managedMachinePool.Value() == AfterSettle(old(scope.managedMachinePool.Value()), np, p) && (r.Success? ==> scope.Persisted())
  {
    ghost var before, m := scope.env.PoolCalls(scope.key), scope.managedMachinePool.Value();
    ghost var nodes, waited, again;
    var ok;
    ok, nodes := SetStatus(scope, np, false);
    ghost var patched := scope.env.PoolCalls(scope.key);
    p := Pass(before, patched, nodes, patched, NotAgain);
    if !ok {
      StatusIsSettled(before, patched, m, np, nodes);
      return Failure, p;
    }
    if np.phase == NpSynchronizing || np.phase == NpSynchronized {
      r, waited, again := WaitForNodepoolActive(scope);
      p := Pass(before, patched, nodes, waited, again);
    } else {
      r := Success;
    }
  }

  /** The whole of reconcileNodepool, from the object m to the object m', if `first` is what was found or created:
      when it succeeds on a node pool first seen synchronizing or synchronized, the empty phase was then seen,
      and the status shown after that was applied; on any other, nothing was shown after the first status was
      patched. */
  ghost predicate Reconciles(before: seq<NP.PoolStep>, after: seq<NP.PoolStep>, m: Pool, m': Pool, first: Option<NodepoolStatus>, p: Pass, r: Outcome) {
    && FindsOrCreates(before, p.begun, m.poolId, first, m'.poolId)
    && match first
       case None => after == p.begun && r == Failure && m' == m.(poolId := m'.poolId)
       case Some(np) => Settled(after, m.(poolId := m'.poolId), np, p, r) && m' == AfterSettle(m.(poolId := m'.poolId), np, p)
  }

  /** The same; the quantifier keeps it folded in the methods, which need not look inside. */
  ghost predicate Reconciled(before: seq<NP.PoolStep>, after: seq<NP.PoolStep>, m: Pool, m': Pool, first: Option<NodepoolStatus>, p: Pass, r: Outcome) {
    forall b, a, x, y, f, q, s {:trigger Reconciles(b, a, x, y, f, q, s)} ::
      b == before && a == after && x == m && y == m' && f == first && q == p && s == r ==> Reconciles(b, a, x, y, f, q, s)
  }

  lemma SettleSpares(m: Pool, np: NodepoolStatus, p: Pass)
    ensures Kept(AfterSettle(m, np, p)) == Kept(m)
  {
    StatusSpares(m, np, p.nodes);
    if p.again.Again? {
      StatusSpares(AfterSetStatus(m, np, p.nodes), p.again.np, p.again.nodes);
    }
  }

  /** The object m after its node pool was found or created, and then m' after the rest. */
  lemma PassIsWhole(before: seq<NP.PoolStep>, after: seq<NP.PoolStep>, m: Pool, found: Pool, m': Pool, np: NodepoolStatus, p: Pass, r: Outcome)
    requires FindsOrCreates(before, p.begun, m.poolId, Some(np), found.poolId) && found == m.(poolId := found.poolId)
    requires Settled(after, found, np, p, r) && m' == AfterSettle(found, np, p)
    ensures Reconciled(before, after, m, m', Some(np), p, r) && Kept(m') == Kept(found)
  {
    SettleSpares(found, np, p);
  }

  /** A pass that succeeded: a node pool first seen synchronizing or synchronized was then seen in the empty phase,
      within 40 polls, and what is in memory is the status shown after that; of any other node pool nothing was
      shown after its first status was patched, and that is in memory. */
  lemma SynchronizingIsWaitedFor(before: seq<NP.PoolStep>, after: seq<NP.PoolStep>, m: Pool, m': Pool, np: NodepoolStatus, p: Pass)
    requires Reconciled(before, after, m, m', Some(np), p, Success)
    ensures var first := AfterSetStatus(m.(poolId := m'.poolId), np, p.nodes);
            if np.phase == NpSynchronizing || np.phase == NpSynchronized then
              && p.again.Again? && m' == AfterSetStatus(first, p.again.np, p.again.nodes)
              && |p.patched| < |p.waited| <= |p.patched| + 40 && p.patched < p.waited < after
              && NodepoolMet(p.waited[|p.waited| - 1], true)
              && after[|p.waited|] == NP.Nodepool(NP.ShowNodepool(Found(p.again.np)))
            else m' == first && after == p.patched
    ensures |after| > 0 && after[|after| - 1] == NP.Common(NP.Patch(true))
  {
    assert Reconciles(before, after, m, m', Some(np), p, Success);
    assert Settles(after, m.(poolId := m'.poolId), np, p, Success);
  }

  lemma PassIsShort(before: seq<NP.PoolStep>, after: seq<NP.PoolStep>, m: Pool, m': Pool)
    requires FindsOrCreates(before, after, m.poolId, None, m'.poolId) && m' == m.(poolId := m'.poolId)
    ensures Reconciled(before, after, m, m', None, Pass(after, after, None, after, NotAgain), Failure)
  {
  }

  /** Success means that a node pool id is recorded, and that the result of the last status is persisted. */
  method ReconcileNodepool(scope: ManagedMachinePoolScope) returns (r: Outcome, ghost first: Option<NodepoolStatus>, ghost p: Pass)
    requires scope.At(NP.AtReconcile)
    modifies scope.env, scope.managedMachinePool
    ensures scope.At(AfterNodepool(r)) && old(scope.env.trace) <= scope.env.trace && scope.Cluster() == old(scope.Cluster())
    ensures scope.managedMachinePool.finalizer == old(scope.managedMachinePool.finalizer)
    ensures scope.managedMachinePool.cond == old(scope.managedMachinePool.cond)
    ensures r.Success? ==> scope.InfraMachinePoolID() != NO_ID && scope.Persisted()
    ensures Reconciled(old(scope.env.PoolCalls(scope.key)), scope.env.PoolCalls(scope.key),
                       old(scope.managedMachinePool.Value()), scope.managedMachinePool.Value(), first, p, r)
  {
    ghost var before, m := scope.env.PoolCalls(scope.key), scope.managedMachinePool.Value();
    var np := FindOrCreate(scope);
    first := np;
    ghost var begun, found := scope.env.PoolCalls(scope.key), scope.managedMachinePool.Value();
    if np.None? {
      PassIsShort(before, begun, m, found);
      return Failure, first, Pass(begun, begun, None, begun, NotAgain);
    }
    r, p := Settle(scope, np.value);
    PassIsWhole(before, scope.env.PoolCalls(scope.key), m, found, scope.managedMachinePool.Value(), np.value, p, r);
  }

  /** The last step of ReconcilePool; a panic leaves none. */
  function Marks(r: Outcome): seq<NP.PoolStep> {
    match r
    case Success => [NP.Common(NP.MarkReady)]
    case Failure => [NP.Common(NP.MarkFailed)]
    case Panic => []
  }

  /** The ready condition reports the outcome; success means that a node pool id is recorded. */
  method ReconcilePool(scope: ManagedMachinePoolScope)
    returns (r: Outcome, ghost first: Option<NodepoolStatus>, ghost p: Pass, ghost log: seq<NP.PoolStep>)
    requires scope.At(NP.AtReconcile)
    modifies scope.env, scope.managedMachinePool
    ensures scope.At(NP.Closing(match r
                                case Success => Finished
                                case Failure => Errored
                                case Panic => Panicked)) && old(scope.env.trace) <= scope.env.trace
    ensures scope.managedMachinePool.finalizer == old(scope.managedMachinePool.finalizer)
    ensures r.Success? ==> scope.InfraMachinePoolID() != NO_ID && scope.managedMachinePool.cond == Some(TRUE_CONDITION)
    ensures r.Failure? ==> scope.managedMachinePool.cond == Some(Types.Condition(false, NodepoolReconciliationFailedReason))
    ensures scope.env.PoolCalls(scope.key) == log + Marks(r)
    ensures Reconciled(old(scope.env.PoolCalls(scope.key)), log, old(scope.managedMachinePool.Value()),
                       scope.managedMachinePool.Value().(cond := old(scope.managedMachinePool.cond)), first, p, r)
  {
    ghost var cond := scope.managedMachinePool.cond;
    r, first, p := ReconcileNodepool(scope);
    log := scope.env.PoolCalls(scope.key);
    match r {
      case Success =>
        scope.managedMachinePool.MarkTrue();
        scope.env.LocalPool(scope.key, NP.Common(NP.MarkReady));
      case Failure =>
        scope.managedMachinePool.MarkFalse(NodepoolReconciliationFailedReason);
        scope.env.LocalPool(scope.key, NP.Common(NP.MarkFailed));
      case Panic =>
    }
  }
}
