/** cluster.go: taking a control plane down. */
module TeardownService {
  import opened Types
  import opened Environment
  import opened ControlPlaneScope
  import opened Waiting
  import CP = ControlPlaneProgram
  import Runs

  function AfterDelete(ok: bool): CP.Pc {
    if ok then CP.AtDeleteDone else CP.Closing(Errored)
  }

  lemma AfterDeleteShow(answer: Shown<ClusterInfo>)
    ensures CP.AfterShow(CP.AtDeleteShow, answer) == (match answer
              case ShowFailed => CP.Closing(Errored)
              case Missing => CP.AtDeleteDone
              case Found(_) => CP.AtDeleteCall)
  {
  }

  /** The calls of deleteClusterAndWait begin with the delete; a 404 is a success and another error a failure,
      both without a wait; an accepted deletion is waited for, which decides: a success when a show found the
      cluster gone or not being deleted, a failure when one failed or 40 found the deletion going on. */
  predicate Deletes(before: seq<CP.CPStep>, after: seq<CP.CPStep>, ok: bool) {
    && before < after && after[|before|].Teardown? && after[|before|].teardown.DeleteCluster?
    && match after[|before|].teardown.removal
       case NotFound => |after| == |before| + 1 && ok
       case RemovalFailed => |after| == |before| + 1 && !ok
       case Accepted => ClusterWait(after[..|before| + 1], after, false, if ok then Success else Failure)
  }

  /** The calls of deleteCluster: none to the cloud without an id; else a show, whose 404 is a success and whose
      failure a failure, both without a delete call. */
  predicate ShowsAndDeletes(before: seq<CP.CPStep>, after: seq<CP.CPStep>, id: Id, ok: bool) {
    if id == NO_ID then ok && after == before + [CP.Teardown(CP.SkipDelete)]
    else
      && before < after && after[|before|].Cluster? && after[|before|].cluster.ShowCluster?
      && match after[|before|].cluster.answer
         case Missing => |after| == |before| + 1 && ok
         case ShowFailed => |after| == |before| + 1 && !ok
         case Found(_) => Deletes(after[..|before| + 1], after, ok)
  }

  method DeleteClusterAndWait(scope: ManagedControlPlaneScope) returns (ok: bool)
    requires scope.At(CP.AtDeleteCall) && scope.InfraClusterID() != NO_ID
    modifies scope.env
    ensures scope.At(AfterDelete(ok)) && old(scope.env.trace) <= scope.env.trace
    ensures Deletes(old(scope.env.calls), scope.env.calls, ok)
  {
    var removal := scope.env.DeleteCluster();
    match removal {
      case RemovalFailed => return false;
      case NotFound => return true;
      case Accepted =>
        ghost var log := LogOf(scope.env, ClusterIsDeleted);
        ghost var polls;
        var r;
        r, polls := WaitUntil(scope.env, ClusterIsDeleted, MAX_POLLS);
        ClusterWaitEnds(false, log, LogOf(scope.env, ClusterIsDeleted), polls, r);
        assert scope.env.calls[..|log.plane|] == log.plane;
        return r.Success?;
    }
  }

  method DeleteCluster(scope: ManagedControlPlaneScope) returns (ok: bool)
    requires scope.At(CP.AtDeleteShow)
    modifies scope.env
    ensures scope.At(AfterDelete(ok)) && old(scope.env.trace) <= scope.env.trace
    ensures ShowsAndDeletes(old(scope.env.calls), scope.env.calls, scope.InfraClusterID(), ok)
  {
    if scope.InfraClusterID() == NO_ID {
      scope.env.Local(CP.Teardown(CP.SkipDelete));
      return true;
    }
    var answer := scope.env.ShowCluster();
    AfterDeleteShow(answer);
    if answer.ShowFailed? {
      return false;
    }
    if answer.Missing? {
      return true;
    }
    ok := DeleteClusterAndWait(scope);
  }

  /** Success means that the recorded cluster, if there is one, is gone from the cloud. */
  method DeleteControlPlane(scope: ManagedControlPlaneScope) returns (ok: bool)
    requires scope.At(CP.AtDeleteShow)
    modifies scope.env
    ensures scope.At(AfterDelete(ok)) && old(scope.env.trace) <= scope.env.trace
    ensures ok ==> scope.InfraClusterID() !in scope.env.world.cloud.clusters
    ensures ShowsAndDeletes(old(scope.env.calls), scope.env.calls, scope.InfraClusterID(), ok)
  {
    ok := DeleteCluster(scope);
    if ok {
      ReachedIsReachable(scope.env.start, scope.env.trace, scope.env.world);
      Runs.SystemHolds(scope.env.start, scope.env.trace, scope.env.world);
    }
  }
}
