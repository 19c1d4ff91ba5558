/** waitUntil of service.go, and what the four waits of the services wait for. */
module Waiting {
  import opened Types
  import opened Kubeconfigs
  import opened Protocol
  import opened Environment
  import opened ControlPlaneScope
  import CP = ControlPlaneProgram
  import NP = PoolProgram
  import Runs
  import Fleets

  /** What the condition function of a wait returns; it panics when it dereferences a missing answer. */
  datatype Poll = Met | NotYet | Broken | Panicking

  /** The condition function of a wait: one of the four that the services pass, or any other function, given by
      the results of its calls. */
  datatype WaitCondition =
    | ClusterIsActive
    | ClusterIsDeleted
    | NodepoolIsActive(key: Key)
    | NodepoolIsDeleted(key: Key)
    | AnyFunction(results: nat -> Poll)

  /** How waitUntil ends on a result; "not yet" ends it only when it was the last one allowed. */
  function Verdict(poll: Poll): Outcome {
    match poll
    case Met => Success
    case Panicking => Panic
    case _ => Failure
  }

  predicate AllNotYet(polls: seq<Poll>) {
    forall i :: 0 <= i < |polls| ==> polls[i] == NotYet
  }

  /** The whole meaning of waitUntil, for every condition function and every retry count: it stops at the
      first result that is not "not yet", never polls more than `retries` times, polls that often if it only
      hears "not yet", and succeeds exactly when the last poll was met. */
  predicate Waited(polls: seq<Poll>, retries: nat, r: Outcome) {
    && |polls| <= retries
    && (if AllNotYet(polls) then |polls| == retries && r == Failure
        else AllNotYet(polls[..|polls| - 1]) && r == Verdict(polls[|polls| - 1]))
  }

  /** The polls are the results of the condition function in order, where these are given. */
  predicate InOrder(c: WaitCondition, polls: seq<Poll>) {
    c.AnyFunction? ==> forall i :: 0 <= i < |polls| ==> polls[i] == c.results(i)
  }

  /** After these polls, of which `last` decides, the wait has stopped, or has not with all allowed ones made. */
  predicate Polls(c: WaitCondition, polls: seq<Poll>, retries: nat, last: Poll) {
    && InOrder(c, polls)
    && if last == NotYet then AllNotYet(polls) && |polls| == retries else Waited(polls, retries, Verdict(last))
  }

  /** One more result: the wait goes on or stops there. */
  lemma OneMore(c: WaitCondition, polls: seq<Poll>, poll: Poll, retries: nat)
    requires Polls(c, polls, |polls|, NotYet) && |polls| < retries
    requires c.AnyFunction? ==> poll == c.results(|polls|)
    ensures Polls(c, polls + [poll], if poll == NotYet then |polls| + 1 else retries, poll)
    ensures poll != NotYet ==> !AllNotYet(polls + [poll])
  {
    assert (polls + [poll])[..|polls|] == polls;
    assert (polls + [poll])[|polls|] == poll;
  }

  // ---------------------------------------------------------------- the log of a wait

  /** The logged steps that a wait appends to: those of the control plane's reconciles or of a pool's. */
  datatype Log = Log(plane: seq<CP.CPStep>, pool: seq<NP.PoolStep>)

  ghost function LogOf(env: Environment, c: WaitCondition): Log
    reads env
  {
    match c
    case NodepoolIsActive(key) => Log([], env.PoolCalls(key))
    case NodepoolIsDeleted(key) => Log([], env.PoolCalls(key))
    case AnyFunction(_) => Log([], [])
    case _ => Log(env.calls, [])
  }

  /** The result of a condition function that made this call. */
  function ClusterPoll(active: bool, s: CP.CPStep): Option<Poll> {
    match s
    case Cluster(ShowCluster(answer)) => (match answer
      case ShowFailed => Some(Broken)
      case Missing => Some(if active then Panicking else Met)
      case Found(info) => Some(if (info.status.phase == Available && active) || (info.status.phase != Deleting && !active) then Met else NotYet))
    case _ => None
  }

  function NodepoolPoll(active: bool, s: NP.PoolStep): Option<Poll> {
    match s
    case Nodepool(ShowNodepool(answer)) => (match answer
      case ShowFailed => Some(Broken)
      case Missing => Some(if active then Panicking else Met)
      case Found(st) => Some(if (st.phase == NpActive && active) || (st.phase != NpDeleting && !active) then Met else NotYet))
    case _ => None
  }

  /** Between the two logs the condition function was called with these results. */
  predicate Logs(c: WaitCondition, before: Log, after: Log, polls: seq<Poll>) {
    && |after.plane| == |before.plane| + (if c.ClusterIsActive? || c.ClusterIsDeleted? then |polls| else 0)
    && |after.pool| == |before.pool| + (if c.NodepoolIsActive? || c.NodepoolIsDeleted? then |polls| else 0)
    && before.plane <= after.plane && before.pool <= after.pool
    && (forall i :: |before.plane| <= i < |after.plane| ==>
          ClusterPoll(c.ClusterIsActive?, after.plane[i]) == Some(polls[i - |before.plane|]))
    && (forall i :: |before.pool| <= i < |after.pool| ==>
          NodepoolPoll(c.NodepoolIsActive?, after.pool[i]) == Some(polls[i - |before.pool|]))
  }

  /** The same; the quantifier keeps it folded in the methods, which need not look inside. */
  ghost predicate Logged(c: WaitCondition, before: Log, after: Log, polls: seq<Poll>) {
    forall d, b, a, ps {:trigger Logs(d, b, a, ps)} :: d == c && b == before && a == after && ps == polls ==> Logs(d, b, a, ps)
  }

  lemma NothingLogged(c: WaitCondition, log: Log)
    ensures Logged(c, log, log, [])
  {
  }

  lemma LogsJoin(c: WaitCondition, before: Log, mid: Log, after: Log, polls: seq<Poll>, poll: Poll)
    requires Logged(c, before, mid, polls) && Logged(c, mid, after, [poll])
    ensures Logged(c, before, after, polls + [poll])
  {
    assert Logs(c, before, mid, polls) && Logs(c, mid, after, [poll]);
    assert Logs(c, before, after, polls + [poll]);
  }

  lemma ClusterLogged(active: bool, calls: seq<CP.CPStep>, s: CP.CPStep, poll: Poll)
    requires ClusterPoll(active, s) == Some(poll)
    ensures Logged(if active then ClusterIsActive else ClusterIsDeleted, Log(calls, []), Log(calls + [s], []), [poll])
  {
  }

  lemma NodepoolLogged(key: Key, active: bool, calls: seq<NP.PoolStep>, s: NP.PoolStep, poll: Poll)
    requires NodepoolPoll(active, s) == Some(poll)
    ensures Logged(if active then NodepoolIsActive(key) else NodepoolIsDeleted(key), Log([], calls), Log([], calls + [s]), [poll])
  {
  }

  /** The log when the polls have run out. */
  function GivenUp(c: WaitCondition, log: Log): Log {
    match c
    case NodepoolIsActive(_) => log.(pool := log.pool + [NP.Nodepool(NP.GiveUp)])
    case NodepoolIsDeleted(_) => log.(pool := log.pool + [NP.Nodepool(NP.GiveUp)])
    case AnyFunction(_) => log
    case _ => log.(plane := log.plane + [CP.Cluster(CP.GiveUp)])
  }

  /** The log of a whole wait. */
  ghost predicate WaitLog(c: WaitCondition, before: Log, after: Log, polls: seq<Poll>) {
    if AllNotYet(polls) then exists mid :: Logged(c, before, mid, polls) && after == GivenUp(c, mid)
    else Logged(c, before, after, polls)
  }

  /** The wait for a cluster in terms of its log alone: fewer than 40 shows that do not meet the condition and
      then one that does, or that fails; or exactly 40 that do not meet it, and the wait is given up. */
  predicate ClusterWait(before: seq<CP.CPStep>, after: seq<CP.CPStep>, active: bool, r: Outcome) {
    var n := |after| - |before| - 1;
    && n >= 0 && before <= after
    && (forall i :: |before| <= i < |after| - 1 ==> ClusterUnmet(after[i], active))
    && var last := after[|after| - 1];
       match r
       case Success => n < 40 && ClusterMet(last, active)
       case Panic => n < 40 && active && last == CP.Cluster(CP.ShowCluster(Missing))
       case Failure => if n < 40 then last == CP.Cluster(CP.ShowCluster(ShowFailed)) else n == 40 && last == CP.Cluster(CP.GiveUp)
  }

  /** A show of a cluster that is not Available yet, or whose deletion still goes on. */
  predicate ClusterUnmet(s: CP.CPStep, active: bool) {
    match s
    case Cluster(ShowCluster(Found(info))) => if active then info.status.phase != Available else info.status.phase == Deleting
    case _ => false
  }

  /** A show of a cluster that is Available, or that is gone or not being deleted. */
  predicate ClusterMet(s: CP.CPStep, active: bool) {
    match s
    case Cluster(ShowCluster(Found(info))) => if active then info.status.phase == Available else info.status.phase != Deleting
    case Cluster(ShowCluster(Missing)) => !active
    case _ => false
  }

  /** The same for a node pool, whose condition is the empty phase. */
  predicate NodepoolWait(before: seq<NP.PoolStep>, after: seq<NP.PoolStep>, active: bool, r: Outcome) {
    var n := |after| - |before| - 1;
    && n >= 0 && before <= after
    && (forall i :: |before| <= i < |after| - 1 ==> NodepoolUnmet(after[i], active))
    && var last := after[|after| - 1];
       match r
       case Success => n < 40 && NodepoolMet(last, active)
       case Panic => n < 40 && active && last == NP.Nodepool(NP.ShowNodepool(Missing))
       case Failure => if n < 40 then last == NP.Nodepool(NP.ShowNodepool(ShowFailed)) else n == 40 && last == NP.Nodepool(NP.GiveUp)
  }

  predicate NodepoolUnmet(s: NP.PoolStep, active: bool) {
    match s
    case Nodepool(ShowNodepool(Found(st))) => if active then st.phase != NpActive else st.phase == NpDeleting
    case _ => false
  }

  predicate NodepoolMet(s: NP.PoolStep, active: bool) {
    match s
    case Nodepool(ShowNodepool(Found(st))) => if active then st.phase == NpActive else st.phase != NpDeleting
    case Nodepool(ShowNodepool(Missing)) => !active
    case _ => false
  }

  lemma ClusterPollsUnmet(active: bool, before: Log, after: Log, polls: seq<Poll>, n: nat)
    requires Logs(if active then ClusterIsActive else ClusterIsDeleted, before, after, polls)
    requires n <= |polls| && forall i :: 0 <= i < n ==> polls[i] == NotYet
    ensures forall i :: |before.plane| <= i < |before.plane| + n ==> ClusterUnmet(after.plane[i], active)
  {
    forall i | |before.plane| <= i < |before.plane| + n
      ensures ClusterUnmet(after.plane[i], active)
    {
      assert ClusterPoll(active, after.plane[i]) == Some(polls[i - |before.plane|]);
    }
  }

  lemma NodepoolPollsUnmet(key: Key, active: bool, before: Log, after: Log, polls: seq<Poll>, n: nat)
    requires Logs(if active then NodepoolIsActive(key) else NodepoolIsDeleted(key), before, after, polls)
    requires n <= |polls| && forall i :: 0 <= i < n ==> polls[i] == NotYet
    ensures forall i :: |before.pool| <= i < |before.pool| + n ==> NodepoolUnmet(after.pool[i], active)
  {
    forall i | |before.pool| <= i < |before.pool| + n
      ensures NodepoolUnmet(after.pool[i], active)
    {
      assert NodepoolPoll(active, after.pool[i]) == Some(polls[i - |before.pool|]);
    }
  }

  /** What waitUntil with the retry count of the services amounts to. */
  lemma ClusterWaitEnds(active: bool, before: Log, after: Log, polls: seq<Poll>, r: Outcome)
    requires Waited(polls, MAX_POLLS, r)
    requires WaitLog(if active then ClusterIsActive else ClusterIsDeleted, before, after, polls)
    ensures ClusterWait(before.plane, after.plane, active, r)
  {
    var c := if active then ClusterIsActive else ClusterIsDeleted;
    if AllNotYet(polls) {
      var mid :| Logged(c, before, mid, polls) && after == GivenUp(c, mid);
      assert Logs(c, before, mid, polls);
      ClusterPollsUnmet(active, before, mid, polls, |polls|);
    } else {
      assert Logs(c, before, after, polls);
      assert forall i :: 0 <= i < |polls| - 1 ==> polls[i] == polls[..|polls| - 1][i];
      ClusterPollsUnmet(active, before, after, polls, |polls| - 1);
      assert ClusterPoll(active, after.plane[|after.plane| - 1]) == Some(polls[|polls| - 1]);
    }
  }

  lemma NodepoolWaitEnds(key: Key, active: bool, before: Log, after: Log, polls: seq<Poll>, r: Outcome)
    requires Waited(polls, MAX_POLLS, r)
    requires WaitLog(if active then NodepoolIsActive(key) else NodepoolIsDeleted(key), before, after, polls)
    ensures NodepoolWait(before.pool, after.pool, active, r)
  {
    var c := if active then NodepoolIsActive(key) else NodepoolIsDeleted(key);
    if AllNotYet(polls) {
      var mid :| Logged(c, before, mid, polls) && after == GivenUp(c, mid);
      assert Logs(c, before, mid, polls);
      NodepoolPollsUnmet(key, active, before, mid, polls, |polls|);
    } else {
      assert Logs(c, before, after, polls);
      assert forall i :: 0 <= i < |polls| - 1 ==> polls[i] == polls[..|polls| - 1][i];
      NodepoolPollsUnmet(key, active, before, after, polls, |polls| - 1);
      assert NodepoolPoll(active, after.pool[|after.pool| - 1]) == Some(polls[|polls| - 1]);
    }
  }

  // ---------------------------------------------------------------- where a wait stands

  /** The wait stands before a poll with `left` polls to go. */
  ghost predicate Polling(env: Environment, c: WaitCondition, left: nat)
    reads env
  {
    match c
    case ClusterIsActive => env.Running() && env.Frame().pc == CP.AtWait(left) && env.Frame().mem.clusterId != NO_ID
    case ClusterIsDeleted => env.Running() && env.Frame().pc == CP.AtDeleteWait(left) && env.Frame().mem.clusterId != NO_ID
    case NodepoolIsActive(key) => env.RunningPool(key) && env.PoolFrame(key).pc == NP.AtWait(left)
    case NodepoolIsDeleted(key) => env.RunningPool(key) && env.PoolFrame(key).pc == NP.AtDeleteWait(left)
    case AnyFunction(_) => env.Valid()
  }

  /** Where the code goes on when the wait has ended. */
  ghost predicate Ended(env: Environment, c: WaitCondition, r: Outcome)
    reads env
  {
    match c
    case ClusterIsActive => env.Running() && env.Frame().pc == (match r
      case Success => CP.AtWaited
      case Failure => CP.AtFailing(ControlPlaneReady)
      case Panic => CP.Closing(Panicked))
    case ClusterIsDeleted => env.Running() && env.Frame().pc == (if r.Success? then CP.AtDeleteDone else CP.Closing(Errored)) && !r.Panic?
    case NodepoolIsActive(key) => env.RunningPool(key) && env.PoolFrame(key).pc == (match r
      case Success => NP.AtWaited
      case Failure => NP.AtFailing
      case Panic => NP.Closing(Panicked))
    case NodepoolIsDeleted(key) => env.RunningPool(key) && env.PoolFrame(key).pc == NP.AtDeleteReport(r.Success?) && !r.Panic?
    case AnyFunction(_) => env.Valid()
  }

  /** The last call of the control plane's reconcile, or of the pool's, was this one. */
  ghost predicate JustCalled(env: Environment, s: CP.CPStep)
    reads env
  {
    |env.calls| > 0 && env.calls[|env.calls| - 1] == s
  }

  ghost predicate PoolJustCalled(env: Environment, key: Key, s: NP.PoolStep)
    reads env
  {
    |env.PoolCalls(key)| > 0 && env.PoolCalls(key)[|env.PoolCalls(key)| - 1] == s
  }

  /** What the cloud shows at the moment at which the condition is met. */
  ghost predicate Observed(env: Environment, c: WaitCondition)
    reads env
  {
    var cloud := env.world.cloud;
    match c
    case ClusterIsActive =>
      env.Running() && var id := env.Frame().mem.clusterId;
      && id in cloud.clusters && cloud.clusters[id].status.phase == Available
      && JustCalled(env, CP.Cluster(CP.ShowCluster(Found(cloud.clusters[id]))))
    case ClusterIsDeleted =>
      env.Running() && var id := env.Frame().mem.clusterId;
      && (id in cloud.clusters ==> cloud.clusters[id].status.phase != Deleting)
      && JustCalled(env, CP.Cluster(CP.ShowCluster(if id in cloud.clusters then Found(cloud.clusters[id]) else Missing)))
    case NodepoolIsActive(key) =>
      env.RunningPool(key) && var f := env.PoolFrame(key);
      && Reaches(cloud, f.cluster, f.mem.poolId) && cloud.nodepools[f.mem.poolId].status.phase == NpActive
      && PoolJustCalled(env, key, NP.Nodepool(NP.ShowNodepool(Found(cloud.nodepools[f.mem.poolId].status))))
    case NodepoolIsDeleted(key) =>
      env.RunningPool(key) && var f := env.PoolFrame(key);
      if Reaches(cloud, f.cluster, f.mem.poolId) then
        var st := cloud.nodepools[f.mem.poolId].status;
        st.phase != NpDeleting && PoolJustCalled(env, key, NP.Nodepool(NP.ShowNodepool(Found(st))))
      else PoolJustCalled(env, key, NP.Nodepool(NP.ShowNodepool(Missing)))
    case AnyFunction(_) => true
  }

  /** The last call failed, or the polls had run out. */
  ghost predicate Refuted(env: Environment, c: WaitCondition)
    reads env
  {
    match c
    case NodepoolIsActive(key) =>
      PoolJustCalled(env, key, NP.Nodepool(NP.ShowNodepool(ShowFailed))) || PoolJustCalled(env, key, NP.Nodepool(NP.GiveUp))
    case NodepoolIsDeleted(key) =>
      PoolJustCalled(env, key, NP.Nodepool(NP.ShowNodepool(ShowFailed))) || PoolJustCalled(env, key, NP.Nodepool(NP.GiveUp))
    case AnyFunction(_) => true
    case _ => JustCalled(env, CP.Cluster(CP.ShowCluster(ShowFailed))) || JustCalled(env, CP.Cluster(CP.GiveUp))
  }

  /** The wait has ended, and its success or failure was observed. */
  ghost predicate Concluded(env: Environment, c: WaitCondition, r: Outcome)
    reads env
  {
    Ended(env, c, r) && (r.Success? ==> Observed(env, c)) && (r.Failure? ==> Refuted(env, c))
  }

  /** The object in memory of the reconcile that waits, and what else its frame carries along. */
  datatype Subject =
    | PlaneSubject(plane: ControlPlane, creates: nat, kept: (Option<Option<seq<EndpointEntry>>>, Option<Kubeconfig>))
    | PoolSubject(pool: Pool, cluster: Id)
    | NoSubject

  ghost function SubjectOf(env: Environment, c: WaitCondition): Subject
    reads env
  {
    var plane := env.world.plane.inFlight;
    match c
    case NodepoolIsActive(key) =>
      if key in env.world.fleet.inFlight then PoolSubject(env.PoolFrame(key).mem, env.PoolFrame(key).cluster) else NoSubject
    case NodepoolIsDeleted(key) =>
      if key in env.world.fleet.inFlight then PoolSubject(env.PoolFrame(key).mem, env.PoolFrame(key).cluster) else NoSubject
    case AnyFunction(_) => NoSubject
    case _ =>
      if plane.Some? then PlaneSubject(plane.value.mem, plane.value.creates, env.Kept()) else NoSubject
  }

  /** What holds after one evaluation of a condition that had `left` polls to go. */
  ghost predicate Polled(env: Environment, c: WaitCondition, left: nat, poll: Poll)
    reads env
  {
    if poll == NotYet then left > 0 && Polling(env, c, left - 1)
    else Concluded(env, c, Verdict(poll))
  }

  /** The same as Polled; the quantifier keeps it folded in the loop, which need not look inside. */
  ghost predicate Answered(env: Environment, c: WaitCondition, left: nat, poll: Poll)
    reads env
  {
    forall d, n, q {:trigger Polled(env, d, n, q)} :: d == c && n == left && q == poll ==> Polled(env, d, n, q)
  }

  lemma AfterClusterPoll(left: nat, answer: Shown<ClusterInfo>)
    requires left > 0
    ensures CP.AfterShow(CP.AtWait(left), answer) == (match answer
              case ShowFailed => CP.AtFailing(ControlPlaneReady)
              case Missing => CP.Closing(Panicked)
              case Found(info) => if info.status.phase == Available then CP.AtWaited else CP.AtWait(left - 1))
    ensures CP.AfterShow(CP.AtDeleteWait(left), answer) == (match answer
              case ShowFailed => CP.Closing(Errored)
              case Missing => CP.AtDeleteDone
              case Found(info) => if info.status.phase == Deleting then CP.AtDeleteWait(left - 1) else CP.AtDeleteDone)
  {
  }

  lemma AfterNodepoolPoll(f: NP.PoolFrame, left: nat, answer: Shown<NodepoolStatus>)
    requires left > 0
    ensures f.pc == NP.AtWait(left) ==> NP.NodepoolAdvance(f, NP.ShowNodepool(answer)) == f.(pc := match answer
              case ShowFailed => NP.AtFailing
              case Missing => NP.Closing(Panicked)
              case Found(st) => if st.phase == NpActive then NP.AtWaited else NP.AtWait(left - 1))
    ensures f.pc == NP.AtDeleteWait(left) ==> NP.NodepoolAdvance(f, NP.ShowNodepool(answer)) == f.(pc := match answer
              case ShowFailed => NP.AtDeleteReport(false)
              case Missing => NP.AtDeleteReport(true)
              case Found(st) => if st.phase == NpDeleting then NP.AtDeleteWait(left - 1) else NP.AtDeleteReport(true))
  {
  }

  /** The answer to a show request is what the cloud holds at this moment. */
  ghost predicate Shows(env: Environment, answer: Shown<ClusterInfo>)
    reads env
  {
    env.Running() && var id, clusters := env.Frame().mem.clusterId, env.world.cloud.clusters;
    match answer
    case Found(info) => id in clusters && clusters[id] == info
    case Missing => id !in clusters
    case ShowFailed => true
  }

  ghost predicate ShowsNodepool(env: Environment, key: Key, answer: Shown<NodepoolStatus>)
    reads env
  {
    env.RunningPool(key) && var f, cloud := env.PoolFrame(key), env.world.cloud;
    match answer
    case Found(st) => Reaches(cloud, f.cluster, f.mem.poolId) && cloud.nodepools[f.mem.poolId].status == st
    case Missing => !Reaches(cloud, f.cluster, f.mem.poolId)
    case ShowFailed => true
  }

  /** The condition function of waitForClusterActive. */
  method PollClusterActive(env: Environment, ghost left: nat) returns (poll: Poll, ghost shown: Shown<ClusterInfo>)
    requires left > 0 && Polling(env, ClusterIsActive, left)
    modifies env
    ensures Polled(env, ClusterIsActive, left, poll) && old(env.trace) <= env.trace && old(env.calls) <= env.calls
    ensures SubjectOf(env, ClusterIsActive) == old(SubjectOf(env, ClusterIsActive))
    ensures Logged(ClusterIsActive, old(LogOf(env, ClusterIsActive)), LogOf(env, ClusterIsActive), [poll])
    ensures env.calls == old(env.calls) + [CP.Cluster(CP.ShowCluster(shown))] && Shows(env, shown)
    ensures poll == match shown
                    case ShowFailed => Broken
                    case Missing => Panicking
                    case Found(info) => if info.status.phase == Available then Met else NotYet
  {
    ghost var log := env.calls;
    var cluster := env.ShowCluster();
    AfterClusterPoll(left, cluster);
    shown := cluster;
    if cluster.ShowFailed? {
      poll := Broken;
    } else if cluster.Missing? {
      poll := Panicking;
    } else if cluster.value.status.phase != Available {
      poll := NotYet;
    } else {
      poll := Met;
    }
    ClusterLogged(true, log, CP.Cluster(CP.ShowCluster(shown)), poll);
  }

  /** The condition function of waitForClusterDeleted. */
  method PollClusterDeleted(env: Environment, ghost left: nat) returns (poll: Poll, ghost shown: Shown<ClusterInfo>)
    requires left > 0 && Polling(env, ClusterIsDeleted, left)
    modifies env
    ensures Polled(env, ClusterIsDeleted, left, poll) && old(env.trace) <= env.trace && old(env.calls) <= env.calls
    ensures SubjectOf(env, ClusterIsDeleted) == old(SubjectOf(env, ClusterIsDeleted))
    ensures Logged(ClusterIsDeleted, old(LogOf(env, ClusterIsDeleted)), LogOf(env, ClusterIsDeleted), [poll])
    ensures env.calls == old(env.calls) + [CP.Cluster(CP.ShowCluster(shown))] && Shows(env, shown)
    ensures poll == match shown
                    case ShowFailed => Broken
                    case Missing => Met
                    case Found(info) => if info.status.phase == Deleting then NotYet else Met
  {
    ghost var log := env.calls;
    var cluster := env.ShowCluster();
    AfterClusterPoll(left, cluster);
    shown := cluster;
    if cluster.ShowFailed? {
      poll := Broken;
    } else if cluster.Missing? {
      poll := Met;
    } else if cluster.value.status.phase == Deleting {
      poll := NotYet;
    } else {
      poll := Met;
    }
    ClusterLogged(false, log, CP.Cluster(CP.ShowCluster(shown)), poll);
  }

  /** The condition function of waitForNodepoolActive. */
  method PollNodepoolActive(env: Environment, key: Key, ghost left: nat) returns (poll: Poll, ghost shown: Shown<NodepoolStatus>)
    requires left > 0 && Polling(env, NodepoolIsActive(key), left)
    modifies env
    ensures Polled(env, NodepoolIsActive(key), left, poll) && old(env.trace) <= env.trace && old(env.calls) <= env.calls
    ensures SubjectOf(env, NodepoolIsActive(key)) == old(SubjectOf(env, NodepoolIsActive(key)))
    ensures Logged(NodepoolIsActive(key), old(LogOf(env, NodepoolIsActive(key))), LogOf(env, NodepoolIsActive(key)), [poll])
    ensures env.PoolCalls(key) == old(env.PoolCalls(key)) + [NP.Nodepool(NP.ShowNodepool(shown))] && ShowsNodepool(env, key, shown)
    ensures poll == match shown
                    case ShowFailed => Broken
                    case Missing => Panicking
                    case Found(st) => if st.phase == NpActive then Met else NotYet
  {
    ghost var f, log := env.PoolFrame(key), env.PoolCalls(key);
    var np := env.ShowNodepool(key);
    AfterNodepoolPoll(f, left, np);
    shown := np;
    if np.ShowFailed? {
      poll := Broken;
    } else if np.Missing? {
      poll := Panicking;
    } else if np.value.phase != NpActive {
      poll := NotYet;
    } else {
      poll := Met;
    }
    NodepoolLogged(key, true, log, NP.Nodepool(NP.ShowNodepool(shown)), poll);
  }

  /** The condition function of waitForNodepoolDeleted. */
  method PollNodepoolDeleted(env: Environment, key: Key, ghost left: nat) returns (poll: Poll, ghost shown: Shown<NodepoolStatus>)
    requires left > 0 && Polling(env, NodepoolIsDeleted(key), left)
    modifies env
    ensures Polled(env, NodepoolIsDeleted(key), left, poll) && old(env.trace) <= env.trace && old(env.calls) <= env.calls
    ensures SubjectOf(env, NodepoolIsDeleted(key)) == old(SubjectOf(env, NodepoolIsDeleted(key)))
    ensures Logged(NodepoolIsDeleted(key), old(LogOf(env, NodepoolIsDeleted(key))), LogOf(env, NodepoolIsDeleted(key)), [poll])
    ensures env.PoolCalls(key) == old(env.PoolCalls(key)) + [NP.Nodepool(NP.ShowNodepool(shown))] && ShowsNodepool(env, key, shown)
    ensures poll == match shown
                    case ShowFailed => Broken
                    case Missing => Met
                    case Found(st) => if st.phase == NpDeleting then NotYet else Met
  {
    ghost var f, log := env.PoolFrame(key), env.PoolCalls(key);
    var np := env.ShowNodepool(key);
    AfterNodepoolPoll(f, left, np);
    shown := np;
    if np.ShowFailed? {
      poll := Broken;
    } else if np.Missing? {
      poll := Met;
    } else if np.value.phase == NpDeleting {
      poll := NotYet;
    } else {
      poll := Met;
    }
    NodepoolLogged(key, false, log, NP.Nodepool(NP.ShowNodepool(shown)), poll);
  }

  /** The call number i of a condition function. */
  method Evaluate(env: Environment, c: WaitCondition, i: nat, ghost left: nat) returns (poll: Poll)
    requires left > 0 && Answered(env, c, left + 1, NotYet)
    modifies env
    ensures Answered(env, c, left, poll) && (c.AnyFunction? ==> poll == c.results(i))
    ensures Logged(c, old(LogOf(env, c)), LogOf(env, c), [poll])
    ensures SubjectOf(env, c) == old(SubjectOf(env, c)) && old(env.trace) <= env.trace && old(env.calls) <= env.calls
  {
    ghost var shown, shownNodepool;
    ghost var log := LogOf(env, c);
    assert Polled(env, c, left + 1, NotYet);
    match c {
      case ClusterIsActive => poll, shown := PollClusterActive(env, left);
      case ClusterIsDeleted => poll, shown := PollClusterDeleted(env, left);
      case NodepoolIsActive(key) => poll, shownNodepool := PollNodepoolActive(env, key, left);
      case NodepoolIsDeleted(key) => poll, shownNodepool := PollNodepoolDeleted(env, key, left);
      case AnyFunction(results) =>
        poll := results(i);
        assert Logs(c, log, log, [poll]);
    }
  }

  /** The exit of a wait that ran out of polls. */
  method GiveUp(env: Environment, c: WaitCondition)
    requires Answered(env, c, 1, NotYet)
    modifies env
    ensures Concluded(env, c, Failure) && old(env.trace) <= env.trace && old(env.calls) <= env.calls
    ensures LogOf(env, c) == GivenUp(c, old(LogOf(env, c)))
    ensures SubjectOf(env, c) == old(SubjectOf(env, c))
  {
    assert Polled(env, c, 1, NotYet);
    match c {
      case NodepoolIsActive(key) => env.LocalPool(key, NP.Nodepool(NP.GiveUp));
      case NodepoolIsDeleted(key) => env.LocalPool(key, NP.Nodepool(NP.GiveUp));
      case AnyFunction(_) =>
      case _ => env.Local(CP.Cluster(CP.GiveUp));
    }
  }

  lemma ConcludedBy(env: Environment, c: WaitCondition, left: nat, poll: Poll)
    requires Answered(env, c, left, poll) && poll != NotYet
    ensures Concluded(env, c, Verdict(poll))
  {
    assert Polled(env, c, left, poll);
  }

  /** `polls` are the results of the condition function, in order. Success means that the cloud has just
      shown what was waited for. */
  method WaitUntil(env: Environment, c: WaitCondition, maxRetries: nat) returns (r: Outcome, ghost polls: seq<Poll>)
    requires Polling(env, c, maxRetries)
    modifies env
    ensures Waited(polls, maxRetries, r) && Concluded(env, c, r)
    ensures InOrder(c, polls) && WaitLog(c, old(LogOf(env, c)), LogOf(env, c), polls)
    ensures SubjectOf(env, c) == old(SubjectOf(env, c)) && old(env.trace) <= env.trace && old(env.calls) <= env.calls
  {
    polls := [];
    ghost var before := (SubjectOf(env, c), env.trace, env.calls);
    ghost var log := LogOf(env, c);
    NothingLogged(c, log);
    for i := 0 to maxRetries
      invariant |polls| == i && Polls(c, polls, i, NotYet)
      invariant Logged(c, log, LogOf(env, c), polls)
      invariant Answered(env, c, maxRetries - i + 1, NotYet)
      invariant SubjectOf(env, c) == before.0 && before.1 <= env.trace && before.2 <= env.calls
    {
      ghost var mid := LogOf(env, c);
      var poll := Evaluate(env, c, i, maxRetries - i);
      OneMore(c, polls, poll, maxRetries);
      LogsJoin(c, log, mid, LogOf(env, c), polls, poll);
      polls := polls + [poll];
      if poll != NotYet {
        ConcludedBy(env, c, maxRetries - i, poll);
        return Verdict(poll), polls;
      }
    }
    ghost var mid := LogOf(env, c);
    GiveUp(env, c);
    r := Failure;
  }

  /** A deletion that is waited for has happened: a cluster whose deletion was accepted is Deleting until it
      is gone, so the wait cannot have met anything else. */
  lemma DeletedMeansGone(env: Environment)
    requires Ended(env, ClusterIsDeleted, Success)
    ensures env.Frame().mem.clusterId !in env.world.cloud.clusters
  {
    ReachedIsReachable(env.start, env.trace, env.world);
    Runs.SystemHolds(env.start, env.trace, env.world);
  }

  lemma DeletedNodepoolMeansGone(env: Environment, key: Key)
    requires Ended(env, NodepoolIsDeleted(key), Success)
    ensures env.PoolFrame(key).mem.poolId !in env.world.cloud.nodepools
  {
    ReachedIsReachable(env.start, env.trace, env.world);
    Runs.SystemHolds(env.start, env.trace, env.world);
    assert Fleets.FrameFits(env.world.plane, env.world.cloud, Fleets.HeldIn(env.world.fleet, key), env.PoolFrame(key));
  }
}
