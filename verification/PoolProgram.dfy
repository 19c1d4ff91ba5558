/** One reconcile of a machine pool as a sequence of labelled steps, in the style of ControlPlaneProgram. */
module PoolProgram {
  import opened Types
  import opened StatusRules
  import opened ProviderIds

  datatype PoolPc =
    | AtReadControlPlane
    | AtStart
    | AtFinalizerPatch
    | AtServiceInit
    | AtReconcile
    | AtCreate
    | AtStatus(st: NodepoolStatus, again: bool)
    | AtListNodes(st: NodepoolStatus, again: bool)
    | AtStatusPatch(phase: NodepoolPhase, again: bool)
    | AtWait(left: nat)
    | AtWaited
    | AtReconciled
    | AtFailing
    | AtDeleteInit
    | AtDeleteShow
    | AtDeleteMark
    | AtDeleteMarkPatch
    | AtDeleteCall
    | AtDeleteWait(left: nat)
    | AtDeleteReport(ok: bool)
    | AtDeleteReportPatch(ok: bool)
    | AtDeleteDone(reported: bool)
    | Closing(exit: Exit)

  /** The steps of the reconciler and of the scope. */
  datatype PoolCommonStep =
    | ReadControlPlane(cluster: Id)
    | Begin
    | Patch(saved: bool)
    | NewService(ok: bool)
    | MarkReady
    | MarkFailed

  /** The steps of reconcileNodepool; ShowNodepool and GiveUp also serve the deletion. */
  datatype NodepoolStep =
    | ShowNodepool(answer: Shown<NodepoolStatus>)
    | CreateNodepool(made: Made<NodepoolStatus>)
    | ObserveStatus
    | ListNodes(nodes: Option<seq<Node>>)
    | GiveUp

  datatype PoolTeardownStep =
    | MarkDeleting
    | DeleteNodepool(removal: Removal)
    | ReportDeletion
    | RemoveFinalizer

  datatype PoolStep =
    | Common(common: PoolCommonStep)
    | Nodepool(nodepool: NodepoolStep)
    | Teardown(teardown: PoolTeardownStep)

  /** `cluster` is the cluster id label of the control plane copy that the reconcile read. */
  datatype PoolFrame = PoolFrame(mem: Pool, cluster: Id, pc: PoolPc)

  // ---------------------------------------------------------------- the reconciler and the scope

  predicate CommonGuard(f: PoolFrame, s: PoolCommonStep) {
    match s
    case ReadControlPlane(_) => f.pc.AtReadControlPlane?
    case Begin => f.pc.AtStart?
    case Patch(_) => f.pc.AtFinalizerPatch? || f.pc.AtStatusPatch? || f.pc.AtDeleteMarkPatch? || f.pc.AtDeleteReportPatch?
    case NewService(_) => f.pc.AtServiceInit? || f.pc.AtDeleteInit?
    case MarkReady => f.pc.AtReconciled?
    case MarkFailed => f.pc.AtFailing?
  }

  predicate MustWait(phase: NodepoolPhase, again: bool) {
    !again && (phase == NpSynchronizing || phase == NpSynchronized)
  }

  function AfterPatch(pc: PoolPc, saved: bool): PoolPc {
    match pc
    case AtFinalizerPatch => if saved then AtServiceInit else Closing(Errored)
    case AtStatusPatch(phase, again) =>
      if !saved then AtFailing else if MustWait(phase, again) then AtWait(MAX_POLLS) else AtReconciled
    case AtDeleteMarkPatch => if saved then AtDeleteCall else Closing(Errored)
    case AtDeleteReportPatch(ok) => if ok && saved then AtDeleteDone(true) else Closing(Errored)
    case _ => pc
  }

  function WithCond(m: Pool, status: bool, reason: Reason): Pool {
    m.(cond := Some(Condition(status, reason)))
  }

  function CommonAdvance(f: PoolFrame, s: PoolCommonStep): PoolFrame
    requires CommonGuard(f, s)
  {
    match s
    case ReadControlPlane(cluster) => f.(cluster := cluster, pc := AtStart)
    case Begin =>
      if f.mem.deleting then f.(pc := AtDeleteInit)
      else if f.mem.finalizer then f.(pc := AtServiceInit)
      else f.(mem := f.mem.(finalizer := true), pc := AtFinalizerPatch)
    case Patch(saved) => f.(pc := AfterPatch(f.pc, saved))
    case NewService(ok) =>
      f.(pc := if !ok then Closing(Errored) else if f.pc.AtServiceInit? then AtReconcile else AtDeleteShow)
    case MarkReady => f.(mem := WithCond(f.mem, true, NoReason), pc := Closing(Finished))
    case MarkFailed => f.(mem := WithCond(f.mem, false, NodepoolReconciliationFailedReason), pc := Closing(Errored))
  }

  // ---------------------------------------------------------------- node pool

  predicate NodepoolGuard(f: PoolFrame, s: NodepoolStep) {
    match s
    case ShowNodepool(_) =>
      || (f.pc.AtReconcile? && f.mem.poolId != NO_ID) || (f.pc.AtWait? && f.pc.left > 0) || f.pc.AtWaited?
      || f.pc.AtDeleteShow? || (f.pc.AtDeleteWait? && f.pc.left > 0)
    case CreateNodepool(_) => f.pc.AtCreate? || (f.pc.AtReconcile? && f.mem.poolId == NO_ID)
    case ObserveStatus => f.pc.AtStatus?
    case ListNodes(_) => f.pc.AtListNodes?
    case GiveUp => (f.pc.AtWait? || f.pc.AtDeleteWait?) && f.pc.left == 0
  }

  function AfterFound(pc: PoolPc, st: NodepoolStatus): PoolPc
    requires pc.AtWait? || pc.AtDeleteWait? ==> pc.left > 0
  {
    match pc
    case AtReconcile => AtStatus(st, false)
    case AtWait(n) => if st.phase == NpActive then AtWaited else AtWait(n - 1)
    case AtWaited => AtStatus(st, true)
    case AtDeleteShow => AtDeleteMark
    case AtDeleteWait(n) => if st.phase == NpDeleting then AtDeleteWait(n - 1) else AtDeleteReport(true)
    case _ => pc
  }

  /** A 404: make the node pool, or be done deleting it; in the wait for it to become active the code
      dereferences the missing answer. */
  function AfterMissing(pc: PoolPc): PoolPc {
    match pc
    case AtReconcile => AtCreate
    case AtDeleteShow => AtDeleteDone(false)
    case AtDeleteWait(_) => AtDeleteReport(true)
    case _ => Closing(Panicked)
  }

  function AfterShowFailed(pc: PoolPc): PoolPc {
    match pc
    case AtDeleteShow => Closing(Errored)
    case AtDeleteWait(_) => AtDeleteReport(false)
    case _ => AtFailing
  }

  /** Whether setStatus goes on to rebuild the provider ids: the pool is ready after applying the phase
      and the node pool reports nodes. */
  predicate Refreshes(m: Pool, st: NodepoolStatus) {
    m.ready && st.currentNode.Some? && st.currentNode.value > 0
  }

  function NodepoolAdvance(f: PoolFrame, s: NodepoolStep): PoolFrame
    requires NodepoolGuard(f, s)
  {
    match s
    case ShowNodepool(answer) => f.(pc := match answer
      case Found(st) => AfterFound(f.pc, st)
      case Missing => AfterMissing(f.pc)
      case ShowFailed => AfterShowFailed(f.pc))
    case CreateNodepool(made) =>
      if made.Done? then f.(mem := f.mem.(poolId := made.id), pc := AtStatus(made.value, false)) else f.(pc := AtFailing)
    case ObserveStatus =>
      var m := ObservePool(f.mem, f.pc.st.phase);
      f.(mem := m, pc := if Refreshes(m, f.pc.st) then AtListNodes(f.pc.st, f.pc.again) else AtStatusPatch(f.pc.st.phase, f.pc.again))
    case ListNodes(nodes) =>
      if nodes.None? then f.(pc := AtFailing)
      else
        var m := f.mem.(providerIds := Index(nodes.value, f.mem.poolId), replicas := f.pc.st.currentNode.GetOr(0));
        f.(mem := m, pc := AtStatusPatch(f.pc.st.phase, f.pc.again))
    case GiveUp => f.(pc := if f.pc.AtWait? then AtFailing else AtDeleteReport(false))
  }

  // ---------------------------------------------------------------- deletion

  predicate TeardownGuard(f: PoolFrame, s: PoolTeardownStep) {
    match s
    case MarkDeleting => f.pc.AtDeleteMark?
    case DeleteNodepool(_) => f.pc.AtDeleteCall?
    case ReportDeletion => f.pc.AtDeleteReport?
    case RemoveFinalizer => f.pc.AtDeleteDone?
  }

  function TeardownAdvance(f: PoolFrame, s: PoolTeardownStep): PoolFrame
    requires TeardownGuard(f, s)
  {
    match s
    case MarkDeleting => f.(mem := WithCond(f.mem, false, DeletingReason), pc := AtDeleteMarkPatch)
    case DeleteNodepool(removal) => f.(pc := match removal
      case Accepted => AtDeleteWait(MAX_POLLS)
      case NotFound => AtDeleteReport(true)
      case RemovalFailed => AtDeleteReport(false))
    case ReportDeletion =>
      f.(mem := WithCond(f.mem, false, if f.pc.ok then DeletedReason else DeletingFailedReason), pc := AtDeleteReportPatch(f.pc.ok))
    case RemoveFinalizer => f.(mem := f.mem.(finalizer := false), pc := Closing(Finished))
  }

  // ---------------------------------------------------------------- all steps

  predicate PoolGuard(f: PoolFrame, s: PoolStep) {
    match s
    case Common(c) => CommonGuard(f, c)
    case Nodepool(n) => NodepoolGuard(f, n)
    case Teardown(t) => TeardownGuard(f, t)
  }

  function PoolNext(f: PoolFrame, s: PoolStep): PoolFrame
    requires PoolGuard(f, s)
  {
    match s
    case Common(c) => CommonAdvance(f, c)
    case Nodepool(n) => NodepoolAdvance(f, n)
    case Teardown(t) => TeardownAdvance(f, t)
  }

  /** The frame with which a reconcile starts: a fresh read of the pool, before the control plane is read. */
  function PoolOpened(p: Pool): PoolFrame {
    PoolFrame(p, NO_ID, AtReadControlPlane)
  }

  // ---------------------------------------------------------------- what every frame satisfies

  predicate InDeletion(pc: PoolPc) {
    || pc.AtDeleteInit? || pc.AtDeleteShow? || pc.AtDeleteMark? || pc.AtDeleteMarkPatch? || pc.AtDeleteCall?
    || pc.AtDeleteWait? || pc.AtDeleteReport? || pc.AtDeleteReportPatch? || pc.AtDeleteDone?
  }

  /** The places before the reconciler has looked at the deletion timestamp. */
  predicate Early(pc: PoolPc) {
    pc.AtReadControlPlane? || pc.AtStart?
  }

  /** The deletion path is taken exactly by a deleted pool, and the finalizer leaves memory only when the
      deletion has finished; a pool whose deletion did not finish keeps it. */
  predicate PoolFrameInv(f: PoolFrame) {
    && (!f.pc.Closing? && !Early(f.pc) ==> (f.mem.deleting <==> InDeletion(f.pc)))
    && (!Early(f.pc) && !f.mem.deleting ==> f.mem.finalizer)
    && (f.mem.deleting && !f.mem.finalizer ==> f.pc == Closing(Finished))
    && (f.pc == Closing(Finished) && f.mem.deleting ==> !f.mem.finalizer)
    && (f.pc.AtListNodes? ==> Refreshes(f.mem, f.pc.st))
    && (f.pc.AtDeleteReportPatch? ==>
          f.mem.cond == Some(Condition(false, if f.pc.ok then DeletedReason else DeletingFailedReason)))
  }

  lemma PoolFrameInvSteps(f: PoolFrame, s: PoolStep)
    requires PoolFrameInv(f) && PoolGuard(f, s)
    ensures PoolFrameInv(PoolNext(f, s))
    ensures PoolNext(f, s).mem.deleting == f.mem.deleting && PoolNext(f, s).mem.labelled == f.mem.labelled
  {
    match s
    case Common(c) =>
    case Nodepool(n) =>
    case Teardown(t) =>
  }
}
