/** vpc.go, subnets.go and network.go. */
module NetworkService {
  import opened Types
  import opened ControlPlaneScope
  import opened Environment
  import CP = ControlPlaneProgram
  import opened Protocol
  import Runs

  /** Everything but the VPC id, the subnet id and the conditions. */
  function OutsideNetwork(m: ControlPlane): ControlPlane {
    m.(spec := m.spec.(vpcId := NO_ID, subnetId := NO_ID), status := m.status.(conds := map[]))
  }

  /** A create call whose answer is the id. */
  predicate MakesVpc(s: CP.CPStep, vpc: Option<Id>) {
    && s.Network? && s.network.CreateVpc?
    && vpc == if s.network.vpc.Done? then Some(s.network.vpc.id) else None
  }

  method CreateVPC(scope: ManagedControlPlaneScope) returns (vpc: Option<Id>)
    requires scope.Synced() && CP.NetworkGuard(scope.env.Frame(), CP.CreateVpc(MakeFailed))
    modifies scope.env
    ensures scope.env.Running() && old(scope.env.trace) <= scope.env.trace
    ensures scope.env.Kept() == old(scope.env.Kept())
    ensures match vpc
            case Some(id) =>
              && id != NO_ID && scope.env.Frame().pc == CP.AtVpc
              && scope.env.Frame().mem == scope.controlPlane.Value().(spec := scope.controlPlane.Value().spec.(vpcId := id))
            case None => scope.At(CP.AtFailing(VpcReady))
    ensures var before, after := old(scope.env.calls), scope.env.calls;
            |after| == |before| + 1 && before <= after && MakesVpc(after[|before|], vpc)
  {
    var made := scope.env.CreateVpc();
    return if made.Done? then Some(made.id) else None;
  }

  /** The first reconcile of a VPC says so in the persisted conditions. */
  method AnnounceVPC(scope: ManagedControlPlaneScope) returns (saved: bool)
    requires scope.At(CP.AtVpc) && scope.controlPlane.vpcId == NO_ID && VpcReady !in scope.controlPlane.conds
    modifies scope.env, scope.controlPlane
    ensures scope.At(if saved then CP.AtVpc else CP.AtFailing(VpcReady)) && old(scope.env.trace) <= scope.env.trace
    ensures scope.env.Kept() == old(scope.env.Kept())
    ensures scope.controlPlane.Value() == CP.WithCondition(old(scope.controlPlane.Value()), VpcReady, Condition(false, VpcCreationStartedReason))
    ensures saved ==> scope.env.world.plane.obj == scope.controlPlane.Value().(deleting := scope.env.world.plane.obj.deleting)
    ensures scope.env.calls == old(scope.env.calls) + [CP.Network(CP.StartVpc)] + [CP.Common(CP.Patch(saved))]
  {
    scope.controlPlane.MarkFalse(VpcReady, VpcCreationStartedReason);
    scope.env.Local(CP.Network(CP.StartVpc));
    saved := scope.PatchObject();
  }

  /** The object with the announcement that its VPC is about to be created. */
  function AnnouncedVpc(m: ControlPlane): ControlPlane {
    m.(status := m.status.(conds := m.status.conds[VpcReady := Condition(false, VpcCreationStartedReason)]))
  }

  /** The calls of reconcileVPC for an object m without a VPC id, which lead to the object m': the first time the
      announcement is patched; then a create, whose id is recorded. */
  predicate VpcCalls(before: seq<CP.CPStep>, after: seq<CP.CPStep>, m: ControlPlane, m': ControlPlane, ok: bool) {
    if VpcReady in m.status.conds then MakesVpcFrom(before, after, m, m', ok)
    else
      var started := before + [CP.Network(CP.StartVpc)];
      if after == started + [CP.Common(CP.Patch(false))] then m' == AnnouncedVpc(m) && !ok
      else MakesVpcFrom(started + [CP.Common(CP.Patch(true))], after, AnnouncedVpc(m), m', ok)
  }

  predicate MakesVpcFrom(before: seq<CP.CPStep>, after: seq<CP.CPStep>, m: ControlPlane, m': ControlPlane, ok: bool) {
    && |after| == |before| + 1 && before <= after
    && MakesVpc(after[|before|], if ok then Some(m'.spec.vpcId) else None)
    && m' == if ok then m.(spec := m.spec.(vpcId := m'.spec.vpcId)) else m
  }

  lemma AnnouncedFirst(before: seq<CP.CPStep>, after: seq<CP.CPStep>, m: ControlPlane, m': ControlPlane, ok: bool)
    requires VpcReady !in m.status.conds
    requires MakesVpcFrom(before + [CP.Network(CP.StartVpc)] + [CP.Common(CP.Patch(true))], after, AnnouncedVpc(m), m', ok)
    ensures VpcCalls(before, after, m, m', ok)
  {
  }

  /** A VPC id is obtained once; one that is there is left alone and nothing is called. */
  method ReconcileVPC(scope: ManagedControlPlaneScope) returns (ok: bool)
    requires scope.At(CP.AtVpc)
    modifies scope.env, scope.controlPlane
    ensures scope.At(if ok then CP.AtVpc else CP.AtFailing(VpcReady)) && old(scope.env.trace) <= scope.env.trace
    ensures scope.env.Kept() == old(scope.env.Kept())
    ensures OutsideNetwork(scope.controlPlane.Value()) == old(OutsideNetwork(scope.controlPlane.Value()))
    ensures scope.controlPlane.subnetId == old(scope.controlPlane.subnetId)
    ensures ok ==> scope.controlPlane.vpcId != NO_ID
    ensures !ok ==> scope.controlPlane.vpcId == NO_ID
    ensures old(scope.controlPlane.vpcId) != NO_ID ==>
              ok && scope.controlPlane.Value() == old(scope.controlPlane.Value()) && scope.env.trace == old(scope.env.trace)
    ensures old(scope.controlPlane.vpcId) == NO_ID ==>
              VpcCalls(old(scope.env.calls), scope.env.calls, old(scope.controlPlane.Value()), scope.controlPlane.Value(), ok)
  {
    var cp := scope.controlPlane;
    if cp.vpcId != NO_ID {
      return true;
    }
    ghost var before, m := scope.env.calls, cp.Value();
    if !cp.Has(VpcReady) {
      var saved := AnnounceVPC(scope);
      if !saved {
        return false;
      }
    }
    ok := MakeVPC(scope);
    if VpcReady !in m.status.conds {
      AnnouncedFirst(before, scope.env.calls, m, cp.Value(), ok);
    }
  }

  /** The create, and its id recorded. */
  method MakeVPC(scope: ManagedControlPlaneScope) returns (ok: bool)
    requires scope.At(CP.AtVpc) && scope.controlPlane.vpcId == NO_ID && VpcReady in scope.controlPlane.conds
    modifies scope.env, scope.controlPlane
    ensures scope.At(if ok then CP.AtVpc else CP.AtFailing(VpcReady)) && old(scope.env.trace) <= scope.env.trace
    ensures scope.env.Kept() == old(scope.env.Kept())
    ensures scope.controlPlane.vpcId != NO_ID <==> ok
    ensures MakesVpcFrom(old(scope.env.calls), scope.env.calls, old(scope.controlPlane.Value()), scope.controlPlane.Value(), ok)
  {
    var vpc := CreateVPC(scope);
    if vpc.None? {
      return false;
    }
    scope.controlPlane.vpcId := vpc.value;
    return true;
  }

  /** The calls of createSubnet, and what it makes of the answers: the id of a new subnet; on a conflict the
      first subnet of the list; a panic exactly on an empty list. */
  predicate Adopts(before: seq<CP.CPStep>, after: seq<CP.CPStep>, r: Outcome, subnet: Id) {
    && |after| > |before| && after[|before|].Network? && after[|before|].network.CreateSubnet?
    && match after[|before|].network.subnet
       case SubnetMade(id) => |after| == |before| + 1 && r == Success && subnet == id
       case SubnetConflict =>
         && |after| == |before| + 2 && after[|before| + 1].Network? && after[|before| + 1].network.ListSubnets?
         && (match after[|before| + 1].network.ids
             case None => r == Failure
             case Some(ids) => if ids == [] then r == Panic else r == Success && subnet == ids[0])
       case _ => |after| == |before| + 1 && r == Failure
  }

  method CreateSubnet(scope: ManagedControlPlaneScope) returns (r: Outcome, subnet: Id)
    requires scope.At(CP.AtSubnet) && scope.controlPlane.subnetId == NO_ID
    modifies scope.env
    ensures scope.env.Running() && old(scope.env.trace) <= scope.env.trace
    ensures scope.env.Kept() == old(scope.env.Kept())
    ensures match r
            case Success =>
              && subnet != NO_ID && scope.env.Frame().pc == CP.AtSubnet
              && scope.env.Frame().mem == scope.controlPlane.Value().(spec := scope.controlPlane.Value().spec.(subnetId := subnet))
            case Failure => scope.At(CP.AtFailing(SubnetsReady))
            case Panic => scope.At(CP.Closing(Panicked))
    ensures Adopts(old(scope.env.calls), scope.env.calls, r, subnet)
  {
    subnet := NO_ID;
    var reply := scope.env.CreateSubnet();
    match reply {
      case SubnetMade(id) => return Success, id;
      case SubnetConflict =>
        var ids := scope.env.ListSubnets();
        if ids.None? {
          return Failure, NO_ID;
        }
        if ids.value == [] {
          return Panic, NO_ID;
        }
        FoundIsAnId(scope, ids.value);
        return Success, ids.value[0];
      case _ => return Failure, NO_ID;
    }
  }

  /** A listed subnet has an id. */
  lemma FoundIsAnId(scope: ManagedControlPlaneScope, ids: seq<Id>)
    requires scope.env.Running() && ListsSubnets(scope.env.world.cloud, scope.env.Frame().mem.spec.vpcId, ids)
    ensures NO_ID !in ids
  {
    ReachedIsReachable(scope.env.start, scope.env.trace, scope.env.world);
    Runs.SystemHolds(scope.env.start, scope.env.trace, scope.env.world);
  }

  method ReconcileSubnets(scope: ManagedControlPlaneScope) returns (r: Outcome)
    requires scope.At(CP.AtSubnet)
    modifies scope.env, scope.controlPlane
    ensures scope.Synced() && old(scope.env.trace) <= scope.env.trace
    ensures scope.env.Kept() == old(scope.env.Kept())
    ensures scope.controlPlane.conds == old(scope.controlPlane.conds) && scope.controlPlane.vpcId == old(scope.controlPlane.vpcId)
    ensures OutsideNetwork(scope.controlPlane.Value()) == old(OutsideNetwork(scope.controlPlane.Value()))
    ensures scope.env.Frame().pc == (match r
                                     case Success => CP.AtSubnet
                                     case Failure => CP.AtFailing(SubnetsReady)
                                     case Panic => CP.Closing(Panicked))
    ensures r.Success? ==> scope.controlPlane.subnetId != NO_ID
    ensures old(scope.controlPlane.subnetId) != NO_ID ==>
              r.Success? && scope.controlPlane.Value() == old(scope.controlPlane.Value()) && scope.env.trace == old(scope.env.trace)
    ensures old(scope.controlPlane.subnetId) == NO_ID ==>
              && Adopts(old(scope.env.calls), scope.env.calls, r, scope.controlPlane.subnetId)
              && (!r.Success? ==> scope.controlPlane.subnetId == NO_ID)
  {
    var cp := scope.controlPlane;
    if cp.subnetId != NO_ID {
      return Success;
    }
    if !cp.Has(VpcReady) {
      // ReconcileNetwork has just marked the condition.
      scope.Facts();
      assert false;
    }
    var id;
    r, id := CreateSubnet(scope);
    if r.Success? {
      cp.subnetId := id;
    }
  }

  /** The VPC half of ReconcileNetwork. */
  method NetworkVPC(scope: ManagedControlPlaneScope) returns (ok: bool)
    requires scope.At(CP.AtVpc)
    modifies scope.env, scope.controlPlane
    ensures scope.At(if ok then CP.AtSubnet else CP.Closing(Errored)) && old(scope.env.trace) <= scope.env.trace
    ensures scope.env.Kept() == old(scope.env.Kept())
    ensures OutsideNetwork(scope.controlPlane.Value()) == old(OutsideNetwork(scope.controlPlane.Value()))
    ensures scope.controlPlane.subnetId == old(scope.controlPlane.subnetId)
    ensures if ok then scope.controlPlane.vpcId != NO_ID && Holds(scope.controlPlane.Value(), VpcReady)
            else scope.controlPlane.vpcId == NO_ID && MarkedFalse(scope.controlPlane.Value(), VpcReady, VpcReconciliationFailedReason)
    ensures old(scope.controlPlane.vpcId) != NO_ID ==>
              && ok && scope.controlPlane.vpcId == old(scope.controlPlane.vpcId)
              && scope.env.trace == old(scope.env.trace) + [ByPlane(Do(CP.Network(CP.VpcDone)))]
  {
    ok := ReconcileVPC(scope);
    if ok {
      scope.controlPlane.MarkTrue(VpcReady);
      scope.env.Local(CP.Network(CP.VpcDone));
    } else {
      scope.Fail(VpcReady, VpcReconciliationFailedReason);
    }
  }

  /** The subnet half of ReconcileNetwork. */
  method NetworkSubnets(scope: ManagedControlPlaneScope) returns (r: Outcome)
    requires scope.At(CP.AtSubnet) && Holds(scope.controlPlane.Value(), VpcReady)
    modifies scope.env, scope.controlPlane
    ensures scope.At(AfterNetwork(r)) && old(scope.env.trace) <= scope.env.trace
    ensures scope.env.Kept() == old(scope.env.Kept())
    ensures OutsideNetwork(scope.controlPlane.Value()) == old(OutsideNetwork(scope.controlPlane.Value()))
    ensures scope.controlPlane.vpcId == old(scope.controlPlane.vpcId)
    ensures Holds(scope.controlPlane.Value(), VpcReady)
    ensures r.Success? ==> scope.controlPlane.subnetId != NO_ID && Holds(scope.controlPlane.Value(), SubnetsReady)
    ensures r.Failure? ==> MarkedFalse(scope.controlPlane.Value(), SubnetsReady, SubnetsReconciliationFailedReason)
    ensures old(scope.controlPlane.subnetId) != NO_ID ==>
              && r.Success? && scope.controlPlane.subnetId == old(scope.controlPlane.subnetId)
              && scope.env.trace == old(scope.env.trace) + [ByPlane(Do(CP.Network(CP.SubnetDone)))]
  {
    r := ReconcileSubnets(scope);
    match r {
      case Success =>
        scope.controlPlane.MarkTrue(SubnetsReady);
        scope.env.Local(CP.Network(CP.SubnetDone));
      case Failure =>
        scope.Fail(SubnetsReady, SubnetsReconciliationFailedReason);
      case Panic =>
    }
  }

  function AfterNetwork(r: Outcome): CP.Pc {
    match r
    case Success => CP.AtCluster
    case Failure => CP.Closing(Errored)
    case Panic => CP.Closing(Panicked)
  }

  /** Success leaves a VPC id, a subnet id and both conditions true; failure leaves the condition of the part
      that failed false, with its reason; ids that were there are kept and not asked for again. */
  method ReconcileNetwork(scope: ManagedControlPlaneScope) returns (r: Outcome)
    requires scope.At(CP.AtVpc)
    modifies scope.env, scope.controlPlane
    ensures scope.At(AfterNetwork(r)) && old(scope.env.trace) <= scope.env.trace
    ensures scope.env.Kept() == old(scope.env.Kept())
    ensures OutsideNetwork(scope.controlPlane.Value()) == old(OutsideNetwork(scope.controlPlane.Value()))
    ensures r.Success? ==>
              && scope.controlPlane.vpcId != NO_ID && scope.controlPlane.subnetId != NO_ID
              && Holds(scope.controlPlane.Value(), VpcReady)
              && Holds(scope.controlPlane.Value(), SubnetsReady)
    ensures r.Failure? ==>
              if scope.controlPlane.vpcId == NO_ID
              then MarkedFalse(scope.controlPlane.Value(), VpcReady, VpcReconciliationFailedReason)
              else && Holds(scope.controlPlane.Value(), VpcReady)
                   && MarkedFalse(scope.controlPlane.Value(), SubnetsReady, SubnetsReconciliationFailedReason)
    ensures old(scope.controlPlane.vpcId) != NO_ID ==> scope.controlPlane.vpcId == old(scope.controlPlane.vpcId)
    ensures old(scope.controlPlane.subnetId) != NO_ID ==> scope.controlPlane.subnetId == old(scope.controlPlane.subnetId)
    ensures old(scope.controlPlane.vpcId) != NO_ID && old(scope.controlPlane.subnetId) != NO_ID ==>
              && r.Success?
              && scope.env.trace == old(scope.env.trace) + [ByPlane(Do(CP.Network(CP.VpcDone)))] + [ByPlane(Do(CP.Network(CP.SubnetDone)))]
  {
    var ok := NetworkVPC(scope);
    if !ok {
      return Failure;
    }
    r := NetworkSubnets(scope);
  }
}
