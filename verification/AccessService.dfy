/** eip.go and config.go. */
module AccessService {
  import opened Types
  import opened Kubeconfigs
  import opened ControlPlaneScope
  import CP = ControlPlaneProgram

  /** The calls of reconcileEIP from the object m to the object m': a cluster that shows a public endpoint gets
      nothing; else a create, whose id is recorded, and after a successful one a bind, which decides. */
  predicate EipCalls(before: seq<CP.CPStep>, after: seq<CP.CPStep>, m: ControlPlane, m': ControlPlane, ok: bool) {
    && before < after && after[|before|].Access? && after[|before|].access.ShowEndpoints?
    && match after[|before|].access.public
       case None => |after| == |before| + 1 && !ok && m' == m
       case Some(true) => |after| == |before| + 1 && ok && m' == m
       case Some(false) =>
         && |after| > |before| + 1 && after[|before| + 1].Access? && after[|before| + 1].access.CreateEip?
         && var eip := after[|before| + 1].access.eip;
            if eip.Done? then
              && |after| == |before| + 3 && after[|before| + 2] == CP.Access(CP.BindEip(ok))
              && m' == m.(status := m.status.(eip := eip.id))
            else |after| == |before| + 2 && !ok && m' == m
  }

  /** At most one public IP is created, only when the cluster showed no public endpoint; success with a create
      means that the recorded one is bound. */
  method ReconcileEIP(scope: ManagedControlPlaneScope) returns (ok: bool)
    requires scope.At(CP.AtEipShow)
    modifies scope.env, scope.controlPlane
    ensures scope.At(if ok then CP.AtFinalShow else CP.AtFailing(ControlPlaneReady)) && old(scope.env.trace) <= scope.env.trace
    ensures scope.env.Kept() == old(scope.env.Kept())
    ensures EipCalls(old(scope.env.calls), scope.env.calls, old(scope.controlPlane.Value()), scope.controlPlane.Value(), ok)
    ensures old(scope.env.Frame()).creates <= scope.env.Frame().creates <= old(scope.env.Frame()).creates + 1
    ensures scope.env.Frame().creates == old(scope.env.Frame()).creates ==> scope.controlPlane.eip == old(scope.controlPlane.eip)
    ensures ok && scope.env.Frame().creates > old(scope.env.Frame()).creates ==>
              && scope.InfraClusterID() in scope.env.world.cloud.eipOf
              && scope.env.world.cloud.eipOf[scope.InfraClusterID()] == scope.controlPlane.eip
  {
    var public := scope.env.ShowClusterEndpoints();
    if public.None? {
      return false;
    }
    if public.value {
      return true;
    }
    var eip := scope.env.CreatePublicip();
    if !eip.Done? {
      return false;
    }
    scope.controlPlane.eip := eip.id;
    ok := scope.env.UpdateClusterEip();
  }

  /** Where a kubeconfig write leads. */
  function AfterWrite(ok: bool): CP.Pc {
    if ok then CP.AtReconciled else CP.AtFailing(ControlPlaneReady)
  }

  lemma CertPlaces(f: CP.CPFrame, creds: Option<Credentials>)
    requires f.pc.AtCert?
    ensures CP.AccessAdvance(f, CP.CreateCert(creds)).0 == f.mem
    ensures creds.None? ==> CP.AccessAdvance(f, CP.CreateCert(creds)).1 == CP.AtFailing(ControlPlaneReady)
    ensures creds.Some? && f.pc.stored.None? ==>
              CP.AccessAdvance(f, CP.CreateCert(creds)).1 == CP.AtSecretWrite(Base(f.mem.name, f.mem.spec.endpoint, creds.value))
    ensures creds.Some? && f.pc.stored.Some? && UserName(f.mem.name) in f.pc.stored.value.authInfos ==>
              CP.AccessAdvance(f, CP.CreateCert(creds)).1 == CP.AtSecretWrite(Renew(f.pc.stored.value, UserName(f.mem.name), creds.value))
  {
  }

  lemma WritePlaces(f: CP.CPFrame, written: bool)
    requires f.pc.AtSecretWrite?
    ensures CP.AccessAdvance(f, CP.WriteSecret(written)) == (if written then Initialized(f.mem) else f.mem, AfterWrite(written))
  {
  }

  function Initialized(m: ControlPlane): ControlPlane {
    m.(status := m.status.(initialized := true))
  }

  /** Once the secret is written, the machine has set Initialized and the code is about to. */
  ghost predicate Wrote(scope: ManagedControlPlaneScope, ok: bool)
    reads scope.env, scope.controlPlane
  {
    && scope.env.Running() && scope.env.Frame().pc == AfterWrite(ok)
    && scope.env.Frame().mem == if ok then Initialized(scope.controlPlane.Value()) else scope.controlPlane.Value()
  }

  /** The stored secret is usable. */
  ghost predicate SecretUsable(scope: ManagedControlPlaneScope)
    reads scope.env
  {
    scope.env.world.plane.secret.Some? && Usable(scope.env.world.plane.secret.value, scope.controlPlane.name)
  }

  /** The calls of both ways to a new secret: a certificate, and the write of a configuration with it. */
  predicate CertAndWrite(before: seq<CP.CPStep>, after: seq<CP.CPStep>, creds: Option<Credentials>, ok: bool) {
    var asked := before + [CP.Access(CP.CreateCert(creds))];
    if creds.None? then after == asked && !ok else after == asked + [CP.Access(CP.WriteSecret(ok))]
  }

  /** The stored kubeconfig logs in to the cluster with the certificate that was just created. */
  method CreateCAPIKubeconfigSecret(scope: ManagedControlPlaneScope) returns (ok: bool, ghost made: Option<Credentials>)
    requires scope.At(CP.AtCert(None))
    modifies scope.env
    ensures Wrote(scope, ok) && old(scope.env.trace) <= scope.env.trace
    ensures scope.env.Frame().chosen == old(scope.env.Frame()).chosen
    ensures CertAndWrite(old(scope.env.calls), scope.env.calls, made, ok)
    ensures if ok then SecretUsable(scope) && LogsIn(scope.env.world.plane.secret.value, scope.controlPlane.name, scope.controlPlane.endpoint, made.value)
            else scope.env.world.plane.secret == old(scope.env.world.plane.secret)
    ensures ok ==> scope.env.world.plane.secret.value == Base(scope.controlPlane.name, scope.controlPlane.endpoint, made.value)
  {
    ghost var f := scope.env.Frame();
    var creds := scope.env.CreateClusterCert();
    CertPlaces(f, creds);
    made := creds;
    if creds.None? {
      return false, made;
    }
    BaseIsUsable(scope.controlPlane.name, scope.controlPlane.endpoint, creds.value);
    f := scope.env.Frame();
    ok := scope.env.WriteSecret(Base(scope.controlPlane.name, scope.controlPlane.endpoint, creds.value));
    WritePlaces(f, ok);
  }

  /** The stored kubeconfig is the one that was read, with the certificate that was just created. */
  method UpdateCAPIKubeconfigSecret(scope: ManagedControlPlaneScope, stored: Kubeconfig) returns (ok: bool, ghost made: Option<Credentials>)
    requires scope.At(CP.AtCert(Some(stored)))
    modifies scope.env
    ensures Wrote(scope, ok) && old(scope.env.trace) <= scope.env.trace
    ensures scope.env.Frame().chosen == old(scope.env.Frame()).chosen
    ensures CertAndWrite(old(scope.env.calls), scope.env.calls, made, ok)
    ensures if ok then SecretUsable(scope) && Renewed(stored, scope.env.world.plane.secret.value, scope.controlPlane.name, made.value)
            else scope.env.world.plane.secret == old(scope.env.world.plane.secret)
  {
    scope.Facts();
    var config := new LoadedConfig.Load(stored);
    ghost var f := scope.env.Frame();
    var creds := scope.env.CreateClusterCert();
    CertPlaces(f, creds);
    made := creds;
    if creds.None? {
      return false, made;
    }
    config.SetClientData(UserName(scope.controlPlane.name), creds.value);
    var out := config.Write();
    f := scope.env.Frame();
    ok := scope.env.WriteSecret(out);
    WritePlaces(f, ok);
  }

  /** The calls of reconcileKubeconfig for the object m, which has its endpoint, and the secret that they leave:
      without one a new one, else the renewed one, with the certificate of this pass. */
  predicate KubeconfigCalls(before: seq<CP.CPStep>, after: seq<CP.CPStep>, m: ControlPlane, secret: Option<Kubeconfig>, ok: bool) {
    && before < after && after[|before|].Access? && after[|before|].access.GetSecret?
    && match after[|before|].access.read
       case None => |after| == |before| + 1 && !ok
       case Some(stored) =>
         && |after| > |before| + 1 && after[|before| + 1].Access? && after[|before| + 1].access.CreateCert?
         && CertAndWrite(after[..|before| + 1], after, after[|before| + 1].access.creds, ok)
         && (ok ==> secret.Some? && var creds := after[|before| + 1].access.creds.value;
                    match stored
                    case None => LogsIn(secret.value, m.name, m.spec.endpoint, creds)
                    case Some(cfg) => Renewed(cfg, secret.value, m.name, creds))
  }

  /** The same; the quantifier keeps it folded in the methods, which need not look inside. */
  ghost predicate KubeconfigLogged(before: seq<CP.CPStep>, after: seq<CP.CPStep>, m: ControlPlane, secret: Option<Kubeconfig>, ok: bool) {
    forall b, a, x, k, o {:trigger KubeconfigCalls(b, a, x, k, o)} ::
      b == before && a == after && x == m && k == secret && o == ok ==> KubeconfigCalls(b, a, x, k, o)
  }

  lemma ReadFails(before: seq<CP.CPStep>, m: ControlPlane, secret: Option<Kubeconfig>)
    ensures KubeconfigLogged(before, before + [CP.Access(CP.GetSecret(None))], m, secret, false)
  {
  }

  lemma ReadLeads(before: seq<CP.CPStep>, after: seq<CP.CPStep>, stored: Option<Kubeconfig>, m: ControlPlane, secret: Option<Kubeconfig>,
                  creds: Option<Credentials>, ok: bool)
    requires CertAndWrite(before + [CP.Access(CP.GetSecret(Some(stored)))], after, creds, ok)
    requires ok ==> secret.Some? && match stored
                    case None => LogsIn(secret.value, m.name, m.spec.endpoint, creds.value)
                    case Some(cfg) => Renewed(cfg, secret.value, m.name, creds.value)
    ensures KubeconfigLogged(before, after, m, secret, ok)
  {
    var read := before + [CP.Access(CP.GetSecret(Some(stored)))];
    assert after[..|before| + 1] == read;
  }

  /** Success means a written, usable secret and Initialized; failure changes neither secret nor memory. */
  method ReconcileKubeconfig(scope: ManagedControlPlaneScope) returns (ok: bool)
    requires scope.At(CP.AtSecretGet)
    modifies scope.env, scope.controlPlane
    ensures scope.At(AfterWrite(ok)) && old(scope.env.trace) <= scope.env.trace
    ensures scope.env.Frame().chosen == old(scope.env.Frame()).chosen
    ensures scope.controlPlane.Value() == if ok then Initialized(old(scope.controlPlane.Value())) else old(scope.controlPlane.Value())
    ensures if ok then SecretUsable(scope) else scope.env.world.plane.secret == old(scope.env.world.plane.secret)
    ensures KubeconfigLogged(old(scope.env.calls), scope.env.calls, old(scope.controlPlane.Value()), scope.env.world.plane.secret, ok)
  {
    ghost var before, m := scope.env.calls, scope.controlPlane.Value();
    var read := scope.env.GetSecret();
    if read.None? {
      ReadFails(before, m, scope.env.world.plane.secret);
      return false;
    }
    ghost var made;
    if read.value.None? {
      ok, made := CreateCAPIKubeconfigSecret(scope);
    } else {
      ok, made := UpdateCAPIKubeconfigSecret(scope, read.value.value);
    }
    ReadLeads(before, scope.env.calls, read.value, m, scope.env.world.plane.secret, made, ok);
    if ok {
      scope.controlPlane.initialized := true;
    }
  }
}
