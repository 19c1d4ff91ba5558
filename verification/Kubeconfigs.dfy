/** The kubeconfig secret: how it is first built and how its client certificate is renewed. */
module Kubeconfigs {
  import opened Types

  datatype Credentials = Credentials(cert: string, key: string)

  /** An api.AuthInfo: the two fields the controller writes, and a token standing for all the others. */
  datatype AuthInfo = AuthInfo(cert: string, key: string, token: string)

  datatype ClusterEntry = ClusterEntry(server: APIEndpoint, insecureSkipTLSVerify: bool)

  datatype ContextEntry = ContextEntry(cluster: string, authInfo: string)

  datatype Kubeconfig = Kubeconfig(
    clusters: map<string, ClusterEntry>,
    contexts: map<string, ContextEntry>,
    currentContext: string,
    authInfos: map<string, AuthInfo>)

  /** getKubeConfigUserName for the CAPI user. */
  function UserName(clusterName: string): string {
    clusterName + "-capi-admin"
  }

  /** createBaseKubeConfig. */
  function Base(clusterName: string, server: APIEndpoint, creds: Credentials): Kubeconfig {
    var user := UserName(clusterName);
    var context := user + "@" + clusterName;
    Kubeconfig(
      map[clusterName := ClusterEntry(server, true)],
      map[context := ContextEntry(clusterName, user)],
      context,
      map[user := AuthInfo(creds.cert, creds.key, "")])
  }

  /** The effect of updateCAPIKubeconfigSecret on the configuration it loads. */
  function Renew(cfg: Kubeconfig, user: string, creds: Credentials): Kubeconfig
    requires user in cfg.authInfos
  {
    cfg.(authInfos := cfg.authInfos[user := cfg.authInfos[user].(cert := creds.cert, key := creds.key)])
  }

  /** The current context exists and names an existing cluster and user. */
  predicate Resolves(cfg: Kubeconfig) {
    && cfg.currentContext in cfg.contexts
    && var context := cfg.contexts[cfg.currentContext];
      context.cluster in cfg.clusters && context.authInfo in cfg.authInfos
  }

  /** What every stored kubeconfig of the cluster `clusterName` satisfies. */
  predicate Usable(cfg: Kubeconfig, clusterName: string) {
    && Resolves(cfg)
    && cfg.contexts[cfg.currentContext] == ContextEntry(clusterName, UserName(clusterName))
    && UserName(clusterName) in cfg.authInfos
  }

  /** `after` differs from `before` at most in the certificate and key of `user`. */
  predicate SameButCredentials(before: Kubeconfig, after: Kubeconfig, user: string) {
    && after.clusters == before.clusters
    && after.contexts == before.contexts
    && after.currentContext == before.currentContext
    && after.authInfos.Keys == before.authInfos.Keys
    && (forall u :: u in before.authInfos && u != user ==> after.authInfos[u] == before.authInfos[u])
    && (user in before.authInfos ==> after.authInfos[user].token == before.authInfos[user].token)
  }

  /** Whoever uses the configuration as it is logs in to the cluster, at this endpoint and without checking its
      certificate, as the CAPI user with these credentials. */
  predicate LogsIn(cfg: Kubeconfig, clusterName: string, server: APIEndpoint, creds: Credentials) {
    && Resolves(cfg)
    && var context := cfg.contexts[cfg.currentContext];
       && context.cluster == clusterName && context.authInfo == clusterName + "-capi-admin"
       && cfg.clusters[context.cluster].server == server && cfg.clusters[context.cluster].insecureSkipTLSVerify
       && cfg.authInfos[context.authInfo].cert == creds.cert && cfg.authInfos[context.authInfo].key == creds.key
  }

  lemma BaseIsUsable(clusterName: string, server: APIEndpoint, creds: Credentials)
    ensures Usable(Base(clusterName, server, creds), clusterName)
    ensures LogsIn(Base(clusterName, server, creds), clusterName, server, creds)
  {
  }

  /** A renewed configuration logs in where the old one did, with the new credentials. */
  predicate Renewed(before: Kubeconfig, after: Kubeconfig, clusterName: string, creds: Credentials) {
    && SameButCredentials(before, after, clusterName + "-capi-admin")
    && clusterName + "-capi-admin" in after.authInfos
    && after.authInfos[clusterName + "-capi-admin"].cert == creds.cert
    && after.authInfos[clusterName + "-capi-admin"].key == creds.key
  }

  /** The configuration after renewing once for each element of `renewals`, oldest first. */
  function RenewAll(cfg: Kubeconfig, user: string, renewals: seq<Credentials>): Kubeconfig
    requires user in cfg.authInfos
    decreases |renewals|
  {
    if renewals == [] then cfg else RenewAll(Renew(cfg, user, renewals[0]), user, renewals[1..])
  }

  /** Any number of renewals keeps the configuration usable, finds the user each time, and leaves
      everything but that user's certificate and key alone; the last certificate wins. */
  lemma {:induction false} RenewalsKeepUsable(cfg: Kubeconfig, clusterName: string, renewals: seq<Credentials>)
    requires Usable(cfg, clusterName)
    ensures var after := RenewAll(cfg, UserName(clusterName), renewals);
            && Usable(after, clusterName)
            && SameButCredentials(cfg, after, UserName(clusterName))
            && (renewals != [] ==>
                  var info := after.authInfos[UserName(clusterName)];
                  Credentials(info.cert, info.key) == renewals[|renewals| - 1])
    decreases |renewals|
  {
    if renewals != [] {
      RenewalsKeepUsable(Renew(cfg, UserName(clusterName), renewals[0]), clusterName, renewals[1..]);
    }
  }

  /** A configuration loaded into memory (clientcmd.Load), edited in place and written back. */
  class LoadedConfig {
    const clusters: map<string, ClusterEntry>
    const contexts: map<string, ContextEntry>
    const currentContext: string
    var authInfos: map<string, AuthInfo>

    ghost function Value(): Kubeconfig
      reads this
    {
      Kubeconfig(clusters, contexts, currentContext, authInfos)
    }

    constructor Load(cfg: Kubeconfig)
      ensures Value() == cfg
    {
      clusters, contexts, currentContext := cfg.clusters, cfg.contexts, cfg.currentContext;
      authInfos := cfg.authInfos;
    }

    /** The two field assignments through config.AuthInfos[userName]. */
    method SetClientData(user: string, creds: Credentials)
      requires user in authInfos
      modifies this
      ensures Value() == Renew(old(Value()), user, creds)
    {
      authInfos := authInfos[user := authInfos[user].(cert := creds.cert)];
      authInfos := authInfos[user := authInfos[user].(key := creds.key)];
    }

    method Write() returns (cfg: Kubeconfig)
      ensures cfg == Value()
    {
      cfg := Kubeconfig(clusters, contexts, currentContext, authInfos);
    }
  }
}
