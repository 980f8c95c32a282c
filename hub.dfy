/**
 * Hub bring-up: the condition-status lookup, the client configuration built
 * for each HubConfig with its throttling defaults, and the all-or-nothing
 * construction of the list of hub instances.
 *
 * Everything the code asks of other libraries (listing HubConfigs, converting
 * them, reading secrets, parsing a kubeconfig or a float, building a cluster)
 * is a field of `Environment`; the manager the clusters are added to is the
 * class `Manager`.
 */
module Hub {
  import opened Outcomes
  import Conditions

  /** Burst used when a HubConfig leaves Burst at zero. */
  const DefaultBurst: int := 200
  /** QPS used when a HubConfig leaves QPS empty. */
  const DefaultQps: real := 100.0
  /** The key of the referenced secret that holds the hub's kubeconfig. */
  const KubeconfigKey: string := "kubeconfig"

  type Bytes = seq<bv8>

  datatype HubConfigSpec = HubConfigSpec(kubeConfigSecretName: string, burst: int, qps: string)

  datatype HubConfig = HubConfig(name: string, namespace: string, spec: HubConfigSpec)

  /** A REST client configuration; only its throttling fields are interpreted here. */
  datatype RestConfig = RestConfig(host: string, qps: real, burst: int)

  /** Identifies the cluster object built for a hub. */
  type ClusterHandle = nat

  /**
   * One usable hub: its HubConfig, its cluster, and the client configuration
   * its cluster and clients were built from.
   */
  datatype HubInstance = HubInstance(hubConfig: HubConfig, cluster: ClusterHandle, clientConfig: RestConfig)

  /** A HubConfig as the dynamic client lists it, before conversion. */
  datatype Unstructured = Unstructured(name: string, content: map<string, string>)

  type SecretData = map<string, Bytes>

  /** The step at which bring-up failed, with the underlying error message. */
  datatype HubError =
    | PodNamespaceNotDefined
    | ListFailed(message: string)
    | ConversionFailed(message: string)
    | SecretReadFailed(message: string)
    | MissingKubeconfigData
    | RestConfigFailed(message: string)
    | QpsParseFailed(message: string)
    | ClusterSetupFailed(message: string)
    | ManagerAddFailed(message: string)

  /** The process environment and the outcome of every foreign call. */
  datatype Environment = Environment(
    podNamespace: string,
    listHubConfigs: string -> Result<seq<Unstructured>, string>,
    fromUnstructured: Unstructured -> Result<HubConfig, string>,
    getSecret: (string, string) -> Result<SecretData, string>,
    restConfigFromKubeConfig: Bytes -> Result<RestConfig, string>,
    parseQps: string -> Result<real, string>,
    newCluster: RestConfig -> Result<ClusterHandle, string>)

  /** The controller manager, as far as hub bring-up uses it: the clusters added to it. */
  class Manager {
    var runnables: seq<ClusterHandle>
    /** The error with which the manager refuses a cluster, if it does. */
    const refusal: ClusterHandle -> Option<string>

    constructor (refusal: ClusterHandle -> Option<string>)
      ensures runnables == [] && this.refusal == refusal
    {
      runnables := [];
      this.refusal := refusal;
    }

    method Add(c: ClusterHandle) returns (err: Option<string>)
      modifies this
      ensures err == refusal(c)
      ensures runnables == if err.None? then old(runnables) + [c] else old(runnables)
    {
      err := refusal(c);
      if err.None? {
        runnables := runnables + [c];
      }
    }
  }

  /** GetConditionStatus: the status of the first condition of type `t`, if any. */
  method GetConditionStatus(conditions: seq<Conditions.Condition>, t: string) returns (status: string, ok: bool)
    ensures ok == (t in Conditions.Types(conditions))
    ensures ok ==> status == conditions[Conditions.IndexOfType(conditions, t)].status
    ensures !ok ==> status == ""
  {
    for i := 0 to |conditions|
      invariant forall j :: 0 <= j < i ==> conditions[j].condType != t
    {
      if conditions[i].condType == t {
        return conditions[i].status, true;
      }
    }
    return "", false;
  }

  /**
   * getKubeConfigDataFromHubConfig: convert the listed object, read the secret
   * it references in its own namespace, and take that secret's kubeconfig.
   */
  function KubeConfigData(env: Environment, u: Unstructured): (r: Result<(Bytes, HubConfig), HubError>)
    ensures r.Success? ==>
      && env.fromUnstructured(u) == Success(r.value.1)
      && var secret := env.getSecret(r.value.1.namespace, r.value.1.spec.kubeConfigSecretName);
         secret.Success? && KubeconfigKey in secret.value && r.value.0 == secret.value[KubeconfigKey]
    ensures env.fromUnstructured(u).Success? ==>
      var hc := env.fromUnstructured(u).value;
      var secret := env.getSecret(hc.namespace, hc.spec.kubeConfigSecretName);
      secret.Success? && KubeconfigKey !in secret.value ==> r == Failure(MissingKubeconfigData)
    // a converted HubConfig whose secret holds the key yields that key's bytes
    ensures env.fromUnstructured(u).Success? ==>
      var hc := env.fromUnstructured(u).value;
      var secret := env.getSecret(hc.namespace, hc.spec.kubeConfigSecretName);
      secret.Success? && KubeconfigKey in secret.value ==> r == Success((secret.value[KubeconfigKey], hc))
    ensures env.fromUnstructured(u).Failure? ==> r == Failure(ConversionFailed(env.fromUnstructured(u).error))
    ensures env.fromUnstructured(u).Success? ==>
      var hc := env.fromUnstructured(u).value;
      var secret := env.getSecret(hc.namespace, hc.spec.kubeConfigSecretName);
      secret.Failure? ==> r == Failure(SecretReadFailed(secret.error))
  {
    match env.fromUnstructured(u)
    case Failure(e) => Failure(ConversionFailed(e))
    case Success(hc) =>
      match env.getSecret(hc.namespace, hc.spec.kubeConfigSecretName)
      case Failure(e) => Failure(SecretReadFailed(e))
      case Success(data) =>
        if KubeconfigKey in data then Success((data[KubeconfigKey], hc)) else Failure(MissingKubeconfigData)
  }

  /** The client configuration after the HubConfig's throttling settings are applied. */
  function Throttled(base: RestConfig, spec: HubConfigSpec, parseQps: string -> Result<real, string>)
    : (r: Result<RestConfig, HubError>)
    // only a QPS that is given and does not parse is an error
    ensures r.Failure? <==> spec.qps != "" && parseQps(spec.qps).Failure?
    ensures r.Failure? ==> r.error == QpsParseFailed(parseQps(spec.qps).error)
    // the host is kept; Burst defaults to 200 and QPS to 100
    ensures r.Success? ==>
      && r.value.host == base.host
      && r.value.burst == (if spec.burst == 0 then DefaultBurst else spec.burst)
      && r.value.qps == (if spec.qps == "" then DefaultQps else parseQps(spec.qps).value)
  {
    if spec.qps != "" && parseQps(spec.qps).Failure? then
      Failure(QpsParseFailed(parseQps(spec.qps).error))
    else
      Success(base.(
        qps := if spec.qps == "" then DefaultQps else parseQps(spec.qps).value,
        burst := if spec.burst == 0 then DefaultBurst else spec.burst))
  }

  /** What getHubInstance returns for one HubConfig and its kubeconfig. */
  function InstanceFor(env: Environment, refusal: ClusterHandle -> Option<string>, data: Bytes, hc: HubConfig)
    : (r: Result<HubInstance, HubError>)
    ensures env.restConfigFromKubeConfig(data).Failure? ==>
      r == Failure(RestConfigFailed(env.restConfigFromKubeConfig(data).error))
    // an instance carries its HubConfig, the throttled configuration, and a cluster built
    // from that configuration which the manager accepted
    ensures r.Success? ==>
      && r.value.hubConfig == hc
      && env.restConfigFromKubeConfig(data).Success?
      && Throttled(env.restConfigFromKubeConfig(data).value, hc.spec, env.parseQps) == Success(r.value.clientConfig)
      && env.newCluster(r.value.clientConfig) == Success(r.value.cluster)
      && refusal(r.value.cluster).None?
    // an instance is built exactly when every step succeeds
    ensures r.Success? <==>
      && env.restConfigFromKubeConfig(data).Success?
      && var cfg := Throttled(env.restConfigFromKubeConfig(data).value, hc.spec, env.parseQps);
         && cfg.Success?
         && env.newCluster(cfg.value).Success?
         && refusal(env.newCluster(cfg.value).value).None?
    // the cluster-setup and manager-add errors are returned as they are
    ensures env.restConfigFromKubeConfig(data).Success? ==>
      var cfg := Throttled(env.restConfigFromKubeConfig(data).value, hc.spec, env.parseQps);
      && (cfg.Failure? ==> r == Failure(cfg.error))
      && (cfg.Success? && env.newCluster(cfg.value).Failure? ==>
            r == Failure(ClusterSetupFailed(env.newCluster(cfg.value).error)))
      && (cfg.Success? && env.newCluster(cfg.value).Success? && refusal(env.newCluster(cfg.value).value).Some? ==>
            r == Failure(ManagerAddFailed(refusal(env.newCluster(cfg.value).value).value)))
  {
    match env.restConfigFromKubeConfig(data)
    case Failure(e) => Failure(RestConfigFailed(e))
    case Success(base) =>
      match Throttled(base, hc.spec, env.parseQps)
      case Failure(e) => Failure(e)
      case Success(cfg) =>
        match env.newCluster(cfg)
        case Failure(e) => Failure(ClusterSetupFailed(e))
        case Success(cluster) =>
          match refusal(cluster)
          case Some(e) => Failure(ManagerAddFailed(e))
          case None => Success(HubInstance(hc, cluster, cfg))
  }

  /** One iteration of the hub loop: the instance built for one listed HubConfig. */
  function HubFor(env: Environment, refusal: ClusterHandle -> Option<string>, u: Unstructured)
    : (r: Result<HubInstance, HubError>)
    ensures KubeConfigData(env, u).Failure? ==> r == Failure(KubeConfigData(env, u).error)
    ensures KubeConfigData(env, u).Success? ==>
      r == InstanceFor(env, refusal, KubeConfigData(env, u).value.0, KubeConfigData(env, u).value.1)
    ensures r.Success? ==>
      && KubeConfigData(env, u).Success?
      && r.value.hubConfig == KubeConfigData(env, u).value.1
      && r == InstanceFor(env, refusal, KubeConfigData(env, u).value.0, KubeConfigData(env, u).value.1)
  {
    match KubeConfigData(env, u)
    case Failure(e) => Failure(e)
    case Success(loaded) => InstanceFor(env, refusal, loaded.0, loaded.1)
  }

  /** The instances built before the first failure, and that failure if there is one. */
  datatype Progress = Progress(built: seq<HubInstance>, failure: Option<HubError>)

  function Extend(done: seq<HubInstance>, p: Progress): Progress
  {
    Progress(done + p.built, p.failure)
  }

  /** The hub loop over the listed HubConfigs, stopping at the first failure. */
  function BringUp(env: Environment, refusal: ClusterHandle -> Option<string>, items: seq<Unstructured>): (p: Progress)
    // one instance per HubConfig before the failure, if any
    ensures p.failure.None? ==> |p.built| == |items|
    ensures p.failure.Some? ==> |p.built| < |items|
    decreases |items|
  {
    if |items| == 0 then Progress([], None)
    else
      match HubFor(env, refusal, items[0])
      case Failure(e) => Progress([], Some(e))
      case Success(h) => Extend([h], BringUp(env, refusal, items[1..]))
  }

  /** The instances whose clusters were added to the manager, whether or not bring-up succeeded. */
  function Registered(env: Environment, refusal: ClusterHandle -> Option<string>): seq<HubInstance>
  {
    if |env.podNamespace| == 0 then []
    else
      match env.listHubConfigs(env.podNamespace)
      case Failure(_) => []
      case Success(items) => BringUp(env, refusal, items).built
  }

  /** What GetHubClusters returns. */
  function HubClusters(env: Environment, refusal: ClusterHandle -> Option<string>): (r: Result<seq<HubInstance>, HubError>)
    ensures |env.podNamespace| == 0 ==> r == Failure(PodNamespaceNotDefined)
    ensures |env.podNamespace| > 0 && env.listHubConfigs(env.podNamespace).Failure? ==>
      r == Failure(ListFailed(env.listHubConfigs(env.podNamespace).error))
    // all or nothing: a success needs every listed HubConfig to come up
    ensures r.Success? <==>
      && |env.podNamespace| > 0
      && env.listHubConfigs(env.podNamespace).Success?
      && var items := env.listHubConfigs(env.podNamespace).value;
         forall j :: 0 <= j < |items| ==> HubFor(env, refusal, items[j]).Success?
    ensures r.Success? ==> r.value == Registered(env, refusal)
  {
    if |env.podNamespace| == 0 then Failure(PodNamespaceNotDefined)
    else
      match env.listHubConfigs(env.podNamespace)
      case Failure(e) => Failure(ListFailed(e))
      case Success(items) =>
        BringUpAllOrNothing(env, refusal, items);
        var p := BringUp(env, refusal, items);
        if p.failure.Some? then Failure(p.failure.value) else Success(p.built)
  }

  function Clusters(hubs: seq<HubInstance>): (cs: seq<ClusterHandle>)
    ensures |cs| == |hubs| && forall j :: 0 <= j < |hubs| ==> cs[j] == hubs[j].cluster
  {
    if |hubs| == 0 then [] else [hubs[0].cluster] + Clusters(hubs[1..])
  }

  /**
   * getHubInstance: parse the kubeconfig, apply QPS and Burst field by field,
   * build the cluster and add it to the manager.
   */
  method GetHubInstance(env: Environment, mgr: Manager, data: Bytes, hc: HubConfig)
    returns (r: Result<HubInstance, HubError>)
    modifies mgr
    ensures r == InstanceFor(env, mgr.refusal, data, hc)
    ensures mgr.runnables == old(mgr.runnables) + (if r.Success? then [r.value.cluster] else [])
  {
    var parsed := env.restConfigFromKubeConfig(data);
    if parsed.Failure? {
      return Failure(RestConfigFailed(parsed.error));
    }
    var cfg := parsed.value;
    if hc.spec.qps != "" {
      var qps := env.parseQps(hc.spec.qps);
      if qps.Failure? {
        return Failure(QpsParseFailed(qps.error));
      }
      cfg := cfg.(qps := qps.value);
    }
    cfg := cfg.(burst := hc.spec.burst);
    if hc.spec.burst == 0 {
      cfg := cfg.(burst := DefaultBurst);
    }
    if hc.spec.qps == "" {
      cfg := cfg.(qps := DefaultQps);
    }
    var cluster := env.newCluster(cfg);
    if cluster.Failure? {
      return Failure(ClusterSetupFailed(cluster.error));
    }
    var refused := mgr.Add(cluster.value);
    if refused.Some? {
      return Failure(ManagerAddFailed(refused.value));
    }
    r := Success(HubInstance(hc, cluster.value, cfg));
  }

  /**
   * GetHubClusters: one hub instance per HubConfig listed in the pod's
   * namespace, or the first error. Clusters added to the manager before an
   * error stay added.
   */
  method GetHubClusters(env: Environment, mgr: Manager) returns (r: Result<seq<HubInstance>, HubError>)
    modifies mgr
    ensures r == HubClusters(env, mgr.refusal)
    ensures mgr.runnables == old(mgr.runnables) + Clusters(Registered(env, mgr.refusal))
  {
    var namespace := env.podNamespace;
    if |namespace| == 0 {
      return Failure(PodNamespaceNotDefined);
    }
    var listed := env.listHubConfigs(namespace);
    if listed.Failure? {
      return Failure(ListFailed(listed.error));
    }
    HubClustersOfListing(env, mgr.refusal, listed.value);
    var progress := BringUpHubs(env, mgr, listed.value);
    if progress.failure.Some? {
      return Failure(progress.failure.value);
    }
    return Success(progress.built);
  }

  /**
   * The loop of GetHubClusters over the listed HubConfigs: build and register
   * one instance per HubConfig, stopping at the first error.
   */
  method BringUpHubs(env: Environment, mgr: Manager, items: seq<Unstructured>) returns (p: Progress)
    modifies mgr
    ensures p == BringUp(env, mgr.refusal, items)
    ensures mgr.runnables == old(mgr.runnables) + Clusters(p.built)
  {
    var hubInstances: seq<HubInstance> := [];
    for k := 0 to |items|
      invariant BringUp(env, mgr.refusal, items) == Extend(hubInstances, BringUp(env, mgr.refusal, items[k..]))
      invariant mgr.runnables == old(mgr.runnables) + Clusters(hubInstances)
    {
      var loaded := KubeConfigData(env, items[k]);
      if loaded.Failure? {
        StopsAt(env, mgr.refusal, items, hubInstances, k);
        return Progress(hubInstances, Some(loaded.error));
      }
      var hub := GetHubInstance(env, mgr, loaded.value.0, loaded.value.1);
      if hub.Failure? {
        StopsAt(env, mgr.refusal, items, hubInstances, k);
        return Progress(hubInstances, Some(hub.error));
      }
      Advance(env, mgr.refusal, items, hubInstances, k);
      ClustersAppend(hubInstances, hub.value);
      hubInstances := hubInstances + [hub.value];
    }
    assert items[|items|..] == [];
    assert hubInstances + [] == hubInstances;
    p := Progress(hubInstances, None);
  }

  /** HubClusters once the pod namespace is set and the listing succeeded: the hub loop's outcome. */
  lemma HubClustersOfListing(env: Environment, refusal: ClusterHandle -> Option<string>, items: seq<Unstructured>)
    requires |env.podNamespace| > 0 && env.listHubConfigs(env.podNamespace) == Success(items)
    ensures Registered(env, refusal) == BringUp(env, refusal, items).built
    ensures HubClusters(env, refusal) ==
      var p := BringUp(env, refusal, items);
      if p.failure.Some? then Failure(p.failure.value) else Success(p.built)
  {
  }

  lemma ClustersAppend(hubs: seq<HubInstance>, h: HubInstance)
    ensures Clusters(hubs + [h]) == Clusters(hubs) + [h.cluster]
  {
  }

  /** When the hub at position k fails, the loop's result is what was built before it, and that failure. */
  lemma StopsAt(env: Environment, refusal: ClusterHandle -> Option<string>, items: seq<Unstructured>,
                done: seq<HubInstance>, k: nat)
    requires k < |items|
    requires BringUp(env, refusal, items) == Extend(done, BringUp(env, refusal, items[k..]))
    requires HubFor(env, refusal, items[k]).Failure?
    ensures BringUp(env, refusal, items) == Progress(done, Some(HubFor(env, refusal, items[k]).error))
  {
    BringUpAt(env, refusal, items, k);
    assert done + [] == done;
  }

  /** When the hub at position k comes up, the loop goes on with it appended to what was built. */
  lemma Advance(env: Environment, refusal: ClusterHandle -> Option<string>, items: seq<Unstructured>,
                done: seq<HubInstance>, k: nat)
    requires k < |items|
    requires BringUp(env, refusal, items) == Extend(done, BringUp(env, refusal, items[k..]))
    requires HubFor(env, refusal, items[k]).Success?
    ensures BringUp(env, refusal, items) ==
      Extend(done + [HubFor(env, refusal, items[k]).value], BringUp(env, refusal, items[k + 1..]))
  {
    BringUpAt(env, refusal, items, k);
    var rest := BringUp(env, refusal, items[k + 1..]);
    assert done + ([HubFor(env, refusal, items[k]).value] + rest.built) ==
      (done + [HubFor(env, refusal, items[k]).value]) + rest.built;
  }

  /** The hub loop from position k on, unfolded once. */
  lemma BringUpAt(env: Environment, refusal: ClusterHandle -> Option<string>, items: seq<Unstructured>, k: nat)
    requires k < |items|
    ensures BringUp(env, refusal, items[k..]) ==
      match HubFor(env, refusal, items[k])
      case Failure(e) => Progress([], Some(e))
      case Success(h) => Extend([h], BringUp(env, refusal, items[k + 1..]))
  {
    assert items[k..][0] == items[k] && items[k..][1..] == items[k + 1..];
  }

  /**
   * All or nothing: bring-up succeeds exactly when every listed HubConfig
   * yields an instance, and then there is one instance per HubConfig, in list
   * order; otherwise the error is that of the first HubConfig that fails, and
   * the instances built are those of the HubConfigs before it.
   */
  lemma {:induction false} BringUpAllOrNothing(env: Environment, refusal: ClusterHandle -> Option<string>, items: seq<Unstructured>)
    ensures var p := BringUp(env, refusal, items);
      && (p.failure.None? <==> forall j :: 0 <= j < |items| ==> HubFor(env, refusal, items[j]).Success?)
      && (p.failure.None? ==> |p.built| == |items|)
      && (p.failure.Some? ==> |p.built| < |items| && HubFor(env, refusal, items[|p.built|]) == Failure(p.failure.value))
      && (forall j :: 0 <= j < |p.built| ==> HubFor(env, refusal, items[j]) == Success(p.built[j]))
    decreases |items|
  {
    if |items| > 0 {
      BringUpAllOrNothing(env, refusal, items[1..]);
      var rest := BringUp(env, refusal, items[1..]);
      if HubFor(env, refusal, items[0]).Success? {
        var p := BringUp(env, refusal, items);
        assert p.built == [HubFor(env, refusal, items[0]).value] + rest.built;
        forall j | 0 <= j < |p.built| ensures HubFor(env, refusal, items[j]) == Success(p.built[j]) {
          if j > 0 {
            assert items[j] == items[1..][j - 1];
          }
        }
        if rest.failure.None? {
          forall j | 0 <= j < |items| ensures HubFor(env, refusal, items[j]).Success? {
            if j > 0 {
              assert items[j] == items[1..][j - 1];
            }
          }
        } else {
          assert items[1..][|rest.built|] == items[|p.built|];
        }
      }
    }
  }

  /**
   * Every instance carries its own HubConfig, the kubeconfig of that
   * HubConfig's secret, and the throttling it asks for: Burst when non-zero
   * and 200 otherwise, the parsed QPS when given and 100 otherwise.
   */
  lemma HubInstanceSettings(env: Environment, refusal: ClusterHandle -> Option<string>, u: Unstructured)
    requires HubFor(env, refusal, u).Success?
    ensures var h := HubFor(env, refusal, u).value;
      && env.fromUnstructured(u) == Success(h.hubConfig)
      && env.getSecret(h.hubConfig.namespace, h.hubConfig.spec.kubeConfigSecretName).Success?
      && KubeconfigKey in env.getSecret(h.hubConfig.namespace, h.hubConfig.spec.kubeConfigSecretName).value
      && h.clientConfig.burst == (if h.hubConfig.spec.burst == 0 then DefaultBurst else h.hubConfig.spec.burst)
      && h.clientConfig.qps == (if h.hubConfig.spec.qps == "" then DefaultQps else env.parseQps(h.hubConfig.spec.qps).value)
      && (h.hubConfig.spec.qps != "" ==> env.parseQps(h.hubConfig.spec.qps).Success?)
  {
  }

  /**
   * A QPS that does not parse makes that HubConfig, and so the whole
   * bring-up, fail.
   */
  lemma UnparsableQpsFails(env: Environment, refusal: ClusterHandle -> Option<string>, u: Unstructured)
    requires KubeConfigData(env, u).Success?
    requires var hc := KubeConfigData(env, u).value.1;
      env.restConfigFromKubeConfig(KubeConfigData(env, u).value.0).Success? &&
      hc.spec.qps != "" && env.parseQps(hc.spec.qps).Failure?
    ensures HubFor(env, refusal, u) == Failure(QpsParseFailed(env.parseQps(KubeConfigData(env, u).value.1.spec.qps).error))
  {
  }

  /** When bring-up succeeds there is exactly one instance per listed HubConfig, each carrying it. */
  lemma HubClustersOnePerConfig(env: Environment, refusal: ClusterHandle -> Option<string>)
    requires HubClusters(env, refusal).Success?
    ensures env.listHubConfigs(env.podNamespace).Success?
    ensures var items := env.listHubConfigs(env.podNamespace).value;
      var hubs := HubClusters(env, refusal).value;
      |hubs| == |items| &&
      forall j :: 0 <= j < |items| ==>
        HubFor(env, refusal, items[j]) == Success(hubs[j]) &&
        env.fromUnstructured(items[j]) == Success(hubs[j].hubConfig)
  {
    var items := env.listHubConfigs(env.podNamespace).value;
    BringUpAllOrNothing(env, refusal, items);
    var hubs := HubClusters(env, refusal).value;
    forall j | 0 <= j < |items| ensures env.fromUnstructured(items[j]) == Success(hubs[j].hubConfig) {
      HubInstanceSettings(env, refusal, items[j]);
    }
  }
}
