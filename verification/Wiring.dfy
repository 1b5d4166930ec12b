/** How an instance's objects fit together after an undisturbed pass: which
    references, files and ports resolve, read off the objects in the store. */
module Wiring {
  import opened Text
  import opened Objects
  import opened Slots
  import opened Resources
  import opened Plan
  import opened Convergence
  import Egress
  import Merge
  import Names
  import Together
  import Toml

  // ---- References --------------------------------------------------------

  /** The ConfigMap is there and has the key. */
  predicate HasKey(st: Store, ns: string, configMap: string, key: string) {
    var k := Key(ConfigMapKind, ns, configMap);
    k in st && st[k].body.ConfigMap? && key in st[k].body.data
  }

  /** Every variable taken from a ConfigMap has its value there. */
  predicate EnvResolves(st: Store, ns: string, c: Container) {
    forall e <- c.env :: e.value.FromConfig? ==> HasKey(st, ns, e.value.configMap, e.value.key)
  }

  /** What the volume is filled from is there, with every key it picks. */
  predicate VolumeBacked(st: Store, ns: string, v: Volume) {
    match v.source
    case ConfigMapVolume(cm, items) =>
      && Key(ConfigMapKind, ns, cm) in st && st[Key(ConfigMapKind, ns, cm)].body.ConfigMap?
      && forall key <- items :: HasKey(st, ns, cm, key)
    case SecretVolume(secret) =>
      Key(SecretKind, ns, secret) in st && st[Key(SecretKind, ns, secret)].body.Secret?
    case EmptyDir => true
  }

  /** In the container, the path is that of a key of a mounted ConfigMap. */
  ghost predicate FileThere(st: Store, ns: string, pod: PodSpec, c: Container, path: string) {
    exists m, v, file ::
      && m in c.mounts && v in pod.volumes && v.name == m.name && v.source.ConfigMapVolume? && v.source.items == map[]
      && path == m.path + "/" + file && HasKey(st, ns, v.source.configMap, file)
  }

  /** In the container, the directory is that of a mounted secret. */
  ghost predicate SecretThere(st: Store, ns: string, pod: PodSpec, c: Container, dir: string, data: Labels) {
    exists m, v ::
      && m in c.mounts && v in pod.volumes && v.name == m.name && v.source.SecretVolume? && m.path == dir
      && var key := Key(SecretKind, ns, v.source.secret); key in st && st[key].body == Secret(data)
  }

  /** In the container, the directory is that of the named scratch volume. */
  ghost predicate ScratchThere(pod: PodSpec, c: Container, volume: string, dir: string) {
    exists m, v :: m in c.mounts && v in pod.volumes && v.name == m.name == volume && v.source.EmptyDir? && m.path == dir
  }

  // ---- What a pass leaves ------------------------------------------------

  /** The compared parts of all step objects are under the keys they belong to. */
  ghost predicate Placed(st: Store, ns: string, name: string, k: Resources) {
    && Lookup(st, Key(ConfigMapKind, ns, name + "-config")).Some?
    && st[Key(ConfigMapKind, ns, name + "-config")].body == k.graphBuilderConfig.body
    && Lookup(st, Key(ConfigMapKind, ns, name + "-env")).Some?
    && st[Key(ConfigMapKind, ns, name + "-env")].body == k.envConfig.body
    && Lookup(st, Key(SecretKind, ns, name + "-pull-secret")).Some?
    && st[Key(SecretKind, ns, name + "-pull-secret")].body == k.pullSecret.body
    && (k.clusterCA.Some? ==> Key(ConfigMapKind, ns, "cluster-trusted-ca") in st)
    && (k.trustedCA.Some? ==>
          && Key(ConfigMapKind, ns, name + "-trusted-ca") in st
          && st[Key(ConfigMapKind, ns, name + "-trusted-ca")].body == k.trustedCA.value.body)
    && ServicePlaced(st, Key(ServiceKind, ns, name + "-graph-builder"), k.graphBuilderService)
    && ServicePlaced(st, Key(ServiceKind, ns, name + "-policy-engine"), k.policyEngineService)
    && Key(BudgetKind, ns, name) in st && st[Key(BudgetKind, ns, name)].body == k.budget.body
    && Key(NetworkPolicyKind, ns, name) in st && st[Key(NetworkPolicyKind, ns, name)].body == k.networkPolicy.body
    && RoutePlaced(st, RouteAt(st, ns, name), k.route)
  }

  /** The route in use: under its old name if it is there. */
  function RouteAt(st: Store, ns: string, name: string): Key {
    if Key(RouteKind, ns, name + "-policy-engine-route") in st then Key(RouteKind, ns, name + "-policy-engine-route")
    else Key(RouteKind, ns, name + "-route")
  }

  predicate ServicePlaced(st: Store, key: Key, o: Object) {
    && key in st && st[key].body.Service? && o.body.Service?
    && st[key].body.service.ports == o.body.service.ports && st[key].body.service.selector == o.body.service.selector
  }

  predicate RoutePlaced(st: Store, key: Key, o: Object) {
    && key in st && st[key].body.Route? && o.body.Route?
    && st[key].body.route.targetPort == o.body.route.targetPort && st[key].body.route.service == o.body.route.service
  }

  lemma PlacedConfigs(st: Store, ns: string, name: string, k: Resources)
    requires StepsInLine(st, ns, name, k) && Typed(k)
    ensures Lookup(st, Key(ConfigMapKind, ns, name + "-config")).Some?
    ensures st[Key(ConfigMapKind, ns, name + "-config")].body == k.graphBuilderConfig.body
    ensures Lookup(st, Key(ConfigMapKind, ns, name + "-env")).Some?
    ensures st[Key(ConfigMapKind, ns, name + "-env")].body == k.envConfig.body
    ensures Lookup(st, Key(SecretKind, ns, name + "-pull-secret")).Some?
    ensures st[Key(SecretKind, ns, name + "-pull-secret")].body == k.pullSecret.body
  {
    var oldRoute := OldRouteKey(ns, name) in st;
    var a, b, c := SlotAt(0, ns, name, k, oldRoute), SlotAt(1, ns, name, k, oldRoute), SlotAt(2, ns, name, k, oldRoute);
    assert name + "-pull-secret" == Names.PullSecretCopy(name);
  }

  lemma PlacedCertificates(st: Store, ns: string, name: string, k: Resources)
    requires StepsInLine(st, ns, name, k) && Typed(k)
    ensures k.clusterCA.Some? ==> Key(ConfigMapKind, ns, "cluster-trusted-ca") in st
    ensures k.trustedCA.Some? ==>
              && Key(ConfigMapKind, ns, name + "-trusted-ca") in st
              && st[Key(ConfigMapKind, ns, name + "-trusted-ca")].body == k.trustedCA.value.body
  {
    var oldRoute := OldRouteKey(ns, name) in st;
    var a, b := SlotAt(3, ns, name, k, oldRoute), SlotAt(4, ns, name, k, oldRoute);
  }

  lemma PlacedOthers(st: Store, ns: string, name: string, k: Resources)
    requires StepsInLine(st, ns, name, k) && Typed(k)
    ensures ServicePlaced(st, Key(ServiceKind, ns, name + "-graph-builder"), k.graphBuilderService)
    ensures ServicePlaced(st, Key(ServiceKind, ns, name + "-policy-engine"), k.policyEngineService)
    ensures Key(BudgetKind, ns, name) in st && st[Key(BudgetKind, ns, name)].body == k.budget.body
    ensures Key(NetworkPolicyKind, ns, name) in st && st[Key(NetworkPolicyKind, ns, name)].body == k.networkPolicy.body
    ensures RoutePlaced(st, RouteAt(st, ns, name), k.route)
  {
    var oldRoute := OldRouteKey(ns, name) in st;
    var a, b, c := SlotAt(5, ns, name, k, oldRoute), SlotAt(6, ns, name, k, oldRoute), SlotAt(7, ns, name, k, oldRoute);
    var d, e := SlotAt(8, ns, name, k, oldRoute), SlotAt(9, ns, name, k, oldRoute);
    assert name + "-policy-engine" + "-route" == name + "-policy-engine-route";
  }

  /** The Deployment is there, with its compared parts as wanted. */
  ghost predicate Deployed(st: Store, ns: string, name: string, k: Resources, d: DeploymentSpec) {
    && Key(DeploymentKind, ns, name) in st && st[Key(DeploymentKind, ns, name)].body == Deployment(d)
    && k.deployment.body.Deployment? && exists sha :: Merge.Matches(d, WantedOf(k), sha)
  }

  /** The operator writes the Deployment: it is missing or has its init container. */
  predicate Writable(st: Store, ns: string, name: string) {
    match Lookup(st, Key(DeploymentKind, ns, name))
    case Some(Object(_, Deployment(d))) => Merge.HasGraphData(d)
    case _ => true
  }

  lemma PassPlaces(st: Store, cfg: Config, ns: string, name: string, ip: Allocator)
    requires WellKinded(st) && Decide(st, cfg, ns, name).Ready? && ns != Names.OPENSHIFT_CONFIG
    ensures Placed(Reconciled(st, cfg, ns, name, ip), ns, name, Decide(st, cfg, ns, name).k)
  {
    hide Decide, Reconciled, StepsInLine, Typed, DeploymentInLine, WrittenDigest, Complete, InPlace;
    var k, end := Decide(st, cfg, ns, name).k, Reconciled(st, cfg, ns, name, ip);
    BringsInLine(st, cfg, ns, name, ip);
    DecideTyped(st, cfg, ns, name);
    PlacedConfigs(end, ns, name, k);
    PlacedCertificates(end, ns, name, k);
    PlacedOthers(end, ns, name, k);
  }

  lemma PassDeploys(st: Store, cfg: Config, ns: string, name: string, ip: Allocator) returns (d: DeploymentSpec)
    requires WellKinded(st) && Decide(st, cfg, ns, name).Ready? && ns != Names.OPENSHIFT_CONFIG
    requires Writable(st, ns, name)
    ensures Deployed(Reconciled(st, cfg, ns, name, ip), ns, name, Decide(st, cfg, ns, name).k, d)
  {
    hide Decide, AfterPass, Merge.Merge, Merge.Matches, Merge.Proper, Merge.HasGraphData, Merge.HasManaged;
    var k := Decide(st, cfg, ns, name).k;
    DecideMergeable(st, cfg, ns, name);
    DeploymentLater(st, ns, name, k, ip);
    var sha := PodDigest(st, ns, ImageAt(st, ns, name));
    match Lookup(st, DeploymentKey(ns, name)) {
      case Some(o) =>
        var found := o.body.deployment;
        d := Merge.Merge(found, WantedOf(k), sha);
        Merge.MergeFixed(found, WantedOf(k), sha);
      case None =>
        d := WantedOf(k).spec;
        assert Merge.Matches(d, WantedOf(k), "");
    }
  }

  /** The objects were put together from the given inputs. */
  ghost predicate MadeFor(k: Resources, cfg: Config, name: string, spec: Spec, secret: Labels, ca: Option<Labels>,
                          cca: Option<Object>, p: Parts)
  {
    && k == Assemble(cfg, name, spec, secret, ca, cca, p) && NewGraphBuilderConfig(spec) == Some(p.config)
    && p.ports == Egress.PortsFor(spec.releases, cfg.env)
  }

  lemma DecideMade(st: Store, cfg: Config, ns: string, name: string) returns (cca: Option<Object>, p: Parts)
    requires Decide(st, cfg, ns, name).Ready?
    ensures SpecAt(st, InstanceKey(ns, name)).Some? && SecretAt(st, PULL_KEY).Some?
    ensures MadeFor(Decide(st, cfg, ns, name).k, cfg, name, SpecAt(st, InstanceKey(ns, name)).value,
                    SecretAt(st, PULL_KEY).value, CertificateData(FindTrustedCA(st)), cca, p)
    ensures NewGraphBuilderConfig(SpecAt(st, InstanceKey(ns, name)).value) == Some(p.config)
    ensures p.ports == Egress.PortsFor(SpecAt(st, InstanceKey(ns, name)).value.releases, cfg.env)
  {
    hide Assemble, NewGraphBuilderConfig, FindTrustedCA, Egress.PortsFor, NewEnvConfig;
    var spec := SpecAt(st, InstanceKey(ns, name)).value;
    cca := ClusterCAFound(Lookup(st, ClusterCAKey(ns)));
    p := PartsOf(spec, cfg.env).value;
  }

  // ---- From the parts to the whole ---------------------------------------

  /** The managed containers of the Deployment are the ones put together. */
  lemma ManagedContainers(st: Store, ns: string, name: string, k: Resources, d: DeploymentSpec)
    requires Deployed(st, ns, name, k, d)
    ensures d.template.pod.volumes == WantedOf(k).spec.template.pod.volumes
    ensures d.replicas == WantedOf(k).spec.replicas
    ensures Merge.Agrees(d.template.labels, WantedOf(k).spec.template.labels)
    ensures forall c <- d.template.pod.containers ::
              && (c.name == Names.GRAPH_BUILDER ==> Merge.InLine(c, k.graphBuilder))
              && (c.name == Names.POLICY_ENGINE ==> Merge.InLine(c, k.policyEngine))
    ensures forall c <- d.template.pod.initContainers ::
              c.name == Names.GRAPH_DATA ==> c.image == k.graphData.image && c.mounts == k.graphData.mounts
  {
    hide Merge.Agrees, Merge.InLine;
  }

  lemma EnvKeys()
    ensures var data := NewEnvConfig().body.data;
            && "gb.rust_backtrace" in data && "pe.address" in data && "pe.status.address" in data && "pe.upstream" in data
            && "pe.log.verbosity" in data && "pe.mandatory_client_parameters" in data && "pe.rust_backtrace" in data
  {}

  lemma BuilderEnv(st: Store, ns: string, cfg: Config, name: string, mounts: seq<Mount>)
    requires HasKey(st, ns, name + "-env", "gb.rust_backtrace")
    ensures EnvResolves(st, ns, NewGraphBuilder(name, cfg.operandImage, cfg.env, mounts))
  {
    var c := NewGraphBuilder(name, cfg.operandImage, cfg.env, mounts);
    forall e | e in c.env && e.value.FromConfig? ensures HasKey(st, ns, e.value.configMap, e.value.key) {
      assert e == ConfigEnv("RUST_BACKTRACE", "gb.rust_backtrace", Names.EnvConfig(name));
    }
  }

  lemma EngineEnv(st: Store, ns: string, cfg: Config, name: string)
    requires var cm := name + "-env";
             && HasKey(st, ns, cm, "pe.address") && HasKey(st, ns, cm, "pe.status.address")
             && HasKey(st, ns, cm, "pe.upstream") && HasKey(st, ns, cm, "pe.log.verbosity")
             && HasKey(st, ns, cm, "pe.mandatory_client_parameters") && HasKey(st, ns, cm, "pe.rust_backtrace")
    ensures EnvResolves(st, ns, NewPolicyEngine(name, cfg.operandImage))
  {
    hide HasKey;
  }

  lemma EnvMade(st: Store, ns: string, cfg: Config, name: string, mounts: seq<Mount>)
    requires Key(ConfigMapKind, ns, name + "-env") in st
    requires st[Key(ConfigMapKind, ns, name + "-env")].body == NewEnvConfig().body
    ensures EnvResolves(st, ns, NewGraphBuilder(name, cfg.operandImage, cfg.env, mounts))
    ensures EnvResolves(st, ns, NewPolicyEngine(name, cfg.operandImage))
  {
    hide NewEnvConfig, EnvResolves, NewGraphBuilder, NewPolicyEngine;
    EnvKeys();
    BuilderEnv(st, ns, cfg, name, mounts);
    EngineEnv(st, ns, cfg, name);
  }

  lemma SameEnv(st: Store, ns: string, c: Container, o: Container)
    requires EnvResolves(st, ns, o) && Merge.InLine(c, o)
    ensures EnvResolves(st, ns, c)
  {}

  lemma VolumesMade(st: Store, ns: string, name: string, trustedCA: bool, clusterCA: bool, v: Volume)
    requires v in Volumes(name, trustedCA, clusterCA)
    requires HasKey(st, ns, name + "-config", "gb.toml")
    requires Key(SecretKind, ns, name + "-pull-secret") in st
    requires st[Key(SecretKind, ns, name + "-pull-secret")].body.Secret?
    requires trustedCA ==> HasKey(st, ns, name + "-trusted-ca", "updateservice-registry")
    requires clusterCA ==> var key := Key(ConfigMapKind, ns, "cluster-trusted-ca"); key in st && st[key].body.ConfigMap?
    ensures VolumeBacked(st, ns, v)
  {
    assert name + "-pull-secret" == Names.PullSecretCopy(name);
  }

  /** What the parts are, field by field. */
  lemma MadeFields(k: Resources, cfg: Config, name: string, spec: Spec, secret: Labels, ca: Option<Labels>,
                   cca: Option<Object>, p: Parts)
    requires MadeFor(k, cfg, name, spec, secret, ca, cca, p)
    ensures k.graphBuilder == NewGraphBuilder(name, cfg.operandImage, cfg.env,
                                              GraphBuilderMounts(ca.Some?, ProxySet(cfg.env)))
    ensures k.policyEngine == NewPolicyEngine(name, cfg.operandImage) && k.graphData == NewGraphData(spec)
    ensures k.envConfig == NewEnvConfig() && k.graphBuilderConfig == p.config && k.pullSecret == NewPullSecret(secret)
    ensures k.trustedCA == NewTrustedCA(ca) && (k.clusterCA.Some? <==> ProxySet(cfg.env))
    ensures k.graphBuilderService == NewGraphBuilderService(name)
    ensures k.policyEngineService == NewPolicyEngineService(name)
    ensures k.route == NewRoute(name) && k.budget == NewBudget(name, spec)
    ensures k.networkPolicy == NewNetworkPolicy(name, spec, p.ports)
    ensures k.deployment.body.Deployment?
    ensures var d := k.deployment.body.deployment;
            && d.template.pod.volumes == Volumes(name, ca.Some?, ProxySet(cfg.env)) && d.replicas == spec.replicas
            && d.template.labels == PodLabels(name)
  {
    hide NewEnvConfig, NewGraphBuilder, NewPolicyEngine, NewGraphData, Volumes, GraphBuilderMounts, NewRoute,
         NewGraphBuilderService, NewPolicyEngineService, NewNetworkPolicy, NewBudget;
  }

  // ---- The results -------------------------------------------------------

  function PodAt(st: Store, ns: string, name: string): Option<Template> {
    match Lookup(st, Key(DeploymentKind, ns, name))
    case Some(Object(_, Deployment(d))) => Some(d.template)
    case _ => None
  }

  predicate Managed(c: Container) { c.name == "graph-builder" || c.name == "policy-engine" }

  /** A request that gets as far as the steps, in the operator's own namespace. */
  ghost predicate Goes(st: Store, cfg: Config, ns: string, name: string) {
    WellKinded(st) && Decide(st, cfg, ns, name).Ready? && ns != "openshift-config"
  }

  lemma EnvOfMade(end: Store, ns: string, name: string, k: Resources, d: DeploymentSpec, cfg: Config, mounts: seq<Mount>)
    requires Placed(end, ns, name, k) && Deployed(end, ns, name, k, d)
    requires k.envConfig == NewEnvConfig() && k.graphBuilder == NewGraphBuilder(name, cfg.operandImage, cfg.env, mounts)
    requires k.policyEngine == NewPolicyEngine(name, cfg.operandImage)
    ensures forall c <- d.template.pod.containers :: Managed(c) ==> EnvResolves(end, ns, c)
  {
    hide NewEnvConfig, NewGraphBuilder, NewPolicyEngine, EnvResolves, Deployed, Merge.InLine;
    EnvMade(end, ns, cfg, name, mounts);
    ManagedContainers(end, ns, name, k, d);
    forall c | c in d.template.pod.containers && Managed(c) ensures EnvResolves(end, ns, c) {
      SameEnv(end, ns, c, if c.name == Names.GRAPH_BUILDER then k.graphBuilder else k.policyEngine);
    }
  }

  lemma CertificateKey(st: Store)
    ensures FindTrustedCA(st).Certificates? ==> "updateservice-registry" in FindTrustedCA(st).data
  {}

  lemma ConfigFile(spec: Spec, config: Object)
    requires NewGraphBuilderConfig(spec) == Some(config)
    ensures config.body.ConfigMap? && "gb.toml" in config.body.data
  {
    hide RenderTOML;
  }

  /** What a pass leaves behind, and from what it was made. */
  ghost predicate Settled(end: Store, ns: string, name: string, cfg: Config, spec: Spec, secret: Labels,
                          ca: Option<Labels>, k: Resources, p: Parts)
  {
    && WellKinded(end) && Placed(end, ns, name, k)
    && (exists cca :: MadeFor(k, cfg, name, spec, secret, ca, cca, p))
    && NewGraphBuilderConfig(spec) == Some(p.config) && p.ports == Egress.PortsFor(spec.releases, cfg.env)
    && (ca.Some? ==> "updateservice-registry" in ca.value)
  }

  lemma PassSettles(st: Store, cfg: Config, ns: string, name: string, ip: Allocator)
    returns (secret: Labels, k: Resources, p: Parts)
    requires Goes(st, cfg, ns, name)
    ensures SpecAt(st, InstanceKey(ns, name)).Some? && SecretAt(st, PULL_KEY) == Some(secret)
    ensures k == Decide(st, cfg, ns, name).k
    ensures Settled(Reconciled(st, cfg, ns, name, ip), ns, name, cfg, SpecAt(st, InstanceKey(ns, name)).value, secret,
                    CertificateData(FindTrustedCA(st)), k, p)
  {
    hide Decide, Reconciled, Placed, MadeFor, FindTrustedCA, NewGraphBuilderConfig, Egress.PortsFor;
    k := Decide(st, cfg, ns, name).k;
    PassPlaces(st, cfg, ns, name, ip);
    var cca;
    cca, p := DecideMade(st, cfg, ns, name);
    secret := SecretAt(st, PULL_KEY).value;
    CertificateKey(st);
    Together.ReconciledKinds(st, cfg, ns, name, ip);
  }

  lemma VolumesSettled(end: Store, ns: string, name: string, cfg: Config, spec: Spec, secret: Labels, ca: Option<Labels>,
                       k: Resources, p: Parts, v: Volume)
    requires Settled(end, ns, name, cfg, spec, secret, ca, k, p)
    requires v in Volumes(name, ca.Some?, ProxySet(cfg.env))
    ensures VolumeBacked(end, ns, v)
  {
    hide NewEnvConfig, NewGraphBuilder, NewPolicyEngine, NewGraphData, Volumes, GraphBuilderMounts, NewRoute, MadeFor,
         NewGraphBuilderService, NewPolicyEngineService, NewNetworkPolicy, NewBudget, VolumeBacked, NewGraphBuilderConfig,
         Egress.PortsFor;
    var cca :| MadeFor(k, cfg, name, spec, secret, ca, cca, p);
    MadeFields(k, cfg, name, spec, secret, ca, cca, p);
    ConfigFile(spec, p.config);
    VolumesMade(end, ns, name, ca.Some?, ProxySet(cfg.env), v);
  }

  lemma EnvSettled(end: Store, ns: string, name: string, cfg: Config, spec: Spec, secret: Labels, ca: Option<Labels>,
                   k: Resources, p: Parts, d: DeploymentSpec)
    requires Settled(end, ns, name, cfg, spec, secret, ca, k, p) && Deployed(end, ns, name, k, d)
    ensures forall c <- d.template.pod.containers :: Managed(c) ==> EnvResolves(end, ns, c)
    ensures d.template.pod.volumes == Volumes(name, ca.Some?, ProxySet(cfg.env))
  {
    hide NewEnvConfig, NewGraphBuilder, NewPolicyEngine, NewGraphData, Volumes, GraphBuilderMounts, NewRoute, MadeFor,
         NewGraphBuilderService, NewPolicyEngineService, NewNetworkPolicy, NewBudget, EnvResolves, NewGraphBuilderConfig,
         Egress.PortsFor, Placed, Deployed;
    var cca :| MadeFor(k, cfg, name, spec, secret, ca, cca, p);
    MadeFields(k, cfg, name, spec, secret, ca, cca, p);
    EnvOfMade(end, ns, name, k, d, cfg, GraphBuilderMounts(ca.Some?, ProxySet(cfg.env)));
    ManagedContainers(end, ns, name, k, d);
  }

  /** After an undisturbed pass every variable and every volume of the operator's
      pods refers to something that is there. */
  lemma ReferencesResolve(st: Store, cfg: Config, ns: string, name: string, ip: Allocator)
    requires Goes(st, cfg, ns, name) && Writable(st, ns, name)
    ensures var end := Reconciled(st, cfg, ns, name, ip);
            && PodAt(end, ns, name).Some?
            && var pod := PodAt(end, ns, name).value.pod;
               && (forall c <- pod.containers :: Managed(c) ==> EnvResolves(end, ns, c))
               && (forall v <- pod.volumes :: VolumeBacked(end, ns, v))
  {
    hide Decide, Reconciled, EnvResolves, VolumeBacked, Volumes, Settled, FindTrustedCA;
    var end, spec := Reconciled(st, cfg, ns, name, ip), SpecAt(st, InstanceKey(ns, name)).value;
    var ca := CertificateData(FindTrustedCA(st));
    var secret, k, p := PassSettles(st, cfg, ns, name, ip);
    var d := PassDeploys(st, cfg, ns, name, ip);
    EnvSettled(end, ns, name, cfg, spec, secret, ca, k, p, d);
    forall v | v in d.template.pod.volumes ensures VolumeBacked(end, ns, v) {
      VolumesSettled(end, ns, name, cfg, spec, secret, ca, k, p, v);
    }
  }

  // ---- Files -------------------------------------------------------------

  /** What the graph-builder's configuration file says. */
  ghost predicate ConfigTells(st: Store, ns: string, name: string, registry: string, repository: string,
                              credentials: string, directory: string)
  {
    && HasKey(st, ns, name + "-config", "gb.toml")
    && var text := st[Key(ConfigMapKind, ns, name + "-config")].body.data["gb.toml"];
       && Toml.ReadQuoted(text, "[[plugin_settings]]", "registry") == Some(registry)
       && Toml.ReadQuoted(text, "[[plugin_settings]]", "repository") == Some(repository)
       && Toml.ReadQuoted(text, "[[plugin_settings]]", "credentials_path") == Some(credentials)
       && Toml.ReadQuoted(text, "[[plugin_settings]]", "data_directory") == Some(directory)
  }

  lemma ReleasesSplit(spec: Spec, config: Object, registry: string, repository: string)
    requires spec.releases == registry + "/" + repository && '/' !in registry
    requires NewGraphBuilderConfig(spec) == Some(config)
    ensures config.body == ConfigMap(map["gb.toml" := RenderTOML(registry, repository)])
  {
    hide RenderTOML;
    IndexAt(registry, repository, '/');
    assert spec.releases == registry + ['/'] + repository;
    assert spec.releases[..|registry|] == registry && spec.releases[|registry| + 1..] == repository;
  }

  lemma ConfigSettled(end: Store, ns: string, name: string, cfg: Config, spec: Spec, secret: Labels, ca: Option<Labels>,
                      k: Resources, p: Parts, registry: string, repository: string)
    requires Settled(end, ns, name, cfg, spec, secret, ca, k, p)
    requires spec.releases == registry + "/" + repository && '/' !in registry
    requires Toml.Clean(registry) && Toml.Clean(repository)
    ensures ConfigTells(end, ns, name, registry, repository, CREDENTIALS_DIR + "/.dockerconfigjson", GRAPH_DATA_DIR)
  {
    hide NewEnvConfig, NewGraphBuilder, NewPolicyEngine, NewGraphData, Volumes, GraphBuilderMounts, NewRoute, MadeFor,
         NewGraphBuilderService, NewPolicyEngineService, NewNetworkPolicy, NewBudget, NewGraphBuilderConfig,
         Egress.PortsFor, RenderTOML, Toml.ReadQuoted;
    var cca :| MadeFor(k, cfg, name, spec, secret, ca, cca, p);
    MadeFields(k, cfg, name, spec, secret, ca, cca, p);
    ReleasesSplit(spec, p.config, registry, repository);
    Toml.ConfigQuotes(registry, repository);
  }

  /** What the graph-builder finds in its file system: its configuration, the
      pull secret and the directory it shares with the init container. */
  ghost predicate FilesThere(st: Store, ns: string, pod: PodSpec, secret: Labels, credentials: string, directory: string)
  {
    && (forall c <- pod.containers :: c.name == "graph-builder" ==>
          && |c.args| == 2 && c.args[0] == "-c" && FileThere(st, ns, pod, c, c.args[1])
          && (exists dir :: credentials == dir + "/.dockerconfigjson" && SecretThere(st, ns, pod, c, dir, secret))
          && ScratchThere(pod, c, "cincinnati-graph-data", directory))
    && (forall c <- pod.initContainers :: c.name == "graph-data" ==>
          ScratchThere(pod, c, "cincinnati-graph-data", directory))
  }

  lemma ConfigMounted(st: Store, ns: string, name: string, pod: PodSpec, c: Container, trustedCA: bool, clusterCA: bool)
    requires pod.volumes == Volumes(name, trustedCA, clusterCA) && HasKey(st, ns, name + "-config", "gb.toml")
    requires c.mounts == GraphBuilderMounts(trustedCA, clusterCA)
    ensures FileThere(st, ns, pod, c, "/etc/configs/gb.toml")
  {
    hide HasKey;
    var m, v := Mount("configs", true, "/etc/configs"), Volume("configs", ConfigMapVolume(name + "-config", map[]));
    assert c.mounts[0] == m && pod.volumes[0] == v;
    assert "/etc/configs/gb.toml" == m.path + "/" + "gb.toml";
    assert m in c.mounts && v in pod.volumes;
  }

  lemma SecretMounted(st: Store, ns: string, name: string, pod: PodSpec, c: Container, secret: Labels, trustedCA: bool,
                      clusterCA: bool)
    requires pod.volumes == Volumes(name, trustedCA, clusterCA)
    requires Key(SecretKind, ns, name + "-pull-secret") in st
    requires st[Key(SecretKind, ns, name + "-pull-secret")].body == Secret(secret)
    requires c.mounts == GraphBuilderMounts(trustedCA, clusterCA)
    ensures SecretThere(st, ns, pod, c, CREDENTIALS_DIR, secret)
  {
    var m, v := c.mounts[2], pod.volumes[2];
    assert name + "-pull-secret" == Names.PullSecretCopy(name);
    assert m in c.mounts && v in pod.volumes && v.source == SecretVolume(name + "-pull-secret");
  }

  lemma ScratchMounted(name: string, pod: PodSpec, c: Container, trustedCA: bool, clusterCA: bool)
    requires pod.volumes == Volumes(name, trustedCA, clusterCA) && GRAPH_DATA_MOUNT in c.mounts
    ensures ScratchThere(pod, c, "cincinnati-graph-data", GRAPH_DATA_DIR)
  {
    assert pod.volumes[1] in pod.volumes;
  }

  /** What the steps left for the files. */
  lemma FilesKnown(end: Store, ns: string, name: string, cfg: Config, spec: Spec, secret: Labels, ca: Option<Labels>,
                   k: Resources, p: Parts, d: DeploymentSpec)
    requires Settled(end, ns, name, cfg, spec, secret, ca, k, p) && Deployed(end, ns, name, k, d)
    ensures d.template.pod.volumes == Volumes(name, ca.Some?, ProxySet(cfg.env))
    ensures HasKey(end, ns, name + "-config", "gb.toml")
    ensures Lookup(end, Key(SecretKind, ns, name + "-pull-secret")).Some?
    ensures end[Key(SecretKind, ns, name + "-pull-secret")].body == Secret(secret)
    ensures forall c <- d.template.pod.containers :: c.name == "graph-builder" ==>
              c.args == ["-c", "/etc/configs/gb.toml"] && c.mounts == GraphBuilderMounts(ca.Some?, ProxySet(cfg.env))
    ensures forall c <- d.template.pod.initContainers :: c.name == "graph-data" ==> GRAPH_DATA_MOUNT in c.mounts
  {
    hide NewEnvConfig, NewPolicyEngine, Volumes, GraphBuilderMounts, NewRoute, MadeFor, NewGraphBuilderService,
         NewPolicyEngineService, NewNetworkPolicy, NewBudget, NewGraphBuilderConfig, Egress.PortsFor, Deployed;
    var cca :| MadeFor(k, cfg, name, spec, secret, ca, cca, p);
    MadeFields(k, cfg, name, spec, secret, ca, cca, p);
    ConfigFile(spec, p.config);
    ManagedContainers(end, ns, name, k, d);
  }

  lemma FilesSettled(end: Store, ns: string, name: string, cfg: Config, spec: Spec, secret: Labels, ca: Option<Labels>,
                     k: Resources, p: Parts, d: DeploymentSpec)
    requires Settled(end, ns, name, cfg, spec, secret, ca, k, p) && Deployed(end, ns, name, k, d)
    ensures FilesThere(end, ns, d.template.pod, secret, CREDENTIALS_DIR + "/.dockerconfigjson", GRAPH_DATA_DIR)
  {
    hide Volumes, GraphBuilderMounts, Settled, Deployed, FileThere, SecretThere, ScratchThere, HasKey;
    FilesKnown(end, ns, name, cfg, spec, secret, ca, k, p, d);
    var pod := d.template.pod;
    forall c | c in pod.containers && c.name == "graph-builder"
      ensures |c.args| == 2 && c.args[0] == "-c" && FileThere(end, ns, pod, c, c.args[1])
      ensures SecretThere(end, ns, pod, c, CREDENTIALS_DIR, secret)
      ensures ScratchThere(pod, c, "cincinnati-graph-data", GRAPH_DATA_DIR)
    {
      ConfigMounted(end, ns, name, pod, c, ca.Some?, ProxySet(cfg.env));
      SecretMounted(end, ns, name, pod, c, secret, ca.Some?, ProxySet(cfg.env));
      SharedMount(ca.Some?, ProxySet(cfg.env));
      ScratchMounted(name, pod, c, ca.Some?, ProxySet(cfg.env));
    }
    forall c | c in pod.initContainers && c.name == "graph-data"
      ensures ScratchThere(pod, c, "cincinnati-graph-data", GRAPH_DATA_DIR)
    {
      ScratchMounted(name, pod, c, ca.Some?, ProxySet(cfg.env));
    }
  }

  lemma SharedMount(trustedCA: bool, clusterCA: bool)
    ensures GRAPH_DATA_MOUNT in GraphBuilderMounts(trustedCA, clusterCA)
  {
    assert GraphBuilderMounts(trustedCA, clusterCA)[1] == GRAPH_DATA_MOUNT;
  }

  /** After an undisturbed pass the graph-builder's file names the registry and
      the repository of the pull spec, */
  lemma ConfigurationWritten(st: Store, cfg: Config, ns: string, name: string, ip: Allocator, registry: string,
                             repository: string)
    requires Goes(st, cfg, ns, name)
    requires SpecAt(st, InstanceKey(ns, name)).value.releases == registry + "/" + repository && '/' !in registry
    requires Toml.Clean(registry) && Toml.Clean(repository)
    ensures exists credentials, directory ::
              ConfigTells(Reconciled(st, cfg, ns, name, ip), ns, name, registry, repository, credentials, directory)
  {
    hide Decide, Reconciled, Settled, FindTrustedCA, ConfigTells;
    var secret, k, p := PassSettles(st, cfg, ns, name, ip);
    ConfigSettled(Reconciled(st, cfg, ns, name, ip), ns, name, cfg, SpecAt(st, InstanceKey(ns, name)).value, secret,
                  CertificateData(FindTrustedCA(st)), k, p, registry, repository);
  }

  /** and is mounted where the graph-builder is told to look for it; the paths in
      it lead to the source pull secret's data and to the directory that the
      init container fills. */
  lemma FilesResolve(st: Store, cfg: Config, ns: string, name: string, ip: Allocator, registry: string,
                     repository: string)
    requires Goes(st, cfg, ns, name) && Writable(st, ns, name)
    requires SpecAt(st, InstanceKey(ns, name)).value.releases == registry + "/" + repository && '/' !in registry
    requires Toml.Clean(registry) && Toml.Clean(repository)
    ensures SecretAt(st, Key(SecretKind, "openshift-config", "pull-secret")).Some?
    ensures var end := Reconciled(st, cfg, ns, name, ip);
            && PodAt(end, ns, name).Some?
            && exists credentials, directory ::
                 && ConfigTells(end, ns, name, registry, repository, credentials, directory)
                 && FilesThere(end, ns, PodAt(end, ns, name).value.pod,
                               SecretAt(st, Key(SecretKind, "openshift-config", "pull-secret")).value,
                               credentials, directory)
  {
    hide Decide, Reconciled, Settled, FindTrustedCA, ConfigTells, FilesThere;
    var end, spec := Reconciled(st, cfg, ns, name, ip), SpecAt(st, InstanceKey(ns, name)).value;
    var ca := CertificateData(FindTrustedCA(st));
    var secret, k, p := PassSettles(st, cfg, ns, name, ip);
    var d := PassDeploys(st, cfg, ns, name, ip);
    ConfigSettled(end, ns, name, cfg, spec, secret, ca, k, p, registry, repository);
    FilesSettled(end, ns, name, cfg, spec, secret, ca, k, p, d);
  }
}
