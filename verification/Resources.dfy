/** The objects an instance should have, computed from its spec, from what the
    cluster was found to hold and from the operator's environment. */
module Resources {
  import opened Text
  import opened Objects
  import opened NoProxy
  import Names
  import Egress
  import Checksum

  const CONFIG_HASH := "updateservice.operator.openshift.io/graph-builder-config-hash"
  const ENV_HASH := "updateservice.operator.openshift.io/env-config-hash"
  const IMAGE_SHA := "updateservice.operator.openshift.io/graph-data-image"

  /** The operator's settings. */
  datatype Config = Config(operandImage: string, ns: string, env: ProxyEnv)

  datatype Resources = Resources(
    envConfig: Object, envConfigHash: string,
    graphBuilderConfig: Object, graphBuilderConfigHash: string,
    budget: Object, deployment: Object,
    graphBuilder: Container, graphData: Container, policyEngine: Container,
    graphBuilderService: Object, policyEngineService: Object,
    route: Object, networkPolicy: Object,
    trustedCA: Option<Object>, clusterCA: Option<Object>,
    pullSecret: Object, volumes: seq<Volume>, graphBuilderMounts: seq<Mount>)

  const PLAIN := Meta(map[], map[], None)

  // ---- The graph-builder configuration -----------------------------------

  function Lines(ls: seq<string>): string {
    if ls == [] then "" else ls[0] + "\n" + Lines(ls[1..])
  }

  const SCRAPE := "release-scrape-dockerv2"
  const METADATA := "openshift-secondary-metadata-parse"

  const TOML_HEAD := [
    "verbosity = \"vvv\"", "",
    "[service]", "pause_secs = 300", "address = \"::\"", "port = 8080", "",
    "[status]", "address = \"::\"", "port = 9080", "",
    "[[plugin_settings]]", "name = \"" + SCRAPE + "\""]

  const CINCINNATI := "/var/lib/cincinnati/"
  const CREDENTIALS_DIR := CINCINNATI + "registry-credentials"
  const GRAPH_DATA_DIR := CINCINNATI + "graph-data"

  const TOML_CREDENTIALS := "credentials_path = \"" + CREDENTIALS_DIR + "/.dockerconfigjson" + "\""

  const TOML_DATA := "data_directory = \"" + GRAPH_DATA_DIR + "\""

  const TOML_TAIL := [
    "\"", "fetch_concurrency = 16", TOML_CREDENTIALS, "",
    "[[plugin_settings]]", "name = \"" + METADATA + "\"",
    TOML_DATA, "",
    "[[plugin_settings]]"]

  function RenderTOML(registry: string, repository: string): string {
    Lines(TOML_HEAD) + "registry = \"" + registry + "\"\nrepository = \"" + repository
    + Lines(TOML_TAIL) + "name = \"edge-add-remove\""
  }

  /** The two halves of a pull spec around its first slash. */
  function SplitReleases(releases: string): Option<(string, string)> {
    var i := IndexOf(releases, '/');
    if i < 0 then None else Some((releases[..i], releases[i + 1..]))
  }

  // ---- Configuration objects ---------------------------------------------

  function NewGraphBuilderConfig(spec: Spec): Option<Object> {
    match SplitReleases(spec.releases)
    case None => None
    case Some((registry, repository)) =>
      Some(Object(PLAIN, ConfigMap(map["gb.toml" := RenderTOML(registry, repository)])))
  }

  function NewEnvConfig(): (o: Object)
    ensures o.body.ConfigMap?
  {
    Object(PLAIN, ConfigMap(map[
      "gb.rust_backtrace" := "0",
      "pe.address" := "::",
      "pe.log.verbosity" := "vv",
      "pe.mandatory_client_parameters" := "channel",
      "pe.rust_backtrace" := "0",
      "pe.status.address" := "::",
      "pe.upstream" := "http://localhost:8080/v1/graph",
      "m.rust_backtrace" := "0"]))
  }

  function NewPullSecret(source: Labels): Object { Object(PLAIN, Secret(source)) }

  function NewTrustedCA(source: Option<Labels>): Option<Object> {
    match source
    case None => None
    case Some(data) => Some(Object(PLAIN, ConfigMap(data)))
  }

  /** A ConfigMap into which the platform injects the cluster's bundle. */
  const CLUSTER_CA_TEMPLATE :=
    Object(Meta(map["config.openshift.io/inject-trusted-cabundle" := "true"],
                map["release.openshift.io/create-only" := "true"], None),
           ConfigMap(map[]))

  predicate ProxySet(env: ProxyEnv) {
    env.http != "" || env.https != "" || env.noProxy != ""
  }

  function NewClusterCA(env: ProxyEnv, found: Option<Object>): Option<Object> {
    if !ProxySet(env) then None
    else if found.Some? then found
    else Some(CLUSTER_CA_TEMPLATE)
  }

  // ---- Budget, services, route, policy -----------------------------------

  function NewBudget(name: string, spec: Spec): Object {
    Object(PLAIN, Budget(BudgetSpec(Names.MinAvailable(spec.replicas),
                                    map["app" := Names.Deployment(name)])))
  }

  function NewGraphBuilderService(name: string): Object {
    Object(PLAIN.(labels := map["app" := Names.GraphBuilderService(name)]),
           Service(ServiceSpec([ServicePort("graph-builder", 8080, 8080), ServicePort("status-gb", 9080, 9080)],
                               map["deployment" := Names.Deployment(name)], "")))
  }

  function NewPolicyEngineService(name: string): Object {
    Object(PLAIN.(labels := map["app" := Names.PolicyEngineService(name)]),
           Service(ServiceSpec([ServicePort("policy-engine", 80, 8081), ServicePort("status-pe", 9081, 9081)],
                               map["deployment" := Names.Deployment(name)], "")))
  }

  function NewRoute(name: string): Object {
    Object(PLAIN.(labels := map["app" := Names.Deployment(name)]),
           Route(RouteSpec("", "policy-engine", Names.PolicyEngineService(name),
                           Some(TLS("edge", "None", "", ""))), ""))
  }

  const DNS_RULE := PolicyRule(
    [Peer(map["kubernetes.io/metadata.name" := "openshift-dns"],
          Some(map["dns.operator.openshift.io/daemonset-dns" := "default"]))],
    [PolicyPort("TCP", Number(5353)), PolicyPort("UDP", Number(5353))])

  const ROUTER_RULE := PolicyRule(
    [Peer(map["policy-group.network.openshift.io/ingress" := ""], None)],
    [PolicyPort("TCP", Named("policy-engine"))])

  function RegistryRule(releases: string, ports: seq<int>): PolicyRule {
    var ns := Egress.NamespaceOf(Egress.Registry(releases));
    PolicyRule(if ns == "" then [] else [Peer(map["kubernetes.io/metadata.name" := ns], None)],
         seq(|ports|, i requires 0 <= i < |ports| => PolicyPort("TCP", Number(ports[i]))))
  }

  function NewNetworkPolicy(name: string, spec: Spec, ports: seq<int>): Object {
    Object(PLAIN.(labels := map["app" := name]),
           NetworkPolicy(PolicySpec(map["app" := Names.Deployment(name)],
                                    [ROUTER_RULE], [RegistryRule(spec.releases, ports), DNS_RULE])))
  }

  // ---- Containers and volumes --------------------------------------------

  function Volumes(name: string, trustedCA: bool, clusterCA: bool): seq<Volume> {
    [Volume("configs", ConfigMapVolume(Names.Config(name), map[])),
     Volume("cincinnati-graph-data", EmptyDir),
     Volume(Names.PULL_SECRET, SecretVolume(Names.PullSecretCopy(name)))]
    + (if trustedCA then [Volume(Names.TRUSTED_CA_VOLUME,
                                 ConfigMapVolume(Names.AdditionalTrustedCA(name),
                                                 map[Names.CERT_KEY := "tls-ca-bundle.pem"]))] else [])
    + (if clusterCA then [Volume(Names.CLUSTER_CA, ConfigMapVolume(Names.CLUSTER_CA, map[]))] else [])
  }

  const GRAPH_DATA_MOUNT := Mount("cincinnati-graph-data", false, GRAPH_DATA_DIR)

  function GraphBuilderMounts(trustedCA: bool, clusterCA: bool): seq<Mount> {
    [Mount("configs", true, "/etc/configs"),
     GRAPH_DATA_MOUNT,
     Mount(Names.PULL_SECRET, true, CREDENTIALS_DIR)]
    + (if trustedCA then [Mount(Names.TRUSTED_CA_VOLUME, true, "/etc/pki/ca-trust/extracted/pem")] else [])
    + (if clusterCA then [Mount(Names.CLUSTER_CA, true, "/etc/pki/ca-trust/extracted/cluster-ca/")] else [])
  }

  /** Appends the conditional volumes one after the other. */
  method NewVolumes(name: string, k: Resources) returns (v: seq<Volume>)
    ensures v == Volumes(name, k.trustedCA.Some?, k.clusterCA.Some?)
  {
    v := [Volume("configs", ConfigMapVolume(Names.Config(name), map[])),
          Volume("cincinnati-graph-data", EmptyDir),
          Volume(Names.PULL_SECRET, SecretVolume(Names.PullSecretCopy(name)))];
    if k.trustedCA.Some? {
      v := v + [Volume(Names.TRUSTED_CA_VOLUME,
                       ConfigMapVolume(Names.AdditionalTrustedCA(name), map[Names.CERT_KEY := "tls-ca-bundle.pem"]))];
    }
    if k.clusterCA.Some? {
      v := v + [Volume(Names.CLUSTER_CA, ConfigMapVolume(Names.CLUSTER_CA, map[]))];
    }
  }

  method NewGraphBuilderMounts(k: Resources) returns (vm: seq<Mount>)
    ensures vm == GraphBuilderMounts(k.trustedCA.Some?, k.clusterCA.Some?)
  {
    vm := [Mount("configs", true, "/etc/configs"),
           GRAPH_DATA_MOUNT,
           Mount(Names.PULL_SECRET, true, CREDENTIALS_DIR)];
    if k.trustedCA.Some? {
      vm := vm + [Mount(Names.TRUSTED_CA_VOLUME, true, "/etc/pki/ca-trust/extracted/pem")];
    }
    if k.clusterCA.Some? {
      vm := vm + [Mount(Names.CLUSTER_CA, true, "/etc/pki/ca-trust/extracted/cluster-ca/")];
    }
  }

  function EnvIfSet(name: string, value: string): seq<EnvVar> {
    if value == "" then [] else [EnvVar(name, Literal(value))]
  }

  function ConfigEnv(name: string, key: string, configMap: string): EnvVar {
    EnvVar(name, FromConfig(configMap, key))
  }

  const LIMITS := map["cpu" := Quantity(750, "750m"), "memory" := Quantity(536870912000, "512Mi")]
  const REQUESTS := map["cpu" := Quantity(150, "150m"), "memory" := Quantity(67108864000, "64Mi")]

  function NewGraphBuilder(name: string, image: string, env: ProxyEnv, mounts: seq<Mount>): Container {
    Container(Names.GRAPH_BUILDER, image, "IfNotPresent",
      ["/usr/bin/graph-builder"], ["-c", "/etc/configs/gb.toml"],
      [ServicePort("graph-builder", 8080, 8080), ServicePort("status-gb", 9080, 9080)],
      [ConfigEnv("RUST_BACKTRACE", "gb.rust_backtrace", Names.EnvConfig(name))]
        + EnvIfSet("HTTP_PROXY", env.http) + EnvIfSet("HTTPS_PROXY", env.https)
        + EnvIfSet("NO_PROXY", env.noProxy),
      LIMITS, REQUESTS, mounts, "/liveness:9080", "/readiness:9080", "")
  }

  function NewPolicyEngine(name: string, image: string): Container {
    var cm := Names.EnvConfig(name);
    Container(Names.POLICY_ENGINE, image, "IfNotPresent",
      ["/usr/bin/policy-engine"], ["policy-engine-args"],
      [ServicePort("policy-engine", 8081, 8081), ServicePort("status-pe", 9081, 9081)],
      [ConfigEnv("ADDRESS", "pe.address", cm), ConfigEnv("PE_STATUS_ADDRESS", "pe.status.address", cm),
       ConfigEnv("UPSTREAM", "pe.upstream", cm), ConfigEnv("PE_LOG_VERBOSITY", "pe.log.verbosity", cm),
       ConfigEnv("PE_MANDATORY_CLIENT_PARAMETERS", "pe.mandatory_client_parameters", cm),
       ConfigEnv("RUST_BACKTRACE", "pe.rust_backtrace", cm)],
      LIMITS, REQUESTS, [], "/livez:9081", "/readyz:9081", "")
  }

  function NewGraphData(spec: Spec): Container {
    Container(Names.GRAPH_DATA, spec.graphDataImage, "Always", [], [], [], [],
              map[], map[], [GRAPH_DATA_MOUNT], "", "", "")
  }

  function NewDeployment(name: string, spec: Spec, k: Resources): Object {
    Object(PLAIN, Deployment(DeploymentSpec(
      spec.replicas, map["app" := Names.Deployment(name)], "RollingUpdate 50% 100%",
      Template(map["app" := Names.Deployment(name), "deployment" := Names.Deployment(name)],
               map[CONFIG_HASH := k.graphBuilderConfigHash, ENV_HASH := k.envConfigHash],
               PodSpec(k.volumes, [k.graphBuilder, k.policyEngine], [k.graphData], "")),
      "")))
  }

  // ---- All of them -------------------------------------------------------

  /** What is computed from the pull spec and the environment before the objects
      are put together. The hashes are given by the bytes fed to them. */
  datatype Parts = Parts(config: Object, configHash: string, envHash: string, ports: seq<int>)

  ghost function PartsOf(spec: Spec, env: ProxyEnv): (p: Option<Parts>)
    ensures p.Some? <==> '/' in spec.releases
    ensures p.Some? ==> p.value.config.body.ConfigMap? && p.value.config.meta == PLAIN
  {
    match NewGraphBuilderConfig(spec)
    case None => None
    case Some(config) =>
      Some(Parts(config, Checksum.Stream(config.body.data), Checksum.Stream(NewEnvConfig().body.data),
                 Egress.PortsFor(spec.releases, env)))
  }

  function Assemble(cfg: Config, name: string, spec: Spec, secret: Labels,
                    ca: Option<Labels>, clusterCA: Option<Object>, p: Parts): Resources {
    var tca, cca := NewTrustedCA(ca), NewClusterCA(cfg.env, clusterCA);
    var volumes := Volumes(name, tca.Some?, cca.Some?);
    var mounts := GraphBuilderMounts(tca.Some?, cca.Some?);
    var k := Resources(
      NewEnvConfig(), p.envHash, p.config, p.configHash, NewBudget(name, spec), p.config,
      NewGraphBuilder(name, cfg.operandImage, cfg.env, mounts), NewGraphData(spec),
      NewPolicyEngine(name, cfg.operandImage),
      NewGraphBuilderService(name), NewPolicyEngineService(name),
      NewRoute(name), NewNetworkPolicy(name, spec, p.ports),
      tca, cca, NewPullSecret(secret), volumes, mounts);
    k.(deployment := NewDeployment(name, spec, k))
  }

  /** Everything an instance should have; None when its releases pull spec has
      no slash. */
  ghost function Render(cfg: Config, name: string, spec: Spec, secret: Labels,
                        ca: Option<Labels>, clusterCA: Option<Object>): (r: Option<Resources>)
    ensures r.Some? <==> '/' in spec.releases
  {
    match PartsOf(spec, cfg.env)
    case None => None
    case Some(p) => Some(Assemble(cfg, name, spec, secret, ca, clusterCA, p))
  }

  /** Fills in the fields one by one; later ones read earlier ones. */
  method NewKubeResources(cfg: Config, name: string, spec: Spec, secret: Labels,
                          ca: Option<Labels>, clusterCA: Option<Object>)
    returns (r: Option<Resources>)
    ensures r == Render(cfg, name, spec, secret, ca, clusterCA)
  {
    hide NewEnvConfig, RenderTOML, Checksum.Stream;
    var config := NewGraphBuilderConfig(spec);
    if config.None? { return None; }
    var blank := config.value;
    var noContainer := NewGraphData(spec);
    var k := Resources(blank, "", blank, "", blank, blank, noContainer, noContainer, noContainer,
                       blank, blank, blank, blank, None, None, blank, [], []);
    k := k.(graphBuilderConfig := config.value);
    var hash := Checksum.ChecksumMap(k.graphBuilderConfig.body.data);
    k := k.(graphBuilderConfigHash := hash);
    k := k.(envConfig := NewEnvConfig());
    var envHash := Checksum.ChecksumMap(k.envConfig.body.data);
    k := k.(trustedCA := NewTrustedCA(ca));
    k := k.(clusterCA := NewClusterCA(cfg.env, clusterCA));
    k := k.(pullSecret := NewPullSecret(secret));
    k := k.(envConfigHash := envHash);
    k := k.(budget := NewBudget(name, spec));
    var volumes := NewVolumes(name, k);
    k := k.(volumes := volumes);
    var mounts := NewGraphBuilderMounts(k);
    k := k.(graphBuilderMounts := mounts);
    k := k.(graphBuilder := NewGraphBuilder(name, cfg.operandImage, cfg.env, k.graphBuilderMounts));
    k := k.(graphData := NewGraphData(spec));
    k := k.(policyEngine := NewPolicyEngine(name, cfg.operandImage));
    k := k.(deployment := NewDeployment(name, spec, k));
    k := k.(graphBuilderService := NewGraphBuilderService(name));
    k := k.(policyEngineService := NewPolicyEngineService(name));
    k := k.(route := NewRoute(name));
    var ports := Egress.EgressPorts(spec.releases, cfg.env);
    k := k.(networkPolicy := NewNetworkPolicy(name, spec, ports));
    r := Some(k);
  }

  /** A namespace peer goes with exactly one port, the registry's own, whatever
      the proxies are. */
  lemma NamespaceRule(releases: string, env: ProxyEnv)
    ensures var rule := RegistryRule(releases, Egress.PortsFor(releases, env));
            && 1 <= |rule.ports| <= 2
            && (rule.peers != [] ==>
                  |rule.ports| == 1 && rule.ports[0].port == Number(Egress.OwnPort(releases)))
  {
    Egress.PortsShape(releases, env);
  }

  ghost predicate DeclaredOnce(vs: seq<Volume>, name: string) {
    exists i :: 0 <= i < |vs| && vs[i].name == name && forall j | 0 <= j < |vs| && j != i :: vs[j].name != name
  }

  lemma VolumeNames(name: string, trustedCA: bool, clusterCA: bool)
    ensures var vs := Volumes(name, trustedCA, clusterCA);
            var ms := GraphBuilderMounts(trustedCA, clusterCA);
            && 2 < |vs| == |ms| && (forall i | 0 <= i < |vs| :: vs[i].name == ms[i].name)
            && vs[1].name == GRAPH_DATA_MOUNT.name
            && (forall i, j | 0 <= i < j < |vs| :: vs[i].name != vs[j].name)
  {
    NamesApart();
  }

  /** Every mount of the two containers that need volumes names exactly one
      declared volume, whatever certificate authorities are present. */
  lemma MountsDeclared(name: string, spec: Spec, trustedCA: bool, clusterCA: bool, m: Mount)
    requires m in GraphBuilderMounts(trustedCA, clusterCA) || m in NewGraphData(spec).mounts
    ensures DeclaredOnce(Volumes(name, trustedCA, clusterCA), m.name)
  {
    hide Volumes, GraphBuilderMounts;
    var vs, ms := Volumes(name, trustedCA, clusterCA), GraphBuilderMounts(trustedCA, clusterCA);
    VolumeNames(name, trustedCA, clusterCA);
    if m in ms {
      var i :| 0 <= i < |ms| && ms[i] == m;
      assert vs[i].name == m.name;
    } else {
      assert m == GRAPH_DATA_MOUNT && vs[1].name == m.name;
    }
  }

  lemma NamesApart()
    ensures "configs" != "cincinnati-graph-data" && "configs" != Names.PULL_SECRET
    ensures "configs" != Names.TRUSTED_CA_VOLUME && "configs" != Names.CLUSTER_CA
    ensures "cincinnati-graph-data" != Names.PULL_SECRET && "cincinnati-graph-data" != Names.TRUSTED_CA_VOLUME
    ensures "cincinnati-graph-data" != Names.CLUSTER_CA && Names.PULL_SECRET != Names.TRUSTED_CA_VOLUME
    ensures Names.PULL_SECRET != Names.CLUSTER_CA && Names.TRUSTED_CA_VOLUME != Names.CLUSTER_CA
  {
    assert |"configs"| == 7 && |"cincinnati-graph-data"| == 21 && |Names.PULL_SECRET| == 11;
    assert |Names.TRUSTED_CA_VOLUME| == 10 && |Names.CLUSTER_CA| == 18;
  }
}
