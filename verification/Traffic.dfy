/** What flows between an instance's pods, its registry and its users after an
    undisturbed pass: traffic, copies, images and the network policy. */
module Traffic {
  import opened Text
  import opened Objects
  import opened Slots
  import opened Resources
  import opened Plan
  import opened Convergence
  import opened Wiring
  import Egress
  import Isolation
  import Merge
  import NoProxy
  import Together
  import Toml

  // ---- Ports -------------------------------------------------------------

  /** Every container of that name listens on the port. */
  predicate Listens(pod: PodSpec, name: string, port: int) {
    forall c <- pod.containers :: c.name == name ==> exists i :: 0 <= i < |c.ports| && c.ports[i].port == port
  }

  /** Every port of the service leads to one that the containers of that name
      listen on. */
  predicate Leads(st: Store, ns: string, service: string, pod: PodSpec, name: string) {
    var key := Key(ServiceKind, ns, service);
    && key in st && st[key].body.Service?
    && forall p <- st[key].body.service.ports :: Listens(pod, name, p.target)
  }

  /** The service has a port of that name. */
  predicate HasPort(st: Store, ns: string, service: string, port: string) {
    var key := Key(ServiceKind, ns, service);
    && key in st && st[key].body.Service?
    && exists i :: 0 <= i < |st[key].body.service.ports| && st[key].body.service.ports[i].name == port
  }

  /** The pods are among those the service selects. */
  predicate Selects(st: Store, ns: string, service: string, labels: Labels) {
    var key := Key(ServiceKind, ns, service);
    key in st && st[key].body.Service? && Merge.Agrees(labels, st[key].body.service.selector)
  }

  lemma PortsOfMade(pod: PodSpec, name: string, o: Container, port: int)
    requires forall c <- pod.containers :: c.name == name ==> Merge.InLine(c, o)
    requires exists i :: 0 <= i < |o.ports| && o.ports[i].port == port
    ensures Listens(pod, name, port)
  {
    var i :| 0 <= i < |o.ports| && o.ports[i].port == port;
    forall c | c in pod.containers && c.name == name
      ensures exists j :: 0 <= j < |c.ports| && c.ports[j].port == port
    {
      assert c.ports[i].port == port;
    }
  }

  lemma BuilderPorts(name: string, image: string, cfg: Config, mounts: seq<Mount>)
    ensures var ports := NewGraphBuilder(name, image, cfg.env, mounts).ports;
            |ports| == 2 && ports[0].port == 8080 && ports[1].port == 9080
    ensures var ports := NewPolicyEngine(name, image).ports;
            |ports| == 2 && ports[0].port == 8081 && ports[1].port == 9081
  {}

  lemma ListensSettled(end: Store, ns: string, name: string, cfg: Config, spec: Spec, secret: Labels,
                       ca: Option<Labels>, k: Resources, p: Parts, d: DeploymentSpec)
    requires Settled(end, ns, name, cfg, spec, secret, ca, k, p) && Deployed(end, ns, name, k, d)
    ensures var pod := d.template.pod;
            && Listens(pod, "graph-builder", 8080) && Listens(pod, "graph-builder", 9080)
            && Listens(pod, "policy-engine", 8081) && Listens(pod, "policy-engine", 9081)
    ensures Merge.Agrees(d.template.labels, PodLabels(name))
  {
    hide NewEnvConfig, NewGraphBuilder, NewPolicyEngine, NewGraphData, Volumes, GraphBuilderMounts, NewRoute, MadeFor,
         NewGraphBuilderService, NewPolicyEngineService, NewNetworkPolicy, NewBudget, NewGraphBuilderConfig,
         Egress.PortsFor, Placed, Deployed, Merge.InLine, Merge.Agrees, Listens;
    var cca :| MadeFor(k, cfg, name, spec, secret, ca, cca, p);
    MadeFields(k, cfg, name, spec, secret, ca, cca, p);
    ManagedContainers(end, ns, name, k, d);
    BuilderPorts(name, cfg.operandImage, cfg, GraphBuilderMounts(ca.Some?, ProxySet(cfg.env)));
    var pod := d.template.pod;
    PortsOfMade(pod, "graph-builder", k.graphBuilder, 8080);
    PortsOfMade(pod, "graph-builder", k.graphBuilder, 9080);
    PortsOfMade(pod, "policy-engine", k.policyEngine, 8081);
    PortsOfMade(pod, "policy-engine", k.policyEngine, 9081);
  }

  /** The services lead to their containers, and the route to a port of the
      policy engine's service. */
  ghost predicate TrafficLeads(st: Store, ns: string, name: string, t: Template) {
    var key := RouteAt(st, ns, name);
    && key in st && st[key].body.Route?
    && var r := st[key].body.route;
       && HasPort(st, ns, r.service, r.targetPort)
       && Leads(st, ns, r.service, t.pod, "policy-engine") && Selects(st, ns, r.service, t.labels)
       && Leads(st, ns, name + "-graph-builder", t.pod, "graph-builder")
       && Selects(st, ns, name + "-graph-builder", t.labels)
  }

  /** What the steps left for the traffic. */
  lemma TrafficKnown(end: Store, ns: string, name: string, cfg: Config, spec: Spec, secret: Labels,
                     ca: Option<Labels>, k: Resources, p: Parts)
    requires Settled(end, ns, name, cfg, spec, secret, ca, k, p)
    ensures ServicePlaced(end, Key(ServiceKind, ns, name + "-graph-builder"), NewGraphBuilderService(name))
    ensures ServicePlaced(end, Key(ServiceKind, ns, name + "-policy-engine"), NewPolicyEngineService(name))
    ensures RoutePlaced(end, RouteAt(end, ns, name), NewRoute(name))
  {
    hide NewEnvConfig, NewGraphBuilder, NewPolicyEngine, NewGraphData, Volumes, GraphBuilderMounts, MadeFor, NewRoute,
         NewNetworkPolicy, NewBudget, NewGraphBuilderConfig, Egress.PortsFor, NewGraphBuilderService,
         NewPolicyEngineService, ServicePlaced, RoutePlaced;
    var cca :| MadeFor(k, cfg, name, spec, secret, ca, cca, p);
    MadeFields(k, cfg, name, spec, secret, ca, cca, p);
  }

  lemma TrafficSettled(end: Store, ns: string, name: string, t: Template)
    requires ServicePlaced(end, Key(ServiceKind, ns, name + "-graph-builder"), NewGraphBuilderService(name))
    requires ServicePlaced(end, Key(ServiceKind, ns, name + "-policy-engine"), NewPolicyEngineService(name))
    requires RoutePlaced(end, RouteAt(end, ns, name), NewRoute(name)) && Merge.Agrees(t.labels, PodLabels(name))
    requires Listens(t.pod, "graph-builder", 8080) && Listens(t.pod, "graph-builder", 9080)
    requires Listens(t.pod, "policy-engine", 8081) && Listens(t.pod, "policy-engine", 9081)
    ensures TrafficLeads(end, ns, name, t)
  {
    hide Listens, Merge.Agrees;
    SelectorsAgree(name, t.labels);
    var key := Key(ServiceKind, ns, name + "-policy-engine");
    assert end[key].body.service.ports[0].name == "policy-engine";
  }

  /** After an undisturbed pass the route's traffic finds the policy engine. */
  lemma TrafficResolves(st: Store, cfg: Config, ns: string, name: string, ip: Allocator)
    requires Goes(st, cfg, ns, name) && Writable(st, ns, name)
    ensures var end := Reconciled(st, cfg, ns, name, ip);
            PodAt(end, ns, name).Some? && TrafficLeads(end, ns, name, PodAt(end, ns, name).value)
  {
    hide Decide, Reconciled, Settled, FindTrustedCA, TrafficLeads, Listens, ServicePlaced, RoutePlaced, RouteAt;
    var end, spec := Reconciled(st, cfg, ns, name, ip), SpecAt(st, InstanceKey(ns, name)).value;
    var ca := CertificateData(FindTrustedCA(st));
    var secret, k, p := PassSettles(st, cfg, ns, name, ip);
    var d := PassDeploys(st, cfg, ns, name, ip);
    ListensSettled(end, ns, name, cfg, spec, secret, ca, k, p, d);
    TrafficKnown(end, ns, name, cfg, spec, secret, ca, k, p);
    TrafficSettled(end, ns, name, d.template);
  }

  lemma UpstreamPort()
    ensures Egress.PortFromURL("http://localhost:8080/v1/graph") == Some(8080)
  {
    hide Egress.PortFromURL, Egress.PlainHost, Egress.UserChar, ToDecimal;
    EightyEighty();
    DecimalShortest("8080");
    UpstreamChars();
    Egress.WebPortPath("http", "localhost", 8080, "v1/graph");
    UpstreamText();
  }

  lemma UpstreamChars()
    ensures Egress.PlainHost("localhost")
    ensures forall c <- "v1/graph" :: c == '/' || (Egress.UserChar(c) && c != '%')
  {}

  lemma UpstreamText()
    ensures "http" + "://" + ("localhost" + ":" + "8080" + "/" + "v1/graph") == "http://localhost:8080/v1/graph"
  {}

  lemma EightyEighty()
    ensures Digits("8080") && Decimal("8080") == 8080
  {
    assert "8080"[..3] == "808" && "808"[..2] == "80" && "80"[..1] == "8" && "8"[..0] == "";
    assert Decimal("8") == 8 && Decimal("80") == 80 && Decimal("808") == 808;
  }

  lemma UpstreamKey()
    ensures var data := NewEnvConfig().body.data;
            "pe.upstream" in data && data["pe.upstream"] == "http://localhost:8080/v1/graph"
  {}

  /** The policy engine asks the graph-builder where the latter's file tells it to
      serve and its container listens. */
  ghost predicate UpstreamLeads(st: Store, ns: string, name: string, pod: PodSpec) {
    && HasKey(st, ns, name + "-env", "pe.upstream") && HasKey(st, ns, name + "-config", "gb.toml")
    && var url := st[Key(ConfigMapKind, ns, name + "-env")].body.data["pe.upstream"];
       var text := st[Key(ConfigMapKind, ns, name + "-config")].body.data["gb.toml"];
       exists port ::
         && Egress.PortFromURL(url) == Some(port) && Listens(pod, "graph-builder", port)
         && port >= 0 && Toml.Read(text, "[service]", "port") == Some(ToDecimal(port))
  }

  lemma UpstreamKnown(end: Store, ns: string, name: string, cfg: Config, spec: Spec, secret: Labels,
                      ca: Option<Labels>, k: Resources, p: Parts, registry: string, repository: string)
    requires Settled(end, ns, name, cfg, spec, secret, ca, k, p)
    requires spec.releases == registry + "/" + repository && '/' !in registry
    ensures HasKey(end, ns, name + "-env", "pe.upstream") && HasKey(end, ns, name + "-config", "gb.toml")
    ensures end[Key(ConfigMapKind, ns, name + "-env")].body.data["pe.upstream"] == "http://localhost:8080/v1/graph"
    ensures end[Key(ConfigMapKind, ns, name + "-config")].body.data["gb.toml"] == RenderTOML(registry, repository)
  {
    hide NewEnvConfig, NewGraphBuilder, NewPolicyEngine, NewGraphData, Volumes, GraphBuilderMounts, MadeFor, NewRoute,
         NewNetworkPolicy, NewBudget, NewGraphBuilderConfig, Egress.PortsFor, NewGraphBuilderService,
         NewPolicyEngineService, ServicePlaced, RoutePlaced, RenderTOML;
    var cca :| MadeFor(k, cfg, name, spec, secret, ca, cca, p);
    MadeFields(k, cfg, name, spec, secret, ca, cca, p);
    ReleasesSplit(spec, p.config, registry, repository);
    UpstreamKey();
  }

  /** After an undisturbed pass the policy engine finds the graph-builder. */
  lemma UpstreamResolves(st: Store, cfg: Config, ns: string, name: string, ip: Allocator, registry: string,
                         repository: string)
    requires Goes(st, cfg, ns, name) && Writable(st, ns, name)
    requires SpecAt(st, InstanceKey(ns, name)).value.releases == registry + "/" + repository && '/' !in registry
    requires Toml.Clean(registry) && Toml.Clean(repository)
    ensures var end := Reconciled(st, cfg, ns, name, ip);
            PodAt(end, ns, name).Some? && UpstreamLeads(end, ns, name, PodAt(end, ns, name).value.pod)
  {
    hide Decide, Reconciled, Settled, FindTrustedCA, Listens, HasKey, RenderTOML, Toml.Read, Egress.PortFromURL,
         ToDecimal;
    var end, spec := Reconciled(st, cfg, ns, name, ip), SpecAt(st, InstanceKey(ns, name)).value;
    var ca := CertificateData(FindTrustedCA(st));
    var secret, k, p := PassSettles(st, cfg, ns, name, ip);
    var d := PassDeploys(st, cfg, ns, name, ip);
    ListensSettled(end, ns, name, cfg, spec, secret, ca, k, p, d);
    UpstreamKnown(end, ns, name, cfg, spec, secret, ca, k, p, registry, repository);
    Toml.ConfigSays(registry, repository);
    UpstreamPort();
    EightyEighty();
    DecimalShortest("8080");
  }

  // ---- Copies, budget and pods -------------------------------------------

  /** After an undisturbed pass the copies hold what their sources do. */
  lemma CopiesMade(st: Store, cfg: Config, ns: string, name: string, ip: Allocator)
    requires Goes(st, cfg, ns, name)
    ensures SecretAt(st, Key(SecretKind, "openshift-config", "pull-secret")).Some?
    ensures var end, copy := Reconciled(st, cfg, ns, name, ip), Key(SecretKind, ns, name + "-pull-secret");
            && copy in end
            && end[copy].body == Secret(SecretAt(st, Key(SecretKind, "openshift-config", "pull-secret")).value)
    ensures var end, copy := Reconciled(st, cfg, ns, name, ip), Key(ConfigMapKind, ns, name + "-trusted-ca");
            var image := Key(ImageKind, "", "cluster");
            FindTrustedCA(st).Certificates? ==>
              && image in st && st[image].body.Image?
              && var source := Key(ConfigMapKind, "openshift-config", st[image].body.trustedCA);
                 source in st && copy in end && end[copy].body == st[source].body
  {
    hide Decide, Reconciled, Settled;
    var end, spec := Reconciled(st, cfg, ns, name, ip), SpecAt(st, InstanceKey(ns, name)).value;
    var secret, k, p := PassSettles(st, cfg, ns, name, ip);
    CopiesKnown(end, ns, name, cfg, spec, secret, CertificateData(FindTrustedCA(st)), k, p);
  }

  lemma CopiesKnown(end: Store, ns: string, name: string, cfg: Config, spec: Spec, secret: Labels,
                    ca: Option<Labels>, k: Resources, p: Parts)
    requires Settled(end, ns, name, cfg, spec, secret, ca, k, p)
    ensures Lookup(end, Key(SecretKind, ns, name + "-pull-secret")).Some?
    ensures end[Key(SecretKind, ns, name + "-pull-secret")].body == Secret(secret)
    ensures ca.Some? ==>
              var copy := Key(ConfigMapKind, ns, name + "-trusted-ca");
              copy in end && end[copy].body == ConfigMap(ca.value)
    ensures Lookup(end, Key(BudgetKind, ns, name)).Some?
    ensures end[Key(BudgetKind, ns, name)].body == NewBudget(name, spec).body
    ensures Lookup(end, Key(NetworkPolicyKind, ns, name)).Some?
    ensures end[Key(NetworkPolicyKind, ns, name)].body
            == NewNetworkPolicy(name, spec, Egress.PortsFor(spec.releases, cfg.env)).body
  {
    hide NewEnvConfig, NewGraphBuilder, NewPolicyEngine, NewGraphData, Volumes, GraphBuilderMounts, MadeFor, NewRoute,
         NewNetworkPolicy, NewBudget, NewGraphBuilderConfig, Egress.PortsFor, NewGraphBuilderService,
         NewPolicyEngineService, ServicePlaced, RoutePlaced;
    var cca :| MadeFor(k, cfg, name, spec, secret, ca, cca, p);
    MadeFields(k, cfg, name, spec, secret, ca, cca, p);
  }

  /** After an undisturbed pass for a tag the missing pod is there, with the
      instance's image to pull. */
  lemma TagPulled(st: Store, cfg: Config, ns: string, name: string, ip: Allocator)
    requires Goes(st, cfg, ns, name) && Key(PodKind, ns, "graph-data-tag-digest") !in st
    requires !Occurs("@sha256", SpecAt(st, InstanceKey(ns, name)).value.graphDataImage)
    ensures var end, key := Reconciled(st, cfg, ns, name, ip), Key(PodKind, ns, "graph-data-tag-digest");
            key in end && end[key].body == Pod(SpecAt(st, InstanceKey(ns, name)).value.graphDataImage, Pending, [])
  {
    hide Decide, AfterPass, Pinned;
    PinnedImages(ImageAt(st, ns, name));
    Together.PodAfter(st, ns, name, Decide(st, cfg, ns, name).k, ip);
  }

  /** And a bundle that had to be created asks the platform to fill it. */
  lemma InjectionAsked(st: Store, cfg: Config, ns: string, name: string, ip: Allocator)
    requires Goes(st, cfg, ns, name) && Key(ConfigMapKind, ns, "cluster-trusted-ca") !in st
    requires cfg.env.http != "" || cfg.env.https != "" || cfg.env.noProxy != ""
    requires name != "cluster" || !FindTrustedCA(st).Certificates?
    ensures var end, key := Reconciled(st, cfg, ns, name, ip), Key(ConfigMapKind, ns, "cluster-trusted-ca");
            && key in end && end[key].body == ConfigMap(map[])
            && "config.openshift.io/inject-trusted-cabundle" in end[key].meta.labels
            && end[key].meta.labels["config.openshift.io/inject-trusted-cabundle"] == "true"
  {
    hide Decide, Reconciled, FindTrustedCA;
    Isolation.BundleLater(st, cfg, ns, name, ip);
  }

  /** After an undisturbed pass the budget lets a pod go from any Deployment, and
      keeps one of several. */
  lemma BudgetAllows(st: Store, cfg: Config, ns: string, name: string, ip: Allocator)
    requires Goes(st, cfg, ns, name)
    ensures var end, key := Reconciled(st, cfg, ns, name, ip), Key(BudgetKind, ns, name);
            var replicas := SpecAt(st, InstanceKey(ns, name)).value.replicas;
            && key in end && end[key].body.Budget?
            && var kept := end[key].body.budget.minAvailable;
               0 <= kept && (replicas >= 1 ==> kept < replicas) && (replicas >= 2 ==> kept >= 1)
  {
    hide Decide, Reconciled, Settled, FindTrustedCA, NewNetworkPolicy, Egress.PortsFor;
    var end, spec := Reconciled(st, cfg, ns, name, ip), SpecAt(st, InstanceKey(ns, name)).value;
    var secret, k, p := PassSettles(st, cfg, ns, name, ip);
    CopiesKnown(end, ns, name, cfg, spec, secret, CertificateData(FindTrustedCA(st)), k, p);
  }

  /** A variable is set exactly when the operator's is, and to the same. */
  predicate PassedOn(c: Container, variable: string, value: string) {
    && (forall e <- c.env :: e.name == variable ==> value != "" && e.value == Literal(value))
    && (value != "" ==> EnvVar(variable, Literal(value)) in c.env)
  }

  /** The operand's image, the graph data's image, and the proxies. */
  predicate Runs(t: Template, image: string, graphData: string, http: string, https: string, noProxy: string) {
    && (forall c <- t.pod.containers :: Managed(c) ==> c.image == image)
    && (forall c <- t.pod.containers :: c.name == "graph-builder" ==>
          PassedOn(c, "HTTP_PROXY", http) && PassedOn(c, "HTTPS_PROXY", https) && PassedOn(c, "NO_PROXY", noProxy))
    && (forall c <- t.pod.initContainers :: c.name == "graph-data" ==> c.image == graphData)
  }

  lemma ProxiesPassed(name: string, cfg: Config, mounts: seq<Mount>)
    ensures var c := NewGraphBuilder(name, cfg.operandImage, cfg.env, mounts);
            && PassedOn(c, "HTTP_PROXY", cfg.env.http) && PassedOn(c, "HTTPS_PROXY", cfg.env.https)
            && PassedOn(c, "NO_PROXY", cfg.env.noProxy) && c.image == cfg.operandImage
            && NewPolicyEngine(name, cfg.operandImage).image == cfg.operandImage
  {
    assert |"RUST_BACKTRACE"| == 14 && |"HTTP_PROXY"| == 10 && |"HTTPS_PROXY"| == 11 && |"NO_PROXY"| == 8;
  }

  lemma SamePassed(c: Container, o: Container, variable: string, value: string)
    requires c.env == o.env && PassedOn(o, variable, value)
    ensures PassedOn(c, variable, value)
  {}

  lemma RunsSettled(end: Store, ns: string, name: string, cfg: Config, spec: Spec, secret: Labels, ca: Option<Labels>,
                    k: Resources, p: Parts, d: DeploymentSpec)
    requires Settled(end, ns, name, cfg, spec, secret, ca, k, p) && Deployed(end, ns, name, k, d)
    ensures d.replicas == spec.replicas
    ensures Runs(d.template, cfg.operandImage, spec.graphDataImage, cfg.env.http, cfg.env.https, cfg.env.noProxy)
  {
    hide NewEnvConfig, NewGraphBuilder, NewPolicyEngine, Volumes, GraphBuilderMounts, MadeFor, NewRoute,
         NewNetworkPolicy, NewBudget, NewGraphBuilderConfig, Egress.PortsFor, NewGraphBuilderService,
         NewPolicyEngineService, Placed, Deployed, PassedOn, Merge.AmountsAgree;
    var cca :| MadeFor(k, cfg, name, spec, secret, ca, cca, p);
    MadeFields(k, cfg, name, spec, secret, ca, cca, p);
    ManagedContainers(end, ns, name, k, d);
    ProxiesPassed(name, cfg, GraphBuilderMounts(ca.Some?, ProxySet(cfg.env)));
    forall c | c in d.template.pod.containers && c.name == "graph-builder"
      ensures PassedOn(c, "HTTP_PROXY", cfg.env.http) && PassedOn(c, "HTTPS_PROXY", cfg.env.https)
      ensures PassedOn(c, "NO_PROXY", cfg.env.noProxy)
    {
      SamePassed(c, k.graphBuilder, "HTTP_PROXY", cfg.env.http);
      SamePassed(c, k.graphBuilder, "HTTPS_PROXY", cfg.env.https);
      SamePassed(c, k.graphBuilder, "NO_PROXY", cfg.env.noProxy);
    }
  }

  /** After an undisturbed pass the pods run what the instance and the operator's
      settings ask for. */
  lemma PodsRun(st: Store, cfg: Config, ns: string, name: string, ip: Allocator)
    requires Goes(st, cfg, ns, name) && Writable(st, ns, name)
    ensures var end, key := Reconciled(st, cfg, ns, name, ip), Key(DeploymentKind, ns, name);
            var spec := SpecAt(st, InstanceKey(ns, name)).value;
            && key in end && end[key].body.Deployment?
            && end[key].body.deployment.replicas == spec.replicas
            && Runs(end[key].body.deployment.template, cfg.operandImage, spec.graphDataImage,
                    cfg.env.http, cfg.env.https, cfg.env.noProxy)
  {
    hide Decide, Reconciled, Settled, FindTrustedCA, Runs;
    var end, spec := Reconciled(st, cfg, ns, name, ip), SpecAt(st, InstanceKey(ns, name)).value;
    var secret, k, p := PassSettles(st, cfg, ns, name, ip);
    var d := PassDeploys(st, cfg, ns, name, ip);
    RunsSettled(end, ns, name, cfg, spec, secret, CertificateData(FindTrustedCA(st)), k, p, d);
  }

  // ---- The network policy ------------------------------------------------

  /** The registry is a service of the cluster, in that namespace. */
  ghost predicate Internal(releases: string, ns: string) {
    && ns != "" && '.' !in ns
    && exists host :: Egress.InternalHost(Egress.HostOnly(Egress.Registry(releases)), host, ns)
  }

  ghost predicate Toward(rule: PolicyRule, ns: string) {
    rule.peers == [Peer(map["kubernetes.io/metadata.name" := ns], None)]
  }

  /** The rule goes to one namespace exactly when the registry is a service
      there, and anywhere exactly when it is none. */
  lemma PeersExact(releases: string, ports: seq<int>, ns: string)
    ensures Toward(RegistryRule(releases, ports), ns) <==> Internal(releases, ns)
    ensures RegistryRule(releases, ports).peers == [] <==> !exists n :: Internal(releases, n)
  {
    hide Egress.NamespaceOf, Egress.HostOnly, Egress.Registry, Egress.InternalHost;
    var found, rule := Egress.NamespaceOf(Egress.Registry(releases)), RegistryRule(releases, ports);
    if ns != "" { Egress.NamespaceIff(Egress.Registry(releases), ns); }
    if found != "" {
      Egress.NamespaceIff(Egress.Registry(releases), found);
      assert Internal(releases, found);
      SamePeer(found, ns);
    }
    if exists n :: Internal(releases, n) {
      var n :| Internal(releases, n);
      Egress.NamespaceIff(Egress.Registry(releases), n);
    }
  }

  lemma SamePeer(a: string, b: string)
    ensures map["kubernetes.io/metadata.name" := a] == map["kubernetes.io/metadata.name" := b] <==> a == b
  {
    var x, y := map["kubernetes.io/metadata.name" := a], map["kubernetes.io/metadata.name" := b];
    assert x["kubernetes.io/metadata.name"] == a && y["kubernetes.io/metadata.name"] == b;
  }

  /** The rule lets out to the numbered TCP ports, in that order. */
  predicate LetsOut(rule: PolicyRule, ports: seq<int>) {
    && |rule.ports| == |ports|
    && forall i | 0 <= i < |ports| :: rule.ports[i] == PolicyPort("TCP", Number(ports[i]))
  }

  /** What the policy lets in and out: from the router to a port that every policy
      engine names, to where the registry is, and to the cluster's names. */
  ghost predicate Admits(policy: PolicySpec, t: Template, releases: string, env: NoProxy.ProxyEnv) {
    && Merge.Agrees(t.labels, policy.podSelector) && |policy.ingress| == 1 && |policy.egress| == 2
    && FromRouter(policy.ingress[0], t.pod)
    && (forall ns :: Toward(policy.egress[0], ns) <==> Internal(releases, ns))
    && (policy.egress[0].peers == [] <==> !exists ns :: Internal(releases, ns))
    && (exists ports ::
          && LetsOut(policy.egress[0], ports)
          && Egress.Reaches(ports, Egress.PortFromURL(env.http), Egress.PortFromURL(env.https),
                            Egress.Registry(releases), Egress.Direct(releases, env)))
    && PolicyPort("UDP", Number(5353)) in policy.egress[1].ports
    && PolicyPort("TCP", Number(5353)) in policy.egress[1].ports
  }

  /** One TCP port by a name that every policy engine gives to one of its own. */
  ghost predicate FromRouter(rule: PolicyRule, pod: PodSpec) {
    && rule.peers == [Peer(map["policy-group.network.openshift.io/ingress" := ""], None)] && |rule.ports| == 1
    && rule.ports[0].protocol == "TCP" && rule.ports[0].port.Named?
    && forall c <- pod.containers :: c.name == "policy-engine" ==> NamesPort(c, rule.ports[0].port.name)
  }

  predicate NamesPort(c: Container, port: string) {
    exists i :: 0 <= i < |c.ports| && c.ports[i].name == port
  }

  lemma PolicyMade(name: string, spec: Spec, env: NoProxy.ProxyEnv, t: Template)
    requires Merge.Agrees(t.labels, PodLabels(name))
    requires forall c <- t.pod.containers :: c.name == "policy-engine" ==> NamesPort(c, "policy-engine")
    ensures Admits(NewNetworkPolicy(name, spec, Egress.PortsFor(spec.releases, env)).body.policy, t, spec.releases, env)
  {
    hide Egress.PortsFor, Egress.Reaches, Egress.PortFromURL, Egress.Direct, Internal, NamesPort, Merge.Agrees, Toward,
         RegistryRule;
    var ports := Egress.PortsFor(spec.releases, env);
    var rule := RegistryRule(spec.releases, ports);
    SelectorsAgree(name, t.labels);
    forall ns ensures Toward(rule, ns) <==> Internal(spec.releases, ns) { PeersExact(spec.releases, ports, ns); }
    PeersExact(spec.releases, ports, "");
    Egress.PortsReach(spec.releases, env);
    RuleLetsOut(spec.releases, ports);
    assert DNS_RULE.ports[0] in DNS_RULE.ports && DNS_RULE.ports[1] in DNS_RULE.ports;
  }

  lemma RuleLetsOut(releases: string, ports: seq<int>)
    ensures LetsOut(RegistryRule(releases, ports), ports)
  {}

  lemma EngineNamesPort(end: Store, ns: string, name: string, cfg: Config, spec: Spec, secret: Labels,
                        ca: Option<Labels>, k: Resources, p: Parts, d: DeploymentSpec)
    requires Settled(end, ns, name, cfg, spec, secret, ca, k, p) && Deployed(end, ns, name, k, d)
    ensures forall c <- d.template.pod.containers :: c.name == "policy-engine" ==> NamesPort(c, "policy-engine")
  {
    hide NewEnvConfig, NewGraphBuilder, Volumes, GraphBuilderMounts, MadeFor, NewRoute, NewNetworkPolicy, NewBudget,
         NewGraphBuilderConfig, Egress.PortsFor, NewGraphBuilderService, NewPolicyEngineService, Placed, Deployed,
         Merge.AmountsAgree;
    var cca :| MadeFor(k, cfg, name, spec, secret, ca, cca, p);
    MadeFields(k, cfg, name, spec, secret, ca, cca, p);
    ManagedContainers(end, ns, name, k, d);
    assert k.policyEngine.ports[0].name == "policy-engine";
    forall c | c in d.template.pod.containers && c.name == "policy-engine" ensures NamesPort(c, "policy-engine") {
      assert c.ports[0].name == "policy-engine";
    }
  }

  /** After an undisturbed pass the network policy admits what the pods need. */
  lemma PolicyAdmits(st: Store, cfg: Config, ns: string, name: string, ip: Allocator)
    requires Goes(st, cfg, ns, name) && Writable(st, ns, name)
    ensures var end, key := Reconciled(st, cfg, ns, name, ip), Key(NetworkPolicyKind, ns, name);
            && key in end && end[key].body.NetworkPolicy? && PodAt(end, ns, name).Some?
            && Admits(end[key].body.policy, PodAt(end, ns, name).value,
                      SpecAt(st, InstanceKey(ns, name)).value.releases, cfg.env)
  {
    hide Decide, Reconciled, Settled, FindTrustedCA, Admits, Egress.PortsFor, NewBudget, RegistryRule, NamesPort;
    var end, spec := Reconciled(st, cfg, ns, name, ip), SpecAt(st, InstanceKey(ns, name)).value;
    var ca := CertificateData(FindTrustedCA(st));
    var secret, k, p := PassSettles(st, cfg, ns, name, ip);
    var d := PassDeploys(st, cfg, ns, name, ip);
    CopiesKnown(end, ns, name, cfg, spec, secret, ca, k, p);
    ListensSettled(end, ns, name, cfg, spec, secret, ca, k, p, d);
    EngineNamesPort(end, ns, name, cfg, spec, secret, ca, k, p, d);
    PolicyMade(name, spec, cfg.env, d.template);
  }
}
