/** One undisturbed pass brings an instance's objects in line, and when the
    next one finds nothing left to do. */
module Convergence {
  import opened Text
  import opened Objects
  import opened Slots
  import opened Resources
  import opened Plan
  import Merge
  import Names

  // ---- Being in line -----------------------------------------------------

  /** The compared part of an object has its desired value. A service keeps
      the address it was given, a route the certificates users put there. */
  predicate InPlace(found: Object, desired: Object) {
    match (found.body, desired.body)
    case (ConfigMap(f), ConfigMap(d)) => f == d
    case (Secret(f), Secret(d)) => f == d
    case (Service(f), Service(d)) => f.ports == d.ports && f.selector == d.selector
    case (Budget(f), Budget(d)) => f == d
    case (NetworkPolicy(f), NetworkPolicy(d)) => f == d
    case (Route(f, _), Route(d, _)) => f.host == d.host && f.targetPort == d.targetPort && f.service == d.service
    case _ => false
  }

  lemma OverwriteIsInPlace(found: Object, desired: Object)
    requires KindOf(found.body) == KindOf(desired.body)
    requires desired.body.ConfigMap? || desired.body.Secret? || desired.body.Service?
             || desired.body.Budget? || desired.body.NetworkPolicy? || desired.body.Route?
    ensures Overwrite(found, desired) == found <==> InPlace(found, desired)
    ensures InPlace(Overwrite(found, desired), desired)
  {}

  /** Every object of the steps is there with its compared part as desired. */
  ghost predicate StepsInLine(st: Store, ns: string, name: string, k: Resources) {
    forall i | 0 <= i < STEPS ::
      var s := SlotAt(i, ns, name, k, OldRouteKey(ns, name) in st);
      s.rule.Skip? || (s.key in st && (s.rule.CreateOnly? || InPlace(st[s.key], s.desired)))
  }

  /** The Deployment is there, complete, with its compared parts as desired. */
  ghost predicate DeploymentInLine(st: Store, ns: string, name: string, k: Resources, sha: string)
    requires k.deployment.body.Deployment?
  {
    match Lookup(st, DeploymentKey(ns, name))
    case Some(Object(_, Deployment(d))) =>
      Merge.Matches(d, WantedOf(k), sha) && Merge.HasGraphData(d) && Merge.HasManaged(d)
    case _ => false
  }

  /** The Deployment is one the merge leaves alone, and holds what it looks for. */
  ghost predicate Mergeable(k: Resources) {
    && k.deployment.body.Deployment?
    && var w := WantedOf(k);
       Merge.Proper(w) && Merge.Matches(w.spec, w, "") && Merge.HasGraphData(w.spec) && Merge.HasManaged(w.spec)
  }

  // ---- What is rendered --------------------------------------------------

  lemma AssembledMergeable(cfg: Config, name: string, spec: Spec, secret: Labels, ca: Option<Labels>,
        cca: Option<Object>, p: Parts)
    ensures Mergeable(Assemble(cfg, name, spec, secret, ca, cca, p))
  {
    hide Merge.Matches, Merge.HasGraphData, Merge.HasManaged, Volumes, GraphBuilderMounts, NewEnvConfig;
    Merge.OwnMatches(WantedOf(Assemble(cfg, name, spec, secret, ca, cca, p)));
  }

  lemma RenderMergeable(cfg: Config, name: string, spec: Spec, secret: Labels, ca: Option<Labels>, cca: Option<Object>,
        k: Resources)
    requires Render(cfg, name, spec, secret, ca, cca) == Some(k)
    ensures Mergeable(k)
  {
    hide PartsOf, Assemble, Mergeable;
    AssembledMergeable(cfg, name, spec, secret, ca, cca, PartsOf(spec, cfg.env).value);
  }

  /** An object that selects pods selects those with the given labels. */
  predicate SelectedBy(labels: Labels, o: Object) {
    match o.body
    case Deployment(d) => Merge.Agrees(labels, d.selector)
    case Service(s) => Merge.Agrees(labels, s.selector)
    case Budget(b) => Merge.Agrees(labels, b.selector)
    case NetworkPolicy(p) => Merge.Agrees(labels, p.podSelector)
    case _ => false
  }

  /** Everything of an instance that selects pods selects those with the labels. */
  predicate AllSelect(labels: Labels, k: Resources) {
    && SelectedBy(labels, k.deployment) && SelectedBy(labels, k.budget) && SelectedBy(labels, k.networkPolicy)
    && SelectedBy(labels, k.graphBuilderService) && SelectedBy(labels, k.policyEngineService)
  }

  /** The pods of the Deployment, created or merged onto whatever was found, carry
      what the Deployment, both services, the budget and the policy select by. */
  lemma PodsSelected(cfg: Config, name: string, spec: Spec, secret: Labels, ca: Option<Labels>, cca: Option<Object>,
                     p: Parts, found: DeploymentSpec, sha: string)
    ensures var k := Assemble(cfg, name, spec, secret, ca, cca, p);
            && k.deployment.body.Deployment?
            && var w := WantedOf(k);
               forall d | d == w.spec || d == Merge.Merge(found, w, sha) ::
                 Merge.Agrees(d.template.labels, d.selector) && AllSelect(d.template.labels, k)
  {
    hide Merge.Merge, AllSelect, Volumes, GraphBuilderMounts, NewEnvConfig, NewGraphBuilder, NewPolicyEngine,
         NewGraphData;
    var k := Assemble(cfg, name, spec, secret, ca, cca, p);
    var w := WantedOf(k);
    OwnLabels(name, spec, k);
    Merge.MergeSelectable(found, w, sha);
    forall d | d == w.spec || d == Merge.Merge(found, w, sha) ensures AllSelect(d.template.labels, k) {
      SelectorsAgree(name, d.template.labels);
      BuildersSelect(cfg, name, spec, secret, ca, cca, p, d.template.labels);
    }
  }

  /** The labels the operator's pods carry. */
  function PodLabels(name: string): Labels {
    map["app" := Names.Deployment(name), "deployment" := Names.Deployment(name)]
  }

  lemma OwnLabels(name: string, spec: Spec, k: Resources)
    requires k.deployment == NewDeployment(name, spec, k)
    ensures var d := WantedOf(k).spec;
            && d.template.labels == PodLabels(name) && Merge.Agrees(d.template.labels, d.selector)
  {}

  lemma BuildersSelect(cfg: Config, name: string, spec: Spec, secret: Labels, ca: Option<Labels>, cca: Option<Object>,
                       p: Parts, labels: Labels)
    requires Merge.Agrees(labels, map["app" := Names.Deployment(name)])
    requires Merge.Agrees(labels, map["deployment" := Names.Deployment(name)])
    ensures AllSelect(labels, Assemble(cfg, name, spec, secret, ca, cca, p))
  {
    hide Merge.Agrees, Volumes, GraphBuilderMounts, NewEnvConfig, NewGraphBuilder, NewPolicyEngine, NewGraphData;
  }

  lemma SelectorsAgree(name: string, labels: Labels)
    requires Merge.Agrees(labels, PodLabels(name))
    ensures Merge.Agrees(labels, map["app" := Names.Deployment(name)])
    ensures Merge.Agrees(labels, map["deployment" := Names.Deployment(name)])
  {
    assert "app" in PodLabels(name) && "deployment" in PodLabels(name);
  }

  /** Every mount of the containers the operator manages names exactly one volume
      declared beside it, in the Deployment as created and as merged onto
      whatever was found, whichever certificates are present. */
  lemma PodMountsDeclared(cfg: Config, name: string, spec: Spec, secret: Labels, ca: Option<Labels>,
                          cca: Option<Object>, p: Parts, found: DeploymentSpec, sha: string, d: DeploymentSpec,
                          c: Container, m: Mount)
    requires var k := Assemble(cfg, name, spec, secret, ca, cca, p);
             k.deployment.body.Deployment? && (d == WantedOf(k).spec || d == Merge.Merge(found, WantedOf(k), sha))
    requires var pod := d.template.pod;
             || (c in pod.containers && (c.name == Names.GRAPH_BUILDER || c.name == Names.POLICY_ENGINE))
             || (c in pod.initContainers && c.name == Names.GRAPH_DATA)
    requires m in c.mounts
    ensures DeclaredOnce(d.template.pod.volumes, m.name)
  {
    hide Volumes, GraphBuilderMounts, DeclaredOnce, NewEnvConfig;
    var k := Assemble(cfg, name, spec, secret, ca, cca, p);
    Merge.NamesDiffer();
    ManagedMounts(found, WantedOf(k), sha, d, c);
    MountsDeclared(name, spec, k.trustedCA.Some?, k.clusterCA.Some?, m);
  }

  /** The managed containers of such a Deployment mount what they should. */
  lemma ManagedMounts(found: DeploymentSpec, w: Merge.Wanted, sha: string, d: DeploymentSpec, c: Container)
    requires w.spec.template.pod.containers == [w.graphBuilder, w.policyEngine]
    requires w.spec.template.pod.initContainers == [w.graphData]
    requires w.graphBuilder.name == Names.GRAPH_BUILDER && w.policyEngine.name == Names.POLICY_ENGINE
    requires w.graphData.name == Names.GRAPH_DATA
    requires d == w.spec || d == Merge.Merge(found, w, sha)
    ensures d.template.pod.volumes == w.spec.template.pod.volumes
    ensures c in d.template.pod.containers ==>
              && (c.name == Names.GRAPH_BUILDER ==> c.mounts == w.graphBuilder.mounts)
              && (c.name == Names.POLICY_ENGINE ==> c.mounts == w.policyEngine.mounts)
    ensures c in d.template.pod.initContainers && c.name == Names.GRAPH_DATA ==> c.mounts == w.graphData.mounts
  {
    Merge.NamesDiffer();
  }

  /** Which bundle was found changes nothing but the template kept for it: the
      volumes in particular depend on the proxy variables alone. */
  lemma RenderBundle(cfg: Config, name: string, spec: Spec, secret: Labels, ca: Option<Labels>, c: Option<Object>,
        d: Option<Object>)
    requires '/' in spec.releases
    ensures var j, k := Render(cfg, name, spec, secret, ca, c).value, Render(cfg, name, spec, secret, ca, d).value;
            && k == j.(clusterCA := k.clusterCA)
            && (j.clusterCA.Some? <==> ProxySet(cfg.env)) && (k.clusterCA.Some? <==> ProxySet(cfg.env))
  {
    hide PartsOf, NewEnvConfig, Volumes, GraphBuilderMounts;
  }

  // ---- The second look ---------------------------------------------------

  /** Stores that differ within a footprint only agree on the sources outside. */
  lemma SourcesSame(st: Store, end: Store, ns: string, name: string)
    requires ns != Names.OPENSHIFT_CONFIG
    requires forall key | !InFootprint(ns, name, key) :: Lookup(end, key) == Lookup(st, key)
    ensures SecretAt(end, PULL_KEY) == SecretAt(st, PULL_KEY)
    ensures FindTrustedCA(end) == FindTrustedCA(st)
  {
    assert Lookup(end, PULL_KEY) == Lookup(st, PULL_KEY);
    assert Lookup(end, IMAGE_KEY) == Lookup(st, IMAGE_KEY);
    match Lookup(st, IMAGE_KEY) {
      case Some(Object(_, Image(ca))) => assert Lookup(end, SourceKey(ca)) == Lookup(st, SourceKey(ca));
      case _ =>
    }
  }

  /** A pass leaves alone what the next decision reads, the bundle aside. */
  lemma SourcesKept(st: Store, ns: string, name: string, k: Resources, ip: Allocator)
    requires k.deployment.body.Deployment? && ns != Names.OPENSHIFT_CONFIG
    ensures var end := AfterPass(st, ns, name, k, ip);
            && SpecAt(end, InstanceKey(ns, name)) == SpecAt(st, InstanceKey(ns, name))
            && SecretAt(end, PULL_KEY) == SecretAt(st, PULL_KEY)
            && FindTrustedCA(end) == FindTrustedCA(st)
  {
    hide AfterPass, InFootprint, FindTrustedCA;
    forall key | !InFootprint(ns, name, key)
      ensures Lookup(AfterPass(st, ns, name, k, ip), key) == Lookup(st, key)
    {
      PassFrame(st, ns, name, k, ip, key);
    }
    NotOwnInstance(ns, name);
    SourcesSame(st, AfterPass(st, ns, name, k, ip), ns, name);
  }

  lemma NotOwnInstance(ns: string, name: string)
    ensures !InFootprint(ns, name, InstanceKey(ns, name))
  {}

  /** So the next pass renders the same objects. */
  lemma SameAgain(st: Store, cfg: Config, ns: string, name: string, ip: Allocator)
    requires Decide(st, cfg, ns, name).Ready? && ns != Names.OPENSHIFT_CONFIG
    ensures var k := Decide(st, cfg, ns, name).k;
            var again := Decide(AfterPass(st, ns, name, k, ip), cfg, ns, name);
            && again.Ready?
            && again.k == k.(clusterCA := again.k.clusterCA)
            && (again.k.clusterCA.Some? <==> k.clusterCA.Some?) && Mergeable(k)
  {
    hide AfterPass, Render, FindTrustedCA, Merge.Matches, Merge.Proper, Merge.HasGraphData, Merge.HasManaged;
    var k := Decide(st, cfg, ns, name).k;
    var end := AfterPass(st, ns, name, k, ip);
    SourcesKept(st, ns, name, k, ip);
    var spec := SpecAt(st, InstanceKey(ns, name)).value;
    var secret := SecretAt(st, PULL_KEY).value;
    var ca := CertificateData(FindTrustedCA(st));
    var c, d := ClusterCAFound(Lookup(st, ClusterCAKey(ns))), ClusterCAFound(Lookup(end, ClusterCAKey(ns)));
    RenderBundle(cfg, name, spec, secret, ca, c, d);
    RenderMergeable(cfg, name, spec, secret, ca, c, k);
  }

  lemma StableFrame(a: Store, b: Store, s: Slot)
    requires Stable(a, s) && Lookup(a, s.key) == Lookup(b, s.key)
    ensures Stable(b, s)
  {
    hide Adjust;
  }

  /** What lies outside the pod and the Deployment is final after the steps. */
  lemma LaterFrame(st: Store, ns: string, name: string, k: Resources, ip: Allocator, key: Key)
    requires k.deployment.body.Deployment? && key.kind != PodKind && key.kind != DeploymentKind
    ensures Lookup(AfterPass(st, ns, name, k, ip), key) == Lookup(AfterSteps(st, ns, name, k, ip), key)
  {
    hide Settle, AfterSteps;
  }

  lemma OldRouteKept(st: Store, ns: string, name: string, k: Resources, ip: Allocator)
    requires k.deployment.body.Deployment?
    ensures OldRouteKey(ns, name) in AfterPass(st, ns, name, k, ip) <==> OldRouteKey(ns, name) in st
  {
    hide AfterPass, Settle;
    var key := OldRouteKey(ns, name);
    var ss := SlotsOf(ns, name, k, key in st);
    LaterFrame(st, ns, name, k, ip, key);
    LookupApply(st, ss, key, ip);
    if key in st {
      FoldPresent(Lookup(st, key), ss, key, ip);
    } else {
      StepNames(name);
      forall i | 0 <= i < |ss| ensures ss[i].key != key {}
      FoldUntouched(Lookup(st, key), ss, key, ip);
    }
  }

  /** Steps never remove anything. */
  lemma {:induction false} FoldPresent(v: Option<Object>, ss: seq<Slot>, key: Key, ip: Allocator)
    requires v.Some?
    ensures FoldAt(v, ss, key, ip).Some?
  {
    if ss != [] { FoldPresent(v, ss[..|ss| - 1], key, ip); }
  }

  lemma StepsSettleable(st: Store, ns: string, name: string, k: Resources, oldRoute: bool)
    ensures AllSettleable(st, SlotsOf(ns, name, k, oldRoute))
  {}

  /** After a pass every step is settled, for the objects the next one renders. */
  lemma StepsStable(st: Store, ns: string, name: string, k: Resources, k': Resources, ip: Allocator)
    requires k.deployment.body.Deployment?
    requires k' == k.(clusterCA := k'.clusterCA) && (k'.clusterCA.Some? <==> k.clusterCA.Some?)
    ensures var end := AfterPass(st, ns, name, k, ip);
            && AllStable(end, SlotsOf(ns, name, k, OldRouteKey(ns, name) in end))
            && AllStable(end, SlotsOf(ns, name, k', OldRouteKey(ns, name) in end))
  {
    hide AfterPass, Overwrite, Admit;
    var end := AfterPass(st, ns, name, k, ip);
    var oldRoute := OldRouteKey(ns, name) in st;
    var ss, ss' := SlotsOf(ns, name, k, oldRoute), SlotsOf(ns, name, k', oldRoute);
    OldRouteKept(st, ns, name, k, ip);
    StepsCompatible(ns, name, k, oldRoute);
    StepsSettleable(st, ns, name, k, oldRoute);
    ApplySettles(st, ss, ip);
    var mid := AfterSteps(st, ns, name, k, ip);
    forall i | 0 <= i < STEPS ensures Stable(end, ss[i]) && Stable(end, ss'[i]) {
      SlotFootprint(i, ns, name, k, oldRoute);
      LaterFrame(st, ns, name, k, ip, ss[i].key);
      assert Stable(mid, ss[i]);
      StableFrame(mid, end, ss[i]);
      SlotsAlike(i, ns, name, k, k', oldRoute);
    }
  }

  lemma SlotsAlike(i: nat, ns: string, name: string, k: Resources, k': Resources, oldRoute: bool)
    requires i < STEPS
    requires k' == k.(clusterCA := k'.clusterCA) && (k'.clusterCA.Some? <==> k.clusterCA.Some?)
    ensures var s, s' := SlotAt(i, ns, name, k, oldRoute), SlotAt(i, ns, name, k', oldRoute);
            s' == s || (s.key == s'.key && s.rule.CreateOnly? && s'.rule.CreateOnly?)
  {}

  // ---- The pod and the Deployment ----------------------------------------

  /** The pod has done its work and is about to be replaced. */
  predicate PodDone(st: Store, ns: string) {
    PodKey(ns) in st && st[PodKey(ns)].body.Pod? && st[PodKey(ns)].body.phase.Succeeded?
  }

  /** Nothing about the graph-data tag keeps the next pass busy. */
  predicate TagSettled(st: Store, ns: string, name: string) {
    var image := ImageAt(st, ns, name);
    Pinned(image) || (!PodDone(st, ns) && (DeploymentKey(ns, name) in st || PodDigest(st, ns, image) == ""))
  }

  lemma PodLater(st: Store, ns: string, name: string, k: Resources, ip: Allocator)
    requires k.deployment.body.Deployment?
    ensures var end := AfterPass(st, ns, name, k, ip);
            var image := ImageAt(st, ns, name);
            && (PodIssue(end, ns, name, image) == [] <==> Pinned(image) || !PodDone(st, ns))
            && PodDigest(end, ns, image) == PodDigest(st, ns, image)
            && PodDigest(AfterSteps(st, ns, name, k, ip), ns, image) == PodDigest(st, ns, image)
  {
    hide AfterSteps, Settle, Pinned;
    var image := ImageAt(st, ns, name);
    var mid := AfterSteps(st, ns, name, k, ip);
    StepsFrame(st, ns, name, k, ip, PodKey(ns));
    var pod := PodStore(mid, ns, name, image);
    assert Lookup(mid, PodKey(ns)) == Lookup(st, PodKey(ns));
    assert Lookup(AfterPass(st, ns, name, k, ip), PodKey(ns)) == Lookup(pod, PodKey(ns));
  }

  /** What a pass makes of the Deployment. */
  lemma DeploymentLater(st: Store, ns: string, name: string, k: Resources, ip: Allocator)
    requires k.deployment.body.Deployment?
    ensures var end := AfterPass(st, ns, name, k, ip);
            var s := DeploymentSlot(ns, name, k, PodDigest(st, ns, ImageAt(st, ns, name)));
            Lookup(end, DeploymentKey(ns, name)) == Some(Settle(Lookup(st, DeploymentKey(ns, name)), s, ip))
  {
    hide AfterSteps, Settle;
    PodLater(st, ns, name, k, ip);
    StepsFrame(st, ns, name, k, ip, DeploymentKey(ns, name));
  }

  /** A Deployment created without the digest still lacks it. */
  lemma DigestMissing(o: Object, w: Merge.Wanted, sha: string)
    requires Merge.Proper(w) && o.body == Deployment(w.spec) && Merge.HasGraphData(w.spec)
    requires Merge.Matches(w.spec, w, "")
    ensures MergeObject(o, w, sha) == o <==> sha == ""
  {
    hide Merge.Merge;
    Merge.MergeFixed(w.spec, w, sha);
    Merge.ShaKeyApart(w);
  }

  lemma DeploymentStable(st: Store, ns: string, name: string, k: Resources, ip: Allocator)
    requires k.deployment.body.Deployment?
    requires var w := WantedOf(k);
             Merge.Proper(w) && Merge.Matches(w.spec, w, "") && Merge.HasGraphData(w.spec)
    ensures var end := AfterPass(st, ns, name, k, ip);
            var sha := PodDigest(st, ns, ImageAt(st, ns, name));
            Stable(end, DeploymentSlot(ns, name, k, sha)) <==> DeploymentKey(ns, name) in st || sha == ""
  {
    hide AfterPass, MergeObject, Merge.Matches, Merge.Proper, Merge.HasGraphData;
    var sha := PodDigest(st, ns, ImageAt(st, ns, name));
    var s := DeploymentSlot(ns, name, k, sha);
    DeploymentLater(st, ns, name, k, ip);
    if DeploymentKey(ns, name) in st {
      MergeObjectTwice(st[s.key], WantedOf(k), sha);
    } else {
      DigestMissing(Owned(k.deployment, name), WantedOf(k), sha);
    }
  }

  // ---- The results -------------------------------------------------------

  /** For whatever objects: after one undisturbed pass a second one, which may
      have found another bundle, issues nothing exactly when the tag is settled. */
  lemma SecondPassQuiet(st: Store, ns: string, name: string, k: Resources, k': Resources, ip: Allocator)
    requires Mergeable(k)
    requires k' == k.(clusterCA := k'.clusterCA) && (k'.clusterCA.Some? <==> k.clusterCA.Some?)
    ensures PassIssues(AfterPass(st, ns, name, k, ip), ns, name, k', ip) == [] <==> TagSettled(st, ns, name)
  {
    hide AfterPass, PassIssues, Stable, Pinned, PodStore, PodIssue, PodDigest, InFootprint, AfterSteps,
         Merge.Matches, Merge.Proper, Merge.HasGraphData, Merge.HasManaged;
    var end := AfterPass(st, ns, name, k, ip);
    NotOwnInstance(ns, name);
    PassFrame(st, ns, name, k, ip, InstanceKey(ns, name));
    StepsStable(st, ns, name, k, k', ip);
    SecondPass(end, ns, name, k', ip);
    PodLater(st, ns, name, k, ip);
    DeploymentStable(st, ns, name, k, ip);
    if Pinned(ImageAt(st, ns, name)) { PinnedNoDigest(st, ns, ImageAt(st, ns, name)); }
  }

  /** A pass that issues nothing changes nothing. */
  lemma QuietPassIdle(st: Store, ns: string, name: string, k: Resources, ip: Allocator)
    requires k.deployment.body.Deployment? && PassIssues(st, ns, name, k, ip) == []
    ensures AfterPass(st, ns, name, k, ip) == st
  {
    StableIsQuiet(st, SlotsOf(ns, name, k, OldRouteKey(ns, name) in st), ip);
    SecondPass(st, ns, name, k, ip);
  }

  /** For the operator: one undisturbed pass, and the next issues no create,
      update or delete exactly when the graph-data image is pinned, or the
      resolving pod is neither finished nor ahead of a Deployment that was only
      just created. */
  lemma Converges(st: Store, cfg: Config, ns: string, name: string, ip: Allocator)
    requires Decide(st, cfg, ns, name).Ready? && ns != Names.OPENSHIFT_CONFIG
    ensures var end := Reconciled(st, cfg, ns, name, ip);
            && Decide(end, cfg, ns, name).Ready?
            && (Issued(end, cfg, ns, name, ip) == [] <==> TagSettled(st, ns, name))
            && (TagSettled(st, ns, name) ==> Reconciled(end, cfg, ns, name, ip) == end)
  {
    hide Decide, AfterPass, PassIssues, TagSettled, Mergeable;
    SameAgain(st, cfg, ns, name, ip);
    var end := Reconciled(st, cfg, ns, name, ip);
    var k, k' := Decide(st, cfg, ns, name).k, Decide(end, cfg, ns, name).k;
    SecondPassQuiet(st, ns, name, k, k', ip);
    if TagSettled(st, ns, name) { QuietPassIdle(end, ns, name, k', ip); }
  }

  lemma PinnedNoDigest(st: Store, ns: string, image: string)
    requires Pinned(image)
    ensures PodDigest(st, ns, image) == ""
  {}

  /** A pass over settled steps comes down to the pod and the Deployment. */
  lemma SecondPass(end: Store, ns: string, name: string, k: Resources, ip: Allocator)
    requires k.deployment.body.Deployment?
    requires AllStable(end, SlotsOf(ns, name, k, OldRouteKey(ns, name) in end))
    ensures var image := ImageAt(end, ns, name);
            var s := DeploymentSlot(ns, name, k, PodDigest(end, ns, image));
            && (PassIssues(end, ns, name, k, ip) == [] <==> PodIssue(end, ns, name, image) == [] && Stable(end, s))
            && (PassIssues(end, ns, name, k, ip) == [] ==> AfterPass(end, ns, name, k, ip) == end)
  {
    var ss := SlotsOf(ns, name, k, OldRouteKey(ns, name) in end);
    StableIsQuiet(end, ss, ip);
    assert AfterSteps(end, ns, name, k, ip) == end;
    var image := ImageAt(end, ns, name);
    PodQuiet(end, ns, name, image);
    var pod := PodStore(end, ns, name, image);
    var s := DeploymentSlot(ns, name, k, PodDigest(end, ns, image));
    assert Lookup(pod, s.key) == Lookup(end, s.key);
    OneQuiet(pod, s, ip);
    if Stable(end, s) { StableFrame(end, pod, s); }
    if Stable(pod, s) { StableFrame(pod, end, s); }
  }

  lemma PodQuiet(st: Store, ns: string, name: string, image: string)
    ensures PodIssue(st, ns, name, image) == [] ==> PodStore(st, ns, name, image) == st
    ensures forall key | key != PodKey(ns) :: Lookup(PodStore(st, ns, name, image), key) == Lookup(st, key)
  {}

  /** Every rendered object is of the kind its key says. */
  predicate Typed(k: Resources) {
    && k.graphBuilderConfig.body.ConfigMap? && k.envConfig.body.ConfigMap?
    && k.pullSecret.body.Secret? && k.budget.body.Budget?
    && k.graphBuilderService.body.Service? && k.policyEngineService.body.Service?
    && k.route.body.Route? && k.networkPolicy.body.NetworkPolicy? && k.deployment.body.Deployment?
    && (k.trustedCA.Some? ==> k.trustedCA.value.body.ConfigMap?)
    && (k.clusterCA.Some? ==> k.clusterCA.value.body.ConfigMap?)
  }

  lemma RenderTyped(cfg: Config, name: string, spec: Spec, secret: Labels, ca: Option<Labels>, cca: Option<Object>,
        k: Resources)
    requires Render(cfg, name, spec, secret, ca, cca) == Some(k)
    requires cca.Some? ==> cca.value.body.ConfigMap?
    ensures Typed(k)
  {
    hide PartsOf, NewEnvConfig, Volumes, GraphBuilderMounts;
  }

  lemma DecideTyped(st: Store, cfg: Config, ns: string, name: string)
    requires Decide(st, cfg, ns, name).Ready?
    ensures Typed(Decide(st, cfg, ns, name).k)
  {
    hide Render, FindTrustedCA;
    var spec := SpecAt(st, InstanceKey(ns, name)).value;
    RenderTyped(cfg, name, spec, SecretAt(st, PULL_KEY).value, CertificateData(FindTrustedCA(st)),
                ClusterCAFound(Lookup(st, ClusterCAKey(ns))), Decide(st, cfg, ns, name).k);
  }

  lemma DecideMergeable(st: Store, cfg: Config, ns: string, name: string)
    requires Decide(st, cfg, ns, name).Ready?
    ensures Mergeable(Decide(st, cfg, ns, name).k)
  {
    hide Render, FindTrustedCA, Mergeable;
    var spec := SpecAt(st, InstanceKey(ns, name)).value;
    RenderMergeable(cfg, name, spec, SecretAt(st, PULL_KEY).value, CertificateData(FindTrustedCA(st)),
                 ClusterCAFound(Lookup(st, ClusterCAKey(ns))), Decide(st, cfg, ns, name).k);
  }

  lemma DecideTrusted(st: Store, cfg: Config, ns: string, name: string)
    requires Decide(st, cfg, ns, name).Ready?
    ensures var ca := Decide(st, cfg, ns, name).k.trustedCA;
            && (ca.Some? <==> FindTrustedCA(st).Certificates?)
            && (ca.Some? ==> ca.value.body == ConfigMap(FindTrustedCA(st).data))
  {
    hide PartsOf, FindTrustedCA, NewEnvConfig, Volumes, GraphBuilderMounts, NewDeployment;
  }

  lemma SettleKind(found: Option<Object>, s: Slot, ip: Allocator)
    requires KindOf(s.desired.body) == s.key.kind
    requires found.Some? ==> KindOf(found.value.body) == s.key.kind
    ensures KindOf(Settle(found, s, ip).body) == s.key.kind
  {}

  lemma {:induction false} ApplyKinds(st: Store, ss: seq<Slot>, ip: Allocator)
    requires WellKinded(st)
    requires forall i | 0 <= i < |ss| :: ss[i].rule.Skip? || KindOf(ss[i].desired.body) == ss[i].key.kind
    ensures WellKinded(ApplyAll(st, ss, ip))
  {
    hide Settle;
    if ss != [] {
      var n := |ss| - 1;
      ApplyKinds(st, ss[..n], ip);
      if !ss[n].rule.Skip? { SettleKind(Lookup(ApplyAll(st, ss[..n], ip), ss[n].key), ss[n], ip); }
    }
  }

  lemma SlotKinds(i: nat, ns: string, name: string, k: Resources, oldRoute: bool)
    requires i < STEPS && Typed(k)
    ensures var s := SlotAt(i, ns, name, k, oldRoute);
            && (s.rule.Skip? || KindOf(s.desired.body) == s.key.kind)
            && s.key.kind != UpdateServiceKind && s.key.kind != ImageKind
            && s.key.kind != PodKind && s.key.kind != DeploymentKind
  {}

  lemma StepsNowInLine(st: Store, ns: string, name: string, k: Resources, ip: Allocator)
    requires WellKinded(st) && Typed(k)
    requires AllStable(AfterPass(st, ns, name, k, ip),
                       SlotsOf(ns, name, k, OldRouteKey(ns, name) in AfterPass(st, ns, name, k, ip)))
    ensures StepsInLine(AfterPass(st, ns, name, k, ip), ns, name, k)
  {
    hide AfterPass, Overwrite, SlotAt, InPlace;
    var end := AfterPass(st, ns, name, k, ip);
    var oldRoute := OldRouteKey(ns, name) in st;
    OldRouteKept(st, ns, name, k, ip);
    var ss := SlotsOf(ns, name, k, oldRoute);
    forall i | 0 <= i < STEPS ensures ss[i].rule.Skip? || KindOf(ss[i].desired.body) == ss[i].key.kind {
      SlotKinds(i, ns, name, k, oldRoute);
    }
    ApplyKinds(st, ss, ip);
    forall i | 0 <= i < STEPS
      ensures var s := SlotAt(i, ns, name, k, oldRoute);
              s.rule.Skip? || (s.key in end && (s.rule.CreateOnly? || InPlace(end[s.key], s.desired)))
    {
      var s := ss[i];
      assert Stable(end, s);
      SlotKinds(i, ns, name, k, oldRoute);
      LaterFrame(st, ns, name, k, ip, s.key);
      SlotRule(i, ns, name, k, oldRoute);
      if !s.rule.Skip? {
        assert Lookup(end, s.key) == Lookup(AfterSteps(st, ns, name, k, ip), s.key);
        OverwriteIsInPlace(end[s.key], s.desired);
      }
    }
  }

  lemma SlotRule(i: nat, ns: string, name: string, k: Resources, oldRoute: bool)
    requires i < STEPS
    ensures !SlotAt(i, ns, name, k, oldRoute).rule.MergeWith?
  {}

  /** The digest a pass can write: none while the Deployment is being created. */
  function WrittenDigest(st: Store, ns: string, name: string): string {
    if DeploymentKey(ns, name) in st then PodDigest(st, ns, ImageAt(st, ns, name)) else ""
  }

  predicate Complete(found: Option<Object>) {
    match found
    case Some(Object(_, Deployment(d))) => Merge.HasGraphData(d) && Merge.HasManaged(d)
    case None => true
    case _ => false
  }

  lemma MergeHas(d: DeploymentSpec, w: Merge.Wanted, sha: string)
    ensures Merge.HasGraphData(Merge.Merge(d, w, sha)) == Merge.HasGraphData(d)
    ensures Merge.HasManaged(Merge.Merge(d, w, sha)) == Merge.HasManaged(d)
  {
    var m := Merge.Merge(d, w, sha);
    SameNames(d.template.pod.containers, m.template.pod.containers, Names.GRAPH_BUILDER);
    SameNames(d.template.pod.containers, m.template.pod.containers, Names.POLICY_ENGINE);
    SameNames(d.template.pod.initContainers, m.template.pod.initContainers, Names.GRAPH_DATA);
  }

  lemma SameNames(a: seq<Container>, b: seq<Container>, name: string)
    requires |a| == |b| && forall i | 0 <= i < |a| :: a[i].name == b[i].name
    ensures Merge.HasContainer(a, name) == Merge.HasContainer(b, name)
  {}

  lemma DeploymentNowInLine(st: Store, ns: string, name: string, k: Resources, ip: Allocator)
    requires Mergeable(k)
    ensures DeploymentInLine(AfterPass(st, ns, name, k, ip), ns, name, k, WrittenDigest(st, ns, name))
            <==> Complete(Lookup(st, DeploymentKey(ns, name)))
  {
    hide AfterPass, Merge.Merge, Merge.Matches, Merge.Proper, Merge.HasGraphData, Merge.HasManaged;
    DeploymentLater(st, ns, name, k, ip);
    match Lookup(st, DeploymentKey(ns, name)) {
      case Some(Object(_, Deployment(d))) =>
        Merge.MergeFixed(d, WantedOf(k), WrittenDigest(st, ns, name));
        MergeHas(d, WantedOf(k), WrittenDigest(st, ns, name));
      case _ =>
    }
  }

  /** For whatever objects: after one undisturbed pass those of all steps are in
      line; the Deployment is exactly when there was none or it held the
      graph-data init container and both managed containers. */
  lemma PassInLine(st: Store, ns: string, name: string, k: Resources, ip: Allocator)
    requires WellKinded(st) && Typed(k) && Mergeable(k)
    ensures var end := AfterPass(st, ns, name, k, ip);
            && StepsInLine(end, ns, name, k)
            && (DeploymentInLine(end, ns, name, k, WrittenDigest(st, ns, name))
                <==> Complete(Lookup(st, DeploymentKey(ns, name))))
  {
    hide AfterPass, Typed, Merge.Matches, Merge.Proper, Merge.HasGraphData, Merge.HasManaged;
    StepsStable(st, ns, name, k, k, ip);
    StepsNowInLine(st, ns, name, k, ip);
    DeploymentNowInLine(st, ns, name, k, ip);
  }

  /** The same for the objects the operator renders. */
  lemma BringsInLine(st: Store, cfg: Config, ns: string, name: string, ip: Allocator)
    requires WellKinded(st)
    requires Decide(st, cfg, ns, name).Ready? && ns != Names.OPENSHIFT_CONFIG
    ensures var k := Decide(st, cfg, ns, name).k;
            var end := Reconciled(st, cfg, ns, name, ip);
            && StepsInLine(end, ns, name, k)
            && (DeploymentInLine(end, ns, name, k, WrittenDigest(st, ns, name))
                <==> Complete(Lookup(st, DeploymentKey(ns, name))))
  {
    hide Decide, AfterPass, Typed, Mergeable;
    SameAgain(st, cfg, ns, name, ip);
    DecideTyped(st, cfg, ns, name);
    PassInLine(st, ns, name, Decide(st, cfg, ns, name).k, ip);
  }

  /** A service that was there keeps its address; a route keeps its TLS. */
  lemma AddressKept(found: Object, s: Slot, ip: Allocator)
    ensures var now := Settle(Some(found), s, ip);
            && now.meta == found.meta
            && (found.body.Service? ==> now.body.Service? && now.body.service.clusterIP == found.body.service.clusterIP)
            && (found.body.Route? ==> now.body.Route? && now.body.route.tls == found.body.route.tls)
  {}
}
