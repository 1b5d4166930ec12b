/** Two instances in one namespace: when their objects are apart, and what
    happens to a route when they are not. */
module Isolation {
  import opened Text
  import opened Objects
  import opened Slots
  import opened Resources
  import opened Plan
  import opened Convergence
  import Names

  // ---- Footprints --------------------------------------------------------

  predicate Related(a: string, b: string) {
    a == b || a == Names.PolicyEngineService(b) || b == Names.PolicyEngineService(a)
  }

  /** A key both may write that is not one of the two they share by design. */
  ghost predicate Contested(ns: string, a: string, b: string, k: Key) {
    InFootprint(ns, a, k) && InFootprint(ns, b, k) && k != ClusterCAKey(ns) && k != PodKey(ns)
  }

  lemma SuffixNames(a: string, b: string)
    ensures Names.Config(a) == Names.Config(b) <==> a == b
    ensures Names.EnvConfig(a) == Names.EnvConfig(b) <==> a == b
    ensures Names.AdditionalTrustedCA(a) == Names.AdditionalTrustedCA(b) <==> a == b
    ensures Names.PullSecretCopy(a) == Names.PullSecretCopy(b) <==> a == b
    ensures Names.PolicyEngineService(a) == Names.PolicyEngineService(b) <==> a == b
    ensures Names.GraphBuilderService(a) == Names.GraphBuilderService(b) <==> a == b
  {
    CancelSuffix(a, b, "-config"); CancelSuffix(a, b, "-env"); CancelSuffix(a, b, "-trusted-ca");
    CancelSuffix(a, b, "-policy-engine"); CancelSuffix(a, b, "-graph-builder");
    CancelSuffix(a, b, "-" + Names.PULL_SECRET);
    assert a + "-" + Names.PULL_SECRET == a + ("-" + Names.PULL_SECRET);
    assert b + "-" + Names.PULL_SECRET == b + ("-" + Names.PULL_SECRET);
  }

  lemma MixedNames(a: string, b: string)
    ensures Names.Config(a) != Names.EnvConfig(b) && Names.Config(a) != Names.AdditionalTrustedCA(b)
    ensures Names.EnvConfig(a) != Names.AdditionalTrustedCA(b)
    ensures Names.GraphBuilderService(a) != Names.PolicyEngineService(b)
  {
    SuffixesDiffer(a, "-config", b, "-env");
    SuffixesDiffer(a, "-config", b, "-trusted-ca");
    SuffixesDiffer(a, "-env", b, "-trusted-ca");
    SuffixesDiffer(a, "-graph-builder", b, "-policy-engine");
  }

  lemma RouteNames(a: string, b: string)
    ensures Names.PolicyEngineRoute(a) == Names.PolicyEngineRoute(b) <==> a == b
    ensures Names.OldPolicyEngineRoute(a) == Names.OldPolicyEngineRoute(b) <==> a == b
    ensures Names.PolicyEngineRoute(a) == Names.OldPolicyEngineRoute(b) <==> a == Names.PolicyEngineService(b)
  {
    CancelSuffix(a, b, "-route");
    CancelSuffix(Names.PolicyEngineService(a), Names.PolicyEngineService(b), "-route");
    CancelSuffix(a, b, "-policy-engine");
    CancelSuffix(a, Names.PolicyEngineService(b), "-route");
  }

  lemma ContestedRelated(ns: string, a: string, b: string, k: Key)
    requires Contested(ns, a, b, k)
    ensures Related(a, b)
  {
    hide Names.Config, Names.EnvConfig, Names.AdditionalTrustedCA, Names.GraphBuilderService, Names.PolicyEngineRoute,
         Names.OldPolicyEngineRoute, Names.PullSecretCopy;
    SuffixNames(a, b); MixedNames(a, b); MixedNames(b, a);
    RouteNames(a, b); RouteNames(b, a);
  }

  lemma OwnKeys(ns: string, a: string)
    ensures InFootprint(ns, a, DeploymentKey(ns, a)) && InFootprint(ns, a, RouteKey(ns, a))
    ensures InFootprint(ns, a, OldRouteKey(ns, a))
  {}

  /** Two instances contest some object exactly when they are the same or one is
      named after the other's policy-engine service. */
  lemma FootprintsMeet(ns: string, a: string, b: string)
    ensures (exists k :: Contested(ns, a, b, k)) <==> Related(a, b)
  {
    hide InFootprint;
    if exists k :: Contested(ns, a, b, k) {
      var k :| Contested(ns, a, b, k);
      ContestedRelated(ns, a, b, k);
    }
    OwnKeys(ns, a);
    OwnKeys(ns, b);
    RouteNames(a, b); RouteNames(b, a);
    if a == b { assert Contested(ns, a, b, DeploymentKey(ns, a)); }
    if a == Names.PolicyEngineService(b) { assert Contested(ns, a, b, RouteKey(ns, a)); }
    if b == Names.PolicyEngineService(a) { assert Contested(ns, a, b, RouteKey(ns, b)); }
  }

  // ---- Decisions are unmoved ---------------------------------------------

  ghost predicate SameDecision(d: Decision, e: Decision) {
    && (d.Ignored? <==> e.Ignored?) && (d.Rejected? <==> e.Rejected?) && (d.Blocked? <==> e.Blocked?)
    && (d.Ready? ==> e.k == d.k.(clusterCA := e.k.clusterCA) && (d.k.clusterCA.Some? <==> e.k.clusterCA.Some?))
  }

  /** Stores that agree on what a decision reads, the bundle aside. */
  lemma DecideAlike(st: Store, end: Store, cfg: Config, ns: string, name: string)
    requires SpecAt(end, InstanceKey(ns, name)) == SpecAt(st, InstanceKey(ns, name))
    requires SecretAt(end, PULL_KEY) == SecretAt(st, PULL_KEY)
    requires FindTrustedCA(end) == FindTrustedCA(st)
    ensures SameDecision(Decide(st, cfg, ns, name), Decide(end, cfg, ns, name))
  {
    hide Render, FindTrustedCA;
    match SpecAt(st, InstanceKey(ns, name)) {
      case Some(spec) =>
        match SecretAt(st, PULL_KEY) {
          case Some(secret) =>
            if '/' in spec.releases {
              RenderBundle(cfg, name, spec, secret, CertificateData(FindTrustedCA(st)),
                           ClusterCAFound(Lookup(st, ClusterCAKey(ns))), ClusterCAFound(Lookup(end, ClusterCAKey(ns))));
            }
          case None =>
        }
      case None =>
    }
  }

  /** No reconciliation moves what another one decides on. */
  lemma DecisionUnmoved(st: Store, cfg: Config, ns: string, a: string, b: string, ip: Allocator)
    requires ns != Names.OPENSHIFT_CONFIG
    ensures SameDecision(Decide(st, cfg, ns, a), Decide(Reconciled(st, cfg, ns, b, ip), cfg, ns, a))
    ensures ImageAt(Reconciled(st, cfg, ns, b, ip), ns, a) == ImageAt(st, ns, a)
  {
    hide Decide, AfterPass;
    var end := Reconciled(st, cfg, ns, b, ip);
    forall key | !InFootprint(ns, b, key) ensures Lookup(end, key) == Lookup(st, key) {
      var d := Decide(st, cfg, ns, b);
      if d.Ready? { PassFrame(st, ns, b, d.k, ip, key); }
    }
    SourcesSame(st, end, ns, b);
    assert Lookup(end, InstanceKey(ns, a)) == Lookup(st, InstanceKey(ns, a));
    DecideAlike(st, end, cfg, ns, a);
  }

  // ---- A pass, one key at a time -----------------------------------------

  /** The steps and the Deployment of an instance with a pinned image. */
  function AllSlots(ns: string, name: string, k: Resources, oldRoute: bool): (ss: seq<Slot>)
    requires k.deployment.body.Deployment?
    ensures |ss| == STEPS + 1
  {
    SlotsOf(ns, name, k, oldRoute) + [DeploymentSlot(ns, name, k, "")]
  }

  lemma PinnedPass(st: Store, ns: string, name: string, k: Resources, ip: Allocator)
    requires k.deployment.body.Deployment? && Pinned(ImageAt(st, ns, name))
    ensures AfterPass(st, ns, name, k, ip) == ApplyAll(st, AllSlots(ns, name, k, OldRouteKey(ns, name) in st), ip)
  {
    hide Settle, Pinned;
    var ss := AllSlots(ns, name, k, OldRouteKey(ns, name) in st);
    assert ss[..STEPS] == SlotsOf(ns, name, k, OldRouteKey(ns, name) in st);
  }

  /** Only the bundle's key can tell two renderings with different bundles
      apart. */
  lemma FoldAlike(v: Option<Object>, ns: string, name: string, k: Resources, k': Resources,
                  oldRoute: bool, key: Key, ip: Allocator, n: nat)
    requires k.deployment.body.Deployment? && n <= STEPS + 1 && key != ClusterCAKey(ns)
    requires k' == k.(clusterCA := k'.clusterCA) && (k'.clusterCA.Some? <==> k.clusterCA.Some?)
    ensures FoldAt(v, AllSlots(ns, name, k, oldRoute)[..n], key, ip)
            == FoldAt(v, AllSlots(ns, name, k', oldRoute)[..n], key, ip)
    decreases n
  {
    hide SlotAt, Settle;
    if n > 0 {
      var ss, ss' := AllSlots(ns, name, k, oldRoute), AllSlots(ns, name, k', oldRoute);
      assert ss[..n][..n - 1] == ss[..n - 1] && ss'[..n][..n - 1] == ss'[..n - 1];
      FoldAlike(v, ns, name, k, k', oldRoute, key, ip, n - 1);
      if n <= STEPS {
        SlotsAlike(n - 1, ns, name, k, k', oldRoute);
        BundleSlot(n - 1, ns, name, k, oldRoute);
      }
    }
  }

  lemma BundleSlot(i: nat, ns: string, name: string, k: Resources, oldRoute: bool)
    requires i < STEPS
    ensures var s := SlotAt(i, ns, name, k, oldRoute); s.rule.CreateOnly? ==> s.key == ClusterCAKey(ns)
  {}

  /** With a pinned image a pass treats every key by itself. */
  lemma PassFold(st: Store, ns: string, name: string, k: Resources, ip: Allocator, key: Key)
    requires k.deployment.body.Deployment? && Pinned(ImageAt(st, ns, name))
    ensures Lookup(AfterPass(st, ns, name, k, ip), key)
            == FoldAt(Lookup(st, key), AllSlots(ns, name, k, OldRouteKey(ns, name) in st), key, ip)
  {
    hide AfterPass, Pinned, AllSlots, FoldAt;
    PinnedPass(st, ns, name, k, ip);
    LookupApply(st, AllSlots(ns, name, k, OldRouteKey(ns, name) in st), key, ip);
  }

  /** The bundle that was found makes a difference for the bundle's key only. */
  lemma BundleAside(st: Store, ns: string, name: string, k: Resources, k': Resources, ip: Allocator, key: Key)
    requires k.deployment.body.Deployment? && Pinned(ImageAt(st, ns, name)) && key != ClusterCAKey(ns)
    requires k' == k.(clusterCA := k'.clusterCA) && (k'.clusterCA.Some? <==> k.clusterCA.Some?)
    ensures Lookup(AfterPass(st, ns, name, k, ip), key) == Lookup(AfterPass(st, ns, name, k', ip), key)
  {
    hide AfterPass, Pinned, FoldAt, AllSlots;
    var oldRoute := OldRouteKey(ns, name) in st;
    PassFold(st, ns, name, k, ip, key);
    PassFold(st, ns, name, k', ip, key);
    FoldAlike(Lookup(st, key), ns, name, k, k', oldRoute, key, ip, STEPS + 1);
    var ss, ss' := AllSlots(ns, name, k, oldRoute), AllSlots(ns, name, k', oldRoute);
    assert ss[..STEPS + 1] == ss && ss'[..STEPS + 1] == ss';
  }

  // ---- Order does not matter ---------------------------------------------

  ghost predicate Apart(ns: string, a: string, b: string) {
    !Related(a, b) && ns != Names.OPENSHIFT_CONFIG
  }

  lemma NotContested(ns: string, a: string, b: string, key: Key)
    requires Apart(ns, a, b) && key != ClusterCAKey(ns) && key != PodKey(ns)
    ensures !InFootprint(ns, a, key) || !InFootprint(ns, b, key)
  {
    FootprintsMeet(ns, a, b);
    assert !Contested(ns, a, b, key);
  }

  lemma OldRouteOfA(ns: string, a: string, b: string)
    requires Apart(ns, a, b)
    ensures !InFootprint(ns, b, OldRouteKey(ns, a))
  {
    assert InFootprint(ns, a, OldRouteKey(ns, a));
    NotContested(ns, a, b, OldRouteKey(ns, a));
  }

  lemma OtherInstance(ns: string, a: string, b: string)
    ensures !InFootprint(ns, b, InstanceKey(ns, a))
  {}

  lemma ImageKept(st: Store, ns: string, a: string, b: string, kb: Resources, ip: Allocator)
    requires kb.deployment.body.Deployment?
    ensures ImageAt(AfterPass(st, ns, b, kb, ip), ns, a) == ImageAt(st, ns, a)
  {
    hide AfterPass, InFootprint;
    OtherInstance(ns, a, b);
    PassFrame(st, ns, b, kb, ip, InstanceKey(ns, a));
  }

  /** On a key that b never writes, b's pass before or after a's is the same. */
  lemma KeyOfA(st: Store, ns: string, a: string, ka: Resources, b: string, kb: Resources, ip: Allocator, key: Key)
    requires ka.deployment.body.Deployment? && kb.deployment.body.Deployment?
    requires Apart(ns, a, b) && Pinned(ImageAt(st, ns, a)) && !InFootprint(ns, b, key)
    ensures Lookup(AfterPass(AfterPass(st, ns, a, ka, ip), ns, b, kb, ip), key)
            == Lookup(AfterPass(AfterPass(st, ns, b, kb, ip), ns, a, ka, ip), key)
  {
    hide AfterPass, Pinned, InFootprint, FoldAt, AllSlots, ImageAt;
    var rb := AfterPass(st, ns, b, kb, ip);
    PassFrame(AfterPass(st, ns, a, ka, ip), ns, b, kb, ip, key);
    PassFrame(st, ns, b, kb, ip, key);
    OldRouteOfA(ns, a, b);
    PassFrame(st, ns, b, kb, ip, OldRouteKey(ns, a));
    assert Lookup(rb, OldRouteKey(ns, a)) == Lookup(st, OldRouteKey(ns, a));
    ImageKept(st, ns, a, b, kb, ip);
    PassFold(st, ns, a, ka, ip, key);
    PassFold(rb, ns, a, ka, ip, key);
  }

  lemma PodUntouched(st: Store, ns: string, a: string, k: Resources, ip: Allocator)
    requires k.deployment.body.Deployment? && Pinned(ImageAt(st, ns, a))
    ensures Lookup(AfterPass(st, ns, a, k, ip), PodKey(ns)) == Lookup(st, PodKey(ns))
  {
    hide Pinned, AfterSteps, Settle;
    StepsFrame(st, ns, a, k, ip, PodKey(ns));
  }

  /** For whatever objects: the passes of two instances that are not related, with
      pinned images, commute outside the bundle's ConfigMap. */
  lemma PassesCommute(st: Store, ns: string, a: string, ka: Resources, b: string, kb: Resources, ip: Allocator,
        key: Key)
    requires ka.deployment.body.Deployment? && kb.deployment.body.Deployment? && key != ClusterCAKey(ns)
    requires Apart(ns, a, b) && Pinned(ImageAt(st, ns, a)) && Pinned(ImageAt(st, ns, b))
    ensures Lookup(AfterPass(AfterPass(st, ns, a, ka, ip), ns, b, kb, ip), key)
            == Lookup(AfterPass(AfterPass(st, ns, b, kb, ip), ns, a, ka, ip), key)
  {
    hide AfterPass, Pinned, InFootprint, ImageAt;
    if key == PodKey(ns) {
      ImageKept(st, ns, a, b, kb, ip);
      ImageKept(st, ns, b, a, ka, ip);
      PodUntouched(st, ns, a, ka, ip);
      PodUntouched(AfterPass(st, ns, a, ka, ip), ns, b, kb, ip);
      PodUntouched(st, ns, b, kb, ip);
      PodUntouched(AfterPass(st, ns, b, kb, ip), ns, a, ka, ip);
    } else {
      NotContested(ns, a, b, key);
      if !InFootprint(ns, b, key) {
        KeyOfA(st, ns, a, ka, b, kb, ip, key);
      } else {
        KeyOfA(st, ns, b, kb, a, ka, ip, key);
      }
    }
  }

  /** What a pass makes of the bundle's ConfigMap, unless it belongs to the
      instance named "cluster" and there are certificates: it is created when
      the proxy is set and it is missing, and otherwise left as it is. */
  lemma BundleLater(st: Store, cfg: Config, ns: string, a: string, ip: Allocator)
    requires ns != Names.OPENSHIFT_CONFIG && (a != "cluster" || !FindTrustedCA(st).Certificates?)
    ensures Lookup(Reconciled(st, cfg, ns, a, ip), ClusterCAKey(ns)) ==
            if Decide(st, cfg, ns, a).Ready? && ProxySet(cfg.env) && ClusterCAKey(ns) !in st
            then Some(Owned(CLUSTER_CA_TEMPLATE, a)) else Lookup(st, ClusterCAKey(ns))
  {
    hide Decide, AfterPass, AfterSteps, FindTrustedCA;
    var d := Decide(st, cfg, ns, a);
    if d.Ready? {
      var key := ClusterCAKey(ns);
      LaterFrame(st, ns, a, d.k, ip, key);
      DecideTrusted(st, cfg, ns, a);
      BundleTemplate(st, cfg, ns, a);
      BundleSteps(st, ns, a, d.k, ip);
    }
  }

  lemma BundleTemplate(st: Store, cfg: Config, ns: string, a: string)
    requires Decide(st, cfg, ns, a).Ready?
    ensures var k := Decide(st, cfg, ns, a).k;
            && (k.clusterCA.Some? <==> ProxySet(cfg.env))
            && (k.clusterCA.Some? && ClusterCAKey(ns) !in st ==> k.clusterCA.value == CLUSTER_CA_TEMPLATE)
  {
    hide PartsOf, FindTrustedCA, NewEnvConfig, Volumes, GraphBuilderMounts, NewDeployment;
  }

  lemma ClusterName(a: string)
    requires a != "cluster"
    ensures Names.AdditionalTrustedCA(a) != Names.CLUSTER_CA
  {
    CancelSuffix(a, "cluster", "-trusted-ca");
    assert "cluster" + "-trusted-ca" == Names.CLUSTER_CA;
  }

  lemma BundleSteps(st: Store, ns: string, a: string, k: Resources, ip: Allocator)
    requires a != "cluster" || k.trustedCA.None?
    requires k.clusterCA.Some? && ClusterCAKey(ns) !in st ==> k.clusterCA.value.body.ConfigMap?
    ensures Lookup(AfterSteps(st, ns, a, k, ip), ClusterCAKey(ns)) ==
            if k.clusterCA.Some? && ClusterCAKey(ns) !in st
            then Some(Owned(k.clusterCA.value, a)) else Lookup(st, ClusterCAKey(ns))
  {
    hide SlotAt, FoldAt;
    var key, oldRoute := ClusterCAKey(ns), OldRouteKey(ns, a) in st;
    var ss := SlotsOf(ns, a, k, oldRoute);
    forall i | 0 <= i < STEPS && i != 3 ensures ss[i].rule.Skip? || ss[i].key != key {
      BundleOnly(i, ns, a, k, oldRoute);
    }
    LookupApply(st, ss, key, ip);
    FoldOnce(Lookup(st, key), ss, key, ip, 3);
    CertificateSlots(ns, a, k, oldRoute);
  }

  lemma CertificateSlots(ns: string, a: string, k: Resources, oldRoute: bool)
    ensures var s := SlotAt(3, ns, a, k, oldRoute);
            if k.clusterCA.None? then s.rule.Skip?
            else s == Slot(ClusterCAKey(ns), Owned(k.clusterCA.value, a), CreateOnly)
    ensures k.trustedCA.None? ==> SlotAt(4, ns, a, k, oldRoute).rule.Skip?
  {}

  /** No step but the bundle's own concerns the bundle, unless the certificates'
      copy has its name. */
  lemma BundleOnly(i: nat, ns: string, a: string, k: Resources, oldRoute: bool)
    requires i < STEPS && i != 3 && (a != "cluster" || k.trustedCA.None?)
    ensures var s := SlotAt(i, ns, a, k, oldRoute); s.rule.Skip? || s.key != ClusterCAKey(ns)
  {
    hide SlotAt, Names.Config, Names.EnvConfig, Names.AdditionalTrustedCA;
    StepNames(a);
    SlotNames(i, ns, a, k, oldRoute);
    CertificateSlots(ns, a, k, oldRoute);
    if a != "cluster" { ClusterName(a); }
  }

  /** Only slot i concerns the key. */
  lemma {:induction false} FoldOnce(v: Option<Object>, ss: seq<Slot>, key: Key, ip: Allocator, i: nat)
    requires i < |ss| && forall j | 0 <= j < |ss| && j != i :: ss[j].rule.Skip? || ss[j].key != key
    ensures FoldAt(v, ss, key, ip) == if ss[i].rule.Skip? || ss[i].key != key then v else Some(Settle(v, ss[i], ip))
  {
    hide Settle;
    if i == |ss| - 1 {
      FoldUntouched(v, ss[..i], key, ip);
    } else {
      FoldOnce(v, ss[..|ss| - 1], key, ip, i);
    }
  }

  /** The exception: the instance named "cluster" puts the registry's certificates
      where the cluster's bundle belongs, whatever was there. */
  lemma BundleClobbered(st: Store, cfg: Config, ns: string, ip: Allocator)
    requires WellKinded(st) && ns != Names.OPENSHIFT_CONFIG
    requires Decide(st, cfg, ns, "cluster").Ready? && FindTrustedCA(st).Certificates?
    ensures var end := Reconciled(st, cfg, ns, "cluster", ip);
            ClusterCAKey(ns) in end && end[ClusterCAKey(ns)].body == ConfigMap(FindTrustedCA(st).data)
  {
    hide Decide, Reconciled, FindTrustedCA, DeploymentInLine, WrittenDigest, Complete, SlotAt;
    BringsInLine(st, cfg, ns, "cluster", ip);
    DecideTrusted(st, cfg, ns, "cluster");
    var end, k := Reconciled(st, cfg, ns, "cluster", ip), Decide(st, cfg, ns, "cluster").k;
    CertificateSlot(ns, k, OldRouteKey(ns, "cluster") in end);
  }

  lemma CertificateSlot(ns: string, k: Resources, oldRoute: bool)
    requires k.trustedCA.Some?
    ensures SlotAt(4, ns, "cluster", k, oldRoute)
            == Slot(ClusterCAKey(ns), Owned(k.trustedCA.value, "cluster"), Compare)
  {
    assert "cluster" + "-trusted-ca" == Names.CLUSTER_CA;
  }

  /** Steps change no metadata. */
  lemma {:induction false} FoldMeta(v: Option<Object>, ss: seq<Slot>, key: Key, ip: Allocator)
    requires v.Some?
    ensures var u := FoldAt(v, ss, key, ip); u.Some? && u.value.meta == v.value.meta
  {
    hide Overwrite, MergeObject;
    if ss != [] {
      FoldMeta(v, ss[..|ss| - 1], key, ip);
      AddressKept(FoldAt(v, ss[..|ss| - 1], key, ip).value, ss[|ss| - 1], ip);
    }
  }

  /** A pass leaves a bundle that is there as it is, except exactly when it is the
      pass of the instance named "cluster", there are certificates, and they
      are not already in its place. */
  lemma BundleUntouched(st: Store, cfg: Config, ns: string, a: string, ip: Allocator)
    requires WellKinded(st) && ns != Names.OPENSHIFT_CONFIG && ClusterCAKey(ns) in st
    ensures var key, ca := ClusterCAKey(ns), FindTrustedCA(st);
            Lookup(Reconciled(st, cfg, ns, a, ip), key) == Lookup(st, key)
            <==> !(a == "cluster" && Decide(st, cfg, ns, a).Ready?
                   && ca.Certificates? && st[key].body != ConfigMap(ca.data))
  {
    hide Decide, AfterPass, FindTrustedCA, FoldAt;
    var key, d := ClusterCAKey(ns), Decide(st, cfg, ns, a);
    if a != "cluster" || !FindTrustedCA(st).Certificates? {
      BundleLater(st, cfg, ns, a, ip);
    } else if d.Ready? {
      BundleClobbered(st, cfg, ns, ip);
      var ss := SlotsOf(ns, a, d.k, OldRouteKey(ns, a) in st);
      LaterFrame(st, ns, a, d.k, ip, key);
      LookupApply(st, ss, key, ip);
      FoldMeta(Lookup(st, key), ss, key, ip);
    }
  }

  ghost predicate SameBody(x: Option<Object>, y: Option<Object>) {
    x == y || (x.Some? && y.Some? && x.value.body == y.value.body)
  }

  /** Away from the bundle the second pass may as well use what was rendered for
      the store before the first. */
  lemma SecondPassAs(st: Store, cfg: Config, ns: string, a: string, b: string, ip: Allocator, key: Key)
    requires ns != Names.OPENSHIFT_CONFIG && key != ClusterCAKey(ns) && Pinned(ImageAt(st, ns, b))
    ensures var d, ra := Decide(st, cfg, ns, b), Reconciled(st, cfg, ns, a, ip);
            Lookup(Reconciled(ra, cfg, ns, b, ip), key)
            == Lookup(if d.Ready? then AfterPass(ra, ns, b, d.k, ip) else ra, key)
  {
    hide Decide, AfterPass, Pinned, ImageAt;
    var d, ra := Decide(st, cfg, ns, b), Reconciled(st, cfg, ns, a, ip);
    DecisionUnmoved(st, cfg, ns, b, a, ip);
    if d.Ready? { BundleAside(ra, ns, b, d.k, Decide(ra, cfg, ns, b).k, ip, key); }
  }

  /** Instances that are not related may be reconciled in either order: all
      objects come out the same, except that whoever comes first owns the
      bundle's ConfigMap when it had to be created. */
  lemma OrderImmaterial(st: Store, cfg: Config, ns: string, a: string, b: string, ip: Allocator, key: Key)
    requires Apart(ns, a, b) && a != "cluster" && b != "cluster"
    requires Pinned(ImageAt(st, ns, a)) && Pinned(ImageAt(st, ns, b))
    ensures var ab := Reconciled(Reconciled(st, cfg, ns, a, ip), cfg, ns, b, ip);
            var ba := Reconciled(Reconciled(st, cfg, ns, b, ip), cfg, ns, a, ip);
            && (key != ClusterCAKey(ns) ==> Lookup(ab, key) == Lookup(ba, key))
            && SameBody(Lookup(ab, key), Lookup(ba, key))
  {
    hide Decide, AfterPass, Pinned, ImageAt;
    if key == ClusterCAKey(ns) {
      BundleOrder(st, cfg, ns, a, b, ip);
    } else {
      SecondPassAs(st, cfg, ns, a, b, ip, key);
      SecondPassAs(st, cfg, ns, b, a, ip, key);
      var da, db := Decide(st, cfg, ns, a), Decide(st, cfg, ns, b);
      if da.Ready? && db.Ready? { PassesCommute(st, ns, a, da.k, b, db.k, ip, key); }
    }
  }

  lemma BundleOrder(st: Store, cfg: Config, ns: string, a: string, b: string, ip: Allocator)
    requires ns != Names.OPENSHIFT_CONFIG && a != "cluster" && b != "cluster"
    ensures var key := ClusterCAKey(ns);
            SameBody(Lookup(Reconciled(Reconciled(st, cfg, ns, a, ip), cfg, ns, b, ip), key),
                     Lookup(Reconciled(Reconciled(st, cfg, ns, b, ip), cfg, ns, a, ip), key))
  {
    hide Decide, Reconciled;
    var ra, rb := Reconciled(st, cfg, ns, a, ip), Reconciled(st, cfg, ns, b, ip);
    DecisionUnmoved(st, cfg, ns, a, b, ip);
    DecisionUnmoved(st, cfg, ns, b, a, ip);
    BundleLater(st, cfg, ns, a, ip); BundleLater(ra, cfg, ns, b, ip);
    BundleLater(st, cfg, ns, b, ip); BundleLater(rb, cfg, ns, a, ip);
  }

  // ---- A contested route -------------------------------------------------

  function RouteInUse(st: Store, ns: string, name: string): Key {
    if OldRouteKey(ns, name) in st then OldRouteKey(ns, name) else RouteKey(ns, name)
  }

  lemma DecidedRoute(st: Store, cfg: Config, ns: string, name: string)
    requires Decide(st, cfg, ns, name).Ready?
    ensures Decide(st, cfg, ns, name).k.route == NewRoute(name)
  {
    hide PartsOf, FindTrustedCA, NewEnvConfig, Volumes, GraphBuilderMounts, NewDeployment;
  }

  /** An instance at rest has its route pointing at its own service. */
  lemma RouteTarget(st: Store, cfg: Config, ns: string, name: string, ip: Allocator)
    requires WellKinded(st) && Decide(st, cfg, ns, name).Ready?
    requires Issued(st, cfg, ns, name, ip) == []
    ensures var key := RouteInUse(st, ns, name);
            key in st && st[key].body.Route? && st[key].body.route.service == Names.PolicyEngineService(name)
  {
    hide Decide, AfterPod, AfterSteps, Issue, IssueAll, ApplyAll, NewRoute, Overwrite;
    var k := Decide(st, cfg, ns, name).k;
    var ss := SlotsOf(ns, name, k, OldRouteKey(ns, name) in st);
    StableIsQuiet(st, ss, ip);
    assert Stable(st, ss[8]);
    DecidedRoute(st, cfg, ns, name);
    RouteInPlace(st[ss[8].key], ss[8].desired, name);
  }

  lemma RouteInPlace(found: Object, desired: Object, name: string)
    requires KindOf(found.body) == RouteKind && desired == Owned(NewRoute(name), name)
    requires Overwrite(found, desired) == found
    ensures found.body.Route? && found.body.route.service == Names.PolicyEngineService(name)
  {
    OverwriteIsInPlace(found, desired);
  }

  /** An instance named after another's policy-engine service, and without a route
      under its own old name, is never at rest together with it: its new route
      is the other's old one, which either of them points back at its own
      service. */
  lemma RoutesContested(st: Store, cfg: Config, ns: string, x: string, ip: Allocator)
    requires WellKinded(st)
    requires var y := Names.PolicyEngineService(x);
             && Decide(st, cfg, ns, x).Ready? && Decide(st, cfg, ns, y).Ready?
             && OldRouteKey(ns, y) !in st
    ensures Issued(st, cfg, ns, x, ip) != [] || Issued(st, cfg, ns, Names.PolicyEngineService(x), ip) != []
  {
    hide Decide, Issued;
    var y := Names.PolicyEngineService(x);
    RouteNames(y, x);
    SuffixNames(x, y);
    assert RouteKey(ns, y) == OldRouteKey(ns, x);
    assert |y| > |x|;
    if Issued(st, cfg, ns, x, ip) == [] && Issued(st, cfg, ns, y, ip) == [] {
      RouteTarget(st, cfg, ns, x, ip);
      RouteTarget(st, cfg, ns, y, ip);
      assert false;
    }
  }
}
