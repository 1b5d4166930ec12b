/** When two instances come to rest in one namespace. */
module Together {
  import opened Objects
  import opened Slots
  import opened Resources
  import opened Plan
  import opened Convergence
  import opened Isolation
  import Merge
  import Names

  // ---- Where two instances meet ------------------------------------------

  /** Neither instance has to create its route under the name that is the other's
      old one. */
  predicate RoutesApart(st: Store, ns: string, a: string, b: string) {
    && (a == Names.PolicyEngineService(b) ==> OldRouteKey(ns, a) in st)
    && (b == Names.PolicyEngineService(a) ==> OldRouteKey(ns, b) in st)
  }

  /** Nothing about the graph-data tags keeps the next passes of the two busy. A
      finished pod that both look after is replaced before either looks again. */
  predicate TagsSettled(st: Store, ns: string, a: string, b: string) {
    var x, y := ImageAt(st, ns, a), ImageAt(st, ns, b);
    && (PodDone(st, ns) ==> (Pinned(x) <==> Pinned(y)))
    && (DeploymentKey(ns, a) in st || PodDigest(st, ns, x) == "")
    && (DeploymentKey(ns, b) in st || PodDigest(st, ns, y) == "")
  }

  /** Different instances meet at the bundle, at the pod, and at the new route of
      one that is named after the other's policy-engine service. */
  lemma MeetAt(ns: string, a: string, b: string, key: Key)
    requires a != b && InFootprint(ns, a, key) && InFootprint(ns, b, key)
    requires key != ClusterCAKey(ns) && key.kind != PodKind
    ensures (a == Names.PolicyEngineService(b) && key == RouteKey(ns, a))
            || (b == Names.PolicyEngineService(a) && key == RouteKey(ns, b))
  {
    SuffixNames(a, b); MixedNames(a, b); MixedNames(b, a);
    RouteNames(a, b); RouteNames(b, a);
  }

  lemma OneWay(a: string, b: string)
    ensures !(a == Names.PolicyEngineService(b) && b == Names.PolicyEngineService(a))
  {
    assert a == Names.PolicyEngineService(b) ==> |a| > |b|;
  }

  /** An instance that uses its old route leaves the new one alone. */
  lemma NewRouteUnused(st: Store, ns: string, name: string, k: Resources, ip: Allocator)
    requires k.deployment.body.Deployment? && OldRouteKey(ns, name) in st
    ensures Lookup(AfterPass(st, ns, name, k, ip), RouteKey(ns, name)) == Lookup(st, RouteKey(ns, name))
  {
    hide AfterPass, Settle;
    var key := RouteKey(ns, name);
    var ss := SlotsOf(ns, name, k, true);
    StepNames(name);
    LaterFrame(st, ns, name, k, ip, key);
    forall i | 0 <= i < |ss| ensures ss[i].key != key {}
    ApplyFrame(st, ss, key, ip);
  }

  // ---- Steps stay settled ------------------------------------------------

  lemma BundleStaysThere(st: Store, ns: string, name: string, k: Resources, ip: Allocator)
    requires k.deployment.body.Deployment? && ClusterCAKey(ns) in st
    ensures ClusterCAKey(ns) in AfterPass(st, ns, name, k, ip)
    ensures name != "cluster" ==>
              Lookup(AfterPass(st, ns, name, k, ip), ClusterCAKey(ns)) == Lookup(st, ClusterCAKey(ns))
  {
    hide AfterPass, FoldAt;
    var key := ClusterCAKey(ns);
    var ss := SlotsOf(ns, name, k, OldRouteKey(ns, name) in st);
    LaterFrame(st, ns, name, k, ip, key);
    LookupApply(st, ss, key, ip);
    FoldPresent(Lookup(st, key), ss, key, ip);
    if name != "cluster" { BundleSteps(st, ns, name, k, ip); }
  }

  /** Which steps concern the bundle, and what they ask of it. */
  lemma BundleRules(i: nat, ns: string, name: string, k: Resources, oldRoute: bool)
    requires i < STEPS && SlotAt(i, ns, name, k, oldRoute).key == ClusterCAKey(ns)
    ensures var s := SlotAt(i, ns, name, k, oldRoute); s.rule.Skip? || s.rule.CreateOnly? || name == "cluster"
  {
    StepNames(name);
    if name != "cluster" { ClusterName(name); }
  }

  /** A settled step of a stays settled through a pass of b. */
  lemma StepKept(st: Store, ns: string, a: string, ka: Resources, b: string, kb: Resources, ip: Allocator, i: nat)
    requires i < STEPS && a != b && RoutesApart(st, ns, a, b) && kb.deployment.body.Deployment?
    requires Stable(st, SlotAt(i, ns, a, ka, OldRouteKey(ns, a) in st))
    ensures Stable(AfterPass(st, ns, b, kb, ip), SlotAt(i, ns, a, ka, OldRouteKey(ns, a) in st))
  {
    hide AfterPass, InFootprint, Adjust, SlotAt, RouteKey, OldRouteKey;
    var oldRoute := OldRouteKey(ns, a) in st;
    var s, end := SlotAt(i, ns, a, ka, oldRoute), AfterPass(st, ns, b, kb, ip);
    SlotFootprint(i, ns, a, ka, oldRoute);
    if !InFootprint(ns, b, s.key) {
      PassFrame(st, ns, b, kb, ip, s.key);
      StableFrame(st, end, s);
    } else if s.key == ClusterCAKey(ns) {
      if !s.rule.Skip? {
        BundleStaysThere(st, ns, b, kb, ip);
        BundleRules(i, ns, a, ka, oldRoute);
        if s.rule.CreateOnly? { CreateOnlyStable(end, s); } else { StableFrame(st, end, s); }
      }
    } else {
      MeetAt(ns, a, b, s.key);
      if s.key == RouteKey(ns, a) { RouteOfStep(i, ns, a, ka, oldRoute); }
      if b == Names.PolicyEngineService(a) && s.key == RouteKey(ns, b) {
        NewRouteUnused(st, ns, b, kb, ip);
        StableFrame(st, end, s);
      }
    }
  }

  lemma RouteOfStep(i: nat, ns: string, name: string, k: Resources, oldRoute: bool)
    requires i < STEPS && SlotAt(i, ns, name, k, oldRoute).key == RouteKey(ns, name)
    ensures !oldRoute
  {
    StepNames(name);
  }

  /** A pass of b neither creates nor removes a's old route. */
  lemma OldRouteStays(st: Store, ns: string, a: string, b: string, kb: Resources, ip: Allocator)
    requires a != b && kb.deployment.body.Deployment?
    requires b == Names.PolicyEngineService(a) ==> OldRouteKey(ns, b) in st
    ensures OldRouteKey(ns, a) in AfterPass(st, ns, b, kb, ip) <==> OldRouteKey(ns, a) in st
  {
    hide AfterPass;
    var key := OldRouteKey(ns, a);
    RouteNames(a, b); RouteNames(b, a);
    SuffixNames(a, b);
    if b == Names.PolicyEngineService(a) {
      NewRouteUnused(st, ns, b, kb, ip);
      assert key == RouteKey(ns, b);
      assert Lookup(AfterPass(st, ns, b, kb, ip), key) == Lookup(st, key);
    } else {
      PassFrame(st, ns, b, kb, ip, key);
      assert Lookup(AfterPass(st, ns, b, kb, ip), key) == Lookup(st, key);
    }
  }

  lemma StepsKept(st: Store, ns: string, a: string, ka: Resources, b: string, kb: Resources, ip: Allocator)
    requires a != b && RoutesApart(st, ns, a, b) && kb.deployment.body.Deployment?
    requires AllStable(st, SlotsOf(ns, a, ka, OldRouteKey(ns, a) in st))
    ensures var end := AfterPass(st, ns, b, kb, ip);
            AllStable(end, SlotsOf(ns, a, ka, OldRouteKey(ns, a) in end))
  {
    hide AfterPass, Stable, SlotAt;
    OldRouteStays(st, ns, a, b, kb, ip);
    var ss := SlotsOf(ns, a, ka, OldRouteKey(ns, a) in st);
    forall i | 0 <= i < STEPS ensures Stable(AfterPass(st, ns, b, kb, ip), ss[i]) {
      assert Stable(st, ss[i]);
      StepKept(st, ns, a, ka, b, kb, ip, i);
    }
  }

  // ---- The pod the two share ---------------------------------------------

  lemma PodAfter(st: Store, ns: string, name: string, k: Resources, ip: Allocator)
    requires k.deployment.body.Deployment?
    ensures Lookup(AfterPass(st, ns, name, k, ip), PodKey(ns))
            == Lookup(PodStore(st, ns, name, ImageAt(st, ns, name)), PodKey(ns))
  {
    hide AfterSteps, Settle, Pinned, ImageAt;
    StepsFrame(st, ns, name, k, ip, PodKey(ns));
    assert Lookup(AfterSteps(st, ns, name, k, ip), PodKey(ns)) == Lookup(st, PodKey(ns));
  }

  /** What the pod does to two instances, one pass of each. */
  lemma PodShared(st: Store, mid: Store, end: Store, ns: string, a: string, b: string, x: string, y: string)
    requires Lookup(mid, PodKey(ns)) == Lookup(PodStore(st, ns, a, x), PodKey(ns))
    requires Lookup(end, PodKey(ns)) == Lookup(PodStore(mid, ns, b, y), PodKey(ns))
    ensures PodIssue(end, ns, a, x) == [] && PodIssue(end, ns, b, y) == []
            <==> (PodDone(st, ns) ==> (Pinned(x) <==> Pinned(y)))
    ensures PodDigest(end, ns, x) == PodDigest(st, ns, x)
    ensures PodDigest(end, ns, y) == PodDigest(st, ns, y) == PodDigest(mid, ns, y)
  {
    hide Pinned;
  }

  // ---- Two passes --------------------------------------------------------

  lemma ImagesKept(st: Store, ns: string, a: string, b: string, k: Resources, ip: Allocator)
    requires k.deployment.body.Deployment?
    ensures ImageAt(AfterPass(st, ns, b, k, ip), ns, a) == ImageAt(st, ns, a)
    ensures a != b ==> Lookup(AfterPass(st, ns, b, k, ip), DeploymentKey(ns, a)) == Lookup(st, DeploymentKey(ns, a))
  {
    hide AfterPass, ImageAt;
    ImageKept(st, ns, a, b, k, ip);
    if a != b { PassFrame(st, ns, b, k, ip, DeploymentKey(ns, a)); }
  }

  /** For whatever objects: after a pass of each, the next passes issue nothing
      exactly when the tags are settled. */
  lemma PairRests(st: Store, ns: string, a: string, ka: Resources, ka': Resources, b: string, kb: Resources,
                  kb': Resources, ip: Allocator)
    requires a != b && RoutesApart(st, ns, a, b) && Mergeable(ka) && Mergeable(kb)
    requires ka' == ka.(clusterCA := ka'.clusterCA) && (ka'.clusterCA.Some? <==> ka.clusterCA.Some?)
    requires kb' == kb.(clusterCA := kb'.clusterCA) && (kb'.clusterCA.Some? <==> kb.clusterCA.Some?)
    ensures var end := AfterPass(AfterPass(st, ns, a, ka, ip), ns, b, kb, ip);
            PassIssues(end, ns, a, ka', ip) == [] && PassIssues(end, ns, b, kb', ip) == []
            <==> TagsSettled(st, ns, a, b)
  {
    hide AfterPass, PassIssues, Stable, Pinned, PodStore, PodIssue, PodDigest, PodDone, AfterSteps, AllStable, SlotAt,
         ImageAt, Merge.Matches, Merge.Proper, Merge.HasGraphData, Merge.HasManaged;
    var mid := AfterPass(st, ns, a, ka, ip);
    var end := AfterPass(mid, ns, b, kb, ip);
    var x, y := ImageAt(st, ns, a), ImageAt(st, ns, b);
    ImagesKept(st, ns, a, a, ka, ip); ImagesKept(st, ns, b, a, ka, ip);
    ImagesKept(mid, ns, a, b, kb, ip); ImagesKept(mid, ns, b, b, kb, ip);
    OldRouteKept(st, ns, a, ka, ip);
    OneWay(a, b);
    if b == Names.PolicyEngineService(a) { OldRouteStays(st, ns, b, a, ka, ip); }
    StepsStable(st, ns, a, ka, ka', ip);
    StepsKept(mid, ns, a, ka', b, kb, ip);
    StepsStable(mid, ns, b, kb, kb', ip);
    SecondPass(end, ns, a, ka', ip);
    SecondPass(end, ns, b, kb', ip);
    PodAfter(st, ns, a, ka, ip);
    PodAfter(mid, ns, b, kb, ip);
    PodShared(st, mid, end, ns, a, b, x, y);
    DeploymentStable(st, ns, a, ka, ip);
    DeploymentStable(mid, ns, b, kb, ip);
    var s := DeploymentSlot(ns, a, ka, PodDigest(st, ns, x));
    if Stable(mid, s) { StableFrame(mid, end, s); }
    if Stable(end, s) { StableFrame(end, mid, s); }
    assert DeploymentKey(ns, b) in mid <==> DeploymentKey(ns, b) in st;
  }

  // ---- Two reconciliations -----------------------------------------------

  lemma StepsKinds(st: Store, ns: string, name: string, k: Resources, ip: Allocator)
    requires WellKinded(st) && Typed(k)
    ensures WellKinded(AfterSteps(st, ns, name, k, ip))
  {
    hide SlotAt, Typed, ApplyAll, KindOf, WellKinded;
    var ss := SlotsOf(ns, name, k, OldRouteKey(ns, name) in st);
    forall i | 0 <= i < STEPS ensures ss[i].rule.Skip? || KindOf(ss[i].desired.body) == ss[i].key.kind {
      SlotKinds(i, ns, name, k, OldRouteKey(ns, name) in st);
    }
    ApplyKinds(st, ss, ip);
  }

  lemma PodKinds(st: Store, ns: string, name: string, image: string)
    requires WellKinded(st)
    ensures WellKinded(PodStore(st, ns, name, image))
  {
    hide Pinned;
  }

  lemma DeploymentBody(o: Object)
    requires o.body.Deployment?
    ensures KindOf(o.body) == DeploymentKind
  {}

  lemma OnePassKinds(st: Store, ns: string, name: string, k: Resources, ip: Allocator)
    requires WellKinded(st) && Typed(k)
    ensures WellKinded(AfterPass(st, ns, name, k, ip))
  {
    hide Settle, AfterSteps, Pinned, KindOf;
    StepsKinds(st, ns, name, k, ip);
    PodKinds(AfterSteps(st, ns, name, k, ip), ns, name, ImageAt(st, ns, name));
    assert KindOf(k.deployment.body) == DeploymentKind by { DeploymentBody(k.deployment); }
    SettleKind(Lookup(AfterPod(st, ns, name, k, ip), DeploymentKey(ns, name)), FinalSlot(st, ns, name, k, ip), ip);
  }

  lemma ReconciledKinds(st: Store, cfg: Config, ns: string, name: string, ip: Allocator)
    requires WellKinded(st)
    ensures WellKinded(Reconciled(st, cfg, ns, name, ip))
  {
    hide Decide, AfterPass, Typed, WellKinded;
    var d := Decide(st, cfg, ns, name);
    if d.Ready? {
      DecideTyped(st, cfg, ns, name);
      OnePassKinds(st, ns, name, d.k, ip);
    }
  }

  /** A missing old route stays missing through both passes. */
  lemma OldRouteMissing(st: Store, cfg: Config, ns: string, x: string, y: string, ip: Allocator)
    requires y == Names.PolicyEngineService(x)
    ensures OldRouteKey(ns, y) in Reconciled(st, cfg, ns, x, ip) <==> OldRouteKey(ns, y) in st
    ensures OldRouteKey(ns, y) in Reconciled(st, cfg, ns, y, ip) <==> OldRouteKey(ns, y) in st
  {
    hide Decide, AfterPass;
    OneWay(y, x);
    assert |y| > |x|;
    var d, e := Decide(st, cfg, ns, x), Decide(st, cfg, ns, y);
    if d.Ready? { OldRouteStays(st, ns, y, x, d.k, ip); }
    if e.Ready? { OldRouteKept(st, ns, y, e.k, ip); }
  }

  /** Both decisions are the same through both reconciliations, the bundle
      aside. */
  lemma DecidedAlong(st: Store, cfg: Config, ns: string, a: string, b: string, c: string, ip: Allocator)
    requires ns != Names.OPENSHIFT_CONFIG && Decide(st, cfg, ns, c).Ready?
    ensures var mid := Reconciled(st, cfg, ns, a, ip);
            var end := Reconciled(mid, cfg, ns, b, ip);
            && SameDecision(Decide(st, cfg, ns, c), Decide(mid, cfg, ns, c))
            && SameDecision(Decide(mid, cfg, ns, c), Decide(end, cfg, ns, c))
            && Mergeable(Decide(mid, cfg, ns, c).k) && Mergeable(Decide(st, cfg, ns, c).k)
  {
    hide Decide, Reconciled, Mergeable;
    var mid := Reconciled(st, cfg, ns, a, ip);
    DecisionUnmoved(st, cfg, ns, c, a, ip);
    DecisionUnmoved(mid, cfg, ns, c, b, ip);
    DecideMergeable(st, cfg, ns, c);
    DecideMergeable(mid, cfg, ns, c);
  }

  /** After an undisturbed pass of each of two instances, whatever was there
      before, the next passes of both issue no create, update or delete exactly
      when the graph-data tags are settled and, should one be named after the
      other's policy-engine service, it has a route under its old name. */
  lemma RestTogether(st: Store, cfg: Config, ns: string, a: string, b: string, ip: Allocator)
    requires WellKinded(st) && a != b && ns != Names.OPENSHIFT_CONFIG
    requires Decide(st, cfg, ns, a).Ready? && Decide(st, cfg, ns, b).Ready?
    ensures var end := Reconciled(Reconciled(st, cfg, ns, a, ip), cfg, ns, b, ip);
            Issued(end, cfg, ns, a, ip) == [] && Issued(end, cfg, ns, b, ip) == []
            <==> TagsSettled(st, ns, a, b) && RoutesApart(st, ns, a, b)
  {
    hide Decide, AfterPass, PassIssues, TagsSettled, Mergeable, WellKinded;
    var mid := Reconciled(st, cfg, ns, a, ip);
    var end := Reconciled(mid, cfg, ns, b, ip);
    DecidedAlong(st, cfg, ns, a, b, a, ip);
    DecidedAlong(st, cfg, ns, a, b, b, ip);
    if RoutesApart(st, ns, a, b) {
      PairRests(st, ns, a, Decide(st, cfg, ns, a).k, Decide(end, cfg, ns, a).k,
                b, Decide(mid, cfg, ns, b).k, Decide(end, cfg, ns, b).k, ip);
    } else {
      ReconciledKinds(st, cfg, ns, a, ip);
      ReconciledKinds(mid, cfg, ns, b, ip);
      NeverTogether(st, cfg, ns, a, b, ip);
    }
  }

  lemma NeverTogether(st: Store, cfg: Config, ns: string, a: string, b: string, ip: Allocator)
    requires !RoutesApart(st, ns, a, b)
    requires var end := Reconciled(Reconciled(st, cfg, ns, a, ip), cfg, ns, b, ip);
             WellKinded(end) && Decide(end, cfg, ns, a).Ready? && Decide(end, cfg, ns, b).Ready?
    ensures var end := Reconciled(Reconciled(st, cfg, ns, a, ip), cfg, ns, b, ip);
            Issued(end, cfg, ns, a, ip) != [] || Issued(end, cfg, ns, b, ip) != []
  {
    hide Decide, Reconciled, Issued, WellKinded;
    var mid := Reconciled(st, cfg, ns, a, ip);
    var end := Reconciled(mid, cfg, ns, b, ip);
    if a == Names.PolicyEngineService(b) && OldRouteKey(ns, a) !in st {
      OldRouteMissing(st, cfg, ns, b, a, ip);
      OldRouteMissing(mid, cfg, ns, b, a, ip);
      RoutesContested(end, cfg, ns, b, ip);
    } else {
      OldRouteMissing(st, cfg, ns, a, b, ip);
      OldRouteMissing(mid, cfg, ns, a, b, ip);
      RoutesContested(end, cfg, ns, a, ip);
    }
  }
}
