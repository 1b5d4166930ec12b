/** What one reconciliation of an instance decides and, undisturbed, does. */
module Plan {
  import opened Text
  import opened Objects
  import opened Slots
  import opened Resources
  import Merge
  import Names
  import RouteName

  // ---- Keys --------------------------------------------------------------

  const IMAGE_KEY := Key(ImageKind, "", "cluster")
  const PULL_KEY := Key(SecretKind, Names.OPENSHIFT_CONFIG, Names.PULL_SECRET)

  function SourceKey(name: string): Key { Key(ConfigMapKind, Names.OPENSHIFT_CONFIG, name) }
  function InstanceKey(ns: string, name: string): Key { Key(UpdateServiceKind, ns, name) }
  function ClusterCAKey(ns: string): Key { Key(ConfigMapKind, ns, Names.CLUSTER_CA) }
  function PodKey(ns: string): Key { Key(PodKind, ns, Names.GRAPH_POD) }
  function DeploymentKey(ns: string, name: string): Key { Key(DeploymentKind, ns, Names.Deployment(name)) }
  function RouteKey(ns: string, name: string): Key { Key(RouteKind, ns, Names.PolicyEngineRoute(name)) }
  function OldRouteKey(ns: string, name: string): Key { Key(RouteKind, ns, Names.OldPolicyEngineRoute(name)) }

  /** The keys a reconciliation of name may write, status aside. */
  predicate InFootprint(ns: string, name: string, k: Key) {
    k.ns == ns &&
    match k.kind
    case ConfigMapKind => k.name == Names.Config(name) || k.name == Names.EnvConfig(name)
                          || k.name == Names.AdditionalTrustedCA(name) || k.name == Names.CLUSTER_CA
    case SecretKind => k.name == Names.PullSecretCopy(name)
    case ServiceKind => k.name == Names.PolicyEngineService(name) || k.name == Names.GraphBuilderService(name)
    case BudgetKind => k.name == Names.PodDisruptionBudget(name)
    case RouteKind => k.name == Names.PolicyEngineRoute(name) || k.name == Names.OldPolicyEngineRoute(name)
    case NetworkPolicyKind => k.name == Names.NetworkPolicy(name)
    case PodKind => k.name == Names.GRAPH_POD
    case DeploymentKind => k.name == Names.Deployment(name)
    case _ => false
  }

  // ---- The steps ---------------------------------------------------------

  const STEPS := 10

  function Owned(o: Object, name: string): Object {
    o.(meta := o.meta.(owner := Some(name)))
  }

  function WantedOf(k: Resources): Merge.Wanted
    requires k.deployment.body.Deployment?
  {
    Merge.Wanted(k.deployment.body.deployment, k.graphBuilder, k.policyEngine, k.graphData)
  }

  function Optional(key: Key, o: Option<Object>, name: string, rule: Rule, blank: Object): Slot {
    match o
    case None => Slot(key, blank, Skip)
    case Some(x) => Slot(key, Owned(x, name), rule)
  }

  /** The ensure steps in the order the operator takes them. */
  function SlotAt(i: nat, ns: string, name: string, k: Resources, oldRoute: bool): Slot
    requires i < STEPS
  {
    match i
    case 0 => Slot(Key(ConfigMapKind, ns, Names.Config(name)), Owned(k.graphBuilderConfig, name), Compare)
    case 1 => Slot(Key(SecretKind, ns, Names.PullSecretCopy(name)), Owned(k.pullSecret, name), Compare)
    case 2 => Slot(Key(ConfigMapKind, ns, Names.EnvConfig(name)), Owned(k.envConfig, name), Compare)
    case 3 => Optional(ClusterCAKey(ns), k.clusterCA, name, CreateOnly, k.envConfig)
    case 4 =>
      var key := Key(ConfigMapKind, ns, Names.AdditionalTrustedCA(name));
      Optional(key, k.trustedCA, name, Compare, k.envConfig)
    case 5 => Slot(Key(ServiceKind, ns, Names.GraphBuilderService(name)), Owned(k.graphBuilderService, name), Compare)
    case 6 => Slot(Key(ServiceKind, ns, Names.PolicyEngineService(name)), Owned(k.policyEngineService, name), Compare)
    case 7 => Slot(Key(BudgetKind, ns, Names.PodDisruptionBudget(name)), Owned(k.budget, name), Compare)
    case 8 =>
      var key := if oldRoute then OldRouteKey(ns, name) else RouteKey(ns, name);
      Slot(key, Owned(k.route, name), Compare)
    case _ => Slot(Key(NetworkPolicyKind, ns, Names.NetworkPolicy(name)), Owned(k.networkPolicy, name), Compare)
  }

  function SlotsOf(ns: string, name: string, k: Resources, oldRoute: bool): (ss: seq<Slot>)
    ensures |ss| == STEPS && forall i | 0 <= i < STEPS :: ss[i] == SlotAt(i, ns, name, k, oldRoute)
  {
    seq(STEPS, i requires 0 <= i < STEPS => SlotAt(i, ns, name, k, oldRoute))
  }

  function DeploymentSlot(ns: string, name: string, k: Resources, sha: string): Slot
    requires k.deployment.body.Deployment?
  {
    Slot(DeploymentKey(ns, name), Owned(k.deployment, name), MergeWith(WantedOf(k), sha))
  }

  // ---- The pod that resolves a graph-data tag ----------------------------

  /** The image is pinned by digest. */
  predicate Pinned(image: string) { Contains(image, "@sha256") }

  /** That is: the marker stands somewhere in it. */
  lemma PinnedImages(image: string)
    ensures Pinned(image) <==> Occurs("@sha256", image)
  {
    ContainsOccurs(image, "@sha256");
  }

  /** A repository with a digest is pinned, and nothing without "@" is. */
  lemma DigestsAndTags(repository: string, hex: string, image: string)
    ensures Pinned(repository + "@sha256:" + hex)
    ensures '@' !in image ==> !Pinned(image)
  {
    var full, mark := repository + "@sha256:" + hex, "@sha256";
    PinnedImages(full);
    PinnedImages(image);
    assert full[|repository|..|repository| + |mark|] == mark;
    assert StandsAt(mark, full, |repository|);
    if Occurs(mark, image) {
      var j: nat :| StandsAt(mark, image, j);
      assert image[j] == image[j..j + |mark|][0] == '@';
    }
  }

  function NewPod(name: string, image: string): Object {
    Object(PLAIN.(owner := Some(name)), Pod(image, Pending, []))
  }

  function PodStore(st: Store, ns: string, name: string, image: string): Store {
    var key := PodKey(ns);
    if Pinned(image) then st
    else if key !in st then st[key := NewPod(name, image)]
    else if st[key].body.Pod? && st[key].body.phase.Succeeded? then st - {key}
    else st
  }

  function PodIssue(st: Store, ns: string, name: string, image: string): seq<Event> {
    var key := PodKey(ns);
    if Pinned(image) then []
    else if key !in st then [Write(Create, key, true, None, Some(NewPod(name, image)))]
    else if st[key].body.Pod? && st[key].body.phase.Succeeded? then [Write(Delete, key, true, Some(st[key]), None)]
    else []
  }

  /** The image digest a finished pull reports, if any. */
  function DigestIn(pod: Object): string {
    match pod.body
    case Pod(_, phase, ids) => if phase.Succeeded? || ids == [] then "" else ids[0]
    case _ => ""
  }

  function PodDigest(st: Store, ns: string, image: string): string {
    if Pinned(image) || PodKey(ns) !in st then "" else DigestIn(st[PodKey(ns)])
  }

  // ---- Decisions ---------------------------------------------------------

  /** The registry certificates an administrator points to: nothing usable,
      data holding the expected key, or a dangling reference. */
  datatype Sought = Nothing | Certificates(data: Labels) | Dangling

  function SourceFound(source: Option<Object>): Sought {
    match source
    case Some(Object(_, ConfigMap(data))) => if Names.CERT_KEY in data then Certificates(data) else Nothing
    case _ => Dangling
  }

  function FindTrustedCA(st: Store): Sought {
    match Lookup(st, IMAGE_KEY)
    case Some(Object(_, Image(ca))) => if ca == "" then Nothing else SourceFound(Lookup(st, SourceKey(ca)))
    case _ => Nothing
  }

  /** The cluster's bundle, when the ConfigMap exists and holds it. */
  function ClusterCAFound(found: Option<Object>): Option<Object> {
    match found
    case Some(o) => if o.body.ConfigMap? && Names.CLUSTER_CERT_KEY in o.body.data then found else None
    case None => None
  }

  function CertificateData(s: Sought): Option<Labels> {
    match s
    case Certificates(data) => Some(data)
    case _ => None
  }

  /** Not this operator's business, refused for its name, stopped before any
      write, or ready with the objects to ensure. */
  datatype Decision = Ignored | Rejected | Blocked | Ready(k: Resources)

  function SpecAt(st: Store, key: Key): Option<Spec> {
    match Lookup(st, key)
    case Some(Object(_, UpdateService(spec, _))) => Some(spec)
    case _ => None
  }

  function SecretAt(st: Store, key: Key): Option<Labels> {
    match Lookup(st, key)
    case Some(Object(_, Secret(data))) => Some(data)
    case _ => None
  }

  ghost function Decide(st: Store, cfg: Config, ns: string, name: string): (d: Decision)
    ensures d.Ready? ==> d.k.deployment.body.Deployment? && SpecAt(st, InstanceKey(ns, name)).Some?
  {
    if ns != cfg.ns then Ignored
    else
      match SpecAt(st, InstanceKey(ns, name))
      case None => Ignored
      case Some(spec) =>
        if !RouteName.Acceptable(name, ns) then Rejected
        else
          match SecretAt(st, PULL_KEY)
          case None => Blocked
          case Some(secret) =>
            if FindTrustedCA(st).Dangling? then Blocked
            else
              match Render(cfg, name, spec, secret, CertificateData(FindTrustedCA(st)),
                           ClusterCAFound(Lookup(st, ClusterCAKey(ns))))
              case None => Blocked
              case Some(k) => Ready(k)
  }

  // ---- A whole undisturbed pass ------------------------------------------

  function ImageAt(st: Store, ns: string, name: string): string {
    match SpecAt(st, InstanceKey(ns, name))
    case Some(spec) => spec.graphDataImage
    case None => ""
  }

  function AfterSteps(st: Store, ns: string, name: string, k: Resources, ip: Allocator): Store {
    ApplyAll(st, SlotsOf(ns, name, k, OldRouteKey(ns, name) in st), ip)
  }

  function AfterPod(st: Store, ns: string, name: string, k: Resources, ip: Allocator): Store {
    PodStore(AfterSteps(st, ns, name, k, ip), ns, name, ImageAt(st, ns, name))
  }

  function FinalSlot(st: Store, ns: string, name: string, k: Resources, ip: Allocator): Slot
    requires k.deployment.body.Deployment?
  {
    DeploymentSlot(ns, name, k, PodDigest(AfterSteps(st, ns, name, k, ip), ns, ImageAt(st, ns, name)))
  }

  function AfterPass(st: Store, ns: string, name: string, k: Resources, ip: Allocator): Store
    requires k.deployment.body.Deployment?
  {
    ApplyOne(AfterPod(st, ns, name, k, ip), FinalSlot(st, ns, name, k, ip), ip)
  }

  function PassIssues(st: Store, ns: string, name: string, k: Resources, ip: Allocator): seq<Event>
    requires k.deployment.body.Deployment?
  {
    IssueAll(st, SlotsOf(ns, name, k, OldRouteKey(ns, name) in st), ip)
    + PodIssue(AfterSteps(st, ns, name, k, ip), ns, name, ImageAt(st, ns, name))
    + Issue(AfterPod(st, ns, name, k, ip), FinalSlot(st, ns, name, k, ip), ip)
  }

  /** The objects after a reconciliation, the instance's own status aside. */
  ghost function Reconciled(st: Store, cfg: Config, ns: string, name: string, ip: Allocator): Store {
    match Decide(st, cfg, ns, name)
    case Ready(k) => AfterPass(st, ns, name, k, ip)
    case _ => st
  }

  /** The creates, updates and deletes it issues. */
  ghost function Issued(st: Store, cfg: Config, ns: string, name: string, ip: Allocator): seq<Event> {
    match Decide(st, cfg, ns, name)
    case Ready(k) => PassIssues(st, ns, name, k, ip)
    case _ => []
  }

  // ---- Where a pass writes -----------------------------------------------

  lemma SlotFootprint(i: nat, ns: string, name: string, k: Resources, oldRoute: bool)
    requires i < STEPS
    ensures var key := SlotAt(i, ns, name, k, oldRoute).key;
            InFootprint(ns, name, key) && key.kind != PodKind && key.kind != DeploymentKind
  {}

  lemma StepsFrame(st: Store, ns: string, name: string, k: Resources, ip: Allocator, key: Key)
    requires !InFootprint(ns, name, key) || key.kind == PodKind || key.kind == DeploymentKind
    ensures Lookup(AfterSteps(st, ns, name, k, ip), key) == Lookup(st, key)
  {
    var ss := SlotsOf(ns, name, k, OldRouteKey(ns, name) in st);
    forall i | 0 <= i < |ss| ensures ss[i].key != key {
      SlotFootprint(i, ns, name, k, OldRouteKey(ns, name) in st);
    }
    ApplyFrame(st, ss, key, ip);
  }

  /** A pass writes nothing outside its footprint. */
  lemma PassFrame(st: Store, ns: string, name: string, k: Resources, ip: Allocator, key: Key)
    requires k.deployment.body.Deployment?
    requires !InFootprint(ns, name, key)
    ensures Lookup(AfterPass(st, ns, name, k, ip), key) == Lookup(st, key)
  {
    hide Settle;
    StepsFrame(st, ns, name, k, ip, key);
  }

  lemma StepNames(name: string)
    ensures Names.Config(name) != Names.EnvConfig(name) && Names.Config(name) != Names.CLUSTER_CA
    ensures Names.Config(name) != Names.AdditionalTrustedCA(name)
    ensures Names.EnvConfig(name) != Names.CLUSTER_CA
    ensures Names.EnvConfig(name) != Names.AdditionalTrustedCA(name)
    ensures Names.GraphBuilderService(name) != Names.PolicyEngineService(name)
    ensures Names.PolicyEngineRoute(name) != Names.OldPolicyEngineRoute(name)
  {
    SuffixesDiffer(name, "-config", name, "-env");
    SuffixesDiffer(name, "-config", "", Names.CLUSTER_CA);
    SuffixesDiffer(name, "-config", name, "-trusted-ca");
    SuffixesDiffer(name, "-env", "", Names.CLUSTER_CA);
    SuffixesDiffer(name, "-env", name, "-trusted-ca");
    SuffixesDiffer(name, "-graph-builder", name, "-policy-engine");
    assert "" + Names.CLUSTER_CA == Names.CLUSTER_CA;
    assert |Names.PolicyEngineRoute(name)| < |Names.OldPolicyEngineRoute(name)|;
  }

  lemma SlotNames(i: nat, ns: string, name: string, k: Resources, oldRoute: bool)
    requires i < STEPS
    ensures var key := SlotAt(i, ns, name, k, oldRoute).key;
            && (key.kind == ConfigMapKind <==> i == 0 || 2 <= i <= 4) && (key.kind == SecretKind <==> i == 1)
            && (key.kind == ServiceKind <==> 5 <= i <= 6) && (key.kind == BudgetKind <==> i == 7)
            && (key.kind == RouteKind <==> i == 8) && (key.kind == NetworkPolicyKind <==> i == 9)
            && (i == 0 ==> key.name == Names.Config(name)) && (i == 2 ==> key.name == Names.EnvConfig(name))
            && (i == 3 ==> key.name == Names.CLUSTER_CA) && (i == 4 ==> key.name == Names.AdditionalTrustedCA(name))
            && (i == 5 ==> key.name == Names.GraphBuilderService(name))
            && (i == 6 ==> key.name == Names.PolicyEngineService(name))
  {}

  lemma SlotRules(i: nat, ns: string, name: string, k: Resources, oldRoute: bool)
    requires i < STEPS
    ensures var rule := SlotAt(i, ns, name, k, oldRoute).rule;
            (i == 3 ==> rule.Skip? || rule.CreateOnly?) && (i == 4 ==> rule.Skip? || rule.Compare?)
  {}

  /** Only the bundle's step and the certificates' step can share a key. */
  lemma SharedKey(i: nat, j: nat, ns: string, name: string, k: Resources, oldRoute: bool)
    requires i < j < STEPS && SlotAt(i, ns, name, k, oldRoute).key == SlotAt(j, ns, name, k, oldRoute).key
    ensures i == 3 && j == 4
  {
    hide SlotAt, Names.Config, Names.EnvConfig, Names.AdditionalTrustedCA, Names.GraphBuilderService,
         Names.PolicyEngineService;
    StepNames(name);
    SlotNames(i, ns, name, k, oldRoute);
    SlotNames(j, ns, name, k, oldRoute);
  }

  /** The steps of one instance do not get in each other's way. */
  lemma StepsCompatible(ns: string, name: string, k: Resources, oldRoute: bool)
    ensures Compatible(SlotsOf(ns, name, k, oldRoute))
  {
    hide SlotAt;
    var ss := SlotsOf(ns, name, k, oldRoute);
    forall i, j | 0 <= i < j < |ss| && !ss[i].rule.Skip? && !ss[j].rule.Skip? && ss[i].key == ss[j].key
      ensures ss[i].rule.CreateOnly? && ss[j].rule.Compare?
    {
      SharedKey(i, j, ns, name, k, oldRoute);
      SlotRules(3, ns, name, k, oldRoute);
      SlotRules(4, ns, name, k, oldRoute);
    }
  }
}
