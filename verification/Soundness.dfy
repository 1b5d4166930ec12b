/** What a published status is worth. */
module Soundness {
  import opened Text
  import opened Objects
  import opened Slots
  import opened Resources
  import opened Plan
  import opened Conditions
  import opened Convergence
  import Merge
  import Names
  import NoProxy
  import RouteName
  import Steps

  /** The image configuration names a ConfigMap that holds the registry's
      certificates. */
  predicate CertificatesReferenced(st: Store) {
    && IMAGE_KEY in st && st[IMAGE_KEY].body.Image? && st[IMAGE_KEY].body.trustedCA != ""
    && var key := SourceKey(st[IMAGE_KEY].body.trustedCA);
       key in st && st[key].body.ConfigMap? && Names.CERT_KEY in st[key].body.data
  }

  lemma CertificatesFound(st: Store)
    ensures FindTrustedCA(st).Certificates? <==> CertificatesReferenced(st)
  {}

  lemma InLineFrame(a: Store, b: Store, ns: string, name: string, k: Resources, sha: string)
    requires Typed(k)
    requires forall key: Key | key.kind != UpdateServiceKind :: Lookup(a, key) == Lookup(b, key)
    ensures StepsInLine(a, ns, name, k) ==> StepsInLine(b, ns, name, k)
    ensures DeploymentInLine(a, ns, name, k, sha) <==> DeploymentInLine(b, ns, name, k, sha)
  {
    hide InPlace, SlotAt, Merge.Matches, Merge.HasGraphData, Merge.HasManaged;
    var key := OldRouteKey(ns, name);
    assert Lookup(a, key) == Lookup(b, key);
    assert Lookup(a, DeploymentKey(ns, name)) == Lookup(b, DeploymentKey(ns, name));
    if StepsInLine(a, ns, name, k) {
      forall i | 0 <= i < STEPS
        ensures var s := SlotAt(i, ns, name, k, key in b);
                s.rule.Skip? || (s.key in b && (s.rule.CreateOnly? || InPlace(b[s.key], s.desired)))
      {
        var s := SlotAt(i, ns, name, k, key in a);
        SlotKinds(i, ns, name, k, key in a);
        assert Lookup(a, s.key) == Lookup(b, s.key);
      }
    }
  }

  /** After an undisturbed request that got as far as its status, completed is
      reported, and so is whether the referenced certificates were found. All
      steps are in line; the Deployment is exactly when there was none or it
      had its three containers. */
  lemma StatusSound(st: Store, end: Store, cfg: Config, ns: string, name: string, ip: Allocator)
    requires WellKinded(st) && Decide(st, cfg, ns, name).Ready? && ns != Names.OPENSHIFT_CONFIG
    requires Steps.Left(st, end, cfg, ns, name, ip)
    ensures var key, k := InstanceKey(ns, name), Decide(st, cfg, ns, name).k;
            && key in end && end[key].body.UpdateService?
            && var cs := end[key].body.status.conditions;
               && Verdict(cs, ReconcileCompleted) == Some(true) && Verdict(cs, ReconcileError).None?
               && (Verdict(cs, RegistryCACertFound) == Some(true) <==> CertificatesReferenced(st))
               && StepsInLine(end, ns, name, k)
               && (DeploymentInLine(end, ns, name, k, WrittenDigest(st, ns, name))
                   <==> Complete(Lookup(st, DeploymentKey(ns, name))))
  {
    hide Decide, Reconciled, FindTrustedCA, CertificatesReferenced, StepsInLine, DeploymentInLine, Typed, Complete,
         WrittenDigest, Verdict, OnePerType;
    CertificatesFound(st);
    BringsInLine(st, cfg, ns, name, ip);
    DecideTyped(st, cfg, ns, name);
    var planned, k := Reconciled(st, cfg, ns, name, ip), Decide(st, cfg, ns, name).k;
    InLineFrame(planned, end, ns, name, k, WrittenDigest(st, ns, name));
  }

  // ---- A Deployment that lost its init container -------------------------

  const HOLLOW := DeploymentSpec(1, map[], "", Template(map[], map[], PodSpec([], [], [], "")), "")

  const HOLLOW_STORE: Store := map[
    InstanceKey("n", "a") := Object(PLAIN, UpdateService(Spec(1, "r/x", "g@sha256:1"), Status([], ""))),
    PULL_KEY := Object(PLAIN, Secret(map[])),
    DeploymentKey("n", "a") := Object(PLAIN, Deployment(HOLLOW))]

  const HOLLOW_CONFIG := Config("operand", "n", NoProxy.ProxyEnv("", "", ""))

  lemma HollowReady()
    ensures Decide(HOLLOW_STORE, HOLLOW_CONFIG, "n", "a").Ready?
  {
    hide Render;
    RouteName.NamesAccepted("a", "n");
    assert "r/x"[1] == '/';
  }

  /** Without the graph-data init container the pass reports completion and
      leaves the Deployment as it was, out of line. */
  lemma HollowCompletes(end: Store, ip: Allocator)
    requires Steps.Left(HOLLOW_STORE, end, HOLLOW_CONFIG, "n", "a", ip)
    ensures var key := InstanceKey("n", "a");
            key in end && end[key].body.UpdateService?
            && Verdict(end[key].body.status.conditions, ReconcileCompleted) == Some(true)
    ensures Lookup(end, DeploymentKey("n", "a")) == Some(Object(PLAIN, Deployment(HOLLOW)))
    ensures var d := Decide(HOLLOW_STORE, HOLLOW_CONFIG, "n", "a");
            d.Ready? && forall sha :: !DeploymentInLine(end, "n", "a", d.k, sha)
  {
    hide Decide, Reconciled, Verdict, OnePerType, FindTrustedCA;
    HollowReady();
    var k := Decide(HOLLOW_STORE, HOLLOW_CONFIG, "n", "a").k;
    DeploymentLater(HOLLOW_STORE, "n", "a", k, ip);
    ReadyReconciled(HOLLOW_STORE, HOLLOW_CONFIG, "n", "a", ip);
    var planned := Reconciled(HOLLOW_STORE, HOLLOW_CONFIG, "n", "a", ip);
    assert Lookup(end, DeploymentKey("n", "a")) == Lookup(planned, DeploymentKey("n", "a"));
  }

  lemma ReadyReconciled(st: Store, cfg: Config, ns: string, name: string, ip: Allocator)
    requires Decide(st, cfg, ns, name).Ready?
    ensures Reconciled(st, cfg, ns, name, ip) == AfterPass(st, ns, name, Decide(st, cfg, ns, name).k, ip)
  {
    hide Decide, AfterPass;
  }
}
