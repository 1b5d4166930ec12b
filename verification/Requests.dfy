/** Undisturbed requests one after the other, statuses and all. */
module Requests {
  import opened Objects
  import opened Slots
  import opened Resources
  import opened Plan
  import opened Conditions
  import opened Convergence
  import opened Isolation
  import opened Steps
  import Names
  import Together

  // ---- Statuses do not count ---------------------------------------------

  /** The same but for the statuses of instances. */
  ghost predicate SameButStatus(x: Store, y: Store) {
    && (forall key: Key | key.kind != UpdateServiceKind :: Lookup(x, key) == Lookup(y, key))
    && (forall key: Key | key.kind == UpdateServiceKind :: SpecAt(x, key) == SpecAt(y, key))
  }

  lemma DecideAside(x: Store, y: Store, cfg: Config, ns: string, name: string)
    requires SameButStatus(x, y)
    ensures Decide(x, cfg, ns, name) == Decide(y, cfg, ns, name)
    ensures ImageAt(x, ns, name) == ImageAt(y, ns, name)
  {
    hide Render, FindTrustedCA, ClusterCAFound;
    assert Lookup(x, ClusterCAKey(ns)) == Lookup(y, ClusterCAKey(ns));
    SearchAside(x, y);
  }

  lemma SearchAside(x: Store, y: Store)
    requires SameButStatus(x, y)
    ensures FindTrustedCA(x) == FindTrustedCA(y) && SecretAt(x, PULL_KEY) == SecretAt(y, PULL_KEY)
  {
    assert Lookup(x, IMAGE_KEY) == Lookup(y, IMAGE_KEY) && Lookup(x, PULL_KEY) == Lookup(y, PULL_KEY);
    match Lookup(x, IMAGE_KEY) {
      case Some(Object(_, Image(ca))) => assert Lookup(x, SourceKey(ca)) == Lookup(y, SourceKey(ca));
      case _ =>
    }
  }

  lemma OneAside(x: Store, y: Store, s: Slot, ip: Allocator)
    requires SameButStatus(x, y) && s.key.kind != UpdateServiceKind
    ensures Issue(x, s, ip) == Issue(y, s, ip) && SameButStatus(ApplyOne(x, s, ip), ApplyOne(y, s, ip))
  {
    hide Settle;
    assert Lookup(x, s.key) == Lookup(y, s.key);
    var a, b := ApplyOne(x, s, ip), ApplyOne(y, s, ip);
    forall key: Key | key.kind != UpdateServiceKind ensures Lookup(a, key) == Lookup(b, key) {
      assert Lookup(x, key) == Lookup(y, key);
    }
    forall key: Key | key.kind == UpdateServiceKind ensures SpecAt(a, key) == SpecAt(b, key) {
      assert Lookup(a, key) == Lookup(x, key) && Lookup(b, key) == Lookup(y, key);
    }
  }

  lemma {:induction false} AllAside(x: Store, y: Store, ss: seq<Slot>, ip: Allocator)
    requires SameButStatus(x, y) && forall i | 0 <= i < |ss| :: ss[i].key.kind != UpdateServiceKind
    ensures IssueAll(x, ss, ip) == IssueAll(y, ss, ip) && SameButStatus(ApplyAll(x, ss, ip), ApplyAll(y, ss, ip))
  {
    hide ApplyOne, Issue, SameButStatus;
    if ss != [] {
      var n := |ss| - 1;
      AllAside(x, y, ss[..n], ip);
      OneAside(ApplyAll(x, ss[..n], ip), ApplyAll(y, ss[..n], ip), ss[n], ip);
    }
  }

  lemma PodAside(x: Store, y: Store, ns: string, name: string, image: string)
    requires SameButStatus(x, y)
    ensures PodIssue(x, ns, name, image) == PodIssue(y, ns, name, image)
    ensures PodDigest(x, ns, image) == PodDigest(y, ns, image)
    ensures SameButStatus(PodStore(x, ns, name, image), PodStore(y, ns, name, image))
  {
    hide Pinned;
    var pod := PodKey(ns);
    assert Lookup(x, pod) == Lookup(y, pod);
    var a, b := PodStore(x, ns, name, image), PodStore(y, ns, name, image);
    forall key: Key | key.kind != UpdateServiceKind ensures Lookup(a, key) == Lookup(b, key) {
      assert Lookup(x, key) == Lookup(y, key);
    }
    forall key: Key | key.kind == UpdateServiceKind ensures SpecAt(a, key) == SpecAt(b, key) {
      assert Lookup(a, key) == Lookup(x, key) && Lookup(b, key) == Lookup(y, key);
    }
  }

  /** A pass neither looks at statuses nor touches them. */
  lemma PassAside(x: Store, y: Store, ns: string, name: string, k: Resources, ip: Allocator)
    requires SameButStatus(x, y) && k.deployment.body.Deployment?
    ensures PassIssues(x, ns, name, k, ip) == PassIssues(y, ns, name, k, ip)
    ensures SameButStatus(AfterPass(x, ns, name, k, ip), AfterPass(y, ns, name, k, ip))
  {
    hide SameButStatus, ApplyAll, IssueAll, ApplyOne, Issue, PodStore, PodIssue, PodDigest, SlotAt;
    RouteAside(x, y, ns, name);
    var ss := SlotsOf(ns, name, k, OldRouteKey(ns, name) in x);
    forall i | 0 <= i < |ss| ensures ss[i].key.kind != UpdateServiceKind {
      NoInstanceSlot(i, ns, name, k, OldRouteKey(ns, name) in x);
    }
    AllAside(x, y, ss, ip);
    PodAside(AfterSteps(x, ns, name, k, ip), AfterSteps(y, ns, name, k, ip), ns, name, ImageAt(x, ns, name));
    OneAside(AfterPod(x, ns, name, k, ip), AfterPod(y, ns, name, k, ip), FinalSlot(x, ns, name, k, ip), ip);
  }

  lemma RouteAside(x: Store, y: Store, ns: string, name: string)
    requires SameButStatus(x, y)
    ensures OldRouteKey(ns, name) in x <==> OldRouteKey(ns, name) in y
    ensures ImageAt(x, ns, name) == ImageAt(y, ns, name)
  {
    assert Lookup(x, OldRouteKey(ns, name)) == Lookup(y, OldRouteKey(ns, name));
  }

  lemma NoInstanceSlot(i: nat, ns: string, name: string, k: Resources, oldRoute: bool)
    requires i < STEPS
    ensures SlotAt(i, ns, name, k, oldRoute).key.kind != UpdateServiceKind
  {
    hide SlotAt;
    SlotFootprint(i, ns, name, k, oldRoute);
  }

  /** So neither does the plan of a request. */
  lemma PlanAside(x: Store, y: Store, cfg: Config, ns: string, name: string, ip: Allocator)
    requires SameButStatus(x, y)
    ensures Issued(x, cfg, ns, name, ip) == Issued(y, cfg, ns, name, ip)
    ensures SameButStatus(Reconciled(x, cfg, ns, name, ip), Reconciled(y, cfg, ns, name, ip))
  {
    hide Decide, AfterPass, PassIssues, SameButStatus;
    DecideAside(x, y, cfg, ns, name);
    var d := Decide(x, cfg, ns, name);
    if d.Ready? { PassAside(x, y, ns, name, d.k, ip); }
  }

  /** What a request leaves differs from its plan in statuses only. */
  lemma LeftAside(st: Store, end: Store, cfg: Config, ns: string, name: string, ip: Allocator)
    requires Left(st, end, cfg, ns, name, ip)
    ensures SameButStatus(end, Reconciled(st, cfg, ns, name, ip))
  {
    hide Decide, Reconciled, FindTrustedCA, Publishable, Clean, Verdict, InFootprint;
    var planned := Reconciled(st, cfg, ns, name, ip);
    OwnStatus(st, cfg, ns, name, ip);
    forall key: Key | key.kind == UpdateServiceKind ensures SpecAt(end, key) == SpecAt(planned, key) {
      if key != InstanceKey(ns, name) { assert Lookup(end, key) == Lookup(planned, key); }
    }
  }

  lemma OwnStatus(st: Store, cfg: Config, ns: string, name: string, ip: Allocator)
    ensures Lookup(Reconciled(st, cfg, ns, name, ip), InstanceKey(ns, name)) == Lookup(st, InstanceKey(ns, name))
  {
    hide Decide, AfterPass, InFootprint;
    var d := Decide(st, cfg, ns, name);
    NotOwnInstance(ns, name);
    if d.Ready? { PassFrame(st, ns, name, d.k, ip, InstanceKey(ns, name)); }
  }

  // ---- Two requests ------------------------------------------------------

  /** After an undisturbed request that got as far as its status, the next one for
      the same instance issues no create, update or delete exactly when the tag
      is settled. */
  lemma SecondRequestQuiet(st: Store, end: Store, cfg: Config, ns: string, name: string, ip: Allocator)
    requires Decide(st, cfg, ns, name).Ready? && ns != Names.OPENSHIFT_CONFIG
    requires Left(st, end, cfg, ns, name, ip)
    ensures Issued(end, cfg, ns, name, ip) == [] <==> TagSettled(st, ns, name)
  {
    hide Decide, Left, Issued, Reconciled, TagSettled, SameButStatus;
    LeftAside(st, end, cfg, ns, name, ip);
    PlanAside(end, Reconciled(st, cfg, ns, name, ip), cfg, ns, name, ip);
    Converges(st, cfg, ns, name, ip);
  }

  /** Undisturbed requests for two instances that are not related, with pinned
      images, leave the same objects in either order, statuses aside; only the
      owner of a newly created bundle depends on who came first. */
  lemma OrderOfRequests(st: Store, a1: Store, a2: Store, b1: Store, b2: Store, cfg: Config, ns: string,
                        a: string, b: string, ip: Allocator, key: Key)
    requires Apart(ns, a, b) && a != "cluster" && b != "cluster"
    requires Pinned(ImageAt(st, ns, a)) && Pinned(ImageAt(st, ns, b))
    requires Left(st, a1, cfg, ns, a, ip) && Left(a1, a2, cfg, ns, b, ip)
    requires Left(st, b1, cfg, ns, b, ip) && Left(b1, b2, cfg, ns, a, ip)
    requires key.kind != UpdateServiceKind
    ensures key != ClusterCAKey(ns) ==> Lookup(a2, key) == Lookup(b2, key)
    ensures SameBody(Lookup(a2, key), Lookup(b2, key))
  {
    hide Left, Reconciled, Pinned, ImageAt;
    TwoInOrder(st, a1, a2, cfg, ns, a, b, ip, key);
    TwoInOrder(st, b1, b2, cfg, ns, b, a, ip, key);
    OrderImmaterial(st, cfg, ns, a, b, ip, key);
  }

  /** Two requests leave what their plans say, one after the other. */
  lemma TwoInOrder(st: Store, mid: Store, end: Store, cfg: Config, ns: string, a: string, b: string, ip: Allocator,
        key: Key)
    requires Left(st, mid, cfg, ns, a, ip) && Left(mid, end, cfg, ns, b, ip) && key.kind != UpdateServiceKind
    ensures Lookup(end, key) == Lookup(Reconciled(Reconciled(st, cfg, ns, a, ip), cfg, ns, b, ip), key)
  {
    hide Left, Reconciled;
    LeftAside(st, mid, cfg, ns, a, ip);
    LeftAside(mid, end, cfg, ns, b, ip);
    PlanAside(mid, Reconciled(st, cfg, ns, a, ip), cfg, ns, b, ip);
    assert Lookup(end, key) == Lookup(Reconciled(mid, cfg, ns, b, ip), key);
  }

  /** After undisturbed requests for two instances, the next ones for both issue no
      create, update or delete exactly when the tags are settled and neither
      contests the other's route. */
  lemma RestOfRequests(st: Store, mid: Store, end: Store, cfg: Config, ns: string, a: string, b: string, ip: Allocator)
    requires WellKinded(st) && a != b && ns != Names.OPENSHIFT_CONFIG
    requires Decide(st, cfg, ns, a).Ready? && Decide(st, cfg, ns, b).Ready?
    requires Left(st, mid, cfg, ns, a, ip) && Left(mid, end, cfg, ns, b, ip)
    ensures Issued(end, cfg, ns, a, ip) == [] && Issued(end, cfg, ns, b, ip) == []
            <==> Together.TagsSettled(st, ns, a, b) && Together.RoutesApart(st, ns, a, b)
  {
    hide Decide, Left, Issued, Reconciled, WellKinded, SameButStatus, Together.TagsSettled, Together.RoutesApart;
    var first := Reconciled(st, cfg, ns, a, ip);
    var planned := Reconciled(mid, cfg, ns, b, ip);
    LeftAside(st, mid, cfg, ns, a, ip);
    LeftAside(mid, end, cfg, ns, b, ip);
    PlanAside(mid, first, cfg, ns, b, ip);
    forall c ensures Issued(end, cfg, ns, c, ip) == Issued(Reconciled(first, cfg, ns, b, ip), cfg, ns, c, ip) {
      PlanAside(end, planned, cfg, ns, c, ip);
      PlanAside(planned, Reconciled(first, cfg, ns, b, ip), cfg, ns, c, ip);
    }
    Together.RestTogether(st, cfg, ns, a, b, ip);
  }
}
