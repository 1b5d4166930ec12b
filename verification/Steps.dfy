/** What the calls of a reconciliation amount to: step by step, for a pass, and
    for a whole request. */
module Steps {
  import opened Text
  import opened Objects
  import opened Slots
  import opened Resources
  import opened Plan
  import opened Conditions
  import opened Guarantee
  import opened Trails
  import Convergence
  import Isolation
  import Merge
  import Names
  import RouteName
  import Server

  // ---- The calls --------------------------------------------------------

  /** What a search reports is what was there to find. */
  predicate Judged(s: Sought, data: Option<Labels>, err: bool) {
    (err <==> s.Dangling?) && (!err ==> data == CertificateData(s))
  }

  /** How a step ended, and whether the server reported success. */
  datatype Tried = Unread(ok: bool) | InSync(ok: bool) | Created(ok: bool) | Updated(ok: bool)

  predicate Comparable(kind: Kind) {
    kind == ConfigMapKind || kind == SecretKind || kind == ServiceKind || kind == BudgetKind || kind == NetworkPolicyKind
  }

  /** Refuses an object that somebody else owns. */
  function SetOwner(o: Object, name: string): Option<Object> {
    if Ownable(o, name) then Some(Owned(o, name)) else None
  }

  ghost predicate SameEntry(was: map<Key, Server.Entry>, now: map<Key, Server.Entry>, key: Key) {
    (key in now <==> key in was) && (key in now ==> now[key] == was[key])
  }

  predicate EndsWith(log: seq<Event>, e: Event) { log != [] && log[|log| - 1] == e }

  lemma NoDigest(o: Object)
    requires Comparable(KindOf(o.body))
    ensures DigestOf(o).None?
  {}

  lemma NotPod(key: Key, ns: string)
    requires Comparable(key.kind)
    ensures key != PodKey(ns)
  {}

  lemma OverwriteKind(found: Object, desired: Object)
    ensures KindOf(Overwrite(found, desired).body) == KindOf(found.body)
  {}

  /** A create as the server reports it continues the pass. */
  lemma CreateStep(g: Grant, start: seq<Event>, before: seq<Event>, e: Event, desired: Object)
    requires Continues(g, start, before) && !g.refused && (g.pinned ==> e.key != PodKey(g.ns))
    requires e.Write? && e.verb == Create && JustMissed(before, e.key) && e.key != OldRouteKey(g.ns, g.name)
    requires e.was == e.now || (e.was.None? && e.now.Some? && Server.Admitted(desired, e.now.value))
    requires InFootprint(g.ns, g.name, e.key) && desired.meta.owner == Some(g.name) && DigestOf(desired).None?
    ensures Continues(g, start, before + [e])
  {
    hide InFootprint, DigestOf, LastDigest, WithAddress;
    if e.was != e.now { CreatePermitted(g, before, e, desired, e.now.value); }
    ContinueOne(g, start, before, e);
  }

  lemma UpdateStep(g: Grant, start: seq<Event>, before: seq<Event>, e: Event, found: Object, desired: Object)
    requires Continues(g, start, before) && !g.refused && (g.pinned ==> e.key != PodKey(g.ns))
    requires e.Write? && e.verb == Update && JustFound(before, e.key, found)
    requires e.was == e.now || (e.was == Some(found) && e.now == Some(Overwrite(found, desired)))
    requires InFootprint(g.ns, g.name, e.key)
    requires e.key == ClusterCAKey(g.ns) ==> g.name == "cluster" || ReadsDisagree(before, e.key)
    ensures Continues(g, start, before + [e])
  {
    hide InFootprint, DigestOf, LastDigest, Overwrite;
    if e.was != e.now { OverwritePermitted(g, before, e, found, desired); }
    ContinueOne(g, start, before, e);
  }

  lemma DeleteStep(g: Grant, start: seq<Event>, before: seq<Event>, e: Event)
    requires Continues(g, start, before) && !g.refused && !g.pinned
    requires e.Write? && e.verb == Delete && e.key == PodKey(g.ns) && JustDone(before, e.key)
    requires (e.was == e.now || e.now.None?)
    ensures Continues(g, start, before + [e])
  {
    ContinueOne(g, start, before, e);
  }

  lemma StatusStep(g: Grant, start: seq<Event>, e: Event, found: Object, status: Status)
    requires e.Write? && e.verb == UpdateStatus && e.key == InstanceKey(g.ns, g.name)
    requires found.body.UpdateService? && Publishable(status)
    requires var now := found.(body := UpdateService(found.body.spec, status));
             e.was == e.now || (e.was == Some(found) && e.now == Some(now))
    ensures Continues(g, start, start + [e])
  {
    hide Publishable;
    ContinueNone(g, start);
    ContinueOne(g, start, start, e);
  }

  lemma CreatedDigest(k: Resources, name: string)
    requires k.deployment.body.Deployment? && Merge.Proper(WantedOf(k))
    ensures DigestOf(Owned(k.deployment, name)).None?
  {
    Merge.ShaKeyApart(WantedOf(k));
  }

  lemma MergeStep(g: Grant, start: seq<Event>, before: seq<Event>, e: Event, found: Object, w: Merge.Wanted,
        sha: string)
    requires Continues(g, start, before) && !g.refused && found.body.Deployment? && Merge.Proper(w)
    requires e.Write? && e.verb == Update && e.key == DeploymentKey(g.ns, g.name)
    requires JustFound(before, e.key, found)
    requires e.was == e.now
             || (e.was == Some(found)
                 && e.now == Some(found.(body := Deployment(Merge.Merge(found.body.deployment, w, sha)))))
    requires sha == Resolved(g, before)
    ensures Continues(g, start, before + [e])
  {
    hide Merge.Merge, Merge.Proper, Resolved;
    if e.was != e.now { MergePermitted(g, before, e, found, found.body.deployment, w, sha); }
    ContinueOne(g, start, before, e);
  }

  // ---- What a calm cluster keeps ----------------------------------------

  /** Nothing changed but, unless it is barred, the object under the key. */
  ghost predicate OnlyAt(was: map<Key, Server.Entry>, now: map<Key, Server.Entry>, key: Key, barred: set<Key>) {
    Server.OthersKept(was, now, key) && (key in barred ==> now == was)
  }

  /** The objects under all these keys are as they were. */
  ghost predicate Spared(was: map<Key, Server.Entry>, now: map<Key, Server.Entry>, keys: set<Key>) {
    forall key | key in keys :: SameEntry(was, now, key)
  }

  lemma SparedNone(was: map<Key, Server.Entry>, keys: set<Key>)
    ensures Spared(was, was, keys)
  {}

  lemma SparedOn(was: map<Key, Server.Entry>, mid: map<Key, Server.Entry>, now: map<Key, Server.Entry>, keys: set<Key>)
    requires Spared(was, mid, keys) && Spared(mid, now, keys)
    ensures Spared(was, now, keys)
  {
    forall key | key in keys ensures SameEntry(was, now, key) {
      assert SameEntry(was, mid, key) && SameEntry(mid, now, key);
    }
  }

  lemma SparedBut(was: map<Key, Server.Entry>, now: map<Key, Server.Entry>, key: Key, barred: set<Key>)
    requires OnlyAt(was, now, key, barred)
    ensures Spared(was, now, barred)
  {}

  lemma SparedAt(was: map<Key, Server.Entry>, now: map<Key, Server.Entry>, key: Key, barred: set<Key>,
                 ns: string, name: string)
    requires OnlyAt(was, now, key, barred) && key.kind != UpdateServiceKind
    ensures Spared(was, now, barred + {InstanceKey(ns, name)})
  {}

  lemma SparedFewer(was: map<Key, Server.Entry>, now: map<Key, Server.Entry>, barred: set<Key>, key: Key)
    requires Spared(was, now, barred + {key})
    ensures Spared(was, now, barred) && SameEntry(was, now, key)
  {
    assert key in barred + {key};
    forall k | k in barred ensures SameEntry(was, now, k) { assert k in barred + {key}; }
  }

  // ---- Which calls were made --------------------------------------------

  lemma ContinueLonger(g: Grant, past: seq<Event>, log: seq<Event>)
    requires Continues(g, past, log)
    ensures past <= log
  {}

  lemma ComparedEnds(past: seq<Event>, log: seq<Event>, key: Key, desired: Object)
    requires Compared(past, log, key, desired)
    ensures past < log && !JustMissed(log, key)
  {}

  lemma BundledOn(past: seq<Event>, mid: seq<Event>, log: seq<Event>, key: Key, template: Object, name: string)
    requires Asked(past, mid, key) && mid[|past|].reply.NotFound? && Ownable(template, name)
    requires Compared(mid, log, key, Owned(template, name))
    ensures Bundled(past, log, key, template, name)
  {
    hide Compared;
    ComparedEnds(mid, log, key, Owned(template, name));
    assert mid == past + [log[|past|]];
  }

  lemma RoutedEnds(past: seq<Event>, log: seq<Event>, ns: string, name: string, desired: Object)
    requires Routed(past, log, ns, name, desired)
    ensures past < log
  {
    hide Compared;
    if log[|past|].reply.NotFound? {
      ComparedEnds(past + [log[|past|]], log, RouteKey(ns, name), desired);
    } else {
      ComparedEnds(past, log, OldRouteKey(ns, name), desired);
    }
  }

  /** Each ensure function makes the calls of its step and returns an error
      exactly when its step fails. */
  lemma StepVerdict(i: nat, g: Grant, k: Resources, past: seq<Event>, log: seq<Event>, err: bool)
    requires i < STEPS
    requires i == 3 || i == 4 ==> StepTrail(i, g.ns, g.name, k, past, log) && (err <==> StepFails(i, g.ns, past, log))
    requires i == 8 ==> Routed(past, log, g.ns, g.name, Owned(k.route, g.name))
    requires i < 3 || i == 5 || i == 6 || i == 7 || i == 9 ==>
               var s := SlotAt(i, g.ns, g.name, k, false); Compared(past, log, s.key, s.desired)
    requires i != 3 && i != 4 ==> (err <==> EndsBadly(log) && !(i >= 7 && JustUpdated(log)))
    ensures StepTrail(i, g.ns, g.name, k, past, log) && (err <==> StepFails(i, g.ns, past, log))
  {
    hide SlotAt, Compared, Routed;
    RouteSlot(g, k);
    if i == 8 {
      RoutedEnds(past, log, g.ns, g.name, Owned(k.route, g.name));
    } else if i != 3 && i != 4 {
      var s := SlotAt(i, g.ns, g.name, k, false);
      ComparedEnds(past, log, s.key, s.desired);
      AlwaysCompared(i, g, k);
    }
  }

  lemma AlwaysCompared(i: nat, g: Grant, k: Resources)
    requires i < STEPS && i != 3 && i != 4
    ensures SlotAt(i, g.ns, g.name, k, false).rule.Compare?
  {}

  lemma RouteKept(mid: seq<Event>, log: seq<Event>, key: Key, desired: Object, r: Reply)
    requires match r
             case Failure => log == mid
             case NotFound => Added(mid, log, key, desired)
             case Found(found, _) => log == mid || Replaced(mid, log, key, found, Overwrite(found, desired))
    ensures mid <= log
  {
    hide Overwrite, Server.Admitted;
  }

  /** The route as it was found. */
  lemma RoutedBy(past: seq<Event>, mid: seq<Event>, log: seq<Event>, ns: string, name: string, desired: Object,
                 key: Key, r: Reply)
    requires if key == OldRouteKey(ns, name) then mid == past + [Read(key, r)] && !r.NotFound?
             else key == RouteKey(ns, name) && mid == past + [Read(OldRouteKey(ns, name), NotFound)] + [Read(key, r)]
    requires match r
             case Failure => log == mid
             case NotFound => Added(mid, log, key, desired)
             case Found(found, _) =>
               if Overwrite(found, desired) == found then log == mid
               else Replaced(mid, log, key, found, Overwrite(found, desired))
    ensures Routed(past, log, ns, name, desired)
  {
    hide Overwrite, Added, Replaced, Names.PolicyEngineRoute, Names.OldPolicyEngineRoute;
    RouteKept(mid, log, key, desired, r);
    var first := past + [log[|past|]];
    if key == OldRouteKey(ns, name) {
      assert mid == first;
    } else {
      assert log[|past|] == mid[|past|] && log[|first|] == mid[|first|];
      assert mid == first + [log[|first|]];
    }
  }

  lemma MarchedEnds(g: Grant, k: Resources, past: seq<Event>, log: seq<Event>, marks: seq<nat>, err: bool)
    requires Marched(g.ns, g.name, k, past, log, marks, err)
    ensures marks != [] && marks[|marks| - 1] == |log|
  {
    hide Trodden, Fails;
  }

  lemma EnsuredAll(g: Grant, image: string, past: seq<Event>, log1: seq<Event>, log2: seq<Event>, log: seq<Event>,
                   t: Trail, err: bool)
    requires t.Ran? && t.looked == |log2|
    requires Marched(g.ns, g.name, t.k, past, log1, t.marks, t.stopped) && past <= log1 <= log2 <= log
    requires Resolving(log1, log2, g.ns, g.name, image, t.sha) && t.k.deployment.body.Deployment?
    requires Merged(log2, log, DeploymentKey(g.ns, g.name), Owned(t.k.deployment, g.name), WantedOf(t.k), t.sha)
    requires err <==> EndsBadly(log)
    ensures Ensured(g.ns, g.name, image, past, log, t, err)
  {
    hide Marched, Resolving, Merged;
    MarchedEnds(g, t.k, past, log1, t.marks, t.stopped);
    assert log[..|log1|] == log1 && log[..|log2|] == log2;
  }

  lemma PassageRuns(cfg: Config, ns: string, name: string, spec: Spec, past: seq<Event>, mid: seq<Event>,
                    log: seq<Event>, t: Trail, err: bool)
    requires t.Ran? && t.scouted == |mid| && past <= mid <= log
    requires Scouted(cfg, ns, name, spec, past, mid, t.searched, Some(t.k))
    requires Ensured(ns, name, spec.graphDataImage, mid, log, t, err)
    ensures Passage(cfg, ns, name, spec, past, log, t, err)
  {
    hide Scouted, Ensured;
    assert log[..|mid|] == mid;
  }

  lemma FinishedWell(cfg: Config, ns: string, name: string, spec: Spec, past: seq<Event>, mid: seq<Event>,
                     log: seq<Event>, t: Trail)
    requires past <= mid && Passage(cfg, ns, name, spec, past, mid, t, false) && StatusWritten(ns, name, mid, log)
    ensures Finished(cfg, ns, name, spec, false, past, log, t, false)
  {
    hide Passage;
    assert log[..|log| - 1] == mid;
  }

  // ---- Single steps -----------------------------------------------------

  /** An undisturbed step did what its slot says. */
  ghost predicate Stepped(was: Store, muts: seq<Event>, now: Store, muts': seq<Event>, s: Slot, ip: Allocator) {
    now == ApplyOne(was, s, ip) && muts' == muts + Issue(was, s, ip)
  }

  lemma CreateStepped(st: Store, muts: seq<Event>, e: Event, s: Slot, ip: Allocator)
    requires s.key !in st && !s.rule.Skip? && e == Write(Create, s.key, true, None, Some(Admit(s.key, s.desired, ip)))
    ensures Stepped(st, muts, st[s.key := Admit(s.key, s.desired, ip)], muts + Server.Mutation(e), s, ip)
  {
    hide Admit;
  }

  lemma UpdateStepped(st: Store, muts: seq<Event>, e: Event, s: Slot, ip: Allocator)
    requires s.key in st && !s.rule.Skip? && Adjust(st[s.key], s) != st[s.key]
    requires e == Write(Update, s.key, true, Some(st[s.key]), Some(Adjust(st[s.key], s)))
    ensures Stepped(st, muts, st[s.key := Adjust(st[s.key], s)], muts + Server.Mutation(e), s, ip)
  {
    hide Adjust;
  }

  lemma DeploymentAdjust(g: Grant, k: Resources, sha: string, obj: Object)
    requires k.deployment.body.Deployment? && obj.body.Deployment?
    ensures KindOf(obj.body) == DeploymentKind
    ensures var spec := Merge.Merge(obj.body.deployment, WantedOf(k), sha);
            && Adjust(obj, DeploymentSlot(g.ns, g.name, k, sha))
               == (if Merge.HasGraphData(obj.body.deployment) then obj.(body := Deployment(spec)) else obj)
            && KindOf(Deployment(spec)) == DeploymentKind
  {
    hide Merge.Merge, Merge.HasGraphData;
  }

  lemma SyncStepped(st: Store, muts: seq<Event>, s: Slot, ip: Allocator)
    requires s.rule.Skip? || (s.key in st && Adjust(st[s.key], s) == st[s.key])
    ensures Stepped(st, muts, st, muts, s, ip)
  {
    hide Adjust;
  }

  /** On a missing object, comparing and creating are the same. */
  lemma CreateOnlyStep(st: Store, muts: seq<Event>, now: Store, muts': seq<Event>, s: Slot, ip: Allocator)
    requires s.rule.CreateOnly? && s.key !in st
    requires Stepped(st, muts, now, muts', s.(rule := Compare), ip)
    ensures Stepped(st, muts, now, muts', s, ip)
  {
    hide Admit;
  }

  /** Comparing with the TLS part set aside is comparing what gets written. */
  lemma RouteOverwrite(found: Object, desired: Object)
    requires found.body.Route? && desired.body.Route?
    ensures var d := desired.body.route;
            && Overwrite(found, desired) == found.(body := Route(d.(tls := found.body.route.tls), found.body.ingress))
            && (Overwrite(found, desired) == found <==> found.body.route.(tls := d.tls) == d)
  {}

  lemma RouteSlot(g: Grant, k: Resources)
    ensures SlotAt(8, g.ns, g.name, k, true) == Slot(OldRouteKey(g.ns, g.name), Owned(k.route, g.name), Compare)
    ensures SlotAt(8, g.ns, g.name, k, false) == Slot(RouteKey(g.ns, g.name), Owned(k.route, g.name), Compare)
  {}

  lemma SharedName(name: string)
    ensures Names.AdditionalTrustedCA(name) == Names.CLUSTER_CA ==> name == "cluster"
  {
    CancelSuffix(name, "cluster", "-trusted-ca");
    assert "cluster" + "-trusted-ca" == Names.CLUSTER_CA;
  }

  /** The certificate condition is turned true by one step only. */
  predicate CertifiedStep(i: nat, k: Resources, was: Option<bool>, now: Option<bool>) {
    if i == 4 && k.trustedCA.Some? then now == Some(true)
    else now == was || (i == 3 && now == Some(false))
  }

  /** An undisturbed look after the pod did what it should and reported the
      digest. */
  ghost predicate PodStepped(was: Store, muts: seq<Event>, now: Store, muts': seq<Event>, g: Grant, image: string,
        sha: string)
  {
    && now == PodStore(was, g.ns, g.name, image)
    && muts' == muts + PodIssue(was, g.ns, g.name, image)
    && sha == PodDigest(was, g.ns, image)
  }

  lemma PodAdmitted(key: Key, pod: Object, ip: Allocator)
    requires pod.body.Pod?
    ensures Admit(key, pod, ip) == pod
  {}

  /** What an undisturbed look after the pod amounts to, case by case. */
  lemma PodFacts(st: Store, muts: seq<Event>, g: Grant, image: string)
    ensures var key, pod := PodKey(g.ns), NewPod(g.name, image);
            && (Pinned(image) ==> PodStepped(st, muts, st, muts, g, image, ""))
            && (!Pinned(image) && key !in st ==>
                  PodStepped(st, muts, st[key := pod], muts + [Write(Create, key, true, None, Some(pod))], g, image, ""))
            && (!Pinned(image) && key in st && st[key].body.Pod? ==>
                  if st[key].body.phase.Succeeded?
                  then PodStepped(st, muts, st - {key}, muts + [Write(Delete, key, true, Some(st[key]), None)], g, image,
                                  "")
                  else PodStepped(st, muts, st, muts, g, image, DigestIn(st[key])))
  {
    hide Pinned;
  }

  lemma DigestAbout(log: seq<Event>, g: Grant, r: Reply)
    requires EndsWith(log, Read(PodKey(g.ns), r))
    ensures Resolved(g, log) == if g.pinned || !r.Found? then "" else DigestIn(r.obj)
  {}

  lemma DigestUnmoved(log: seq<Event>, e: Event, g: Grant)
    requires e.Write? || e.key != PodKey(g.ns)
    ensures Resolved(g, log + [e]) == Resolved(g, log)
  {
    assert (log + [e])[..|log|] == log;
  }

  lemma NoneResolved(g: Grant, log: seq<Event>)
    ensures g.pinned ==> Resolved(g, log) == ""
  {}

  // ---- The objects a pass works with ------------------------------------

  /** What the ensure steps rely on in the objects they are given. */
  ghost predicate Sound(k: Resources) {
    Convergence.Typed(k) && Merge.Proper(WantedOf(k)) && Unowned(k)
  }

  predicate Unowned(k: Resources) {
    && k.graphBuilderConfig.meta.owner.None? && k.envConfig.meta.owner.None? && k.pullSecret.meta.owner.None?
    && k.budget.meta.owner.None? && k.graphBuilderService.meta.owner.None? && k.policyEngineService.meta.owner.None?
    && k.route.meta.owner.None? && k.networkPolicy.meta.owner.None? && k.deployment.meta.owner.None?
    && (k.trustedCA.Some? ==> k.trustedCA.value.meta.owner.None?)
  }

  lemma RenderSound(cfg: Config, name: string, spec: Spec, secret: Labels, ca: Option<Labels>, cca: Option<Object>,
        k: Resources)
    requires Render(cfg, name, spec, secret, ca, cca) == Some(k)
    requires cca.Some? ==> cca.value.body.ConfigMap?
    ensures Sound(k) && (k.trustedCA.Some? <==> ca.Some?)
  {
    hide Merge.Proper;
    Convergence.RenderTyped(cfg, name, spec, secret, ca, cca, k);
    Convergence.RenderMergeable(cfg, name, spec, secret, ca, cca, k);
    RenderUnowned(cfg, name, spec, secret, ca, cca, k);
  }

  lemma RenderUnowned(cfg: Config, name: string, spec: Spec, secret: Labels, ca: Option<Labels>, cca: Option<Object>,
        k: Resources)
    requires Render(cfg, name, spec, secret, ca, cca) == Some(k)
    ensures Unowned(k) && (k.trustedCA.Some? <==> ca.Some?)
  {
    hide PartsOf, Volumes, GraphBuilderMounts;
  }

  /** Choosing the template first changes nothing. */
  lemma RenderAgain(cfg: Config, name: string, spec: Spec, secret: Labels, ca: Option<Labels>)
    ensures Render(cfg, name, spec, secret, ca, NewClusterCA(cfg.env, None)) == Render(cfg, name, spec, secret, ca, None)
  {
    hide PartsOf, NewEnvConfig, Volumes, GraphBuilderMounts, NewDeployment;
  }

  lemma ClusterCAKind(cfg: Config)
    ensures NewClusterCA(cfg.env, None).Some? ==> NewClusterCA(cfg.env, None).value.body.ConfigMap?
  {}

  lemma NoBundle()
    ensures ClusterCAFound(None) == None
  {}

  function Rendered(d: Decision): Option<Resources> {
    match d
    case Ready(k) => Some(k)
    case _ => None
  }

  lemma DecideIs(st: Store, cfg: Config, ns: string, name: string)
    requires ns == cfg.ns && SpecAt(st, InstanceKey(ns, name)).Some? && RouteName.Acceptable(name, ns)
    ensures var d := Decide(st, cfg, ns, name);
            if SecretAt(st, PULL_KEY).None? || FindTrustedCA(st).Dangling? then d == Blocked
            else Rendered(d) == Render(cfg, name, SpecAt(st, InstanceKey(ns, name)).value, SecretAt(st, PULL_KEY).value,
                                       CertificateData(FindTrustedCA(st)), ClusterCAFound(Lookup(st, ClusterCAKey(ns))))
  {
    hide Render, FindTrustedCA;
  }

  lemma DecideKinds(st: Store, cfg: Config, ns: string, name: string)
    requires ns == cfg.ns && SpecAt(st, InstanceKey(ns, name)).Some?
    ensures var d := Decide(st, cfg, ns, name);
            (d.Rejected? <==> !RouteName.Acceptable(name, ns)) && !d.Ignored?
  {
    hide Render, FindTrustedCA;
  }

  lemma EarlySlot(j: nat, g: Grant, k: Resources, oldRoute: bool)
    requires j < STEPS
    ensures var s := SlotAt(j, g.ns, g.name, k, oldRoute);
            (j < 3 ==> s.key != ClusterCAKey(g.ns)) && (j < 8 ==> s.key != OldRouteKey(g.ns, g.name))
  {
    StepNames(g.name);
  }

  lemma SlotOwner(i: nat, g: Grant, k: Resources)
    requires i < STEPS && i != 3 && i != 8
    ensures var s := SlotAt(i, g.ns, g.name, k, false);
            s.rule.Skip? || (s.rule.Compare? && s.desired.meta.owner == Some(g.name))
  {}

  lemma StepFacts(i: nat, g: Grant, k: Resources)
    requires i < STEPS && Sound(k)
    ensures var s := SlotAt(i, g.ns, g.name, k, false);
            && (i != 3 && i != 8 && !s.rule.Skip? ==>
                  s.rule.Compare? && KindOf(s.desired.body) == s.key.kind && s.desired.meta.owner == Some(g.name))
            && InFootprint(g.ns, g.name, s.key) && s.key.kind != UpdateServiceKind
            && (i < 3 ==> s.key != ClusterCAKey(g.ns))
  {
    hide SlotAt, KindOf, InFootprint, Unowned, Merge.Proper;
    EarlySlot(i, g, k, false);
    SlotFootprint(i, g.ns, g.name, k, false);
    Convergence.SlotKinds(i, g.ns, g.name, k, false);
    if i != 3 && i != 8 { SlotOwner(i, g, k); }
  }

  // ---- All steps --------------------------------------------------------

  /** The first n undisturbed steps did what their slots say. */
  ghost predicate StepsDone(st: Store, muts: seq<Event>, now: Store, muts': seq<Event>, g: Grant, k: Resources, n: nat,
        ip: Allocator)
    requires n <= STEPS
  {
    var ss := SlotsOf(g.ns, g.name, k, OldRouteKey(g.ns, g.name) in st)[..n];
    now == ApplyAll(st, ss, ip) && muts' == muts + IssueAll(st, ss, ip)
  }

  lemma StepsNone(st: Store, muts: seq<Event>, g: Grant, k: Resources, ip: Allocator)
    ensures StepsDone(st, muts, st, muts, g, k, 0, ip)
  {}

  /** The steps so far have not touched what the next one looks at. */
  lemma StepAhead(st: Store, muts: seq<Event>, mid: Store, muts': seq<Event>, g: Grant, k: Resources, i: nat,
        ip: Allocator)
    requires i < STEPS && StepsDone(st, muts, mid, muts', g, k, i, ip)
    ensures i == 3 ==> Lookup(mid, ClusterCAKey(g.ns)) == Lookup(st, ClusterCAKey(g.ns))
    ensures i == 8 ==> Lookup(mid, OldRouteKey(g.ns, g.name)) == Lookup(st, OldRouteKey(g.ns, g.name))
  {
    hide Settle, SlotAt, ApplyAll, IssueAll;
    var oldRoute := OldRouteKey(g.ns, g.name) in st;
    var ss := SlotsOf(g.ns, g.name, k, oldRoute)[..i];
    forall j | 0 <= j < i
      ensures i == 3 ==> ss[j].key != ClusterCAKey(g.ns)
      ensures i == 8 ==> ss[j].key != OldRouteKey(g.ns, g.name)
    {
      EarlySlot(j, g, k, oldRoute);
    }
    if i == 3 { ApplyFrame(st, ss, ClusterCAKey(g.ns), ip); }
    if i == 8 { ApplyFrame(st, ss, OldRouteKey(g.ns, g.name), ip); }
  }

  lemma OneFurther(st: Store, ss: seq<Slot>, i: nat, ip: Allocator)
    requires i < |ss|
    ensures ApplyAll(st, ss[..i + 1], ip) == ApplyOne(ApplyAll(st, ss[..i], ip), ss[i], ip)
    ensures IssueAll(st, ss[..i + 1], ip) == IssueAll(st, ss[..i], ip) + Issue(ApplyAll(st, ss[..i], ip), ss[i], ip)
  {
    hide ApplyOne, Issue;
    assert ss[..i + 1][..i] == ss[..i];
  }

  lemma SameSlot(i: nat, g: Grant, k: Resources, a: bool, b: bool)
    requires i < STEPS && (i == 8 ==> a == b)
    ensures SlotAt(i, g.ns, g.name, k, a) == SlotAt(i, g.ns, g.name, k, b)
  {}

  lemma StepTaken(st: Store, muts: seq<Event>, mid: Store, before: seq<Event>, now: Store, after: seq<Event>,
                  g: Grant, k: Resources, i: nat, ip: Allocator)
    requires i < STEPS && StepsDone(st, muts, mid, before, g, k, i, ip)
    requires Stepped(mid, before, now, after, SlotAt(i, g.ns, g.name, k, OldRouteKey(g.ns, g.name) in mid), ip)
    ensures StepsDone(st, muts, now, after, g, k, i + 1, ip)
  {
    hide Issue, ApplyOne, ApplyAll, IssueAll, SlotAt;
    StepAhead(st, muts, mid, before, g, k, i, ip);
    SameSlot(i, g, k, OldRouteKey(g.ns, g.name) in mid, OldRouteKey(g.ns, g.name) in st);
    OneFurther(st, SlotsOf(g.ns, g.name, k, OldRouteKey(g.ns, g.name) in st), i, ip);
  }

  /** What the steps, the look after the pod and the Deployment come to. */
  ghost predicate AllDone(st: Store, muts: seq<Event>, now: Store, muts': seq<Event>, g: Grant, k: Resources,
        image: string, ip: Allocator)
    requires k.deployment.body.Deployment?
  {
    var ss := SlotsOf(g.ns, g.name, k, OldRouteKey(g.ns, g.name) in st);
    var mid := ApplyAll(st, ss, ip);
    var pod := PodStore(mid, g.ns, g.name, image);
    var s := DeploymentSlot(g.ns, g.name, k, PodDigest(mid, g.ns, image));
    && now == ApplyOne(pod, s, ip)
    && muts' == muts + (IssueAll(st, ss, ip) + PodIssue(mid, g.ns, g.name, image) + Issue(pod, s, ip))
  }

  lemma AllTaken(st: Store, muts: seq<Event>, st1: Store, muts1: seq<Event>, st2: Store, muts2: seq<Event>,
                 now: Store, muts': seq<Event>, g: Grant, k: Resources, image: string, sha: string, ip: Allocator)
    requires k.deployment.body.Deployment?
    requires StepsDone(st, muts, st1, muts1, g, k, STEPS, ip)
    requires PodStepped(st1, muts1, st2, muts2, g, image, sha)
    requires Stepped(st2, muts2, now, muts', DeploymentSlot(g.ns, g.name, k, sha), ip)
    ensures AllDone(st, muts, now, muts', g, k, image, ip)
  {
    hide ApplyOne, Issue, PodStore, PodIssue, PodDigest, DeploymentSlot;
    var ss := SlotsOf(g.ns, g.name, k, OldRouteKey(g.ns, g.name) in st);
    assert ss[..STEPS] == ss;
  }

  // ---- A pass -----------------------------------------------------------

  /** An undisturbed pass did what the plan says. */
  ghost predicate Passed(st: Store, muts: seq<Event>, now: Store, muts': seq<Event>, cfg: Config, g: Grant,
        ip: Allocator)
  {
    && now == Reconciled(st, cfg, g.ns, g.name, ip)
    && muts' == muts + Issued(st, cfg, g.ns, g.name, ip)
  }

  lemma PassDone(st: Store, muts: seq<Event>, now: Store, muts': seq<Event>, cfg: Config, g: Grant, k: Resources,
        image: string, ip: Allocator)
    requires k.deployment.body.Deployment? && AllDone(st, muts, now, muts', g, k, image, ip)
    requires Decide(st, cfg, g.ns, g.name) == Ready(k) && ImageAt(st, g.ns, g.name) == image
    ensures Passed(st, muts, now, muts', cfg, g, ip)
  {
    hide Decide, ApplyOne, Issue, IssueAll, ApplyAll, PodStore, PodIssue, PodDigest, DeploymentSlot, SlotsOf;
  }

  /** What follows from a decision. */
  lemma DecideFacts(st: Store, muts: seq<Event>, cfg: Config, g: Grant, ip: Allocator)
    ensures var d := Decide(st, cfg, g.ns, g.name);
            && (!d.Ready? ==> Passed(st, muts, st, muts, cfg, g, ip))
            && (d.Ready? ==>
                  && (d.k.clusterCA.Some? && ClusterCAKey(g.ns) !in st ==> d.k.clusterCA.value.meta.owner.None?)
                  && (d.k.trustedCA.Some? <==> FindTrustedCA(st).Certificates?))
  {
    hide Decide, FindTrustedCA, AfterPass, PassIssues;
    var d := Decide(st, cfg, g.ns, g.name);
    if d.Ready? {
      Isolation.BundleTemplate(st, cfg, g.ns, g.name);
      Convergence.DecideTrusted(st, cfg, g.ns, g.name);
    }
  }

  // ---- A request --------------------------------------------------------

  const MINUTES := 5

  /** What an undisturbed request leaves in the store: the plan's objects, and
      in the instance's status what was decided. */
  ghost predicate Left(st: Store, end: Store, cfg: Config, ns: string, name: string, ip: Allocator) {
    var key := InstanceKey(ns, name);
    && (forall k | k != key :: Lookup(end, k) == Lookup(Reconciled(st, cfg, ns, name, ip), k))
    && Told(Decide(st, cfg, ns, name), FindTrustedCA(st).Certificates?, Lookup(st, key), Lookup(end, key))
  }

  /** The status of an instance says that reconciliation was completed. */
  ghost predicate SaysCompleted(o: Option<Object>) {
    && o.Some? && o.value.body.UpdateService?
    && Verdict(o.value.body.status.conditions, ReconcileCompleted) == Some(true)
  }

  ghost predicate Told(d: Decision, certificates: bool, was: Option<Object>, now: Option<Object>) {
    match d
    case Rejected =>
      && was.Some? && now.Some? && StatusOnly(was.value, now.value)
      && var cs := now.value.body.status.conditions; |cs| == 1 && cs[0].kind == ReconcileError && cs[0].holds
    case Ready(_) =>
      && was.Some? && now.Some? && StatusOnly(was.value, now.value)
      && var cs := now.value.body.status.conditions;
         && Clean(cs) && Verdict(cs, ReconcileCompleted) == Some(true)
         && Verdict(cs, RegistryCACertFound) == Some(certificates)
    case _ => now == was
  }

  lemma NewStatusClean()
    ensures Clean([])
  {}

  lemma RefusedStatus(cs: seq<Condition>, uri: string)
    requires cs == SetCondition([], Condition(ReconcileError, true, "Unable to create UpdateService route"))
    ensures |cs| == 1 && cs[0].kind == ReconcileError && cs[0].holds && Publishable(Status(cs, uri))
  {}

  lemma CompletedStatus(s: Status)
    requires Clean(s.conditions) && Verdict(s.conditions, ReconcileCompleted) == Some(true)
    ensures Publishable(s)
  {}

  lemma IdleLeft(st: Store, cfg: Config, ns: string, name: string, ip: Allocator)
    ensures ns != cfg.ns || InstanceKey(ns, name) !in st ==>
              && Decide(st, cfg, ns, name).Ignored? && Issued(st, cfg, ns, name, ip) == []
              && Left(st, st, cfg, ns, name, ip)
  {
    hide Render, FindTrustedCA, Clean, Verdict;
  }

  lemma RejectLeft(st: Store, cfg: Config, ns: string, name: string, ip: Allocator, s: Status)
    requires Decide(st, cfg, ns, name).Rejected? && Publishable(s)
    requires |s.conditions| == 1 && s.conditions[0].kind == ReconcileError && s.conditions[0].holds
    requires SpecAt(st, InstanceKey(ns, name)).Some?
    ensures Issued(st, cfg, ns, name, ip) == []
    ensures var key := InstanceKey(ns, name);
            Left(st, st[key := st[key].(body := UpdateService(st[key].body.spec, s))], cfg, ns, name, ip)
  {
    hide Decide, FindTrustedCA, Publishable, Clean, Verdict;
  }

  lemma BlockedLeft(st: Store, cfg: Config, ns: string, name: string, ip: Allocator)
    requires Decide(st, cfg, ns, name).Blocked?
    ensures Left(st, Reconciled(st, cfg, ns, name, ip), cfg, ns, name, ip)
  {
    hide Decide, FindTrustedCA, Clean, Verdict;
  }

  lemma ReadyLeft(st: Store, mid: Store, cfg: Config, g: Grant, ip: Allocator, s: Status)
    requires Decide(st, cfg, g.ns, g.name).Ready? && mid == Reconciled(st, cfg, g.ns, g.name, ip)
    requires Publishable(s) && Clean(s.conditions) && Verdict(s.conditions, ReconcileCompleted) == Some(true)
    requires Verdict(s.conditions, RegistryCACertFound) == Some(FindTrustedCA(st).Certificates?)
    ensures var key := InstanceKey(g.ns, g.name);
            SpecAt(st, key).Some? &&
            Left(st, mid[key := st[key].(body := UpdateService(st[key].body.spec, s))], cfg, g.ns, g.name, ip)
  {
    hide Decide, FindTrustedCA, Publishable, Clean, Verdict, Reconciled;
  }
}
