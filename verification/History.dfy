/** Runs of any length: requests in any order, reads that fail or are stale,
    calls that fail, and anything done by others in between. */
module History {
  import opened Text
  import opened Objects
  import opened Slots
  import opened Plan
  import opened Guarantee
  import opened Resources
  import Conditions
  import Convergence
  import Merge
  import RouteName
  import Steps
  import Trails

  predicate Writes(e: Event, key: Key) { e.Write? && e.key == key }

  /** What the operator's last write left under the key; init before any. */
  function After(init: Option<Object>, past: seq<Event>, log: seq<Event>, key: Key): Option<Object> {
    if |log| <= |past| then init
    else if Writes(log[|log| - 1], key) then log[|log| - 1].now
    else After(init, past, log[..|log| - 1], key)
  }

  /** Others leave alone what obs sees of the object: each write finds it as the
      last one left it. */
  ghost predicate Untouched<T(!new)>(init: Option<Object>, past: seq<Event>, log: seq<Event>, key: Key,
        obs: Option<Object> -> T)
  {
    forall i | |past| <= i < |log| && Writes(log[i], key) :: obs(log[i].was) == obs(After(init, past, log[..i], key))
  }

  lemma UntouchedBefore<T(!new)>(init: Option<Object>, past: seq<Event>, log: seq<Event>, key: Key,
        obs: Option<Object> -> T)
    requires |past| < |log| && Untouched(init, past, log, key, obs)
    ensures Untouched(init, past, log[..|log| - 1], key, obs)
  {
    var front := log[..|log| - 1];
    forall i | |past| <= i < |front| && Writes(front[i], key)
      ensures obs(front[i].was) == obs(After(init, past, front[..i], key))
    {
      assert front[..i] == log[..i] && front[i] == log[i];
    }
  }

  lemma BehavedBefore(ns: string, names: set<string>, past: seq<Event>, log: seq<Event>)
    requires |past| < |log| && Behaved(ns, names, past, log)
    ensures Behaved(ns, names, past, log[..|log| - 1])
  {
    hide Heeds, Opens;
    var front := log[..|log| - 1];
    forall i | |past| <= i < |front| ensures Opens(ns, names, front[i]) || Heeds(ns, names, front[..i], front[i]) {
      assert front[..i] == log[..i] && front[i] == log[i];
    }
  }

  /** A write was permitted to the pass under way. */
  lemma WriteHeeds(ns: string, names: set<string>, past: seq<Event>, log: seq<Event>, i: nat)
    requires Behaved(ns, names, past, log) && |past| <= i < |log| && log[i].Write?
    ensures Heeds(ns, names, log[..i], log[i])
  {
    hide Heeds;
    assert Opens(ns, names, log[i]) || Heeds(ns, names, log[..i], log[i]);
  }

  // ---- Whose calls they are ----------------------------------------------

  lemma {:induction false} HolderHonest(log: seq<Event>)
    ensures Holder(log).Some? ==>
              var g := Holder(log).value; g.refused <==> !RouteName.Acceptable(g.name, g.ns)
  {
    hide RouteName.Acceptable, Pinned;
    if log != [] { HolderHonest(log[..|log| - 1]); }
  }

  /** Over any run: apart from statuses, everything is written for an instance
      with an acceptable name. */
  lemma RefusedOnlyReport(ns: string, names: set<string>, past: seq<Event>, log: seq<Event>, i: nat)
    requires Behaved(ns, names, past, log) && |past| <= i < |log|
    requires log[i].Write? && !log[i].verb.UpdateStatus?
    ensures var h := Holder(log[..i]); h.Some? && h.value.name in names && RouteName.Acceptable(h.value.name, ns)
  {
    hide Holder, InFootprint, DigestStep, OwnPartOnly, RouteName.Acceptable;
    WriteHeeds(ns, names, past, log, i);
    HolderHonest(log[..i]);
  }

  /** Over any run: the pod is read, created or deleted only on behalf of an
      instance whose image, when the instance was last read, was not pinned. */
  lemma PinnedLeavesPod(ns: string, names: set<string>, past: seq<Event>, log: seq<Event>, i: nat)
    requires Behaved(ns, names, past, log) && |past| <= i < |log| && log[i].key == PodKey(ns)
    ensures var h := Holder(log[..i]); h.Some? && h.value.name in names && !h.value.pinned
  {
    hide Holder, PermittedWrite;
    assert Opens(ns, names, log[i]) || Heeds(ns, names, log[..i], log[i]);
  }

  /** Over any run: a create directly follows a read that found nothing, and an
      update one that found something and, if it takes effect, what it
      replaces; deleted is only the pod, directly after it was read as finished. */
  lemma WritesFollowReads(ns: string, names: set<string>, past: seq<Event>, log: seq<Event>, i: nat)
    requires Behaved(ns, names, past, log) && |past| <= i < |log| && log[i].Write? && !log[i].verb.UpdateStatus?
    ensures i > 0 && log[i - 1].Read? && log[i - 1].key == log[i].key
    ensures var reply := log[i - 1].reply;
            match log[i].verb
            case Create => reply.NotFound?
            case Update => reply.Found? && (log[i].was != log[i].now ==> log[i].was == Some(reply.obj))
            case _ => log[i].key == PodKey(ns) && reply.Found? && Trails.Done(reply.obj)
  {
    hide Holder, InFootprint, DigestStep, OwnPartOnly;
    WriteHeeds(ns, names, past, log, i);
    assert log[..i][i - 1] == log[i - 1];
  }

  /** Over any run: metadata is never changed, and nothing but the pod ever
      removed. */
  lemma MetadataKept(ns: string, names: set<string>, past: seq<Event>, log: seq<Event>, i: nat)
    requires Behaved(ns, names, past, log) && |past| <= i < |log| && log[i].Write? && log[i].was.Some?
    ensures log[i].now.None? ==> log[i].key == PodKey(ns)
    ensures log[i].now.Some? ==> log[i].now.value.meta == log[i].was.value.meta
  {
    hide Holder, InFootprint, DigestStep, LastDigest, Merge.ForeignKept, Conditions.Publishable;
    WriteHeeds(ns, names, past, log, i);
  }

  function AddressOf(o: Option<Object>): Option<string> {
    match o
    case Some(Object(_, Service(s))) => Some(s.clusterIP)
    case _ => None
  }

  /** Over any run: no write changes the address of a Service that is there, or
      removes it. */
  lemma AddressesKept(ns: string, names: set<string>, past: seq<Event>, log: seq<Event>, i: nat)
    requires Behaved(ns, names, past, log) && |past| <= i < |log|
    requires log[i].Write? && log[i].key.kind == ServiceKind && AddressOf(log[i].was).Some?
    ensures AddressOf(log[i].now) == AddressOf(log[i].was)
  {
    hide Holder, InFootprint, DigestStep, LastDigest;
    WriteHeeds(ns, names, past, log, i);
  }

  /** Over any run: of a Deployment that is there, every write keeps what is not
      the operator's. */
  lemma ForeignPartsKept(ns: string, names: set<string>, past: seq<Event>, log: seq<Event>, i: nat)
    requires Behaved(ns, names, past, log) && |past| <= i < |log| && log[i].Write? && log[i].was != log[i].now
    requires log[i].key.kind == DeploymentKind && log[i].was.Some? && log[i].was.value.body.Deployment?
    ensures log[i].now.Some? && log[i].now.value.body.Deployment?
    ensures Merge.ForeignKept(log[i].was.value.body.deployment, log[i].now.value.body.deployment)
  {
    hide Holder, InFootprint, DigestStep, LastDigest, Merge.ForeignKept;
    WriteHeeds(ns, names, past, log, i);
  }

  // ---- What others gave --------------------------------------------------

  /** What somebody last gave the object, as far as obs sees it: others by an edit
      that a later write found, or the operator by creating it. */
  ghost function Given<T(!new)>(init: Option<Object>, past: seq<Event>, log: seq<Event>, key: Key,
                                obs: Option<Object> -> Option<T>): Option<T>
    decreases |log|
  {
    if |log| <= |past| then obs(init)
    else
      var front, e := log[..|log| - 1], log[|log| - 1];
      if !Writes(e, key) then Given(init, past, front, key, obs)
      else if obs(e.was).None? then obs(e.now)
      else if obs(e.was) == obs(After(init, past, front, key)) then Given(init, past, front, key, obs)
      else obs(e.was)
  }

  /** Where no write changes what it finds, the object is as it was last given. */
  lemma {:induction false} GivenStays<T(!new)>(init: Option<Object>, past: seq<Event>, log: seq<Event>, key: Key,
                                               obs: Option<Object> -> Option<T>)
    requires forall i | |past| <= i < |log| && Writes(log[i], key) && obs(log[i].was).Some? ::
               obs(log[i].now) == obs(log[i].was)
    ensures obs(After(init, past, log, key)) == Given(init, past, log, key, obs)
    decreases |log|
  {
    if |past| < |log| {
      var front := log[..|log| - 1];
      assert forall i | 0 <= i < |front| :: front[i] == log[i];
      GivenStays(init, past, front, key, obs);
    }
  }

  // ---- Routes ------------------------------------------------------------

  function TLSOf(o: Option<Object>): Option<Option<TLS>> {
    match o
    case Some(Object(_, Route(r, _))) => Some(r.tls)
    case _ => None
  }

  lemma WriteKeepsTLS(g: Grant, before: seq<Event>, e: Event)
    requires Permitted(g, before, e) && e.Write? && e.key.kind == RouteKind && TLSOf(e.was).Some?
    ensures TLSOf(e.now) == TLSOf(e.was)
  {
    hide LastDigest, InFootprint;
  }

  /** Over any run, whatever others do to routes in between: no write changes the
      TLS part of a Route that is there, and none removes the Route. */
  lemma RoutesKeepTLS(ns: string, names: set<string>, past: seq<Event>, log: seq<Event>, i: nat)
    requires Behaved(ns, names, past, log) && |past| <= i < |log|
    requires log[i].Write? && log[i].key.kind == RouteKind && TLSOf(log[i].was).Some?
    ensures TLSOf(log[i].now) == TLSOf(log[i].was)
  {
    hide Permitted, TLSOf;
    WriteHeeds(ns, names, past, log, i);
    WriteKeepsTLS(Holder(log[..i]).value, log[..i], log[i]);
  }

  /** So after any run a Route has the TLS part that its users last gave it, or
      with which it was created. */
  lemma TLSAsGiven(ns: string, names: set<string>, init: Option<Object>, past: seq<Event>, log: seq<Event>, key: Key)
    requires Behaved(ns, names, past, log) && key.kind == RouteKind
    ensures TLSOf(After(init, past, log, key)) == Given(init, past, log, key, TLSOf)
  {
    hide Behaved, TLSOf;
    forall i | |past| <= i < |log| && Writes(log[i], key) && TLSOf(log[i].was).Some?
      ensures TLSOf(log[i].now) == TLSOf(log[i].was)
    {
      RoutesKeepTLS(ns, names, past, log, i);
    }
    GivenStays(init, past, log, key, TLSOf);
  }

  /** And a Service has the address it was last given. */
  lemma AddressAsGiven(ns: string, names: set<string>, init: Option<Object>, past: seq<Event>, log: seq<Event>,
                       key: Key)
    requires Behaved(ns, names, past, log) && key.kind == ServiceKind
    ensures AddressOf(After(init, past, log, key)) == Given(init, past, log, key, AddressOf)
  {
    hide Behaved, AddressOf;
    forall i | |past| <= i < |log| && Writes(log[i], key) && AddressOf(log[i].was).Some?
      ensures AddressOf(log[i].now) == AddressOf(log[i].was)
    {
      AddressesKept(ns, names, past, log, i);
    }
    GivenStays(init, past, log, key, AddressOf);
  }

  // ---- The cluster's bundle ----------------------------------------------

  function Itself(o: Option<Object>): Option<Object> { o }

  lemma WriteKeepsBundle(g: Grant, before: seq<Event>, e: Event)
    requires Permitted(g, before, e) && e.Write? && e.key == ClusterCAKey(g.ns)
    requires g.name != "cluster" && e.was.Some? && !ReadsDisagree(before, e.key)
    ensures e.now == e.was
  {
    hide LastDigest, InFootprint, OwnPartOnly;
  }

  /** Over any run, whatever data is injected in between: for instances that are
      not named "cluster" no write changes the bundle's ConfigMap once it is
      there, unless the two reads made just before disagree on that. */
  lemma BundleKept(ns: string, names: set<string>, past: seq<Event>, log: seq<Event>, i: nat)
    requires Behaved(ns, names, past, log) && "cluster" !in names && |past| <= i < |log|
    requires Writes(log[i], ClusterCAKey(ns)) && log[i].was.Some? && !ReadsDisagree(log[..i], ClusterCAKey(ns))
    ensures log[i].now == log[i].was
  {
    hide Permitted, ReadsDisagree;
    WriteHeeds(ns, names, past, log, i);
    WriteKeepsBundle(Holder(log[..i]).value, log[..i], log[i]);
  }

  /** So after any run it is as the platform last made it, or as it was created. */
  lemma BundleAsGiven(ns: string, names: set<string>, init: Option<Object>, past: seq<Event>, log: seq<Event>)
    requires Behaved(ns, names, past, log) && "cluster" !in names
    requires forall i | |past| <= i < |log| :: !ReadsDisagree(log[..i], ClusterCAKey(ns))
    ensures After(init, past, log, ClusterCAKey(ns)) == Given(init, past, log, ClusterCAKey(ns), Itself)
  {
    hide Behaved, ReadsDisagree;
    forall i | |past| <= i < |log| && Writes(log[i], ClusterCAKey(ns)) && Itself(log[i].was).Some?
      ensures Itself(log[i].now) == Itself(log[i].was)
    {
      BundleKept(ns, names, past, log, i);
    }
    GivenStays(init, past, log, ClusterCAKey(ns), Itself);
  }

  // ---- Statuses ----------------------------------------------------------

  /** Every status that reaches the server is the refusal alone, or completed
      and without a refusal; no other field of the instance changes. */
  lemma StatusesPublishable(ns: string, names: set<string>, past: seq<Event>, log: seq<Event>, i: nat)
    requires Behaved(ns, names, past, log) && |past| <= i < |log|
    requires log[i].Write? && log[i].key.kind == UpdateServiceKind && log[i].was != log[i].now
    ensures log[i].verb == UpdateStatus && log[i].was.Some? && log[i].now.Some?
    ensures StatusOnly(log[i].was.value, log[i].now.value)
    ensures Conditions.Publishable(log[i].now.value.body.status)
  {
    hide Holder, LastDigest, Conditions.Publishable, OwnPartOnly;
    WriteHeeds(ns, names, past, log, i);
  }

  // ---- The digest annotation ---------------------------------------------

  function DigestAt(o: Option<Object>): Option<string> {
    match o
    case Some(d) => DigestOf(d)
    case None => None
  }

  lemma WriteDigest(g: Grant, before: seq<Event>, e: Event)
    requires Permitted(g, before, e) && e.Write? && e.key.kind == DeploymentKind
    ensures DigestAt(e.now) == DigestAt(e.was)
            || (LastDigest(before, g.ns) != "" && DigestAt(e.now) == Some(LastDigest(before, g.ns)))
  {
    hide LastDigest, InFootprint, Pinned;
  }

  /** No write from the given call on changes the annotation. */
  ghost predicate DigestRests(log: seq<Event>, from: nat, key: Key) {
    forall i | from <= i < |log| && Writes(log[i], key) :: DigestAt(log[i].now) == DigestAt(log[i].was)
  }

  /** The i-th call writes the annotation with the digest last read from the pod. */
  ghost predicate SetsDigest(log: seq<Event>, ns: string, key: Key, i: nat)
    requires i < |log|
  {
    && Writes(log[i], key) && LastDigest(log[..i], ns) != ""
    && DigestAt(log[i].now) == Some(LastDigest(log[..i], ns))
  }

  /** The annotation d was there from the beginning and no write changed it, or it
      is the digest last read when it was last written with a change. */
  ghost predicate Traced(init: Option<string>, past: seq<Event>, log: seq<Event>, ns: string, key: Key,
        d: Option<string>)
  {
    || (d == init && DigestRests(log, |past|, key))
    || exists i | |past| <= i < |log| ::
         SetsDigest(log, ns, key, i) && d == DigestAt(log[i].now) && DigestRests(log, i + 1, key)
  }

  /** As long as nobody else writes it, the annotation after any run is the one it
      began with, untouched, or the digest that was last read from the pod before
      the last write that changed it. In particular it is never blanked. */
  lemma {:induction false} DigestOrigin(ns: string, names: set<string>, name: string, init: Option<Object>,
                                        past: seq<Event>, log: seq<Event>)
    requires Behaved(ns, names, past, log) && Untouched(init, past, log, DeploymentKey(ns, name), DigestAt)
    ensures var key := DeploymentKey(ns, name);
            Traced(DigestAt(init), past, log, ns, key, DigestAt(After(init, past, log, key)))
    decreases |log|
  {
    hide Permitted, DigestAt, LastDigest, Traced;
    var key := DeploymentKey(ns, name);
    if |log| <= |past| {
      TracedNone(DigestAt(init), past, log, ns, key);
    } else {
      var front, e := log[..|log| - 1], log[|log| - 1];
      BehavedBefore(ns, names, past, log);
      UntouchedBefore(init, past, log, key, DigestAt);
      DigestOrigin(ns, names, name, init, past, front);
      if Writes(e, key) {
        WriteHeeds(ns, names, past, log, |log| - 1);
        WriteDigest(Holder(front).value, front, e);
      }
      TracedOn(DigestAt(init), past, log, ns, key, DigestAt(After(init, past, front, key)));
    }
  }

  lemma TracedNone(init: Option<string>, past: seq<Event>, log: seq<Event>, ns: string, key: Key)
    requires |log| <= |past|
    ensures Traced(init, past, log, ns, key, init)
  {}

  lemma TracedOn(init: Option<string>, past: seq<Event>, log: seq<Event>, ns: string, key: Key, d: Option<string>)
    requires |past| < |log| && Traced(init, past, log[..|log| - 1], ns, key, d)
    requires var front, e := log[..|log| - 1], log[|log| - 1];
             Writes(e, key) ==>
               && DigestAt(e.was) == d
               && (DigestAt(e.now) == DigestAt(e.was)
                   || (LastDigest(front, ns) != "" && DigestAt(e.now) == Some(LastDigest(front, ns))))
    ensures var e := log[|log| - 1];
            Traced(init, past, log, ns, key, if Writes(e, key) then DigestAt(e.now) else d)
  {
    hide DigestAt, LastDigest;
    var n := |log| - 1;
    var front, e := log[..n], log[n];
    assert forall i | 0 <= i < n :: front[i] == log[i] && front[..i] == log[..i];
    if Writes(e, key) && DigestAt(e.now) != DigestAt(e.was) {
      assert SetsDigest(log, ns, key, n);
      assert DigestRests(log, n + 1, key);
    } else if exists i | |past| <= i < n ::
                SetsDigest(front, ns, key, i) && d == DigestAt(front[i].now) && DigestRests(front, i + 1, key) {
      var i :| |past| <= i < n
               && SetsDigest(front, ns, key, i) && d == DigestAt(front[i].now) && DigestRests(front, i + 1, key);
      assert SetsDigest(log, ns, key, i);
      RestsOn(log, i + 1, key);
    } else {
      RestsOn(log, |past|, key);
    }
  }

  lemma RestsOn(log: seq<Event>, from: nat, key: Key)
    requires log != [] && DigestRests(log[..|log| - 1], from, key)
    requires var e := log[|log| - 1]; Writes(e, key) ==> DigestAt(e.now) == DigestAt(e.was)
    ensures DigestRests(log, from, key)
  {
    hide DigestAt;
    var front := log[..|log| - 1];
    forall i | from <= i < |log| && Writes(log[i], key) ensures DigestAt(log[i].now) == DigestAt(log[i].was) {
      if i < |front| { assert front[i] == log[i]; }
    }
  }

  // ---- Undisturbed passes in a changing cluster --------------------------

  /** A pass for the named instance over what the cluster held by then. */
  datatype Round = Round(name: string, before: Store)

  ghost function AfterRound(r: Round, cfg: Config, ns: string, ip: Allocator): Store {
    Reconciled(r.before, cfg, ns, r.name, ip)
  }

  /** The digest a pass brings to a Deployment that can take it. */
  ghost function Brought(r: Round, cfg: Config, ns: string, name: string): string {
    match Lookup(r.before, DeploymentKey(ns, name))
    case Some(Object(_, Deployment(d))) =>
      if r.name == name && Decide(r.before, cfg, ns, name).Ready? && Merge.HasGraphData(d)
      then PodDigest(r.before, ns, ImageAt(r.before, ns, name)) else ""
    case _ => ""
  }

  /** The last digest that any of the passes brought. */
  ghost function LastBrought(rs: seq<Round>, cfg: Config, ns: string, name: string): string {
    if rs == [] then ""
    else
      var d := Brought(rs[|rs| - 1], cfg, ns, name);
      if d != "" then d else LastBrought(rs[..|rs| - 1], cfg, ns, name)
  }

  lemma SettledDigest(found: Option<Object>, key: Key, k: Resources, owner: string, sha: string, ip: Allocator)
    requires k.deployment.body.Deployment? && Merge.Proper(WantedOf(k))
    requires found.Some? ==> found.value.body.Deployment?
    ensures var s := Slot(key, Owned(k.deployment, owner), MergeWith(WantedOf(k), sha));
            DigestAt(Some(Settle(found, s, ip)))
            == if found.Some? && Merge.HasGraphData(found.value.body.deployment) && sha != ""
               then Some(sha) else DigestAt(found)
  {
    hide Merge.Merge, Merge.Proper, Merge.HasGraphData, DigestOf;
    match found {
      case None =>
        Steps.CreatedDigest(k, owner);
        assert Admit(key, Owned(k.deployment, owner), ip) == Owned(k.deployment, owner);
      case Some(o) => MergeDigest(o, o.body.deployment, WantedOf(k), sha);
    }
  }

  lemma RoundDigest(r: Round, cfg: Config, ns: string, name: string, ip: Allocator)
    requires WellKinded(r.before)
    ensures var key := DeploymentKey(ns, name);
            DigestAt(Lookup(AfterRound(r, cfg, ns, ip), key))
            == if Brought(r, cfg, ns, name) != "" then Some(Brought(r, cfg, ns, name))
               else DigestAt(Lookup(r.before, key))
  {
    hide Decide, AfterPass, DigestAt, Merge.Merge, Merge.Proper, Merge.HasGraphData, Settle, PodDigest;
    var d := Decide(r.before, cfg, ns, r.name);
    var key := DeploymentKey(ns, name);
    if d.Ready? {
      if r.name == name {
        Convergence.DecideMergeable(r.before, cfg, ns, name);
        Convergence.DeploymentLater(r.before, ns, name, d.k, ip);
        SettledDigest(Lookup(r.before, key), key, d.k, name, PodDigest(r.before, ns, ImageAt(r.before, ns, name)), ip);
      } else {
        PassFrame(r.before, ns, r.name, d.k, ip, key);
      }
    }
  }

  /** However the pod comes and goes and whoever is reconciled, the annotation
      is the last digest that was there to read in a pass of its instance, or
      the first one when there never was any. */
  lemma {:induction false} DigestHistory(rs: seq<Round>, cfg: Config, ns: string, name: string, ip: Allocator)
    requires rs != [] && forall i | 0 <= i < |rs| :: WellKinded(rs[i].before)
    requires var key := DeploymentKey(ns, name);
             forall i | 0 < i < |rs| ::
               DigestAt(Lookup(rs[i].before, key)) == DigestAt(Lookup(AfterRound(rs[i - 1], cfg, ns, ip), key))
    ensures var key, d := DeploymentKey(ns, name), LastBrought(rs, cfg, ns, name);
            DigestAt(Lookup(AfterRound(rs[|rs| - 1], cfg, ns, ip), key))
            == if d != "" then Some(d) else DigestAt(Lookup(rs[0].before, key))
  {
    hide Brought, AfterRound, DigestAt;
    var n := |rs| - 1;
    RoundDigest(rs[n], cfg, ns, name, ip);
    if n > 0 {
      DigestHistory(rs[..n], cfg, ns, name, ip);
    } else {
      assert rs[..n] == [];
    }
  }
}
