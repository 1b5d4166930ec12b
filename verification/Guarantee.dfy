/** What the operator promises of every call it makes, whatever the cluster
    does meanwhile. */
module Guarantee {
  import opened Text
  import opened Objects
  import opened Slots
  import opened Resources
  import opened Plan
  import opened Conditions
  import opened Trails
  import Merge
  import RouteName

  /** On whose behalf a pass runs and what its instance allows. */
  datatype Grant = Grant(ns: string, name: string, pinned: bool, refused: bool)

  /** The digest reported by the last look at the resolving pod. */
  function LastDigest(log: seq<Event>, ns: string): string {
    if log == [] then ""
    else
      match log[|log| - 1]
      case Read(key, reply) =>
        if key == PodKey(ns) then (if reply.Found? then DigestIn(reply.obj) else "")
        else LastDigest(log[..|log| - 1], ns)
      case _ => LastDigest(log[..|log| - 1], ns)
  }

  function DigestOf(o: Object): Option<string> {
    match o.body
    case Deployment(d) =>
      if IMAGE_SHA in d.template.annotations then Some(d.template.annotations[IMAGE_SHA]) else None
    case _ => None
  }

  /** An update keeps the metadata and everything the operator does not manage. */
  ghost predicate OwnPartOnly(was: Object, now: Object) {
    && now.meta == was.meta
    && match (was.body, now.body)
       case (ConfigMap(_), ConfigMap(_)) => true
       case (Secret(_), Secret(_)) => true
       case (Service(f), Service(d)) => d.clusterIP == f.clusterIP
       case (Budget(_), Budget(_)) => true
       case (NetworkPolicy(_), NetworkPolicy(_)) => true
       case (Route(f, i), Route(d, j)) => d.tls == f.tls && i == j
       case (Deployment(f), Deployment(d)) => Merge.ForeignKept(f, d)
       case _ => false
  }

  /** What a pass knows of the graph-data image: nothing when it is pinned. */
  function Resolved(g: Grant, log: seq<Event>): string {
    if g.pinned then "" else LastDigest(log, g.ns)
  }

  /** The digest annotation becomes the digest read, or stays when none was. */
  predicate DigestStep(was: Object, now: Object, digest: string) {
    was.body.Deployment? ==> DigestOf(now) == if digest == "" then DigestOf(was) else Some(digest)
  }

  /** The two reads just made disagree on whether the object exists. */
  ghost predicate ReadsDisagree(before: seq<Event>, key: Key) {
    && |before| >= 2
    && before[|before| - 2] == Read(key, NotFound)
    && before[|before| - 1].Read? && before[|before| - 1].key == key && before[|before| - 1].reply.Found?
  }

  ghost predicate StatusOnly(was: Object, now: Object) {
    && was.body.UpdateService? && now.body.UpdateService?
    && now == was.(body := UpdateService(was.body.spec, now.body.status))
    && Publishable(now.body.status)
  }

  /** The call before calls for this write: a create follows a read that found
      nothing, an update one that found something, and a delete one that found
      the pod finished. No route is created under the old name. */
  predicate CalledFor(g: Grant, before: seq<Event>, e: Event)
    requires e.Write?
  {
    match e.verb
    case Create => JustMissed(before, e.key) && e.key != OldRouteKey(g.ns, g.name)
    case Update => JustSaw(before, e.key)
    case Delete => e.key == PodKey(g.ns) && JustDone(before, e.key)
    case UpdateStatus => e.key == InstanceKey(g.ns, g.name)
  }

  /** What a write of a pass may do, given the calls before it. */
  ghost predicate PermittedWrite(g: Grant, before: seq<Event>, e: Event)
    requires e.Write?
  {
    && (g.refused ==> e.verb.UpdateStatus?) && CalledFor(g, before, e)
    && (e.was == e.now ||
        match e.verb
        case Create =>
          && e.was.None? && e.now.Some? && InFootprint(g.ns, g.name, e.key)
          && e.now.value.meta.owner == Some(g.name) && DigestOf(e.now.value).None?
        case Update =>
          && e.was.Some? && e.now.Some? && InFootprint(g.ns, g.name, e.key)
          && JustFound(before, e.key, e.was.value) && OwnPartOnly(e.was.value, e.now.value)
          && DigestStep(e.was.value, e.now.value, Resolved(g, before))
          && (e.key == ClusterCAKey(g.ns) ==> g.name == "cluster" || ReadsDisagree(before, e.key))
        case Delete => e.now.None?
        case UpdateStatus =>
          && e.was.Some? && e.now.Some?
          && StatusOnly(e.was.value, e.now.value))
  }

  ghost predicate Permitted(g: Grant, before: seq<Event>, e: Event) {
    && (g.pinned ==> e.key != PodKey(g.ns))
    && (e.Read? ==> e.key.kind != UpdateServiceKind)
    && (e.Write? ==> PermittedWrite(g, before, e))
  }

  /** now continues past by permitted calls. */
  ghost predicate Continues(g: Grant, past: seq<Event>, now: seq<Event>) {
    && past <= now
    && forall i | |past| <= i < |now| :: Permitted(g, now[..i], now[i])
  }

  lemma ContinueNone(g: Grant, log: seq<Event>)
    ensures Continues(g, log, log)
  {}

  lemma ContinueOne(g: Grant, past: seq<Event>, log: seq<Event>, e: Event)
    requires Continues(g, past, log) && Permitted(g, log, e)
    ensures Continues(g, past, log + [e])
  {
    hide Permitted;
    var now := log + [e];
    forall i | |past| <= i < |now| ensures Permitted(g, now[..i], now[i]) {
      if i < |log| { assert now[..i] == log[..i]; } else { assert now[..i] == log; }
    }
  }

  lemma ContinueOn(g: Grant, past: seq<Event>, mid: seq<Event>, now: seq<Event>)
    requires Continues(g, past, mid) && Continues(g, mid, now)
    ensures Continues(g, past, now)
  {
    hide Permitted;
    forall i | |past| <= i < |now| ensures Permitted(g, now[..i], now[i]) {
      if i < |mid| { assert now[..i] == mid[..i] && now[i] == mid[i]; }
    }
  }

  /** A read is permitted of anything but instances, and of the pod unless the
      image is pinned. */
  lemma ContinueRead(g: Grant, past: seq<Event>, log: seq<Event>, key: Key, reply: Reply)
    requires Continues(g, past, log) && (g.pinned ==> key != PodKey(g.ns)) && key.kind != UpdateServiceKind
    ensures Continues(g, past, log + [Read(key, reply)])
  {
    ContinueOne(g, past, log, Read(key, reply));
  }

  // ---- Many passes -------------------------------------------------------

  /** What reading an instance allows the pass that begins with it. */
  function Opened(key: Key, reply: Reply): Option<Grant> {
    match reply
    case Found(obj, _) =>
      if !obj.body.UpdateService? then None
      else Some(Grant(key.ns, key.name, Pinned(obj.body.spec.graphDataImage), !RouteName.Acceptable(key.name, key.ns)))
    case _ => None
  }

  /** On whose behalf calls are being made: that of the instance read last. */
  function Holder(log: seq<Event>): Option<Grant> {
    if log == [] then None
    else
      match log[|log| - 1]
      case Read(key, reply) =>
        if key.kind == UpdateServiceKind then Opened(key, reply) else Holder(log[..|log| - 1])
      case _ => Holder(log[..|log| - 1])
  }

  /** A pass reads its instance, and nothing more without it; with it, it makes
      calls that are permitted by what was read. */
  ghost predicate Attended(g: Grant, past: seq<Event>, log: seq<Event>) {
    && past < log
    && var first := log[|past|];
       && first.Read? && first.key == InstanceKey(g.ns, g.name)
       && if first.reply.Found? then Opened(first.key, first.reply) == Some(g) && Continues(g, past + [first], log)
          else log == past + [first]
  }

  predicate Opens(ns: string, names: set<string>, e: Event) {
    e.Read? && e.key.kind == UpdateServiceKind && e.key.ns == ns && e.key.name in names
  }

  /** A call that is permitted to the pass under way, which is for one of the
      names. */
  ghost predicate Heeds(ns: string, names: set<string>, before: seq<Event>, e: Event) {
    var h := Holder(before);
    h.Some? && h.value.ns == ns && h.value.name in names && Permitted(h.value, before, e)
  }

  /** Every call since past opens a pass for one of the names, or is permitted to
      the pass under way. */
  ghost predicate Behaved(ns: string, names: set<string>, past: seq<Event>, now: seq<Event>) {
    && past <= now
    && forall i | |past| <= i < |now| :: Opens(ns, names, now[i]) || Heeds(ns, names, now[..i], now[i])
  }

  lemma BehaveNot(ns: string, names: set<string>, log: seq<Event>)
    ensures Behaved(ns, names, log, log)
  {}

  /** Permitted calls do not open another pass. */
  lemma {:induction false} HolderKept(g: Grant, past: seq<Event>, now: seq<Event>, i: nat)
    requires Holder(past) == Some(g) && Continues(g, past, now) && |past| <= i <= |now|
    ensures Holder(now[..i]) == Some(g)
    decreases i
  {
    hide Opened, PermittedWrite;
    if i == |past| {
      assert now[..i] == past;
    } else {
      HolderKept(g, past, now, i - 1);
      assert Permitted(g, now[..i - 1], now[i - 1]);
      assert now[..i][..i - 1] == now[..i - 1];
    }
  }

  lemma BehaveOn(ns: string, names: set<string>, past: seq<Event>, mid: seq<Event>, now: seq<Event>, g: Grant)
    requires Behaved(ns, names, past, mid) && g.ns == ns && g.name in names && Attended(g, mid, now)
    ensures Behaved(ns, names, past, now)
  {
    hide Permitted, Opened, Holder, Continues;
    var first := now[|mid|];
    forall i | |past| <= i < |now| ensures Opens(ns, names, now[i]) || Heeds(ns, names, now[..i], now[i]) {
      if i < |mid| {
        assert now[..i] == mid[..i] && now[i] == mid[i];
      } else if i > |mid| {
        HeldOn(g, mid, first, now, i);
      }
    }
  }

  lemma HeldOn(g: Grant, mid: seq<Event>, first: Event, now: seq<Event>, i: nat)
    requires first.Read? && first.key.kind == UpdateServiceKind && Opened(first.key, first.reply) == Some(g)
    requires Continues(g, mid + [first], now) && |mid| < i < |now|
    ensures Holder(now[..i]) == Some(g) && Permitted(g, now[..i], now[i])
  {
    hide Permitted, Opened;
    assert (mid + [first])[..|mid|] == mid;
    HolderKept(g, mid + [first], now, i);
  }

  // ---- What the ensure steps write is permitted --------------------------

  lemma CreatePermitted(g: Grant, before: seq<Event>, e: Event, asked: Object, stored: Object)
    requires e.Write? && e == Write(Create, e.key, e.ok, None, Some(stored))
    requires exists address :: stored == WithAddress(asked, address)
    requires JustMissed(before, e.key) && e.key != OldRouteKey(g.ns, g.name)
    requires InFootprint(g.ns, g.name, e.key) && asked.meta.owner == Some(g.name) && DigestOf(asked).None?
    requires !g.refused && (g.pinned ==> e.key != PodKey(g.ns))
    ensures Permitted(g, before, e)
  {}

  lemma OverwritePermitted(g: Grant, before: seq<Event>, e: Event, found: Object, desired: Object)
    requires e.Write? && e == Write(Update, e.key, e.ok, Some(found), Some(Overwrite(found, desired)))
    requires InFootprint(g.ns, g.name, e.key) && JustFound(before, e.key, found)
    requires !g.refused && (g.pinned ==> e.key != PodKey(g.ns))
    requires e.key == ClusterCAKey(g.ns) ==> g.name == "cluster" || ReadsDisagree(before, e.key)
    ensures Permitted(g, before, e)
  {}

  lemma MergeDigest(found: Object, d: DeploymentSpec, w: Merge.Wanted, sha: string)
    requires Merge.Proper(w) && found.body == Deployment(d)
    ensures var now := found.(body := Deployment(Merge.Merge(d, w, sha)));
            DigestOf(now) == if sha == "" then DigestOf(found) else Some(sha)
  {
    Merge.ShaKeyApart(w);
  }

  lemma MergePermitted(g: Grant, before: seq<Event>, e: Event, found: Object, d: DeploymentSpec, w: Merge.Wanted,
        sha: string)
    requires found.body == Deployment(d) && Merge.Proper(w)
    requires var now := found.(body := Deployment(Merge.Merge(d, w, sha)));
             e.Write? && e == Write(Update, e.key, e.ok, Some(found), Some(now))
    requires e.key == DeploymentKey(g.ns, g.name) && sha == Resolved(g, before) && JustFound(before, e.key, found)
    requires !g.refused
    ensures Permitted(g, before, e)
  {
    hide Merge.Merge, Merge.Proper, DigestOf, Resolved, Merge.ForeignKept;
    MergeDigest(found, d, w, sha);
    Merge.MergeKeepsForeign(d, w, sha);
  }
}
