/** Which calls the ensure functions make and when they return an error, whatever
    the server answers. */
module Trails {
  import opened Text
  import opened Objects
  import opened Slots
  import opened Resources
  import opened Plan
  import Merge
  import Server

  // ---- Calls that fail ---------------------------------------------------

  predicate Bad(e: Event) {
    match e
    case Read(_, reply) => reply.Failure?
    case Write(_, _, ok, _, _) => !ok
  }

  /** The last call failed. */
  predicate EndsBadly(log: seq<Event>) { log != [] && Bad(log[|log| - 1]) }

  /** The last call was an update. */
  predicate JustUpdated(log: seq<Event>) {
    log != [] && log[|log| - 1].Write? && log[|log| - 1].verb == Update
  }

  /** The last call was a read that found nothing. */
  predicate JustMissed(log: seq<Event>, key: Key) {
    log != [] && log[|log| - 1] == Read(key, NotFound)
  }

  /** Exactly one read was added. */
  ghost predicate Asked(past: seq<Event>, log: seq<Event>, key: Key) {
    past < log && |log| == |past| + 1 && log[|past|].Read? && log[|past|].key == key
  }

  /** The last call was a read that found something. */
  predicate JustSaw(log: seq<Event>, key: Key) {
    log != [] && log[|log| - 1].Read? && log[|log| - 1].key == key && log[|log| - 1].reply.Found?
  }

  /** The last call was a read that found this. */
  predicate JustFound(log: seq<Event>, key: Key, found: Object) {
    JustSaw(log, key) && log[|log| - 1].reply.obj == found
  }

  /** The last call was a read that found the pod finished. */
  predicate JustDone(log: seq<Event>, key: Key) {
    JustSaw(log, key) && Done(log[|log| - 1].reply.obj)
  }

  predicate Done(o: Object) { o.body.Pod? && o.body.phase.Succeeded? }

  /** Exactly one write was added. */
  ghost predicate Wrote(past: seq<Event>, log: seq<Event>, verb: Verb, key: Key) {
    past < log && |log| == |past| + 1 && log[|past|].Write? && log[|past|].verb == verb && log[|past|].key == key
  }

  /** One create of this object: what the server then held for the first time, or
      it failed and changed nothing. */
  ghost predicate Added(past: seq<Event>, log: seq<Event>, key: Key, desired: Object) {
    && Wrote(past, log, Create, key)
    && var e := log[|past|];
       (!e.ok && e.was == e.now) || (e.was.None? && e.now.Some? && Server.Admitted(desired, e.now.value))
  }

  /** One update from what was found: applied to just that, or it failed and
      changed nothing. */
  ghost predicate Replaced(past: seq<Event>, log: seq<Event>, key: Key, found: Object, updated: Object) {
    && Wrote(past, log, Update, key)
    && var e := log[|past|]; (!e.ok && e.was == e.now) || (e.was == Some(found) && e.now == Some(updated))
  }

  /** One delete, after which nothing was there, or it failed and changed
      nothing. */
  ghost predicate Removed(past: seq<Event>, log: seq<Event>, key: Key) {
    && Wrote(past, log, Delete, key)
    && var e := log[|past|]; (!e.ok && e.was == e.now) || e.now.None?
  }

  // ---- Single functions --------------------------------------------------

  /** A get, and then the create or update that its reply calls for. */
  ghost predicate Compared(past: seq<Event>, log: seq<Event>, key: Key, desired: Object) {
    && past < log && log[|past|].Read? && log[|past|].key == key
    && var mid := past + [log[|past|]];
       match log[|past|].reply
       case Failure => log == mid
       case NotFound => Added(mid, log, key, desired)
       case Found(found, _) =>
         if Overwrite(found, desired) == found then log == mid
         else Replaced(mid, log, key, found, Overwrite(found, desired))
  }

  /** The same for the Deployment, where updating means merging, and an object
      without the graph-data init container is left alone. */
  ghost predicate Merged(past: seq<Event>, log: seq<Event>, key: Key, desired: Object, w: Merge.Wanted, sha: string) {
    && past < log && log[|past|].Read? && log[|past|].key == key
    && var mid := past + [log[|past|]];
       match log[|past|].reply
       case Failure => log == mid
       case NotFound => Added(mid, log, key, desired)
       case Found(found, _) =>
         if MergeObject(found, w, sha) == found then log == mid
         else Replaced(mid, log, key, found, MergeObject(found, w, sha))
  }

  predicate Ownable(o: Object, name: string) { o.meta.owner == None || o.meta.owner == Some(name) }

  /** A look for the bundle's ConfigMap, and only when it is missing another one,
      which is followed by the create or update its reply calls for. */
  ghost predicate Bundled(past: seq<Event>, log: seq<Event>, key: Key, template: Object, name: string) {
    && past < log && log[|past|].Read? && log[|past|].key == key
    && var mid := past + [log[|past|]];
       if log[|past|].reply.NotFound? && Ownable(template, name) then Compared(mid, log, key, Owned(template, name))
       else log == mid
  }

  /** The bundle's ConfigMap is overwritten exactly when the first look misses it,
      the second finds it, and it then differs from the template. */
  lemma BundleRewritten(past: seq<Event>, log: seq<Event>, key: Key, template: Object, name: string)
    requires Bundled(past, log, key, template, name)
    ensures JustUpdated(log) <==>
              && log[|past|].reply.NotFound? && |log| > |past| + 1 && log[|past| + 1].Read?
              && var second := log[|past| + 1].reply;
                 second.Found? && Overwrite(second.obj, Owned(template, name)) != second.obj
  {
    hide Overwrite, Server.Admitted;
  }

  /** A look for the route under its old name, and only when that is missing one
      for the new name; whichever it is gets created or brought in line. */
  ghost predicate Routed(past: seq<Event>, log: seq<Event>, ns: string, name: string, desired: Object) {
    && past < log && log[|past|].Read? && log[|past|].key == OldRouteKey(ns, name)
    && if log[|past|].reply.NotFound? then Compared(past + [log[|past|]], log, RouteKey(ns, name), desired)
       else Compared(past, log, OldRouteKey(ns, name), desired)
  }

  /** What the reply to a look for the pod calls for: a missing one is created, a
      finished one deleted, and any other is asked for the digest. */
  ghost predicate Renewed(past: seq<Event>, log: seq<Event>, ns: string, name: string, image: string, reply: Reply,
                          sha: string)
  {
    match reply
    case Failure => log == past && sha == ""
    case NotFound => Added(past, log, PodKey(ns), NewPod(name, image)) && sha == ""
    case Found(o, _) =>
      if Done(o) then Removed(past, log, PodKey(ns)) && sha == "" else log == past && sha == DigestIn(o)
  }

  /** A look for the pod and what its reply calls for; nothing for a pinned
      image. */
  ghost predicate Resolving(past: seq<Event>, log: seq<Event>, ns: string, name: string, image: string, sha: string) {
    if Pinned(image) then log == past && sha == ""
    else
      && past < log && log[|past|].Read? && log[|past|].key == PodKey(ns)
      && Renewed(past + [log[|past|]], log, ns, name, image, log[|past|].reply, sha)
  }

  /** A read of the pod, and the digest as the first image of what it found, which
      is not finished. */
  ghost predicate LookedFor(past: seq<Event>, log: seq<Event>, key: Key, sha: string) {
    && past < log && log[|past|].Read? && log[|past|].key == key
    && match log[|past|].reply
       case Found(Object(_, Pod(_, phase, ids)), _) => sha == if phase.Succeeded? || ids == [] then "" else ids[0]
       case _ => sha == ""
  }

  lemma ResolvingNot(log: seq<Event>, ns: string, name: string, image: string)
    ensures Pinned(image) ==> Resolving(log, log, ns, name, image, "")
  {
    hide Pinned;
  }

  lemma ResolvingOn(past: seq<Event>, mid: seq<Event>, log: seq<Event>, ns: string, name: string, image: string,
                    reply: Reply, sha: string)
    requires !Pinned(image) && mid == past + [Read(PodKey(ns), reply)] && mid <= log
    requires Renewed(mid, log, ns, name, image, reply, sha) && (reply.Found? ==> reply.obj.body.Pod?)
    ensures Resolving(past, log, ns, name, image, sha) && LookedFor(past, log, PodKey(ns), sha)
  {
    hide Pinned, Added, Removed;
    assert log[|past|] == mid[|past|] && past + [log[|past|]] == mid;
  }

  // ---- The steps ---------------------------------------------------------

  /** When the i-th ensure function returns an error: its last call failed, but
      failed updates of budget, route and policy do not count; and the bundle's
      ConfigMap was found missing and could not be owned. */
  predicate StepFails(i: nat, ns: string, past: seq<Event>, log: seq<Event>) {
    && log != past
    && ((EndsBadly(log) && !(7 <= i && JustUpdated(log))) || (i == 3 && JustMissed(log, ClusterCAKey(ns))))
  }

  /** The calls of the i-th ensure function. */
  ghost predicate StepTrail(i: nat, ns: string, name: string, k: Resources, past: seq<Event>, log: seq<Event>)
    requires i < STEPS
  {
    var s := SlotAt(i, ns, name, k, false);
    if s.rule.Skip? then log == past
    else if i == 3 then k.clusterCA.Some? && Bundled(past, log, s.key, k.clusterCA.value, name)
    else if i == 8 then Routed(past, log, ns, name, s.desired)
    else Compared(past, log, s.key, s.desired)
  }

  predicate InOrder(log: seq<Event>, marks: seq<nat>, j: nat)
    requires j + 1 < |marks|
  {
    marks[j] <= marks[j + 1] <= |log|
  }

  /** The j-th function, which made the calls between two marks, returned an
      error. */
  predicate Fails(ns: string, log: seq<Event>, marks: seq<nat>, j: nat)
    requires j + 1 < |marks| && InOrder(log, marks, j)
  {
    StepFails(j, ns, log[..marks[j]], log[..marks[j + 1]])
  }

  /** The calls between two marks are those of the j-th function. */
  ghost predicate Trodden(ns: string, name: string, k: Resources, log: seq<Event>, marks: seq<nat>, j: nat)
    requires j + 1 < |marks| <= STEPS + 1 && InOrder(log, marks, j)
  {
    StepTrail(j, ns, name, k, log[..marks[j]], log[..marks[j + 1]])
  }

  /** The first functions were called in order, marks saying how far the log had
      got before and after each; none returned an error but, with err, the last. */
  ghost predicate Strides(ns: string, name: string, k: Resources, past: seq<Event>, log: seq<Event>, marks: seq<nat>,
                          err: bool)
  {
    && 1 <= |marks| <= STEPS + 1 && marks[0] == |past| && marks[|marks| - 1] == |log| && past <= log
    && (err ==> |marks| >= 2)
    && (forall j | 0 <= j < |marks| - 1 ::
          && InOrder(log, marks, j) && Trodden(ns, name, k, log, marks, j)
          && (Fails(ns, log, marks, j) <==> err && j == |marks| - 2))
  }

  /** All ten functions were called without an error, or all up to the first that
      returned one. */
  ghost predicate Marched(ns: string, name: string, k: Resources, past: seq<Event>, log: seq<Event>, marks: seq<nat>,
                          err: bool)
  {
    Strides(ns, name, k, past, log, marks, err) && (err || |marks| == STEPS + 1)
  }

  lemma StrideNone(ns: string, name: string, k: Resources, log: seq<Event>)
    ensures Strides(ns, name, k, log, log, [|log|], false)
  {}

  lemma StrideOn(ns: string, name: string, k: Resources, past: seq<Event>, mid: seq<Event>, log: seq<Event>,
                 marks: seq<nat>, err: bool)
    requires Strides(ns, name, k, past, mid, marks, false) && mid <= log && |marks| <= STEPS
    requires StepTrail(|marks| - 1, ns, name, k, mid, log)
    requires err <==> StepFails(|marks| - 1, ns, mid, log)
    ensures Strides(ns, name, k, past, log, marks + [|log|], err)
  {
    hide StepFails, StepTrail;
    var now := marks + [|log|];
    forall j | 0 <= j < |now| - 1
      ensures InOrder(log, now, j) && Trodden(ns, name, k, log, now, j)
      ensures Fails(ns, log, now, j) <==> err && j == |now| - 2
    {
      if j < |marks| - 1 {
        assert InOrder(mid, marks, j) && Trodden(ns, name, k, mid, marks, j) && !Fails(ns, mid, marks, j);
        assert log[..now[j]] == mid[..marks[j]] && log[..now[j + 1]] == mid[..marks[j + 1]];
      } else {
        assert log[..now[j]] == mid && log[..now[j + 1]] == log;
      }
    }
  }

  // ---- Looking around ----------------------------------------------------

  /** The image configuration was read and, where it names one, the ConfigMap. */
  ghost predicate Searched(past: seq<Event>, log: seq<Event>, err: bool) {
    && past < log && log[|past|].Read? && log[|past|].key == IMAGE_KEY
    && var mid := past + [log[|past|]];
       match log[|past|].reply
       case Failure => log == mid && err
       case NotFound => log == mid && !err
       case Found(o, _) =>
         && o.body.Image?
         && if o.body.trustedCA == "" then log == mid && !err
            else Asked(mid, log, SourceKey(o.body.trustedCA)) && (err <==> !log[|mid|].reply.Found?)
  }

  /** The certificates a search came upon. */
  function Obtained(past: seq<Event>, log: seq<Event>): Option<Labels> {
    if |log| != |past| + 2 then None
    else
      match log[|past| + 1]
      case Read(_, Found(o, _)) => CertificateData(SourceFound(Some(o)))
      case _ => None
  }

  function Seen(reply: Reply): Option<Object> { if reply.Found? then Some(reply.obj) else None }

  /** The three lookups, searched being how far the log had got after the second:
      they end early on a missing pull secret or a failed search, and otherwise
      give what is rendered from the three replies. */
  ghost predicate Scouted(cfg: Config, ns: string, name: string, spec: Spec, past: seq<Event>, log: seq<Event>,
                          searched: nat, k: Option<Resources>)
  {
    && past < log && log[|past|].Read? && log[|past|].key == PULL_KEY
    && var mid, reply := past + [log[|past|]], log[|past|].reply;
       if !reply.Found? then log == mid && k == None
       else
         && reply.obj.body.Secret? && |mid| <= searched <= |log|
         && ((Searched(mid, log, true) && k == None)
             || (Searched(mid, log[..searched], false) && Asked(log[..searched], log, ClusterCAKey(ns))
                 && k == Render(cfg, name, spec, reply.obj.body.secret, Obtained(mid, log[..searched]),
                                ClusterCAFound(Seen(log[searched].reply)))))
  }

  /** A search that needs no second read. */
  lemma SearchedImage(past: seq<Event>, log: seq<Event>)
    requires Asked(past, log, IMAGE_KEY)
    requires var r := log[|past|].reply; r.Found? ==> r.obj.body == Image("")
    ensures Searched(past, log, log[|past|].reply.Failure?) && Obtained(past, log) == None
  {
    assert log == past + [log[|past|]];
  }

  lemma SearchedSource(past: seq<Event>, mid: seq<Event>, log: seq<Event>, name: string)
    requires Asked(past, mid, IMAGE_KEY) && name != ""
    requires var r := mid[|past|].reply; r.Found? && r.obj.body == Image(name)
    requires Asked(mid, log, SourceKey(name))
    ensures Searched(past, log, !log[|mid|].reply.Found?)
    ensures Obtained(past, log) == CertificateData(SourceFound(Seen(log[|mid|].reply)))
  {
    assert mid == past + [log[|past|]];
  }

  lemma ScoutedNoSecret(cfg: Config, ns: string, name: string, spec: Spec, past: seq<Event>, log: seq<Event>,
                        searched: nat)
    requires Asked(past, log, PULL_KEY) && !log[|past|].reply.Found?
    ensures Scouted(cfg, ns, name, spec, past, log, searched, None)
  {}

  lemma ScoutedInVain(cfg: Config, ns: string, name: string, spec: Spec, past: seq<Event>, mid: seq<Event>,
                      log: seq<Event>)
    requires Asked(past, mid, PULL_KEY) && mid[|past|].reply.Found? && mid[|past|].reply.obj.body.Secret?
    requires Searched(mid, log, true)
    ensures Scouted(cfg, ns, name, spec, past, log, |log|, None)
  {
    assert mid == past + [log[|past|]] && mid < log;
  }

  lemma ScoutedAll(cfg: Config, ns: string, name: string, spec: Spec, past: seq<Event>, mid: seq<Event>,
                   far: seq<Event>, log: seq<Event>, secret: Labels, k: Option<Resources>)
    requires Asked(past, mid, PULL_KEY) && mid[|past|].reply.Found?
    requires mid[|past|].reply.obj.body == Secret(secret)
    requires Searched(mid, far, false) && Asked(far, log, ClusterCAKey(ns))
    requires k == Render(cfg, name, spec, secret, Obtained(mid, far), ClusterCAFound(Seen(log[|far|].reply)))
    ensures Scouted(cfg, ns, name, spec, past, log, |far|, k)
  {
    hide Render, Obtained, ClusterCAFound;
    assert mid < far < log && mid == past + [log[|past|]] && log[..|far|] == far;
  }

  lemma AddedEnds(past: seq<Event>, log: seq<Event>, key: Key, desired: Object)
    requires Added(past, log, key, desired)
    ensures past < log && !JustUpdated(log)
  {}

  lemma ReplacedEnds(past: seq<Event>, log: seq<Event>, key: Key, found: Object, updated: Object)
    requires Replaced(past, log, key, found, updated)
    ensures past < log && JustUpdated(log)
  {}

  // ---- A pass and a request ----------------------------------------------

  /** How far the log had got at the turning points of a pass: after the search,
      and, if the lookups gave what was needed, after all of them, around each
      step, and before the Deployment was looked at; what was rendered, and the
      digest that was read. */
  datatype Trail =
    | Halted(searched: nat)
    | Ran(searched: nat, scouted: nat, k: Resources, marks: seq<nat>, stopped: bool, looked: nat, sha: string)

  /** The steps, the look after the pod, and from looked on the Deployment, whose
      last call decides; whether a step stopped the march is of no consequence. */
  ghost predicate Ensured(ns: string, name: string, image: string, past: seq<Event>, log: seq<Event>, t: Trail,
                          err: bool)
    requires t.Ran?
  {
    && t.marks != [] && past <= log
    && var marched := t.marks[|t.marks| - 1];
       && |past| <= marched <= t.looked <= |log|
       && Marched(ns, name, t.k, past, log[..marched], t.marks, t.stopped)
       && Resolving(log[..marched], log[..t.looked], ns, name, image, t.sha)
       && t.k.deployment.body.Deployment?
       && Merged(log[..t.looked], log, DeploymentKey(ns, name), Owned(t.k.deployment, name), WantedOf(t.k), t.sha)
       && (err <==> EndsBadly(log))
  }

  /** A pass up to, and without, writing the status. */
  ghost predicate Passage(cfg: Config, ns: string, name: string, spec: Spec, past: seq<Event>, log: seq<Event>,
                          t: Trail, err: bool)
  {
    match t
    case Halted(searched) => Scouted(cfg, ns, name, spec, past, log, searched, None) && err
    case Ran(searched, scouted, k, _, _, _, _) =>
      && |past| <= scouted <= |log|
      && Scouted(cfg, ns, name, spec, past, log[..scouted], searched, Some(k))
      && Ensured(ns, name, spec.graphDataImage, log[..scouted], log, t, err)
  }

  /** The log ends with an attempt to write the instance's status. */
  ghost predicate StatusWritten(ns: string, name: string, past: seq<Event>, log: seq<Event>) {
    Wrote(past, log, UpdateStatus, InstanceKey(ns, name))
  }

  /** What follows the reading of an instance: a refused name and a completed pass
      end with the status, a pass with an error without it. */
  ghost predicate Finished(cfg: Config, ns: string, name: string, spec: Spec, refused: bool, past: seq<Event>,
                           log: seq<Event>, t: Trail, err: bool)
  {
    if refused then StatusWritten(ns, name, past, log) && !err
    else if err then Passage(cfg, ns, name, spec, past, log, t, true)
    else
      && |past| < |log| && StatusWritten(ns, name, log[..|log| - 1], log)
      && Passage(cfg, ns, name, spec, past, log[..|log| - 1], t, false)
  }

  /** A request from the reading of its instance to the end. */
  ghost predicate Handled(cfg: Config, ns: string, name: string, refused: bool, past: seq<Event>, log: seq<Event>,
                          t: Trail, err: bool)
  {
    && past < log && log[|past|].Read? && log[|past|].key == InstanceKey(ns, name)
    && var mid := past + [log[|past|]];
       match log[|past|].reply
       case Failure => log == mid && err
       case NotFound => log == mid && !err
       case Found(o, _) =>
         o.body.UpdateService? && Finished(cfg, ns, name, o.body.spec, refused, mid, log, t, err)
  }

  // ---- When completion is published --------------------------------------

  /** The Deployment was looked at, and the last call for it did not fail. */
  predicate DeploymentWell(ns: string, name: string, log: seq<Event>, t: Trail) {
    && t.Ran? && t.looked < |log| && log[t.looked].key == DeploymentKey(ns, name)
    && var last := LastFor(log, DeploymentKey(ns, name)); 0 <= last < |log| && !Bad(log[last])
  }

  /** The index of the last call that concerns the key, or -1. */
  function LastFor(log: seq<Event>, key: Key): (i: int)
    ensures -1 <= i < |log|
    ensures i >= 0 ==> log[i].key == key
    ensures forall j | i < j < |log| :: log[j].key != key
  {
    if log == [] then -1
    else if log[|log| - 1].key == key then |log| - 1
    else LastFor(log[..|log| - 1], key)
  }

  /** A request for an instance that was read and is not refused publishes
      completion, and returns no error, exactly when the lookups gave what was
      needed and the last call for the Deployment did not fail. Neither the ten
      steps nor the pod have any say in it. */
  lemma CompletionDecided(cfg: Config, ns: string, name: string, past: seq<Event>, log: seq<Event>, t: Trail, err: bool)
    requires Handled(cfg, ns, name, false, past, log, t, err) && log[|past|].reply.Found?
    ensures !err <==> DeploymentWell(ns, name, log, t)
    ensures !err <==> |log| > |past| + 1 && StatusWritten(ns, name, log[..|log| - 1], log)
  {
    hide Passage;
    var first := log[|past|];
    var mid, spec := past + [first], first.reply.obj.body.spec;
    if err {
      PassageEnds(cfg, ns, name, spec, mid, log, t, true);
    } else {
      var end := log[..|log| - 1];
      PassageEnds(cfg, ns, name, spec, mid, end, t, false);
      assert LastFor(log, DeploymentKey(ns, name)) == LastFor(end, DeploymentKey(ns, name));
    }
  }

  /** A pass ends with the last call for the Deployment, or halts with a read. */
  lemma PassageEnds(cfg: Config, ns: string, name: string, spec: Spec, past: seq<Event>, log: seq<Event>, t: Trail,
                    err: bool)
    requires Passage(cfg, ns, name, spec, past, log, t, err)
    ensures !err ==> DeploymentWell(ns, name, log, t)
    ensures err && t.Ran? ==> !DeploymentWell(ns, name, log, t) && log != []
    ensures t.Ran? ==> t.looked < |log| && log[t.looked].key == DeploymentKey(ns, name)
    ensures t.Ran? ==>
              LastFor(log, DeploymentKey(ns, name)) == |log| - 1 && log[|log| - 1].key.kind != UpdateServiceKind
    ensures t.Halted? ==> err && log != [] && log[|log| - 1].Read?
  {
    hide Scouted, Marched, Resolving, Merged;
    match t {
      case Halted(searched) => ScoutedEnds(cfg, ns, name, spec, past, log, searched, None);
      case Ran(searched, scouted, k, marks, stopped, looked, sha) =>
        MergedEnds(log[..looked], log, DeploymentKey(ns, name), Owned(k.deployment, name), WantedOf(k), sha);
    }
  }

  /** Looking after the Deployment begins and ends with a call for it. */
  lemma MergedEnds(past: seq<Event>, log: seq<Event>, key: Key, desired: Object, w: Merge.Wanted, sha: string)
    requires Merged(past, log, key, desired, w, sha)
    ensures past < log && log[|past|].key == key && log[|log| - 1].key == key
  {
    hide Server.Admitted, MergeObject;
  }

  /** The lookups end with a read. */
  lemma ScoutedEnds(cfg: Config, ns: string, name: string, spec: Spec, past: seq<Event>, log: seq<Event>,
                    searched: nat, k: Option<Resources>)
    requires Scouted(cfg, ns, name, spec, past, log, searched, k)
    ensures log != [] && log[|log| - 1].Read?
  {
    hide Render, Obtained, ClusterCAFound;
  }
}
