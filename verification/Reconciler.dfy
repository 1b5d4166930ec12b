/** The reconcile loop: a sequence of calls that can each fail, read something
    outdated or meet somebody else's edits. */
module Reconciler {
  import opened Text
  import opened Objects
  import opened Slots
  import opened Resources
  import opened Plan
  import opened Conditions
  import opened Guarantee
  import opened Trails
  import opened Steps
  import Merge
  import Names
  import RouteName
  import Server

  class Reconciler {
    const cfg: Config
    const client: Server.Server
    /** The address a route's ingress status exposes. */
    const uriOf: string -> Option<string>

    constructor (cfg: Config, client: Server.Server, uriOf: string -> Option<string>)
      ensures this.cfg == cfg && this.client == client && this.uriOf == uriOf
    {
      this.cfg, this.client, this.uriOf := cfg, client, uriOf;
    }

    // ---- Single objects --------------------------------------------------

    /** Creates what was just found missing. */
    method CreateNew(ghost g: Grant, desired: Object, key: Key, ghost s: Slot) returns (ok: bool)
      requires client.Valid() && !g.refused && KindOf(desired.body) == key.kind
      requires InFootprint(g.ns, g.name, key) && (g.pinned ==> key != PodKey(g.ns))
      requires desired.meta.owner == Some(g.name) && DigestOf(desired).None?
      requires s.key == key && s.desired == desired && !s.rule.Skip?
      requires JustMissed(client.log, key) && key != OldRouteKey(g.ns, g.name)
      modifies client
      ensures client.Valid() && client.Remembers(old(client.archive))
      ensures Continues(g, old(client.log), client.log)
      ensures Added(old(client.log), client.log, key, desired) && (ok <==> !EndsBadly(client.log))
      ensures client.calm ==> OnlyAt(old(client.store), client.store, key, client.barred)
      ensures client.calm && key !in client.barred && key !in old(client.store) ==> ok
      ensures client.quiet && key !in old(client.store) ==>
                Stepped(old(client.Contents()), Server.Mutations(old(client.log)), client.Contents(),
                        Server.Mutations(client.log), s, client.ip)
    {
      hide Server.Server.Valid, Server.Server.Remembers, Continues, Stepped, InFootprint, DigestOf, Admit, KindOf;
      ghost var start, st, muts := client.log, client.Contents(), Server.Mutations(client.log);
      ContinueNone(g, start);
      ghost var e;
      ok, e := client.Create(key, desired);
      CreateStep(g, start, start, e, desired);
      if client.quiet && key !in st { CreateStepped(st, muts, e, s, client.ip); }
    }

    /** Overwrites the compared part of what was found, if it still is there. */
    method UpdateFound(ghost g: Grant, updated: Object, key: Key, found: Object, version: nat, ghost s: Slot)
      returns (ok: bool)
      requires client.Valid() && !g.refused && KindOf(updated.body) == key.kind
      requires InFootprint(g.ns, g.name, key) && (g.pinned ==> key != PodKey(g.ns))
      requires s.key == key && s.rule.Compare? && updated == Overwrite(found, s.desired) && updated != found
      requires JustFound(client.log, key, found)
      requires key == ClusterCAKey(g.ns) ==> g.name == "cluster" || ReadsDisagree(client.log, key)
      requires client.WasVersion(version, key, found)
      requires client.calm ==> key in client.store && client.store[key] == Server.Entry(found, version)
      modifies client
      ensures client.Valid() && client.Remembers(old(client.archive))
      ensures Continues(g, old(client.log), client.log)
      ensures Replaced(old(client.log), client.log, key, found, updated) && (ok <==> !EndsBadly(client.log))
      ensures client.calm ==> OnlyAt(old(client.store), client.store, key, client.barred)
      ensures client.calm && key !in client.barred ==> ok
      ensures client.quiet ==>
                Stepped(old(client.Contents()), Server.Mutations(old(client.log)), client.Contents(),
                        Server.Mutations(client.log), s, client.ip)
    {
      hide Server.Server.Valid, Server.Server.Remembers, Continues, Stepped, InFootprint, Overwrite, KindOf,
           ReadsDisagree;
      ghost var start, st, muts := client.log, client.Contents(), Server.Mutations(client.log);
      ContinueNone(g, start);
      ghost var e;
      ok, e := client.Update(key, updated, version, found);
      UpdateStep(g, start, start, e, found, s.desired);
      if client.quiet { UpdateStepped(st, muts, e, s, client.ip); }
    }

    /** The get, compare, create or update that all simple steps share. */
    method CompareAndWrite(ghost g: Grant, key: Key, desired: Object) returns (r: Tried)
      requires client.Valid() && !g.refused && KindOf(desired.body) == key.kind
      requires Comparable(key.kind)
      requires InFootprint(g.ns, g.name, key) && desired.meta.owner == Some(g.name)
      requires key == ClusterCAKey(g.ns) ==> g.name == "cluster" || JustMissed(client.log, key)
      modifies client
      ensures client.Valid() && client.Remembers(old(client.archive))
      ensures Continues(g, old(client.log), client.log)
      ensures Compared(old(client.log), client.log, key, desired)
      ensures (r.ok <==> !EndsBadly(client.log)) && (r.Updated? <==> JustUpdated(client.log))
      ensures client.calm ==> OnlyAt(old(client.store), client.store, key, client.barred)
      ensures client.calm && key !in client.barred ==> r.ok
      ensures client.quiet ==>
                Stepped(old(client.Contents()), Server.Mutations(old(client.log)), client.Contents(),
                        Server.Mutations(client.log), Slot(key, desired, Compare), client.ip)
    {
      hide Server.Server.Valid, LastDigest, Overwrite, InFootprint, Stepped, Continues, KindOf;
      ghost var start, s := client.log, Slot(key, desired, Compare);
      ContinueNone(g, start);
      NoDigest(desired);
      NotPod(key, g.ns);
      var reply := client.Get(key);
      ContinueRead(g, start, start, key, reply);
      ghost var mid := client.log;
      assert mid[|start|] == Read(key, reply) && mid == start + [mid[|start|]];
      match reply {
        case NotFound =>
          var ok := CreateNew(g, desired, key, s);
          ContinueOn(g, start, mid, client.log);
          r := Created(ok);
        case Failure => r := Unread(false);
        case Found(found, version) =>
          var updated := Overwrite(found, desired);
          if updated != found {
            OverwriteKind(found, desired);
            var ok := UpdateFound(g, updated, key, found, version, s);
            ContinueOn(g, start, mid, client.log);
            r := Updated(ok);
          } else {
            if client.quiet { SyncStepped(client.Contents(), Server.Mutations(client.log), s, client.ip); }
            r := InSync(true);
          }
      }
    }

    /** ConfigMaps, secrets and services: a failed update is an error. */
    method EnsureObject(ghost g: Grant, inst: Instance, key: Key, desired: Object, reason: string) returns (err: bool)
      requires client.Valid() && !g.refused && KindOf(desired.body) == key.kind && inst.Ok()
      requires key.kind == ConfigMapKind || key.kind == SecretKind || key.kind == ServiceKind
      requires InFootprint(g.ns, g.name, key) && desired.meta.owner == Some(g.name)
      requires key == ClusterCAKey(g.ns) ==> g.name == "cluster" || JustMissed(client.log, key)
      modifies client, inst
      ensures client.Valid() && client.Remembers(old(client.archive))
      ensures inst.Ok() && inst.Certified() == old(inst.Certified())
      ensures Continues(g, old(client.log), client.log)
      ensures Compared(old(client.log), client.log, key, desired) && (err <==> EndsBadly(client.log))
      ensures client.calm ==> OnlyAt(old(client.store), client.store, key, client.barred)
      ensures client.calm && key !in client.barred ==> !err
      ensures client.quiet ==>
                Stepped(old(client.Contents()), Server.Mutations(old(client.log)), client.Contents(),
                        Server.Mutations(client.log), Slot(key, desired, Compare), client.ip)
    {
      hide Server.Server.Valid, Server.Server.Remembers, Continues, Stepped, InFootprint, Compared, SetCondition,
           Verdict, Clean;
      var r := CompareAndWrite(g, key, desired);
      err := !r.ok;
      if err { inst.HandleErr(reason); }
    }

    /** Budgets and network policies: a failed update is only recorded. */
    method EnsureRecorded(ghost g: Grant, inst: Instance, key: Key, desired: Object) returns (err: bool)
      requires client.Valid() && !g.refused && KindOf(desired.body) == key.kind && inst.Ok()
      requires key.kind == BudgetKind || key.kind == NetworkPolicyKind
      requires InFootprint(g.ns, g.name, key) && desired.meta.owner == Some(g.name)
      modifies client, inst
      ensures client.Valid() && client.Remembers(old(client.archive))
      ensures inst.Ok() && inst.Certified() == old(inst.Certified())
      ensures Continues(g, old(client.log), client.log)
      ensures Compared(old(client.log), client.log, key, desired)
      ensures err <==> EndsBadly(client.log) && !JustUpdated(client.log)
      ensures client.calm ==> OnlyAt(old(client.store), client.store, key, client.barred)
      ensures client.calm && key !in client.barred ==> !err
      ensures client.quiet ==>
                Stepped(old(client.Contents()), Server.Mutations(old(client.log)), client.Contents(),
                        Server.Mutations(client.log), Slot(key, desired, Compare), client.ip)
    {
      hide Server.Server.Valid, Server.Server.Remembers, Continues, Stepped, InFootprint, Compared, SetCondition,
           Verdict, Clean;
      var r := CompareAndWrite(g, key, desired);
      if !r.ok { inst.HandleErr("CreateGetOrUpdateFailed"); }
      err := !r.ok && !r.Updated?;
    }

    // ---- Looking around --------------------------------------------------

    method FindPullSecret(ghost g: Grant, inst: Instance) returns (secret: Option<Labels>)
      requires client.Valid() && inst.Ok()
      modifies client, inst
      ensures client.Valid() && client.Remembers(old(client.archive))
      ensures inst.Ok() && inst.Certified() == old(inst.Certified())
      ensures Continues(g, old(client.log), client.log)
      ensures Asked(old(client.log), client.log, PULL_KEY)
      ensures var reply := client.log[|old(client.log)|].reply;
              if reply.Found? then secret.Some? && reply.obj.body == Secret(secret.value) else secret.None?
      ensures client.calm ==> client.store == old(client.store) && secret == SecretAt(client.Contents(), PULL_KEY)
      ensures Server.Mutations(client.log) == Server.Mutations(old(client.log))
    {
      hide Server.Server.Valid, Server.Server.Remembers, Continues, SetCondition, Verdict, Clean;
      ContinueNone(g, client.log);
      ghost var start := client.log;
      var r := client.Get(PULL_KEY);
      ContinueRead(g, start, start, PULL_KEY, r);
      match r {
        case Found(o, _) => secret := Some(o.body.secret);
        case NotFound =>
          inst.HandleErr("PullSecretNotFound");
          secret := None;
        case Failure => secret := None;
      }
    }

    /** The ConfigMap the image configuration names. */
    method FindSource(ghost g: Grant, inst: Instance, name: string) returns (data: Option<Labels>, err: bool)
      requires client.Valid() && inst.Ok()
      modifies client, inst
      ensures client.Valid() && client.Remembers(old(client.archive))
      ensures inst.Ok() && (!err && data.None? ==> inst.Certified() == Some(false))
      ensures Continues(g, old(client.log), client.log)
      ensures Asked(old(client.log), client.log, SourceKey(name))
      ensures err <==> !client.log[|old(client.log)|].reply.Found?
      ensures data == CertificateData(SourceFound(Seen(client.log[|old(client.log)|].reply)))
      ensures client.calm ==> client.store == old(client.store)
      ensures client.calm ==> Judged(SourceFound(Lookup(client.Contents(), SourceKey(name))), data, err)
      ensures Server.Mutations(client.log) == Server.Mutations(old(client.log))
    {
      hide Server.Server.WasVersion, OnePerType, LastDigest, InFootprint, Permitted;
      hide Server.Server.Valid, Server.Server.Remembers, Continues, SetCondition, Verdict, Clean;
      ghost var start := client.log;
      ContinueNone(g, start);
      var source := client.Get(SourceKey(name));
      ContinueRead(g, start, start, SourceKey(name), source);
      data, err := None, false;
      match source {
        case NotFound =>
          inst.Set(RegistryCACertFound, false, "FindAdditionalTrustedCAFailed");
          err := true;
        case Failure => err := true;
        case Found(cm, _) =>
          if Names.CERT_KEY in cm.body.data {
            data := Some(cm.body.data);
          } else {
            inst.Set(RegistryCACertFound, false, "EnsureAdditionalTrustedCAFailed");
          }
      }
    }

    /** The certificates of the registry that the image configuration points
        to; a dangling reference is an error. */
    method FindTrustedCAConfig(ghost g: Grant, inst: Instance) returns (data: Option<Labels>, err: bool)
      requires client.Valid() && inst.Ok()
      modifies client, inst
      ensures client.Valid() && client.Remembers(old(client.archive))
      ensures inst.Ok() && (!err && data.None? ==> inst.Certified() == Some(false))
      ensures Continues(g, old(client.log), client.log)
      ensures Searched(old(client.log), client.log, err) && data == Obtained(old(client.log), client.log)
      ensures client.calm ==> client.store == old(client.store)
      ensures client.calm ==> Judged(FindTrustedCA(client.Contents()), data, err)
      ensures Server.Mutations(client.log) == Server.Mutations(old(client.log))
    {
      hide Server.Server.WasVersion, OnePerType, LastDigest, InFootprint, Permitted;
      hide Server.Server.Valid, Continues, SetCondition, Verdict, Clean, SourceFound, Searched;
      ghost var start := client.log;
      ContinueNone(g, start);
      var image := client.Get(IMAGE_KEY);
      ContinueRead(g, start, start, IMAGE_KEY, image);
      ghost var mid := client.log;
      match image {
        case NotFound =>
          SearchedImage(start, mid);
          inst.Set(RegistryCACertFound, false, "FindAdditionalTrustedCAFailed");
          return None, false;
        case Failure =>
          SearchedImage(start, mid);
          return None, true;
        case Found(o, _) =>
          if o.body.trustedCA == "" {
            SearchedImage(start, mid);
            inst.Set(RegistryCACertFound, false, "NotConfigured");
            return None, false;
          }
          data, err := FindSource(g, inst, o.body.trustedCA);
          SearchedSource(start, mid, client.log, o.body.trustedCA);
          ContinueOn(g, start, mid, client.log);
      }
    }

    /** The cluster's bundle. When it is there without the expected key the
        status says so under the registry's condition. */
    method FindTrustedClusterCA(ghost g: Grant, inst: Instance)
      returns (found: Option<Object>, missing: bool, err: bool)
      requires client.Valid() && inst.Ok() && g.ns == inst.ns
      modifies client, inst
      ensures client.Valid() && client.Remembers(old(client.archive))
      ensures inst.Ok() && (inst.Certified() == old(inst.Certified()) || inst.Certified() == Some(false))
      ensures Continues(g, old(client.log), client.log)
      ensures Asked(old(client.log), client.log, ClusterCAKey(g.ns))
      ensures var reply := client.log[|old(client.log)|].reply;
              && (missing <==> reply.NotFound?) && (err <==> reply.Failure?)
              && found == ClusterCAFound(Seen(reply))
      ensures found.Some? ==> found.value.body.ConfigMap?
      ensures client.calm ==> client.store == old(client.store) && !err
      ensures client.calm ==> (missing <==> ClusterCAKey(inst.ns) !in client.Contents())
      ensures client.calm ==> found == ClusterCAFound(Lookup(client.Contents(), ClusterCAKey(inst.ns)))
      ensures Server.Mutations(client.log) == Server.Mutations(old(client.log))
    {
      hide Server.Server.WasVersion, OnePerType, LastDigest, InFootprint, Permitted;
      hide Server.Server.Valid, Server.Server.Remembers, Continues, SetCondition, Verdict, Clean;
      ghost var start := client.log;
      ContinueNone(g, start);
      var r := client.Get(ClusterCAKey(inst.ns));
      ContinueRead(g, start, start, ClusterCAKey(inst.ns), r);
      found, missing, err := None, false, false;
      match r {
        case NotFound => missing := true;
        case Failure => err := true;
        case Found(o, _) =>
          if Names.CLUSTER_CERT_KEY in o.body.data {
            found := Some(o);
          } else {
            inst.Set(RegistryCACertFound, false, "EnsureTrustedClusterCAFailed");
          }
      }
    }

    // ---- Certificates ----------------------------------------------------

    /** The bundle's ConfigMap is created when it has just been found missing. */
    method EnsureTrustedClusterCA(ghost g: Grant, inst: Instance, k: Resources) returns (err: bool)
      requires client.Valid() && inst.Ok() && !g.refused && g.ns == inst.ns && g.name == inst.name
      requires k.clusterCA.Some? ==> k.clusterCA.value.body.ConfigMap?
      requires client.quiet && ClusterCAKey(g.ns) !in client.Contents() && k.clusterCA.Some? ==>
                 k.clusterCA.value.meta.owner.None?
      modifies client, inst
      ensures client.Valid() && client.Remembers(old(client.archive))
      ensures inst.Ok() && (inst.Certified() == old(inst.Certified()) || inst.Certified() == Some(false))
      ensures Continues(g, old(client.log), client.log)
      ensures StepTrail(3, g.ns, g.name, k, old(client.log), client.log)
      ensures err <==> StepFails(3, g.ns, old(client.log), client.log)
      ensures client.calm ==> OnlyAt(old(client.store), client.store, ClusterCAKey(g.ns), client.barred)
      ensures client.quiet ==> !err
      ensures client.quiet ==>
                Stepped(old(client.Contents()), Server.Mutations(old(client.log)), client.Contents(),
                        Server.Mutations(client.log), SlotAt(3, g.ns, g.name, k, false), client.ip)
    {
      hide Server.Server.Valid, Continues, Stepped, SetCondition, Verdict, Clean, Compared;
      ghost var start, st, muts := client.log, client.Contents(), Server.Mutations(client.log);
      ghost var slot := SlotAt(3, g.ns, g.name, k, false);
      ContinueNone(g, start);
      if k.clusterCA.None? {
        SyncStepped(st, muts, slot, client.ip);
        return false;
      }
      var _, missing, failed := FindTrustedClusterCA(g, inst);
      ghost var mid := client.log;
      if missing {
        var owned := SetOwner(k.clusterCA.value, inst.name);
        if owned.None? { return true; }
        var failed' := EnsureObject(g, inst, ClusterCAKey(inst.ns), owned.value, "EnsureConfigMapFailedForClusterCA");
        ComparedEnds(mid, client.log, ClusterCAKey(inst.ns), owned.value);
        BundledOn(start, mid, client.log, ClusterCAKey(g.ns), k.clusterCA.value, g.name);
        ContinueOn(g, start, mid, client.log);
        if client.quiet { CreateOnlyStep(st, muts, client.Contents(), Server.Mutations(client.log), slot, client.ip); }
        return failed';
      }
      if client.quiet { SyncStepped(st, muts, slot, client.ip); }
      return failed;
    }

    method EnsureAdditionalTrustedCA(ghost g: Grant, inst: Instance, k: Resources) returns (err: bool)
      requires client.Valid() && inst.Ok() && !g.refused && g.ns == inst.ns && g.name == inst.name
      requires k.trustedCA.Some? ==> k.trustedCA.value.body.ConfigMap? && k.trustedCA.value.meta.owner.None?
      modifies client, inst
      ensures client.Valid() && client.Remembers(old(client.archive))
      ensures inst.Ok() && inst.Certified() == (if k.trustedCA.Some? then Some(true) else old(inst.Certified()))
      ensures Continues(g, old(client.log), client.log)
      ensures StepTrail(4, g.ns, g.name, k, old(client.log), client.log)
      ensures client.calm ==> OnlyAt(old(client.store), client.store,
                                     Key(ConfigMapKind, g.ns, Names.AdditionalTrustedCA(g.name)), client.barred)
      ensures err <==> StepFails(4, g.ns, old(client.log), client.log)
      ensures client.quiet ==> !err
      ensures client.quiet ==>
                Stepped(old(client.Contents()), Server.Mutations(old(client.log)), client.Contents(),
                        Server.Mutations(client.log), SlotAt(4, g.ns, g.name, k, false), client.ip)
    {
      hide Server.Server.Valid, Continues, Stepped, SetCondition, Verdict, Clean, Compared;
      if k.trustedCA.None? {
        ContinueNone(g, client.log);
        SyncStepped(client.Contents(), Server.Mutations(client.log), SlotAt(4, g.ns, g.name, k, false), client.ip);
        return false;
      }
      inst.Set(RegistryCACertFound, true, "CACertFound");
      var key := Key(ConfigMapKind, inst.ns, Names.AdditionalTrustedCA(inst.name));
      SharedName(inst.name);
      var owned := SetOwner(k.trustedCA.value, inst.name);
      ghost var start := client.log;
      err := EnsureObject(g, inst, key, owned.value, "EnsureConfigMapFailed");
      ComparedEnds(start, client.log, key, owned.value);
    }

    // ---- The route -------------------------------------------------------

    /** A route by its key; a failing read is recorded. */
    method FindRoute(ghost g: Grant, inst: Instance, key: Key) returns (r: Reply)
      requires client.Valid() && inst.Ok() && key.kind == RouteKind
      modifies client, inst
      ensures client.Valid() && client.Remembers(old(client.archive))
      ensures inst.Ok() && inst.Certified() == old(inst.Certified())
      ensures client.log == old(client.log) + [Read(key, r)]
      ensures Continues(g, old(client.log), client.log)
      ensures r.Found? ==> client.WasVersion(r.version, key, r.obj) && r.obj.body.Route?
      ensures client.calm ==> client.store == old(client.store)
      ensures client.calm ==>
                r == if key in client.store then Found(client.store[key].obj, client.store[key].version) else NotFound
      ensures Server.Mutations(client.log) == Server.Mutations(old(client.log))
    {
      hide Server.Server.Valid, Server.Server.Remembers, Continues, SetCondition, Verdict, Clean;
      ghost var start := client.log;
      ContinueNone(g, start);
      r := client.Get(key);
      ContinueRead(g, start, start, key, r);
      if r.Failure? { inst.HandleErr("GetRouteFailed"); }
    }

    /** The route under its old name when there is one, else under its new. */
    method FindExistingRoute(ghost g: Grant, inst: Instance) returns (key: Key, r: Reply)
      requires client.Valid() && inst.Ok() && g.ns == inst.ns && g.name == inst.name
      modifies client, inst
      ensures client.Valid() && client.Remembers(old(client.archive))
      ensures inst.Ok() && inst.Certified() == old(inst.Certified())
      ensures var oldKey := OldRouteKey(g.ns, g.name);
              if key == oldKey then client.log == old(client.log) + [Read(oldKey, r)] && !r.NotFound?
              else key == RouteKey(g.ns, g.name)
                   && client.log == old(client.log) + [Read(oldKey, NotFound)] + [Read(key, r)]
      ensures Continues(g, old(client.log), client.log)
      ensures r.Found? ==> client.WasVersion(r.version, key, r.obj) && r.obj.body.Route?
      ensures client.calm ==> client.store == old(client.store)
      ensures client.calm ==> key == if OldRouteKey(g.ns, g.name) in client.Contents()
                                     then OldRouteKey(g.ns, g.name) else RouteKey(g.ns, g.name)
      ensures client.calm ==>
                r == if key in client.store then Found(client.store[key].obj, client.store[key].version) else NotFound
      ensures Server.Mutations(client.log) == Server.Mutations(old(client.log))
    {
      hide Server.Server.Valid, Server.Server.WasVersion, Continues, SetCondition, Verdict, Clean,
           Names.PolicyEngineRoute, Names.OldPolicyEngineRoute;
      StepNames(g.name);
      ghost var start := client.log;
      key := OldRouteKey(inst.ns, inst.name);
      r := FindRoute(g, inst, key);
      if r.NotFound? {
        ghost var mid := client.log;
        key := RouteKey(inst.ns, inst.name);
        r := FindRoute(g, inst, key);
        ContinueOn(g, start, mid, client.log);
      }
    }

    method CreateRoute(ghost g: Grant, inst: Instance, k: Resources, key: Key) returns (err: bool)
      requires client.Valid() && inst.Ok() && !g.refused && g.ns == inst.ns && g.name == inst.name
      requires k.route.body.Route? && k.route.meta.owner.None? && key == RouteKey(g.ns, g.name)
      requires JustMissed(client.log, key)
      modifies client, inst
      ensures client.Valid() && client.Remembers(old(client.archive))
      ensures inst.Ok() && inst.Certified() == old(inst.Certified())
      ensures Continues(g, old(client.log), client.log)
      ensures Added(old(client.log), client.log, key, Owned(k.route, g.name)) && (err <==> EndsBadly(client.log))
      ensures client.calm ==> OnlyAt(old(client.store), client.store, key, client.barred)
      ensures client.calm && key !in client.barred && key !in old(client.store) ==> !err
      ensures client.quiet && key !in old(client.store) ==>
                Stepped(old(client.Contents()), Server.Mutations(old(client.log)), client.Contents(),
                        Server.Mutations(client.log), Slot(key, Owned(k.route, g.name), Compare), client.ip)
    {
      hide Server.Server.Valid, Server.Server.Remembers, Continues, Stepped, SetCondition, Verdict, Clean;
      var owned := SetOwner(k.route, inst.name);
      var ok := CreateNew(g, owned.value, key, Slot(key, Owned(k.route, g.name), Compare));
      if !ok { inst.HandleErr("CreateRouteFailed"); }
      err := !ok;
    }

    /** Rewrites everything but the TLS part; a failed update is only recorded. */
    method UpdateRoute(ghost g: Grant, inst: Instance, k: Resources, key: Key, found: Object, version: nat)
      requires client.Valid() && inst.Ok() && !g.refused && g.ns == inst.ns && g.name == inst.name
      requires k.route.body.Route? && k.route.meta.owner.None? && found.body.Route?
      requires key == RouteKey(g.ns, g.name) || key == OldRouteKey(g.ns, g.name)
      requires JustFound(client.log, key, found)
      requires client.WasVersion(version, key, found)
      requires client.calm ==> key in client.store && client.store[key] == Server.Entry(found, version)
      modifies client, inst
      ensures client.Valid() && client.Remembers(old(client.archive))
      ensures inst.Ok() && inst.Certified() == old(inst.Certified())
      ensures Continues(g, old(client.log), client.log)
      ensures if found.body.route.(tls := k.route.body.route.tls) == k.route.body.route
              then client.log == old(client.log)
              else Replaced(old(client.log), client.log, key, found, found.(body :=
                              Route(k.route.body.route.(tls := found.body.route.tls), found.body.ingress)))
      ensures client.calm ==> OnlyAt(old(client.store), client.store, key, client.barred)
      ensures client.quiet ==>
                Stepped(old(client.Contents()), Server.Mutations(old(client.log)), client.Contents(),
                        Server.Mutations(client.log), Slot(key, Owned(k.route, g.name), Compare), client.ip)
    {
      hide Server.Server.Valid, Continues, Stepped, SetCondition, Verdict, Clean, Overwrite, WithAddress;
      ghost var slot := Slot(key, Owned(k.route, g.name), Compare);
      ContinueNone(g, client.log);
      var uri := uriOf(found.body.ingress);
      if uri.Some? {
        inst.status := inst.status.(uri := uri.value);
      } else {
        inst.HandleErr("RouteIngressFailed");
      }
      var desired := k.route.body.route;
      var tls := found.body.route.tls;
      RouteOverwrite(found, Owned(k.route, g.name));
      if found.body.route.(tls := desired.tls) != desired {
        var updated := found.(body := Route(desired.(tls := tls), found.body.ingress));
        var ok := UpdateFound(g, updated, key, found, version, slot);
        if !ok { inst.HandleErr("UpdateRouteFailed"); }
      } else {
        if client.quiet { SyncStepped(client.Contents(), Server.Mutations(client.log), slot, client.ip); }
      }
    }

    /** The route that is there is brought in line, under whichever name; a
        missing one is created under the new name. */
    method EnsureRoute(ghost g: Grant, inst: Instance, k: Resources) returns (err: bool)
      requires client.Valid() && inst.Ok() && !g.refused && g.ns == inst.ns && g.name == inst.name
      requires k.route.body.Route? && k.route.meta.owner.None?
      modifies client, inst
      ensures client.Valid() && client.Remembers(old(client.archive))
      ensures inst.Ok() && inst.Certified() == old(inst.Certified())
      ensures Continues(g, old(client.log), client.log)
      ensures Routed(old(client.log), client.log, g.ns, g.name, Owned(k.route, g.name))
      ensures err <==> EndsBadly(client.log) && !JustUpdated(client.log)
      ensures client.calm ==>
                Spared(old(client.store), client.store, client.barred + {InstanceKey(g.ns, g.name)})
      ensures client.quiet ==> !err
      ensures client.quiet ==>
                var oldRoute := OldRouteKey(g.ns, g.name) in old(client.Contents());
                Stepped(old(client.Contents()), Server.Mutations(old(client.log)), client.Contents(),
                        Server.Mutations(client.log), SlotAt(8, g.ns, g.name, k, oldRoute), client.ip)
    {
      hide Server.Server.Valid, Server.Server.WasVersion, Continues, Stepped, SetCondition, Verdict, Clean, OnlyAt,
           Spared, Added, Replaced, Routed, Overwrite, SlotAt, Names.PolicyEngineRoute, Names.OldPolicyEngineRoute;
      ghost var start, was := client.log, client.store;
      RouteSlot(g, k);
      var key, r := FindExistingRoute(g, inst);
      ghost var mid := client.log;
      SparedNone(was, client.barred + {InstanceKey(g.ns, g.name)});
      match r {
        case Failure =>
          inst.HandleErr("GetRouteFailed");
          RoutedBy(start, mid, client.log, g.ns, g.name, Owned(k.route, g.name), key, r);
          return true;
        case NotFound =>
          err := CreateRoute(g, inst, k, key);
          AddedEnds(mid, client.log, key, Owned(k.route, g.name));
        case Found(found, version) =>
          RouteOverwrite(found, Owned(k.route, g.name));
          UpdateRoute(g, inst, k, key, found, version);
          if client.log != mid { ReplacedEnds(mid, client.log, key, found, Overwrite(found, Owned(k.route, g.name))); }
          err := false;
      }
      RoutedBy(start, mid, client.log, g.ns, g.name, Owned(k.route, g.name), key, r);
      ContinueOn(g, start, mid, client.log);
      if client.calm { SparedAt(was, client.store, key, client.barred, g.ns, g.name); }
    }

    // ---- The graph-data digest -------------------------------------------

    method CreatePod(ghost g: Grant, inst: Instance) returns (err: bool)
      requires JustMissed(client.log, PodKey(g.ns))
      requires client.Valid() && inst.Ok() && !g.refused && !g.pinned && g.ns == inst.ns && g.name == inst.name
      modifies client, inst
      ensures client.Valid() && client.Remembers(old(client.archive))
      ensures inst.Ok() && inst.Certified() == old(inst.Certified())
      ensures Continues(g, old(client.log), client.log) && Resolved(g, client.log) == Resolved(g, old(client.log))
      ensures Added(old(client.log), client.log, PodKey(g.ns), NewPod(g.name, inst.spec.graphDataImage))
      ensures err <==> EndsBadly(client.log)
      ensures client.calm ==> OnlyAt(old(client.store), client.store, PodKey(g.ns), client.barred)
      ensures client.quiet && PodKey(g.ns) !in old(client.store) ==>
                var key, pod := PodKey(g.ns), NewPod(g.name, inst.spec.graphDataImage);
                && !err && client.Contents() == old(client.Contents())[key := pod]
                && Server.Mutations(client.log)
                   == Server.Mutations(old(client.log)) + [Write(Create, key, true, None, Some(pod))]
    {
      hide Server.Server.Valid, Server.Server.Remembers, Continues, SetCondition, Verdict, Clean, Resolved, Admit,
           WithAddress;
      ghost var start := client.log;
      ContinueNone(g, start);
      var key := PodKey(inst.ns);
      var pod := NewPod(inst.name, inst.spec.graphDataImage);
      var ok, e := client.Create(key, pod);
      CreateStep(g, start, start, e, pod);
      PodAdmitted(key, pod, client.ip);
      DigestUnmoved(start, e, g);
      if !ok { inst.HandleErr("CreateGraphDataPodFailed"); }
      err := !ok;
    }

    method DeletePod(ghost g: Grant, inst: Instance) returns (err: bool)
      requires JustDone(client.log, PodKey(g.ns))
      requires client.Valid() && inst.Ok() && !g.refused && !g.pinned && g.ns == inst.ns
      modifies client, inst
      ensures client.Valid() && client.Remembers(old(client.archive))
      ensures inst.Ok() && inst.Certified() == old(inst.Certified())
      ensures Continues(g, old(client.log), client.log) && Resolved(g, client.log) == Resolved(g, old(client.log))
      ensures Removed(old(client.log), client.log, PodKey(g.ns)) && (err <==> EndsBadly(client.log))
      ensures client.calm ==> OnlyAt(old(client.store), client.store, PodKey(g.ns), client.barred)
      ensures client.quiet && PodKey(g.ns) in old(client.store) ==>
                var key, was := PodKey(g.ns), old(client.Contents());
                && !err && client.Contents() == was - {key}
                && Server.Mutations(client.log)
                   == Server.Mutations(old(client.log)) + [Write(Delete, key, true, Some(was[key]), None)]
    {
      hide Server.Server.Valid, Server.Server.Remembers, Continues, SetCondition, Verdict, Clean, Resolved;
      ghost var start := client.log;
      ContinueNone(g, start);
      var ok, e := client.Delete(PodKey(inst.ns));
      DeleteStep(g, start, start, e);
      DigestUnmoved(start, e, g);
      if !ok { inst.HandleErr("DeleteGraphDataPodFailed"); }
      err := !ok;
    }

    /** What follows once the pod was looked for. */
    method RenewPod(ghost g: Grant, inst: Instance, r: Reply) returns (sha: string, err: bool)
      requires client.Valid() && inst.Ok() && !g.refused && !g.pinned && g.ns == inst.ns && g.name == inst.name
      requires !Pinned(inst.spec.graphDataImage)
      requires EndsWith(client.log, Read(PodKey(g.ns), r)) && (r.Found? ==> r.obj.body.Pod?)
      requires client.calm ==>
                 r == if PodKey(g.ns) in client.store
                      then Found(client.store[PodKey(g.ns)].obj, client.store[PodKey(g.ns)].version) else NotFound
      modifies client, inst
      ensures client.Valid() && client.Remembers(old(client.archive))
      ensures inst.Ok() && inst.Certified() == old(inst.Certified())
      ensures Continues(g, old(client.log), client.log)
      ensures sha == Resolved(g, client.log) && (err ==> sha == "")
      ensures Renewed(old(client.log), client.log, g.ns, g.name, inst.spec.graphDataImage, r, sha)
      ensures err <==> EndsBadly(client.log)
      ensures client.calm ==> OnlyAt(old(client.store), client.store, PodKey(g.ns), client.barred)
      ensures client.quiet ==> PodStepped(old(client.Contents()), Server.Mutations(old(client.log)), client.Contents(),
                                          Server.Mutations(client.log), g, inst.spec.graphDataImage, sha)
    {
      hide Server.Server.Valid, Continues, SetCondition, Verdict, Clean, LastDigest, Pinned, PodStepped, Resolved;
      ghost var st, muts := client.Contents(), Server.Mutations(client.log);
      ContinueNone(g, client.log);
      PodFacts(st, muts, g, inst.spec.graphDataImage);
      DigestAbout(client.log, g, r);
      sha, err := "", false;
      match r {
        case NotFound => err := CreatePod(g, inst);
        case Failure =>
          inst.HandleErr("GetGraphDataPodFailed");
          err := true;
        case Found(found, version) =>
          if found.body.phase.Succeeded? {
            err := DeletePod(g, inst);
          } else if |found.body.imageIDs| > 0 {
            sha := found.body.imageIDs[0];
          } else {
            inst.HandleErr("GraphDataPodStatusEmpty");
          }
      }
    }

    /** Keeps a pod that pulls the graph-data tag and reads the digest it
        resolved to. */
    method EnsureGraphDataSHA(ghost g: Grant, inst: Instance) returns (sha: string, err: bool)
      requires client.Valid() && inst.Ok() && !g.refused && g.ns == inst.ns && g.name == inst.name
      requires g.pinned == Pinned(inst.spec.graphDataImage)
      modifies client, inst
      ensures client.Valid() && client.Remembers(old(client.archive))
      ensures inst.Ok() && inst.Certified() == old(inst.Certified())
      ensures Continues(g, old(client.log), client.log)
      ensures sha == Resolved(g, client.log) && (err ==> sha == "")
      ensures Resolving(old(client.log), client.log, g.ns, g.name, inst.spec.graphDataImage, sha)
      ensures if Occurs("@sha256", inst.spec.graphDataImage) then client.log == old(client.log) && sha == ""
              else LookedFor(old(client.log), client.log, PodKey(g.ns), sha)
      ensures err <==> !g.pinned && EndsBadly(client.log)
      ensures client.calm ==> OnlyAt(old(client.store), client.store, PodKey(g.ns), client.barred)
      ensures client.quiet ==> PodStepped(old(client.Contents()), Server.Mutations(old(client.log)), client.Contents(),
                                          Server.Mutations(client.log), g, inst.spec.graphDataImage, sha)
    {
      hide Server.Server.Valid, Continues, SetCondition, Verdict, Clean, LastDigest, Pinned, PodStepped, Resolved,
           Resolving, Renewed, LookedFor, Occurs;
      ghost var start := client.log;
      ContinueNone(g, start);
      PinnedImages(inst.spec.graphDataImage);
      ResolvingNot(start, g.ns, g.name, inst.spec.graphDataImage);
      if Pinned(inst.spec.graphDataImage) {
        PodFacts(client.Contents(), Server.Mutations(client.log), g, inst.spec.graphDataImage);
        NoneResolved(g, start);
        return "", false;
      }
      var r := client.Get(PodKey(inst.ns));
      ContinueRead(g, start, start, PodKey(inst.ns), r);
      ghost var mid := client.log;
      sha, err := RenewPod(g, inst, r);
      ContinueOn(g, start, mid, client.log);
      ContinueLonger(g, mid, client.log);
      ResolvingOn(start, mid, client.log, g.ns, g.name, inst.spec.graphDataImage, r, sha);
    }

    // ---- The Deployment --------------------------------------------------

    method CreateDeployment(ghost g: Grant, inst: Instance, k: Resources, ghost sha: string) returns (err: bool)
      requires client.Valid() && inst.Ok() && !g.refused && g.ns == inst.ns && g.name == inst.name
      requires k.deployment.body.Deployment? && k.deployment.meta.owner.None? && Merge.Proper(WantedOf(k))
      requires JustMissed(client.log, DeploymentKey(g.ns, g.name))
      modifies client, inst
      ensures client.Valid() && client.Remembers(old(client.archive))
      ensures inst.Ok() && inst.Certified() == old(inst.Certified())
      ensures Continues(g, old(client.log), client.log)
      ensures Added(old(client.log), client.log, DeploymentKey(g.ns, g.name), Owned(k.deployment, g.name))
      ensures err <==> EndsBadly(client.log)
      ensures client.calm ==> OnlyAt(old(client.store), client.store, DeploymentKey(g.ns, g.name), client.barred)
      ensures client.calm && DeploymentKey(g.ns, g.name) !in client.barred + old(client.store).Keys ==> !err
      ensures client.quiet && DeploymentKey(g.ns, g.name) !in old(client.store) ==>
                Stepped(old(client.Contents()), Server.Mutations(old(client.log)), client.Contents(),
                        Server.Mutations(client.log), DeploymentSlot(g.ns, g.name, k, sha), client.ip)
    {
      hide Server.Server.Valid, Server.Server.Remembers, Continues, Stepped, SetCondition, Verdict, Clean,
           Merge.Proper, DigestOf;
      var owned := SetOwner(k.deployment, inst.name);
      CreatedDigest(k, inst.name);
      var ok := CreateNew(g, owned.value, DeploymentKey(inst.ns, inst.name), DeploymentSlot(g.ns, g.name, k, sha));
      if !ok { inst.HandleErr("CreateDeploymentFailed"); }
      err := !ok;
    }

    /** Merges in place, in a copy of what was found. */
    method MergedCopy(found: DeploymentSpec, w: Merge.Wanted, sha: string)
      returns (spec: DeploymentSpec, hasGraphData: bool)
      ensures spec == Merge.Merge(found, w, sha) && hasGraphData == Merge.HasGraphData(found)
    {
      hide Merge.Merge, Merge.HasGraphData;
      var draft := new Merge.Draft(found);
      var updated;
      updated, hasGraphData := Merge.MergeInPlace(draft, w, sha);
      spec := updated.Snapshot();
    }

    /** Merges into a copy of what was found and writes the copy if it differs.
        Without the graph-data init container nothing is written and no error
        returned. */
    method UpdateDeployment(ghost g: Grant, inst: Instance, k: Resources, sha: string, obj: Object, version: nat)
      returns (err: bool)
      requires client.Valid() && inst.Ok() && !g.refused && g.ns == inst.ns && g.name == inst.name
      requires k.deployment.body.Deployment? && Merge.Proper(WantedOf(k)) && obj.body.Deployment?
      requires sha == Resolved(g, client.log) && JustFound(client.log, DeploymentKey(g.ns, g.name), obj)
      requires client.WasVersion(version, DeploymentKey(g.ns, g.name), obj)
      requires client.calm ==>
                 var key := DeploymentKey(g.ns, g.name);
                 key in client.store && client.store[key] == Server.Entry(obj, version)
      modifies client, inst
      ensures client.Valid() && client.Remembers(old(client.archive))
      ensures inst.Ok() && inst.Certified() == old(inst.Certified())
      ensures Continues(g, old(client.log), client.log)
      ensures if Merge.HasGraphData(obj.body.deployment)
                 && Merge.Merge(obj.body.deployment, WantedOf(k), sha) != obj.body.deployment
              then Replaced(old(client.log), client.log, DeploymentKey(g.ns, g.name), obj,
                            obj.(body := Deployment(Merge.Merge(obj.body.deployment, WantedOf(k), sha))))
                   && (err <==> EndsBadly(client.log))
              else client.log == old(client.log) && !err
      ensures client.calm ==> OnlyAt(old(client.store), client.store, DeploymentKey(g.ns, g.name), client.barred)
      ensures client.calm && DeploymentKey(g.ns, g.name) !in client.barred ==> !err
      ensures client.quiet ==>
                Stepped(old(client.Contents()), Server.Mutations(old(client.log)), client.Contents(),
                        Server.Mutations(client.log), DeploymentSlot(g.ns, g.name, k, sha), client.ip)
    {
      hide Server.Server.Valid, Continues, Stepped, SetCondition, Verdict, Clean, Resolved, Merge.Merge, Merge.Proper,
           Merge.HasGraphData, Adjust, KindOf;
      ghost var start, st, muts := client.log, client.Contents(), Server.Mutations(client.log);
      ghost var slot := DeploymentSlot(g.ns, g.name, k, sha);
      DeploymentAdjust(g, k, sha, obj);
      ContinueNone(g, start);
      var spec, hasGraphData := MergedCopy(obj.body.deployment, WantedOf(k), sha);
      if !hasGraphData {
        inst.HandleErr("UpdateDeploymentFailed");
        if client.quiet { SyncStepped(st, muts, slot, client.ip); }
        return false;
      }
      err := false;
      if spec != obj.body.deployment {
        var ok, e := client.Update(DeploymentKey(inst.ns, inst.name), obj.(body := Deployment(spec)), version, obj);
        MergeStep(g, start, start, e, obj, WantedOf(k), sha);
        if client.quiet { UpdateStepped(st, muts, e, slot, client.ip); }
        if !ok { inst.HandleErr("UpdateDeploymentFailed"); }
        err := !ok;
      } else {
        if client.quiet { SyncStepped(st, muts, slot, client.ip); }
      }
    }

    /** Creates the Deployment or merges into what is there. */
    method EnsureDeployment(ghost g: Grant, inst: Instance, k: Resources, sha: string) returns (err: bool)
      requires client.Valid() && inst.Ok() && !g.refused && g.ns == inst.ns && g.name == inst.name
      requires k.deployment.body.Deployment? && k.deployment.meta.owner.None? && Merge.Proper(WantedOf(k))
      requires sha == Resolved(g, client.log)
      modifies client, inst
      ensures client.Valid() && client.Remembers(old(client.archive))
      ensures inst.Ok() && inst.Certified() == old(inst.Certified())
      ensures Continues(g, old(client.log), client.log)
      ensures Merged(old(client.log), client.log, DeploymentKey(g.ns, g.name), Owned(k.deployment, g.name), WantedOf(k),
                     sha)
      ensures err <==> EndsBadly(client.log)
      ensures client.calm ==> OnlyAt(old(client.store), client.store, DeploymentKey(g.ns, g.name), client.barred)
      ensures client.calm && DeploymentKey(g.ns, g.name) !in client.barred ==> !err
      ensures client.quiet ==>
                Stepped(old(client.Contents()), Server.Mutations(old(client.log)), client.Contents(),
                        Server.Mutations(client.log), DeploymentSlot(g.ns, g.name, k, sha), client.ip)
    {
      hide Server.Server.Valid, Continues, Stepped, SetCondition, Verdict, Clean, Resolved, Merge.Proper, Merge.Merge,
           Merge.HasGraphData;
      ghost var start := client.log;
      ContinueNone(g, start);
      var key := DeploymentKey(inst.ns, inst.name);
      var r := client.Get(key);
      ContinueRead(g, start, start, key, r);
      ghost var mid := client.log;
      assert mid[|start|] == Read(key, r) && mid == start + [mid[|start|]];
      DigestUnmoved(start, Read(key, r), g);
      match r {
        case NotFound =>
          err := CreateDeployment(g, inst, k, sha);
          ContinueOn(g, start, mid, client.log);
        case Failure =>
          inst.HandleErr("GetDeploymentFailed");
          err := true;
        case Found(obj, version) =>
          err := UpdateDeployment(g, inst, k, sha, obj, version);
          ContinueOn(g, start, mid, client.log);
      }
    }

    // ---- A pass ----------------------------------------------------------

    /** The i-th of the ensure functions. */
    method EnsureStep(i: nat, ghost g: Grant, inst: Instance, k: Resources) returns (err: bool)
      requires client.Valid() && inst.Ok() && !g.refused && g.ns == inst.ns && g.name == inst.name
      requires i < STEPS && Sound(k)
      requires client.quiet && i == 3 && ClusterCAKey(g.ns) !in client.Contents() && k.clusterCA.Some? ==>
                 k.clusterCA.value.meta.owner.None?
      modifies client, inst
      ensures client.Valid() && client.Remembers(old(client.archive))
      ensures inst.Ok() && CertifiedStep(i, k, old(inst.Certified()), inst.Certified())
      ensures Continues(g, old(client.log), client.log)
      ensures StepTrail(i, g.ns, g.name, k, old(client.log), client.log)
      ensures err <==> StepFails(i, g.ns, old(client.log), client.log)
      ensures client.calm ==>
                Spared(old(client.store), client.store, client.barred + {InstanceKey(g.ns, g.name)})
      ensures client.quiet ==> !err
      ensures client.quiet ==>
                var oldRoute := OldRouteKey(g.ns, g.name) in old(client.Contents());
                Stepped(old(client.Contents()), Server.Mutations(old(client.log)), client.Contents(),
                        Server.Mutations(client.log), SlotAt(i, g.ns, g.name, k, oldRoute), client.ip)
    {
      hide Server.Server.Valid, Continues, Stepped, SetCondition, Verdict, Clean, Merge.Proper, KindOf, InFootprint,
           Compared, Routed, StepTrail, StepFails;
      StepFacts(i, g, k);
      ghost var start, was := client.log, client.store;
      ghost var s := SlotAt(i, g.ns, g.name, k, false);
      match i {
        case 0 => err := EnsureObject(g, inst, Key(ConfigMapKind, inst.ns, Names.Config(inst.name)),
                                      Owned(k.graphBuilderConfig, inst.name), "EnsureConfigMapFailed");
        case 1 => err := EnsureObject(g, inst, Key(SecretKind, inst.ns, Names.PullSecretCopy(inst.name)),
                                      Owned(k.pullSecret, inst.name), "EnsureSecretFailed");
        case 2 => err := EnsureObject(g, inst, Key(ConfigMapKind, inst.ns, Names.EnvConfig(inst.name)),
                                      Owned(k.envConfig, inst.name), "EnsureConfigMapFailed");
        case 3 => err := EnsureTrustedClusterCA(g, inst, k);
        case 4 => err := EnsureAdditionalTrustedCA(g, inst, k);
        case 5 => err := EnsureObject(g, inst, Key(ServiceKind, inst.ns, Names.GraphBuilderService(inst.name)),
                                      Owned(k.graphBuilderService, inst.name), "EnsureServiceFailed");
        case 6 => err := EnsureObject(g, inst, Key(ServiceKind, inst.ns, Names.PolicyEngineService(inst.name)),
                                      Owned(k.policyEngineService, inst.name), "EnsureServiceFailed");
        case 7 => err := EnsureRecorded(g, inst, Key(BudgetKind, inst.ns, Names.PodDisruptionBudget(inst.name)),
                                        Owned(k.budget, inst.name));
        case 8 => err := EnsureRoute(g, inst, k);
        case _ => err := EnsureRecorded(g, inst, Key(NetworkPolicyKind, inst.ns, Names.NetworkPolicy(inst.name)),
                                        Owned(k.networkPolicy, inst.name));
      }
      StepVerdict(i, g, k, start, client.log, err);
      if client.calm && i != 8 { SparedAt(was, client.store, s.key, client.barred, g.ns, g.name); }
    }

    /** The ensure functions one after the other, until one returns an error. */
    method RunSteps(ghost g: Grant, inst: Instance, k: Resources) returns (err: bool, ghost marks: seq<nat>)
      requires client.Valid() && inst.Ok() && !g.refused && g.ns == inst.ns && g.name == inst.name
      requires Sound(k)
      requires client.quiet && ClusterCAKey(g.ns) !in client.Contents() && k.clusterCA.Some? ==>
                 k.clusterCA.value.meta.owner.None?
      modifies client, inst
      ensures client.Valid() && client.Remembers(old(client.archive))
      ensures inst.Ok()
      ensures k.trustedCA.None? && old(inst.Certified()) == Some(false) ==> inst.Certified() == Some(false)
      ensures !err && k.trustedCA.Some? ==> inst.Certified() == Some(true)
      ensures Continues(g, old(client.log), client.log)
      ensures Marched(g.ns, g.name, k, old(client.log), client.log, marks, err)
      ensures client.calm ==>
                Spared(old(client.store), client.store, client.barred + {InstanceKey(g.ns, g.name)})
      ensures client.quiet ==> !err
      ensures client.quiet ==>
                StepsDone(old(client.Contents()), Server.Mutations(old(client.log)), client.Contents(),
                          Server.Mutations(client.log), g, k, STEPS, client.ip)
    {
      hide Server.Server.Valid, Continues, Stepped, StepsDone, SetCondition, Verdict, Clean, Sound, SlotAt, Strides,
           StepFails, StepTrail, Spared;
      ghost var start, was, st, muts := client.log, client.store, client.Contents(), Server.Mutations(client.log);
      ghost var safe := client.barred + {InstanceKey(g.ns, g.name)};
      ContinueNone(g, start);
      StepsNone(st, muts, g, k, client.ip);
      StrideNone(g.ns, g.name, k, start);
      SparedNone(was, safe);
      marks := [|start|];
      var i := 0;
      err := false;
      while i < STEPS && !err
        invariant i <= STEPS && client.Valid() && client.Remembers(old(client.archive))
        invariant inst.Ok() && Continues(g, start, client.log)
        invariant |marks| == i + 1 && Strides(g.ns, g.name, k, start, client.log, marks, err)
        invariant k.trustedCA.None? && old(inst.Certified()) == Some(false) ==> inst.Certified() == Some(false)
        invariant !err && i > 4 && k.trustedCA.Some? ==> inst.Certified() == Some(true)
        invariant client.calm ==> Spared(was, client.store, safe)
        invariant client.quiet ==> !err
        invariant client.quiet ==>
                    StepsDone(st, muts, client.Contents(), Server.Mutations(client.log), g, k, i, client.ip)
        decreases STEPS - i
      {
        ghost var log, store := client.log, client.store;
        ghost var mid, before := client.Contents(), Server.Mutations(client.log);
        if client.quiet { StepAhead(st, muts, mid, before, g, k, i, client.ip); }
        err := EnsureStep(i, g, inst, k);
        ContinueOn(g, start, log, client.log);
        ContinueLonger(g, log, client.log);
        StrideOn(g.ns, g.name, k, start, log, client.log, marks, err);
        marks := marks + [|client.log|];
        if client.calm { SparedOn(was, store, client.store, safe); }
        if client.quiet {
          StepTaken(st, muts, mid, before, client.Contents(), Server.Mutations(client.log), g, k, i, client.ip);
        }
        i := i + 1;
      }
    }

    /** Looks around and renders what the instance should have. */
    method Prepare(ghost g: Grant, inst: Instance) returns (k: Option<Resources>, ghost searched: nat)
      requires client.Valid() && inst.Ok() && g.ns == inst.ns && g.name == inst.name
      requires g.ns == cfg.ns && RouteName.Acceptable(g.name, g.ns)
      modifies client, inst
      ensures client.Valid() && client.Remembers(old(client.archive))
      ensures inst.Ok() && Continues(g, old(client.log), client.log)
      ensures Scouted(cfg, g.ns, g.name, inst.spec, old(client.log), client.log, searched, k)
      ensures k.Some? ==> Sound(k.value) && (k.value.trustedCA.None? ==> inst.Certified() == Some(false))
      ensures client.calm ==> client.store == old(client.store)
      ensures Server.Mutations(client.log) == Server.Mutations(old(client.log))
      ensures client.calm && SpecAt(client.Contents(), InstanceKey(g.ns, g.name)) == Some(inst.spec) ==>
                k == Rendered(Decide(client.Contents(), cfg, g.ns, g.name))
    {
      hide Server.Server.Valid, Continues, SetCondition, Verdict, Clean, Decide, Render, FindTrustedCA, ClusterCAFound,
           Sound, NewClusterCA, RouteName.Acceptable, Searched, Scouted, SecretAt, SpecAt;
      ghost var start := client.log;
      ghost var known := client.calm && SpecAt(client.Contents(), InstanceKey(g.ns, g.name)) == Some(inst.spec);
      if known { DecideIs(client.Contents(), cfg, g.ns, g.name); }
      var secret := FindPullSecret(g, inst);
      ghost var mid := client.log;
      searched := 0;
      if secret.None? {
        ScoutedNoSecret(cfg, g.ns, g.name, inst.spec, start, mid, searched);
        return None, searched;
      }
      var ca, err := FindTrustedCAConfig(g, inst);
      ContinueOn(g, start, mid, client.log);
      ghost var far := client.log;
      searched := |far|;
      if err {
        ScoutedInVain(cfg, g.ns, g.name, inst.spec, start, mid, far);
        return None, searched;
      }
      var bundle, missing, _ := FindTrustedClusterCA(g, inst);
      ContinueOn(g, start, far, client.log);
      RenderAgain(cfg, inst.name, inst.spec, secret.value, ca);
      ClusterCAKind(cfg);
      NoBundle();
      if missing { bundle := NewClusterCA(cfg.env, None); }
      k := NewKubeResources(cfg, inst.name, inst.spec, secret.value, ca, bundle);
      ScoutedAll(cfg, g.ns, g.name, inst.spec, start, mid, far, client.log, secret.value, k);
      if k.Some? { RenderSound(cfg, inst.name, inst.spec, secret.value, ca, bundle, k.value); }
    }

    /** The steps, the digest and the Deployment. An error of a step is
        forgotten once the digest has been looked up. */
    method EnsureAll(ghost g: Grant, inst: Instance, k: Resources, ghost searched: nat)
      returns (err: bool, ghost t: Trail)
      requires client.Valid() && inst.Ok() && g.ns == inst.ns && g.name == inst.name && !g.refused
      requires Sound(k) && g.pinned == Pinned(inst.spec.graphDataImage)
      requires client.quiet && ClusterCAKey(g.ns) !in client.Contents() && k.clusterCA.Some? ==>
                 k.clusterCA.value.meta.owner.None?
      modifies client, inst
      ensures client.Valid() && client.Remembers(old(client.archive))
      ensures inst.Ok() && Continues(g, old(client.log), client.log)
      ensures t.Ran? && t.searched == searched && t.scouted == |old(client.log)| && t.k == k
      ensures Ensured(g.ns, g.name, inst.spec.graphDataImage, old(client.log), client.log, t, err)
      ensures client.calm && DeploymentKey(g.ns, g.name) !in client.barred ==> !err
      ensures client.calm ==>
                Spared(old(client.store), client.store, client.barred + {InstanceKey(g.ns, g.name)})
      ensures client.quiet && k.trustedCA.None? && old(inst.Certified()) == Some(false) ==>
                inst.Certified() == Some(false)
      ensures client.quiet && k.trustedCA.Some? ==> inst.Certified() == Some(true)
      ensures client.quiet ==>
                AllDone(old(client.Contents()), Server.Mutations(old(client.log)), client.Contents(),
                        Server.Mutations(client.log), g, k, inst.spec.graphDataImage, client.ip)
    {
      hide Server.Server.Valid, Continues, SetCondition, Verdict, Clean, Pinned, StepsDone, PodStepped, Stepped,
           AllDone, Resolved, Merge.Proper, Marched, Merged, Spared, OnlyAt, Ensured;
      ghost var start, was, st, muts := client.log, client.store, client.Contents(), Server.Mutations(client.log);
      ghost var safe := client.barred + {InstanceKey(g.ns, g.name)};
      ghost var marks;
      err, marks := RunSteps(g, inst, k);
      ghost var stopped := err;
      ghost var log1, was1, st1, muts1 := client.log, client.store, client.Contents(), Server.Mutations(client.log);
      var sha;
      sha, err := EnsureGraphDataSHA(g, inst);
      ContinueOn(g, start, log1, client.log);
      ContinueLonger(g, log1, client.log);
      ghost var log2, was2, st2, muts2 := client.log, client.store, client.Contents(), Server.Mutations(client.log);
      if err { sha := ""; }
      err := EnsureDeployment(g, inst, k, sha);
      ContinueOn(g, start, log2, client.log);
      t := Ran(searched, |start|, k, marks, stopped, |log2|, sha);
      ContinueLonger(g, start, log1);
      ContinueLonger(g, log2, client.log);
      EnsuredAll(g, inst.spec.graphDataImage, start, log1, log2, client.log, t, err);
      if client.calm {
        SparedAt(was1, was2, PodKey(g.ns), client.barred, g.ns, g.name);
        SparedAt(was2, client.store, DeploymentKey(g.ns, g.name), client.barred, g.ns, g.name);
        SparedOn(was, was1, was2, safe);
        SparedOn(was, was2, client.store, safe);
      }
      if client.quiet {
        AllTaken(st, muts, st1, muts1, st2, muts2, client.Contents(), Server.Mutations(client.log),
                 g, k, inst.spec.graphDataImage, sha, client.ip);
      }
    }

    /** One pass up to, and without, writing the status. */
    method Pass(ghost g: Grant, inst: Instance) returns (err: bool, ghost t: Trail)
      requires client.Valid() && inst.Ok() && g.ns == inst.ns && g.name == inst.name && !g.refused
      requires g.ns == cfg.ns && RouteName.Acceptable(g.name, g.ns)
      requires g.pinned == Pinned(inst.spec.graphDataImage)
      requires client.calm ==> SpecAt(client.Contents(), InstanceKey(g.ns, g.name)) == Some(inst.spec)
      modifies client, inst
      ensures client.Valid() && client.Remembers(old(client.archive))
      ensures inst.Ok() && Continues(g, old(client.log), client.log)
      ensures Passage(cfg, g.ns, g.name, inst.spec, old(client.log), client.log, t, err)
      ensures t.Halted? ==> Server.Mutations(client.log) == Server.Mutations(old(client.log))
      ensures !err ==> Verdict(inst.status.conditions, ReconcileCompleted) == Some(true)
      ensures client.calm && DeploymentKey(g.ns, g.name) !in client.barred ==>
                (err <==> !Decide(old(client.Contents()), cfg, g.ns, g.name).Ready?)
      ensures client.calm ==>
                Spared(old(client.store), client.store, client.barred + {InstanceKey(g.ns, g.name)})
      ensures client.quiet ==>
                && Passed(old(client.Contents()), Server.Mutations(old(client.log)), client.Contents(),
                          Server.Mutations(client.log), cfg, g, client.ip)
                && (!err ==> inst.Certified() == Some(FindTrustedCA(old(client.Contents())).Certificates?))
    {
      hide Server.Server.Valid, Continues, SetCondition, Verdict, Clean, Decide, FindTrustedCA, Sound, Spared,
           RouteName.Acceptable, Pinned, AllDone, Passed, Scouted, Ensured;
      ghost var start, st, muts := client.log, client.Contents(), Server.Mutations(client.log);
      ghost var searched;
      var k;
      k, searched := Prepare(g, inst);
      if client.quiet { DecideFacts(st, muts, cfg, g, client.ip); }
      ghost var mid := client.log;
      if k.None? {
        SparedNone(client.store, client.barred + {InstanceKey(g.ns, g.name)});
        return true, Halted(searched);
      }
      inst.Set(ReconcileCompleted, false, "Reconcile started");
      err, t := EnsureAll(g, inst, k.value, searched);
      ContinueOn(g, start, mid, client.log);
      ContinueLonger(g, start, mid);
      ContinueLonger(g, mid, client.log);
      PassageRuns(cfg, g.ns, g.name, inst.spec, start, mid, client.log, t, err);
      if client.quiet {
        PassDone(st, muts, client.Contents(), Server.Mutations(client.log), cfg, g, k.value,
                 inst.spec.graphDataImage, client.ip);
      }
      if !err { inst.Set(ReconcileCompleted, true, "Success"); }
    }

    /** Writes the working copy's status; a failure is only logged. */
    method Publish(ghost g: Grant, inst: Instance, found: Object, version: nat)
      requires client.Valid() && g.ns == inst.ns && g.name == inst.name && Publishable(inst.status)
      requires found.body.UpdateService? && found.body.spec == inst.spec
      requires client.WasVersion(version, InstanceKey(g.ns, g.name), found)
      requires client.calm ==>
                 var key := InstanceKey(g.ns, g.name);
                 key in client.store && client.store[key] == Server.Entry(found, version)
      modifies client
      ensures client.Valid() && client.Remembers(old(client.archive))
      ensures Continues(g, old(client.log), client.log)
      ensures StatusWritten(g.ns, g.name, old(client.log), client.log)
      ensures Server.Mutations(client.log) == Server.Mutations(old(client.log))
      ensures client.calm ==> OnlyAt(old(client.store), client.store, InstanceKey(g.ns, g.name), client.barred)
      ensures client.calm && InstanceKey(g.ns, g.name) !in client.barred ==>
                client.Contents() == old(client.Contents())[InstanceKey(g.ns, g.name) :=
                                       found.(body := UpdateService(found.body.spec, inst.status))]
    {
      hide Server.Server.Valid, Server.Server.Remembers, Continues, Publishable;
      ghost var start := client.log;
      ContinueNone(g, start);
      var key := InstanceKey(inst.ns, inst.name);
      var ok, e := client.PutStatus(key, found.(body := UpdateService(inst.spec, inst.status)), version, found);
      StatusStep(g, start, e, found, inst.status);
    }

    /** A refused name is reported and nothing else is done. */
    method Refuse(ghost g: Grant, inst: Instance, found: Object, version: nat)
      requires client.Valid() && g.ns == inst.ns && g.name == inst.name && inst.status == Status([], "")
      requires found.body.UpdateService? && found.body.spec == inst.spec
      requires client.WasVersion(version, InstanceKey(g.ns, g.name), found)
      requires client.calm ==>
                 var key := InstanceKey(g.ns, g.name);
                 key in client.store && client.store[key] == Server.Entry(found, version)
      modifies client, inst
      ensures client.Valid() && client.Remembers(old(client.archive))
      ensures Continues(g, old(client.log), client.log)
      ensures StatusWritten(g.ns, g.name, old(client.log), client.log)
      ensures Server.Mutations(client.log) == Server.Mutations(old(client.log))
      ensures client.calm ==> OnlyAt(old(client.store), client.store, InstanceKey(g.ns, g.name), client.barred)
      ensures client.quiet && Decide(old(client.Contents()), cfg, g.ns, g.name).Rejected? ==>
                && Issued(old(client.Contents()), cfg, g.ns, g.name, client.ip) == []
                && Left(old(client.Contents()), client.Contents(), cfg, g.ns, g.name, client.ip)
    {
      hide Server.Server.Valid, Server.Server.Remembers, Continues, Decide, Left, SetCondition, Publishable;
      ghost var st := client.Contents();
      inst.Set(ReconcileError, true, "Unable to create UpdateService route");
      RefusedStatus(inst.status.conditions, inst.status.uri);
      Publish(g, inst, found, version);
      if client.quiet && Decide(st, cfg, g.ns, g.name).Rejected? {
        RejectLeft(st, cfg, g.ns, g.name, client.ip, inst.status);
      }
    }

    /** What follows once the instance has been read. */
    method ReconcileInstance(ghost g: Grant, ns: string, name: string, found: Object, version: nat)
      returns (requeueAfter: nat, err: bool, ghost t: Trail)
      requires client.Valid() && g == Grant(ns, name, g.pinned, !RouteName.Acceptable(name, ns)) && ns == cfg.ns
      requires found.body.UpdateService? && g.pinned == Pinned(found.body.spec.graphDataImage)
      requires client.WasVersion(version, InstanceKey(ns, name), found)
      requires client.calm ==>
                 var key := InstanceKey(ns, name);
                 key in client.store && client.store[key] == Server.Entry(found, version)
      modifies client
      ensures client.Valid() && client.Remembers(old(client.archive))
      ensures Continues(g, old(client.log), client.log)
      ensures Finished(cfg, ns, name, found.body.spec, g.refused, old(client.log), client.log, t, err)
      ensures requeueAfter == if err || g.refused then 0 else MINUTES
      ensures client.calm && DeploymentKey(ns, name) !in client.barred ==>
                (requeueAfter != 0 <==> Decide(old(client.Contents()), cfg, ns, name).Ready?)
      ensures client.calm ==> Spared(old(client.store), client.store, client.barred)
      ensures client.calm && requeueAfter != 0 && InstanceKey(ns, name) !in client.barred ==>
                SaysCompleted(Lookup(client.Contents(), InstanceKey(ns, name)))
      ensures client.quiet ==>
                && Server.Mutations(client.log)
                   == Server.Mutations(old(client.log)) + Issued(old(client.Contents()), cfg, ns, name, client.ip)
                && Left(old(client.Contents()), client.Contents(), cfg, ns, name, client.ip)
                && (err <==> Decide(old(client.Contents()), cfg, ns, name).Blocked?)
    {
      hide Server.Server.Valid, Continues, Decide, FindTrustedCA, RouteName.Acceptable, Pinned, Left, SetCondition,
           Verdict, Clean, Publishable, Reconciled, Issued, Spared, OnlyAt, Passage, StatusWritten;
      ghost var start, was, st := client.log, client.store, client.Contents();
      ghost var key := InstanceKey(ns, name);
      var inst := new Instance(ns, name, found.body.spec);
      NewStatusClean();
      var reasons := RouteName.ValidateRouteName(name, ns);
      if client.calm { DecideKinds(st, cfg, ns, name); }
      if reasons != [] {
        Refuse(g, inst, found, version);
        if client.calm { SparedBut(was, client.store, key, client.barred); }
        return 0, false, Halted(0);
      }
      err, t := Pass(g, inst);
      ghost var mid, was1, st1 := client.log, client.store, client.Contents();
      if client.calm { SparedFewer(was, was1, client.barred, key); }
      if err {
        if client.quiet { BlockedLeft(st, cfg, ns, name, client.ip); }
        return 0, true, t;
      }
      CompletedStatus(inst.status);
      Publish(g, inst, found, version);
      ContinueOn(g, start, mid, client.log);
      ContinueLonger(g, start, mid);
      FinishedWell(cfg, ns, name, found.body.spec, start, mid, client.log, t);
      if client.calm {
        SparedBut(was1, client.store, key, client.barred);
        SparedOn(was, was1, client.store, client.barred);
      }
      if client.quiet { ReadyLeft(st, st1, cfg, g, client.ip, inst.status); }
      return MINUTES, false, t;
    }

    /** Handles one request. The grant tells on whose behalf and within what
        bounds the calls were made, the trail which calls they were. */
    method Reconcile(ns: string, name: string) returns (requeueAfter: nat, err: bool, ghost g: Grant, ghost t: Trail)
      requires client.Valid()
      modifies client
      ensures client.Valid() && client.Remembers(old(client.archive))
      ensures g.ns == ns && g.name == name && (g.refused <==> !RouteName.Acceptable(name, ns))
      ensures ns != cfg.ns ==> client.log == old(client.log) && client.store == old(client.store) && !err
      ensures ns == cfg.ns ==>
                && Attended(g, old(client.log), client.log)
                && Handled(cfg, ns, name, g.refused, old(client.log), client.log, t, err)
      ensures requeueAfter == (if ns != cfg.ns || err || g.refused || !client.log[|old(client.log)|].reply.Found?
                               then 0 else MINUTES)
      ensures client.calm && DeploymentKey(ns, name) !in client.barred ==>
                (requeueAfter != 0 <==> Decide(old(client.Contents()), cfg, ns, name).Ready?)
      ensures client.calm ==> Spared(old(client.store), client.store, client.barred)
      ensures client.calm && requeueAfter != 0 && InstanceKey(ns, name) !in client.barred ==>
                SaysCompleted(Lookup(client.Contents(), InstanceKey(ns, name)))
      ensures client.quiet ==>
                && Server.Mutations(client.log)
                   == Server.Mutations(old(client.log)) + Issued(old(client.Contents()), cfg, ns, name, client.ip)
                && Left(old(client.Contents()), client.Contents(), cfg, ns, name, client.ip)
                && (err <==> Decide(old(client.Contents()), cfg, ns, name).Blocked?)
    {
      hide Server.Server.Valid, Continues, Decide, FindTrustedCA, RouteName.Acceptable, Pinned, Passed, Left,
           SetCondition, Verdict, Clean, Issued, Finished, Spared, SaysCompleted;
      g, t := Grant(ns, name, false, !RouteName.Acceptable(name, ns)), Halted(0);
      ghost var start, st := client.log, client.Contents();
      SparedNone(client.store, client.barred);
      if client.calm { IdleLeft(st, cfg, ns, name, client.ip); }
      if ns != cfg.ns { return 0, false, g, t; }
      var key := InstanceKey(ns, name);
      var r := client.Get(key);
      ghost var mid := client.log;
      assert mid[|start|] == Read(key, r) && mid == start + [mid[|start|]];
      if !r.Found? { return 0, r.Failure?, g, t; }
      g := g.(pinned := Pinned(r.obj.body.spec.graphDataImage));
      requeueAfter, err, t := ReconcileInstance(g, ns, name, r.obj, r.version);
      ContinueLonger(g, mid, client.log);
    }

    /** Handles requests one after the other, whatever they are and whatever
        happens in between. */
    method Run(requests: seq<(string, string)>)
      requires client.Valid()
      modifies client
      ensures client.Valid() && client.Remembers(old(client.archive))
      ensures Behaved(cfg.ns, set r <- requests :: r.1, old(client.log), client.log)
    {
      hide Decide, Left, Issued, Handled, RouteName.Acceptable, Spared, SaysCompleted;
      hide Server.Server.Valid, Attended, Behaved;
      ghost var start, names := client.log, set r <- requests :: r.1;
      BehaveNot(cfg.ns, names, start);
      for i := 0 to |requests|
        invariant client.Valid() && client.Remembers(old(client.archive))
        invariant Behaved(cfg.ns, names, start, client.log)
      {
        var (ns, name) := requests[i];
        ghost var mid := client.log;
        var _, _, g, _ := Reconcile(ns, name);
        assert requests[i].1 in names;
        if ns == cfg.ns { BehaveOn(cfg.ns, names, start, mid, client.log, g); }
      }
    }
  }
}
