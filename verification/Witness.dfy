/** Particular requests: one that completes although a step failed, and pairs that
    follow each other. */
module Witness {
  import opened Text
  import opened Objects
  import opened Slots
  import opened Resources
  import opened Plan
  import opened Guarantee
  import opened Trails
  import opened Steps
  import opened Isolation
  import Convergence
  import Names
  import NoProxy
  import Reconciler
  import Requests
  import RouteName
  import Server

  // ---- Requests that were handled ----------------------------------------

  /** Between the two logs lie exactly the calls of one request, handled as the
      trail and the error say. */
  ghost predicate Served(cfg: Config, ns: string, name: string, past: seq<Event>, log: seq<Event>, g: Grant, t: Trail,
                         err: bool)
  {
    && g.ns == ns && g.name == name && (g.refused <==> !RouteName.Acceptable(name, ns))
    && if ns != cfg.ns then log == past && !err
       else Attended(g, past, log) && Handled(cfg, ns, name, g.refused, past, log, t, err)
  }

  /** One request was handled, however it ended. */
  ghost predicate OneRequest(cfg: Config, ns: string, name: string, past: seq<Event>, log: seq<Event>) {
    exists g, t, err :: Served(cfg, ns, name, past, log, g, t, err)
  }

  // ---- A failed step is forgotten ----------------------------------------

  const CONFIG_KEY := Key(ConfigMapKind, "n", Names.Config("a"))

  const INSTANCE := Object(PLAIN, UpdateService(Spec(1, "r/x", "g@sha256:1"), Status([], "")))

  const START: Store := map[InstanceKey("n", "a") := INSTANCE, PULL_KEY := Object(PLAIN, Secret(map[]))]

  const CONFIG := Config("operand", "n", NoProxy.ProxyEnv("", "", ""))

  lemma StartReady()
    ensures Decide(START, CONFIG, "n", "a").Ready?
  {
    hide Render;
    RouteName.NamesAccepted("a", "n");
    assert "r/x"[1] == '/';
  }

  lemma StartKeys()
    ensures CONFIG_KEY !in START
    ensures CONFIG_KEY != DeploymentKey("n", "a") && CONFIG_KEY != InstanceKey("n", "a")
    ensures KindOf(INSTANCE.body) == UpdateServiceKind && PULL_KEY != InstanceKey("n", "a")
  {}

  /** A calm server that holds an instance and a pull secret, and refuses nothing
      but writes of the graph-builder's ConfigMap. */
  method RefusingServer(ip: Allocator) returns (server: Server.Server)
    ensures fresh(server) && server.Valid() && server.calm && server.barred == {CONFIG_KEY}
    ensures server.Contents() == START && server.log == []
  {
    hide Server.Server.Valid;
    StartKeys();
    server := new Server.Server(true, {CONFIG_KEY}, ip);
    assert server.Contents() == map[];
    server.Set(InstanceKey("n", "a"), INSTANCE);
    server.Set(PULL_KEY, Object(PLAIN, Secret(map[])));
  }

  /** The graph-builder's ConfigMap is the first thing to be ensured. */
  lemma ConfigFirst(log: seq<Event>, t: Trail)
    requires Handled(CONFIG, "n", "a", false, [], log, t, false) && log[0].reply.Found?
    ensures exists i {:trigger log[i]} :: 0 <= i < |log| - 1 && log[i].Read? && log[i].key == CONFIG_KEY
              && (log[i].reply.NotFound? ==>
                    log[i + 1].Write? && log[i + 1].verb == Create && log[i + 1].key == CONFIG_KEY)
  {
    hide Scouted, Resolving, Merged, Fails;
    var end := log[..|log| - 1];
    var spec := log[0].reply.obj.body.spec;
    assert [] + [log[0]] == [log[0]];
    assert Passage(CONFIG, "n", "a", spec, [log[0]], end, t, false);
    assert Ensured("n", "a", spec.graphDataImage, end[..t.scouted], end, t, false);
    var m := t.marks;
    assert InOrder(end[..m[|m| - 1]], m, 0) && Trodden("n", "a", t.k, end[..m[|m| - 1]], m, 0);
    ConfigCalls(end[..m[0]], end[..m[1]], t.k);
    assert log[m[0]] == end[..m[1]][m[0]];
  }

  lemma ConfigCalls(past: seq<Event>, log: seq<Event>, k: Resources)
    requires StepTrail(0, "n", "a", k, past, log)
    ensures past < log && log[|past|].Read? && log[|past|].key == CONFIG_KEY
    ensures log[|past|].reply.NotFound? ==>
              && |log| == |past| + 2 && log[|past| + 1].Write?
              && log[|past| + 1].verb == Create && log[|past| + 1].key == CONFIG_KEY
  {
    hide Overwrite, Server.Admitted;
  }

  /** A server that bars the ConfigMap and does not hold it. */
  lemma ConfigRefused(server: Server.Server, t: Trail)
    requires server.Valid() && server.calm && CONFIG_KEY in server.barred && CONFIG_KEY !in server.store
    requires Handled(CONFIG, "n", "a", false, [], server.log, t, false) && server.log[0].reply.Found?
    ensures Write(Create, CONFIG_KEY, false, None, None) in server.log
  {
    hide Handled;
    ConfigFirst(server.log, t);
    var i :| 0 <= i < |server.log| - 1 && server.log[i].Read? && server.log[i].key == CONFIG_KEY
             && (server.log[i].reply.NotFound? ==>
                   && server.log[i + 1].Write? && server.log[i + 1].verb == Create
                   && server.log[i + 1].key == CONFIG_KEY);
    assert server.Telling(server.log[i]) && server.Telling(server.log[i + 1]);
  }

  /** There the request is handled without an error although the create of the
      ConfigMap fails, and the status says completed while the ConfigMap is
      missing. */
  method CompletesWithoutConfig(ip: Allocator, uriOf: string -> Option<string>)
    returns (server: Server.Server, ghost g: Grant, ghost t: Trail)
    ensures fresh(server) && server.Valid()
    ensures Served(CONFIG, "n", "a", [], server.log, g, t, false)
    ensures Write(Create, CONFIG_KEY, false, None, None) in server.log
    ensures SaysCompleted(Lookup(server.Contents(), InstanceKey("n", "a")))
    ensures CONFIG_KEY !in server.store
  {
    hide Decide, SaysCompleted, Left, Issued, Handled, Attended, Server.Server.Valid, Server.Server.Remembers;
    StartReady();
    StartKeys();
    RouteName.NamesAccepted("a", "n");
    server := RefusingServer(ip);
    assert CONFIG_KEY !in server.Contents();
    var r := new Reconciler.Reconciler(CONFIG, server, uriOf);
    ghost var was := server.store;
    var requeueAfter, err;
    requeueAfter, err, g, t := r.Reconcile("n", "a");
    assert SameEntry(was, server.store, CONFIG_KEY);
    ConfigRefused(server, t);
  }

  // ---- An injected bundle is lost ----------------------------------------

  const BUNDLE_KEY := ClusterCAKey("n")

  const INJECTED := Object(PLAIN, ConfigMap(map[Names.CLUSTER_CERT_KEY := "pem"]))

  /** The bundle's step as it goes when the ConfigMap is created and filled by
      others between its two looks, the first of which may also be outdated. */
  const LATE_BUNDLE: seq<Event> :=
    [Read(BUNDLE_KEY, NotFound), Read(BUNDLE_KEY, Found(INJECTED, 7)),
     Write(Update, BUNDLE_KEY, true, Some(INJECTED), Some(INJECTED.(body := ConfigMap(map[]))))]

  /** These are calls the step makes, in this order, and it returns no error,
      although the data that was there is gone. */
  lemma InjectionLost(k: Resources)
    requires k.clusterCA == Some(CLUSTER_CA_TEMPLATE)
    ensures StepTrail(3, "n", "a", k, [], LATE_BUNDLE) && !StepFails(3, "n", [], LATE_BUNDLE)
    ensures LATE_BUNDLE[2].was == Some(INJECTED) && LATE_BUNDLE[2].now != LATE_BUNDLE[2].was
  {
    assert [] + [LATE_BUNDLE[0]] == LATE_BUNDLE[..1];
    assert LATE_BUNDLE[..1] + [LATE_BUNDLE[1]] == LATE_BUNDLE[..2];
    assert CLUSTER_CA_TEMPLATE.body == ConfigMap(map[]);
    assert INJECTED.body.data != map[] by { assert Names.CLUSTER_CERT_KEY in INJECTED.body.data; }
  }

  // ---- Two requests ------------------------------------------------------

  /** A request and, undisturbed, the same again: the second adds no create, update
      or delete exactly when the tag is settled. */
  method Twice(r: Reconciler.Reconciler, ns: string, name: string) returns (ghost mid: seq<Event>)
    requires r.client.Valid() && r.client.quiet && ns != Names.OPENSHIFT_CONFIG
    modifies r.client
    ensures r.client.Valid()
    ensures OneRequest(r.cfg, ns, name, old(r.client.log), mid) && OneRequest(r.cfg, ns, name, mid, r.client.log)
    ensures Decide(old(r.client.Contents()), r.cfg, ns, name).Ready? ==>
              (Server.Mutations(r.client.log) == Server.Mutations(mid)
               <==> Convergence.TagSettled(old(r.client.Contents()), ns, name))
  {
    hide Decide, Left, Issued, Handled, Attended, Convergence.TagSettled, Server.Server.Valid, RouteName.Acceptable;
    ghost var st, start := r.client.Contents(), r.client.log;
    var _, err, g, t := r.Reconcile(ns, name);
    mid := r.client.log;
    assert Served(r.cfg, ns, name, start, mid, g, t, err);
    ghost var end := r.client.Contents();
    var _, err', g', t' := r.Reconcile(ns, name);
    assert Served(r.cfg, ns, name, mid, r.client.log, g', t', err');
    if Decide(st, r.cfg, ns, name).Ready? {
      Requests.SecondRequestQuiet(st, end, r.cfg, ns, name, r.client.ip);
    }
  }

  /** A request for each of two instances. */
  method InTurn(r: Reconciler.Reconciler, ns: string, a: string, b: string)
    returns (ghost mid: seq<Event>, ghost between: Store)
    requires r.client.Valid() && r.client.quiet
    modifies r.client
    ensures r.client.Valid()
    ensures OneRequest(r.cfg, ns, a, old(r.client.log), mid) && OneRequest(r.cfg, ns, b, mid, r.client.log)
    ensures Left(old(r.client.Contents()), between, r.cfg, ns, a, r.client.ip)
    ensures Left(between, r.client.Contents(), r.cfg, ns, b, r.client.ip)
  {
    hide Decide, Left, Issued, Handled, Attended, Server.Server.Valid, RouteName.Acceptable;
    ghost var start := r.client.log;
    var _, err, g, t := r.Reconcile(ns, a);
    mid, between := r.client.log, r.client.Contents();
    assert Served(r.cfg, ns, a, start, mid, g, t, err);
    var _, err', g', t' := r.Reconcile(ns, b);
    assert Served(r.cfg, ns, b, mid, r.client.log, g', t', err');
  }

  /** The same start on two servers, and the requests of two instances in the two
      orders: a and then b on the one, b and then a on the other. */
  method BothOrders(r: Reconciler.Reconciler, q: Reconciler.Reconciler, ns: string, a: string, b: string)
    returns (ghost midR: seq<Event>, ghost midQ: seq<Event>)
    requires r.client != q.client && r.client.Valid() && q.client.Valid() && r.client.quiet && q.client.quiet
    requires r.cfg == q.cfg && r.client.ip == q.client.ip && r.client.Contents() == q.client.Contents()
    requires Apart(ns, a, b) && a != "cluster" && b != "cluster"
    requires Pinned(ImageAt(r.client.Contents(), ns, a)) && Pinned(ImageAt(r.client.Contents(), ns, b))
    modifies r.client, q.client
    ensures OneRequest(r.cfg, ns, a, old(r.client.log), midR) && OneRequest(r.cfg, ns, b, midR, r.client.log)
    ensures OneRequest(q.cfg, ns, b, old(q.client.log), midQ) && OneRequest(q.cfg, ns, a, midQ, q.client.log)
    ensures forall key: Key | key.kind != UpdateServiceKind && key != ClusterCAKey(ns) ::
              Lookup(r.client.Contents(), key) == Lookup(q.client.Contents(), key)
    ensures SameBody(Lookup(r.client.Contents(), ClusterCAKey(ns)), Lookup(q.client.Contents(), ClusterCAKey(ns)))
  {
    hide Left, OneRequest, Pinned, ImageAt, Apart, SameBody, Server.Server.Valid;
    ghost var st := r.client.Contents();
    ghost var a1, b1;
    midR, a1 := InTurn(r, ns, a, b);
    ghost var a2 := r.client.Contents();
    midQ, b1 := InTurn(q, ns, b, a);
    ghost var b2 := q.client.Contents();
    forall key: Key | key.kind != UpdateServiceKind
      ensures key != ClusterCAKey(ns) ==> Lookup(a2, key) == Lookup(b2, key)
      ensures SameBody(Lookup(a2, key), Lookup(b2, key))
    {
      Requests.OrderOfRequests(st, a1, a2, b1, b2, r.cfg, ns, a, b, r.client.ip, key);
    }
  }
}
