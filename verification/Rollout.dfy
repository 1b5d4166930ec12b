/** A changed pull spec reaches the running pods: it changes the bytes behind the
    hash annotation of the pod template. */
module Rollout {
  import opened Text
  import opened Objects
  import opened Resources
  import opened Checksum
  import Convergence
  import Egress
  import Merge
  import NoProxy
  import Plan

  // ---- The rendered configuration is made of bytes -----------------------

  lemma BytesConcat(a: string, b: string)
    ensures Bytes(a + b) <==> Bytes(a) && Bytes(b)
  {
    if Bytes(a + b) {
      forall i | 0 <= i < |a| ensures a[i] as int < 256 { assert (a + b)[i] == a[i]; }
      forall i | 0 <= i < |b| ensures b[i] as int < 256 { assert (a + b)[|a| + i] == b[i]; }
    }
  }

  lemma {:induction false} LinesBytes(ls: seq<string>)
    requires forall i | 0 <= i < |ls| :: Bytes(ls[i])
    ensures Bytes(Lines(ls))
  {
    if ls != [] {
      LinesBytes(ls[1..]);
      BytesConcat(ls[0], "\n");
      BytesConcat(ls[0] + "\n", Lines(ls[1..]));
    }
  }

  lemma HeadBytes()
    ensures Bytes(Lines(TOML_HEAD))
  {
    hide Lines, Bytes;
    HeadLines();
    ShortBytes();
    NameBytes();
    LinesBytes(TOML_HEAD);
  }

  lemma HeadLines()
    ensures Bytes("verbosity = \"vvv\"") && Bytes("[service]") && Bytes("pause_secs = 300") && Bytes("address = \"::\"")
    ensures Bytes("port = 8080") && Bytes("[status]") && Bytes("port = 9080") && Bytes("[[plugin_settings]]")
  {}

  lemma NameBytes()
    ensures Bytes("name = \"" + SCRAPE + "\"") && Bytes("name = \"" + METADATA + "\"")
  {
    assert Bytes("name = \"") && Bytes("\"") && Bytes(SCRAPE) && Bytes(METADATA);
    hide Bytes;
    BytesConcat("name = \"", SCRAPE);
    BytesConcat("name = \"" + SCRAPE, "\"");
    BytesConcat("name = \"", METADATA);
    BytesConcat("name = \"" + METADATA, "\"");
  }

  lemma PathBytes()
    ensures Bytes("credentials_path = \"") && Bytes(CINCINNATI) && Bytes("registry-credentials")
    ensures Bytes("/.dockerconfigjson") && Bytes("data_directory = \"") && Bytes("graph-data") && Bytes("\"")
  {}

  lemma CredentialBytes()
    ensures Bytes(TOML_CREDENTIALS)
  {
    hide Bytes;
    PathBytes();
    BytesConcat(CINCINNATI, "registry-credentials");
    BytesConcat("credentials_path = \"", CREDENTIALS_DIR);
    BytesConcat("credentials_path = \"" + CREDENTIALS_DIR, "/.dockerconfigjson");
    BytesConcat("credentials_path = \"" + CREDENTIALS_DIR + "/.dockerconfigjson", "\"");
  }

  lemma TailLines()
    ensures Bytes("fetch_concurrency = 16") && Bytes("[[plugin_settings]]")
  {}

  lemma DataBytes()
    ensures Bytes(TOML_DATA)
  {
    hide Bytes;
    PathBytes();
    BytesConcat(CINCINNATI, "graph-data");
    BytesConcat("data_directory = \"", GRAPH_DATA_DIR);
    BytesConcat("data_directory = \"" + GRAPH_DATA_DIR, "\"");
  }

  lemma TailBytes()
    ensures Bytes(Lines(TOML_TAIL))
  {
    hide Lines, Bytes;
    CredentialBytes();
    TailLines();
    NameBytes();
    DataBytes();
    ShortBytes();
    LinesBytes(TOML_TAIL);
  }

  lemma ShortBytes()
    ensures Bytes("") && Bytes("\"")
  {}

  lemma ConfigBytes(registry: string, repository: string)
    requires Bytes(registry) && Bytes(repository)
    ensures Bytes(RenderTOML(registry, repository))
  {
    hide Lines, Bytes;
    HeadBytes(); TailBytes(); LiteralBytes();
    var a := Lines(TOML_HEAD) + "registry = \"";
    var b := a + registry;
    var c := b + "\"\nrepository = \"";
    var d := c + repository;
    var e := d + Lines(TOML_TAIL);
    BytesConcat(Lines(TOML_HEAD), "registry = \"");
    BytesConcat(a, registry);
    BytesConcat(b, "\"\nrepository = \"");
    BytesConcat(c, repository);
    BytesConcat(d, Lines(TOML_TAIL));
    BytesConcat(e, "name = \"edge-add-remove\"");
  }

  lemma LiteralBytes()
    ensures Bytes("registry = \"") && Bytes("\"\nrepository = \"")
    ensures Bytes("name = \"edge-add-remove\"") && Bytes("gb.toml")
  {}

  // ---- and determines the pull spec --------------------------------------

  /** What stands before the first occurrence of c, and what follows. */
  lemma UpTo(a: string, x: string, b: string, y: string, c: char)
    requires c !in a && c !in b && a + [c] + x == b + [c] + y
    ensures a == b && x == y
  {
    hide IndexOf;
    IndexAt(a, x, c);
    IndexAt(b, y, c);
    var s := a + [c] + x;
    assert a == s[..|a|] && b == s[..|a|];
    assert x == s[|a| + 1..] && y == s[|a| + 1..];
  }

  lemma CancelPrefix(p: string, a: string, b: string)
    requires p + a == p + b
    ensures a == b
  {
    assert a == (p + a)[|p|..];
  }

  const AFTER_REGISTRY := "\nrepository = \""

  /** The part of the configuration that follows its first lines. */
  function Rest(registry: string, repository: string): string {
    registry + ['"'] + (AFTER_REGISTRY + (repository + ['"'] + Closing()))
  }

  /** The part that follows the repository's closing quote. */
  function Closing(): string { "\n" + Lines(TOML_TAIL[1..]) + "name = \"edge-add-remove\"" }

  lemma ConfigRest(registry: string, repository: string)
    ensures RenderTOML(registry, repository) == Lines(TOML_HEAD) + "registry = \"" + Rest(registry, repository)
  {
    hide Lines;
    assert Lines(TOML_TAIL) == ['"'] + "\n" + Lines(TOML_TAIL[1..]) by { TailFirst(); }
    assert "\"\nrepository = \"" == ['"'] + AFTER_REGISTRY;
  }

  lemma TailFirst()
    ensures Lines(TOML_TAIL) == ['"'] + "\n" + Lines(TOML_TAIL[1..])
  {}

  /** With no quote in either part the configuration can be read back. */
  lemma ConfigDetermines(registry: string, repository: string, registry': string, repository': string)
    requires '"' !in registry && '"' !in repository && '"' !in registry' && '"' !in repository'
    requires RenderTOML(registry, repository) == RenderTOML(registry', repository')
    ensures registry == registry' && repository == repository'
  {
    hide RenderTOML, Lines, Closing;
    ConfigRest(registry, repository);
    ConfigRest(registry', repository');
    CancelPrefix(Lines(TOML_HEAD) + "registry = \"", Rest(registry, repository), Rest(registry', repository'));
    UpTo(registry, AFTER_REGISTRY + (repository + ['"'] + Closing()),
         registry', AFTER_REGISTRY + (repository' + ['"'] + Closing()), '"');
    CancelPrefix(AFTER_REGISTRY, repository + ['"'] + Closing(), repository' + ['"'] + Closing());
    UpTo(repository, Closing(), repository', Closing(), '"');
  }

  lemma SplitParts(releases: string)
    requires '/' in releases
    ensures var parts := SplitReleases(releases);
            parts.Some? && releases == parts.value.0 + "/" + parts.value.1
  {
    var i := IndexOf(releases, '/');
    assert releases == releases[..i] + [releases[i]] + releases[i + 1..];
  }

  // ---- The hash ----------------------------------------------------------

  /** A pull spec of bytes, with a slash and without quotes. */
  predicate Plain(releases: string) {
    Bytes(releases) && '/' in releases && '"' !in releases
  }

  lemma OneFieldStream(v: string, w: string)
    requires Bytes(v) && Bytes(w)
    ensures Stream(map["gb.toml" := v]) == Stream(map["gb.toml" := w]) <==> v == w
  {
    hide Stream, Fields, Bytes;
    var m, n := map["gb.toml" := v], map["gb.toml" := w];
    SingleField("gb.toml", v);
    SingleField("gb.toml", w);
    TwoFields("gb.toml", v);
    TwoFields("gb.toml", w);
    LiteralBytes();
    BytesConcat("gb.toml", v);
    BytesConcat("gb.toml", w);
    StreamContent(m, n);
    if Stream(m) == Stream(n) { CancelPrefix("gb.toml", v, w); }
  }

  lemma TwoFields(k: string, v: string)
    ensures Concat([k, v]) == k + v
  {
    assert [k, v][1..] == [v] && [v][1..] == [];
    assert Concat([v]) == v + Concat([]);
  }

  /** What the graph-builder's ConfigMap holds for a pull spec with a slash. */
  function ConfigData(spec: Spec): Labels
    requires '/' in spec.releases
  {
    NewGraphBuilderConfig(spec).value.body.data
  }

  /** The bytes fed to the hash for the graph-builder's configuration are equal
      exactly when the pull specs are. */
  lemma HashDetermines(x: Spec, y: Spec)
    requires Plain(x.releases) && Plain(y.releases)
    ensures Stream(ConfigData(x)) == Stream(ConfigData(y)) <==> x.releases == y.releases
  {
    hide RenderTOML, Stream, Bytes;
    SplitParts(x.releases);
    SplitParts(y.releases);
    var a, b := SplitReleases(x.releases).value, SplitReleases(y.releases).value;
    var r, p, r', p' := a.0, a.1, b.0, b.1;
    PartsBytes(r, p); PartsBytes(r', p');
    ConfigBytes(r, p); ConfigBytes(r', p');
    OneFieldStream(RenderTOML(r, p), RenderTOML(r', p'));
    if RenderTOML(r, p) == RenderTOML(r', p') { ConfigDetermines(r, p, r', p'); }
  }

  lemma PartsBytes(r: string, p: string)
    requires Bytes(r + "/" + p)
    ensures Bytes(r) && Bytes(p)
  {
    BytesConcat(r + "/", p);
    BytesConcat(r, "/");
  }

  // ---- The annotation ----------------------------------------------------

  lemma AnnotationWritten(name: string, spec: Spec, k: Resources, found: DeploymentSpec, sha: string)
    requires k.deployment == NewDeployment(name, spec, k) && Merge.Proper(Plan.WantedOf(k))
    ensures var w := Plan.WantedOf(k);
            forall d | d == w.spec || d == Merge.Merge(found, w, sha) ::
              CONFIG_HASH in d.template.annotations && d.template.annotations[CONFIG_HASH] == k.graphBuilderConfigHash
  {
    hide Merge.Proper;
    Merge.ShaKeyApart(Plan.WantedOf(k));
    KeysDiffer();
  }

  lemma KeysDiffer()
    ensures CONFIG_HASH != ENV_HASH
  {
    var n := |"updateservice.operator.openshift.io/"|;
    assert CONFIG_HASH[n] == 'g' && ENV_HASH[n] == 'e';
  }

  /** Whether the Deployment is created or merged into, its pod template carries
      the hash of the configuration it was put together with; so merging with
      another one shows in the annotation. */
  lemma AnnotationFollows(cfg: Config, name: string, x: Spec, y: Spec, secret: Labels, ca: Option<Labels>,
        cca: Option<Object>,
                          p: Parts, q: Parts, created: DeploymentSpec, found: DeploymentSpec, sha: string)
    requires Assemble(cfg, name, x, secret, ca, cca, p).deployment.body == Deployment(created)
             || (Assemble(cfg, name, x, secret, ca, cca, p).deployment.body.Deployment?
                 && created == Merge.Merge(found, Plan.WantedOf(Assemble(cfg, name, x, secret, ca, cca, p)), sha))
    ensures var k := Assemble(cfg, name, y, secret, ca, cca, q);
            && k.deployment.body.Deployment?
            && var merged := Merge.Merge(created, Plan.WantedOf(k), sha);
               && CONFIG_HASH in created.template.annotations && created.template.annotations[CONFIG_HASH] == p.configHash
               && CONFIG_HASH in merged.template.annotations && merged.template.annotations[CONFIG_HASH] == q.configHash
               && (p.configHash != q.configHash ==> merged != created)
  {
    hide Merge.Merge, Merge.Proper, Merge.Matches, Merge.HasGraphData, Merge.HasManaged,
         Volumes, GraphBuilderMounts, NewEnvConfig, NewGraphBuilder, NewPolicyEngine;
    Convergence.AssembledMergeable(cfg, name, x, secret, ca, cca, p);
    Convergence.AssembledMergeable(cfg, name, y, secret, ca, cca, q);
    AnnotationWritten(name, x, Assemble(cfg, name, x, secret, ca, cca, p), found, sha);
    AnnotationWritten(name, y, Assemble(cfg, name, y, secret, ca, cca, q), created, sha);
  }

  lemma PartsHash(spec: Spec, env: NoProxy.ProxyEnv)
    requires '/' in spec.releases
    ensures PartsOf(spec, env).value.configHash == Stream(ConfigData(spec))
  {
    hide RenderTOML, NewEnvConfig, Stream, Egress.PortsFor;
  }

  /** So a changed pull spec rolls the pods, and nothing but a changed one does:
      the hash annotation is the same exactly when the pull spec is. */
  lemma ChangeRollsOut(cfg: Config, name: string, x: Spec, y: Spec, secret: Labels, ca: Option<Labels>,
        cca: Option<Object>,
                       j: Resources, k: Resources, created: DeploymentSpec, found: DeploymentSpec, sha: string)
    requires Plain(x.releases) && Plain(y.releases)
    requires Render(cfg, name, x, secret, ca, cca) == Some(j) && j.deployment.body.Deployment?
    requires Render(cfg, name, y, secret, ca, cca) == Some(k) && k.deployment.body.Deployment?
    requires created == Plan.WantedOf(j).spec || created == Merge.Merge(found, Plan.WantedOf(j), sha)
    ensures var merged := Merge.Merge(created, Plan.WantedOf(k), sha);
            && CONFIG_HASH in created.template.annotations && CONFIG_HASH in merged.template.annotations
            && (created.template.annotations[CONFIG_HASH] == merged.template.annotations[CONFIG_HASH]
                <==> x.releases == y.releases)
            && (x.releases != y.releases ==> merged != created)
  {
    hide PartsOf, Assemble, Merge.Merge, Stream, ConfigData;
    var p, q := PartsOf(x, cfg.env).value, PartsOf(y, cfg.env).value;
    AnnotationFollows(cfg, name, x, y, secret, ca, cca, p, q, created, found, sha);
    PartsHash(x, cfg.env);
    PartsHash(y, cfg.env);
    HashDetermines(x, y);
  }

  /** Changed certificates do not roll the pods, appearing and vanishing ones do:
      the rendered Deployment is the same exactly when both or neither are there. */
  lemma CertificatesRoll(cfg: Config, name: string, spec: Spec, secret: Labels, a: Option<Labels>, b: Option<Labels>,
                         cca: Option<Object>, p: Parts)
    ensures var j, k := Assemble(cfg, name, spec, secret, a, cca, p), Assemble(cfg, name, spec, secret, b, cca, p);
            j.deployment == k.deployment <==> (a.Some? <==> b.Some?)
  {
    hide NewEnvConfig, GraphBuilderMounts;
    var j, k := Assemble(cfg, name, spec, secret, a, cca, p), Assemble(cfg, name, spec, secret, b, cca, p);
    assert j.deployment.body.deployment.template.pod.volumes == j.volumes;
    assert k.deployment.body.deployment.template.pod.volumes == k.volumes;
    if a.Some? != b.Some? { assert |j.volumes| != |k.volumes|; }
  }

  /** And so is every merge, whatever it is merged onto. */
  lemma CertificatesMerge(cfg: Config, name: string, spec: Spec, secret: Labels, a: Option<Labels>, b: Option<Labels>,
                          cca: Option<Object>, p: Parts, found: DeploymentSpec, sha: string)
    ensures var j, k := Assemble(cfg, name, spec, secret, a, cca, p), Assemble(cfg, name, spec, secret, b, cca, p);
            && j.deployment.body.Deployment? && k.deployment.body.Deployment?
            && (Merge.Merge(found, Plan.WantedOf(j), sha) == Merge.Merge(found, Plan.WantedOf(k), sha)
                <==> (a.Some? <==> b.Some?))
  {
    hide NewEnvConfig, GraphBuilderMounts, Merge.Merge;
    var j, k := Assemble(cfg, name, spec, secret, a, cca, p), Assemble(cfg, name, spec, secret, b, cca, p);
    MergedVolumes(found, Plan.WantedOf(j), sha);
    MergedVolumes(found, Plan.WantedOf(k), sha);
    assert j.deployment.body.deployment.template.pod.volumes == j.volumes;
    assert k.deployment.body.deployment.template.pod.volumes == k.volumes;
    if a.Some? != b.Some? { assert |j.volumes| != |k.volumes|; }
  }

  lemma MergedVolumes(found: DeploymentSpec, w: Merge.Wanted, sha: string)
    ensures Merge.Merge(found, w, sha).template.pod.volumes == w.spec.template.pod.volumes
  {}
}
