/** How an existing Deployment is brought in line: the pure merge, what it
    keeps, and the in-place edits that compute it. */
module Merge {
  import opened Objects
  import opened Resources
  import Names

  /** The freshly computed Deployment and containers. */
  datatype Wanted = Wanted(spec: DeploymentSpec, graphBuilder: Container,
                           policyEngine: Container, graphData: Container)

  const LABEL_KEYS := {"app", "deployment"}
  const ANNOTATION_KEYS := {CONFIG_HASH, ENV_HASH}
  const AMOUNT_KEYS := {"cpu", "memory"}

  ghost predicate Proper(w: Wanted) {
    && w.spec.template.labels.Keys == LABEL_KEYS
    && w.spec.template.annotations.Keys == ANNOTATION_KEYS
    && w.graphBuilder.limits.Keys == w.graphBuilder.requests.Keys == AMOUNT_KEYS
    && w.policyEngine.limits.Keys == w.policyEngine.requests.Keys == AMOUNT_KEYS
  }

  // ---- The merge ---------------------------------------------------------

  /** Wanted amounts override, but a numerically equal one stays as written. */
  function MergeAmounts(have: map<string, Quantity>, want: map<string, Quantity>): map<string, Quantity> {
    map k | k in have.Keys + want.Keys ::
      if k in want && !(k in have && have[k].milli == want[k].milli) then want[k] else have[k]
  }

  function Impose(c: Container, o: Container): Container {
    c.(image := o.image, pullPolicy := o.pullPolicy, command := o.command, args := o.args,
       ports := o.ports, env := o.env,
       limits := MergeAmounts(c.limits, o.limits), requests := MergeAmounts(c.requests, o.requests),
       mounts := o.mounts, liveness := o.liveness, readiness := o.readiness)
  }

  function MergeContainer(c: Container, w: Wanted): Container {
    if c.name == Names.GRAPH_BUILDER then Impose(c, w.graphBuilder)
    else if c.name == Names.POLICY_ENGINE then Impose(c, w.policyEngine)
    else c
  }

  function MergeInit(c: Container, w: Wanted): Container {
    if c.name == Names.GRAPH_DATA
    then c.(image := w.graphData.image, pullPolicy := w.graphData.pullPolicy, mounts := w.graphData.mounts)
    else c
  }

  function MergeAll(cs: seq<Container>, w: Wanted): (r: seq<Container>)
    ensures |r| == |cs| && forall i | 0 <= i < |cs| :: r[i] == MergeContainer(cs[i], w)
  {
    seq(|cs|, i requires 0 <= i < |cs| => MergeContainer(cs[i], w))
  }

  function MergeInits(cs: seq<Container>, w: Wanted): (r: seq<Container>)
    ensures |r| == |cs| && forall i | 0 <= i < |cs| :: r[i] == MergeInit(cs[i], w)
  {
    seq(|cs|, i requires 0 <= i < |cs| => MergeInit(cs[i], w))
  }

  function MergeAnnotations(have: Labels, want: Labels, sha: string): Labels {
    var m := have + want;
    if sha == "" then m else m[IMAGE_SHA := sha]
  }

  function MergeTemplate(t: Template, w: Wanted, sha: string): Template {
    var want := w.spec.template;
    Template(t.labels + want.labels, MergeAnnotations(t.annotations, want.annotations, sha),
             PodSpec(want.pod.volumes, MergeAll(t.pod.containers, w),
                     MergeInits(t.pod.initContainers, w), t.pod.rest))
  }

  function Merge(found: DeploymentSpec, w: Wanted, sha: string): DeploymentSpec {
    DeploymentSpec(w.spec.replicas, w.spec.selector, w.spec.strategy,
                   MergeTemplate(found.template, w, sha), found.rest)
  }

  predicate HasContainer(cs: seq<Container>, name: string) {
    exists i :: 0 <= i < |cs| && cs[i].name == name
  }

  predicate HasGraphData(d: DeploymentSpec) {
    HasContainer(d.template.pod.initContainers, Names.GRAPH_DATA)
  }

  predicate HasManaged(d: DeploymentSpec) {
    && HasContainer(d.template.pod.containers, Names.GRAPH_BUILDER)
    && HasContainer(d.template.pod.containers, Names.POLICY_ENGINE)
  }

  // ---- What it means to be in line ---------------------------------------

  predicate Agrees(have: Labels, want: Labels) {
    forall k <- want :: k in have && have[k] == want[k]
  }

  predicate AmountsAgree(have: map<string, Quantity>, want: map<string, Quantity>) {
    forall k <- want :: k in have && have[k].milli == want[k].milli
  }

  predicate InLine(c: Container, o: Container) {
    && c.image == o.image && c.pullPolicy == o.pullPolicy
    && c.command == o.command && c.args == o.args && c.ports == o.ports && c.env == o.env
    && AmountsAgree(c.limits, o.limits) && AmountsAgree(c.requests, o.requests)
    && c.mounts == o.mounts && c.liveness == o.liveness && c.readiness == o.readiness
  }

  predicate ContainerMatches(c: Container, w: Wanted) {
    && (c.name == Names.GRAPH_BUILDER ==> InLine(c, w.graphBuilder))
    && (c.name == Names.POLICY_ENGINE ==> InLine(c, w.policyEngine))
  }

  predicate InitMatches(c: Container, w: Wanted) {
    c.name == Names.GRAPH_DATA ==>
      && c.image == w.graphData.image && c.pullPolicy == w.graphData.pullPolicy
      && c.mounts == w.graphData.mounts
  }

  /** The parts of d that the operator compares have their wanted values. */
  predicate Matches(d: DeploymentSpec, w: Wanted, sha: string) {
    && d.replicas == w.spec.replicas && d.selector == w.spec.selector && d.strategy == w.spec.strategy
    && Agrees(d.template.labels, w.spec.template.labels)
    && Agrees(d.template.annotations, w.spec.template.annotations)
    && (sha != "" ==> IMAGE_SHA in d.template.annotations && d.template.annotations[IMAGE_SHA] == sha)
    && d.template.pod.volumes == w.spec.template.pod.volumes
    && (forall c <- d.template.pod.containers :: ContainerMatches(c, w))
    && (forall c <- d.template.pod.initContainers :: InitMatches(c, w))
  }

  lemma AmountsFixed(have: map<string, Quantity>, want: map<string, Quantity>)
    ensures MergeAmounts(have, want) == have <==> AmountsAgree(have, want)
    ensures AmountsAgree(MergeAmounts(have, want), want)
  {
    var m := MergeAmounts(have, want);
    if m == have {
      forall k | k in want ensures k in have && have[k].milli == want[k].milli {
        assert k in m;
      }
    }
    if AmountsAgree(have, want) {
      assert m.Keys == have.Keys;
    }
  }

  lemma ImposeFixed(c: Container, o: Container)
    ensures Impose(c, o) == c <==> InLine(c, o)
    ensures InLine(Impose(c, o), o)
  {
    AmountsFixed(c.limits, o.limits);
    AmountsFixed(c.requests, o.requests);
  }

  lemma ContainersFixed(cs: seq<Container>, w: Wanted)
    ensures MergeAll(cs, w) == cs <==> forall c <- cs :: ContainerMatches(c, w)
    ensures forall c <- MergeAll(cs, w) :: ContainerMatches(c, w)
  {
    hide Impose, InLine;
    forall i | 0 <= i < |cs|
      ensures MergeContainer(cs[i], w) == cs[i] <==> ContainerMatches(cs[i], w)
      ensures ContainerMatches(MergeContainer(cs[i], w), w)
    {
      NamesDiffer();
      ImposeName(cs[i], w.graphBuilder);
      ImposeName(cs[i], w.policyEngine);
      ImposeFixed(cs[i], w.graphBuilder);
      ImposeFixed(cs[i], w.policyEngine);
    }
    forall i | 0 <= i < |cs| && MergeAll(cs, w) == cs ensures ContainerMatches(cs[i], w) {
      assert MergeAll(cs, w)[i] == cs[i];
    }
  }

  lemma ImposeName(c: Container, o: Container)
    ensures Impose(c, o).name == c.name
  {}

  lemma NamesDiffer()
    ensures Names.GRAPH_BUILDER != Names.POLICY_ENGINE
  {
    assert Names.GRAPH_BUILDER[0] == 'g' && Names.POLICY_ENGINE[0] == 'p';
  }

  lemma InitsFixed(cs: seq<Container>, w: Wanted)
    ensures MergeInits(cs, w) == cs <==> forall c <- cs :: InitMatches(c, w)
    ensures forall c <- MergeInits(cs, w) :: InitMatches(c, w)
  {
    forall i | 0 <= i < |cs|
      ensures MergeInit(cs[i], w) == cs[i] <==> InitMatches(cs[i], w)
    {}
    forall i | 0 <= i < |cs| && MergeInits(cs, w) == cs ensures InitMatches(cs[i], w) {
      assert MergeInits(cs, w)[i] == cs[i];
    }
    assert (forall c <- cs :: InitMatches(c, w)) ==>
             forall i | 0 <= i < |cs| :: cs[i] in cs && MergeInit(cs[i], w) == cs[i];
  }

  lemma LabelsFixed(have: Labels, want: Labels)
    ensures have + want == have <==> Agrees(have, want)
    ensures Agrees(have + want, want)
  {
    if have + want == have {
      forall k | k in want ensures k in have && have[k] == want[k] { assert k in have + want; }
    }
    if Agrees(have, want) { assert (have + want).Keys == have.Keys; }
  }

  lemma AnnotationsFixed(have: Labels, want: Labels, sha: string)
    requires IMAGE_SHA !in want
    ensures MergeAnnotations(have, want, sha) == have <==>
            Agrees(have, want) && (sha != "" ==> IMAGE_SHA in have && have[IMAGE_SHA] == sha)
    ensures Agrees(MergeAnnotations(have, want, sha), want)
    ensures sha != "" ==> var m := MergeAnnotations(have, want, sha); IMAGE_SHA in m && m[IMAGE_SHA] == sha
  {
    LabelsFixed(have, want);
    var m := MergeAnnotations(have, want, sha);
    forall k | k in want ensures k in m && m[k] == want[k] {}
  }

  lemma ShaKeyApart(w: Wanted)
    requires Proper(w)
    ensures IMAGE_SHA !in w.spec.template.annotations
  {
    var n := |"updateservice.operator.openshift.io/"|;
    assert IMAGE_SHA[n + 6] == 'd' && CONFIG_HASH[n + 6] == 'b' && ENV_HASH[n] == 'e' && IMAGE_SHA[n] == 'g';
  }

  /** The merge leaves a Deployment alone exactly when every compared part
      already has its wanted value, and always brings that about. */
  lemma MergeFixed(d: DeploymentSpec, w: Wanted, sha: string)
    requires Proper(w)
    ensures Merge(d, w, sha) == d <==> Matches(d, w, sha)
    ensures Matches(Merge(d, w, sha), w, sha)
  {
    hide MergeContainer, MergeInit, MergeAnnotations, Agrees, ContainerMatches, InitMatches, MergeAll, MergeInits, Proper;
    ShaKeyApart(w);
    LabelsFixed(d.template.labels, w.spec.template.labels);
    AnnotationsFixed(d.template.annotations, w.spec.template.annotations, sha);
    ContainersFixed(d.template.pod.containers, w);
    InitsFixed(d.template.pod.initContainers, w);
  }

  /** Merging again changes nothing, with or without the image digest. */
  lemma MergeIdempotent(d: DeploymentSpec, w: Wanted, sha: string)
    requires Proper(w)
    ensures Merge(Merge(d, w, sha), w, sha) == Merge(d, w, sha)
    ensures Merge(Merge(d, w, sha), w, "") == Merge(d, w, sha)
  {
    hide Merge, Proper;
    MergeFixed(d, w, sha);
    MergeFixed(Merge(d, w, sha), w, sha);
    MergeFixed(Merge(d, w, sha), w, "");
  }

  /** A Deployment made of its own containers is in line with itself. */
  lemma OwnMatches(w: Wanted)
    requires w.spec.template.pod.containers == [w.graphBuilder, w.policyEngine]
    requires w.spec.template.pod.initContainers == [w.graphData]
    requires w.graphBuilder.name == Names.GRAPH_BUILDER && w.policyEngine.name == Names.POLICY_ENGINE
    requires w.graphData.name == Names.GRAPH_DATA
    ensures Matches(w.spec, w, "") && HasGraphData(w.spec) && HasManaged(w.spec)
  {
    NamesDiffer();
    var pod := w.spec.template.pod;
    assert pod.containers[0].name == Names.GRAPH_BUILDER && pod.containers[1].name == Names.POLICY_ENGINE;
    assert pod.initContainers[0].name == Names.GRAPH_DATA;
    assert InLine(w.graphBuilder, w.graphBuilder) && InLine(w.policyEngine, w.policyEngine);
  }

  // ---- What it keeps -----------------------------------------------------

  ghost predicate OnlyKeys<V>(was: map<string, V>, now: map<string, V>, keys: set<string>) {
    && was.Keys <= now.Keys <= was.Keys + keys
    && forall k | k in was && k !in keys :: now[k] == was[k]
  }

  ghost predicate ContainerKept(was: Container, now: Container) {
    && now.name == was.name && now.rest == was.rest
    && OnlyKeys(was.limits, now.limits, AMOUNT_KEYS) && OnlyKeys(was.requests, now.requests, AMOUNT_KEYS)
    && (was.name != Names.GRAPH_BUILDER && was.name != Names.POLICY_ENGINE ==> now == was)
  }

  ghost predicate InitKept(was: Container, now: Container) {
    && now == was.(image := now.image, pullPolicy := now.pullPolicy, mounts := now.mounts)
    && (was.name != Names.GRAPH_DATA ==> now == was)
  }

  /** Nothing that belongs to somebody else was touched. */
  ghost predicate ForeignKept(was: DeploymentSpec, now: DeploymentSpec) {
    && now.rest == was.rest && now.template.pod.rest == was.template.pod.rest
    && OnlyKeys(was.template.labels, now.template.labels, LABEL_KEYS)
    && OnlyKeys(was.template.annotations, now.template.annotations, ANNOTATION_KEYS + {IMAGE_SHA})
    && |now.template.pod.containers| == |was.template.pod.containers|
    && (forall i | 0 <= i < |was.template.pod.containers| ::
          ContainerKept(was.template.pod.containers[i], now.template.pod.containers[i]))
    && |now.template.pod.initContainers| == |was.template.pod.initContainers|
    && (forall i | 0 <= i < |was.template.pod.initContainers| ::
          InitKept(was.template.pod.initContainers[i], now.template.pod.initContainers[i]))
  }

  lemma ImposeKeeps(c: Container, o: Container)
    requires o.limits.Keys == o.requests.Keys == AMOUNT_KEYS
    ensures var n := Impose(c, o);
            && n.name == c.name && n.rest == c.rest
            && OnlyKeys(c.limits, n.limits, AMOUNT_KEYS) && OnlyKeys(c.requests, n.requests, AMOUNT_KEYS)
  {}

  /** Labels, annotations, amounts, containers and init containers of others
      survive a merge, order and count included. */
  lemma MergeKeepsForeign(d: DeploymentSpec, w: Wanted, sha: string)
    requires Proper(w)
    ensures ForeignKept(d, Merge(d, w, sha))
  {
    hide MergeContainer, MergeInit, ContainerKept, InitKept;
    forall i | 0 <= i < |d.template.pod.containers|
      ensures ContainerKept(d.template.pod.containers[i], MergeContainer(d.template.pod.containers[i], w))
    {
      MergeKeepsContainer(d.template.pod.containers[i], w);
    }
    forall i | 0 <= i < |d.template.pod.initContainers|
      ensures InitKept(d.template.pod.initContainers[i], MergeInit(d.template.pod.initContainers[i], w))
    {
      MergeKeepsInit(d.template.pod.initContainers[i], w);
    }
  }

  lemma MergeKeepsContainer(c: Container, w: Wanted)
    requires Proper(w)
    ensures ContainerKept(c, MergeContainer(c, w))
  {
    hide Impose;
    ImposeKeeps(c, w.graphBuilder);
    ImposeKeeps(c, w.policyEngine);
  }

  lemma MergeKeepsInit(c: Container, w: Wanted)
    ensures InitKept(c, MergeInit(c, w))
  {}

  /** An amount is rewritten only when its number differs. */
  lemma AmountsKeepForm(have: map<string, Quantity>, want: map<string, Quantity>, k: string)
    requires k in have
    ensures var m := MergeAmounts(have, want);
            k in m && m[k] == if k in want && want[k].milli != have[k].milli then want[k] else have[k]
  {}

  /** The pods of a merged Deployment carry the labels that its own selector,
      both services, the budget and the policy select by. */
  lemma MergeSelectable(d: DeploymentSpec, w: Wanted, sha: string)
    requires Agrees(w.spec.template.labels, w.spec.selector)
    ensures var m := Merge(d, w, sha);
            && Agrees(m.template.labels, w.spec.template.labels)
            && m.selector == w.spec.selector && Agrees(m.template.labels, m.selector)
  {
    LabelsFixed(d.template.labels, w.spec.template.labels);
  }

  // ---- In place ----------------------------------------------------------

  /** A Deployment in memory. */
  class Draft {
    var replicas: int
    var selector: Labels
    var strategy: string
    var labels: Labels
    var annotations: Labels
    var volumes: seq<Volume>
    var containers: array<Container>
    var initContainers: array<Container>
    const rest: string
    const podRest: string

    ghost function View(): DeploymentSpec
      reads this, containers, initContainers
    {
      DeploymentSpec(replicas, selector, strategy,
                     Template(labels, annotations,
                              PodSpec(volumes, containers[..], initContainers[..], podRest)), rest)
    }

    constructor (d: DeploymentSpec)
      ensures View() == d
      ensures fresh(containers) && fresh(initContainers) && containers != initContainers
    {
      replicas, selector, strategy := d.replicas, d.selector, d.strategy;
      labels, annotations := d.template.labels, d.template.annotations;
      var pod := d.template.pod;
      volumes := pod.volumes;
      containers := new Container[|pod.containers|](i requires 0 <= i < |pod.containers| => pod.containers[i]);
      initContainers := new Container[|pod.initContainers|](
        i requires 0 <= i < |pod.initContainers| => pod.initContainers[i]);
      rest, podRest := d.rest, pod.rest;
      new;
      assert containers[..] == pod.containers && initContainers[..] == pod.initContainers;
    }

    method Snapshot() returns (d: DeploymentSpec)
      ensures d == View()
    {
      d := DeploymentSpec(replicas, selector, strategy,
             Template(labels, annotations, PodSpec(volumes, containers[..], initContainers[..], podRest)), rest);
    }

    method DeepCopy() returns (c: Draft)
      ensures fresh(c) && fresh(c.containers) && fresh(c.initContainers) && c.containers != c.initContainers
      ensures c.View() == View()
    {
      var d := Snapshot();
      c := new Draft(d);
    }
  }

  /** Writes every wanted pair, in whatever order the map yields them. */
  method SetAll(have: Labels, want: Labels) returns (r: Labels)
    ensures r == have + want
  {
    r := have;
    var todo := want.Keys;
    while todo != {}
      invariant todo <= want.Keys
      invariant r == have + map k | k in want && k !in todo :: want[k]
      decreases todo
    {
      var k :| k in todo;
      r := r[k := want[k]];
      todo := todo - {k};
    }
    assert want == map k | k in want && k !in todo :: want[k];
  }

  /** Writes the wanted amounts that are missing or numerically different. */
  method SetAmounts(have: map<string, Quantity>, want: map<string, Quantity>) returns (r: map<string, Quantity>)
    ensures r == MergeAmounts(have, want)
  {
    r := have;
    var todo := want.Keys;
    while todo != {}
      invariant todo <= want.Keys
      invariant r == MergeAmounts(have, map k | k in want && k !in todo :: want[k])
      decreases todo
    {
      var k :| k in todo;
      if !(k in r && r[k].milli == want[k].milli) { r := r[k := want[k]]; }
      todo := todo - {k};
    }
    assert want == map k | k in want && k !in todo :: want[k];
  }

  /** Overwrites the managed fields of one container, one by one. */
  method ImposeInPlace(a: array<Container>, i: nat, o: Container)
    requires i < a.Length
    modifies a
    ensures a[..] == old(a[..])[i := Impose(old(a[i]), o)]
  {
    a[i] := a[i].(image := o.image);
    a[i] := a[i].(pullPolicy := o.pullPolicy);
    a[i] := a[i].(command := o.command);
    a[i] := a[i].(args := o.args);
    a[i] := a[i].(ports := o.ports);
    a[i] := a[i].(env := o.env);
    var limits := SetAmounts(a[i].limits, o.limits);
    a[i] := a[i].(limits := limits);
    var requests := SetAmounts(a[i].requests, o.requests);
    a[i] := a[i].(requests := requests);
    a[i] := a[i].(mounts := o.mounts);
    a[i] := a[i].(liveness := o.liveness);
    a[i] := a[i].(readiness := o.readiness);
  }

  method MergeContainers(a: array<Container>, w: Wanted)
    modifies a
    ensures a[..] == MergeAll(old(a[..]), w)
  {
    hide Impose;
    for i := 0 to a.Length
      invariant forall j | 0 <= j < i :: a[j] == MergeContainer(old(a[..])[j], w)
      invariant forall j | i <= j < a.Length :: a[j] == old(a[..])[j]
    {
      if a[i].name == Names.GRAPH_BUILDER {
        ImposeInPlace(a, i, w.graphBuilder);
      } else if a[i].name == Names.POLICY_ENGINE {
        ImposeInPlace(a, i, w.policyEngine);
      }
    }
  }

  /** Edits the graph-data container. The trimmed list it builds when it meets
      others is a local value that nobody reads. */
  method MergeInitContainers(a: array<Container>, w: Wanted) returns (found: bool)
    modifies a
    ensures a[..] == MergeInits(old(a[..]), w)
    ensures found == HasContainer(old(a[..]), Names.GRAPH_DATA)
  {
    var index, removeUnexpected := -1, false;
    var initContainers := a;
    var n := a.Length;
    for i := 0 to n
      invariant initContainers == a && -1 <= index < i
      invariant forall j | 0 <= j < i :: a[j] == MergeInit(old(a[..])[j], w)
      invariant forall j | i <= j < a.Length :: a[j] == old(a[..])[j]
      invariant index >= 0 ==> old(a[..])[index].name == Names.GRAPH_DATA
      invariant index < 0 ==> forall j | 0 <= j < i :: old(a[..])[j].name != Names.GRAPH_DATA
    {
      if initContainers[i].name == Names.GRAPH_DATA {
        index := i;
        initContainers[i] := initContainers[i].(image := w.graphData.image);
        initContainers[i] := initContainers[i].(pullPolicy := w.graphData.pullPolicy);
        initContainers[i] := initContainers[i].(mounts := w.graphData.mounts);
      } else {
        removeUnexpected := true;
      }
    }
    found := index >= 0;
    if found && removeUnexpected {
      initContainers := new Container[] [a[index]];
    }
  }

  /** The copy the operator edits ends up as the merge; what was found is left
      as it was. */
  method MergeInPlace(found: Draft, w: Wanted, sha: string) returns (updated: Draft, hasGraphData: bool)
    ensures updated.View() == Merge(found.View(), w, sha)
    ensures hasGraphData == HasGraphData(found.View())
    ensures fresh(updated) && fresh(updated.containers) && fresh(updated.initContainers)
  {
    hide MergeContainer, MergeInit, MergeAll, MergeInits;
    updated := found.DeepCopy();
    updated.replicas := w.spec.replicas;
    updated.selector := w.spec.selector;
    updated.strategy := w.spec.strategy;
    var labels := SetAll(updated.labels, w.spec.template.labels);
    updated.labels := labels;
    var annotations := SetAll(updated.annotations, w.spec.template.annotations);
    updated.annotations := annotations;
    if |sha| > 0 {
      updated.annotations := updated.annotations[IMAGE_SHA := sha];
    }
    updated.volumes := w.spec.template.pod.volumes;
    MergeContainers(updated.containers, w);
    hasGraphData := MergeInitContainers(updated.initContainers, w);
  }
}
