/** Which changes wake which instances, and why no change of the registry's
    certificates is missed. */
module Wakeup {
  import opened Text
  import opened Objects
  import opened Slots
  import opened Plan
  import Names
  import RouteName

  // ---- Mapping events to requests ----------------------------------------

  datatype Request = Request(ns: string, name: string)

  /** The changed object concerns every instance: it is the image configuration
      or the ConfigMap that the image configuration names. */
  predicate Concerns(key: Key, image: Reply) {
    || key == IMAGE_KEY
    || (key.kind == ConfigMapKind && key.ns == Names.OPENSHIFT_CONFIG
        && image.Found? && image.obj.body.Image? && image.obj.body.trustedCA == key.name)
  }

  /** Turns the listed instances into requests; a failed listing gives none. */
  method RequeueUpdateServices(items: Option<seq<Key>>) returns (requests: seq<Request>)
    ensures items.None? ==> requests == []
    ensures items.Some? ==>
              && |requests| == |items.value|
              && forall i | 0 <= i < |requests| :: requests[i] == Request(items.value[i].ns, items.value[i].name)
  {
    requests := [];
    if items.None? { return; }
    for i := 0 to |items.value|
      invariant |requests| == i
      invariant forall j | 0 <= j < i :: requests[j] == Request(items.value[j].ns, items.value[j].name)
    {
      requests := requests + [Request(items.value[i].ns, items.value[i].name)];
    }
  }

  /** The requests for one event, given what reading the image configuration and
      listing the instances would say. */
  method Map(key: Key, image: Reply, items: Option<seq<Key>>) returns (requests: seq<Request>)
    requires image.Found? ==> image.obj.body.Image?
    ensures requests != [] ==> Concerns(key, image)
    ensures forall r | r in requests :: items.Some? && exists k <- items.value :: r == Request(k.ns, k.name)
    ensures Concerns(key, image) && items.Some? ==> forall k <- items.value :: Request(k.ns, k.name) in requests
  {
    requests := [];
    if key.kind == ConfigMapKind {
      if key.ns != Names.OPENSHIFT_CONFIG { return; }
      if !image.Found? { return; }
      if image.obj.body.trustedCA == key.name { requests := RequeueUpdateServices(items); }
    } else if key.kind == ImageKind {
      if key.name == "cluster" && key.ns == "" { requests := RequeueUpdateServices(items); }
    }
    if items.Some? && Concerns(key, image) {
      forall k | k in items.value ensures Request(k.ns, k.name) in requests {
        var i :| 0 <= i < |items.value| && items.value[i] == k;
        assert requests[i] == Request(k.ns, k.name);
      }
    }
  }

  // ---- The controller as a state machine ---------------------------------

  /** A change not yet mapped, or one found to concern every instance whose
      listing is still to come. */
  datatype Notice = Fresh(key: Key) | Listing

  /** How far a pass has got with looking for the certificates: not running,
      nothing read yet, or holding the name the image configuration gave. */
  datatype Phase = Idle | Begun | Holding(source: string)

  datatype State = State(st: Store, notices: multiset<Notice>, pending: set<string>,
                         phases: map<string, Phase>, seen: map<string, Sought>)

  function PhaseOf(s: State, name: string): Phase {
    if name in s.phases then s.phases[name] else Idle
  }

  datatype Action =
    | Edit(key: Key, now: Option<Object>) // anybody, any object
    | Inspect(key: Key)                   // Map reads the image configuration
    | List                                // Map lists the instances
    | Ask(name: string)                   // the timer, or a change of an owned object
    | Start(name: string)                 // a worker takes the request
    | Refuse(name: string)                // the name is not acceptable, the pass ends
    | ReadImage(name: string)
    | ReadSource(name: string)
    | Fail(name: string)                  // the pass ends in an error and is retried
    | Ignore(key: Key)                    // Map fails and the change is dropped

  /** The name the image configuration gives; empty when there is none. */
  function Referenced(st: Store): string {
    match Lookup(st, IMAGE_KEY)
    case Some(Object(_, Image(ca))) => ca
    case _ => ""
  }

  function ImageReply(st: Store): Reply {
    match Lookup(st, IMAGE_KEY)
    case Some(o) => Found(o, 0)
    case None => NotFound
  }

  function Instances(st: Store, ns: string): set<string> {
    set k | k in st && k.kind == UpdateServiceKind && k.ns == ns :: k.name
  }

  predicate Enabled(s: State, a: Action, ns: string) {
    match a
    case Edit(key, now) => now.Some? ==> KindOf(now.value.body) == key.kind
    case Inspect(key) => Fresh(key) in s.notices
    case List => Listing in s.notices
    case Ask(_) => true
    case Start(name) => name in s.pending && PhaseOf(s, name).Idle?
    case Refuse(name) => PhaseOf(s, name).Begun? && !RouteName.Acceptable(name, ns)
    case ReadImage(name) => PhaseOf(s, name).Begun? && RouteName.Acceptable(name, ns)
    case ReadSource(name) => PhaseOf(s, name).Holding?
    case Fail(name) => !PhaseOf(s, name).Idle?
    case Ignore(key) => Fresh(key) in s.notices
  }

  function Changed(st: Store, key: Key, now: Option<Object>): Store {
    match now
    case Some(o) => st[key := o]
    case None => st - {key}
  }

  function Next(s: State, a: Action, ns: string): State
    requires Enabled(s, a, ns)
  {
    match a
    case Edit(key, now) =>
      s.(st := Changed(s.st, key, now), notices := s.notices + multiset{Fresh(key)})
    case Inspect(key) =>
      var left := s.notices - multiset{Fresh(key)};
      if key.kind == UpdateServiceKind then
        s.(notices := left, pending := if key.ns == ns then s.pending + {key.name} else s.pending)
      else
        s.(notices := if Concerns(key, ImageReply(s.st)) then left + multiset{Listing} else left)
    case List =>
      s.(notices := s.notices - multiset{Listing}, pending := s.pending + Instances(s.st, ns))
    case Ask(name) => s.(pending := s.pending + {name})
    case Start(name) =>
      s.(pending := s.pending - {name},
         phases := s.phases[name := if InstanceKey(ns, name) in s.st then Begun else Idle])
    case Refuse(name) => s.(phases := s.phases[name := Idle])
    case ReadImage(name) =>
      var source := Referenced(s.st);
      if source == "" then s.(phases := s.phases[name := Idle], seen := s.seen[name := Nothing])
      else s.(phases := s.phases[name := Holding(source)])
    case ReadSource(name) =>
      var result := SourceFound(Lookup(s.st, SourceKey(PhaseOf(s, name).source)));
      s.(phases := s.phases[name := Idle], seen := s.seen[name := result],
         pending := if result.Dangling? then s.pending + {name} else s.pending)
    case Fail(name) => s.(phases := s.phases[name := Idle], pending := s.pending + {name})
    case Ignore(key) => s.(notices := s.notices - multiset{Fresh(key)})
  }

  ghost predicate Feasible(s: State, run: seq<Action>, ns: string)
    decreases |run|
  {
    run == [] || (Enabled(s, run[0], ns) && Feasible(Next(s, run[0], ns), run[1..], ns))
  }

  ghost function Finish(s: State, run: seq<Action>, ns: string): State
    requires Feasible(s, run, ns)
    decreases |run|
  {
    if run == [] then s else Finish(Next(s, run[0], ns), run[1..], ns)
  }

  /** At start-up every instance that exists is announced. */
  predicate Initial(s: State, ns: string) {
    && WellKinded(s.st) && s.phases == map[] && s.seen == map[]
    && forall k <- s.st :: k.kind == UpdateServiceKind ==> Fresh(k) in s.notices
  }

  // ---- No lost wakeup ----------------------------------------------------

  /** The instance will be looked at again. */
  predicate Expected(s: State, ns: string, name: string) {
    || name in s.pending
    || Listing in s.notices
    || Fresh(InstanceKey(ns, name)) in s.notices
    || Fresh(IMAGE_KEY) in s.notices
    || (Referenced(s.st) != "" && Fresh(SourceKey(Referenced(s.st))) in s.notices)
  }

  /** The pass under way will still read what counts now. */
  predicate Looking(s: State, name: string) {
    || PhaseOf(s, name).Begun?
    || (Referenced(s.st) != "" && PhaseOf(s, name) == Holding(Referenced(s.st)))
  }

  /** What was last found is what would be found now. */
  predicate UpToDate(s: State, name: string) {
    PhaseOf(s, name).Idle? && name in s.seen && s.seen[name] == FindTrustedCA(s.st)
  }

  predicate Awake(s: State, ns: string, name: string) {
    InstanceKey(ns, name) in s.st && RouteName.Acceptable(name, ns) ==>
      Expected(s, ns, name) || Looking(s, name) || UpToDate(s, name)
  }

  lemma SearchByReference(st: Store)
    requires WellKinded(st)
    ensures FindTrustedCA(st)
            == if Referenced(st) == "" then Nothing else SourceFound(Lookup(st, SourceKey(Referenced(st))))
  {}

  lemma EditKeepsAwake(s: State, key: Key, now: Option<Object>, ns: string, name: string)
    requires WellKinded(s.st) && Enabled(s, Edit(key, now), ns) && Awake(s, ns, name)
    ensures WellKinded(Next(s, Edit(key, now), ns).st) && Awake(Next(s, Edit(key, now), ns), ns, name)
  {
    hide SourceFound, FindTrustedCA;
    var t := Next(s, Edit(key, now), ns);
    SearchByReference(s.st);
    SearchByReference(t.st);
    assert Fresh(key) in t.notices;
    assert forall n | n in s.notices :: n in t.notices;
    assert forall k: Key | k != key :: Lookup(t.st, k) == Lookup(s.st, k);
    if key != IMAGE_KEY && key != InstanceKey(ns, name) && key != SourceKey(Referenced(s.st)) {
      assert Lookup(t.st, IMAGE_KEY) == Lookup(s.st, IMAGE_KEY);
      assert Lookup(t.st, InstanceKey(ns, name)) == Lookup(s.st, InstanceKey(ns, name));
    }
  }

  lemma InspectKeepsAwake(s: State, key: Key, ns: string, name: string)
    requires WellKinded(s.st) && Enabled(s, Inspect(key), ns) && Awake(s, ns, name)
    ensures Awake(Next(s, Inspect(key), ns), ns, name)
  {
    hide WellKinded, Looking, UpToDate, Concerns, ImageReply, Expected;
    var t := Next(s, Inspect(key), ns);
    SamePhase(s, t, name);
    ConcernsReferenced(s.st);
    if key.kind != UpdateServiceKind && Concerns(key, ImageReply(s.st)) {
      assert Listing in t.notices;
      ListingExpected(t, ns, name);
    } else {
      OthersLeft(s.notices, Fresh(key), t.notices);
      StillExpected(s, t, key, ns, name);
    }
  }

  lemma ListingExpected(t: State, ns: string, name: string)
    requires Listing in t.notices
    ensures Expected(t, ns, name)
  {}

  /** Losing a notice that concerns nobody, or turning it into a request. */
  lemma StillExpected(s: State, t: State, key: Key, ns: string, name: string)
    requires s.st == t.st && s.pending <= t.pending
    requires forall n | n in s.notices && n != Fresh(key) :: n in t.notices
    requires key == InstanceKey(ns, name) ==> name in t.pending
    requires key != IMAGE_KEY && (Referenced(s.st) != "" ==> key != SourceKey(Referenced(s.st)))
    ensures Expected(s, ns, name) ==> Expected(t, ns, name)
  {
    hide Referenced;
  }

  lemma SamePhase(s: State, t: State, name: string)
    requires s.st == t.st && s.phases == t.phases && s.seen == t.seen
    ensures Looking(s, name) <==> Looking(t, name)
    ensures UpToDate(s, name) <==> UpToDate(t, name)
  {
    hide FindTrustedCA;
  }

  lemma OthersLeft(m: multiset<Notice>, x: Notice, n: multiset<Notice>)
    requires m - multiset{x} <= n
    ensures forall y | y in m && y != x :: y in n
  {
    forall y | y in m && y != x ensures y in n { assert y in m - multiset{x}; }
  }

  /** The image configuration and the ConfigMap it names concern everybody. */
  lemma ConcernsReferenced(st: Store)
    requires WellKinded(st)
    ensures Concerns(IMAGE_KEY, ImageReply(st))
    ensures Referenced(st) != "" ==> Concerns(SourceKey(Referenced(st)), ImageReply(st))
  {}

  /** Every step but a failing Map keeps every instance awake. */
  lemma StepKeepsAwake(s: State, a: Action, ns: string, name: string)
    requires WellKinded(s.st) && Enabled(s, a, ns) && !a.Ignore? && Awake(s, ns, name)
    ensures WellKinded(Next(s, a, ns).st) && Awake(Next(s, a, ns), ns, name)
  {
    match a {
      case Edit(key, now) => EditKeepsAwake(s, key, now, ns, name);
      case Inspect(key) => InspectKeepsAwake(s, key, ns, name);
      case List =>
        if InstanceKey(ns, name) in s.st { assert InstanceKey(ns, name).name in Instances(s.st, ns); }
      case _ => SearchByReference(s.st);
    }
  }

  /** No wakeup is lost: after any run in which Map's own reads succeed, each
      instance with an acceptable name will be looked at again, or is being looked
      at with what counts now still to be read, or last found what would be found
      now. */
  lemma {:induction false} NoLostWakeup(s: State, run: seq<Action>, ns: string, name: string)
    requires Feasible(s, run, ns) && WellKinded(s.st) && Awake(s, ns, name)
    requires forall a <- run :: !a.Ignore?
    ensures Awake(Finish(s, run, ns), ns, name)
    decreases |run|
  {
    hide Awake, Next;
    if run != [] {
      assert run[0] in run;
      StepKeepsAwake(s, run[0], ns, name);
      NoLostWakeup(Next(s, run[0], ns), run[1..], ns, name);
    }
  }

  predicate Quiescent(s: State) {
    s.notices == multiset{} && s.pending == {} && forall n <- s.phases :: s.phases[n].Idle?
  }

  /** Nothing was or is being looked up for the name. */
  predicate Unseen(s: State, name: string) { name !in s.seen && !PhaseOf(s, name).Holding? }

  /** A refused instance never gets to see any certificates. */
  lemma {:induction false} RefusedSeesNothing(s: State, run: seq<Action>, ns: string, name: string)
    requires Feasible(s, run, ns) && !RouteName.Acceptable(name, ns) && Unseen(s, name)
    ensures Unseen(Finish(s, run, ns), name)
    decreases |run|
  {
    hide RouteName.Acceptable, FindTrustedCA, SourceFound;
    if run != [] { RefusedSeesNothing(Next(s, run[0], ns), run[1..], ns, name); }
  }

  /** From start-up on, whenever everything has come to rest, exactly the
      instances with acceptable names have seen the certificates there are. */
  lemma RestIsUpToDate(s: State, run: seq<Action>, ns: string, name: string)
    requires Initial(s, ns) && Feasible(s, run, ns) && forall a <- run :: !a.Ignore?
    requires Quiescent(Finish(s, run, ns)) && InstanceKey(ns, name) in Finish(s, run, ns).st
    ensures UpToDate(Finish(s, run, ns), name) <==> RouteName.Acceptable(name, ns)
  {
    hide Feasible, Finish, RouteName.Acceptable;
    if RouteName.Acceptable(name, ns) {
      NoLostWakeup(s, run, ns, name);
    } else {
      RefusedSeesNothing(s, run, ns, name);
    }
  }

  lemma Unfold(s: State, a: Action, run: seq<Action>, ns: string)
    requires Enabled(s, a, ns) && Feasible(Next(s, a, ns), run, ns)
    ensures Feasible(s, [a] + run, ns) && Finish(s, [a] + run, ns) == Finish(Next(s, a, ns), run, ns)
  {
    assert ([a] + run)[1..] == run;
  }

  /** Such a rest is soon reached: a refused instance, once announced, is taken up
      and dropped. */
  lemma RefusedRests(ns: string, name: string, o: Object)
    requires o.body.UpdateService? && !RouteName.Acceptable(name, ns)
    ensures var s := State(map[InstanceKey(ns, name) := o], multiset{Fresh(InstanceKey(ns, name))}, {}, map[], map[]);
            var run := [Inspect(InstanceKey(ns, name)), Start(name), Refuse(name)];
            && Initial(s, ns) && Feasible(s, run, ns) && InstanceKey(ns, name) in Finish(s, run, ns).st
            && Quiescent(Finish(s, run, ns)) && !UpToDate(Finish(s, run, ns), name)
  {
    hide RouteName.Acceptable, FindTrustedCA;
    var key := InstanceKey(ns, name);
    var s := State(map[key := o], multiset{Fresh(key)}, {}, map[], map[]);
    var s1 := Next(s, Inspect(key), ns);
    assert s1.pending == {name} && s1.notices == multiset{};
    var s2 := Next(s1, Start(name), ns);
    var s3 := Next(s2, Refuse(name), ns);
    assert s3.pending == {};
    Unfold(s2, Refuse(name), [], ns);
    Unfold(s1, Start(name), [Refuse(name)] + [], ns);
    Unfold(s, Inspect(key), [Start(name)] + ([Refuse(name)] + []), ns);
    assert [Inspect(key)] + ([Start(name)] + ([Refuse(name)] + [])) == [Inspect(key), Start(name), Refuse(name)];
  }

  // ---- A failing Map -----------------------------------------------------

  /** The referenced ConfigMap becomes cm and Map fails on that change: the
      notice is gone and nothing else has happened. */
  lemma DroppedChange(s: State, ns: string, cm: Object)
    requires cm.body.ConfigMap?
    ensures var key := SourceKey(Referenced(s.st));
            exists run :: Feasible(s, run, ns) && Finish(s, run, ns) == s.(st := s.st[key := cm])
  {
    var key := SourceKey(Referenced(s.st));
    var a, b := Edit(key, Some(cm)), Ignore(key);
    var s1 := Next(s, a, ns);
    var s2 := Next(s1, b, ns);
    assert s2.notices == s.notices;
    assert s2 == s.(st := s.st[key := cm]);
    Unfold(s1, b, [], ns);
    Unfold(s, a, [b] + [], ns);
  }

  /** The promise needs Map to succeed: from any rest with everything up to date,
      a dropped change of the referenced ConfigMap leads to a rest in which the
      certificates have changed unseen. */
  lemma FailingMapLoses(s: State, ns: string, name: string, cm: Object)
    requires Quiescent(s) && WellKinded(s.st) && UpToDate(s, name) && Referenced(s.st) != ""
    requires cm.body.ConfigMap? && SourceFound(Some(cm)) != s.seen[name]
    ensures exists run ::
              && Feasible(s, run, ns) && Quiescent(Finish(s, run, ns))
              && !UpToDate(Finish(s, run, ns), name)
  {
    hide Feasible, Finish, FindTrustedCA, SourceFound;
    var key := SourceKey(Referenced(s.st));
    var t := s.(st := s.st[key := cm]);
    assert Lookup(t.st, IMAGE_KEY) == Lookup(s.st, IMAGE_KEY);
    SearchByReference(t.st);
    DroppedChange(s, ns, cm);
  }
}
