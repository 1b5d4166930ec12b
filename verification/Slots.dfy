/** What one undisturbed ensure step, and a sequence of them, does to the
    cluster's objects. */
module Slots {
  import opened Text
  import opened Objects
  import opened Merge

  datatype Verb = Create | Update | Delete | UpdateStatus

  /** What a read returned: an object with the version it had, its absence, or
      a failure that says neither. */
  datatype Reply = Found(obj: Object, version: nat) | NotFound | Failure

  /** One call to the API server. A write records what the server reported and
      what it held under the key at that instant, before and after. */
  datatype Event =
    | Read(key: Key, reply: Reply)
    | Write(verb: Verb, key: Key, ok: bool, was: Option<Object>, now: Option<Object>)

  /** How an ensure step treats what it finds: not at all, only its absence, by
      overwriting the compared part, or by merging. */
  datatype Rule = Skip | CreateOnly | Compare | MergeWith(wanted: Wanted, sha: string)

  datatype Slot = Slot(key: Key, desired: Object, rule: Rule)

  /** The addresses the server hands to new services. */
  type Allocator = Key -> string

  /** The server stores what it is given, except that it picks a service's
      address. */
  function Admit(k: Key, o: Object, ip: Allocator): Object { WithAddress(o, ip(k)) }

  function WithAddress(o: Object, address: string): Object {
    match o.body
    case Service(s) => o.(body := Service(s.(clusterIP := address)))
    case _ => o
  }

  /** The compared part overwritten; what users and the server own is kept. */
  function Overwrite(found: Object, desired: Object): Object {
    match (found.body, desired.body)
    case (ConfigMap(_), ConfigMap(d)) => found.(body := ConfigMap(d))
    case (Secret(_), Secret(d)) => found.(body := Secret(d))
    case (Service(f), Service(d)) => found.(body := Service(d.(clusterIP := f.clusterIP)))
    case (Budget(_), Budget(d)) => found.(body := Budget(d))
    case (NetworkPolicy(_), NetworkPolicy(d)) => found.(body := NetworkPolicy(d))
    case (Route(f, ingress), Route(d, _)) => found.(body := Route(d.(tls := f.tls), ingress))
    case _ => found
  }

  function MergeObject(found: Object, w: Wanted, sha: string): Object {
    match found.body
    case Deployment(d) => if HasGraphData(d) then found.(body := Deployment(Merge.Merge(d, w, sha))) else found
    case _ => found
  }

  function Adjust(found: Object, s: Slot): Object {
    match s.rule
    case Compare => Overwrite(found, s.desired)
    case MergeWith(w, sha) => MergeObject(found, w, sha)
    case _ => found
  }

  function Settle(found: Option<Object>, s: Slot, ip: Allocator): Object {
    match found
    case None => Admit(s.key, s.desired, ip)
    case Some(o) => Adjust(o, s)
  }

  function ApplyOne(st: Store, s: Slot, ip: Allocator): Store {
    if s.rule.Skip? then st else st[s.key := Settle(Lookup(st, s.key), s, ip)]
  }

  /** The calls one step issues: none when nothing needs changing. */
  function Issue(st: Store, s: Slot, ip: Allocator): seq<Event> {
    if s.rule.Skip? then []
    else
      var was := Lookup(st, s.key);
      var now := Settle(was, s, ip);
      if was.None? then [Write(Create, s.key, true, None, Some(now))]
      else if now != was.value then [Write(Update, s.key, true, was, Some(now))]
      else []
  }

  function ApplyAll(st: Store, ss: seq<Slot>, ip: Allocator): Store {
    if ss == [] then st else ApplyOne(ApplyAll(st, ss[..|ss| - 1], ip), ss[|ss| - 1], ip)
  }

  function IssueAll(st: Store, ss: seq<Slot>, ip: Allocator): seq<Event> {
    if ss == [] then []
    else IssueAll(st, ss[..|ss| - 1], ip) + Issue(ApplyAll(st, ss[..|ss| - 1], ip), ss[|ss| - 1], ip)
  }

  // ---- One key at a time -------------------------------------------------

  /** What the steps make of the object under one key. */
  function FoldAt(v: Option<Object>, ss: seq<Slot>, k: Key, ip: Allocator): Option<Object> {
    if ss == [] then v
    else
      var u := FoldAt(v, ss[..|ss| - 1], k, ip);
      var s := ss[|ss| - 1];
      if s.rule.Skip? || s.key != k then u else Some(Settle(u, s, ip))
  }

  lemma {:induction false} LookupApply(st: Store, ss: seq<Slot>, k: Key, ip: Allocator)
    ensures Lookup(ApplyAll(st, ss, ip), k) == FoldAt(Lookup(st, k), ss, k, ip)
  {
    hide Settle;
    if ss != [] { LookupApply(st, ss[..|ss| - 1], k, ip); }
  }

  ghost predicate Touches(ss: seq<Slot>, k: Key) {
    exists i :: 0 <= i < |ss| && !ss[i].rule.Skip? && ss[i].key == k
  }

  lemma {:induction false} FoldUntouched(v: Option<Object>, ss: seq<Slot>, k: Key, ip: Allocator)
    requires !Touches(ss, k)
    ensures FoldAt(v, ss, k, ip) == v
  {
    if ss != [] { FoldUntouched(v, ss[..|ss| - 1], k, ip); }
  }

  lemma ApplyFrame(st: Store, ss: seq<Slot>, k: Key, ip: Allocator)
    requires !Touches(ss, k)
    ensures Lookup(ApplyAll(st, ss, ip), k) == Lookup(st, k)
  {
    LookupApply(st, ss, k, ip);
    FoldUntouched(Lookup(st, k), ss, k, ip);
  }

  // ---- Settling ----------------------------------------------------------

  /** Nothing is left to do for s. */
  ghost predicate Stable(st: Store, s: Slot) {
    s.rule.Skip? || (s.key in st && Adjust(st[s.key], s) == st[s.key])
  }

  ghost predicate AllStable(st: Store, ss: seq<Slot>) {
    forall i | 0 <= i < |ss| :: Stable(st, ss[i])
  }

  /** A slot an undisturbed step can settle at once: a Deployment that has to be
      created cannot get its digest annotation in the same step. */
  ghost predicate Settleable(found: Option<Object>, s: Slot) {
    match s.rule
    case MergeWith(w, sha) =>
      && Proper(w)
      && (found.Some? || (sha == "" && s.desired.body == Deployment(w.spec) && Matches(w.spec, w, "")))
    case _ => true
  }

  lemma OverwriteTwice(found: Object, desired: Object)
    ensures Overwrite(Overwrite(found, desired), desired) == Overwrite(found, desired)
  {}

  lemma OverwriteAdmitted(k: Key, desired: Object, ip: Allocator)
    ensures Overwrite(Admit(k, desired, ip), desired) == Admit(k, desired, ip)
  {}

  lemma MergeObjectTwice(found: Object, w: Wanted, sha: string)
    requires Proper(w)
    ensures MergeObject(MergeObject(found, w, sha), w, sha) == MergeObject(found, w, sha)
  {
    hide Merge.Merge;
    if found.body.Deployment? { MergeIdempotent(found.body.deployment, w, sha); }
  }

  lemma MergeCreated(o: Object, w: Wanted)
    requires Proper(w) && o.body == Deployment(w.spec) && Matches(w.spec, w, "")
    ensures MergeObject(o, w, "") == o
  {
    hide Merge.Merge, Matches;
    MergeFixed(w.spec, w, "");
  }

  /** One step settles its slot. */
  lemma SettleOnce(found: Option<Object>, s: Slot, ip: Allocator)
    requires Settleable(found, s)
    ensures Adjust(Settle(found, s, ip), s) == Settle(found, s, ip)
  {
    hide Overwrite, MergeObject;
    match s.rule {
      case Compare =>
        if found.Some? { OverwriteTwice(found.value, s.desired); }
        OverwriteAdmitted(s.key, s.desired, ip);
      case MergeWith(w, sha) =>
        if found.Some? {
          MergeObjectTwice(found.value, w, sha);
        } else {
          MergeCreated(s.desired, w);
        }
      case _ =>
    }
  }

  /** Steps on the same key do not undo each other when the earlier one only
      asks that something be there. */
  ghost predicate Compatible(ss: seq<Slot>) {
    forall i, j | 0 <= i < j < |ss| && !ss[i].rule.Skip? && !ss[j].rule.Skip? ::
      ss[i].key == ss[j].key ==> ss[i].rule.CreateOnly? && ss[j].rule.Compare?
  }

  ghost predicate AllSettleable(st: Store, ss: seq<Slot>) {
    forall i | 0 <= i < |ss| :: Settleable(Lookup(st, ss[i].key), ss[i])
  }

  lemma SettleableLater(st: Store, ss: seq<Slot>, k: Key, s: Slot, ip: Allocator)
    requires s.key == k && Settleable(Lookup(st, k), s)
    requires !Touches(ss, k) || !s.rule.MergeWith?
    ensures Settleable(Lookup(ApplyAll(st, ss, ip), k), s)
  {
    if s.rule.MergeWith? { ApplyFrame(st, ss, k, ip); }
  }

  /** One pass settles every slot. */
  lemma {:induction false} ApplySettles(st: Store, ss: seq<Slot>, ip: Allocator)
    requires Compatible(ss) && AllSettleable(st, ss)
    ensures AllStable(ApplyAll(st, ss, ip), ss)
  {
    if ss != [] {
      hide Settle, Adjust, Settleable;
      var n := |ss| - 1;
      var init, s := ss[..n], ss[n];
      ApplySettles(st, init, ip);
      var mid := ApplyAll(st, init, ip);
      var end := ApplyOne(mid, s, ip);
      if !s.rule.Skip? {
        forall i | 0 <= i < n ensures Stable(end, ss[i]) {
          assert Stable(mid, init[i]);
          if !ss[i].rule.Skip? && ss[i].key == s.key { CreateOnlyStable(end, ss[i]); }
        }
        if s.rule.MergeWith? {
          assert !Touches(init, s.key) by {
            assert forall i | 0 <= i < n :: init[i] == ss[i];
          }
        }
        SettleableLater(st, init, s.key, s, ip);
        SettleOnce(Lookup(mid, s.key), s, ip);
      }
    }
  }

  lemma CreateOnlyStable(st: Store, s: Slot)
    requires s.rule.CreateOnly? && s.key in st
    ensures Stable(st, s)
  {}

  /** With every slot settled a pass changes nothing and issues nothing; and
      only then. */
  lemma {:induction false} StableIsQuiet(st: Store, ss: seq<Slot>, ip: Allocator)
    ensures AllStable(st, ss) ==> ApplyAll(st, ss, ip) == st && IssueAll(st, ss, ip) == []
    ensures IssueAll(st, ss, ip) == [] ==> AllStable(st, ss)
  {
    if ss != [] {
      hide Adjust, Stable, Issue, ApplyOne;
      var n := |ss| - 1;
      StableIsQuiet(st, ss[..n], ip);
      LastStable(st, ss);
      OneQuiet(st, ss[n], ip);
    }
  }

  lemma LastStable(st: Store, ss: seq<Slot>)
    requires ss != []
    ensures AllStable(st, ss) <==> AllStable(st, ss[..|ss| - 1]) && Stable(st, ss[|ss| - 1])
  {
    hide Stable;
    var front := ss[..|ss| - 1];
    if AllStable(st, front) && Stable(st, ss[|ss| - 1]) {
      forall i | 0 <= i < |ss| ensures Stable(st, ss[i]) {
        if i < |front| { assert front[i] == ss[i]; }
      }
    }
  }

  lemma OneQuiet(st: Store, s: Slot, ip: Allocator)
    ensures Stable(st, s) ==> ApplyOne(st, s, ip) == st
    ensures Issue(st, s, ip) == [] <==> Stable(st, s)
  {
    hide Adjust;
  }
}
