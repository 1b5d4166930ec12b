/** The conditions an instance reports. */
module Conditions {
  import opened Text
  import opened Objects

  /** Replaces the condition of the same type, or appends. */
  function SetCondition(cs: seq<Condition>, c: Condition): seq<Condition> {
    if cs == [] then [c]
    else if cs[0].kind == c.kind then [c] + cs[1..]
    else [cs[0]] + SetCondition(cs[1..], c)
  }

  /** What the first condition of a type says. */
  function Verdict(cs: seq<Condition>, kind: ConditionType): Option<bool> {
    if cs == [] then None
    else if cs[0].kind == kind then Some(cs[0].holds)
    else Verdict(cs[1..], kind)
  }

  ghost predicate OnePerType(cs: seq<Condition>) {
    forall i, j | 0 <= i < j < |cs| :: cs[i].kind != cs[j].kind
  }

  /** Well formed, and not reporting a refused name. */
  ghost predicate Clean(cs: seq<Condition>) {
    OnePerType(cs) && Verdict(cs, ReconcileError).None?
  }

  /** The shapes in which a status reaches the server. */
  ghost predicate Publishable(s: Status) {
    || (|s.conditions| == 1 && s.conditions[0].kind == ReconcileError && s.conditions[0].holds)
    || (Clean(s.conditions) && Verdict(s.conditions, ReconcileCompleted) == Some(true))
  }

  lemma {:induction false} VerdictNone(cs: seq<Condition>, kind: ConditionType)
    ensures Verdict(cs, kind).None? <==> forall i | 0 <= i < |cs| :: cs[i].kind != kind
  {
    if cs != [] { VerdictNone(cs[1..], kind); }
  }

  /** Setting a condition keeps one per type and touches no other type. */
  lemma {:induction false} SetKeeps(cs: seq<Condition>, c: Condition, other: ConditionType)
    ensures Verdict(SetCondition(cs, c), c.kind) == Some(c.holds)
    ensures other != c.kind ==> Verdict(SetCondition(cs, c), other) == Verdict(cs, other)
    ensures OnePerType(cs) ==> OnePerType(SetCondition(cs, c))
  {
    if cs != [] && cs[0].kind != c.kind {
      hide OnePerType;
      SetKeeps(cs[1..], c, other);
      SetKeeps(cs[1..], c, cs[0].kind);
      OneMore(cs[0], cs[1..]);
      OneMore(cs[0], SetCondition(cs[1..], c));
      assert cs == [cs[0]] + cs[1..];
    } else {
      SetFirst(cs, c);
    }
  }

  lemma SetFirst(cs: seq<Condition>, c: Condition)
    requires cs == [] || cs[0].kind == c.kind
    ensures OnePerType(cs) ==> OnePerType(SetCondition(cs, c))
  {}

  lemma OneMore(c: Condition, cs: seq<Condition>)
    ensures OnePerType([c] + cs) <==> OnePerType(cs) && Verdict(cs, c.kind).None?
  {
    VerdictNone(cs, c.kind);
    var all := [c] + cs;
    if OnePerType(all) {
      forall i, j | 0 <= i < j < |cs| ensures cs[i].kind != cs[j].kind { assert all[i + 1].kind != all[j + 1].kind; }
      forall i | 0 <= i < |cs| ensures cs[i].kind != c.kind { assert all[0].kind != all[i + 1].kind; }
    }
  }

  lemma SetClean(cs: seq<Condition>, c: Condition)
    requires Clean(cs) && c.kind != ReconcileError
    ensures Clean(SetCondition(cs, c))
  {
    SetKeeps(cs, c, ReconcileError);
  }

  /** The operator's working copy of the instance it reconciles. */
  class Instance {
    const ns: string
    const name: string
    const spec: Spec
    var status: Status

    constructor (ns: string, name: string, spec: Spec)
      ensures this.ns == ns && this.name == name && this.spec == spec && status == Status([], "")
    {
      this.ns, this.name, this.spec := ns, name, spec;
      status := Status([], "");
    }

    ghost predicate Ok() reads this { Clean(status.conditions) }

    /** What the status says of the registry's certificates. */
    function Certified(): Option<bool> reads this { Verdict(status.conditions, RegistryCACertFound) }

    method Set(kind: ConditionType, holds: bool, reason: string)
      modifies this
      ensures status == old(status).(conditions := SetCondition(old(status.conditions), Condition(kind, holds, reason)))
      ensures old(Ok()) && kind != ReconcileError ==> Ok()
      ensures Verdict(status.conditions, kind) == Some(holds)
      ensures kind != RegistryCACertFound ==> Certified() == old(Certified())
    {
      var c := Condition(kind, holds, reason);
      SetKeeps(status.conditions, c, RegistryCACertFound);
      if Clean(status.conditions) && kind != ReconcileError { SetClean(status.conditions, c); }
      status := status.(conditions := SetCondition(status.conditions, c));
    }

    method HandleErr(reason: string)
      modifies this
      ensures old(Ok()) ==> Ok()
      ensures Certified() == old(Certified())
    {
      Set(ReconcileCompleted, false, reason);
    }
  }
}
