/** The admission check on the name of the route an instance would get. */
module RouteName {
  import Names

  const MAX_LENGTH := 63

  // ---- The pattern, with its meaning -------------------------------------

  datatype Regex =
    | Class(chars: set<char>)
    | Then(first: Regex, second: Regex)
    | Star(body: Regex)
    | Maybe(body: Regex)

  /** s belongs to the language of r. */
  ghost predicate Matches(r: Regex, s: string)
    decreases r, |s|
  {
    match r
    case Class(cs) => |s| == 1 && s[0] in cs
    case Then(a, b) => exists i :: 0 <= i <= |s| && Matches(a, s[..i]) && Matches(b, s[i..])
    case Star(a) => s == "" || exists i :: 0 < i <= |s| && Matches(a, s[..i]) && Matches(r, s[i..])
    case Maybe(a) => s == "" || Matches(a, s)
  }

  ghost const LOWER := set c: char | 'a' <= c <= 'z'
  ghost const ALNUM := set c: char | 'a' <= c <= 'z' || '0' <= c <= '9'
  ghost const INNER := ALNUM + {'-'}

  /** ^[a-z]([-a-z0-9]*[a-z0-9])?$ */
  ghost const LABEL := Then(Class(LOWER), Maybe(Then(Star(Class(INNER)), Class(ALNUM))))

  predicate Letter(c: char) { 'a' <= c <= 'z' }
  predicate LetterOrDigit(c: char) { Letter(c) || '0' <= c <= '9' }
  predicate LabelChar(c: char) { LetterOrDigit(c) || c == '-' }

  /** Section 2.3.1 of RFC 1035, lower case only: a letter, then letters, digits
      and hyphens, not ending in a hyphen. */
  predicate Label(s: string) {
    s != "" && Letter(s[0]) && LetterOrDigit(s[|s| - 1]) && forall c <- s :: LabelChar(c)
  }

  lemma {:induction false} StarOfClass(cs: set<char>, s: string)
    ensures Matches(Star(Class(cs)), s) <==> forall c <- s :: c in cs
    decreases |s|
  {
    if s != "" {
      StarOfClass(cs, s[1..]);
      assert s == [s[0]] + s[1..];
      assert s[..1] == [s[0]];
      if forall c <- s :: c in cs {
        assert Matches(Class(cs), s[..1]) && Matches(Star(Class(cs)), s[1..]);
      }
      if Matches(Star(Class(cs)), s) {
        var i :| 0 < i <= |s| && Matches(Class(cs), s[..i]) && Matches(Star(Class(cs)), s[i..]);
        assert i == 1;
      }
    }
  }

  /** What may follow the first letter. */
  lemma TailMatches(s: string)
    ensures Matches(Then(Star(Class(INNER)), Class(ALNUM)), s) <==>
            s != "" && LetterOrDigit(s[|s| - 1]) && forall c <- s :: LabelChar(c)
  {
    var star, last := Star(Class(INNER)), Class(ALNUM);
    if s != "" {
      var i := |s| - 1;
      assert s == s[..i] + [s[i]] && s[i..] == [s[i]];
      StarOfClass(INNER, s[..i]);
      assert Matches(last, s[i..]) <==> LetterOrDigit(s[i]);
      InnerChars(s[..i], s[i]);
    }
    forall i | 0 <= i <= |s| && Matches(star, s[..i]) && Matches(last, s[i..]) ensures i == |s| - 1 {}
  }

  lemma InnerChars(t: string, c: char)
    ensures LetterOrDigit(c) ==> ((forall d <- t :: d in INNER) <==> (forall d <- t + [c] :: LabelChar(d)))
  {
    forall d ensures d in t + [c] <==> d in t || d == c {}
  }

  /** The pattern denotes exactly the labels. */
  lemma PatternIsLabel(s: string)
    ensures Matches(LABEL, s) <==> Label(s)
  {
    if s == "" {
      assert !Matches(LABEL, s);
    } else {
      assert s == [s[0]] + s[1..] && s[..1] == [s[0]];
      TailMatches(s[1..]);
      if Label(s) {
        assert Matches(Class(LOWER), s[..1]);
        assert s[1..] != "" ==> s[1..][|s| - 2] == s[|s| - 1];
        assert Matches(Maybe(Then(Star(Class(INNER)), Class(ALNUM))), s[1..]);
      }
      if Matches(LABEL, s) {
        var i :| 0 <= i <= |s| && Matches(Class(LOWER), s[..i])
          && Matches(Maybe(Then(Star(Class(INNER)), Class(ALNUM))), s[i..]);
        assert i == 1 && s[..1][0] == s[0];
        assert s[1..] != "" ==> s[1..][|s| - 2] == s[|s| - 1];
      }
    }
  }

  // ---- The check ---------------------------------------------------------

  datatype Reason = TooLong | BadFormat

  function RouteHost(name: string, ns: string): string {
    Names.PolicyEngineRoute(name) + "-" + ns
  }

  predicate Acceptable(name: string, ns: string) {
    |RouteHost(name, ns)| <= MAX_LENGTH && Label(RouteHost(name, ns))
  }

  /** A matcher that reads one character at a time. */
  method MatchLabel(s: string) returns (ok: bool)
    ensures ok <==> Matches(LABEL, s)
  {
    PatternIsLabel(s);
    if s == "" || !Letter(s[0]) { return false; }
    var i, endsWell := 1, true;
    while i < |s|
      invariant 1 <= i <= |s|
      invariant forall j | 0 <= j < i :: LabelChar(s[j])
      invariant endsWell == LetterOrDigit(s[i - 1])
    {
      if !LabelChar(s[i]) { return false; }
      endsWell := s[i] != '-';
      i := i + 1;
    }
    ok := endsWell;
  }

  /** Collects the reasons for which an instance name is refused. */
  method ValidateRouteName(name: string, ns: string) returns (reasons: seq<Reason>)
    ensures TooLong in reasons <==> |RouteHost(name, ns)| > MAX_LENGTH
    ensures BadFormat in reasons <==> !Matches(LABEL, RouteHost(name, ns))
    ensures reasons == [] <==> Acceptable(name, ns)
    ensures |reasons| <= 2
  {
    var routeName := RouteHost(name, ns);
    reasons := [];
    if |routeName| > MAX_LENGTH { reasons := reasons + [TooLong]; }
    var ok := MatchLabel(routeName);
    PatternIsLabel(routeName);
    if !ok { reasons := reasons + [BadFormat]; }
  }

  /** Acceptance bounds the two names together and forces a real name, which
      itself starts like a label. */
  lemma AcceptedNames(name: string, ns: string)
    requires Acceptable(name, ns)
    ensures |name| + |ns| <= 56
    ensures name != "" && Letter(name[0]) && (forall c <- name + ns :: LabelChar(c))
    ensures ns != "" && LetterOrDigit(ns[|ns| - 1])
  {
    var r := RouteHost(name, ns);
    assert r == name + "-route-" + ns;
    assert r[|name|] == '-';
    assert name != "" ==> name[0] == r[0];
    assert r[|name| + 6] == '-';
    assert ns != "" ==> ns[|ns| - 1] == r[|r| - 1];
    forall c | c in name + ns ensures LabelChar(c) { assert c in r; }
  }

  /** The converse: names of that shape are accepted. */
  lemma NamesAccepted(name: string, ns: string)
    requires |name| + |ns| <= 56
    requires name != "" && Letter(name[0]) && (forall c <- name + ns :: LabelChar(c))
    requires ns != "" && LetterOrDigit(ns[|ns| - 1])
    ensures Acceptable(name, ns)
  {
    var r := RouteHost(name, ns);
    assert r == name + "-route-" + ns;
    assert r[0] == name[0] && r[|r| - 1] == ns[|ns| - 1];
    forall c | c in r ensures LabelChar(c) {
      assert c in name + ns || c in "-route-";
    }
  }
}
