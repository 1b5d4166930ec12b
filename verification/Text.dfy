/** The string operations the operator borrows from its language's library,
    on strings whose characters stand for bytes. */
module Text {

  datatype Option<+T> = None | Some(value: T)

  /** The index of the first c in s, or -1. */
  function IndexOf(s: string, c: char): (i: int)
    ensures -1 <= i < |s|
    ensures i >= 0 ==> s[i] == c && c !in s[..i]
    ensures i < 0 <==> c !in s
  {
    if s == "" then -1
    else if s[0] == c then 0
    else
      var i := IndexOf(s[1..], c);
      assert i >= 0 ==> s[..i + 1] == [s[0]] + s[1..][..i];
      if i < 0 then -1 else i + 1
  }

  /** The index of the last c in s, or -1. */
  function LastIndexOf(s: string, c: char): (i: int)
    ensures -1 <= i < |s|
    ensures i >= 0 ==> s[i] == c && c !in s[i + 1..]
    ensures i < 0 <==> c !in s
  {
    if s == "" then -1
    else if s[|s| - 1] == c then |s| - 1
    else
      var t := s[..|s| - 1];
      var i := LastIndexOf(t, c);
      assert s == t + [s[|s| - 1]];
      assert i >= 0 ==> s[i + 1..] == t[i + 1..] + [s[|s| - 1]];
      i
  }

  predicate HasSuffix(s: string, t: string) {
    |t| <= |s| && s[|s| - |t|..] == t
  }

  /** t occurs in s. */
  predicate Contains(s: string, t: string) {
    t <= s || (s != "" && Contains(s[1..], t))
  }

  predicate StandsAt(t: string, s: string, i: nat) {
    i + |t| <= |s| && s[i..i + |t|] == t
  }

  /** t stands somewhere in s. */
  ghost predicate Occurs(t: string, s: string) { exists i: nat :: StandsAt(t, s, i) }

  lemma StandsFirst(t: string, s: string)
    ensures StandsAt(t, s, 0) <==> t <= s
  {
    if t <= s { assert s[0..0 + |t|] == t; }
  }

  lemma StandsLater(t: string, s: string, i: nat)
    requires s != ""
    ensures StandsAt(t, s, i + 1) <==> StandsAt(t, s[1..], i)
  {
    if i + 1 + |t| <= |s| { assert s[i + 1..i + 1 + |t|] == s[1..][i..i + |t|]; }
  }

  lemma {:induction false} ContainsOccurs(s: string, t: string)
    ensures Contains(s, t) <==> Occurs(t, s)
  {
    StandsFirst(t, s);
    hide StandsAt;
    if t <= s {
      assert StandsAt(t, s, 0);
    } else if s != "" {
      ContainsOccurs(s[1..], t);
      if Occurs(t, s[1..]) {
        var i: nat :| StandsAt(t, s[1..], i);
        StandsLater(t, s, i);
      }
      if Occurs(t, s) {
        var i: nat :| StandsAt(t, s, i);
        StandsLater(t, s, i - 1);
      }
    } else if Occurs(t, s) {
      NothingStands(t);
    }
  }

  lemma NothingStands(t: string)
    requires t != ""
    ensures !Occurs(t, "")
  {}

  /** Every maximal piece of s between two separators; never empty. */
  function Split(s: string, c: char): (parts: seq<string>)
    ensures |parts| >= 1
  {
    if s == "" then [""]
    else
      var rest := Split(s[1..], c);
      if s[0] == c then [""] + rest else [[s[0]] + rest[0]] + rest[1..]
  }

  function Join(parts: seq<string>, c: char): string
    requires |parts| >= 1
  {
    if |parts| == 1 then parts[0] else parts[0] + [c] + Join(parts[1..], c)
  }

  /** No piece holds a separator, and joining the pieces gives the string back. */
  lemma {:induction false} JoinSplit(s: string, c: char)
    ensures forall k | 0 <= k < |Split(s, c)| :: c !in Split(s, c)[k]
    ensures Join(Split(s, c), c) == s
  {
    if s != "" {
      JoinSplit(s[1..], c);
      var rest := Split(s[1..], c);
      if s[0] == c {
        assert ([""] + rest)[1..] == rest;
      } else if |rest| > 1 {
        assert ([[s[0]] + rest[0]] + rest[1..])[1..] == rest[1..];
      }
    }
  }

  /** A string without separators is its own only piece. */
  lemma {:induction false} SplitWhole(s: string, c: char)
    requires c !in s
    ensures Split(s, c) == [s]
  {
    if s != "" {
      SplitWhole(s[1..], c);
      assert s == [s[0]] + s[1..];
    }
  }

  /** Splitting distributes over a separator. */
  lemma {:induction false} SplitConcat(a: string, b: string, c: char)
    ensures Split(a + [c] + b, c) == Split(a, c) + Split(b, c)
  {
    var s := a + [c] + b;
    if a == "" {
      assert s[1..] == b;
    } else {
      assert s[1..] == a[1..] + [c] + b;
      SplitConcat(a[1..], b, c);
    }
  }

  /** The last index is the only one with no c after it. */
  lemma LastIndex(s: string, c: char, i: nat)
    requires i < |s| && s[i] == c && c !in s[i + 1..]
    ensures LastIndexOf(s, c) == i
  {
    var k := LastIndexOf(s, c);
    assert !(k < i) && !(i < k);
  }

  predicate IsSpace(c: char) {
    c == ' ' || c == '\t' || c == '\n' || c == '\r' || c == '\U{0b}' || c == '\U{0c}'
  }

  function TrimLeft(s: string): string {
    if s != "" && IsSpace(s[0]) then TrimLeft(s[1..]) else s
  }

  function TrimRight(s: string): string {
    if s != "" && IsSpace(s[|s| - 1]) then TrimRight(s[..|s| - 1]) else s
  }

  function TrimSpace(s: string): string {
    TrimRight(TrimLeft(s))
  }

  predicate Digit(c: char) { '0' <= c <= '9' }

  predicate Digits(s: string) { forall c <- s :: Digit(c) }

  /** The number a string of decimal digits denotes. */
  function Decimal(s: string): nat
    requires Digits(s)
  {
    if s == "" then 0
    else
      assert s[|s| - 1] in s;
      Decimal(s[..|s| - 1]) * 10 + (s[|s| - 1] as int - '0' as int)
  }

  /** The shortest decimal writing of n. */
  function ToDecimal(n: nat): (s: string)
    ensures |s| >= 1 && Digits(s)
    ensures Decimal(s) == n
  {
    var d := ['0' + (n % 10) as char];
    if n < 10 then d
    else
      var s := ToDecimal(n / 10) + d;
      assert s[..|s| - 1] == ToDecimal(n / 10);
      s
  }

  /** Digits without a leading zero. */
  predicate Shortest(s: string) {
    s != "" && Digits(s) && (|s| == 1 || s[0] != '0')
  }

  lemma {:induction false} ToDecimalShortest(n: nat)
    ensures Shortest(ToDecimal(n)) && (n > 0 ==> ToDecimal(n)[0] != '0')
  {
    if n >= 10 {
      ToDecimalShortest(n / 10);
      assert ToDecimal(n)[0] == ToDecimal(n / 10)[0];
    } else {
      assert n % 10 == n && ToDecimal(n) == ['0' + n as char];
      assert ('0' + n as char) as int == '0' as int + n;
    }
  }

  lemma {:induction false} DecimalPositive(s: string)
    requires Shortest(s) && s[0] != '0'
    ensures Decimal(s) > 0
  {
    assert s[|s| - 1] in s;
    if |s| > 1 {
      assert s[..|s| - 1][0] == s[0];
      DecimalPositive(s[..|s| - 1]);
    } else {
      assert Decimal(s[..0]) == 0;
    }
  }

  /** Numbers and shortest writings correspond. */
  lemma {:induction false} DecimalShortest(s: string)
    requires Shortest(s)
    ensures ToDecimal(Decimal(s)) == s
  {
    var front := s[..|s| - 1];
    if |s| > 1 {
      assert front[0] == s[0];
      DecimalPositive(front);
      DecimalShortest(front);
      assert s[|s| - 1] in s;
      assert Decimal(s) / 10 == Decimal(front) && Decimal(s) % 10 == s[|s| - 1] as int - '0' as int;
      assert s == front + [s[|s| - 1]];
    } else {
      assert s[0] in s && Decimal(front) == 0;
      assert s == [s[0]];
    }
  }

  lemma {:induction false} IndexAt(a: string, x: string, c: char)
    requires c !in a
    ensures IndexOf(a + [c] + x, c) == |a|
  {
    if a != "" {
      assert (a + [c] + x)[1..] == a[1..] + [c] + x;
      IndexAt(a[1..], x, c);
    }
  }

  /** What trimming leaves: s without spaces in front and behind. */
  lemma TrimWhole(s: string)
    requires s == "" || (!IsSpace(s[0]) && !IsSpace(s[|s| - 1]))
    ensures TrimSpace(s) == s
  {}

  predicate Spaces(s: string) { forall c <- s :: IsSpace(c) }

  lemma {:induction false} TrimFront(a: string, s: string)
    requires Spaces(a)
    ensures TrimLeft(a + s) == TrimLeft(s)
  {
    if a == "" {
      assert a + s == s;
    } else {
      assert (a + s)[1..] == a[1..] + s;
      TrimFront(a[1..], s);
    }
  }

  lemma {:induction false} TrimBack(s: string, b: string)
    requires Spaces(b)
    ensures TrimRight(s + b) == TrimRight(s)
  {
    if b == "" {
      assert s + b == s;
    } else {
      assert (s + b)[..|s + b| - 1] == s + b[..|b| - 1];
      assert IsSpace(b[|b| - 1]);
      TrimBack(s, b[..|b| - 1]);
    }
  }

  /** Trimming finds s between spaces, when s begins and ends with others. */
  lemma TrimBetween(a: string, s: string, b: string)
    requires Spaces(a) && Spaces(b) && s != "" && !IsSpace(s[0]) && !IsSpace(s[|s| - 1])
    ensures TrimSpace(a + s + b) == s
  {
    assert a + s + b == a + (s + b);
    TrimFront(a, s + b);
    TrimBack(s, b);
  }

  /** A common suffix cancels. */
  lemma CancelSuffix(a: string, b: string, t: string)
    ensures a + t == b + t <==> a == b
  {
    if a + t == b + t {
      assert a == (a + t)[..|a|] && b == (b + t)[..|b|];
    }
  }

  /** Strings whose suffixes end in different characters differ. */
  lemma SuffixesDiffer(a: string, s: string, b: string, t: string)
    requires s != "" && t != "" && s[|s| - 1] != t[|t| - 1]
    ensures a + s != b + t
  {
    assert (a + s)[|a + s| - 1] == s[|s| - 1];
    assert (b + t)[|b + t| - 1] == t[|t| - 1];
  }
}
