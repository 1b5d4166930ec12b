/** The bytes a ConfigMap's data feed to the hash behind a pod-template
    annotation. The hash function itself is left out. */
module Checksum {

  // ---- Base64 (section 4 of RFC 4648) ------------------------------------

  /** Every character stands for one byte. */
  predicate Bytes(s: string) {
    forall i | 0 <= i < |s| :: s[i] as int < 256
  }

  function Digit64(v: int): (c: char)
    ensures c != ':' && c != '='
  {
    if 0 <= v < 26 then 'A' + v as char
    else if 26 <= v < 52 then 'a' + (v - 26) as char
    else if 52 <= v < 62 then '0' + (v - 52) as char
    else if v == 62 then '+'
    else '/'
  }

  function Value64(c: char): (v: int)
    ensures 0 <= v < 64
  {
    if 'A' <= c <= 'Z' then c as int - 'A' as int
    else if 'a' <= c <= 'z' then c as int - 'a' as int + 26
    else if '0' <= c <= '9' then c as int - '0' as int + 52
    else if c == '+' then 62
    else 63
  }

  lemma ValueOfDigit(v: int)
    requires 0 <= v < 64
    ensures Value64(Digit64(v)) == v
  {}

  /** Three bytes as four digits. */
  function Group(a: int, b: int, c: int): (g: string)
    ensures |g| == 4 && forall i | 0 <= i < 4 :: g[i] != ':' && g[i] != '='
  {
    [Digit64(a / 4), Digit64(a % 4 * 16 + b / 16), Digit64(b % 16 * 4 + c / 64), Digit64(c % 64)]
  }

  function Code(c: char): int { c as int }

  /** The digits of the whole groups of s. */
  function Emit(s: string): (t: string)
    ensures |t| == |s| / 3 * 4
    decreases |s|
  {
    if |s| < 3 then "" else Group(Code(s[0]), Code(s[1]), Code(s[2])) + Emit(s[3..])
  }

  /** What is left of s after its whole groups. */
  function Carry(s: string): (r: string)
    ensures |r| == |s| % 3
    decreases |s|
  {
    if |s| < 3 then s else Carry(s[3..])
  }

  lemma EmitStep(s: string)
    ensures |s| < 3 ==> Emit(s) == "" && Carry(s) == s
    ensures |s| >= 3 ==> Emit(s) == Group(Code(s[0]), Code(s[1]), Code(s[2])) + Emit(s[3..])
    ensures |s| >= 3 ==> Carry(s) == Carry(s[3..])
  {}

  /** An incomplete group with its padding. */
  function Tail(s: string): string
    requires |s| < 3
  {
    if |s| == 0 then ""
    else if |s| == 1 then Group(Code(s[0]), 0, 0)[..2] + "=="
    else Group(Code(s[0]), Code(s[1]), 0)[..3] + "="
  }

  function Base64(s: string): (t: string)
    ensures |t| % 4 == 0
    decreases |s|
  {
    if |s| < 3 then Tail(s) else Group(Code(s[0]), Code(s[1]), Code(s[2])) + Base64(s[3..])
  }

  function First(w: char, x: char): (v: int)
    ensures 0 <= v < 256
  { Value64(w) * 4 + Value64(x) / 16 }

  function Second(x: char, y: char): (v: int)
    ensures 0 <= v < 256
  { Value64(x) % 16 * 16 + Value64(y) / 4 }

  function Third(y: char, z: char): (v: int)
    ensures 0 <= v < 256
  { Value64(y) % 4 * 64 + Value64(z) }

  /** Reads groups of four digits; the padding ends the text. */
  function Decode(t: string): string
    requires |t| % 4 == 0
    decreases |t|
  {
    if t == "" then ""
    else if t[2] == '=' then [First(t[0], t[1]) as char]
    else if t[3] == '=' then [First(t[0], t[1]) as char, Second(t[1], t[2]) as char]
    else [First(t[0], t[1]) as char, Second(t[1], t[2]) as char, Third(t[2], t[3]) as char] + Decode(t[4..])
  }

  lemma GroupValues(a: int, b: int, c: int)
    requires 0 <= a < 256 && 0 <= b < 256 && 0 <= c < 256
    ensures var g := Group(a, b, c);
            First(g[0], g[1]) == a && Second(g[1], g[2]) == b && Third(g[2], g[3]) == c
  {
    hide Digit64, Value64;
    ValueOfDigit(a / 4);
    ValueOfDigit(a % 4 * 16 + b / 16);
    ValueOfDigit(b % 16 * 4 + c / 64);
    ValueOfDigit(c % 64);
  }

  lemma DecodeTail(s: string)
    requires |s| < 3 && Bytes(s)
    ensures |Tail(s)| % 4 == 0 && Decode(Tail(s)) == s
  {
    hide Group, First, Second, Third;
    if |s| > 0 {
      var g := Group(Code(s[0]), if |s| == 1 then 0 else Code(s[1]), 0);
      GroupValues(Code(s[0]), if |s| == 1 then 0 else Code(s[1]), 0);
      assert Tail(s)[0] == g[0] && Tail(s)[1] == g[1] && (|s| == 2 ==> Tail(s)[2] == g[2]);
    }
  }

  /** Decoding inverts encoding. */
  lemma {:induction false} DecodeBase64(s: string)
    requires Bytes(s)
    ensures Decode(Base64(s)) == s
    decreases |s|
  {
    hide Group, First, Second, Third, Tail;
    if |s| < 3 {
      DecodeTail(s);
    } else {
      var g := Group(Code(s[0]), Code(s[1]), Code(s[2]));
      GroupValues(Code(s[0]), Code(s[1]), Code(s[2]));
      var text := g + Base64(s[3..]);
      assert text[0] == g[0] && text[1] == g[1] && text[2] == g[2] && text[3] == g[3];
      assert text[4..] == Base64(s[3..]);
      DecodeBase64(s[3..]);
      assert s == [s[0], s[1], s[2]] + s[3..];
    }
  }

  // ---- The streaming encoder and the hash it writes to -------------------

  class Hash {
    var fed: string

    constructor ()
      ensures fed == ""
    {
      fed := "";
    }

    method Write(data: string)
      modifies this
      ensures fed == old(fed) + data
    {
      fed := fed + data;
    }
  }

  /** Encodes what it is given, holding back up to two bytes. */
  class Encoder {
    const sink: Hash
    var buf: string

    constructor (sink: Hash)
      ensures this.sink == sink && buf == ""
    {
      this.sink := sink;
      buf := "";
    }

    /** Completes a group that was begun, as far as the data goes. */
    method Fill(data: string) returns (used: nat)
      requires 0 < |buf| < 3
      modifies this
      ensures used <= |data| && |buf| <= 3 && old(buf) + data == buf + data[used..]
      ensures |buf| < 3 ==> used == |data|
    {
      used := 0;
      while used < |data| && |buf| < 3
        invariant used <= |data| && |buf| <= 3
        invariant old(buf) + data == buf + data[used..]
      {
        buf := buf + [data[used]];
        used := used + 1;
      }
    }

    /** Encodes whole groups straight from the data. */
    method WriteGroups(data: string) returns (used: nat)
      modifies sink
      ensures used <= |data| && |data| - used < 3
      ensures sink.fed == old(sink.fed) + Emit(data) && data[used..] == Carry(data)
    {
      hide Group, Emit, Carry;
      used := 0;
      assert data[0..] == data;
      while |data| - used >= 3
        invariant used <= |data|
        invariant sink.fed + Emit(data[used..]) == old(sink.fed) + Emit(data)
        invariant Carry(data[used..]) == Carry(data)
      {
        EmitStep(data[used..]);
        assert data[used..][3..] == data[used + 3..];
        sink.Write(Group(Code(data[used]), Code(data[used + 1]), Code(data[used + 2])));
        used := used + 3;
      }
      EmitStep(data[used..]);
    }

    method Write(data: string)
      requires |buf| < 3
      modifies this, sink
      ensures |buf| < 3
      ensures buf == Carry(old(buf) + data)
      ensures sink.fed == old(sink.fed) + Emit(old(buf) + data)
    {
      hide Group, Emit, Carry;
      ghost var all := buf + data;
      EmitStep(all);
      var i := 0;
      assert data[0..] == data;
      if |buf| > 0 {
        i := Fill(data);
        if |buf| < 3 {
          assert all == buf;
          return;
        }
        assert all[3..] == data[i..];
        sink.Write(Group(Code(buf[0]), Code(buf[1]), Code(buf[2])));
      } else {
        assert all == data;
      }
      var used := WriteGroups(data[i..]);
      buf := data[i..][used..];
    }

    method Close()
      requires |buf| < 3
      modifies this, sink
      ensures buf == "" && sink.fed == old(sink.fed) + Tail(old(buf))
    {
      sink.Write(Tail(buf));
      buf := "";
    }
  }

  // ---- Sorted keys -------------------------------------------------------

  /** Bytewise order. */
  predicate Less(a: string, b: string) {
    b != "" && (a == "" || a[0] < b[0] || (a[0] == b[0] && Less(a[1..], b[1..])))
  }

  lemma {:induction false} LessTotal(a: string, b: string)
    ensures Less(a, b) || a == b || Less(b, a)
    ensures !(Less(a, b) && Less(b, a)) && !(a == b && Less(a, b))
  {
    if a != "" && b != "" && a[0] == b[0] {
      LessTotal(a[1..], b[1..]);
      assert a == [a[0]] + a[1..] && b == [b[0]] + b[1..];
    }
  }

  lemma {:induction false} LessTransitive(a: string, b: string, c: string)
    requires Less(a, b) && Less(b, c)
    ensures Less(a, c)
  {
    if a != "" && a[0] == b[0] && b[0] == c[0] { LessTransitive(a[1..], b[1..], c[1..]); }
  }

  ghost predicate Sorted(ks: seq<string>) {
    forall i, j | 0 <= i < j < |ks| :: Less(ks[i], ks[j])
  }

  /** ks lists the elements of s, each once, in order. */
  ghost predicate Lists(ks: seq<string>, s: set<string>) {
    Sorted(ks) && forall k :: k in ks <==> k in s
  }

  function Insert(ks: seq<string>, k: string): seq<string> {
    if ks == [] then [k]
    else if Less(k, ks[0]) then [k] + ks
    else [ks[0]] + Insert(ks[1..], k)
  }

  function Sort(ks: seq<string>): seq<string> {
    if ks == [] then [] else Insert(Sort(ks[..|ks| - 1]), ks[|ks| - 1])
  }

  lemma {:induction false} InsertLists(ks: seq<string>, s: set<string>, k: string)
    requires Lists(ks, s) && k !in s
    ensures Lists(Insert(ks, k), s + {k})
  {
    var r := Insert(ks, k);
    if ks == [] {
    } else if Less(k, ks[0]) {
      forall i, j | 0 <= i < j < |r| ensures Less(r[i], r[j]) {
        if i == 0 && j > 1 { LessTransitive(k, ks[0], ks[j - 1]); }
      }
    } else {
      LessTotal(k, ks[0]);
      assert ks[0] in s;
      var rest := s - {ks[0]};
      forall x ensures x in ks[1..] <==> x in rest {
        assert ks == [ks[0]] + ks[1..];
        if x in ks[1..] {
          var i :| 1 <= i < |ks| && ks[i] == x;
          LessTotal(ks[0], x);
        }
      }
      InsertLists(ks[1..], rest, k);
      var t := Insert(ks[1..], k);
      forall i, j | 0 <= i < j < |r| ensures Less(r[i], r[j]) {
        if i == 0 {
          assert t[j - 1] in t;
          if t[j - 1] != k {
            var m :| 1 <= m < |ks| && ks[m] == t[j - 1];
          }
        }
      }
      assert s + {k} == {ks[0]} + (rest + {k});
    }
  }

  lemma ListsEmpty(a: seq<string>, s: set<string>)
    requires Lists(a, s)
    ensures a == [] <==> s == {}
  {
    if a != [] { assert a[0] in s; }
  }

  /** There is only one way to list a set in order. */
  lemma {:induction false} ListsUnique(a: seq<string>, b: seq<string>, s: set<string>)
    requires Lists(a, s) && Lists(b, s)
    ensures a == b
  {
    ListsEmpty(a, s); ListsEmpty(b, s);
    if a != [] {
      assert a[0] in a;
      var j :| 0 <= j < |b| && b[j] == a[0];
      assert b[0] in b;
      var i :| 0 <= i < |a| && a[i] == b[0];
      LessTotal(a[0], b[0]);
      assert a[0] == b[0];
      RestLists(a, s);
      RestLists(b, s);
      ListsUnique(a[1..], b[1..], s - {a[0]});
      assert a == [a[0]] + a[1..] && b == [b[0]] + b[1..];
    }
  }

  lemma RestLists(a: seq<string>, s: set<string>)
    requires Lists(a, s) && a != []
    ensures Lists(a[1..], s - {a[0]})
  {
    forall x ensures x in a[1..] <==> x in s - {a[0]} {
      assert a == [a[0]] + a[1..];
      if x in a[1..] {
        var i :| 1 <= i < |a| && a[i] == x;
        LessTotal(a[0], x);
      }
    }
  }

  /** The keys of m in order. */
  ghost function SortedKeys(s: set<string>): (ks: seq<string>)
    ensures Lists(ks, s)
  {
    if s == {} then []
    else
      var k :| k in s;
      InsertLists(SortedKeys(s - {k}), s - {k}, k);
      assert s - {k} + {k} == s;
      Insert(SortedKeys(s - {k}), k)
  }

  // ---- The stream --------------------------------------------------------

  /** Key, value, key, value, ... */
  function FieldsOf(ks: seq<string>, m: map<string, string>): seq<string>
    requires forall k <- ks :: k in m
  {
    if ks == [] then [] else [ks[0], m[ks[0]]] + FieldsOf(ks[1..], m)
  }

  ghost function Fields(m: map<string, string>): seq<string> {
    FieldsOf(SortedKeys(m.Keys), m)
  }

  /** What the hash receives when the encoder holds buf back: the digits of the
      groups each field completes, then a colon written past the encoder. */
  function Feed(buf: string, fields: seq<string>): string
    requires |buf| < 3
    decreases |fields|
  {
    if fields == [] then Tail(buf)
    else
      var all := buf + fields[0];
      Emit(all) + ":" + Feed(Carry(all), fields[1..])
  }

  ghost function Stream(m: map<string, string>): string {
    Feed("", Fields(m))
  }

  lemma {:induction false} FieldsAppend(ks: seq<string>, k: string, m: map<string, string>)
    requires forall x <- ks :: x in m
    requires k in m
    ensures FieldsOf(ks + [k], m) == FieldsOf(ks, m) + [k, m[k]]
  {
    if ks == [] {
      assert FieldsOf([k], m) == [k, m[k]] + FieldsOf([], m);
    } else {
      assert (ks + [k])[1..] == ks[1..] + [k];
      FieldsAppend(ks[1..], k, m);
    }
  }

  lemma NothingListed(s: set<string>)
    requires s == {}
    ensures Lists(Sort([]), s)
  {}

  lemma KeysIn(ks: seq<string>, s: set<string>)
    requires Lists(ks, s)
    ensures forall k <- ks :: k in s
  {}

  /** Collects the keys in whatever order the map yields them and sorts them. */
  method CollectKeys(m: map<string, string>) returns (sorted: seq<string>)
    ensures sorted == SortedKeys(m.Keys)
  {
    hide Lists, Sort;
    var keys: seq<string> := [];
    var todo := m.Keys;
    NothingListed(m.Keys - todo);
    while todo != {}
      invariant todo <= m.Keys
      invariant Lists(Sort(keys), m.Keys - todo)
      decreases todo
    {
      var k :| k in todo;
      SortOneMore(keys, m.Keys - todo, k);
      assert m.Keys - todo + {k} == m.Keys - (todo - {k});
      keys := keys + [k];
      todo := todo - {k};
    }
    sorted := Sort(keys);
    assert m.Keys - todo == m.Keys;
    ListsUnique(sorted, SortedKeys(m.Keys), m.Keys);
  }

  lemma SortOneMore(keys: seq<string>, s: set<string>, k: string)
    requires Lists(Sort(keys), s) && k !in s
    ensures Lists(Sort(keys + [k]), s + {k})
  {
    hide Lists;
    InsertLists(Sort(keys), s, k);
    assert (keys + [k])[..|keys|] == keys;
  }

  lemma FeedOne(buf: string, data: string, rest: seq<string>)
    requires |buf| < 3
    ensures Feed(buf, [data] + rest) == Emit(buf + data) + ":" + Feed(Carry(buf + data), rest)
  {
    hide Emit, Carry;
    assert ([data] + rest)[1..] == rest;
  }

  /** One field, and the separator written past the encoder. */
  method WriteField(encoder: Encoder, hash: Hash, data: string, ghost rest: seq<string>)
    requires encoder.sink == hash && |encoder.buf| < 3
    modifies encoder, hash
    ensures |encoder.buf| < 3
    ensures hash.fed + Feed(encoder.buf, rest) == old(hash.fed) + Feed(old(encoder.buf), [data] + rest)
  {
    hide Emit, Carry, Feed;
    FeedOne(encoder.buf, data, rest);
    ghost var start, digits := hash.fed, Emit(encoder.buf + data);
    encoder.Write(data);
    hash.Write(":");
    assert start + digits + ":" + Feed(encoder.buf, rest) == start + (digits + ":" + Feed(encoder.buf, rest));
  }

  /** Streams the fields in the order of the keys: the order of iteration leaves
      no trace. */
  method ChecksumMap(m: map<string, string>) returns (fed: string)
    ensures fed == Stream(m)
  {
    hide Emit, Carry, Tail, Feed, Lists;
    var sorted := CollectKeys(m);
    KeysIn(sorted, m.Keys);
    var hash := new Hash();
    var encoder := new Encoder(hash);
    var i := 0;
    assert sorted[0..] == sorted;
    while i < |sorted|
      invariant 0 <= i <= |sorted|
      invariant encoder.sink == hash && fresh(hash) && fresh(encoder) && |encoder.buf| < 3
      invariant hash.fed + Feed(encoder.buf, FieldsOf(sorted[i..], m)) == Stream(m)
    {
      var k := sorted[i];
      ghost var rest := FieldsOf(sorted[i + 1..], m);
      assert sorted[i..][1..] == sorted[i + 1..];
      assert [k, m[k]] + rest == [k] + ([m[k]] + rest);
      WriteField(encoder, hash, k, [m[k]] + rest);
      WriteField(encoder, hash, m[k], rest);
      i := i + 1;
    }
    FeedNone(encoder.buf, FieldsOf(sorted[i..], m));
    encoder.Close();
    fed := hash.fed;
  }

  lemma FeedNone(buf: string, fields: seq<string>)
    requires |buf| < 3 && fields == []
    ensures Feed(buf, fields) == Tail(buf)
  {}

  // ---- Its exact content -------------------------------------------------

  function Concat(fields: seq<string>): string {
    if fields == [] then "" else fields[0] + Concat(fields[1..])
  }

  /** For every field end, how many whole groups precede it when n bytes were
      already there. */
  function Marks(n: nat, fields: seq<string>): seq<nat>
    decreases |fields|
  {
    if fields == [] then []
    else [(n + |fields[0]|) / 3] + Marks(n + |fields[0]|, fields[1..])
  }

  function Strip(s: string): string {
    if s == "" then ""
    else (if s[0] == ':' then "" else [s[0]]) + Strip(s[1..])
  }

  /** How many digits precede each colon, in groups, when n digits were already
      there. */
  function ColonMarks(s: string, n: nat): seq<nat> {
    if s == "" then []
    else if s[0] == ':' then [n / 4] + ColonMarks(s[1..], n)
    else ColonMarks(s[1..], n + 1)
  }

  lemma {:induction false} StripConcat(a: string, b: string)
    ensures Strip(a + b) == Strip(a) + Strip(b)
  {
    if a == "" {
      assert a + b == b;
    } else {
      assert (a + b)[1..] == a[1..] + b;
      StripConcat(a[1..], b);
    }
  }

  lemma {:induction false} NoColon(a: string, b: string, n: nat)
    requires ':' !in a
    ensures Strip(a) == a
    ensures ColonMarks(a + b, n) == ColonMarks(b, n + |a|)
  {
    if a == "" {
      assert a + b == b;
    } else {
      assert (a + b)[1..] == a[1..] + b;
      NoColon(a[1..], b, n + 1);
      assert a == [a[0]] + a[1..];
    }
  }

  lemma {:induction false} EmitNoColon(s: string)
    ensures ':' !in Emit(s)
    decreases |s|
  {
    hide Group;
    if |s| >= 3 { EmitNoColon(s[3..]); }
  }

  lemma TailNoColon(s: string)
    requires |s| < 3
    ensures ':' !in Tail(s)
  {
    hide Group;
  }

  lemma {:induction false} Base64Split(a: string, b: string)
    ensures Base64(a + b) == Emit(a) + Base64(Carry(a) + b)
    decreases |a|
  {
    hide Group, Tail;
    if |a| >= 3 {
      assert (a + b)[3..] == a[3..] + b;
      Base64Split(a[3..], b);
    }
  }

  lemma StripColon(a: string, b: string)
    requires ':' !in a
    ensures Strip(a + ":" + b) == a + Strip(b)
  {
    NoColon(a, "", 0);
    assert a + ":" + b == a + (":" + b);
    StripConcat(a, ":" + b);
    assert (":" + b)[1..] == b;
  }

  lemma MarksColon(a: string, b: string, n: nat)
    requires ':' !in a
    ensures ColonMarks(a + ":" + b, n) == [(n + |a|) / 4] + ColonMarks(b, n + |a|)
  {
    assert a + ":" + b == a + (":" + b);
    NoColon(a, ":" + b, n);
    assert (":" + b)[1..] == b;
  }

  /** Without its colons the stream is the encoding of all fields run
      together. */
  lemma {:induction false} FeedStripped(buf: string, fields: seq<string>)
    requires |buf| < 3
    ensures Strip(Feed(buf, fields)) == Base64(buf + Concat(fields))
    decreases |fields|
  {
    hide Emit, Carry, Tail;
    if fields == [] {
      assert buf + Concat(fields) == buf;
      TailNoColon(buf);
      NoColon(Tail(buf), "", 0);
    } else {
      hide Base64;
      var all := buf + fields[0];
      var tail := Concat(fields[1..]);
      FeedStripped(Carry(all), fields[1..]);
      Base64Split(all, tail);
      assert buf + Concat(fields) == all + tail;
      EmitNoColon(all);
      StripColon(Emit(all), Feed(Carry(all), fields[1..]));
    }
  }

  /** The colons stand where the whole groups of each field prefix end. */
  lemma {:induction false} FeedMarks(buf: string, fields: seq<string>, groups: nat)
    requires |buf| < 3
    ensures ColonMarks(Feed(buf, fields), 4 * groups) == Marks(3 * groups + |buf|, fields)
    decreases |fields|
  {
    hide Emit, Carry, Tail;
    if fields == [] {
      TailNoColon(buf);
      NoColon(Tail(buf), "", 4 * groups);
      assert Tail(buf) + "" == Tail(buf);
    } else {
      var all := buf + fields[0];
      EmitNoColon(all);
      MarksColon(Emit(all), Feed(Carry(all), fields[1..]), 4 * groups);
      FeedMarks(Carry(all), fields[1..], groups + |all| / 3);
    }
  }

  /** Two beginnings of the same text with the same number of whole groups emit
      the same digits and leave the same rest. */
  lemma {:induction false} SamePrefix(a: string, x: string, b: string, y: string)
    requires a + x == b + y && |a| / 3 == |b| / 3
    ensures Emit(a) == Emit(b) && Carry(a) + x == Carry(b) + y
    decreases |a|
  {
    hide Group;
    if |a| >= 3 {
      var t := a + x;
      assert t[0] == a[0] == b[0] && t[1] == a[1] == b[1] && t[2] == a[2] == b[2];
      assert a[3..] + x == t[3..] == b[3..] + y;
      SamePrefix(a[3..], x, b[3..], y);
    }
  }

  /** The marks of a first field and of the others. */
  lemma MarksStep(a: string, f: seq<string>, groups: nat)
    requires f != []
    ensures var p, ms := a + f[0], Marks(3 * groups + |a|, f);
            && |ms| > 0 && ms[0] == groups + |p| / 3
            && ms[1..] == Marks(3 * (groups + |p| / 3) + |p| % 3, f[1..])
  {
    var p := a + f[0];
    assert (3 * groups + |p|) / 3 == groups + |p| / 3;
    assert 3 * groups + |p| == 3 * (groups + |p| / 3) + |p| % 3;
  }

  /** The text and the marks determine the stream. */
  lemma {:induction false} MarksDetermine(a: string, f: seq<string>, b: string, g: seq<string>, groups: nat)
    requires |a| < 3 && |b| < 3
    requires a + Concat(f) == b + Concat(g)
    requires Marks(3 * groups + |a|, f) == Marks(3 * groups + |b|, g)
    ensures Feed(a, f) == Feed(b, g)
    decreases |f|
  {
    hide Emit, Carry, Tail, Marks;
    assert |f| == |g| by { MarksLength(3 * groups + |a|, f); MarksLength(3 * groups + |b|, g); }
    if f == [] {
      assert a == a + Concat(f) == b;
    } else {
      var p, q := a + f[0], b + g[0];
      assert a + Concat(f) == p + Concat(f[1..]) && b + Concat(g) == q + Concat(g[1..]);
      MarksStep(a, f, groups);
      MarksStep(b, g, groups);
      SamePrefix(p, Concat(f[1..]), q, Concat(g[1..]));
      MarksDetermine(Carry(p), f[1..], Carry(q), g[1..], groups + |p| / 3);
    }
  }

  lemma {:induction false} MarksLength(n: nat, fields: seq<string>)
    ensures |Marks(n, fields)| == |fields|
    decreases |fields|
  {
    if fields != [] { MarksLength(n + |fields[0]|, fields[1..]); }
  }

  /** Two field lists feed the hash the same bytes exactly when they run
      together to the same text and their fields end after the same numbers of
      whole groups. */
  lemma SameFeed(f: seq<string>, g: seq<string>)
    requires Bytes(Concat(f)) && Bytes(Concat(g))
    ensures Feed("", f) == Feed("", g) <==>
            Concat(f) == Concat(g) && Marks(0, f) == Marks(0, g)
  {
    hide Base64, Decode, Strip, ColonMarks, Feed, Concat, Marks, Bytes;
    FeedStripped("", f); FeedStripped("", g);
    assert "" + Concat(f) == Concat(f) && "" + Concat(g) == Concat(g);
    DecodeBase64(Concat(f)); DecodeBase64(Concat(g));
    FeedMarks("", f, 0); FeedMarks("", g, 0);
    if Concat(f) == Concat(g) && Marks(0, f) == Marks(0, g) {
      MarksDetermine("", f, "", g, 0);
    }
  }

  /** The same for the data of two ConfigMaps; and what decoding recovers. */
  lemma StreamContent(m: map<string, string>, n: map<string, string>)
    requires Bytes(Concat(Fields(m))) && Bytes(Concat(Fields(n)))
    ensures |Strip(Stream(m))| % 4 == 0 && Decode(Strip(Stream(m))) == Concat(Fields(m))
    ensures Stream(m) == Stream(n) <==>
            Concat(Fields(m)) == Concat(Fields(n)) && Marks(0, Fields(m)) == Marks(0, Fields(n))
  {
    FeedStripped("", Fields(m));
    assert "" + Concat(Fields(m)) == Concat(Fields(m));
    DecodeBase64(Concat(Fields(m)));
    SameFeed(Fields(m), Fields(n));
  }

  /** The fields of a one-entry map. */
  lemma SingleField(k: string, v: string)
    ensures Fields(map[k := v]) == [k, v]
  {
    var m := map[k := v];
    assert Lists([k], m.Keys);
    ListsUnique([k], SortedKeys(m.Keys), m.Keys);
    assert FieldsOf([k], m) == [k, v] + FieldsOf([], m);
  }

  /** Different data can feed the hash the same bytes: the separator does not
      separate inside a group. */
  lemma NotInjective()
    ensures map["a" := "bc"] != map["ab" := "c"]
    ensures Stream(map["a" := "bc"]) == Stream(map["ab" := "c"])
  {
    var m, n := map["a" := "bc"], map["ab" := "c"];
    assert "a" in m && "a" !in n;
    SingleField("a", "bc");
    SingleField("ab", "c");
    var f, g := ["a", "bc"], ["ab", "c"];
    assert f[1..] == ["bc"] && g[1..] == ["c"];
    assert Concat(["bc"]) == "bc" + Concat([]) && Concat(["c"]) == "c" + Concat([]);
    assert Concat(f) == "abc" && Concat(g) == "abc";
    assert Marks(0, f) == [0] + Marks(1, ["bc"]) && Marks(0, g) == [0] + Marks(2, ["c"]);
    assert Marks(1, ["bc"]) == [1] + Marks(3, []) && Marks(2, ["c"]) == [1] + Marks(3, []);
    SameFeed(f, g);
  }
}
