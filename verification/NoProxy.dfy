/** Whether a registry is reached without the cluster's proxy. */
module NoProxy {
  import opened Text

  /** The three proxy variables, as the operator's environment holds them; an
      unset variable reads as the empty string. */
  datatype ProxyEnv = ProxyEnv(http: string, https: string, noProxy: string)

  // ---- IPv4 addresses and blocks -----------------------------------------

  type Octet = x: int | 0 <= x < 256

  datatype IPv4 = IPv4(a: Octet, b: Octet, c: Octet, d: Octet)

  datatype Block = Block(base: IPv4, bits: nat)

  function Value(ip: IPv4): nat {
    ((ip.a * 256 + ip.b) * 256 + ip.c) * 256 + ip.d
  }

  function ParseOctet(s: string): (r: Option<Octet>) {
    if s != "" && Digits(s) && (|s| == 1 || s[0] != '0') && Decimal(s) < 256
    then Some(Decimal(s)) else None
  }

  /** Four decimal octets without leading zeros. */
  function ParseIP(s: string): Option<IPv4> {
    var p := Split(s, '.');
    if |p| != 4 then None
    else
      match (ParseOctet(p[0]), ParseOctet(p[1]), ParseOctet(p[2]), ParseOctet(p[3]))
      case (Some(a), Some(b), Some(c), Some(d)) => Some(IPv4(a, b, c, d))
      case _ => None
  }

  // ---- What the texts denote ---------------------------------------------

  function Dotted(ip: IPv4): (s: string) {
    ToDecimal(ip.a) + "." + ToDecimal(ip.b) + "." + ToDecimal(ip.c) + "." + ToDecimal(ip.d)
  }

  lemma OctetText(s: string, n: Octet)
    ensures ParseOctet(s) == Some(n) <==> s == ToDecimal(n)
  {
    ToDecimalShortest(n);
    if ParseOctet(s) == Some(n) { DecimalShortest(s); }
  }

  lemma FourPieces(a: string, b: string, c: string, d: string)
    requires '.' !in a && '.' !in b && '.' !in c && '.' !in d
    ensures Split(a + "." + b + "." + c + "." + d, '.') == [a, b, c, d]
  {
    SplitWhole(a, '.'); SplitWhole(b, '.'); SplitWhole(c, '.'); SplitWhole(d, '.');
    SplitConcat(a, b, '.');
    SplitConcat(a + "." + b, c, '.');
    SplitConcat(a + "." + b + "." + c, d, '.');
  }

  lemma FourJoined(p: seq<string>)
    requires |p| == 4
    ensures Join(p, '.') == p[0] + "." + p[1] + "." + p[2] + "." + p[3]
  {
    assert p[1..][1..] == p[2..] && p[2..][1..] == p[3..];
    assert Join(p[3..], '.') == p[3];
    assert Join(p[2..], '.') == p[2] + "." + p[3];
    assert Join(p[1..], '.') == p[1] + "." + (p[2] + "." + p[3]);
  }

  /** A text is read as an address exactly when it is that address in dotted
      decimal form. */
  lemma AddressText(s: string, ip: IPv4)
    ensures ParseIP(s) == Some(ip) <==> s == Dotted(ip)
  {
    hide ParseOctet, ToDecimal, Split, Join;
    var p := Split(s, '.');
    JoinSplit(s, '.');
    FourPieces(ToDecimal(ip.a), ToDecimal(ip.b), ToDecimal(ip.c), ToDecimal(ip.d));
    if |p| == 4 {
      FourJoined(p);
      OctetText(p[0], ip.a); OctetText(p[1], ip.b); OctetText(p[2], ip.c); OctetText(p[3], ip.d);
    }
  }

  /** x without its last k bits. */
  function Drop(x: nat, k: nat): nat
    decreases k
  {
    if k == 0 then x else Drop(x / 2, k - 1)
  }

  /** x followed by k zero bits. */
  function Pad(x: nat, k: nat): nat
    decreases k
  {
    if k == 0 then x else 2 * Pad(x, k - 1)
  }

  /** How many of the first n bits fall into byte j. */
  function BitsIn(n: nat, j: nat): (b: nat)
    ensures b <= 8
  {
    if n >= 8 * (j + 1) then 8 else if n <= 8 * j then 0 else n - 8 * j
  }

  /** Byte x with all but its first b bits cleared. */
  function MaskByte(x: Octet, b: nat): (y: Octet)
    requires b <= 8
  {
    PadDrop(x, 8 - b);
    Pad(Drop(x, 8 - b), 8 - b)
  }

  lemma {:induction false} PadDrop(x: nat, k: nat)
    ensures Pad(Drop(x, k), k) <= x
    decreases k
  {
    if k > 0 { PadDrop(x / 2, k - 1); }
  }

  lemma {:induction false} DropPad(x: nat, k: nat)
    ensures Drop(Pad(x, k), k) == x
    decreases k
  {
    if k > 0 { DropPad(x, k - 1); }
  }

  function Mask(ip: IPv4, n: nat): IPv4 {
    IPv4(MaskByte(ip.a, BitsIn(n, 0)), MaskByte(ip.b, BitsIn(n, 1)),
         MaskByte(ip.c, BitsIn(n, 2)), MaskByte(ip.d, BitsIn(n, 3)))
  }

  /** An address, a slash and a prefix length of at most 32; the address of
      the block is masked. */
  function ParseCIDR(s: string): Option<Block> {
    var i := IndexOf(s, '/');
    if i < 0 then None
    else
      var len := s[i + 1..];
      match ParseIP(s[..i])
      case None => None
      case Some(ip) =>
        if len != "" && Digits(len) && Decimal(len) <= 32
        then Some(Block(Mask(ip, Decimal(len)), Decimal(len))) else None
  }

  /** A prefix length, possibly with leading zeros. */
  predicate PrefixLength(len: string) { len != "" && Digits(len) && Decimal(len) <= 32 }

  /** A text is read as a block exactly when it is an address in dotted decimal
      form, a slash and a prefix length; the block is that address masked. */
  lemma BlockText(s: string, block: Block)
    ensures ParseCIDR(s) == Some(block) <==>
            exists ip, len :: s == Dotted(ip) + "/" + len && PrefixLength(len)
              && block == Block(Mask(ip, Decimal(len)), Decimal(len))
  {
    hide ParseIP, Mask, Decimal;
    var i := IndexOf(s, '/');
    if ParseCIDR(s) == Some(block) {
      var ip := ParseIP(s[..i]).value;
      AddressText(s[..i], ip);
      assert s == Dotted(ip) + "/" + s[i + 1..];
    }
    if exists ip, len :: s == Dotted(ip) + "/" + len && PrefixLength(len)
         && block == Block(Mask(ip, Decimal(len)), Decimal(len)) {
      var ip, len :| s == Dotted(ip) + "/" + len && PrefixLength(len)
                     && block == Block(Mask(ip, Decimal(len)), Decimal(len));
      WrittenBlock(ip, len);
    }
  }

  lemma DottedChars(ip: IPv4)
    ensures var s := Dotted(ip);
            s != "" && Digit(s[0]) && Digit(s[|s| - 1]) && forall c <- s :: Digit(c) || c == '.'
  {
    hide ToDecimal;
    var s := Dotted(ip);
    var d := ToDecimal(ip.d);
    assert s[0] == ToDecimal(ip.a)[0] && ToDecimal(ip.a)[0] in ToDecimal(ip.a);
    assert s[|s| - 1] == d[|d| - 1] && d[|d| - 1] in d;
  }

  lemma WrittenBlock(ip: IPv4, len: string)
    requires PrefixLength(len)
    ensures ParseCIDR(Dotted(ip) + "/" + len) == Some(Block(Mask(ip, Decimal(len)), Decimal(len)))
    ensures IndexOf(Dotted(ip) + "/" + len, '/') == |Dotted(ip)|
  {
    hide ParseIP, Mask, Decimal, Dotted, IndexOf;
    DottedChars(ip);
    IndexAt(Dotted(ip), len, '/');
    AddressText(Dotted(ip), ip);
    var s := Dotted(ip) + "/" + len;
    assert s[..|Dotted(ip)|] == Dotted(ip) && s[|Dotted(ip)| + 1..] == len;
  }

  /** Byte by byte, under the mask. */
  predicate Contains(block: Block, ip: IPv4) {
    Mask(block.base, block.bits) == Mask(ip, block.bits)
  }

  /** The first n of the 32 bits, as a number. */
  function TopBits(ip: IPv4, n: nat): nat
    requires n <= 32
  {
    Drop(Value(ip), 32 - n)
  }

  lemma MaskAgrees(x: Octet, y: Octet, b: nat)
    requires b <= 8
    ensures MaskByte(x, b) == MaskByte(y, b) <==> Drop(x, 8 - b) == Drop(y, 8 - b)
    ensures MaskByte(MaskByte(x, b), b) == MaskByte(x, b)
  {
    DropPad(Drop(x, 8 - b), 8 - b);
    DropPad(Drop(y, 8 - b), 8 - b);
  }

  /** A block given by its masked address contains what the address it was
      written with contains. */
  lemma MaskTwice(ip: IPv4, n: nat)
    ensures Mask(Mask(ip, n), n) == Mask(ip, n)
  {
    MaskAgrees(ip.a, ip.a, BitsIn(n, 0));
    MaskAgrees(ip.b, ip.b, BitsIn(n, 1));
    MaskAgrees(ip.c, ip.c, BitsIn(n, 2));
    MaskAgrees(ip.d, ip.d, BitsIn(n, 3));
  }

  lemma {:induction false} DropSum(x: nat, j: nat, k: nat)
    ensures Drop(x, j + k) == Drop(Drop(x, j), k)
    decreases j
  {
    if j > 0 { DropSum(x / 2, j - 1, k); }
  }

  /** Dropping k of the last m bits leaves what precedes them in place. */
  lemma {:induction false} DropWithin(x: nat, y: nat, m: nat, k: nat)
    requires k <= m && y < Pad(1, m)
    ensures Drop(Pad(x, m) + y, k) == Pad(x, m - k) + Drop(y, k)
    ensures Drop(y, k) < Pad(1, m - k)
    decreases k
  {
    if k > 0 {
      assert (Pad(x, m) + y) / 2 == Pad(x, m - 1) + y / 2;
      DropWithin(x, y / 2, m - 1, k - 1);
    }
  }

  /** A number is determined by its last m bits and what precedes them. */
  lemma {:induction false} PadSplit(x: nat, u: nat, y: nat, v: nat, m: nat)
    requires u < Pad(1, m) && v < Pad(1, m)
    ensures Pad(x, m) + u == Pad(y, m) + v <==> x == y && u == v
    decreases m
  {
    if m > 0 { PadSplit(x, u / 2, y, v / 2, m - 1); }
  }

  lemma PadByte(x: nat)
    ensures Pad(x, 8) == x * 256
  {
    assert Pad(x, 4) == 16 * x;
    assert Pad(x, 8) == 2 * Pad(x, 7) == 4 * Pad(x, 6) == 8 * Pad(x, 5) == 16 * Pad(x, 4);
  }

  /** A whole byte at the end drops out. */
  lemma DropByte(x: nat, low: Octet, k: nat)
    requires k >= 8
    ensures Drop(x * 256 + low, k) == Drop(x, k - 8)
  {
    PadByte(x); PadByte(1);
    DropWithin(x, low, 8, 8);
    DropSum(x * 256 + low, 8, k - 8);
  }

  lemma DropInByte(x: nat, b: Octet, k: nat)
    requires k <= 8
    ensures Drop(x * 256 + b, k) == Pad(x, 8 - k) + Drop(b, k)
    ensures Drop(b, k) < Pad(1, 8 - k)
  {
    PadByte(x); PadByte(1);
    DropWithin(x, b, 8, k);
  }

  /** Within the last byte, the preceding bytes stay visible. */
  lemma SplitByte(x: nat, b: Octet, y: nat, c: Octet, k: nat)
    requires k <= 8
    ensures Drop(x * 256 + b, k) == Drop(y * 256 + c, k) <==> x == y && Drop(b, k) == Drop(c, k)
  {
    DropInByte(x, b, k);
    DropInByte(y, c, k);
    PadSplit(x, Drop(b, k), y, Drop(c, k), 8 - k);
  }

  /** The first n bits of an address depend on its first bytes only. */
  lemma TopBytes(ip: IPv4, n: nat)
    requires n <= 32
    ensures n <= 8 ==> TopBits(ip, n) == Drop(ip.a, 8 - n)
    ensures 8 <= n <= 16 ==> TopBits(ip, n) == Drop(ip.a * 256 + ip.b, 16 - n)
    ensures 16 <= n <= 24 ==> TopBits(ip, n) == Drop((ip.a * 256 + ip.b) * 256 + ip.c, 24 - n)
  {
    if n <= 24 {
      DropByte((ip.a * 256 + ip.b) * 256 + ip.c, ip.d, 32 - n);
      if n <= 16 {
        DropByte(ip.a * 256 + ip.b, ip.c, 24 - n);
        if n <= 8 { DropByte(ip.a, ip.b, 16 - n); }
      }
    }
  }

  /** Masks agree when the kept bits of every byte do. */
  lemma MasksAgree(x: IPv4, y: IPv4, n: nat)
    ensures Mask(x, n) == Mask(y, n) <==>
            && Drop(x.a, 8 - BitsIn(n, 0)) == Drop(y.a, 8 - BitsIn(n, 0))
            && Drop(x.b, 8 - BitsIn(n, 1)) == Drop(y.b, 8 - BitsIn(n, 1))
            && Drop(x.c, 8 - BitsIn(n, 2)) == Drop(y.c, 8 - BitsIn(n, 2))
            && Drop(x.d, 8 - BitsIn(n, 3)) == Drop(y.d, 8 - BitsIn(n, 3))
  {
    MaskAgrees(x.a, y.a, BitsIn(n, 0));
    MaskAgrees(x.b, y.b, BitsIn(n, 1));
    MaskAgrees(x.c, y.c, BitsIn(n, 2));
    MaskAgrees(x.d, y.d, BitsIn(n, 3));
  }

  lemma AllDropped(x: Octet)
    ensures Drop(x, 8) == 0 && Drop(x, 0) == x
  {
    DropInByte(0, x, 8);
  }

  lemma TwoBytes(a: Octet, b: Octet, c: Octet, d: Octet)
    ensures a * 256 + b == c * 256 + d <==> a == c && b == d
  {}

  /** Addresses share their first n bits when the first n bits of every byte
      agree: here for n up to 16. */
  lemma HighBits(x: IPv4, y: IPv4, n: nat)
    requires n <= 16
    ensures TopBits(x, n) == TopBits(y, n) <==>
            && Drop(x.a, 8 - BitsIn(n, 0)) == Drop(y.a, 8 - BitsIn(n, 0))
            && Drop(x.b, 8 - BitsIn(n, 1)) == Drop(y.b, 8 - BitsIn(n, 1))
  {
    hide Drop, Pad, TopBits;
    TopBytes(x, n); TopBytes(y, n);
    AllDropped(x.a); AllDropped(y.a);
    AllDropped(x.b); AllDropped(y.b);
    if n > 8 { SplitByte(x.a, x.b, y.a, y.b, 16 - n); }
  }

  /** The same for the last two bytes. */
  lemma LowBits(x: IPv4, y: IPv4, n: nat)
    requires 16 < n <= 32
    ensures TopBits(x, n) == TopBits(y, n) <==>
            && x.a == y.a && x.b == y.b
            && Drop(x.c, 8 - BitsIn(n, 2)) == Drop(y.c, 8 - BitsIn(n, 2))
            && Drop(x.d, 8 - BitsIn(n, 3)) == Drop(y.d, 8 - BitsIn(n, 3))
  {
    hide Drop, Pad;
    var u, v := x.a * 256 + x.b, y.a * 256 + y.b;
    TwoBytes(x.a, x.b, y.a, y.b);
    AllDropped(x.c); AllDropped(y.c);
    AllDropped(x.d); AllDropped(y.d);
    if n > 24 {
      LastByte(u, x.c, x.d, v, y.c, y.d, 32 - n);
    } else {
      hide TopBits;
      TopBytes(x, n); TopBytes(y, n);
      SplitByte(u, x.c, v, y.c, 24 - n);
    }
  }

  lemma LastByte(u: nat, c: Octet, d: Octet, v: nat, c': Octet, d': Octet, k: nat)
    requires k <= 8
    ensures Drop((u * 256 + c) * 256 + d, k) == Drop((v * 256 + c') * 256 + d', k)
            <==> u == v && c == c' && Drop(d, k) == Drop(d', k)
  {
    hide Drop, Pad;
    SplitByte(u * 256 + c, d, v * 256 + c', d', k);
  }

  /** Section 3.1 of RFC 4632: an address lies in a block exactly when its
      first n bits are those of the address the block was written with. */
  lemma ContainsIsPrefix(base: IPv4, n: nat, ip: IPv4)
    requires n <= 32
    ensures Contains(Block(Mask(base, n), n), ip) <==> TopBits(base, n) == TopBits(ip, n)
  {
    MaskTwice(base, n);
    MasksAgree(base, ip, n);
    if n <= 16 {
      HighBits(base, ip, n);
      AllDropped(base.c); AllDropped(ip.c);
      AllDropped(base.d); AllDropped(ip.d);
    } else {
      LowBits(base, ip, n);
    }
  }

  // ---- The list ----------------------------------------------------------

  /** The registry without its port: what precedes the first colon. */
  function PortStripped(registry: string): string {
    var i := IndexOf(registry, ':');
    if i >= 0 then registry[..i] else registry
  }

  /** What one entry of the list, already trimmed, says of a host. */
  predicate EntryMatches(entry: string, host: string) {
    || entry == "*"
    || entry == host
    || (entry != "" && entry[0] == '.' && HasSuffix(host, entry))
    || InBlock(entry, host)
  }

  /** The entry is a block written address/length whose first bits the host,
      an address itself, shares. */
  predicate InBlock(entry: string, host: string) {
    var i := IndexOf(entry, '/');
    && i >= 0
    && ParseIP(host).Some? && ParseIP(entry[..i]).Some? && ParseCIDR(entry).Some?
    && var n := ParseCIDR(entry).value.bits;
       n <= 32 && TopBits(ParseIP(entry[..i]).value, n) == TopBits(ParseIP(host).value, n)
  }

  predicate AnyMatches(entries: seq<string>, host: string) {
    exists k :: 0 <= k < |entries| && EntryMatches(TrimSpace(entries[k]), host)
  }

  /** Some comma-separated entry of a non-empty list matches the host. */
  predicate Bypasses(list: string, registry: string) {
    list != "" && AnyMatches(Split(list, ','), PortStripped(registry))
  }

  method NoProxy(env: ProxyEnv, registry: string) returns (bypass: bool)
    ensures bypass <==> Bypasses(env.noProxy, registry)
  {
    if env.noProxy == "" { return false; }
    var host := registry;
    var colon := IndexOf(host, ':');
    if colon > -1 { host := host[..colon]; }
    var entries := Split(env.noProxy, ',');
    var k := 0;
    while k < |entries|
      invariant 0 <= k <= |entries|
      invariant forall j | 0 <= j < k :: !EntryMatches(TrimSpace(entries[j]), host)
    {
      var trimmed := TrimSpace(entries[k]);
      BlockTest(trimmed, host);
      if trimmed == "*" { return true; }
      if trimmed == host { return true; }
      if trimmed != "" && trimmed[0] == '.' && HasSuffix(host, trimmed) { return true; }
      var ip := ParseIP(host);
      if ip.Some? {
        var block := ParseCIDR(trimmed);
        if block.Some? && Contains(block.value, ip.value) { return true; }
      }
      k := k + 1;
    }
    return false;
  }

  /** The masked comparison the code makes is the comparison of leading bits. */
  lemma BlockTest(entry: string, host: string)
    ensures InBlock(entry, host) <==>
            ParseIP(host).Some? && ParseCIDR(entry).Some?
            && Contains(ParseCIDR(entry).value, ParseIP(host).value)
  {
    if ParseIP(host).Some? && ParseCIDR(entry).Some? {
      var i := IndexOf(entry, '/');
      var n := Decimal(entry[i + 1..]);
      ContainsIsPrefix(ParseIP(entry[..i]).value, n, ParseIP(host).value);
    }
  }

  lemma AnyConcat(xs: seq<string>, ys: seq<string>, host: string)
    ensures AnyMatches(xs + ys, host) <==> AnyMatches(xs, host) || AnyMatches(ys, host)
  {
    if AnyMatches(xs, host) {
      var k :| 0 <= k < |xs| && EntryMatches(TrimSpace(xs[k]), host);
      assert (xs + ys)[k] == xs[k];
    }
    if AnyMatches(ys, host) {
      var k :| 0 <= k < |ys| && EntryMatches(TrimSpace(ys[k]), host);
      assert (xs + ys)[|xs| + k] == ys[k];
    }
  }

  lemma EmptyList(host: string)
    ensures AnyMatches(Split("", ','), host) <==> host == ""
  {
    assert Split("", ',') == [""];
    assert TrimSpace("") == "";
    assert IndexOf("", '/') < 0;
    if host == "" { assert EntryMatches(TrimSpace(Split("", ',')[0]), host); }
  }

  /** Joining two lists with a comma joins what they match, except that for an
      empty host an empty half starts to match: exactly then the law fails. */
  lemma JoinedLists(a: string, b: string, registry: string)
    ensures (Bypasses(a + "," + b, registry) == (Bypasses(a, registry) || Bypasses(b, registry)))
            <==> (PortStripped(registry) != "" || (a != "" && b != "")
                  || Bypasses(a, registry) || Bypasses(b, registry))
  {
    var host := PortStripped(registry);
    SplitConcat(a, b, ',');
    AnyConcat(Split(a, ','), Split(b, ','), host);
    EmptyList(host);
  }

  /** For a real host the order of the list is immaterial and adding entries
      never hides a match. */
  lemma ListOrder(a: string, b: string, registry: string)
    requires PortStripped(registry) != ""
    ensures Bypasses(a + "," + b, registry) == Bypasses(b + "," + a, registry)
    ensures Bypasses(a, registry) ==> Bypasses(a + "," + b, registry)
  {
    JoinedLists(a, b, registry);
    JoinedLists(b, a, registry);
  }

  // ---- Lists of one entry ------------------------------------------------

  /** One entry without commas, between spaces. */
  lemma OneEntry(a: string, entry: string, b: string, registry: string)
    requires Spaces(a) && Spaces(b)
    requires entry != "" && ',' !in entry && !IsSpace(entry[0]) && !IsSpace(entry[|entry| - 1])
    ensures Bypasses(a + entry + b, registry) <==> EntryMatches(entry, PortStripped(registry))
  {
    hide PortStripped, EntryMatches;
    forall c | c in a + entry + b ensures c != ',' { assert c in a || c in entry || c in b; }
    SplitWhole(a + entry + b, ',');
    TrimBetween(a, entry, b);
    if EntryMatches(entry, PortStripped(registry)) {
      assert EntryMatches(TrimSpace(Split(a + entry + b, ',')[0]), PortStripped(registry));
    }
  }

  /** The same without the spaces. */
  lemma BareEntry(entry: string, registry: string)
    requires entry != "" && ',' !in entry && !IsSpace(entry[0]) && !IsSpace(entry[|entry| - 1])
    ensures Bypasses(entry, registry) <==> EntryMatches(entry, PortStripped(registry))
  {
    hide Bypasses, EntryMatches;
    OneEntry("", entry, "", registry);
    assert "" + entry + "" == entry;
  }

  lemma HostOfPort(host: string, port: string)
    requires ':' !in host
    ensures PortStripped(host) == host && PortStripped(host + ":" + port) == host
  {
    IndexAt(host, port, ':');
  }

  /** A list that is one block bypasses the proxy for a registry that is an
      address, with or without a port, exactly when the first bits agree. */
  lemma BlockEntry(base: IPv4, len: string, ip: IPv4, registry: string)
    requires PrefixLength(len)
    requires registry == Dotted(ip) || exists port :: registry == Dotted(ip) + ":" + port
    ensures Bypasses(Dotted(base) + "/" + len, registry)
            <==> TopBits(base, Decimal(len)) == TopBits(ip, Decimal(len))
  {
    hide Dotted, TopBits, IndexOf, ParseIP, ParseCIDR, Bypasses, PortStripped, Decimal;
    var host, entry := Dotted(ip), Dotted(base) + "/" + len;
    DottedChars(base);
    DottedChars(ip);
    if registry == host {
      HostOfPort(host, "");
    } else {
      var port :| registry == host + ":" + port;
      HostOfPort(host, port);
    }
    assert entry[|entry| - 1] == len[|len| - 1] && len[|len| - 1] in len && entry[0] == Dotted(base)[0];
    forall c | c in entry ensures c != ',' { assert c in Dotted(base) || c == '/' || c in len; }
    BareEntry(entry, registry);
    WrittenBlock(base, len);
    AddressText(host, ip);
    AddressText(Dotted(base), base);
    assert entry[|Dotted(base)|] == '/' && entry[..|Dotted(base)|] == Dotted(base);
    assert '/' in entry && '/' !in host;
  }

  /** For whole octets: when the leading ones are equal. */
  lemma OctetBlocks(x: IPv4, y: IPv4)
    ensures TopBits(x, 8) == TopBits(y, 8) <==> x.a == y.a
    ensures TopBits(x, 16) == TopBits(y, 16) <==> x.a == y.a && x.b == y.b
    ensures TopBits(x, 24) == TopBits(y, 24) <==> x.a == y.a && x.b == y.b && x.c == y.c
    ensures TopBits(x, 32) == TopBits(y, 32) <==> x == y
    ensures TopBits(x, 0) == TopBits(y, 0)
  {
    hide Drop, TopBits;
    HighBits(x, y, 0); HighBits(x, y, 8); HighBits(x, y, 16);
    LowBits(x, y, 24); LowBits(x, y, 32);
    AllDropped(x.a); AllDropped(x.b); AllDropped(x.c); AllDropped(x.d);
    AllDropped(y.a); AllDropped(y.b); AllDropped(y.c); AllDropped(y.d);
  }

  /** A list that is one domain, written with a leading dot, bypasses the proxy
      for exactly the hosts below it. */
  lemma DomainEntry(domain: string, registry: string)
    requires domain != "" && ',' !in domain && '/' !in domain && !IsSpace(domain[|domain| - 1])
    ensures Bypasses("." + domain, registry) <==> exists x :: PortStripped(registry) == x + "." + domain
  {
    hide Bypasses, PortStripped, IndexOf, ParseIP, ParseCIDR;
    var entry, host := "." + domain, PortStripped(registry);
    assert entry[|entry| - 1] == domain[|domain| - 1] && entry[0] == '.';
    BareEntry(entry, registry);
    forall c | c in entry ensures c != '/' { assert c == '.' || c in domain; }
    if HasSuffix(host, entry) { assert host == host[..|host| - |entry|] + "." + domain; }
    if exists x :: host == x + "." + domain {
      var x :| host == x + "." + domain;
      assert host == x + entry && host[|host| - |entry|..] == entry;
    }
  }
}
