/**
 * The text conversions the IP-MIB, IPv6-MIB and CISCO-IETF-IP-MIB query
 * modules apply to SNMP walk results: `binascii.hexlify` of a value's bytes
 * (the MAC address), and the decimal OID sub-identifiers of an IPv6 address
 * turned into hexadecimal with `hex(int(node))[2:].zfill(2)`.
 */
module OidHex {
  import opened Wrappers
  import opened Strings
  import opened Dicts

  type byte = b: int | 0 <= b < 256

  /** A lowercase hexadecimal digit. */
  function HexChar(d: nat): (c: char)
    requires d < 16
    ensures IsHex(c)
  {
    if d < 10 then DigitChar(d) else ('a' as int + d - 10) as char
  }

  function HexCharValue(c: char): (d: nat)
    requires IsHex(c)
    ensures d < 16
  {
    if '0' <= c <= '9' then c as int - '0' as int else c as int - 'a' as int + 10
  }

  lemma HexCharInverse(d: nat)
    requires d < 16
    ensures HexCharValue(HexChar(d)) == d
  {
  }

  // ---------------------------------------------------------------------
  // binascii.hexlify(value).decode('utf-8')
  // ---------------------------------------------------------------------

  /** Two lowercase hexadecimal digits per byte, high nibble first. */
  function Hexlify(bs: seq<byte>): (r: string)
    ensures |r| == 2 * |bs|
    ensures AllHex(r)
    decreases |bs|
  {
    if |bs| == 0 then ""
    else
      var rest := Hexlify(bs[1..]);
      var r := [HexChar(bs[0] / 16), HexChar(bs[0] % 16)] + rest;
      assert forall i :: 2 <= i < |r| ==> r[i] == rest[i - 2];
      r
  }

  /** `binascii.unhexlify` of lowercase hexadecimal text. */
  function Unhexlify(s: string): (bs: seq<byte>)
    requires |s| % 2 == 0 && AllHex(s)
    decreases |s|
  {
    if |s| == 0 then []
    else [HexCharValue(s[0]) * 16 + HexCharValue(s[1])] + Unhexlify(s[2..])
  }

  /** The bytes come back from their hexadecimal text. */
  lemma {:induction false} HexlifyRoundTrip(bs: seq<byte>)
    ensures Unhexlify(Hexlify(bs)) == bs
    decreases |bs|
  {
    if |bs| > 0 {
      HexlifyRoundTrip(bs[1..]);
      HexCharInverse(bs[0] / 16);
      HexCharInverse(bs[0] % 16);
      assert Hexlify(bs)[2..] == Hexlify(bs[1..]);
    }
  }

  lemma {:induction false} HexlifyAppend(a: seq<byte>, b: seq<byte>)
    ensures Hexlify(a + b) == Hexlify(a) + Hexlify(b)
    decreases |a|
  {
    if |a| > 0 {
      HexlifyAppend(a[1..], b);
      assert (a + b)[1..] == a[1..] + b;
    } else {
      assert a + b == b;
    }
  }

  /** The first `2n` hexadecimal digits are the text of the first `n` bytes. */
  lemma HexlifyPrefix(bs: seq<byte>, n: nat)
    requires n <= |bs|
    ensures Hexlify(bs)[..2 * n] == Hexlify(bs[..n])
  {
    HexlifyAppend(bs[..n], bs[n..]);
    assert bs[..n] + bs[n..] == bs;
  }

  /** `.lower()` leaves lowercase hexadecimal text as it is. */
  lemma LowerHex(s: string)
    requires AllHex(s)
    ensures Lower(s) == s
  {
  }

  /** `binascii.hexlify(value).decode('utf-8').lower()`, the IPv4 ARP table's MAC text. */
  function Mac(value: seq<byte>): string {
    Lower(Hexlify(value))
  }

  /** `binascii.hexlify(value).decode('utf-8')[0:12].lower()`, the IPv6 tables' MAC text. */
  function Mac12(value: seq<byte>): string {
    var h := Hexlify(value);
    Lower(h[..if |h| < 12 then |h| else 12])
  }

  /** The MAC text is the hexadecimal text of all the value's bytes, and gives them back. */
  lemma MacFacts(value: seq<byte>)
    ensures |Mac(value)| == 2 * |value| && AllHex(Mac(value))
    ensures Unhexlify(Mac(value)) == value
  {
    LowerHex(Hexlify(value));
    HexlifyRoundTrip(value);
  }

  /**
   * The IPv6 tables keep at most 12 lowercase hexadecimal digits: the text of
   * the value's first six bytes.
   */
  lemma Mac12Facts(value: seq<byte>)
    ensures |Mac12(value)| <= 12 && AllHex(Mac12(value))
    ensures var n := if |value| < 6 then |value| else 6;
      Mac12(value) == Hexlify(value[..n])
  {
    var n := if |value| < 6 then |value| else 6;
    var h := Hexlify(value);
    HexlifyPrefix(value, n);
    assert h[..2 * n] == h[..if |h| < 12 then |h| else 12];
    LowerHex(h[..2 * n]);
  }

  /** The MAC text is already lower case: the second `.lower()` changes nothing. */
  lemma Mac12Lower(value: seq<byte>)
    ensures Lower(Mac12(value)) == Mac12(value)
  {
    Mac12Facts(value);
    LowerHex(Mac12(value));
  }

  // ---------------------------------------------------------------------
  // ('%s') % (hex(int(value)))[2:] followed by .zfill(2)
  // ---------------------------------------------------------------------

  /** `hex(n)` without its `0x` for n >= 0: lowercase digits, no leading zero. */
  function HexDigits(n: nat): (r: string)
    ensures |r| > 0 && AllHex(r)
    ensures n < 16 <==> |r| == 1
    decreases n
  {
    if n < 16 then [HexChar(n)] else HexDigits(n / 16) + [HexChar(n % 16)]
  }

  /** The number a hexadecimal text stands for. */
  function HexValue(s: string): nat
    requires AllHex(s)
    decreases |s|
  {
    if |s| == 0 then 0 else HexValue(s[..|s| - 1]) * 16 + HexCharValue(s[|s| - 1])
  }

  lemma {:induction false} HexDigitsValue(n: nat)
    ensures HexValue(HexDigits(n)) == n
    decreases n
  {
    HexCharInverse(n % 16);
    if n >= 16 {
      HexDigitsValue(n / 16);
      var s := HexDigits(n);
      assert s[..|s| - 1] == HexDigits(n / 16);
    } else {
      assert HexDigits(n)[..0] == "";
    }
  }

  /** A leading zero does not change the value. */
  lemma {:induction false} HexValueZero(s: string)
    requires AllHex(s)
    ensures AllHex("0" + s) && HexValue("0" + s) == HexValue(s)
    decreases |s|
  {
    if |s| > 0 {
      HexValueZero(s[..|s| - 1]);
      assert ("0" + s)[..|s|] == "0" + s[..|s| - 1];
    }
  }

  /** Python's `hex(n)`. */
  function PyHex(n: int): (r: string)
    ensures |r| >= 3
  {
    if n < 0 then "-0x" + HexDigits(-n) else "0x" + HexDigits(n)
  }

  function Zeros(k: nat): (r: string)
    ensures |r| == k && forall i :: 0 <= i < k ==> r[i] == '0'
  {
    seq(k, i => '0')
  }

  /** Python's `s.zfill(width)`: zeros go after a leading sign. */
  function ZFill(s: string, width: nat): (r: string)
    ensures |r| == if |s| < width then width else |s|
    ensures forall c :: c != '0' && Free(s, c) ==> Free(r, c)
  {
    if |s| >= width then s
    else if |s| > 0 && (s[0] == '+' || s[0] == '-') then [s[0]] + Zeros(width - |s|) + s[1..]
    else Zeros(width - |s|) + s
  }

  /** `('%s') % (hex(n))[2:]` followed by `.zfill(2)`. */
  function HexOf(n: int): (r: string)
    ensures |r| >= 2
  {
    ZFill(PyHex(n)[2..], 2)
  }

  /** One decimal OID sub-identifier in hexadecimal; None where `int()` raises. */
  function HexNode(node: string): (r: Option<string>)
    ensures r.Some? <==> ParseInt(node).Some?
  {
    match ParseInt(node)
    case None => None
    case Some(n) => Some(HexOf(n))
  }

  /** A number n >= 0 becomes at least two lowercase hexadecimal digits standing for n. */
  lemma HexOfValue(n: nat)
    ensures AllHex(HexOf(n)) && HexValue(HexOf(n)) == n
  {
    var d := HexDigits(n);
    assert PyHex(n)[2..] == d;
    HexDigitsValue(n);
    if |d| < 2 {
      assert ZFill(d, 2) == "0" + d;
      HexValueZero(d);
    }
  }

  /** A number from 0 to 255 becomes exactly the two digits `hexlify` gives its byte. */
  lemma HexOfByte(b: byte)
    ensures HexOf(b) == Hexlify([b])
  {
    var d := HexDigits(b);
    assert PyHex(b)[2..] == d;
    assert [b][1..] == [];
    if b < 16 {
      assert ZFill(d, 2) == "0" + d;
    } else {
      assert HexDigits(b / 16) == [HexChar(b / 16)];
      assert d == [HexChar(b / 16), HexChar(b % 16)];
    }
  }

  /** A negative number keeps the `x` of `-0x`: `hex(-n)[2:]` is `x` and the digits of n. */
  lemma HexOfNegative(n: int)
    requires n < 0
    ensures HexOf(n) == "x" + HexDigits(-n)
  {
    assert PyHex(n)[2..] == "x" + HexDigits(-n);
  }

  /** No converted number holds a colon. */
  lemma HexOfFree(n: int)
    ensures Free(HexOf(n), ':')
  {
    var t := PyHex(n)[2..];
    assert Free(t, ':') by {
      if n < 0 {
        assert t == "x" + HexDigits(-n);
      } else {
        assert t == HexDigits(n);
      }
    }
  }

  /** The decimal text of a byte converts to the two digits `hexlify` gives it. */
  lemma HexNodeByte(b: byte)
    ensures HexNode(NatString(b)) == Some(Hexlify([b]))
  {
    NatStringParse(b);
    HexOfByte(b);
  }

  /** A list built item by item with `append`, or None where converting an item raises. */
  function MapAll<A, B>(xs: seq<A>, f: A -> Option<B>): (r: Option<seq<B>>)
    ensures r.Some? <==> forall i :: 0 <= i < |xs| ==> f(xs[i]).Some?
    ensures r.Some? ==> |r.value| == |xs| && forall i :: 0 <= i < |xs| ==> f(xs[i]) == Some(r.value[i])
    decreases |xs|
  {
    if |xs| == 0 then Some([])
    else
      var front := xs[..|xs| - 1];
      assert forall i :: 0 <= i < |front| ==> front[i] == xs[i];
      match MapAll(front, f)
      case None => None
      case Some(h) =>
        match f(xs[|xs| - 1])
        case None => None
        case Some(x) => Some(h + [x])
  }

  /** One more item: the list goes on from the one the items before it built. */
  lemma MapAllStep<A, B>(xs: seq<A>, f: A -> Option<B>, i: nat, acc: seq<B>)
    requires i < |xs| && MapAll(xs[..i], f) == Some(acc)
    ensures MapAll(xs[..i + 1], f) ==
      match f(xs[i])
      case None => None
      case Some(x) => Some(acc + [x])
  {
    assert xs[..i + 1][..i] == xs[..i];
  }

  /** The loop filling `nodes_hex`; None where a sub-identifier is not an int. */
  function HexNodes(nodes: seq<string>): Option<seq<string>> {
    MapAll(nodes, HexNode)
  }

  /** The loop of the source: `nodes_hex.append(hexbyte.zfill(2))` per sub-identifier. */
  method ConvertNodes(nodes: seq<string>) returns (r: Option<seq<string>>)
    ensures r == HexNodes(nodes)
  {
    var nodesHex: seq<string> := [];
    var i := 0;
    while i < |nodes|
      invariant 0 <= i <= |nodes|
      invariant MapAll(nodes[..i], HexNode) == Some(nodesHex)
    {
      MapAllStep(nodes, HexNode, i, nodesHex);
      var hexbyte := ConvertNode(nodes[i]);
      if hexbyte.None? {
        assert HexNode(nodes[i]).None?;
        return None;
      }
      nodesHex := nodesHex + [hexbyte.value];
      i := i + 1;
    }
    assert nodes[..i] == nodes;
    r := Some(nodesHex);
  }

  /** The body of that loop: `int(node)`, `hex`, the `0x` cut off, `zfill(2)`. */
  method ConvertNode(node: string) returns (r: Option<string>)
    ensures r == HexNode(node)
  {
    var n := ParseInt(node);
    if n.None? {
      return None;
    }
    var hexbyte := PyHex(n.value)[2..];
    r := Some(ZFill(hexbyte, 2));
  }

  // ---------------------------------------------------------------------
  // The IPv6 address text of IP-MIB and IPv6-MIB.
  // ---------------------------------------------------------------------

  /** `for i in range(0, len(h) - 1, 2)`: neighbouring items joined; an odd last item is dropped. */
  function Pairs(h: seq<string>): (r: seq<string>)
    ensures |r| == |h| / 2
    ensures forall i :: 0 <= i < |r| ==> 2 * i + 1 < |h| && r[i] == h[2 * i] + h[2 * i + 1]
  {
    seq(|h| / 2, i requires 0 <= i < |h| / 2 => h[2 * i] + h[2 * i + 1])
  }

  /** The stride-2 loop filling `nodes_final`. */
  method PairUp(h: seq<string>) returns (r: seq<string>)
    ensures |r| == |h| / 2
    ensures forall i :: 0 <= i < |r| ==> r[i] == h[2 * i] + h[2 * i + 1]
  {
    r := [];
    var at := 0;
    while at < |h| - 1
      invariant at == 2 * |r| && at <= |h|
      invariant forall i :: 0 <= i < |r| ==> r[i] == h[2 * i] + h[2 * i + 1]
    {
      r := r + [h[at] + h[at + 1]];
      at := at + 2;
    }
  }

  /** `':'.join(nodes_final)` from the last 16 sub-identifiers of the OID; None where `int()` raises. */
  function Ipv6Address(key: string): Option<string> {
    match HexNodes(LastN(Split(key, '.'), 16))
    case None => None
    case Some(h) => Some(Join(Pairs(h), ':'))
  }

  /** One walk item of the IPv6 ARP tables: the address and the MAC text. */
  function Ipv6Entry(key: string, value: seq<byte>): Option<(string, string)> {
    match Ipv6Address(key)
    case None => None
    case Some(a) => Some((a, Lower(Mac12(value))))
  }

  /** The conversion of one OID key to its IPv6 address text. */
  method AddressOf(key: string) returns (r: Option<string>)
    ensures r == Ipv6Address(key)
  {
    var nodes := Split(key, '.');
    var nodesDecimal := LastN(nodes, 16);
    var nodesHex := ConvertNodes(nodesDecimal);
    if nodesHex.None? {
      return None;
    }
    var nodesFinal := PairUp(nodesHex.value);
    assert nodesFinal == Pairs(nodesHex.value);
    r := Some(Join(nodesFinal, ':'));
  }

  /**
   * `ipnettophysicalphysaddress` of IP-MIB and `ipv6nettomediaphysaddress`
   * of IPv6-MIB: the dict of MAC texts by IPv6 address, or None where it raises.
   */
  method Ipv6Table(walk: Dict<seq<byte>>) returns (r: Option<Dict<string>>)
    ensures r == Rekey(walk, Ipv6Entry)
  {
    var dataDict: Dict<string> := [];
    var i := 0;
    while i < |walk|
      invariant 0 <= i <= |walk|
      invariant Rekey(walk[..i], Ipv6Entry) == Some(dataDict)
    {
      RekeyStep(walk, Ipv6Entry, i, dataDict);
      var (key, value) := walk[i];
      var macaddress := Mac12(value);
      var ipv6 := AddressOf(key);
      if ipv6.None? {
        RekeyRaise(walk, Ipv6Entry, i + 1);
        return None;
      }
      dataDict := Put(dataDict, ipv6.value, Lower(macaddress));
      i := i + 1;
    }
    assert walk[..i] == walk;
    r := Some(dataDict);
  }

  /**
   * The MAC text stored for an address is the one of the last walk item
   * with that address.
   */
  lemma Ipv6LastWins(walk: Dict<seq<byte>>, j: nat)
    requires Rekey(walk, Ipv6Entry).Some? && j < |walk|
    requires forall j' :: j < j' < |walk| ==> Ipv6Address(walk[j'].0) != Ipv6Address(walk[j].0)
    ensures Ipv6Address(walk[j].0).Some?
    ensures
      var d, a := Rekey(walk, Ipv6Entry).value, Ipv6Address(walk[j].0).value;
      Find(d, a).Some? && d[Find(d, a).value] == (a, Mac12(walk[j].1))
  {
    forall j' | j < j' < |walk| ensures KeyOf(Ipv6Entry, walk[j']) != KeyOf(Ipv6Entry, walk[j]) {
      Ipv6KeyOf(walk[j']);
      Ipv6KeyOf(walk[j]);
    }
    RekeyLastWins(walk, Ipv6Entry, j);
    Ipv6KeyOf(walk[j]);
    Mac12Lower(walk[j].1);
  }

  /** The new key of a walk item is its address. */
  lemma Ipv6KeyOf(e: (string, seq<byte>))
    ensures KeyOf(Ipv6Entry, e) == Ipv6Address(e.0)
  {
  }

  /**
   * Every item of the table is the address of some walk item and at most
   * 12 lowercase hexadecimal digits: the text of that item's first six bytes.
   */
  lemma Ipv6TableEntries(walk: Dict<seq<byte>>, i: nat) returns (j: nat)
    requires Rekey(walk, Ipv6Entry).Some? && i < |Rekey(walk, Ipv6Entry).value|
    ensures j < |walk| && Ipv6Address(walk[j].0).Some?
    ensures Rekey(walk, Ipv6Entry).value[i] == (Ipv6Address(walk[j].0).value, Mac12(walk[j].1))
    ensures |Mac12(walk[j].1)| <= 12 && AllHex(Mac12(walk[j].1))
  {
    j := RekeyListed(walk, Ipv6Entry, i);
    Mac12Facts(walk[j].1);
    Mac12Lower(walk[j].1);
  }

  /**
   * The address has one colon-separated group per pair of the last
   * m = min(16, #sub-identifiers) sub-identifiers, so m / 2 groups; an odd
   * last sub-identifier must still be an int but is dropped.
   */
  lemma Ipv6Groups(key: string)
    requires Ipv6Address(key).Some?
    ensures
      var nodes := LastN(Split(key, '.'), 16);
      var h := HexNodes(nodes).value;
      var groups := Split(Ipv6Address(key).value, ':');
      && |h| == |nodes|
      && (forall i :: 0 <= i < |nodes| ==> HexNode(nodes[i]) == Some(h[i]))
      && (|nodes| >= 2 ==>
           && |groups| == |nodes| / 2
           && forall i :: 0 <= i < |groups| ==> groups[i] == h[2 * i] + h[2 * i + 1])
  {
    var nodes := LastN(Split(key, '.'), 16);
    var h := HexNodes(nodes).value;
    var p := Pairs(h);
    assert Ipv6Address(key) == Some(Join(p, ':'));
    if |nodes| >= 2 {
      PairsSplit(nodes);
    }
  }

  lemma PairsSplit(nodes: seq<string>)
    requires HexNodes(nodes).Some? && |nodes| >= 2
    ensures Split(Join(Pairs(HexNodes(nodes).value), ':'), ':') == Pairs(HexNodes(nodes).value)
  {
    HexNodesFree(nodes);
    PairsFree(HexNodes(nodes).value);
    SplitJoin(Pairs(HexNodes(nodes).value), ':');
  }

  lemma ConcatFree(a: string, b: string, c: char)
    requires Free(a, c) && Free(b, c)
    ensures Free(a + b, c)
  {
    assert forall k :: |a| <= k < |a + b| ==> (a + b)[k] == b[k - |a|];
  }

  lemma HexNodesFree(nodes: seq<string>)
    requires HexNodes(nodes).Some?
    ensures forall i :: 0 <= i < |nodes| ==> Free(HexNodes(nodes).value[i], ':')
  {
    forall i | 0 <= i < |nodes| ensures Free(HexNodes(nodes).value[i], ':') {
      HexOfFree(ParseInt(nodes[i]).value);
    }
  }

  lemma PairsFree(h: seq<string>)
    requires forall i :: 0 <= i < |h| ==> Free(h[i], ':')
    ensures forall i :: 0 <= i < |h| / 2 ==> Free(Pairs(h)[i], ':')
  {
    forall i | 0 <= i < |h| / 2 ensures Free(Pairs(h)[i], ':') {
      ConcatFree(h[2 * i], h[2 * i + 1], ':');
    }
  }

  /** The decimal sub-identifiers of a sequence of bytes. */
  function Decimal(octets: seq<byte>): (r: seq<string>)
    ensures |r| == |octets|
  {
    seq(|octets|, i requires 0 <= i < |octets| => NatString(octets[i]))
  }

  /** The two-digit text of every byte. */
  function Singles(octets: seq<byte>): (r: seq<string>)
    ensures |r| == |octets|
  {
    seq(|octets|, i requires 0 <= i < |octets| => Hexlify([octets[i]]))
  }

  /** Sub-identifiers from 0 to 255 convert to the two-digit text of each byte. */
  lemma HexNodesBytes(octets: seq<byte>)
    ensures HexNodes(Decimal(octets)) == Some(Singles(octets))
  {
    var nodes, singles := Decimal(octets), Singles(octets);
    forall i | 0 <= i < |octets| ensures HexNode(nodes[i]) == Some(singles[i]) {
      HexNodeByte(octets[i]);
    }
    var r := MapAll(nodes, HexNode);
    assert r.Some?;
    assert forall i :: 0 <= i < |octets| ==> r.value[i] == singles[i];
    assert r.value == singles;
  }

  /** The last sub-identifiers of an OID whose tail is the decimal text of some bytes. */
  lemma TailNodes(prefix: seq<string>, octets: seq<byte>)
    requires forall k :: 0 <= k < |prefix| ==> Free(prefix[k], '.')
    requires |octets| >= 1
    ensures LastN(Split(Join(prefix + Decimal(octets), '.'), '.'), |octets|) == Decimal(octets)
  {
    var dec := Decimal(octets);
    forall k | 0 <= k < |dec| ensures Free(dec[k], '.') {
      DigitsFree(NatString(octets[k]));
    }
    var parts := prefix + dec;
    forall k | 0 <= k < |parts| ensures Free(parts[k], '.') {
      if k < |prefix| {
        assert parts[k] == prefix[k];
      } else {
        assert parts[k] == dec[k - |prefix|];
      }
    }
    SplitJoin(parts, '.');
    assert parts[|parts| - |octets|..] == dec;
  }

  /** Concatenation of texts. */
  function Concat(ss: seq<string>): string
    decreases |ss|
  {
    if |ss| == 0 then "" else ss[0] + Concat(ss[1..])
  }

  /** The full groups of four digits: the text of each pair of bytes. */
  function Quads(octets: seq<byte>): (r: seq<string>)
    requires |octets| % 2 == 0
    ensures |r| == |octets| / 2
  {
    seq(|octets| / 2, i requires 0 <= i < |octets| / 2 => Hexlify(octets[2 * i..2 * i + 2]))
  }

  lemma PairsSingles(octets: seq<byte>)
    requires |octets| % 2 == 0
    ensures Pairs(Singles(octets)) == Quads(octets)
  {
    var p, q := Pairs(Singles(octets)), Quads(octets);
    forall i | 0 <= i < |p| ensures p[i] == q[i] {
      PairsSinglesAt(octets, i);
    }
  }

  lemma PairsSinglesAt(octets: seq<byte>, i: nat)
    requires |octets| % 2 == 0 && i < |octets| / 2
    ensures i < |Pairs(Singles(octets))| && Pairs(Singles(octets))[i] == Quads(octets)[i]
  {
    var s := Singles(octets);
    var k := 2 * i;
    assert k + 1 < |octets| && Pairs(s)[i] == s[k] + s[k + 1];
    PairText(octets, k);
  }

  lemma PairText(octets: seq<byte>, k: nat)
    requires k + 1 < |octets|
    ensures Hexlify([octets[k]]) + Hexlify([octets[k + 1]]) == Hexlify(octets[k..k + 2])
  {
    HexlifyAppend([octets[k]], [octets[k + 1]]);
    assert [octets[k]] + [octets[k + 1]] == octets[k..k + 2];
  }

  lemma {:induction false} ConcatQuads(octets: seq<byte>)
    requires |octets| % 2 == 0
    ensures Concat(Quads(octets)) == Hexlify(octets)
    decreases |octets|
  {
    if |octets| > 0 {
      var q := Quads(octets);
      QuadsCons(octets);
      assert Concat(q) == q[0] + Concat(q[1..]);
      ConcatQuads(octets[2..]);
      HexlifyAppend(octets[..2], octets[2..]);
      assert octets[..2] + octets[2..] == octets;
    }
  }

  /** The first group is the text of the first two bytes; the rest are the groups of the other bytes. */
  lemma QuadsCons(octets: seq<byte>)
    requires |octets| % 2 == 0 && |octets| > 0
    ensures Quads(octets)[0] == Hexlify(octets[..2])
    ensures Quads(octets)[1..] == Quads(octets[2..])
  {
    var q, rest := Quads(octets), Quads(octets[2..]);
    assert octets[0..2] == octets[..2];
    forall i | 0 <= i < |rest| ensures q[1..][i] == rest[i] {
      assert octets[2..][2 * i..2 * i + 2] == octets[2 * i + 2..2 * i + 4];
    }
  }

  /** The bytes an IPv6 address text stands for, read back group by group. */
  function ParseIpv6(a: string): Option<seq<byte>> {
    var digits := Concat(Split(a, ':'));
    if |digits| % 2 == 0 && AllHex(digits) then Some(Unhexlify(digits)) else None
  }

  /** The address text of an OID ending in the decimal text of 16 bytes. */
  lemma Ipv6AddressOfBytes(prefix: seq<string>, octets: seq<byte>)
    requires forall k :: 0 <= k < |prefix| ==> Free(prefix[k], '.')
    requires |octets| == 16
    ensures Ipv6Address(Join(prefix + Decimal(octets), '.')) == Some(Join(Quads(octets), ':'))
  {
    Sixteen(octets);
    TailNodes(prefix, octets);
    HexNodesBytes(octets);
    PairsSingles(octets);
  }

  /** Each group is the four hexadecimal digits of two bytes. */
  lemma QuadAt(octets: seq<byte>, k: nat)
    requires |octets| % 2 == 0 && k < |octets| / 2
    ensures |Quads(octets)[k]| == 4 && AllHex(Quads(octets)[k]) && Free(Quads(octets)[k], ':')
  {
    assert 2 * k + 2 <= |octets|;
    var pair := octets[2 * k..2 * k + 2];
    assert |pair| == 2;
    assert Quads(octets)[k] == Hexlify(pair);
  }

  /** Groups of four digits joined by colons give their bytes back. */
  lemma QuadsRoundTrip(octets: seq<byte>)
    requires |octets| % 2 == 0 && |octets| >= 2
    ensures forall i :: 0 <= i < |octets| / 2 ==> |Quads(octets)[i]| == 4 && AllHex(Quads(octets)[i])
    ensures ParseIpv6(Join(Quads(octets), ':')) == Some(octets)
  {
    var q := Quads(octets);
    forall k | 0 <= k < |q| ensures |q[k]| == 4 && AllHex(q[k]) && Free(q[k], ':') {
      QuadAt(octets, k);
    }
    SplitJoin(q, ':');
    ConcatQuads(octets);
    HexlifyRoundTrip(octets);
  }

  /**
   * For an OID ending in 16 sub-identifiers from 0 to 255, the address is
   * eight groups of four lowercase hexadecimal digits joined by colons,
   * the preferred text form of section 2.2 of RFC 4291 without shortening,
   * and the 16 bytes can be read back from it.
   */
  lemma Ipv6RoundTrip(prefix: seq<string>, octets: seq<byte>)
    requires forall k :: 0 <= k < |prefix| ==> Free(prefix[k], '.')
    requires |octets| == 16
    ensures Ipv6Address(Join(prefix + Decimal(octets), '.')) == Some(Join(Quads(octets), ':'))
    ensures |Quads(octets)| == 8
    ensures forall i :: 0 <= i < 8 ==> |Quads(octets)[i]| == 4 && AllHex(Quads(octets)[i])
    ensures ParseIpv6(Join(Quads(octets), ':')) == Some(octets)
  {
    Sixteen(octets);
    Ipv6AddressOfBytes(prefix, octets);
    QuadsRoundTrip(octets);
  }

  lemma Sixteen(octets: seq<byte>)
    requires |octets| == 16
    ensures |octets| % 2 == 0 && |octets| / 2 == 8
  {
  }
}
