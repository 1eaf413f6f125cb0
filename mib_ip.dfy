/**
 * The IP-MIB query (infoset/snmp/mib_ip.py): the IPv4 ARP table
 * `ipNetToMediaTable`, the IPv6 neighbour table `ipNetToPhysicalPhysAddress`,
 * and `layer3`, which files both under their own names. The SNMP walks are
 * given as their results: the items of the dicts `walk` and `swalk` return,
 * keyed by the full OID text.
 */
module MibIp {
  import opened Wrappers
  import opened Strings
  import opened Dicts
  import opened OidHex

  const MediaLabel := "ipNetToMediaTable"
  const PhysicalLabel := "ipNetToPhysicalPhysAddress"

  /** IP-MIB is supported by every device. */
  function Supported(): (validity: bool)
    ensures validity
  {
    true
  }

  // ---------------------------------------------------------------------
  // ipnettomediatable
  // ---------------------------------------------------------------------

  /** `'.'.join(key.split('.')[-4:])`: the last four sub-identifiers of the OID. */
  function Ipv4Address(key: string): string {
    Join(LastN(Split(key, '.'), 4), '.')
  }

  /** One walk item of the IPv4 ARP table: the address and the MAC text; it never raises. */
  function Ipv4Entry(key: string, value: seq<byte>): Option<(string, string)> {
    Some((Ipv4Address(key), Mac(value)))
  }

  /** The ARP table: MAC texts keyed by IPv4 address, the later walk item winning. */
  function ArpTable(walk: Dict<seq<byte>>): (r: Dict<string>)
    ensures Rekey(walk, Ipv4Entry) == Some(r)
  {
    RekeyOk(walk, Ipv4Entry);
    Rekey(walk, Ipv4Entry).value
  }

  /** `ipnettomediatable`: the loop over the walk of `.1.3.6.1.2.1.4.22.1.2`. */
  method IpNetToMediaTable(walk: Dict<seq<byte>>) returns (dataDict: Dict<string>)
    ensures Rekey(walk, Ipv4Entry) == Some(dataDict)
  {
    dataDict := [];
    var i := 0;
    while i < |walk|
      invariant 0 <= i <= |walk|
      invariant Rekey(walk[..i], Ipv4Entry) == Some(dataDict)
    {
      RekeyStep(walk, Ipv4Entry, i, dataDict);
      var (key, value) := walk[i];
      var nodes := Split(key, '.');
      var octets := LastN(nodes, 4);
      var ipaddress := Join(octets, '.');
      var macaddress := Hexlify(value);
      dataDict := Put(dataDict, ipaddress, Lower(macaddress));
      i := i + 1;
    }
    assert walk[..i] == walk;
  }

  /** The address of an OID whose last four sub-identifiers are `octets` is those four, dotted. */
  lemma Ipv4AddressOf(prefix: seq<string>, octets: seq<string>)
    requires |octets| == 4
    requires forall k :: 0 <= k < |prefix| ==> Free(prefix[k], '.')
    requires forall k :: 0 <= k < 4 ==> Free(octets[k], '.')
    ensures Ipv4Address(Join(prefix + octets, '.')) == Join(octets, '.')
  {
    var parts := prefix + octets;
    forall k | 0 <= k < |parts| ensures Free(parts[k], '.') {
      if k < |prefix| {
        assert parts[k] == prefix[k];
      } else {
        assert parts[k] == octets[k - |prefix|];
      }
    }
    SplitJoin(parts, '.');
    assert parts[|parts| - 4..] == octets;
  }

  /** The four numbers of a dotted address text, or None where one is not an int. */
  function ParseIpv4(a: string): Option<seq<int>> {
    MapAll(Split(a, '.'), ParseInt)
  }

  /** Decimal sub-identifiers give their numbers back through `int()`. */
  lemma DecimalParse(octets: seq<byte>)
    ensures MapAll(Decimal(octets), ParseInt) == Some(octets)
  {
    var dec := Decimal(octets);
    forall k | 0 <= k < |octets| ensures ParseInt(dec[k]) == Some(octets[k] as int) {
      NatStringParse(octets[k]);
    }
    var r := MapAll(dec, ParseInt);
    assert r.Some?;
    assert forall k :: 0 <= k < |octets| ==> r.value[k] == octets[k];
    assert r.value == octets;
  }

  /**
   * For an OID ending in the decimal text of four bytes, the address is
   * those four numbers dotted, and they can be read back from it.
   */
  lemma Ipv4RoundTrip(prefix: seq<string>, octets: seq<byte>)
    requires |octets| == 4
    requires forall k :: 0 <= k < |prefix| ==> Free(prefix[k], '.')
    ensures Ipv4Address(Join(prefix + Decimal(octets), '.')) == Join(Decimal(octets), '.')
    ensures ParseIpv4(Join(Decimal(octets), '.')) == Some(octets)
  {
    var dec := Decimal(octets);
    forall k | 0 <= k < 4 ensures Free(dec[k], '.') {
      DigitsFree(NatString(octets[k]));
    }
    Ipv4AddressOf(prefix, dec);
    SplitJoin(dec, '.');
    DecimalParse(octets);
  }

  /**
   * The MAC text stored for an address is the one of the last walk item
   * with that address.
   */
  lemma ArpLastWins(walk: Dict<seq<byte>>, j: nat)
    requires j < |walk|
    requires forall j' :: j < j' < |walk| ==> Ipv4Address(walk[j'].0) != Ipv4Address(walk[j].0)
    ensures
      var d, a := ArpTable(walk), Ipv4Address(walk[j].0);
      Find(d, a).Some? && d[Find(d, a).value] == (a, Mac(walk[j].1))
  {
    var d := ArpTable(walk);
    RekeyLastWins(walk, Ipv4Entry, j);
  }

  /**
   * Every item of the ARP table is the address of some walk item and the
   * hexadecimal text of that item's value, two lowercase digits per byte.
   */
  lemma ArpEntries(walk: Dict<seq<byte>>, i: nat) returns (j: nat)
    requires i < |ArpTable(walk)|
    ensures j < |walk|
    ensures ArpTable(walk)[i] == (Ipv4Address(walk[j].0), Mac(walk[j].1))
    ensures |ArpTable(walk)[i].1| == 2 * |walk[j].1| && AllHex(ArpTable(walk)[i].1)
  {
    j := RekeyListed(walk, Ipv4Entry, i);
    MacFacts(walk[j].1);
  }

  // ---------------------------------------------------------------------
  // layer3
  // ---------------------------------------------------------------------

  /**
   * The result of `layer3`: each table under its own label, a label being
   * present only when its table has an item; None where the IPv6 table raises.
   */
  function Final(media: Dict<seq<byte>>, physical: Dict<seq<byte>>): Option<map<string, Dict<string>>> {
    match Rekey(physical, Ipv6Entry)
    case None => None
    case Some(neighbours) =>
      Some(Labelled(Labelled(map[], MediaLabel, ArpTable(media)), PhysicalLabel, neighbours))
  }

  /** `layer3`: both tables, each copied item by item under its label. */
  method Layer3(media: Dict<seq<byte>>, physical: Dict<seq<byte>>) returns (final: Option<map<string, Dict<string>>>)
    ensures final == Final(media, physical)
  {
    var out: map<string, Dict<string>> := map[];
    var values := IpNetToMediaTable(media);
    var copy := Copy(values);
    RekeyDistinct(media, Ipv4Entry);
    RekeyCopy(values);
    if |copy| > 0 {
      out := out[MediaLabel := copy];
    }
    var neighbours := Ipv6Table(physical);
    if neighbours.None? {
      return None;
    }
    copy := Copy(neighbours.value);
    RekeyDistinct(physical, Ipv6Entry);
    RekeyCopy(neighbours.value);
    if |copy| > 0 {
      out := out[PhysicalLabel := copy];
    }
    final := Some(out);
  }

  /**
   * `layer3` raises only where the IPv6 table does; otherwise each label is
   * present exactly when its walk has an item, and holds that table unchanged.
   */
  lemma FinalTables(media: Dict<seq<byte>>, physical: Dict<seq<byte>>)
    ensures Final(media, physical).Some? <==> Rekey(physical, Ipv6Entry).Some?
    ensures Final(media, physical).Some? ==>
      var f := Final(media, physical).value;
      && f.Keys <= {MediaLabel, PhysicalLabel}
      && (MediaLabel in f <==> |media| > 0)
      && (MediaLabel in f ==> f[MediaLabel] == ArpTable(media))
      && (PhysicalLabel in f <==> |physical| > 0)
      && (PhysicalLabel in f ==> Rekey(physical, Ipv6Entry) == Some(f[PhysicalLabel]))
  {
    var arp := ArpTable(media);
    RekeyEmpty(media, Ipv4Entry);
    if Rekey(physical, Ipv6Entry).Some? {
      RekeyEmpty(physical, Ipv6Entry);
    }
  }
}
