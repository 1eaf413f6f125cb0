/**
 * The CISCO-IETF-IP-MIB query (infoset.old/lib/getdata/snmp/mib_ciscoietfip.py):
 * the neighbour table `cInetNetToMediaPhysAddress` and `layer3`. Unlike the
 * IP-MIB and IPv6-MIB tables, the walk is visited in sorted key order and
 * the address text is one group of two hexadecimal digits per byte. The
 * walk is given as the items `swalk` returns, and `oid_exists` as a predicate.
 */
module MibCiscoIetfIp {
  import opened Wrappers
  import opened Strings
  import opened Sorting
  import opened Dicts
  import opened OidHex

  /** cInetNetToMediaPhysAddress. */
  const PhysAddressOid := ".1.3.6.1.4.1.9.10.86.1.1.3.1.3"
  const PhysAddressLabel := "cInetNetToMediaPhysAddress"

  /** `supported`: the MIB is supported exactly when its table's OID exists on the device. */
  method Supported(oidExists: string -> bool) returns (validity: bool)
    ensures validity <==> oidExists(PhysAddressOid)
  {
    validity := false;
    if oidExists(PhysAddressOid) {
      validity := true;
    }
  }

  /** `':'.join(ipv6hex)` from the last 16 sub-identifiers of the OID; None where `int()` raises. */
  function CiscoAddress(key: string): Option<string> {
    match HexNodes(LastN(Split(key, '.'), 16))
    case None => None
    case Some(h) => Some(Join(h, ':'))
  }

  /** One walk item: the address and the MAC text. */
  function CiscoEntry(key: string, value: seq<byte>): Option<(string, string)> {
    match CiscoAddress(key)
    case None => None
    case Some(a) => Some((a, Lower(Mac12(value))))
  }

  /** The table: the loop over `sorted(results.items())`; None where it raises. */
  function Table(walk: Dict<seq<byte>>): Option<Dict<string>> {
    Rekey(SortByKey(walk), CiscoEntry)
  }

  /** The conversion of one OID key to its address text. */
  method AddressOf(key: string) returns (r: Option<string>)
    ensures r == CiscoAddress(key)
  {
    var nodes := Split(key, '.');
    var ipv6decimal := LastN(nodes, 16);
    var ipv6hex := ConvertNodes(ipv6decimal);
    if ipv6hex.None? {
      return None;
    }
    r := Some(Join(ipv6hex.value, ':'));
  }

  /** `cinetnettomediaphysaddress`: the loop over the sorted walk of the table's OID. */
  method PhysAddressTable(walk: Dict<seq<byte>>) returns (r: Option<Dict<string>>)
    ensures r == Table(walk)
  {
    var items := SortByKey(walk);
    r := FillTable(items);
  }

  /** The body of the loop, over the items in the order given. */
  method FillTable(items: Dict<seq<byte>>) returns (r: Option<Dict<string>>)
    ensures r == Rekey(items, CiscoEntry)
  {
    var dataDict: Dict<string> := [];
    var i := 0;
    while i < |items|
      invariant 0 <= i <= |items|
      invariant Rekey(items[..i], CiscoEntry) == Some(dataDict)
    {
      RekeyStep(items, CiscoEntry, i, dataDict);
      var (key, value) := items[i];
      var macaddress := Mac12(value);
      var ipv6 := AddressOf(key);
      if ipv6.None? {
        RekeyRaise(items, CiscoEntry, i + 1);
        return None;
      }
      dataDict := Put(dataDict, ipv6.value, Lower(macaddress));
      i := i + 1;
    }
    assert items[..i] == items;
    r := Some(dataDict);
  }

  /** The new key of a walk item is its address. */
  lemma CiscoKeyOf(e: (string, seq<byte>))
    ensures KeyOf(CiscoEntry, e) == CiscoAddress(e.0)
  {
  }

  /**
   * Of the walk items sharing an address, the one with the greatest OID
   * text wins, whatever order the walk returned them in.
   */
  lemma GreatestKeyWins(walk: Dict<seq<byte>>, j: nat)
    requires DistinctKeys(walk) && Table(walk).Some? && j < |walk|
    requires forall j' :: 0 <= j' < |walk| && Less(walk[j].0, walk[j'].0) ==> CiscoAddress(walk[j'].0) != CiscoAddress(walk[j].0)
    ensures CiscoAddress(walk[j].0).Some?
    ensures
      var d, a := Table(walk).value, CiscoAddress(walk[j].0).value;
      Find(d, a).Some? && d[Find(d, a).value] == (a, Mac12(walk[j].1))
  {
    var sorted := SortByKey(walk);
    SortByKeyMembers(walk, walk[j]);
    var k :| 0 <= k < |sorted| && sorted[k] == walk[j];
    SortByKeyStrict(walk);
    forall k' | k < k' < |sorted| ensures KeyOf(CiscoEntry, sorted[k']) != KeyOf(CiscoEntry, sorted[k]) {
      SortByKeyMembers(walk, sorted[k']);
      var j' :| 0 <= j' < |walk| && walk[j'] == sorted[k'];
      assert Less(sorted[k].0, sorted[k'].0);
      CiscoKeyOf(sorted[k']);
      CiscoKeyOf(sorted[k]);
    }
    RekeyLastWins(sorted, CiscoEntry, k);
    CiscoKeyOf(sorted[k]);
    Mac12Lower(walk[j].1);
  }

  /** The two-digit texts of some bytes, run together, are the text of all of them. */
  lemma {:induction false} ConcatSingles(octets: seq<byte>)
    ensures Concat(Singles(octets)) == Hexlify(octets)
    decreases |octets|
  {
    if |octets| > 0 {
      ConcatSingles(octets[1..]);
      assert Singles(octets)[1..] == Singles(octets[1..]);
      HexlifyAppend([octets[0]], octets[1..]);
      assert [octets[0]] + octets[1..] == octets;
    }
  }

  /**
   * For an OID ending in 16 sub-identifiers from 0 to 255, the address is
   * 16 groups of two lowercase hexadecimal digits joined by colons, one per
   * byte, and the bytes can be read back from it.
   */
  lemma SixteenGroups(prefix: seq<string>, octets: seq<byte>)
    requires forall k :: 0 <= k < |prefix| ==> Free(prefix[k], '.')
    requires |octets| == 16
    ensures CiscoAddress(Join(prefix + Decimal(octets), '.')) == Some(Join(Singles(octets), ':'))
    ensures forall i :: 0 <= i < 16 ==> Singles(octets)[i] == Hexlify([octets[i]]) && |Singles(octets)[i]| == 2
    ensures ParseIpv6(Join(Singles(octets), ':')) == Some(octets)
  {
    TailNodes(prefix, octets);
    HexNodesBytes(octets);
    var s := Singles(octets);
    forall k | 0 <= k < 16 ensures Free(s[k], ':') {
      assert AllHex(s[k]);
    }
    SplitJoin(s, ':');
    ConcatSingles(octets);
    HexlifyRoundTrip(octets);
  }

  /**
   * The result of `layer3`: the table under its label, present only when the
   * table has an item; None where converting an address raises.
   */
  function Final(walk: Dict<seq<byte>>): Option<map<string, Dict<string>>> {
    match Table(walk)
    case None => None
    case Some(neighbours) => Some(Labelled(map[], PhysAddressLabel, neighbours))
  }

  /** `layer3`: the table copied item by item under its label. */
  method Layer3(walk: Dict<seq<byte>>) returns (final: Option<map<string, Dict<string>>>)
    ensures final == Final(walk)
  {
    var out: map<string, Dict<string>> := map[];
    var values := PhysAddressTable(walk);
    if values.None? {
      return None;
    }
    var copy := Copy(values.value);
    RekeyDistinct(SortByKey(walk), CiscoEntry);
    RekeyCopy(values.value);
    if |copy| > 0 {
      out := out[PhysAddressLabel := copy];
    }
    final := Some(out);
  }

  /** The table raises exactly when converting some key's address raises. */
  lemma TableOk(walk: Dict<seq<byte>>)
    ensures Table(walk).Some? <==> forall j :: 0 <= j < |walk| ==> CiscoAddress(walk[j].0).Some?
  {
    var sorted := SortByKey(walk);
    RekeyOk(sorted, CiscoEntry);
    if forall j :: 0 <= j < |walk| ==> CiscoAddress(walk[j].0).Some? {
      forall k | 0 <= k < |sorted| ensures Apply(CiscoEntry, sorted[k]).Some? {
        SortByKeyMembers(walk, sorted[k]);
        var j :| 0 <= j < |walk| && walk[j] == sorted[k];
        assert CiscoAddress(walk[j].0).Some?;
      }
    }
    if Table(walk).Some? {
      forall j | 0 <= j < |walk| ensures CiscoAddress(walk[j].0).Some? {
        SortByKeyMembers(walk, walk[j]);
        var k :| 0 <= k < |sorted| && sorted[k] == walk[j];
        assert Apply(CiscoEntry, sorted[k]).Some?;
      }
    }
  }

  /**
   * `layer3` raises exactly when some key has a last-16 sub-identifier that
   * is not an int; otherwise the label is present exactly when the walk has
   * an item, and holds the table unchanged.
   */
  lemma FinalTable(walk: Dict<seq<byte>>)
    ensures Final(walk).Some? <==> forall j :: 0 <= j < |walk| ==> CiscoAddress(walk[j].0).Some?
    ensures Final(walk).Some? ==>
      var f := Final(walk).value;
      && f.Keys <= {PhysAddressLabel}
      && (PhysAddressLabel in f <==> |walk| > 0)
      && (PhysAddressLabel in f ==> Table(walk) == Some(f[PhysAddressLabel]))
  {
    TableOk(walk);
    if Table(walk).Some? {
      RekeyEmpty(SortByKey(walk), CiscoEntry);
    }
  }
}
