/**
 * The IPv6-MIB query (infoset/snmp/mib_ipv6.py): the neighbour table
 * `ipv6NetToMediaPhysAddress` and `layer3`, which files it under that name.
 * The table is converted exactly as IP-MIB's `ipNetToPhysicalPhysAddress`
 * (`OidHex.Ipv6Table`); the walk is given as the items `swalk` returns.
 */
module MibIpv6 {
  import opened Wrappers
  import opened Dicts
  import opened OidHex

  const PhysAddressLabel := "ipv6NetToMediaPhysAddress"

  /**
   * The result of `layer3`: the table under its label, present only when the
   * table has an item; None where converting an address raises.
   */
  function Final(walk: Dict<seq<byte>>): Option<map<string, Dict<string>>> {
    match Rekey(walk, Ipv6Entry)
    case None => None
    case Some(neighbours) => Some(Labelled(map[], PhysAddressLabel, neighbours))
  }

  /** `layer3`: the table copied item by item under its label. */
  method Layer3(walk: Dict<seq<byte>>) returns (final: Option<map<string, Dict<string>>>)
    ensures final == Final(walk)
  {
    var out: map<string, Dict<string>> := map[];
    var values := Ipv6Table(walk);
    if values.None? {
      return None;
    }
    var copy := Copy(values.value);
    RekeyDistinct(walk, Ipv6Entry);
    RekeyCopy(values.value);
    if |copy| > 0 {
      out := out[PhysAddressLabel := copy];
    }
    final := Some(out);
  }

  /**
   * `layer3` raises exactly when some key has a last-16 sub-identifier that
   * is not an int; otherwise the label is present exactly when the walk has
   * an item, and holds the table unchanged.
   */
  lemma FinalTable(walk: Dict<seq<byte>>)
    ensures Final(walk).Some? <==> forall j :: 0 <= j < |walk| ==> Ipv6Address(walk[j].0).Some?
    ensures Final(walk).Some? ==>
      var f := Final(walk).value;
      && f.Keys <= {PhysAddressLabel}
      && (PhysAddressLabel in f <==> |walk| > 0)
      && (PhysAddressLabel in f ==> Rekey(walk, Ipv6Entry) == Some(f[PhysAddressLabel]))
  {
    RekeyOk(walk, Ipv6Entry);
    assert forall j :: 0 <= j < |walk| ==> (Apply(Ipv6Entry, walk[j]).Some? <==> Ipv6Address(walk[j].0).Some?);
    if Rekey(walk, Ipv6Entry).Some? {
      RekeyEmpty(walk, Ipv6Entry);
    }
  }
}
