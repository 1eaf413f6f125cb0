/**
 * The SNMP translator (lib/getdata/files/xlate_snmp.py): once a device's
 * YAML file is loaded, every Ethernet port of its `layer1` section gets the
 * vendor-agnostic attributes `jm_vlan`, `jm_trunk` and `jm_duplex`, and the
 * ports are kept by ifIndex. The loaded YAML is a `Json` value whose keys
 * are texts; every operation answers None exactly where Python raises.
 */
module Xlate {
  import opened Wrappers
  import opened Strings
  import opened Sorting
  import opened Json
  import opened Dicts

  // ---------------------------------------------------------------------
  // Lookups in a loaded dict.
  // ---------------------------------------------------------------------

  /** `key in fields and fields[key] == n`. */
  predicate Equals(fields: seq<(string, Json)>, key: string, n: int) {
    var v := Lookup(fields, key);
    v.Some? && PyEqInt(v.value, n)
  }

  /** `s.startswith(p)`. */
  predicate StartsWith(s: string, p: string) {
    |p| <= |s| && s[..|p|] == p
  }

  lemma {:induction false} LookupAppend(f: seq<(string, Json)>, e: (string, Json), key: string)
    requires e.0 != key
    ensures Lookup(f + [e], key) == Lookup(f, key)
    decreases |f|
  {
    if |f| > 0 {
      assert (f + [e])[1..] == f[1..] + [e];
      LookupAppend(f[1..], e, key);
    }
  }

  lemma {:induction false} LookupSame(f: seq<(string, Json)>, g: seq<(string, Json)>, key: string)
    requires |f| == |g|
    requires forall i :: 0 <= i < |f| ==> f[i].0 == g[i].0 && (f[i].0 == key ==> f[i].1 == g[i].1)
    ensures Lookup(f, key) == Lookup(g, key)
    decreases |f|
  {
    if |f| > 0 {
      LookupSame(f[1..], g[1..], key);
    }
  }

  lemma {:induction false} LookupAt(f: seq<(string, Json)>, i: nat)
    requires DistinctKeys(f) && i < |f|
    ensures Lookup(f, f[i].0) == Some(f[i].1)
    decreases |f|
  {
    if i > 0 {
      assert DistinctKeys(f[1..]);
      LookupAt(f[1..], i - 1);
    }
  }

  /**
   * `d[k] = v` leaves what every other key finds, and, the keys of a dict
   * being distinct, `k` then finds `v`.
   */
  lemma LookupPut(f: seq<(string, Json)>, k: string, v: Json, key: string)
    ensures key != k ==> Lookup(Put(f, k, v), key) == Lookup(f, key)
    ensures DistinctKeys(f) ==> Lookup(Put(f, k, v), k) == Some(v)
  {
    var g := Put(f, k, v);
    if key != k {
      match Find(f, k)
      case Some(i) =>
        LookupSame(f, g, key);
      case None =>
        LookupAppend(f, (k, v), key);
    }
    if DistinctKeys(f) {
      PutFacts(f, k, v);
      LookupAt(g, Find(g, k).value);
    }
  }

  // ---------------------------------------------------------------------
  // _is_ethernet
  // ---------------------------------------------------------------------

  /** `metadata['ifName']` when it is a str, the only values `.lower()` accepts. */
  function NameOf(fields: seq<(string, Json)>): Option<string> {
    match Lookup(fields, "ifName")
    case Some(JString(name)) => Some(name)
    case _ => None
  }

  /** `_is_ethernet(metadata)`. */
  function IsEthernet(metadata: Json): Option<bool> {
    match PyIn("ifType", metadata)
    case None => None
    case Some(present) =>
      if !present then Some(false)
      else
        match PyGet(metadata, "ifName")
        case Some(JString(name)) =>
          (match PyGet(metadata, "ifType")
           case None => None
           case Some(ifType) => Some(PyEqInt(ifType, 6) && !StartsWith(Lower(name), "vl")))
        case _ => None
  }

  /**
   * A port is Ethernet exactly when its ifType is 6 and its lowercased
   * ifName does not start with "vl"; the test raises exactly when the port
   * has an ifType but no str ifName.
   */
  lemma EthernetIff(fields: seq<(string, Json)>)
    ensures IsEthernet(JObject(fields)) == Some(true) <==>
      Equals(fields, "ifType", 6) && NameOf(fields).Some? && !StartsWith(Lower(NameOf(fields).value), "vl")
    ensures IsEthernet(JObject(fields)).None? <==> HasKey(fields, "ifType") && NameOf(fields).None?
  {
  }

  /** Only a dict can be an Ethernet port. */
  lemma EthernetObject(metadata: Json)
    requires IsEthernet(metadata) == Some(true)
    ensures metadata.JObject?
  {
  }

  /** An uppercase "VL" name is excluded too: the test is on the lowercased name. */
  lemma VlanInterfaceExcluded()
    ensures IsEthernet(JObject([("ifType", JInt(6)), ("ifName", JString("Vl10"))])) == Some(false)
  {
    var fields := [("ifType", JInt(6)), ("ifName", JString("Vl10"))];
    assert Lookup(fields, "ifName") == Some(JString("Vl10"));
    assert Lookup(fields, "ifType") == Some(JInt(6));
    assert HasKey(fields, "ifType");
    assert Lower("Vl10")[..2] == "vl";
  }

  // ---------------------------------------------------------------------
  // _vlan and _trunk
  // ---------------------------------------------------------------------

  /** `metadata['layer1'][ifindex]`. */
  function PortOf(yaml: Json, ifindex: string): Option<Json> {
    match PyGet(yaml, "layer1")
    case None => None
    case Some(layer1) => PyGet(layer1, ifindex)
  }

  /** The Cisco part of `_vlan`: `[int(port['vmVlan'])]`, or None (Python's) without that key. */
  function CiscoVlan(port: Json): Option<Json> {
    match PyIn("vmVlan", port)
    case None => None
    case Some(present) =>
      if !present then Some(JNull)
      else
        match PyGet(port, "vmVlan")
        case None => None
        case Some(v) =>
          match PyInt(v)
          case None => None
          case Some(n) => Some(JArray([JInt(n)]))
  }

  /** `_vlan(metadata, ifindex)`; `JNull` is Python's None. */
  function Vlan(yaml: Json, ifindex: string): Option<Json> {
    match PortOf(yaml, ifindex)
    case None => None
    case Some(port) =>
      match CiscoVlan(port)
      case None => None
      case Some(vlans) =>
        match PyIn("jnxExVlanTag", port)
        case None => None
        case Some(present) =>
          if !present then Some(vlans)
          else
            match PyGet(port, "jnxExVlanTag")
            case None => None
            case Some(tags) => Some(if Truthy(tags) then tags else vlans)
  }

  /** The port has a non-empty (truthy) Juniper jnxExVlanTag. */
  predicate JuniperTagged(fields: seq<(string, Json)>) {
    var tags := Lookup(fields, "jnxExVlanTag");
    tags.Some? && Truthy(tags.value)
  }

  /**
   * `_vlan` raises exactly when vmVlan is present but not an int; otherwise
   * non-empty Juniper tags win, then `[vmVlan]`, and None without either.
   */
  lemma VlanCases(yaml: Json, ifindex: string, fields: seq<(string, Json)>)
    requires PortOf(yaml, ifindex) == Some(JObject(fields))
    ensures Vlan(yaml, ifindex).None? <==> HasKey(fields, "vmVlan") && PyInt(Lookup(fields, "vmVlan").value).None?
    ensures Vlan(yaml, ifindex).Some? && JuniperTagged(fields) ==> Vlan(yaml, ifindex) == Lookup(fields, "jnxExVlanTag")
    ensures Vlan(yaml, ifindex).Some? && !JuniperTagged(fields) && HasKey(fields, "vmVlan") ==>
      Vlan(yaml, ifindex) == Some(JArray([JInt(PyInt(Lookup(fields, "vmVlan").value).value)]))
    ensures !JuniperTagged(fields) && !HasKey(fields, "vmVlan") ==> Vlan(yaml, ifindex) == Some(JNull)
  {
  }

  /** `key in port and port[key] == n`; None where it raises. */
  function Flag(port: Json, key: string, n: int): Option<bool> {
    match PyIn(key, port)
    case None => None
    case Some(present) =>
      if !present then Some(false)
      else
        match PyGet(port, key)
        case None => None
        case Some(v) => Some(PyEqInt(v, n))
  }

  /** `_trunk(metadata, ifindex)`. */
  function Trunk(yaml: Json, ifindex: string): Option<bool> {
    match PortOf(yaml, ifindex)
    case None => None
    case Some(port) =>
      match (Flag(port, "vlanTrunkPortDynamicStatus", 1), Flag(port, "jnxExVlanPortAccessMode", 2))
      case (Some(cisco), Some(juniper)) => Some(cisco || juniper)
      case _ => None
  }

  /** A port is a trunk exactly when its Cisco dynamic status is 1 or its Juniper access mode is 2. */
  lemma TrunkIff(yaml: Json, ifindex: string, fields: seq<(string, Json)>)
    requires PortOf(yaml, ifindex) == Some(JObject(fields))
    ensures Trunk(yaml, ifindex) == Some(Equals(fields, "vlanTrunkPortDynamicStatus", 1) || Equals(fields, "jnxExVlanPortAccessMode", 2))
  {
  }

  // ---------------------------------------------------------------------
  // _duplex
  // ---------------------------------------------------------------------

  const SwPort := "swPortDuplexStatus"
  const Dot3 := "dot3StatsDuplexStatus"
  const PortDuplex := "portDuplex"
  const Linkbeat := "c2900PortLinkbeatStatus"
  const C2900Duplex := "c2900PortDuplexStatus"

  /**
   * `_duplex(metadata)`: 0 unknown, 1 half, 2 full, 3 half (autonegotiated),
   * 4 full (autonegotiated), from the first of the four vendor sources present.
   */
  function Duplex(metadata: seq<(string, Json)>): (r: Option<int>)
    ensures r.Some? ==> 0 <= r.value <= 4
  {
    match Lookup(metadata, SwPort)
    case Some(v) => Some(if PyEqInt(v, 1) then 2 else 1)
    case None =>
      match Lookup(metadata, Dot3)
      case Some(v) => Some(if PyEqInt(v, 2) then 1 else if PyEqInt(v, 3) then 2 else 0)
      case None =>
        match Lookup(metadata, PortDuplex)
        case Some(v) => Some(if PyEqInt(v, 1) then 1 else if PyEqInt(v, 2) then 2 else 0)
        case None =>
          match Lookup(metadata, Linkbeat)
          case None => Some(0)
          case Some(link) =>
            match Lookup(metadata, C2900Duplex)
            case None => None
            case Some(status) =>
              if PyEqInt(link, 3) then
                Some(if PyEqInt(status, 1) then 2 else if PyEqInt(status, 2) then 1 else 0)
              else
                Some(if PyEqInt(status, 1) then 4 else if PyEqInt(status, 2) then 3 else 0)
  }

  /** swPortDuplexStatus, where present, decides alone: 2 when it is 1, otherwise 1. */
  lemma DuplexPrecedence(fields: seq<(string, Json)>, other: seq<(string, Json)>)
    requires HasKey(fields, SwPort) && Lookup(other, SwPort) == Lookup(fields, SwPort)
    ensures Duplex(fields) == Duplex(other)
    ensures Duplex(fields) == Some(if Equals(fields, SwPort, 1) then 2 else 1)
  {
  }

  /** The source `_duplex` reads: the first of the four keys present. */
  predicate FromDot3(fields: seq<(string, Json)>) {
    !HasKey(fields, SwPort) && HasKey(fields, Dot3)
  }

  predicate FromPortDuplex(fields: seq<(string, Json)>) {
    !HasKey(fields, SwPort) && !HasKey(fields, Dot3) && HasKey(fields, PortDuplex)
  }

  predicate FromC2900(fields: seq<(string, Json)>) {
    !HasKey(fields, SwPort) && !HasKey(fields, Dot3) && !HasKey(fields, PortDuplex) && HasKey(fields, Linkbeat)
  }

  /**
   * Which ports report each duplex code: dot3StatsDuplexStatus 2 and 3 are
   * half and full (section 7.1 of RFC 3635), portDuplex 1 and 2 likewise,
   * and the c2900 status 1 and 2 are full and half, autonegotiated unless
   * the linkbeat status is 3; `_duplex` raises exactly when the c2900
   * linkbeat status has no duplex status beside it.
   */
  lemma DuplexCodes(fields: seq<(string, Json)>)
    ensures Duplex(fields) == Some(1) <==>
      || (HasKey(fields, SwPort) && !Equals(fields, SwPort, 1))
      || (FromDot3(fields) && Equals(fields, Dot3, 2))
      || (FromPortDuplex(fields) && Equals(fields, PortDuplex, 1))
      || (FromC2900(fields) && Equals(fields, Linkbeat, 3) && Equals(fields, C2900Duplex, 2))
    ensures Duplex(fields) == Some(2) <==>
      || (HasKey(fields, SwPort) && Equals(fields, SwPort, 1))
      || (FromDot3(fields) && Equals(fields, Dot3, 3))
      || (FromPortDuplex(fields) && Equals(fields, PortDuplex, 2))
      || (FromC2900(fields) && Equals(fields, Linkbeat, 3) && Equals(fields, C2900Duplex, 1))
    ensures Duplex(fields) == Some(3) <==>
      FromC2900(fields) && !Equals(fields, Linkbeat, 3) && Equals(fields, C2900Duplex, 2)
    ensures Duplex(fields) == Some(4) <==>
      FromC2900(fields) && !Equals(fields, Linkbeat, 3) && Equals(fields, C2900Duplex, 1)
    ensures Duplex(fields).None? <==> FromC2900(fields) && !HasKey(fields, C2900Duplex)
  {
  }

  // ---------------------------------------------------------------------
  // The port loop of Translator.__init__
  // ---------------------------------------------------------------------

  /** `yaml_data['system']['IF-MIB'][lower]`: the ifStackStatus entry of a port. */
  function StackOf(yaml: Json, lower: string): Option<Json> {
    match PyGet(yaml, "system")
    case None => None
    case Some(system) =>
      match PyGet(system, "IF-MIB")
      case None => None
      case Some(ifMib) => PyGet(ifMib, lower)
  }

  /**
   * The ifStackHigherLayer chosen for port `lower`: the first key of its
   * stack entry, or the port itself where that key is "0" (nothing stacked
   * on it, section 6 of RFC 2863). An empty entry runs no iteration of the
   * `for ... break` loop, so the layer chosen for an earlier port stays
   * bound, and without one the name is unbound and Python raises.
   */
  function Higher(yaml: Json, lower: string, previous: Option<string>): (r: Option<string>)
    ensures r.Some? ==>
      || r.value == lower
      || r == previous
      || (StackOf(yaml, lower).Some? && StackOf(yaml, lower).value.JObject? && HasKey(StackOf(yaml, lower).value.fields, r.value))
  {
    match StackOf(yaml, lower)
    case Some(JObject(layers)) =>
      if |layers| == 0 then previous
      else if layers[0].0 == "0" then Some(lower)
      else Some(layers[0].0)
    case _ => None
  }

  const JmVlan := "jm_vlan"
  const JmTrunk := "jm_trunk"
  const JmDuplex := "jm_duplex"

  /** The port's dict after the three `metadata['jm_...'] = ...` stores; None where `_duplex` raises. */
  function Annotated(fields: seq<(string, Json)>, vlan: Json, trunk: bool): Option<seq<(string, Json)>> {
    var withVlan := Put(fields, JmVlan, vlan);
    var withTrunk := Put(withVlan, JmTrunk, JBool(trunk));
    match Duplex(withTrunk)
    case None => None
    case Some(duplex) => Some(Put(withTrunk, JmDuplex, JInt(duplex)))
  }

  /** The `_duplex` sources are none of the added keys. */
  lemma DuplexKeys(fields: seq<(string, Json)>, k: string, v: Json)
    requires k in {JmVlan, JmTrunk, JmDuplex}
    ensures Duplex(Put(fields, k, v)) == Duplex(fields)
  {
    var g := Put(fields, k, v);
    LookupPut(fields, k, v, SwPort);
    LookupPut(fields, k, v, Dot3);
    LookupPut(fields, k, v, PortDuplex);
    LookupPut(fields, k, v, Linkbeat);
    LookupPut(fields, k, v, C2900Duplex);
    DuplexReads(g, fields);
  }

  /** `_duplex` reads nothing of a port but its five keys. */
  lemma DuplexReads(f: seq<(string, Json)>, g: seq<(string, Json)>)
    requires Lookup(f, SwPort) == Lookup(g, SwPort) && Lookup(f, Dot3) == Lookup(g, Dot3)
    requires Lookup(f, PortDuplex) == Lookup(g, PortDuplex) && Lookup(f, Linkbeat) == Lookup(g, Linkbeat)
    requires Lookup(f, C2900Duplex) == Lookup(g, C2900Duplex)
    ensures Duplex(f) == Duplex(g)
  {
  }

  /**
   * What the loop stores for a port: its own dict with `jm_vlan` and
   * `jm_trunk` taken from layer `higher`, `jm_duplex` the duplex code of
   * the dict as read from the file, and every other key as it was.
   */
  ghost predicate Annotates(yaml: Json, port: Json, metadata: Json, higher: string) {
    && metadata.JObject? && port.JObject?
    && Vlan(yaml, higher).Some? && Trunk(yaml, higher).Some? && Duplex(metadata.fields).Some?
    && Lookup(port.fields, JmVlan) == Some(Vlan(yaml, higher).value)
    && Lookup(port.fields, JmTrunk) == Some(JBool(Trunk(yaml, higher).value))
    && Lookup(port.fields, JmDuplex) == Some(JInt(Duplex(metadata.fields).value))
    && forall key :: key !in {JmVlan, JmTrunk, JmDuplex} ==> Lookup(port.fields, key) == Lookup(metadata.fields, key)
  }

  /** The three stores keep the rest of the dict and hold the computed attributes. */
  lemma AnnotatedFacts(yaml: Json, fields: seq<(string, Json)>, higher: string)
    requires DistinctKeys(fields) && Vlan(yaml, higher).Some? && Trunk(yaml, higher).Some?
    ensures Annotated(fields, Vlan(yaml, higher).value, Trunk(yaml, higher).value).Some? <==> Duplex(fields).Some?
    ensures Duplex(fields).Some? ==>
      Annotates(yaml, JObject(Annotated(fields, Vlan(yaml, higher).value, Trunk(yaml, higher).value).value), JObject(fields), higher)
  {
    var vlan, trunk := Vlan(yaml, higher).value, Trunk(yaml, higher).value;
    var f1 := Put(fields, JmVlan, vlan);
    var f2 := Put(f1, JmTrunk, JBool(trunk));
    DuplexKeys(fields, JmVlan, vlan);
    DuplexKeys(f1, JmTrunk, JBool(trunk));
    PutFacts(fields, JmVlan, vlan);
    PutFacts(f1, JmTrunk, JBool(trunk));
    if Duplex(fields).Some? {
      var d := Duplex(fields).value;
      var f3 := Put(f2, JmDuplex, JInt(d));
      LookupPut(fields, JmVlan, vlan, JmVlan);
      LookupPut(f1, JmTrunk, JBool(trunk), JmVlan);
      LookupPut(f2, JmDuplex, JInt(d), JmVlan);
      LookupPut(f1, JmTrunk, JBool(trunk), JmTrunk);
      LookupPut(f2, JmDuplex, JInt(d), JmTrunk);
      LookupPut(f2, JmDuplex, JInt(d), JmDuplex);
      forall key | key !in {JmVlan, JmTrunk, JmDuplex} ensures Lookup(f3, key) == Lookup(fields, key) {
        LookupPut(fields, JmVlan, vlan, key);
        LookupPut(f1, JmTrunk, JBool(trunk), key);
        LookupPut(f2, JmDuplex, JInt(d), key);
      }
    }
  }

  /** The state of the loop: the ports stored so far and the last higher layer bound. */
  datatype Loop = Loop(ports: map<int, Json>, higher: Option<string>)

  /** `int(ifindex) in ifindices` where the ports are restricted; None where `int()` raises. */
  function Selected(ifindex: string, ifindices: Option<set<int>>): Option<bool> {
    match ifindices
    case None => Some(true)
    case Some(wanted) =>
      match ParseInt(ifindex)
      case None => None
      case Some(n) => Some(n in wanted)
  }

  /** The ports the loop processes: selected by `ifindices` and Ethernet. */
  predicate Chosen(item: (string, Json), ifindices: Option<set<int>>) {
    Selected(item.0, ifindices) == Some(true) && IsEthernet(item.1) == Some(true)
  }

  /**
   * The dict stored for a port whose chosen higher layer is `higher`: its
   * own dict with the three attributes added; None where one of them raises.
   */
  function Port(yaml: Json, higher: string, metadata: Json): Option<Json> {
    match (Vlan(yaml, higher), Trunk(yaml, higher), metadata)
    case (Some(vlan), Some(trunk), JObject(fields)) =>
      (match Annotated(fields, vlan, trunk)
       case None => None
       case Some(port) => Some(JObject(port)))
    case _ => None
  }

  /** The body of the loop for an Ethernet port: `self.ports[int(ifindex)] = metadata`. */
  function StorePort(yaml: Json, ifindex: string, metadata: Json, st: Loop): Option<Loop> {
    match Higher(yaml, ifindex, st.higher)
    case None => None
    case Some(higher) =>
      match (Port(yaml, higher, metadata), ParseInt(ifindex))
      case (Some(port), Some(n)) => Some(Loop(st.ports[n := port], Some(higher)))
      case _ => None
  }

  /** One iteration of the loop over `yaml_data['layer1'].items()`. */
  function Step(yaml: Json, ifindices: Option<set<int>>, st: Loop, item: (string, Json)): Option<Loop> {
    match Selected(item.0, ifindices)
    case None => None
    case Some(selected) =>
      if !selected then Some(st)
      else
        match IsEthernet(item.1)
        case None => None
        case Some(ethernet) =>
          if !ethernet then Some(st)
          else StorePort(yaml, item.0, item.1, st)
  }

  /** The loop over the first items, with `body` as its body; None where an iteration raises. */
  function Fold(body: (Loop, (string, Json)) -> Option<Loop>, items: seq<(string, Json)>): Option<Loop>
    decreases |items|
  {
    if |items| == 0 then Some(Loop(map[], None))
    else
      match Fold(body, items[..|items| - 1])
      case None => None
      case Some(st) => body(st, items[|items| - 1])
  }

  /** The body of the loop of `__init__`. */
  function Body(yaml: Json, ifindices: Option<set<int>>): (Loop, (string, Json)) -> Option<Loop> {
    (st: Loop, item: (string, Json)) => Step(yaml, ifindices, st, item)
  }

  /** The loop over the first items of `layer1`; None where it raises. */
  function Ports(yaml: Json, ifindices: Option<set<int>>, items: seq<(string, Json)>): Option<Loop> {
    Fold(Body(yaml, ifindices), items)
  }

  /** `self.ports` and `self.system` once `__init__` has run; None where it raises. */
  function Translation(yaml: Json, ifindices: Option<set<int>>): Option<(map<int, Json>, Json)> {
    match PyGet(yaml, "layer1")
    case Some(JObject(layer1)) =>
      (match Ports(yaml, ifindices, layer1)
       case None => None
       case Some(st) =>
         match PyGet(yaml, "system")
         case None => None
         case Some(system) => Some((st.ports, system)))
    case _ => None
  }

  /** Once a prefix of the items raises, the whole loop raises. */
  lemma {:induction false} FoldRaise(body: (Loop, (string, Json)) -> Option<Loop>, items: seq<(string, Json)>, k: nat)
    requires k <= |items| && Fold(body, items[..k]).None?
    ensures Fold(body, items).None?
    decreases |items| - k
  {
    if k < |items| {
      assert items[..k + 1][..k] == items[..k];
      FoldRaise(body, items, k + 1);
    } else {
      assert items[..k] == items;
    }
  }

  /** When the loop completes, so does every prefix of it. */
  lemma {:induction false} FoldPrefix(body: (Loop, (string, Json)) -> Option<Loop>, items: seq<(string, Json)>, k: nat)
    requires k <= |items| && Fold(body, items).Some?
    ensures Fold(body, items[..k]).Some?
    decreases |items|
  {
    if k < |items| {
      var front := items[..|items| - 1];
      assert front[..k] == items[..k];
      FoldPrefix(body, front, k);
    } else {
      assert items[..k] == items;
    }
  }

  /**
   * Each iteration of `body` changes the ports only at `writes(item)`,
   * and stores something there.
   */
  ghost predicate WritesOnly(body: (Loop, (string, Json)) -> Option<Loop>, writes: ((string, Json)) -> Option<int>) {
    forall st: Loop, item: (string, Json) :: body(st, item).Some? ==>
      var next := body(st, item).value;
      && (writes(item).None? ==> next.ports == st.ports)
      && (writes(item).Some? ==>
            writes(item).value in next.ports && next.ports == st.ports[writes(item).value := next.ports[writes(item).value]])
  }

  /** Every key an iteration writes stays in the ports. */
  lemma {:induction false} FoldListed(body: (Loop, (string, Json)) -> Option<Loop>, writes: ((string, Json)) -> Option<int>, items: seq<(string, Json)>, j: nat)
    requires WritesOnly(body, writes) && Fold(body, items).Some?
    requires j < |items| && writes(items[j]).Some?
    ensures writes(items[j]).value in Fold(body, items).value.ports
    decreases |items|
  {
    var front := items[..|items| - 1];
    var st := Fold(body, front).value;
    var next := body(st, items[|items| - 1]);
    if j < |items| - 1 {
      assert front[j] == items[j];
      FoldListed(body, writes, front, j);
    }
  }

  /**
   * The entry of a key in the ports is the one stored by the last iteration
   * that writes that key.
   */
  lemma {:induction false} FoldSource(body: (Loop, (string, Json)) -> Option<Loop>, writes: ((string, Json)) -> Option<int>, items: seq<(string, Json)>, n: int)
    returns (j: nat)
    requires WritesOnly(body, writes) && Fold(body, items).Some?
    requires n in Fold(body, items).value.ports
    ensures j < |items| && writes(items[j]) == Some(n)
    ensures Fold(body, items[..j + 1]).Some? && n in Fold(body, items[..j + 1]).value.ports
    ensures Fold(body, items).value.ports[n] == Fold(body, items[..j + 1]).value.ports[n]
    ensures forall j' :: j < j' < |items| ==> writes(items[j']) != Some(n)
    decreases |items|
  {
    var front := items[..|items| - 1];
    var st := Fold(body, front).value;
    var next := body(st, items[|items| - 1]);
    if writes(items[|items| - 1]) == Some(n) {
      j := |items| - 1;
      assert items[..j + 1] == items;
    } else {
      j := FoldSource(body, writes, front, n);
      assert front[..j + 1] == items[..j + 1];
      forall j' | j < j' < |items| - 1 ensures writes(items[j']) != Some(n) {
        assert front[j'] == items[j'];
      }
    }
  }

  /** What `__init__` writes for an item: the ifIndex of a chosen port. */
  function Writes(ifindices: Option<set<int>>): ((string, Json)) -> Option<int> {
    (item: (string, Json)) => if Chosen(item, ifindices) then ParseInt(item.0) else None
  }

  /** An iteration skips every item but a chosen port, which it stores. */
  lemma StepChoice(yaml: Json, ifindices: Option<set<int>>, st: Loop, item: (string, Json))
    requires Step(yaml, ifindices, st, item).Some?
    ensures !Chosen(item, ifindices) ==> Step(yaml, ifindices, st, item) == Some(st)
    ensures Chosen(item, ifindices) ==> Step(yaml, ifindices, st, item) == StorePort(yaml, item.0, item.1, st)
  {
  }

  /** Storing a port writes `Port` under `int(ifindex)` and nothing else. */
  lemma StoreKeys(yaml: Json, ifindex: string, metadata: Json, st: Loop)
    requires StorePort(yaml, ifindex, metadata, st).Some?
    ensures var next := StorePort(yaml, ifindex, metadata, st).value;
      && ParseInt(ifindex).Some? && next.higher.Some?
      && Port(yaml, next.higher.value, metadata).Some?
      && next.ports == st.ports[ParseInt(ifindex).value := Port(yaml, next.higher.value, metadata).value]
  {
  }

  /** One iteration stores the chosen port, under `int(ifindex)`, and nothing else. */
  lemma StepKeys(yaml: Json, ifindices: Option<set<int>>, st: Loop, item: (string, Json))
    requires Step(yaml, ifindices, st, item).Some?
    ensures var next := Step(yaml, ifindices, st, item).value;
      && (!Chosen(item, ifindices) ==> next.ports == st.ports)
      && (Chosen(item, ifindices) ==>
           && ParseInt(item.0).Some? && next.higher.Some?
           && Port(yaml, next.higher.value, item.1).Some?
           && next.ports == st.ports[ParseInt(item.0).value := Port(yaml, next.higher.value, item.1).value])
  {
    StepChoice(yaml, ifindices, st, item);
    if Chosen(item, ifindices) {
      StoreKeys(yaml, item.0, item.1, st);
    }
  }

  /** The stored dict is the port's own with its attributes taken from layer `higher`. */
  lemma PortAnnotates(yaml: Json, higher: string, metadata: Json)
    requires Port(yaml, higher, metadata).Some?
    requires metadata.JObject? && DistinctKeys(metadata.fields)
    ensures Annotates(yaml, Port(yaml, higher, metadata).value, metadata, higher)
  {
    AnnotatedFacts(yaml, metadata.fields, higher);
  }

  /** The loop body of `__init__` writes only the ifIndex of the port it chooses. */
  lemma BodyWritesOnly(yaml: Json, ifindices: Option<set<int>>)
    ensures WritesOnly(Body(yaml, ifindices), Writes(ifindices))
  {
    forall st: Loop, item: (string, Json) | Step(yaml, ifindices, st, item).Some? {
      StepKeys(yaml, ifindices, st, item);
    }
  }

  /**
   * Every stored port comes from the last chosen item with that ifIndex:
   * an Ethernet port, within `ifindices` when they are given, stored as
   * `Port` makes it for some higher layer.
   */
  lemma PortSource(yaml: Json, ifindices: Option<set<int>>, items: seq<(string, Json)>, n: int)
    returns (j: nat, higher: string)
    requires Ports(yaml, ifindices, items).Some?
    requires n in Ports(yaml, ifindices, items).value.ports
    ensures j < |items| && Chosen(items[j], ifindices) && ParseInt(items[j].0) == Some(n)
    ensures ifindices.Some? ==> n in ifindices.value
    ensures Port(yaml, higher, items[j].1) == Some(Ports(yaml, ifindices, items).value.ports[n])
    ensures forall j' :: j < j' < |items| && Chosen(items[j'], ifindices) ==> ParseInt(items[j'].0) != Some(n)
  {
    var body, writes := Body(yaml, ifindices), Writes(ifindices);
    BodyWritesOnly(yaml, ifindices);
    j := FoldSource(body, writes, items, n);
    FoldLast(body, items, j);
    higher := StepSource(yaml, ifindices, Fold(body, items[..j]).value, items[j], n);
    forall j' | j < j' < |items| && Chosen(items[j'], ifindices) ensures ParseInt(items[j'].0) != Some(n) {
      assert writes(items[j']) != Some(n);
    }
  }

  /** The iteration at `j` goes on from the state the items before it left. */
  lemma FoldLast(body: (Loop, (string, Json)) -> Option<Loop>, items: seq<(string, Json)>, j: nat)
    requires j < |items| && Fold(body, items[..j + 1]).Some?
    ensures Fold(body, items[..j]).Some?
    ensures Fold(body, items[..j + 1]) == body(Fold(body, items[..j]).value, items[j])
  {
    var prefix := items[..j + 1];
    assert prefix[..j] == items[..j] && prefix[j] == items[j];
  }

  /** An iteration that writes `n` stores there the port of a chosen item, for some higher layer. */
  lemma StepSource(yaml: Json, ifindices: Option<set<int>>, st: Loop, item: (string, Json), n: int)
    returns (higher: string)
    requires Step(yaml, ifindices, st, item).Some? && Writes(ifindices)(item) == Some(n)
    ensures Chosen(item, ifindices) && ParseInt(item.0) == Some(n)
    ensures ifindices.Some? ==> n in ifindices.value
    ensures
      var next := Step(yaml, ifindices, st, item).value;
      n in next.ports && Port(yaml, higher, item.1) == Some(next.ports[n])
  {
    StepKeys(yaml, ifindices, st, item);
    higher := Step(yaml, ifindices, st, item).value.higher.value;
  }

  /** Every chosen item's ifIndex is a key of the ports. */
  lemma PortListed(yaml: Json, ifindices: Option<set<int>>, items: seq<(string, Json)>, j: nat)
    requires Ports(yaml, ifindices, items).Some?
    requires j < |items| && Chosen(items[j], ifindices)
    ensures ParseInt(items[j].0).Some? && ParseInt(items[j].0).value in Ports(yaml, ifindices, items).value.ports
  {
    var body := Body(yaml, ifindices);
    FoldPrefix(body, items, j + 1);
    var prefix := items[..j + 1];
    assert prefix[..j] == items[..j] && prefix[j] == items[j];
    StepKeys(yaml, ifindices, Fold(body, items[..j]).value, items[j]);
    BodyWritesOnly(yaml, ifindices);
    FoldListed(body, Writes(ifindices), items, j);
  }

  /** The body of the loop of `__init__`, on the ports stored so far and the layer last bound. */
  method Visit(yaml: Json, ifindices: Option<set<int>>, st: Loop, item: (string, Json)) returns (next: Option<Loop>)
    ensures next == Step(yaml, ifindices, st, item)
  {
    var (ifindex, metadata) := item;
    var selected := Selected(ifindex, ifindices);
    if selected.None? {
      return None;
    }
    if !selected.value {
      return Some(st);
    }
    var ethernet := IsEthernet(metadata);
    if ethernet.None? {
      return None;
    }
    if !ethernet.value {
      return Some(st);
    }
    next := Store(yaml, ifindex, metadata, st);
  }

  /** The store of an Ethernet port: its attributes added, under `int(ifindex)`. */
  method Store(yaml: Json, ifindex: string, metadata: Json, st: Loop) returns (next: Option<Loop>)
    ensures next == StorePort(yaml, ifindex, metadata, st)
  {
    var higher := Higher(yaml, ifindex, st.higher);
    if higher.None? {
      return None;
    }
    var port := Annotate(yaml, higher.value, metadata);
    var n := ParseInt(ifindex);
    if port.None? || n.None? {
      return None;
    }
    next := Some(Loop(st.ports[n.value := port.value], higher));
  }

  /** `metadata['jm_vlan']`, `['jm_trunk']` and `['jm_duplex']` set from layer `higher`. */
  method Annotate(yaml: Json, higher: string, metadata: Json) returns (port: Option<Json>)
    ensures port == Port(yaml, higher, metadata)
  {
    var vlan := Vlan(yaml, higher);
    var trunk := Trunk(yaml, higher);
    if vlan.None? || trunk.None? || !metadata.JObject? {
      return None;
    }
    var fields := metadata.fields;
    fields := Put(fields, JmVlan, vlan.value);
    fields := Put(fields, JmTrunk, JBool(trunk.value));
    var duplex := Duplex(fields);
    if duplex.None? {
      return None;
    }
    fields := Put(fields, JmDuplex, JInt(duplex.value));
    port := Some(JObject(fields));
  }

  /**
   * `Translator(config, host, ifindices)` once the YAML is loaded:
   * `new Translator()` then `Init`, which answers false where `__init__`
   * raises.
   */
  class Translator {
    var ports: map<int, Json>
    var system: Json

    constructor ()
      ensures ports == map[] && system == JNull
    {
      ports := map[];
      system := JNull;
    }

    /** The loop over the `layer1` ports, then `self.system = yaml_data['system']`. */
    method Init(yaml: Json, ifindices: Option<set<int>>) returns (ok: bool)
      modifies this
      ensures ok <==> Translation(yaml, ifindices).Some?
      ensures ok ==> (ports, system) == Translation(yaml, ifindices).value
    {
      ports := map[];
      var layer1 := PyGet(yaml, "layer1");
      if layer1.None? || !layer1.value.JObject? {
        return false;
      }
      var items := layer1.value.fields;
      var higher: Option<string> := None;
      var i := 0;
      while i < |items|
        invariant 0 <= i <= |items|
        invariant Ports(yaml, ifindices, items[..i]) == Some(Loop(ports, higher))
      {
        assert items[..i + 1][..i] == items[..i];
        var next := Visit(yaml, ifindices, Loop(ports, higher), items[i]);
        if next.None? {
          FoldRaise(Body(yaml, ifindices), items, i + 1);
          return false;
        }
        ports, higher := next.value.ports, next.value.higher;
        i := i + 1;
      }
      assert items[..i] == items;
      var sys := PyGet(yaml, "system");
      if sys.None? {
        return false;
      }
      system := sys.value;
      ok := true;
    }

    /** `ethernet_data`. */
    function EthernetData(): map<int, Json>
      reads this
    {
      ports
    }

    /** `system_summary`: the instance "0" of every SNMPv2-MIB object. */
    method SystemSummary() returns (r: Option<Dict<Json>>)
      ensures r == Summary(system)
    {
      var v2mib := PyGet(system, "SNMPv2-MIB");
      if v2mib.None? || !v2mib.value.JObject? {
        return None;
      }
      var items := v2mib.value.fields;
      var dataDict: Dict<Json> := [];
      var i := 0;
      while i < |items|
        invariant 0 <= i <= |items|
        invariant Rekey(items[..i], SummaryEntry) == Some(dataDict)
      {
        RekeyStep(items, SummaryEntry, i, dataDict);
        var (key, value) := items[i];
        var instance := PyGet(value, "0");
        if instance.None? {
          RekeyRaise(items, SummaryEntry, i + 1);
          return None;
        }
        dataDict := Put(dataDict, key, instance.value);
        i := i + 1;
      }
      assert items[..i] == items;
      r := Some(dataDict);
    }
  }

  // ---------------------------------------------------------------------
  // system_summary
  // ---------------------------------------------------------------------

  /** `data_dict[key] = v2mib[key]['0']` for one object. */
  function SummaryEntry(key: string, value: Json): Option<(string, Json)> {
    match PyGet(value, "0")
    case None => None
    case Some(instance) => Some((key, instance))
  }

  /** The summary of `self.system`; None where it raises. */
  function Summary(system: Json): Option<Dict<Json>> {
    match PyGet(system, "SNMPv2-MIB")
    case Some(JObject(v2mib)) => Rekey(v2mib, SummaryEntry)
    case _ => None
  }

  /**
   * The summary raises exactly when some SNMPv2-MIB object has no instance
   * "0"; otherwise it holds each object's instance "0" under the object's
   * name, in the file's order.
   */
  lemma SummaryValues(system: Json, v2mib: seq<(string, Json)>)
    requires PyGet(system, "SNMPv2-MIB") == Some(JObject(v2mib)) && DistinctKeys(v2mib)
    ensures Summary(system).Some? <==> forall i :: 0 <= i < |v2mib| ==> PyGet(v2mib[i].1, "0").Some?
    ensures Summary(system).Some? ==>
      && |Summary(system).value| == |v2mib|
      && forall i :: 0 <= i < |v2mib| ==>
           Summary(system).value[i].0 == v2mib[i].0 && PyGet(v2mib[i].1, "0") == Some(Summary(system).value[i].1)
  {
    RekeyOk(v2mib, SummaryEntry);
    assert forall i :: 0 <= i < |v2mib| ==> (Apply(SummaryEntry, v2mib[i]).Some? <==> PyGet(v2mib[i].1, "0").Some?);
    if Summary(system).Some? {
      RekeyKeepsKeys(v2mib, SummaryEntry);
    }
  }
}
