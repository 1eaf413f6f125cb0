/**
 * Structural validation of one spooled snapshot (`_validated` in
 * infoset/cache/cache.py). The answer is Some(true) or Some(false) where the
 * source returns True or False, and None where it raises.
 */
module Validation {
  import opened Wrappers
  import opened Strings
  import opened Json
  import opened Sorting

  const MetaKeys: seq<string> := ["timestamp", "uid", "agent", "hostname"]
  const DataTypes: seq<string> := ["chartable", "other"]
  const GroupKeys: seq<string> := ["base_type", "description", "data"]

  /** Two checks folded into the `valid` flag; a raise in either is a raise. */
  function Conj(a: Option<bool>, b: Option<bool>): Option<bool> {
    if a.None? || b.None? then None else Some(a.value && b.value)
  }

  /** A sequence of checks folded, left to right, into the flag. */
  function All(checks: seq<Option<bool>>): Option<bool>
    decreases |checks|
  {
    if |checks| == 0 then Some(true)
    else Conj(All(checks[..|checks| - 1]), checks[|checks| - 1])
  }

  lemma AllSnoc(checks: seq<Option<bool>>, k: nat)
    requires k < |checks|
    ensures All(checks[..k + 1]) == Conj(All(checks[..k]), checks[k])
  {
    assert checks[..k + 1][..k] == checks[..k];
  }

  /** The fold raises iff one check raises, and holds iff every check holds. */
  lemma {:induction false} AllMeaning(checks: seq<Option<bool>>)
    ensures All(checks).None? <==> exists i :: 0 <= i < |checks| && checks[i].None?
    ensures All(checks) == Some(true) <==> forall i :: 0 <= i < |checks| ==> checks[i] == Some(true)
    decreases |checks|
  {
    if |checks| > 0 {
      var n := |checks| - 1;
      AllMeaning(checks[..n]);
      assert forall i :: 0 <= i < n ==> checks[..n][i] == checks[i];
    }
  }

  /** One check that raises makes the fold raise. */
  lemma AllRaises(checks: seq<Option<bool>>, k: nat)
    requires k < |checks| && checks[k].None?
    ensures All(checks).None?
  {
    AllMeaning(checks);
  }

  /** The check of one record of the series `series`: its len() and, for a series labelled 'chartable', float() of its value. */
  function RecordCheck(series: string, datapoint: Json): Option<bool> {
    match PyLen(datapoint)
    case None => None
    case Some(n) =>
      if series == "chartable" then
        match PyItem(datapoint, 1)
        case None => None
        case Some(value) => Some(n == 3 && PyFloatable(value))
      else Some(n == 3)
  }

  function RecordChecks(series: string, datapoints: seq<Json>): seq<Option<bool>> {
    seq(|datapoints|, i requires 0 <= i < |datapoints| => RecordCheck(series, datapoints[i]))
  }

  function KeyChecks(keys: seq<string>, container: Json): seq<Option<bool>> {
    seq(|keys|, i requires 0 <= i < |keys| => PyIn(keys[i], container))
  }

  /** The check of one series: its keys, then `group['data']`, then the records. */
  function GroupCheck(series: string, group: Json): Option<bool> {
    var keys := All(KeyChecks(GroupKeys, group));
    if keys.None? then None
    else
      match PyGet(group, "data")
      case None => None
      case Some(data) =>
        match PyIter(data)
        case None => None
        case Some(datapoints) => Conj(keys, All(RecordChecks(series, datapoints)))
  }

  function GroupChecks(groups: seq<(string, Json)>): seq<Option<bool>> {
    seq(|groups|, i requires 0 <= i < |groups| => GroupCheck(groups[i].0, groups[i].1))
  }

  /** The check of one of 'chartable' and 'other': present or not, then its sorted series. */
  function TypeCheck(information: Json, dataType: string): Option<bool> {
    match PyIn(dataType, information)
    case None => None
    case Some(present) =>
      if !present then Some(true)
      else
        match PyGet(information, dataType)
        case Some(JObject(groups)) => All(GroupChecks(SortByKey(groups)))
        case _ => None
  }

  function TypeChecks(information: Json): seq<Option<bool>> {
    seq(|DataTypes|, i requires 0 <= i < |DataTypes| => TypeCheck(information, DataTypes[i]))
  }

  /** `int(information['timestamp'])` succeeds (its failures are caught). */
  predicate TimestampOk(information: Json) {
    var t := PyGet(information, "timestamp");
    t.Some? && PyInt(t.value).Some?
  }

  /** What `_validated(information, filename)` returns, or None where it raises. */
  function Validated(information: Json): Option<bool> {
    var meta := All(KeyChecks(MetaKeys, information));
    if meta.None? then None
    // information['agent'] on a list or str raises
    else if meta.value && !information.JObject? then None
    else
      var types := All(TypeChecks(information));
      if types.None? then None
      else Some(meta.value && TimestampOk(information) && types.value)
  }

  // ---------------------------------------------------------------------
  // What a valid snapshot is, stated without the fold.
  // ---------------------------------------------------------------------

  predicate RecordWellFormed(series: string, datapoint: Json) {
    PyLen(datapoint) == Some(3)
    && (series == "chartable" ==> PyItem(datapoint, 1).Some? && PyFloatable(PyItem(datapoint, 1).value))
  }

  predicate GroupWellFormed(series: string, group: Json) {
    && group.JObject?
    && (forall k :: k in GroupKeys ==> HasKey(group.fields, k))
    && match Lookup(group.fields, "data")
       case None => false
       case Some(data) =>
         PyIter(data).Some?
         && forall i :: 0 <= i < |PyIter(data).value| ==> RecordWellFormed(series, PyIter(data).value[i])
  }

  predicate TypeWellFormed(information: Json, dataType: string)
    requires information.JObject?
  {
    HasKey(information.fields, dataType) ==>
      var groups := Lookup(information.fields, dataType).value;
      groups.JObject?
      && forall i :: 0 <= i < |groups.fields| ==> GroupWellFormed(groups.fields[i].0, groups.fields[i].1)
  }

  predicate WellFormed(information: Json) {
    && information.JObject?
    && (forall k :: k in MetaKeys ==> HasKey(information.fields, k))
    && TimestampOk(information)
    && (forall t :: t in DataTypes ==> TypeWellFormed(information, t))
  }

  lemma RecordCheckTrue(series: string, datapoint: Json)
    ensures RecordCheck(series, datapoint) == Some(true) <==> RecordWellFormed(series, datapoint)
  {
  }

  lemma GroupCheckTrue(series: string, group: Json)
    ensures GroupCheck(series, group) == Some(true) <==> GroupWellFormed(series, group)
  {
    var keys := KeyChecks(GroupKeys, group);
    AllMeaning(keys);
    if group.JObject? {
      if forall k :: k in GroupKeys ==> HasKey(group.fields, k) {
        forall i | 0 <= i < |keys| ensures keys[i] == Some(true) {
          assert GroupKeys[i] in GroupKeys;
        }
        assert All(keys) == Some(true);
        assert HasKey(group.fields, GroupKeys[2]);
        var data := Lookup(group.fields, "data").value;
        assert PyGet(group, "data") == Some(data);
        if PyIter(data).Some? {
          var dps := PyIter(data).value;
          var records := RecordChecks(series, dps);
          AllMeaning(records);
          forall i | 0 <= i < |dps| ensures records[i] == Some(true) <==> RecordWellFormed(series, dps[i]) {
            RecordCheckTrue(series, dps[i]);
          }
          assert GroupCheck(series, group) == Conj(Some(true), All(records));
        }
      } else {
        var k :| k in GroupKeys && !HasKey(group.fields, k);
        var i :| 0 <= i < |GroupKeys| && GroupKeys[i] == k;
        assert keys[i] == Some(false);
        assert All(keys) != Some(true);
      }
    } else if group.JArray? || group.JString? {
      assert PyGet(group, "data").None?;
    }
  }

  /** The check of one series, read off the list it sits in. */
  lemma GroupCheckAt(groups: seq<(string, Json)>, j: nat)
    requires j < |groups|
    ensures GroupChecks(groups)[j] == Some(true) <==> GroupWellFormed(groups[j].0, groups[j].1)
  {
    GroupCheckTrue(groups[j].0, groups[j].1);
  }

  lemma GroupsTrue(groups: seq<(string, Json)>)
    ensures All(GroupChecks(groups)) == Some(true)
        <==> forall i :: 0 <= i < |groups| ==> GroupWellFormed(groups[i].0, groups[i].1)
  {
    var checks := GroupChecks(groups);
    AllMeaning(checks);
    forall j | 0 <= j < |groups| ensures checks[j] == Some(true) <==> GroupWellFormed(groups[j].0, groups[j].1) {
      GroupCheckAt(groups, j);
    }
  }

  /** Sorting the series does not change whether they all pass. */
  lemma GroupsAllTrue(groups: seq<(string, Json)>)
    ensures All(GroupChecks(SortByKey(groups))) == Some(true)
        <==> forall i :: 0 <= i < |groups| ==> GroupWellFormed(groups[i].0, groups[i].1)
  {
    var sorted := SortByKey(groups);
    GroupsTrue(sorted);
    if forall i :: 0 <= i < |groups| ==> GroupWellFormed(groups[i].0, groups[i].1) {
      forall j | 0 <= j < |sorted| ensures GroupWellFormed(sorted[j].0, sorted[j].1) {
        SortByKeyMembers(groups, sorted[j]);
      }
    }
    if forall j :: 0 <= j < |sorted| ==> GroupWellFormed(sorted[j].0, sorted[j].1) {
      forall i | 0 <= i < |groups| ensures GroupWellFormed(groups[i].0, groups[i].1) {
        SortByKeyMembers(groups, groups[i]);
      }
    }
  }

  lemma TypeCheckTrue(information: Json, dataType: string)
    requires information.JObject?
    ensures TypeCheck(information, dataType) == Some(true) <==> TypeWellFormed(information, dataType)
  {
    if HasKey(information.fields, dataType) {
      var groups := Lookup(information.fields, dataType).value;
      if groups.JObject? {
        GroupsAllTrue(groups.fields);
      }
    }
  }

  /** Over an object, the key loop holds iff every key is present. */
  lemma KeysTrue(keys: seq<string>, container: Json)
    requires container.JObject?
    ensures All(KeyChecks(keys, container)) == Some(true)
        <==> forall k :: k in keys ==> HasKey(container.fields, k)
  {
    var checks := KeyChecks(keys, container);
    AllMeaning(checks);
    if forall k :: k in keys ==> HasKey(container.fields, k) {
      forall i | 0 <= i < |keys| ensures checks[i] == Some(true) {
        assert keys[i] in keys;
      }
    } else {
      var k :| k in keys && !HasKey(container.fields, k);
      var i :| 0 <= i < |keys| && keys[i] == k;
      assert checks[i] == Some(false);
    }
  }

  lemma TypesTrue(information: Json)
    requires information.JObject?
    ensures All(TypeChecks(information)) == Some(true)
        <==> forall t :: t in DataTypes ==> TypeWellFormed(information, t)
  {
    var checks := TypeChecks(information);
    assert forall t :: t in DataTypes <==> t == "chartable" || t == "other";
    assert checks == [TypeCheck(information, "chartable"), TypeCheck(information, "other")];
    assert All(checks) == Conj(Conj(Some(true), checks[0]), checks[1]) by {
      AllSnoc(checks, 0);
      AllSnoc(checks, 1);
      assert checks[..0] == [] && checks[..2] == checks;
    }
    TypeCheckTrue(information, "chartable");
    TypeCheckTrue(information, "other");
  }

  /**
   * A snapshot passes `_validated` exactly when it is an object holding
   * timestamp, uid, agent and hostname, its timestamp converts with int(),
   * and each group present under 'chartable' or 'other' is an object with
   * base_type, description and an iterable data whose records all have
   * length 3, the one numeric test applying to the series LABELLED
   * 'chartable' (not to the 'chartable' group).
   */
  lemma ValidatedIff(information: Json)
    ensures Validated(information) == Some(true) <==> WellFormed(information)
  {
    var meta := KeyChecks(MetaKeys, information);
    AllMeaning(meta);
    if information.JObject? {
      KeysTrue(MetaKeys, information);
      TypesTrue(information);
    }
  }

  /**
   * A series object without 'data', under 'chartable' or 'other', is not
   * reported invalid: `for datapoint in group['data']` raises, whatever the
   * other series and the rest of the snapshot hold.
   */
  lemma MissingDataRaises(information: Json, dataType: string, groups: seq<(string, Json)>, series: string, group: Json)
    requires information.JObject? && dataType in DataTypes
    requires Lookup(information.fields, dataType) == Some(JObject(groups))
    requires (series, group) in groups
    requires group.JObject? && !HasKey(group.fields, "data")
    ensures Validated(information) == None
  {
    var sorted := SortByKey(groups);
    SortByKeyMembers(groups, (series, group));
    var j :| 0 <= j < |sorted| && sorted[j] == (series, group);
    assert GroupCheck(series, group) == None by {
      AllMeaning(KeyChecks(GroupKeys, group));
    }
    AllRaises(GroupChecks(sorted), j);
    var t := if dataType == DataTypes[0] then 0 else 1;
    var checks := TypeChecks(information);
    assert checks[t] == None;
    AllRaises(checks, t);
    AllMeaning(KeyChecks(MetaKeys, information));
  }

  /** An object missing one of timestamp, uid, agent or hostname never validates. */
  lemma MissingMetaKeyNotValid(information: Json, key: string)
    requires information.JObject? && key in MetaKeys && !HasKey(information.fields, key)
    ensures Validated(information) != Some(true)
  {
    ValidatedIff(information);
  }

  // ---------------------------------------------------------------------
  // The loops of `_validated`, proved to compute Validated.
  // ---------------------------------------------------------------------

  /** The `for key in ...: if key not in container: valid = False` loops. */
  method CheckKeys(keys: seq<string>, container: Json) returns (r: Option<bool>)
    ensures r == All(KeyChecks(keys, container))
  {
    var checks := KeyChecks(keys, container);
    var valid := true;
    var k := 0;
    while k < |keys|
      invariant 0 <= k <= |keys|
      invariant All(checks[..k]) == Some(valid)
    {
      var inside := PyIn(keys[k], container);
      AllSnoc(checks, k);
      if inside.None? {
        AllMeaning(checks);
        return None;
      }
      if !inside.value {
        valid := false;
      }
      k := k + 1;
    }
    assert checks[..|keys|] == checks;
    r := Some(valid);
  }

  /** The `for datapoint in group['data']` loop. */
  method CheckRecords(series: string, datapoints: seq<Json>) returns (r: Option<bool>)
    ensures r == All(RecordChecks(series, datapoints))
  {
    var checks := RecordChecks(series, datapoints);
    var valid := true;
    var k := 0;
    while k < |datapoints|
      invariant 0 <= k <= |datapoints|
      invariant All(checks[..k]) == Some(valid)
    {
      var datapoint := datapoints[k];
      AllSnoc(checks, k);
      var length := PyLen(datapoint);
      if length.None? {
        AllMeaning(checks);
        return None;
      }
      if length.value != 3 {
        valid := false;
      }
      if series == "chartable" {
        var value := PyItem(datapoint, 1);
        if value.None? {
          AllMeaning(checks);
          return None;
        }
        if !PyFloatable(value.value) {
          valid := false;
        }
      }
      k := k + 1;
    }
    assert checks[..|datapoints|] == checks;
    r := Some(valid);
  }

  /** The body of the series loop for one series: its keys, then its records. */
  method CheckGroup(series: string, group: Json) returns (r: Option<bool>)
    ensures r == GroupCheck(series, group)
  {
    var keys := CheckKeys(GroupKeys, group);
    if keys.None? {
      return None;
    }
    var data := PyGet(group, "data");
    if data.None? {
      return None;
    }
    var datapoints := PyIter(data.value);
    if datapoints.None? {
      return None;
    }
    var records := CheckRecords(series, datapoints.value);
    r := Conj(keys, records);
  }

  /** The loop over the sorted series of one data type. */
  method CheckGroups(groups: seq<(string, Json)>) returns (r: Option<bool>)
    ensures r == All(GroupChecks(groups))
  {
    var checks := GroupChecks(groups);
    var valid := true;
    var g := 0;
    while g < |groups|
      invariant 0 <= g <= |groups|
      invariant All(checks[..g]) == Some(valid)
    {
      var (series, group) := groups[g];
      AllSnoc(checks, g);
      var check := CheckGroup(series, group);
      if check.None? {
        AllRaises(checks, g);
        return None;
      }
      valid := valid && check.value;
      g := g + 1;
    }
    assert checks[..|groups|] == checks;
    r := Some(valid);
  }

  /** The `for data_type in data_types` loop. */
  method CheckTypes(information: Json) returns (r: Option<bool>)
    ensures r == All(TypeChecks(information))
  {
    var checks := TypeChecks(information);
    var valid := true;
    var t := 0;
    while t < |DataTypes|
      invariant 0 <= t <= |DataTypes|
      invariant All(checks[..t]) == Some(valid)
    {
      AllSnoc(checks, t);
      var present := PyIn(DataTypes[t], information);
      if present.None? {
        AllMeaning(checks);
        return None;
      }
      if present.value {
        var groups := PyGet(information, DataTypes[t]);
        if groups.None? || !groups.value.JObject? {
          AllMeaning(checks);
          return None;
        }
        var result := CheckGroups(SortByKey(groups.value.fields));
        if result.None? {
          AllMeaning(checks);
          return None;
        }
        valid := valid && result.value;
      }
      t := t + 1;
    }
    assert checks[..|DataTypes|] == checks;
    r := Some(valid);
  }

  /** `_validated(information, filename)`, as the source's loops compute it. */
  method Validate(information: Json) returns (r: Option<bool>)
    ensures r == Validated(information)
  {
    var meta := CheckKeys(MetaKeys, information);
    if meta.None? {
      return None;
    }
    var valid := meta.value;
    if valid && !information.JObject? {
      return None;
    }
    var timestamp := PyGet(information, "timestamp");
    if timestamp.None? || PyInt(timestamp.value).None? {
      valid := false;
    }
    var types := CheckTypes(information);
    if types.None? {
      return None;
    }
    r := Some(valid && types.value);
  }
}
