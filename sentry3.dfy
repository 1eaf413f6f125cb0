/**
 * The Sentry3 agent's reshaping of SNMP walk results
 * (infoset/agents/standard/sentry3.py): `_normalize_keys` renumbers a walk
 * by the last two OID sub-identifiers in string order, and `upload` pivots
 * the power and load readings by the infeed id with the same number.
 */
module Sentry3 {
  import opened Wrappers
  import opened Strings
  import opened Sorting
  import opened Dicts

  /** `'%s.%s' % (nodes[-2], nodes[-1])` with `nodes = key.split('.')`; None where `nodes[-2]` raises. */
  function Suffix(oid: string): Option<string> {
    var nodes := Split(oid, '.');
    if |nodes| < 2 then None else Some(nodes[|nodes| - 2] + "." + nodes[|nodes| - 1])
  }

  /** One item of the first loop of `_normalize_keys`: new key the suffix, value kept. */
  function SuffixEntry<V>(key: string, value: V): Option<(string, V)> {
    match Suffix(key)
    case None => None
    case Some(k) => Some((k, value))
  }

  /** The first loop of `_normalize_keys`: `intermediate`, or None where it raises. */
  function Intermediate<V>(data: Dict<V>): Option<Dict<V>> {
    Rekey(data, SuffixEntry)
  }

  /** The second loop: `result[count] = value` over the items in order. */
  function Numbered<V>(items: Dict<V>): (r: map<int, V>)
    ensures forall i :: i in r <==> 0 <= i < |items|
    ensures forall i :: 0 <= i < |items| ==> r[i] == items[i].1
  {
    map i | 0 <= i < |items| :: items[i].1
  }

  /** `_normalize_keys(data)`; None where it raises. */
  function Normalized<V>(data: Dict<V>): (r: Option<map<int, V>>)
    ensures r.Some? <==> Intermediate(data).Some?
    ensures r.Some? ==> forall i :: i in r.value <==> 0 <= i < |Intermediate(data).value|
  {
    match Intermediate(data)
    case None => None
    case Some(d) => Some(Numbered(SortByKey(d)))
  }

  // ---------------------------------------------------------------------
  // The intermediate dict.
  // ---------------------------------------------------------------------

  lemma SuffixKey<V>(data: Dict<V>)
    ensures forall j :: 0 <= j < |data| ==> KeyOf(SuffixEntry, data[j]) == Suffix(data[j].0)
  {
  }

  /** The renumbering raises exactly when some key has fewer than two parts. */
  lemma IntermediateOk<V>(data: Dict<V>)
    ensures Intermediate(data).Some? <==> forall j :: 0 <= j < |data| ==> Suffix(data[j].0).Some?
  {
    RekeyOk(data, SuffixEntry);
    SuffixKey(data);
  }

  /** The value kept for a suffix is the one of the last key with that suffix. */
  lemma LastWins<V>(data: Dict<V>, j: nat)
    requires Intermediate(data).Some? && j < |data|
    requires forall j' :: j < j' < |data| ==> Suffix(data[j'].0) != Suffix(data[j].0)
    ensures Suffix(data[j].0).Some?
    ensures
      var d := Intermediate(data).value;
      var k := Suffix(data[j].0).value;
      Find(d, k).Some? && d[Find(d, k).value] == (k, data[j].1)
  {
    SuffixKey(data);
    RekeyLastWins(data, SuffixEntry, j);
  }

  /** Every entry of `intermediate` holds the suffix and value of some key of the walk. */
  lemma ListedSuffix<V>(data: Dict<V>, i: nat) returns (j: nat)
    requires Intermediate(data).Some? && i < |Intermediate(data).value|
    ensures j < |data|
    ensures Suffix(data[j].0) == Some(Intermediate(data).value[i].0)
    ensures Intermediate(data).value[i].1 == data[j].1
  {
    j := RekeyListed(data, SuffixEntry, i);
  }

  /** Every suffix of a walk key is a key of `intermediate`. */
  lemma SuffixListed<V>(data: Dict<V>, j: nat)
    requires Intermediate(data).Some? && j < |data|
    ensures Suffix(data[j].0).Some? && Find(Intermediate(data).value, Suffix(data[j].0).value).Some?
  {
    RekeyKeys(data, SuffixEntry, j);
  }

  // ---------------------------------------------------------------------
  // What `_normalize_keys` promises.
  // ---------------------------------------------------------------------

  /**
   * The result's keys are 0 .. n-1 for the n distinct suffixes, and key i
   * holds the value of the i-th suffix in string order.
   */
  lemma NormalizedFacts<V>(data: Dict<V>)
    requires Normalized(data).Some?
    ensures
      var d := Intermediate(data).value;
      var sorted := SortByKey(d);
      var r := Normalized(data).value;
      && DistinctKeys(d)
      && (forall i :: i in r <==> 0 <= i < |d|)
      && StrictlySortedByKey(sorted)
      && multiset(sorted) == multiset(d)
      && (forall i :: 0 <= i < |sorted| ==> r[i] == sorted[i].1)
  {
    RekeyDistinct(data, SuffixEntry);
    SortByKeyStrict(Intermediate(data).value);
  }

  /** Every value of the result is the value of some key of the walk; values are never altered. */
  lemma NormalizedValue<V>(data: Dict<V>, i: int) returns (j: nat)
    requires Normalized(data).Some? && i in Normalized(data).value
    ensures j < |data| && Normalized(data).value[i] == data[j].1
  {
    var d := Intermediate(data).value;
    var sorted := SortByKey(d);
    NormalizedFacts(data);
    SortByKeyMembers(d, sorted[i]);
    var p :| 0 <= p < |d| && d[p] == sorted[i];
    j := ListedSuffix(data, p);
  }

  /** String order, not numeric order: suffix `1.10` comes before `1.2`. */
  lemma StringOrder()
    ensures Less("1.10", "1.2")
  {
    assert "1.10"[1..] == ".10" && "1.2"[1..] == ".2";
    assert ".10"[1..] == "10" && ".2"[1..] == "2";
  }

  /** The first loop of `_normalize_keys`, filling `intermediate`. */
  method Renumber<V>(data: Dict<V>) returns (r: Option<Dict<V>>)
    ensures r == Intermediate(data)
  {
    var intermediate: Dict<V> := [];
    var i := 0;
    while i < |data|
      invariant 0 <= i <= |data|
      invariant Rekey(data[..i], SuffixEntry) == Some(intermediate)
    {
      RekeyStep(data, SuffixEntry, i, intermediate);
      var (key, value) := data[i];
      var nodes := Split(key, '.');
      if |nodes| < 2 {
        RekeyRaise(data, SuffixEntry, i + 1);
        return None;
      }
      var newKey := nodes[|nodes| - 2] + "." + nodes[|nodes| - 1];
      intermediate := Put(intermediate, newKey, value);
      i := i + 1;
    }
    assert data[..i] == data;
    r := Some(intermediate);
  }

  /** The second loop of `_normalize_keys`: `result[count] = value` over the sorted items. */
  method Enumerate<V>(items: Dict<V>) returns (result: map<int, V>, count: nat)
    ensures result == Numbered(items) && count == |items|
  {
    result := map[];
    count := 0;
    while count < |items|
      invariant count <= |items|
      invariant result == Numbered(items[..count])
    {
      result := result[count := items[count].1];
      count := count + 1;
    }
    assert items[..count] == items;
  }

  /** `_normalize_keys(data)`; `count` is the number of entries of the result. */
  method NormalizeKeys<V>(data: Dict<V>) returns (r: Option<map<int, V>>, count: nat)
    ensures r == Normalized(data)
    ensures count == Count(data)
  {
    var intermediate := Renumber(data);
    if intermediate.None? {
      return None, 0;
    }
    var result;
    result, count := Enumerate(SortByKey(intermediate.value));
    r := Some(result);
  }

  // ---------------------------------------------------------------------
  // The pivot in `upload`.
  // ---------------------------------------------------------------------

  /**
   * `for key, value in state[label].items(): data[label][state['infeedID'][key]] = value`
   * over the keys 0 .. n-1; None where the infeed id lookup raises.
   */
  function Pivot<S(==), V>(readings: map<int, V>, ids: map<int, S>, n: nat): Option<map<S, V>>
    requires forall i :: 0 <= i < n ==> i in readings
    decreases n
  {
    if n == 0 then Some(map[])
    else
      match Pivot(readings, ids, n - 1)
      case None => None
      case Some(m) => if n - 1 !in ids then None else Some(m[ids[n - 1] := readings[n - 1]])
  }

  /** The pivot raises exactly when some reading has no infeed id. */
  lemma {:induction false} PivotOk<S, V>(readings: map<int, V>, ids: map<int, S>, n: nat)
    requires forall i :: 0 <= i < n ==> i in readings
    ensures Pivot(readings, ids, n).Some? <==> forall i :: 0 <= i < n ==> i in ids
    decreases n
  {
    if n > 0 {
      PivotOk(readings, ids, n - 1);
    }
  }

  /** A reading lands under its infeed id unless a later reading has the same id. */
  lemma {:induction false} PivotLast<S, V>(readings: map<int, V>, ids: map<int, S>, n: nat, i: nat)
    requires forall k :: 0 <= k < n ==> k in readings
    requires Pivot(readings, ids, n).Some? && i < n
    requires forall k :: i < k < n && k in ids && i in ids ==> ids[k] != ids[i]
    ensures i in ids && ids[i] in Pivot(readings, ids, n).value
    ensures Pivot(readings, ids, n).value[ids[i]] == readings[i]
    decreases n
  {
    PivotOk(readings, ids, n);
    if i < n - 1 {
      PivotLast(readings, ids, n - 1, i);
    }
  }

  /** Every source in the pivot is the infeed id of some reading, and holds that reading. */
  lemma {:induction false} PivotSource<S, V>(readings: map<int, V>, ids: map<int, S>, n: nat, s: S) returns (i: nat)
    requires forall k :: 0 <= k < n ==> k in readings
    requires Pivot(readings, ids, n).Some? && s in Pivot(readings, ids, n).value
    ensures i < n && i in ids && ids[i] == s
    ensures Pivot(readings, ids, n).value[s] == readings[i]
    decreases n
  {
    PivotOk(readings, ids, n);
    if ids[n - 1] == s {
      i := n - 1;
    } else {
      i := PivotSource(readings, ids, n - 1, s);
    }
  }

  /** The loop of `upload` for one label. */
  method PivotLabel<S(==), V>(readings: map<int, V>, ids: map<int, S>, n: nat) returns (r: Option<map<S, V>>)
    requires forall i :: 0 <= i < n ==> i in readings
    ensures r == Pivot(readings, ids, n)
  {
    var pivot: map<S, V> := map[];
    var key := 0;
    while key < n
      invariant key <= n
      invariant Pivot(readings, ids, key) == Some(pivot)
    {
      if key !in ids {
        PivotRaise(readings, ids, n, key + 1);
        return None;
      }
      pivot := pivot[ids[key] := readings[key]];
      key := key + 1;
    }
    r := Some(pivot);
  }

  lemma {:induction false} PivotRaise<S, V>(readings: map<int, V>, ids: map<int, S>, n: nat, k: nat)
    requires forall i :: 0 <= i < n ==> i in readings
    requires k <= n && Pivot(readings, ids, k).None?
    ensures Pivot(readings, ids, n).None?
    decreases n - k
  {
    if k < n {
      PivotRaise(readings, ids, n, k + 1);
    }
  }

  /** The labels `upload` posts, in its order. */
  const Power: string := "infeedPower"
  const Load: string := "infeedLoadValue"

  /** `data[label]` is created by the first assignment to it, so a label without readings is absent. */
  function WithLabel<S, V>(data: map<string, map<S, V>>, name: string, pivot: map<S, V>, n: nat): map<string, map<S, V>> {
    if n == 0 then data else data[name := pivot]
  }

  /** The number of entries `_normalize_keys` returns for a walk (0 where it raises). */
  function Count<V>(data: Dict<V>): nat {
    if Intermediate(data).Some? then |Intermediate(data).value| else 0
  }

  /** The `data` that `upload` hands to the agent; None where it raises. */
  function Upload<S(==), V>(power: Dict<V>, load: Dict<V>, ids: Dict<S>): Option<map<string, map<S, V>>> {
    var p, l, d := Normalized(power), Normalized(load), Normalized(ids);
    if p.None? || l.None? || d.None? then None
    else
      var a, b := Pivot(p.value, d.value, Count(power)), Pivot(l.value, d.value, Count(load));
      if a.None? || b.None? then None
      else Some(WithLabel(WithLabel(map[], Power, a.value, Count(power)), Load, b.value, Count(load)))
  }

  /** `upload` raises exactly when a walk key is too short or a reading has no infeed id. */
  lemma UploadOk<S, V>(power: Dict<V>, load: Dict<V>, ids: Dict<S>)
    ensures Upload(power, load, ids).Some? <==>
      && Normalized(power).Some? && Normalized(load).Some? && Normalized(ids).Some?
      && (forall i :: 0 <= i < Count(power) ==> i in Normalized(ids).value)
      && (forall i :: 0 <= i < Count(load) ==> i in Normalized(ids).value)
  {
    var p, l, d := Normalized(power), Normalized(load), Normalized(ids);
    if p.Some? && l.Some? && d.Some? {
      PivotOk(p.value, d.value, Count(power));
      PivotOk(l.value, d.value, Count(load));
    }
  }

  /**
   * A reading lands under its label and the infeed id with the same number,
   * unless a later reading of that label has the same infeed id.
   */
  lemma UploadPlaces<S, V>(power: Dict<V>, load: Dict<V>, ids: Dict<S>,
                               name: string, readings: map<int, V>, n: nat, i: nat)
    requires Upload(power, load, ids).Some?
    requires (name == Power && Normalized(power) == Some(readings) && n == Count(power))
          || (name == Load && Normalized(load) == Some(readings) && n == Count(load))
    requires i < n
    requires forall k :: i < k < n && k in Normalized(ids).value && i in Normalized(ids).value ==>
      Normalized(ids).value[k] != Normalized(ids).value[i]
    ensures i in readings && i in Normalized(ids).value
    ensures name in Upload(power, load, ids).value
    ensures Normalized(ids).value[i] in Upload(power, load, ids).value[name]
    ensures Upload(power, load, ids).value[name][Normalized(ids).value[i]] == readings[i]
  {
    var d := Normalized(ids).value;
    PivotOk(readings, d, n);
    PivotLast(readings, d, n, i);
  }

  /** `upload` up to posting: renumber the three walks, then pivot each label. */
  method UploadData<S(==), V>(power: Dict<V>, load: Dict<V>, ids: Dict<S>) returns (r: Option<map<string, map<S, V>>>)
    ensures r == Upload(power, load, ids)
  {
    var p, np := NormalizeKeys(power);
    var l, nl := NormalizeKeys(load);
    var d, nd := NormalizeKeys(ids);
    if p.None? || l.None? || d.None? {
      return None;
    }
    var a := PivotLabel(p.value, d.value, np);
    if a.None? {
      return None;
    }
    var b := PivotLabel(l.value, d.value, nl);
    if b.None? {
      return None;
    }
    var data: map<string, map<S, V>> := map[];
    if np > 0 {
      data := data[Power := a.value];
    }
    if nl > 0 {
      data := data[Load := b.value];
    }
    r := Some(data);
  }
}
