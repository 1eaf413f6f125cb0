/**
 * Python dicts with str keys, kept as their items in insertion order, and
 * the loop the agents repeat over SNMP walk results: each item is given a
 * new key (and value) and stored with `d[key] = value`, so an item whose
 * new key was already stored overwrites the value in place.
 */
module Dicts {
  import opened Wrappers
  import opened Sorting

  /** A dict with str keys, in insertion order. */
  type Dict<V> = seq<(string, V)>

  /** The position of key `k`, looked for from the end. */
  function Find<V>(d: Dict<V>, k: string): (r: Option<nat>)
    ensures r.Some? ==> r.value < |d| && d[r.value].0 == k
    ensures r.None? ==> forall i :: 0 <= i < |d| ==> d[i].0 != k
    decreases |d|
  {
    if |d| == 0 then None
    else if d[|d| - 1].0 == k then Some(|d| - 1)
    else Find(d[..|d| - 1], k)
  }

  /** `d[k] = v`: a key already present keeps its place and takes the new value. */
  function Put<V>(d: Dict<V>, k: string, v: V): Dict<V> {
    match Find(d, k)
    case Some(i) => d[i := (k, v)]
    case None => d + [(k, v)]
  }

  /** Under distinct keys, the position of a key is the only one holding it. */
  lemma FindUnique<V>(d: Dict<V>, k: string, i: nat)
    requires DistinctKeys(d) && i < |d| && d[i].0 == k
    ensures Find(d, k) == Some(i)
  {
    var r := Find(d, k);
    assert r.Some?;
    assert d[r.value].0 == d[i].0;
  }

  /**
   * `d[k] = v` keeps the keys distinct, stores `v` under `k`, and leaves the
   * item of every other key where and as it was.
   */
  lemma PutFacts<V>(d: Dict<V>, k: string, v: V)
    requires DistinctKeys(d)
    ensures DistinctKeys(Put(d, k, v))
    ensures Find(Put(d, k, v), k).Some? && Put(d, k, v)[Find(Put(d, k, v), k).value] == (k, v)
    ensures forall i :: 0 <= i < |d| && d[i].0 != k ==> Put(d, k, v)[i] == d[i]
    ensures forall i :: 0 <= i < |Put(d, k, v)| && Put(d, k, v)[i].0 != k ==> i < |d| && Put(d, k, v)[i] == d[i]
  {
    var e := Put(d, k, v);
    match Find(d, k)
    case Some(p) =>
      assert e == d[p := (k, v)];
      forall i | 0 <= i < |e| && e[i].0 != k ensures i < |d| && e[i] == d[i] {
        assert i != p;
      }
      forall i, j | 0 <= i < j < |e| ensures e[i].0 != e[j].0 {
        assert e[i].0 == d[i].0 && e[j].0 == d[j].0;
      }
      FindUnique(e, k, p);
    case None =>
      assert e == d + [(k, v)];
      forall i | 0 <= i < |e| && e[i].0 != k ensures i < |d| && e[i] == d[i] {
        assert i != |d|;
      }
      FindUnique(e, k, |d|);
  }

  /** `d[k] = v` adds the key `k` and keeps every other key. */
  lemma PutFind<V>(d: Dict<V>, k: string, v: V, k2: string)
    ensures Find(Put(d, k, v), k2).Some? <==> k2 == k || Find(d, k2).Some?
  {
    var e := Put(d, k, v);
    match Find(d, k)
    case Some(p) =>
      assert forall i :: 0 <= i < |d| ==> e[i].0 == d[i].0;
      assert e[p].0 == k;
      if Find(d, k2).Some? {
        var q := Find(d, k2).value;
        assert e[q].0 == k2;
      }
      if Find(e, k2).Some? {
        var q := Find(e, k2).value;
        assert d[q].0 == k2;
      }
    case None =>
      assert e[|d|].0 == k;
      if Find(d, k2).Some? {
        var q := Find(d, k2).value;
        assert e[q].0 == k2;
      }
      if Find(e, k2).Some? && k2 != k {
        var q := Find(e, k2).value;
        assert q < |d| && d[q].0 == k2;
      }
  }

  /** Storing a key that is not yet present appends it. */
  lemma PutNew<V>(d: Dict<V>, k: string, v: V)
    requires forall i :: 0 <= i < |d| ==> d[i].0 != k
    ensures Put(d, k, v) == d + [(k, v)]
  {
  }

  // ---------------------------------------------------------------------
  // Re-keying loops: `for key, value in items: d[f(key, value)] = ...`.
  // ---------------------------------------------------------------------

  /** The new key and value of one item; None where computing them raises. */
  function Apply<V, W>(f: (string, V) -> Option<(string, W)>, e: (string, V)): Option<(string, W)> {
    f(e.0, e.1)
  }

  /** The new key of one item; None where computing it raises. */
  function KeyOf<V, W>(f: (string, V) -> Option<(string, W)>, e: (string, V)): Option<string> {
    match Apply(f, e)
    case None => None
    case Some(p) => Some(p.0)
  }

  /** The dict the loop fills, or None where it raises. */
  function Rekey<V, W>(entries: Dict<V>, f: (string, V) -> Option<(string, W)>): Option<Dict<W>>
    decreases |entries|
  {
    if |entries| == 0 then Some([])
    else
      match Rekey(entries[..|entries| - 1], f)
      case None => None
      case Some(d) =>
        match Apply(f, entries[|entries| - 1])
        case None => None
        case Some(p) => Some(Put(d, p.0, p.1))
  }

  /** One more item: the loop goes on from the dict the items before it filled. */
  lemma RekeyStep<V, W>(entries: Dict<V>, f: (string, V) -> Option<(string, W)>, i: nat, d: Dict<W>)
    requires i < |entries| && Rekey(entries[..i], f) == Some(d)
    ensures Rekey(entries[..i + 1], f) ==
      match Apply(f, entries[i])
      case None => None
      case Some(p) => Some(Put(d, p.0, p.1))
  {
    assert entries[..i + 1][..i] == entries[..i];
  }

  /** Once a prefix of the items raises, the whole loop raises. */
  lemma {:induction false} RekeyRaise<V, W>(entries: Dict<V>, f: (string, V) -> Option<(string, W)>, k: nat)
    requires k <= |entries| && Rekey(entries[..k], f).None?
    ensures Rekey(entries, f).None?
    decreases |entries| - k
  {
    if k < |entries| {
      assert entries[..k + 1][..k] == entries[..k];
      RekeyRaise(entries, f, k + 1);
    } else {
      assert entries[..k] == entries;
    }
  }

  /** The loop raises exactly when computing some item's new key raises. */
  lemma {:induction false} RekeyOk<V, W>(entries: Dict<V>, f: (string, V) -> Option<(string, W)>)
    ensures Rekey(entries, f).Some? <==> forall j :: 0 <= j < |entries| ==> Apply(f, entries[j]).Some?
    decreases |entries|
  {
    if |entries| > 0 {
      var front := entries[..|entries| - 1];
      RekeyOk(front, f);
      assert forall j :: 0 <= j < |front| ==> front[j] == entries[j];
    }
  }

  lemma {:induction false} RekeyDistinct<V, W>(entries: Dict<V>, f: (string, V) -> Option<(string, W)>)
    requires Rekey(entries, f).Some?
    ensures DistinctKeys(Rekey(entries, f).value)
    decreases |entries|
  {
    if |entries| > 0 {
      var front := entries[..|entries| - 1];
      RekeyDistinct(front, f);
      var p := Apply(f, entries[|entries| - 1]).value;
      PutFacts(Rekey(front, f).value, p.0, p.1);
    }
  }

  /** The value stored under a new key is the one of the last item given that key. */
  lemma {:induction false} RekeyLastWins<V, W>(entries: Dict<V>, f: (string, V) -> Option<(string, W)>, j: nat)
    requires Rekey(entries, f).Some? && j < |entries|
    requires forall j' :: j < j' < |entries| ==> KeyOf(f, entries[j']) != KeyOf(f, entries[j])
    ensures Apply(f, entries[j]).Some?
    ensures
      var d, p := Rekey(entries, f).value, Apply(f, entries[j]).value;
      Find(d, p.0).Some? && d[Find(d, p.0).value] == p
    decreases |entries|
  {
    RekeyOk(entries, f);
    var front := entries[..|entries| - 1];
    var d0 := Rekey(front, f).value;
    var p := Apply(f, entries[j]).value;
    var last := Apply(f, entries[|entries| - 1]).value;
    RekeyDistinct(front, f);
    PutFacts(d0, last.0, last.1);
    if j < |entries| - 1 {
      assert forall j' :: 0 <= j' < |front| ==> front[j'] == entries[j'];
      RekeyLastWins(front, f, j);
      var i := Find(d0, p.0).value;
      var d := Rekey(entries, f).value;
      RekeyDistinct(entries, f);
      assert d[i] == d0[i];
      FindUnique(d, p.0, i);
    }
  }

  /** Every stored item is the new key and value of some item of the input. */
  lemma {:induction false} RekeyListed<V, W>(entries: Dict<V>, f: (string, V) -> Option<(string, W)>, i: nat) returns (j: nat)
    requires Rekey(entries, f).Some? && i < |Rekey(entries, f).value|
    ensures j < |entries| && Apply(f, entries[j]) == Some(Rekey(entries, f).value[i])
    decreases |entries|
  {
    var front := entries[..|entries| - 1];
    var d0 := Rekey(front, f).value;
    var last := Apply(f, entries[|entries| - 1]).value;
    RekeyDistinct(front, f);
    PutFacts(d0, last.0, last.1);
    if Rekey(entries, f).value[i].0 == last.0 {
      j := |entries| - 1;
    } else {
      j := RekeyListed(front, f, i);
      assert front[j] == entries[j];
    }
  }

  /** Every new key computed by the loop is a key of the result. */
  lemma {:induction false} RekeyKeys<V, W>(entries: Dict<V>, f: (string, V) -> Option<(string, W)>, j: nat)
    requires Rekey(entries, f).Some? && j < |entries|
    ensures Apply(f, entries[j]).Some? && Find(Rekey(entries, f).value, Apply(f, entries[j]).value.0).Some?
    decreases |entries|
  {
    RekeyOk(entries, f);
    var front := entries[..|entries| - 1];
    var last := Apply(f, entries[|entries| - 1]).value;
    PutFind(Rekey(front, f).value, last.0, last.1, Apply(f, entries[j]).value.0);
    if j < |entries| - 1 {
      assert front[j] == entries[j];
      RekeyKeys(front, f, j);
    }
  }

  /** The loop leaves the dict empty exactly when there are no items. */
  lemma RekeyEmpty<V, W>(entries: Dict<V>, f: (string, V) -> Option<(string, W)>)
    requires Rekey(entries, f).Some?
    ensures |Rekey(entries, f).value| == 0 <==> |entries| == 0
  {
    if |entries| > 0 {
      var d := Rekey(entries[..|entries| - 1], f).value;
      var p := Apply(f, entries[|entries| - 1]).value;
      assert Find(d, p.0).Some? ==> |d| > 0;
    }
  }

  /**
   * `for key, value in items: d[key] = value` into an empty dict copies a
   * dict with distinct keys unchanged.
   */
  lemma {:induction false} RekeyCopy<V>(entries: Dict<V>)
    requires DistinctKeys(entries)
    ensures Rekey(entries, Same) == Some(entries)
    decreases |entries|
  {
    if |entries| > 0 {
      var front := entries[..|entries| - 1];
      assert DistinctKeys(front);
      RekeyCopy(front);
      PutNew(front, entries[|entries| - 1].0, entries[|entries| - 1].1);
      assert front + [entries[|entries| - 1]] == entries;
    }
  }

  /**
   * A loop that keeps every item's key, over items with distinct keys,
   * stores one item per input item, in the same order.
   */
  lemma {:induction false} RekeyKeepsKeys<V, W>(entries: Dict<V>, f: (string, V) -> Option<(string, W)>)
    requires DistinctKeys(entries) && Rekey(entries, f).Some?
    requires forall j :: 0 <= j < |entries| && Apply(f, entries[j]).Some? ==> Apply(f, entries[j]).value.0 == entries[j].0
    ensures |Rekey(entries, f).value| == |entries|
    ensures forall i :: 0 <= i < |entries| ==> Apply(f, entries[i]) == Some(Rekey(entries, f).value[i])
    decreases |entries|
  {
    if |entries| > 0 {
      var front := entries[..|entries| - 1];
      assert forall j :: 0 <= j < |front| ==> front[j] == entries[j];
      RekeyKeepsKeys(front, f);
      var d := Rekey(front, f).value;
      var last := Apply(f, entries[|entries| - 1]).value;
      assert forall i :: 0 <= i < |d| ==> d[i].0 == front[i].0 != last.0;
      PutNew(d, last.0, last.1);
    }
  }

  /** The item unchanged: the re-keying of a plain copy loop. */
  function Same<V>(key: string, value: V): Option<(string, V)> {
    Some((key, value))
  }

  /** `for key, value in items: copy[key] = value` into an empty dict. */
  method Copy<V>(items: Dict<V>) returns (copy: Dict<V>)
    ensures Rekey(items, Same) == Some(copy)
  {
    copy := [];
    var i := 0;
    while i < |items|
      invariant 0 <= i <= |items|
      invariant Rekey(items[..i], Same) == Some(copy)
    {
      RekeyStep(items, Same, i, copy);
      var (key, value) := items[i];
      copy := Put(copy, key, value);
      i := i + 1;
    }
    assert items[..i] == items;
  }

  /**
   * `outer` of a `defaultdict` after `outer[name][key] = value` for
   * every item of `inner`: the name exists only once something was written
   * under it.
   */
  function Labelled<V>(outer: map<string, Dict<V>>, name: string, inner: Dict<V>): map<string, Dict<V>> {
    if |inner| == 0 then outer else outer[name := inner]
  }
}
