/**
 * `sorted(d.items())` for a dict with str keys: the items ordered by key in
 * Python's str order. Items with equal keys (which a dict never has) keep
 * their input order.
 */
module Sorting {
  import opened Strings

  predicate SortedByKey<V>(s: seq<(string, V)>) {
    forall i, j :: 0 <= i < j < |s| ==> !Less(s[j].0, s[i].0)
  }

  function Insert<V>(x: (string, V), s: seq<(string, V)>): (r: seq<(string, V)>)
    ensures |r| == |s| + 1
    ensures multiset(r) == multiset(s) + multiset{x}
    decreases |s|
  {
    if |s| == 0 || Less(x.0, s[0].0) then [x] + s
    else
      assert s == [s[0]] + s[1..];
      [s[0]] + Insert(x, s[1..])
  }

  function SortByKey<V>(s: seq<(string, V)>): (r: seq<(string, V)>)
    ensures |r| == |s|
    ensures multiset(r) == multiset(s)
    decreases |s|
  {
    if |s| == 0 then []
    else
      assert s == s[..|s| - 1] + [s[|s| - 1]];
      Insert(s[|s| - 1], SortByKey(s[..|s| - 1]))
  }

  lemma {:induction false} InsertSorted<V>(x: (string, V), s: seq<(string, V)>)
    requires SortedByKey(s)
    ensures SortedByKey(Insert(x, s))
    decreases |s|
  {
    if |s| > 0 && !Less(x.0, s[0].0) {
      InsertSorted(x, s[1..]);
      var t := Insert(x, s[1..]);
      forall j | 0 <= j < |t| ensures !Less(t[j].0, s[0].0) {
        assert t[j] in multiset(t);
        if t[j] != x {
          assert t[j] in multiset(s[1..]);
          var k :| 0 <= k < |s[1..]| && s[1..][k] == t[j];
          assert s[k + 1] == t[j];
        }
      }
      var r := [s[0]] + t;
      forall i, j | 0 <= i < j < |r| ensures !Less(r[j].0, r[i].0) {
        if i > 0 {
          assert r[i] == t[i - 1] && r[j] == t[j - 1];
        } else {
          assert r[j] == t[j - 1];
        }
      }
    } else if |s| > 0 {
      var r := [x] + s;
      forall i, j | 0 <= i < j < |r| ensures !Less(r[j].0, r[i].0) {
        if i == 0 {
          LessTotal(x.0, s[0].0);
          if j > 1 {
            assert !Less(s[j - 1].0, s[0].0);
            if Less(s[j - 1].0, x.0) {
              if x.0 == s[0].0 {
              } else {
                LessTransitive(s[j - 1].0, x.0, s[0].0);
              }
            }
          } else {
            LessAsymmetric(x.0, s[0].0);
          }
        }
      }
    }
  }

  lemma {:induction false} SortByKeySorted<V>(s: seq<(string, V)>)
    ensures SortedByKey(SortByKey(s))
    decreases |s|
  {
    if |s| > 0 {
      SortByKeySorted(s[..|s| - 1]);
      InsertSorted(s[|s| - 1], SortByKey(s[..|s| - 1]));
    }
  }

  /** An item is in the sorted list exactly when it is in the input. */
  lemma SortByKeyMembers<V>(s: seq<(string, V)>, x: (string, V))
    ensures x in SortByKey(s) <==> x in s
  {
    assert x in SortByKey(s) <==> x in multiset(SortByKey(s));
    assert x in s <==> x in multiset(s);
  }

  predicate DistinctKeys<V>(s: seq<(string, V)>) {
    forall i, j :: 0 <= i < j < |s| ==> s[i].0 != s[j].0
  }

  /** Sorted with no two equal keys: the keys strictly increase. */
  predicate StrictlySortedByKey<V>(s: seq<(string, V)>) {
    forall i, j :: 0 <= i < j < |s| ==> Less(s[i].0, s[j].0)
  }

  lemma InsertMembers<V>(x: (string, V), s: seq<(string, V)>, e: (string, V))
    requires e in Insert(x, s)
    ensures e == x || e in s
  {
    assert e in multiset(Insert(x, s));
    if e != x {
      assert e in multiset(s);
    }
  }

  lemma {:induction false} InsertDistinct<V>(x: (string, V), s: seq<(string, V)>)
    requires DistinctKeys(s)
    requires forall i :: 0 <= i < |s| ==> s[i].0 != x.0
    ensures DistinctKeys(Insert(x, s))
    decreases |s|
  {
    if |s| > 0 && !Less(x.0, s[0].0) {
      InsertDistinct(x, s[1..]);
      var t := Insert(x, s[1..]);
      forall j | 0 <= j < |t| ensures t[j].0 != s[0].0 {
        InsertMembers(x, s[1..], t[j]);
      }
      var r := [s[0]] + t;
      forall i, j | 0 <= i < j < |r| ensures r[i].0 != r[j].0 {
        assert r[j] == t[j - 1];
        if i > 0 {
          assert r[i] == t[i - 1];
        }
      }
    } else if |s| > 0 {
      var r := [x] + s;
      forall i, j | 0 <= i < j < |r| ensures r[i].0 != r[j].0 {
        assert r[j] == s[j - 1];
        if i > 0 {
          assert r[i] == s[i - 1];
        }
      }
    }
  }

  lemma {:induction false} SortByKeyDistinct<V>(s: seq<(string, V)>)
    requires DistinctKeys(s)
    ensures DistinctKeys(SortByKey(s))
    decreases |s|
  {
    if |s| > 0 {
      var front, x := s[..|s| - 1], s[|s| - 1];
      SortByKeyDistinct(front);
      var t := SortByKey(front);
      forall i | 0 <= i < |t| ensures t[i].0 != x.0 {
        SortByKeyMembers(front, t[i]);
        var k :| 0 <= k < |front| && front[k] == t[i];
        assert s[k] == front[k];
      }
      InsertDistinct(x, t);
    }
  }

  /** Sorting items whose keys are distinct puts the keys in strictly increasing order. */
  lemma SortByKeyStrict<V>(s: seq<(string, V)>)
    requires DistinctKeys(s)
    ensures StrictlySortedByKey(SortByKey(s))
  {
    var r := SortByKey(s);
    SortByKeySorted(s);
    SortByKeyDistinct(s);
    forall i, j | 0 <= i < j < |r| ensures Less(r[i].0, r[j].0) {
      LessTotal(r[i].0, r[j].0);
    }
  }

  // ---------------------------------------------------------------------
  // `list.sort()` on `(int, str)` tuples: by the number, then by the text.
  // ---------------------------------------------------------------------

  predicate TupleLess(a: (int, string), b: (int, string)) {
    a.0 < b.0 || (a.0 == b.0 && Less(a.1, b.1))
  }

  lemma TupleLessTotal(a: (int, string), b: (int, string))
    ensures TupleLess(a, b) || a == b || TupleLess(b, a)
  {
    LessTotal(a.1, b.1);
  }

  lemma TupleLessTransitive(a: (int, string), b: (int, string), c: (int, string))
    requires TupleLess(a, b) && TupleLess(b, c)
    ensures TupleLess(a, c)
  {
    if a.0 == b.0 && b.0 == c.0 {
      LessTransitive(a.1, b.1, c.1);
    }
  }

  lemma TupleLessAsymmetric(a: (int, string), b: (int, string))
    requires TupleLess(a, b)
    ensures !TupleLess(b, a)
  {
    if a.0 == b.0 {
      LessAsymmetric(a.1, b.1);
    }
  }

  predicate SortedTuples(s: seq<(int, string)>) {
    forall i, j :: 0 <= i < j < |s| ==> !TupleLess(s[j], s[i])
  }

  function InsertTuple(x: (int, string), s: seq<(int, string)>): (r: seq<(int, string)>)
    ensures |r| == |s| + 1
    ensures multiset(r) == multiset(s) + multiset{x}
    decreases |s|
  {
    if |s| == 0 || TupleLess(x, s[0]) then [x] + s
    else
      assert s == [s[0]] + s[1..];
      [s[0]] + InsertTuple(x, s[1..])
  }

  function SortTuples(s: seq<(int, string)>): (r: seq<(int, string)>)
    ensures |r| == |s|
    ensures multiset(r) == multiset(s)
    decreases |s|
  {
    if |s| == 0 then []
    else
      assert s == s[..|s| - 1] + [s[|s| - 1]];
      InsertTuple(s[|s| - 1], SortTuples(s[..|s| - 1]))
  }

  /** Everything a sorted list holds is no smaller than its head. */
  lemma HeadLeast(s: seq<(int, string)>, y: (int, string))
    requires SortedTuples(s) && |s| > 0 && y in multiset(s)
    ensures !TupleLess(y, s[0])
  {
    var k :| 0 <= k < |s| && s[k] == y;
    if k > 0 {
      assert !TupleLess(s[k], s[0]);
    } else {
      TupleLessTotal(y, y);
      if TupleLess(y, y) {
        TupleLessAsymmetric(y, y);
      }
    }
  }

  /** Placing `x` in front of a sorted list it does not exceed keeps it sorted. */
  lemma ConsSorted(x: (int, string), s: seq<(int, string)>)
    requires SortedTuples(s)
    requires forall j :: 0 <= j < |s| ==> !TupleLess(s[j], x)
    ensures SortedTuples([x] + s)
  {
    var r := [x] + s;
    forall i, j | 0 <= i < j < |r| ensures !TupleLess(r[j], r[i]) {
      assert r[j] == s[j - 1];
      if i > 0 {
        assert r[i] == s[i - 1];
      }
    }
  }

  lemma {:induction false} InsertTupleSorted(x: (int, string), s: seq<(int, string)>)
    requires SortedTuples(s)
    ensures SortedTuples(InsertTuple(x, s))
    decreases |s|
  {
    if |s| > 0 && !TupleLess(x, s[0]) {
      InsertTupleSorted(x, s[1..]);
      var t := InsertTuple(x, s[1..]);
      forall j | 0 <= j < |t| ensures !TupleLess(t[j], s[0]) {
        assert t[j] in multiset(t);
        if t[j] != x {
          HeadLeast(s, t[j]) by {
            assert s == [s[0]] + s[1..];
          }
        }
      }
      ConsSorted(s[0], t);
    } else if |s| > 0 {
      forall j | 0 <= j < |s| ensures !TupleLess(s[j], x) {
        TupleLessAsymmetric(x, s[0]);
        if j > 0 && TupleLess(s[j], x) {
          TupleLessTransitive(s[j], x, s[0]);
        }
      }
      ConsSorted(x, s);
    }
  }

  lemma {:induction false} SortTuplesSorted(s: seq<(int, string)>)
    ensures SortedTuples(SortTuples(s))
    decreases |s|
  {
    if |s| > 0 {
      SortTuplesSorted(s[..|s| - 1]);
      InsertTupleSorted(s[|s| - 1], SortTuples(s[..|s| - 1]));
    }
  }

  lemma MultisetTail<T>(a: seq<T>)
    requires |a| > 0
    ensures multiset(a[1..]) == multiset(a) - multiset{a[0]}
  {
    assert a == [a[0]] + a[1..];
  }

  /** A list of tuples has one sorted arrangement: two sorted lists with the same items are equal. */
  lemma {:induction false} SortedUnique(a: seq<(int, string)>, b: seq<(int, string)>)
    requires SortedTuples(a) && SortedTuples(b) && multiset(a) == multiset(b)
    ensures a == b
    decreases |a|
  {
    assert |a| == |multiset(a)| == |multiset(b)| == |b|;
    if |a| > 0 {
      assert a[0] in multiset(b) && b[0] in multiset(a);
      HeadLeast(b, a[0]);
      HeadLeast(a, b[0]);
      TupleLessTotal(a[0], b[0]);
      assert a[0] == b[0];
      MultisetTail(a);
      MultisetTail(b);
      SortedUnique(a[1..], b[1..]);
    }
  }
}
