/**
 * What the accessors of a Drain return (infoset/cache/cache.py, class
 * Drain): the records of the 'chartable' data type split by base type, the
 * records of the 'other' data type, one source tuple per record, and the
 * agent keys; and, for a file that could not be read or did not validate,
 * nothing at all.
 */
module DrainFacts {
  import opened Wrappers
  import opened Json
  import opened Identifiers
  import opened Validation
  import opened Ingest
  import opened Sorting

  /** What every record of a snapshot yields: its own uid and timestamp, and a tuple for the same datapoint. */
  predicate Consistent(uid: Json, timestamp: int, e: Entry) {
    && e.row.uid == uid
    && e.row.timestamp == timestamp
    && e.source.uid == uid
    && e.source.did == e.row.did
    && e.source.baseType == e.baseType
  }

  lemma GroupEntriesConsistent(hash: Digest, uid: Json, timestamp: int, series: string, group: Json)
    requires GroupEntries(hash, uid, timestamp, series, group).Some?
    ensures forall e :: e in GroupEntries(hash, uid, timestamp, series, group).value ==> Consistent(uid, timestamp, e)
  {
    var h := GroupHeader(group).value;
    PointEntriesValues(hash, uid, timestamp, series, h, h.datapoints);
  }

  lemma {:induction false} TypeEntriesConsistent(hash: Digest, uid: Json, timestamp: int, groups: seq<(string, Json)>)
    requires TypeEntries(hash, uid, timestamp, groups).Some?
    ensures forall e :: e in TypeEntries(hash, uid, timestamp, groups).value ==> Consistent(uid, timestamp, e)
    decreases |groups|
  {
    if |groups| > 0 {
      var n := |groups| - 1;
      TypeEntriesLast(hash, uid, timestamp, groups);
      TypeEntriesConsistent(hash, uid, timestamp, groups[..n]);
      GroupEntriesConsistent(hash, uid, timestamp, groups[n].0, groups[n].1);
    }
  }

  // ---------------------------------------------------------------------
  // `other()`: every bucket, one after the other.
  // ---------------------------------------------------------------------

  predicate DistinctBuckets(b: Buckets) {
    forall i, j :: 0 <= i < j < |b| ==> b[i].0 != b[j].0
  }

  lemma {:induction false} FlattenEmpty(keys: seq<int>)
    ensures Flatten(Bucketize(keys, [])) == []
    decreases |keys|
  {
    if |keys| > 0 {
      assert Bucketize(keys, [])[1..] == Bucketize(keys[1..], []);
      FlattenEmpty(keys[1..]);
    }
  }

  /** Adding a row to the one bucket of its base type adds it to the flattened rows. */
  lemma {:induction false} FlattenAddRow(b: Buckets, baseType: int, row: Row)
    requires DistinctBuckets(b) && HasBucket(b, baseType)
    ensures multiset(Flatten(AddRow(b, baseType, row))) == multiset(Flatten(b)) + multiset{row}
    decreases |b|
  {
    var a := AddRow(b, baseType, row);
    assert a[1..] == AddRow(b[1..], baseType, row);
    if b[0].0 == baseType {
      assert forall i :: 0 <= i < |b[1..]| ==> b[1..][i].0 != baseType by {
        forall i | 0 <= i < |b[1..]| ensures b[1..][i].0 != baseType {
          assert b[1..][i] == b[i + 1];
        }
      }
      assert AddRow(b[1..], baseType, row) == b[1..];
    } else {
      var k :| 0 <= k < |b| && b[k].0 == baseType;
      assert b[1..][k - 1].0 == baseType;
      FlattenAddRow(b[1..], baseType, row);
    }
  }

  /** With distinct keys covering every entry, the flattened buckets hold each entry's row once. */
  lemma {:induction false} FlattenBucketize(keys: seq<int>, es: seq<Entry>)
    requires Distinct(keys) && Keyed(keys, es)
    ensures multiset(Flatten(Bucketize(keys, es))) == multiset(Rows(es))
    decreases |es|
  {
    if |es| == 0 {
      FlattenEmpty(keys);
    } else {
      var n := |es| - 1;
      var e := es[n];
      assert es[..n] + [e] == es;
      assert Keyed(keys, es[..n]) by {
        forall i | 0 <= i < n ensures es[..n][i].baseType in keys {
          assert es[..n][i] == es[i];
        }
      }
      FlattenBucketize(keys, es[..n]);
      BucketizeSnoc(keys, es[..n], e);
      var i :| 0 <= i < |keys| && keys[i] == e.baseType;
      assert Bucketize(keys, es[..n])[i].0 == e.baseType;
      FlattenAddRow(Bucketize(keys, es[..n]), e.baseType, e.row);
      assert Rows(es) == Rows(es[..n]) + [e.row];
    }
  }

  // ---------------------------------------------------------------------
  // A drain built from a valid snapshot.
  // ---------------------------------------------------------------------

  /** The timestamp and uid the walk of a valid snapshot uses. */
  function SnapshotTimestamp(information: Json): int
    requires WellFormed(information)
  {
    assert "timestamp" in MetaKeys;
    PyInt(Lookup(information.fields, "timestamp").value).value
  }

  function SnapshotUid(information: Json): Json
    requires WellFormed(information)
  {
    assert "uid" in MetaKeys;
    Lookup(information.fields, "uid").value
  }

  /** The series of a data type of a valid snapshot, as the walk visits them, and the entries they yield. */
  function Walk(hash: Digest, information: Json, dataType: string): (seq<(string, Json)>, seq<Entry>)
    requires WellFormed(information)
  {
    match TypeWalk(hash, SnapshotUid(information), SnapshotTimestamp(information), information, dataType)
    case Some(w) => w
    case None => ([], [])
  }

  /** The drain of a valid snapshot: the walk of its two data types. */
  lemma AcceptedWalk(hash: Digest, filename: string, information: Json)
    requires WellFormed(information) && Accepted(hash, filename, information).Some?
    ensures
      var uid, timestamp := SnapshotUid(information), SnapshotTimestamp(information);
      && TypeWalk(hash, uid, timestamp, information, "chartable") == Some(Walk(hash, information, "chartable"))
      && TypeWalk(hash, uid, timestamp, information, "other") == Some(Walk(hash, information, "other"))
    ensures
      var (gc, ec) := Walk(hash, information, "chartable");
      var (go, eo) := Walk(hash, information, "other");
      var d := Accepted(hash, filename, information).value;
      && d.filename == filename && d.validated
      && d.metadata == SourcesOf(ec) + SourcesOf(eo)
      && d.data == AddType(AddType(map[], "chartable", gc, ec), "other", go, eo)
  {
    AcceptedOf(hash, filename, information);
    TypesFoldContents(hash, SnapshotUid(information), SnapshotTimestamp(information), information);
  }

  /** The agent accessors of a valid drain return the snapshot's four agent keys. */
  lemma AcceptedAgent(hash: Digest, filename: string, information: Json)
    requires WellFormed(information) && Accepted(hash, filename, information).Some?
    ensures
      var d := Accepted(hash, filename, information).value;
      && Uid(d) == Some(SnapshotUid(information))
      && Timestamp(d) == Some(SnapshotTimestamp(information))
      && AgentName(d) == PyGet(information, "agent")
      && AgentName(d).Some?
      && Hostname(d) == PyGet(information, "hostname")
      && Hostname(d).Some?
  {
    var fields := information.fields;
    assert "timestamp" in MetaKeys && "uid" in MetaKeys && "agent" in MetaKeys && "hostname" in MetaKeys;
    AcceptedOf(hash, filename, information);
    AgentMetaLookup(fields);
    assert Accepted(hash, filename, information).value.agentMeta == AgentMeta(fields);
  }

  /**
   * `floating()`, `counter32()` and `counter64()` return, in record order,
   * the rows of the 'chartable' records whose series has that base type;
   * `chartable()` is the three one after the other.
   */
  lemma AcceptedChartable(hash: Digest, filename: string, information: Json)
    requires WellFormed(information) && Accepted(hash, filename, information).Some?
    ensures
      var ec := Walk(hash, information, "chartable").1;
      var d := Accepted(hash, filename, information).value;
      && Floating(d) == RowsWith(ec, 1)
      && Counter32(d) == RowsWith(ec, 32)
      && Counter64(d) == RowsWith(ec, 64)
      && Chartable(d) == RowsWith(ec, 1) + RowsWith(ec, 32) + RowsWith(ec, 64)
  {
    var uid, timestamp := SnapshotUid(information), SnapshotTimestamp(information);
    AcceptedWalk(hash, filename, information);
    var (gc, ec) := Walk(hash, information, "chartable");
    var d := Accepted(hash, filename, information).value;
    if |gc| > 0 {
      assert "chartable" in d.data && d.data["chartable"] == Bucketize(Keys(gc), ec);
      EntriesKeyed(hash, uid, timestamp, gc);
      BucketRowsOf(Keys(gc), ec, 1);
      BucketRowsOf(Keys(gc), ec, 32);
      BucketRowsOf(Keys(gc), ec, 64);
    } else {
      assert "chartable" !in d.data;
    }
  }

  /** A row is charted exactly when it comes from a 'chartable' record of base type 1, 32 or 64. */
  lemma ChartableMembers(hash: Digest, filename: string, information: Json, row: Row)
    requires WellFormed(information) && Accepted(hash, filename, information).Some?
    ensures
      var ec := Walk(hash, information, "chartable").1;
      row in Chartable(Accepted(hash, filename, information).value) <==>
        exists i :: 0 <= i < |ec| && ec[i].row == row && ec[i].baseType in {1, 32, 64}
  {
    var ec := Walk(hash, information, "chartable").1;
    AcceptedChartable(hash, filename, information);
    RowsWithMembers(ec, 1, row);
    RowsWithMembers(ec, 32, row);
    RowsWithMembers(ec, 64, row);
  }

  /** `other()` returns the row of every 'other' record exactly once, whatever its base type. */
  lemma AcceptedOther(hash: Digest, filename: string, information: Json)
    requires WellFormed(information) && Accepted(hash, filename, information).Some?
    ensures
      var eo := Walk(hash, information, "other").1;
      multiset(Other(Accepted(hash, filename, information).value)) == multiset(Rows(eo))
  {
    var uid, timestamp := SnapshotUid(information), SnapshotTimestamp(information);
    AcceptedWalk(hash, filename, information);
    var (go, eo) := Walk(hash, information, "other");
    var d := Accepted(hash, filename, information).value;
    if |go| > 0 {
      assert "other" in d.data && d.data["other"] == Bucketize(Keys(go), eo);
      EntriesKeyed(hash, uid, timestamp, go);
      FlattenBucketize(Keys(go), eo);
    } else {
      assert "other" !in d.data;
    }
  }

  /**
   * Every charted row carries the snapshot's uid and timestamp, and
   * `sources()` holds a tuple with the same uid and did: the datapoint a row
   * is written under has always been announced.
   */
  lemma ChartableRegistered(hash: Digest, filename: string, information: Json, row: Row)
    requires WellFormed(information) && Accepted(hash, filename, information).Some?
    requires row in Chartable(Accepted(hash, filename, information).value)
    ensures row.uid == SnapshotUid(information) && row.timestamp == SnapshotTimestamp(information)
    ensures exists s :: s in Sources(Accepted(hash, filename, information).value) && s.did == row.did && s.uid == row.uid
  {
    var uid, timestamp := SnapshotUid(information), SnapshotTimestamp(information);
    var (gc, ec) := Walk(hash, information, "chartable");
    var eo := Walk(hash, information, "other").1;
    AcceptedWalk(hash, filename, information);
    ChartableMembers(hash, filename, information, row);
    TypeEntriesConsistent(hash, uid, timestamp, gc);
    var i :| 0 <= i < |ec| && ec[i].row == row && ec[i].baseType in {1, 32, 64};
    assert Consistent(uid, timestamp, ec[i]);
    assert SourcesOf(ec)[i] == ec[i].source;
    assert (SourcesOf(ec) + SourcesOf(eo))[i] == ec[i].source;
  }

  // ---------------------------------------------------------------------
  // The drain of any file.
  // ---------------------------------------------------------------------

  /**
   * `valid()` is true exactly for a file that was read and validated. A
   * file that was not holds nothing: every list accessor returns [] and the
   * agent accessors raise.
   */
  lemma IngestValid(hash: Digest, filename: string, content: Option<Json>)
    requires DrainOf(hash, filename, content).Some?
    ensures
      var d := DrainOf(hash, filename, content).value;
      && d.filename == filename
      && (d.validated <==> content.Some? && Validated(content.value) == Some(true))
      && (!d.validated ==>
            && Chartable(d) == [] && Other(d) == [] && Sources(d) == []
            && Uid(d).None? && Timestamp(d).None? && AgentName(d).None? && Hostname(d).None?)
  {
    if content.Some? && Validated(content.value) == Some(true) {
      ValidatedIff(content.value);
      AcceptedWalk(hash, filename, content.value);
    }
  }

  // ---------------------------------------------------------------------
  // When the constructor raises, read off the snapshot.
  // ---------------------------------------------------------------------

  /** A record one of `datapoint[0]`, `datapoint[1]`, `datapoint[2]` of which raises. */
  predicate Unindexable(datapoint: Json) {
    PyItem(datapoint, 0).None? || PyItem(datapoint, 1).None? || PyItem(datapoint, 2).None?
  }

  /**
   * A series the walk raises on: a missing key, a base type `_base_type`
   * rejects, a 'data' that is not iterable, or a record that cannot be
   * indexed.
   */
  predicate SeriesRaises(group: Json) {
    match PyGet(group, "base_type")
    case None => true
    case Some(b) =>
      BaseType(b).None? || PyGet(group, "description").None? ||
      match PyGet(group, "data")
      case None => true
      case Some(data) =>
        match PyIter(data)
        case None => true
        case Some(datapoints) => exists i :: 0 <= i < |datapoints| && Unindexable(datapoints[i])
  }

  /** The series filed under a data type of a snapshot, [] where it has none. */
  function Series(information: Json, dataType: string): seq<(string, Json)> {
    match PyGet(information, dataType)
    case Some(JObject(groups)) => groups
    case _ => []
  }

  lemma SeriesRaisesIff(hash: Digest, uid: Json, timestamp: int, series: string, group: Json)
    ensures GroupEntries(hash, uid, timestamp, series, group).None? <==> SeriesRaises(group)
  {
    var h := GroupHeader(group);
    if h.Some? {
      var dps := h.value.datapoints;
      PointEntriesSome(hash, uid, timestamp, series, h.value, dps);
      forall i | 0 <= i < |dps|
        ensures PointEntry(hash, uid, timestamp, series, h.value, dps[i]).None? <==> Unindexable(dps[i])
      {
      }
    }
  }

  /** A fold that stops at the first failing step fails exactly when one of its steps fails. */
  lemma FoldFails<G>(ok: seq<G> -> bool, step: G -> bool, xs: seq<G>)
    requires ok([])
    requires forall k :: 0 <= k < |xs| ==> (ok(xs[..k + 1]) <==> ok(xs[..k]) && step(xs[k]))
    ensures ok(xs) <==> forall i :: 0 <= i < |xs| ==> step(xs[i])
  {
    FoldPrefix(ok, step, xs, |xs|);
    assert xs[..|xs|] == xs;
  }

  lemma {:induction false} FoldPrefix<G>(ok: seq<G> -> bool, step: G -> bool, xs: seq<G>, m: nat)
    requires m <= |xs| && ok([])
    requires forall k :: 0 <= k < |xs| ==> (ok(xs[..k + 1]) <==> ok(xs[..k]) && step(xs[k]))
    ensures ok(xs[..m]) <==> forall i :: 0 <= i < m ==> step(xs[i])
    decreases m
  {
    if m == 0 {
      assert xs[..0] == [];
    } else {
      FoldPrefix(ok, step, xs, m - 1);
    }
  }

  lemma TypeEntriesSnoc(hash: Digest, uid: Json, timestamp: int, groups: seq<(string, Json)>)
    requires |groups| > 0
    ensures TypeEntries(hash, uid, timestamp, groups).Some? <==>
      TypeEntries(hash, uid, timestamp, groups[..|groups| - 1]).Some?
      && GroupEntries(hash, uid, timestamp, groups[|groups| - 1].0, groups[|groups| - 1].1).Some?
  {
  }

  lemma {:induction false} TypesFoldSome(hash: Digest, uid: Json, timestamp: int, information: Json, dataTypes: seq<string>)
    ensures TypesFold(hash, uid, timestamp, information, dataTypes).Some?
        <==> forall i :: 0 <= i < |dataTypes| ==> TypeWalk(hash, uid, timestamp, information, dataTypes[i]).Some?
    decreases |dataTypes|
  {
    if |dataTypes| > 0 {
      var n := |dataTypes| - 1;
      var prefix := dataTypes[..n];
      TypesFoldSome(hash, uid, timestamp, information, prefix);
      assert forall i :: 0 <= i < n ==> prefix[i] == dataTypes[i];
    }
  }

  /** Over a valid snapshot, a data type's series are walked sorted by label. */
  lemma TypeGroupsSeries(information: Json, dataType: string)
    requires WellFormed(information) && dataType in DataTypes
    ensures TypeGroups(information, dataType) == Some(SortByKey(Series(information, dataType)))
  {
    if HasKey(information.fields, dataType) {
      assert TypeWellFormed(information, dataType);
    } else {
      assert SortByKey(Series(information, dataType)) == [];
    }
  }

  /** Sorting the series does not change whether one of them raises. */
  lemma SortedRaises(groups: seq<(string, Json)>)
    ensures (exists j :: 0 <= j < |groups| && SeriesRaises(groups[j].1))
        <==> (exists k :: 0 <= k < |SortByKey(groups)| && SeriesRaises(SortByKey(groups)[k].1))
  {
    var sorted := SortByKey(groups);
    if exists j :: 0 <= j < |groups| && SeriesRaises(groups[j].1) {
      var j :| 0 <= j < |groups| && SeriesRaises(groups[j].1);
      SortByKeyMembers(groups, groups[j]);
      var k :| 0 <= k < |sorted| && sorted[k] == groups[j];
      assert SeriesRaises(sorted[k].1);
    }
    if exists k :: 0 <= k < |sorted| && SeriesRaises(sorted[k].1) {
      var k :| 0 <= k < |sorted| && SeriesRaises(sorted[k].1);
      SortByKeyMembers(groups, sorted[k]);
      var j :| 0 <= j < |groups| && groups[j] == sorted[k];
      assert SeriesRaises(groups[j].1);
    }
  }

  /** The series of a data type raise, in the order walked, exactly when one of them raises. */
  lemma TypeEntriesRaises(hash: Digest, uid: Json, timestamp: int, groups: seq<(string, Json)>)
    ensures TypeEntries(hash, uid, timestamp, groups).None?
        <==> exists j :: 0 <= j < |groups| && SeriesRaises(groups[j].1)
  {
    var ok := (gs: seq<(string, Json)>) => TypeEntries(hash, uid, timestamp, gs).Some?;
    var step := (g: (string, Json)) => GroupEntries(hash, uid, timestamp, g.0, g.1).Some?;
    forall k | 0 <= k < |groups| ensures ok(groups[..k + 1]) <==> ok(groups[..k]) && step(groups[k]) {
      TypeEntriesSnoc(hash, uid, timestamp, groups[..k + 1]);
      assert groups[..k + 1][..k] == groups[..k];
    }
    FoldFails(ok, step, groups);
    forall j | 0 <= j < |groups| ensures !step(groups[j]) <==> SeriesRaises(groups[j].1) {
      SeriesRaisesIff(hash, uid, timestamp, groups[j].0, groups[j].1);
    }
  }

  /** Over a valid snapshot, one data type's walk raises exactly when one of its series does. */
  lemma TypeWalkRaises(hash: Digest, uid: Json, timestamp: int, information: Json, dataType: string)
    requires WellFormed(information) && dataType in DataTypes
    ensures TypeWalk(hash, uid, timestamp, information, dataType).None?
        <==> exists j :: 0 <= j < |Series(information, dataType)| && SeriesRaises(Series(information, dataType)[j].1)
  {
    var groups := Series(information, dataType);
    TypeGroupsSeries(information, dataType);
    TypeEntriesRaises(hash, uid, timestamp, SortByKey(groups));
    SortedRaises(groups);
  }

  /**
   * `Drain(filename)` raises exactly when `_validated` raises on the
   * content, or the content is a valid snapshot one of whose series under
   * 'chartable' or 'other' has a missing key, a base type that is truthy
   * and not a str, a non-iterable 'data' or a record that cannot be indexed
   * (a record that is a dict of three keys passes validation and raises
   * here).
   */
  lemma IngestRaises(hash: Digest, filename: string, content: Option<Json>)
    ensures DrainOf(hash, filename, content).None? <==>
      content.Some? && (Validated(content.value).None? ||
        (WellFormed(content.value) &&
         exists t, j :: t in DataTypes && 0 <= j < |Series(content.value, t)| && SeriesRaises(Series(content.value, t)[j].1)))
  {
    if content.Some? {
      var information := content.value;
      ValidatedIff(information);
      if WellFormed(information) {
        var fields := information.fields;
        assert "timestamp" in MetaKeys && "uid" in MetaKeys;
        var timestamp := PyInt(Lookup(fields, "timestamp").value).value;
        var uid := Lookup(fields, "uid").value;
        TypesFoldSome(hash, uid, timestamp, information, DataTypes);
        TypeWalkRaises(hash, uid, timestamp, information, DataTypes[0]);
        TypeWalkRaises(hash, uid, timestamp, information, DataTypes[1]);
        assert forall t :: t in DataTypes <==> t == DataTypes[0] || t == DataTypes[1];
      }
    }
  }

  /** A valid drain comes from a valid snapshot, walked by `Accepted`. */
  lemma ValidDrainAccepted(hash: Digest, filename: string, content: Option<Json>)
    requires DrainOf(hash, filename, content).Some? && DrainOf(hash, filename, content).value.validated
    ensures content.Some? && WellFormed(content.value) && Accepted(hash, filename, content.value).Some?
    ensures DrainOf(hash, filename, content) == Accepted(hash, filename, content.value)
  {
    IngestValid(hash, filename, content);
    ValidatedIff(content.value);
  }

  /** Every metadata tuple of a valid snapshot's drain carries the snapshot's uid. */
  lemma SourcesOwned(hash: Digest, filename: string, information: Json)
    requires WellFormed(information) && Accepted(hash, filename, information).Some?
    ensures forall s :: s in Sources(Accepted(hash, filename, information).value) ==> s.uid == SnapshotUid(information)
  {
    var d := Accepted(hash, filename, information).value;
    AcceptedWalk(hash, filename, information);
    var uid, timestamp := SnapshotUid(information), SnapshotTimestamp(information);
    var (gc, ec) := Walk(hash, information, "chartable");
    var (go, eo) := Walk(hash, information, "other");
    TypeEntriesConsistent(hash, uid, timestamp, gc);
    TypeEntriesConsistent(hash, uid, timestamp, go);
    forall s | s in Sources(d)
      ensures s.uid == uid
    {
      var k :| 0 <= k < |Sources(d)| && Sources(d)[k] == s;
      if k < |ec| {
        assert SourcesOf(ec)[k] == ec[k].source && Consistent(uid, timestamp, ec[k]);
      } else {
        assert SourcesOf(eo)[k - |ec|] == eo[k - |ec|].source && Consistent(uid, timestamp, eo[k - |ec|]);
      }
    }
  }

  /**
   * What the batch loop relies on in a valid drain: the agent accessors do
   * not raise, every metadata tuple carries the file's uid, and every
   * charted row's did is announced by some tuple.
   */
  lemma ValidDrain(hash: Digest, filename: string, content: Option<Json>)
    requires DrainOf(hash, filename, content).Some? && DrainOf(hash, filename, content).value.validated
    ensures
      var d := DrainOf(hash, filename, content).value;
      && Uid(d).Some? && Timestamp(d).Some? && AgentName(d).Some? && Hostname(d).Some?
      && (forall s :: s in Sources(d) ==> s.uid == Uid(d).value)
      && (forall row :: row in Chartable(d) ==> exists s :: s in Sources(d) && s.did == row.did)
  {
    ValidDrainAccepted(hash, filename, content);
    var information := content.value;
    AcceptedAgent(hash, filename, information);
    SourcesOwned(hash, filename, information);
    var d := Accepted(hash, filename, information).value;
    forall row | row in Chartable(d)
      ensures exists s :: s in Sources(d) && s.did == row.did
    {
      ChartableRegistered(hash, filename, information, row);
    }
  }
}
