/**
 * One cache file read into a `Drain` (infoset/cache/cache.py, class Drain).
 *
 * The constructor validates the snapshot and, for a valid one, walks the
 * 'chartable' and 'other' data types, each data type's series in sorted
 * label order and each series' records in order, appending one row to
 * `data[data type][base type]` and one source tuple to `metadata` per
 * record. Once built, a Drain is never changed: its accessors only read it.
 */
module Ingest {
  import opened Wrappers
  import opened Json
  import opened Sorting
  import opened Identifiers
  import opened Validation

  /** `(uid, did, value, timestamp)`: one measurement of the file. */
  datatype Row = Row(uid: Json, did: string, value: Json, timestamp: int)

  /** `(uid, did, label, source, description, base_type)`: one metadata tuple. */
  datatype Source = Source(uid: Json, did: string, series: string, source: Json, description: Json, baseType: int)

  /** What one record contributes: the base type it is filed under, its row, its tuple. */
  datatype Entry = Entry(baseType: int, row: Row, source: Source)

  /** `self.data[data_type]`: base type -> rows, in the order the base types were first met. */
  type Buckets = seq<(int, seq<Row>)>

  datatype Drain = Drain(
    filename: string,
    validated: bool,
    agentMeta: seq<(string, Json)>,
    data: map<string, Buckets>,
    metadata: seq<Source>)

  /** A file that could not be read or did not validate: nothing was collected. */
  function Rejected(filename: string): Drain {
    Drain(filename, false, [], map[], [])
  }

  // ---------------------------------------------------------------------
  // The buckets of one data type.
  // ---------------------------------------------------------------------

  predicate HasBucket(b: Buckets, baseType: int) {
    exists i :: 0 <= i < |b| && b[i].0 == baseType
  }

  /** `if base_type not in self.data[data_type]: self.data[data_type][base_type] = []`. */
  function Open(b: Buckets, baseType: int): Buckets {
    if HasBucket(b, baseType) then b else b + [(baseType, [])]
  }

  /** `self.data[data_type][base_type].append(row)`. */
  function AddRow(b: Buckets, baseType: int, row: Row): Buckets {
    seq(|b|, i requires 0 <= i < |b| => if b[i].0 == baseType then (baseType, b[i].1 + [row]) else b[i])
  }

  /** `self.data[data_type][base_type]`, or [] when there is no such bucket. */
  function BucketRows(b: Buckets, baseType: int): seq<Row>
    decreases |b|
  {
    if |b| == 0 then []
    else if b[0].0 == baseType then b[0].1
    else BucketRows(b[1..], baseType)
  }

  /** All rows of all buckets, bucket by bucket (the loop in `other()`). */
  function Flatten(b: Buckets): seq<Row>
    decreases |b|
  {
    if |b| == 0 then [] else b[0].1 + Flatten(b[1..])
  }

  /** The rows of the entries filed under `baseType`, in order. */
  function RowsWith(es: seq<Entry>, baseType: int): seq<Row>
    decreases |es|
  {
    if |es| == 0 then []
    else RowsWith(es[..|es| - 1], baseType) + (if es[|es| - 1].baseType == baseType then [es[|es| - 1].row] else [])
  }

  function Rows(es: seq<Entry>): seq<Row> {
    seq(|es|, i requires 0 <= i < |es| => es[i].row)
  }

  function SourcesOf(es: seq<Entry>): seq<Source> {
    seq(|es|, i requires 0 <= i < |es| => es[i].source)
  }

  /** One bucket per key, holding exactly the rows of the entries filed under it. */
  function Bucketize(keys: seq<int>, es: seq<Entry>): Buckets {
    seq(|keys|, i requires 0 <= i < |keys| => (keys[i], RowsWith(es, keys[i])))
  }

  function AddKey(keys: seq<int>, k: int): seq<int> {
    if k in keys then keys else keys + [k]
  }

  // ---------------------------------------------------------------------
  // What one series and one record contribute.
  // ---------------------------------------------------------------------

  /** `_base_type(group['base_type'])`, `group['description']` and `group['data']`. */
  datatype Header = Header(baseType: int, description: Json, datapoints: seq<Json>)

  function GroupHeader(group: Json): Option<Header> {
    match PyGet(group, "base_type")
    case None => None
    case Some(b) =>
      match BaseType(b)
      case None => None
      case Some(baseType) =>
        match PyGet(group, "description")
        case None => None
        case Some(description) =>
          match PyGet(group, "data")
          case None => None
          case Some(data) =>
            match PyIter(data)
            case None => None
            case Some(datapoints) => Some(Header(baseType, description, datapoints))
  }

  /** The base type a series is filed under (0 for a series whose header raises). */
  function GroupBaseType(group: Json): int {
    match GroupHeader(group)
    case Some(h) => h.baseType
    case None => 0
  }

  /** `index, value, source = datapoint[0], datapoint[1], datapoint[2]` and the row and tuple built from them. */
  function PointEntry(hash: Digest, uid: Json, timestamp: int, series: string, h: Header, datapoint: Json): Option<Entry> {
    match (PyItem(datapoint, 0), PyItem(datapoint, 1), PyItem(datapoint, 2))
    case (Some(index), Some(value), Some(source)) =>
      var did := Did(hash, uid, series, index);
      Some(Entry(h.baseType, Row(uid, did, value, timestamp), Source(uid, did, series, source, h.description, h.baseType)))
    case _ => None
  }

  /** The entries of the first records of a series, or None once one of them raises. */
  function PointEntries(hash: Digest, uid: Json, timestamp: int, series: string, h: Header, datapoints: seq<Json>): Option<seq<Entry>>
    decreases |datapoints|
  {
    if |datapoints| == 0 then Some([])
    else
      match PointEntries(hash, uid, timestamp, series, h, datapoints[..|datapoints| - 1])
      case None => None
      case Some(es) =>
        match PointEntry(hash, uid, timestamp, series, h, datapoints[|datapoints| - 1])
        case None => None
        case Some(e) => Some(es + [e])
  }

  function GroupEntries(hash: Digest, uid: Json, timestamp: int, series: string, group: Json): Option<seq<Entry>> {
    match GroupHeader(group)
    case None => None
    case Some(h) => PointEntries(hash, uid, timestamp, series, h, h.datapoints)
  }

  /** The entries of the first series of a data type, in the order they are walked. */
  function TypeEntries(hash: Digest, uid: Json, timestamp: int, groups: seq<(string, Json)>): Option<seq<Entry>>
    decreases |groups|
  {
    if |groups| == 0 then Some([])
    else
      match TypeEntries(hash, uid, timestamp, groups[..|groups| - 1])
      case None => None
      case Some(es) =>
        match GroupEntries(hash, uid, timestamp, groups[|groups| - 1].0, groups[|groups| - 1].1)
        case None => None
        case Some(g) => Some(es + g)
  }

  /** The base types of the first series, each once, in the order first met. */
  function Keys(groups: seq<(string, Json)>): seq<int>
    decreases |groups|
  {
    if |groups| == 0 then []
    else AddKey(Keys(groups[..|groups| - 1]), GroupBaseType(groups[|groups| - 1].1))
  }

  /** `sorted(information[data_type].items())`, [] when the data type is absent. */
  function TypeGroups(information: Json, dataType: string): Option<seq<(string, Json)>> {
    match PyIn(dataType, information)
    case None => None
    case Some(present) =>
      if !present then Some([])
      else
        match PyGet(information, dataType)
        case Some(JObject(groups)) => Some(SortByKey(groups))
        case _ => None
  }

  /** The series of one data type and the entries they yield; None where the walk of the data type raises. */
  function TypeWalk(hash: Digest, uid: Json, timestamp: int, information: Json, dataType: string): Option<(seq<(string, Json)>, seq<Entry>)> {
    match TypeGroups(information, dataType)
    case None => None
    case Some(groups) =>
      match TypeEntries(hash, uid, timestamp, groups)
      case None => None
      case Some(es) => Some((groups, es))
  }

  /** `self.data[data_type]` comes into being with the data type's first series. */
  function AddType(data: map<string, Buckets>, dataType: string, groups: seq<(string, Json)>, es: seq<Entry>): map<string, Buckets> {
    if |groups| == 0 then data else data[dataType := Bucketize(Keys(groups), es)]
  }

  /** The data types walked so far: the data map and the metadata list they leave. */
  function TypesFold(hash: Digest, uid: Json, timestamp: int, information: Json, dataTypes: seq<string>): Option<(map<string, Buckets>, seq<Source>)>
    decreases |dataTypes|
  {
    if |dataTypes| == 0 then Some((map[], []))
    else
      var dataType := dataTypes[|dataTypes| - 1];
      match TypesFold(hash, uid, timestamp, information, dataTypes[..|dataTypes| - 1])
      case None => None
      case Some((data, metadata)) =>
        match TypeWalk(hash, uid, timestamp, information, dataType)
        case None => None
        case Some((groups, es)) => Some((AddType(data, dataType, groups, es), metadata + SourcesOf(es)))
  }

  /** The agent metadata and the walk of a snapshot that passed validation. */
  function Accepted(hash: Digest, filename: string, information: Json): Option<Drain>
    requires WellFormed(information)
  {
    var fields := information.fields;
    assert "timestamp" in MetaKeys && "uid" in MetaKeys && "agent" in MetaKeys && "hostname" in MetaKeys;
    var timestamp := PyInt(Lookup(fields, "timestamp").value).value;
    var uid := Lookup(fields, "uid").value;
    match TypesFold(hash, uid, timestamp, information, DataTypes)
    case None => None
    case Some((data, metadata)) => Some(Drain(filename, true, AgentMeta(fields), data, metadata))
  }

  /** `self.agent_meta[key] = information[key]` for the four agent keys, in order. */
  function AgentMeta(fields: seq<(string, Json)>): seq<(string, Json)>
    requires HasKey(fields, "timestamp") && HasKey(fields, "uid") && HasKey(fields, "agent") && HasKey(fields, "hostname")
  {
    [("timestamp", Lookup(fields, "timestamp").value),
     ("uid", Lookup(fields, "uid").value),
     ("agent", Lookup(fields, "agent").value),
     ("hostname", Lookup(fields, "hostname").value)]
  }

  /** Each agent key is found in the copy under the value it has in the snapshot. */
  lemma AgentMetaLookup(fields: seq<(string, Json)>)
    requires HasKey(fields, "timestamp") && HasKey(fields, "uid") && HasKey(fields, "agent") && HasKey(fields, "hostname")
    ensures Lookup(AgentMeta(fields), "timestamp") == Lookup(fields, "timestamp")
    ensures Lookup(AgentMeta(fields), "uid") == Lookup(fields, "uid")
    ensures Lookup(AgentMeta(fields), "agent") == Lookup(fields, "agent")
    ensures Lookup(AgentMeta(fields), "hostname") == Lookup(fields, "hostname")
  {
    var meta := AgentMeta(fields);
    var m1, m2, m3 := meta[1..], meta[2..], meta[3..];
    assert m1[1..] == m2 && m2[1..] == m3;
    assert |"timestamp"| == 9 && |"uid"| == 3 && |"agent"| == 5 && |"hostname"| == 8;
    assert Lookup(m3, "hostname") == Lookup(fields, "hostname");
    assert Lookup(m2, "agent") == Lookup(fields, "agent");
    assert Lookup(m2, "hostname") == Lookup(fields, "hostname");
    assert Lookup(m1, "uid") == Lookup(fields, "uid");
  }

  /**
   * `Drain(filename)` for a file whose content is `content` (None when it
   * cannot be read or parsed). None is a constructor that raises.
   */
  function DrainOf(hash: Digest, filename: string, content: Option<Json>): Option<Drain> {
    match content
    case None => Some(Rejected(filename))
    case Some(information) =>
      match Validated(information)
      case None => None
      case Some(valid) =>
        if !valid then Some(Rejected(filename))
        else
          ValidatedIff(information);
          Accepted(hash, filename, information)
  }

  // ---------------------------------------------------------------------
  // The accessors.
  // ---------------------------------------------------------------------

  function Uid(d: Drain): Option<Json> {
    Lookup(d.agentMeta, "uid")
  }

  function Timestamp(d: Drain): Option<int> {
    match Lookup(d.agentMeta, "timestamp")
    case None => None
    case Some(t) => PyInt(t)
  }

  function AgentName(d: Drain): Option<Json> {
    Lookup(d.agentMeta, "agent")
  }

  function Hostname(d: Drain): Option<Json> {
    Lookup(d.agentMeta, "hostname")
  }

  /** `self.data['chartable'][base_type]` when present, [] otherwise. */
  function ChartableBucket(d: Drain, baseType: int): seq<Row> {
    if "chartable" in d.data then BucketRows(d.data["chartable"], baseType) else []
  }

  function Floating(d: Drain): seq<Row> {
    ChartableBucket(d, 1)
  }

  function Counter32(d: Drain): seq<Row> {
    ChartableBucket(d, 32)
  }

  function Counter64(d: Drain): seq<Row> {
    ChartableBucket(d, 64)
  }

  function Chartable(d: Drain): seq<Row> {
    Floating(d) + Counter32(d) + Counter64(d)
  }

  function Other(d: Drain): seq<Row> {
    if "other" in d.data then Flatten(d.data["other"]) else []
  }

  function Sources(d: Drain): seq<Source> {
    d.metadata
  }

  // ---------------------------------------------------------------------
  // Lemmas about the buckets.
  // ---------------------------------------------------------------------

  lemma RowsWithSnoc(es: seq<Entry>, e: Entry, baseType: int)
    ensures RowsWith(es + [e], baseType) == RowsWith(es, baseType) + (if e.baseType == baseType then [e.row] else [])
  {
    assert (es + [e])[..|es|] == es;
  }

  /** Filing one more entry appends its row to its own bucket and to no other. */
  lemma BucketizeSnoc(keys: seq<int>, es: seq<Entry>, e: Entry)
    ensures Bucketize(keys, es + [e]) == AddRow(Bucketize(keys, es), e.baseType, e.row)
  {
    var l, r := Bucketize(keys, es + [e]), AddRow(Bucketize(keys, es), e.baseType, e.row);
    forall i | 0 <= i < |keys| ensures l[i] == r[i] {
      RowsWithSnoc(es, e, keys[i]);
      assert l[i] == (keys[i], RowsWith(es + [e], keys[i]));
      assert Bucketize(keys, es)[i] == (keys[i], RowsWith(es, keys[i]));
      if keys[i] != e.baseType {
        assert RowsWith(es, keys[i]) + [] == RowsWith(es, keys[i]);
      }
    }
  }

  /** No entry is filed under a base type that is not a key. */
  predicate Keyed(keys: seq<int>, es: seq<Entry>) {
    forall i :: 0 <= i < |es| ==> es[i].baseType in keys
  }

  lemma {:induction false} RowsWithAbsent(es: seq<Entry>, baseType: int)
    requires forall i :: 0 <= i < |es| ==> es[i].baseType != baseType
    ensures RowsWith(es, baseType) == []
    decreases |es|
  {
    if |es| > 0 {
      RowsWithAbsent(es[..|es| - 1], baseType);
    }
  }

  /** Opening a bucket for a new base type adds an empty bucket at the end. */
  lemma BucketizeOpen(keys: seq<int>, es: seq<Entry>, baseType: int)
    requires Keyed(keys, es)
    ensures Open(Bucketize(keys, es), baseType) == Bucketize(AddKey(keys, baseType), es)
  {
    var b := Bucketize(keys, es);
    if baseType in keys {
      var i :| 0 <= i < |keys| && keys[i] == baseType;
      assert b[i].0 == baseType;
    } else {
      assert !HasBucket(b, baseType);
      RowsWithAbsent(es, baseType);
    }
  }

  /** The rows of a bucket are exactly the rows of the entries filed under it. */
  lemma BucketRowsOf(keys: seq<int>, es: seq<Entry>, baseType: int)
    requires Keyed(keys, es)
    ensures BucketRows(Bucketize(keys, es), baseType) == RowsWith(es, baseType)
  {
    if baseType in keys {
      BucketRowsSkip(keys, es, baseType);
    } else {
      RowsWithAbsent(es, baseType);
      BucketRowsAbsent(Bucketize(keys, es), baseType);
    }
  }

  lemma {:induction false} BucketRowsAbsent(b: Buckets, baseType: int)
    requires forall i :: 0 <= i < |b| ==> b[i].0 != baseType
    ensures BucketRows(b, baseType) == []
    decreases |b|
  {
    if |b| > 0 {
      BucketRowsAbsent(b[1..], baseType);
    }
  }

  /** BucketRows finds the first bucket with the key. */
  lemma {:induction false} BucketRowsFirst(b: Buckets, baseType: int, i: nat)
    requires i < |b| && b[i].0 == baseType
    requires forall j :: 0 <= j < i ==> b[j].0 != baseType
    ensures BucketRows(b, baseType) == b[i].1
    decreases i
  {
    if i > 0 {
      BucketRowsFirst(b[1..], baseType, i - 1);
    }
  }

  lemma BucketRowsSkip(keys: seq<int>, es: seq<Entry>, baseType: int)
    requires baseType in keys
    ensures BucketRows(Bucketize(keys, es), baseType) == RowsWith(es, baseType)
  {
    var i := FirstIndex(keys, baseType);
    BucketRowsFirst(Bucketize(keys, es), baseType, i);
  }

  /** The first position of `k` in `keys`. */
  lemma {:induction false} FirstIndex(keys: seq<int>, k: int) returns (i: nat)
    requires k in keys
    ensures i < |keys| && keys[i] == k
    ensures forall j :: 0 <= j < i ==> keys[j] != k
    decreases |keys|
  {
    if keys[0] == k {
      i := 0;
    } else {
      var i' := FirstIndex(keys[1..], k);
      i := i' + 1;
      forall j | 0 <= j < i ensures keys[j] != k {
        if j > 0 { assert keys[j] == keys[1..][j - 1]; }
      }
    }
  }

  lemma SourcesOfSnoc(es: seq<Entry>, e: Entry)
    ensures SourcesOf(es + [e]) == SourcesOf(es) + [e.source]
  {
  }

  // ---------------------------------------------------------------------
  // A raise ends the walk: once a prefix raises, the whole walk raises.
  // ---------------------------------------------------------------------

  lemma {:induction false} PointEntriesRaise(hash: Digest, uid: Json, timestamp: int, series: string, h: Header, datapoints: seq<Json>, k: nat)
    requires k <= |datapoints|
    requires PointEntries(hash, uid, timestamp, series, h, datapoints[..k]).None?
    ensures PointEntries(hash, uid, timestamp, series, h, datapoints).None?
    decreases |datapoints| - k
  {
    if k < |datapoints| {
      assert datapoints[..k + 1][..k] == datapoints[..k];
      PointEntriesRaise(hash, uid, timestamp, series, h, datapoints, k + 1);
    } else {
      assert datapoints[..k] == datapoints;
    }
  }

  lemma {:induction false} TypeEntriesRaise(hash: Digest, uid: Json, timestamp: int, groups: seq<(string, Json)>, k: nat)
    requires k <= |groups|
    requires TypeEntries(hash, uid, timestamp, groups[..k]).None?
    ensures TypeEntries(hash, uid, timestamp, groups).None?
    decreases |groups| - k
  {
    if k < |groups| {
      assert groups[..k + 1][..k] == groups[..k];
      TypeEntriesRaise(hash, uid, timestamp, groups, k + 1);
    } else {
      assert groups[..k] == groups;
    }
  }

  lemma {:induction false} TypesFoldRaise(hash: Digest, uid: Json, timestamp: int, information: Json, dataTypes: seq<string>, k: nat)
    requires k <= |dataTypes|
    requires TypesFold(hash, uid, timestamp, information, dataTypes[..k]).None?
    ensures TypesFold(hash, uid, timestamp, information, dataTypes).None?
    decreases |dataTypes| - k
  {
    if k < |dataTypes| {
      assert dataTypes[..k + 1][..k] == dataTypes[..k];
      TypesFoldRaise(hash, uid, timestamp, information, dataTypes, k + 1);
    } else {
      assert dataTypes[..k] == dataTypes;
    }
  }

  // ---------------------------------------------------------------------
  // The constructor's loops.
  // ---------------------------------------------------------------------

  /**
   * The `for datapoint in group['data']` loop of one series: every record
   * appends its row to the series' bucket and its tuple to the metadata,
   * and a record that cannot be indexed raises (None).
   */
  method CollectSeries(hash: Digest, uid: Json, timestamp: int, series: string, h: Header,
                       ghost keys: seq<int>, ghost es: seq<Entry>, buckets: Buckets, metadata: seq<Source>)
    returns (r: Option<(Buckets, seq<Source>)>)
    requires buckets == Bucketize(keys, es) && h.baseType in keys
    ensures r.None? <==> PointEntries(hash, uid, timestamp, series, h, h.datapoints).None?
    ensures r.Some? ==>
      var pe := PointEntries(hash, uid, timestamp, series, h, h.datapoints).value;
      r.value == (Bucketize(keys, es + pe), metadata + SourcesOf(pe))
  {
    var datapoints := h.datapoints;
    var b, m := buckets, metadata;
    ghost var pe: seq<Entry> := [];
    assert es + pe == es;
    var k := 0;
    while k < |datapoints|
      invariant 0 <= k <= |datapoints|
      invariant PointEntries(hash, uid, timestamp, series, h, datapoints[..k]) == Some(pe)
      invariant b == Bucketize(keys, es + pe)
      invariant m == metadata + SourcesOf(pe)
    {
      var datapoint := datapoints[k];
      var index := PyItem(datapoint, 0);
      var value := PyItem(datapoint, 1);
      var source := PyItem(datapoint, 2);
      if index.None? || value.None? || source.None? {
        assert datapoints[..k + 1][..k] == datapoints[..k];
        PointEntriesRaise(hash, uid, timestamp, series, h, datapoints, k + 1);
        return None;
      }
      var did := Did(hash, uid, series, index.value);
      var row := Row(uid, did, value.value, timestamp);
      var tuple := Source(uid, did, series, source.value, h.description, h.baseType);
      ghost var e := Entry(h.baseType, row, tuple);
      assert PointEntry(hash, uid, timestamp, series, h, datapoint) == Some(e);
      SeriesStep(hash, uid, timestamp, series, h, keys, es, pe, k, e);
      AppendAssoc(metadata, SourcesOf(pe), [tuple]);
      b := AddRow(b, h.baseType, row);
      m := m + [tuple];
      pe := pe + [e];
      k := k + 1;
    }
    assert datapoints[..k] == datapoints;
    r := Some((b, m));
  }

  /** One more record of a series: its entry joins the walk, its row its bucket, its tuple the metadata. */
  lemma SeriesStep(hash: Digest, uid: Json, timestamp: int, series: string, h: Header,
                   keys: seq<int>, es: seq<Entry>, pe: seq<Entry>, k: nat, e: Entry)
    requires k < |h.datapoints|
    requires PointEntries(hash, uid, timestamp, series, h, h.datapoints[..k]) == Some(pe)
    requires PointEntry(hash, uid, timestamp, series, h, h.datapoints[k]) == Some(e)
    ensures PointEntries(hash, uid, timestamp, series, h, h.datapoints[..k + 1]) == Some(pe + [e])
    ensures Bucketize(keys, es + (pe + [e])) == AddRow(Bucketize(keys, es + pe), e.baseType, e.row)
    ensures SourcesOf(pe + [e]) == SourcesOf(pe) + [e.source]
  {
    assert h.datapoints[..k + 1][..k] == h.datapoints[..k];
    BucketizeSnoc(keys, es + pe, e);
    AppendAssoc(es, pe, [e]);
    SourcesOfSnoc(pe, e);
  }

  lemma SourcesOfAppend(es: seq<Entry>, pe: seq<Entry>)
    ensures SourcesOf(es + pe) == SourcesOf(es) + SourcesOf(pe)
  {
  }

  /** A series raises exactly when one of its records cannot be indexed. */
  lemma {:induction false} PointEntriesSome(hash: Digest, uid: Json, timestamp: int, series: string, h: Header, datapoints: seq<Json>)
    ensures PointEntries(hash, uid, timestamp, series, h, datapoints).Some?
        <==> forall i :: 0 <= i < |datapoints| ==> PointEntry(hash, uid, timestamp, series, h, datapoints[i]).Some?
    decreases |datapoints|
  {
    if |datapoints| > 0 {
      var n := |datapoints| - 1;
      var prefix := datapoints[..n];
      PointEntriesSome(hash, uid, timestamp, series, h, prefix);
      assert forall i :: 0 <= i < n ==> prefix[i] == datapoints[i];
    }
  }

  /**
   * A series that does not raise yields one entry per record, in record
   * order, filed under the series' base type.
   */
  lemma {:induction false} PointEntriesValues(hash: Digest, uid: Json, timestamp: int, series: string, h: Header, datapoints: seq<Json>)
    requires PointEntries(hash, uid, timestamp, series, h, datapoints).Some?
    ensures
      var pe := PointEntries(hash, uid, timestamp, series, h, datapoints).value;
      && |pe| == |datapoints|
      && (forall i :: 0 <= i < |pe| ==> Some(pe[i]) == PointEntry(hash, uid, timestamp, series, h, datapoints[i]))
    decreases |datapoints|
  {
    if |datapoints| > 0 {
      var n := |datapoints| - 1;
      var prefix := datapoints[..n];
      PointEntriesValues(hash, uid, timestamp, series, h, prefix);
      var es := PointEntries(hash, uid, timestamp, series, h, prefix).value;
      var last := PointEntry(hash, uid, timestamp, series, h, datapoints[n]);
      var pe := PointEntries(hash, uid, timestamp, series, h, datapoints).value;
      assert pe == es + [last.value];
      forall i | 0 <= i < |pe| ensures Some(pe[i]) == PointEntry(hash, uid, timestamp, series, h, datapoints[i]) {
        if i < n {
          assert pe[i] == es[i] && prefix[i] == datapoints[i];
        } else {
          assert pe[i] == last.value;
        }
      }
    }
  }

  /** Every entry of a series is filed under the series' base type. */
  lemma GroupEntriesKeyed(hash: Digest, uid: Json, timestamp: int, series: string, group: Json)
    requires GroupEntries(hash, uid, timestamp, series, group).Some?
    ensures forall i :: 0 <= i < |GroupEntries(hash, uid, timestamp, series, group).value| ==>
      GroupEntries(hash, uid, timestamp, series, group).value[i].baseType == GroupBaseType(group)
  {
    var h := GroupHeader(group).value;
    PointEntriesValues(hash, uid, timestamp, series, h, h.datapoints);
  }

  /** One more series: its entries follow the earlier ones and its base type joins the keys. */
  lemma TypeStep(hash: Digest, uid: Json, timestamp: int, groups: seq<(string, Json)>, g: nat, es: seq<Entry>, pe: seq<Entry>)
    requires g < |groups|
    requires TypeEntries(hash, uid, timestamp, groups[..g]) == Some(es)
    requires Keyed(Keys(groups[..g]), es)
    requires GroupEntries(hash, uid, timestamp, groups[g].0, groups[g].1) == Some(pe)
    ensures TypeEntries(hash, uid, timestamp, groups[..g + 1]) == Some(es + pe)
    ensures Keys(groups[..g + 1]) == AddKey(Keys(groups[..g]), GroupBaseType(groups[g].1))
    ensures Keyed(Keys(groups[..g + 1]), es + pe)
  {
    assert groups[..g + 1][..g] == groups[..g];
    GroupEntriesKeyed(hash, uid, timestamp, groups[g].0, groups[g].1);
    var keys := AddKey(Keys(groups[..g]), GroupBaseType(groups[g].1));
    forall i | 0 <= i < |es + pe| ensures (es + pe)[i].baseType in keys {
      if i >= |es| {
        assert (es + pe)[i] == pe[i - |es|];
      }
    }
  }

  /** The last series of a data type that does not raise, and the entries it adds. */
  lemma TypeEntriesLast(hash: Digest, uid: Json, timestamp: int, groups: seq<(string, Json)>)
    requires |groups| > 0 && TypeEntries(hash, uid, timestamp, groups).Some?
    ensures TypeEntries(hash, uid, timestamp, groups[..|groups| - 1]).Some?
    ensures GroupEntries(hash, uid, timestamp, groups[|groups| - 1].0, groups[|groups| - 1].1).Some?
    ensures TypeEntries(hash, uid, timestamp, groups).value ==
      TypeEntries(hash, uid, timestamp, groups[..|groups| - 1]).value
      + GroupEntries(hash, uid, timestamp, groups[|groups| - 1].0, groups[|groups| - 1].1).value
  {
  }

  /** A series whose header or records raise makes the data type raise. */
  lemma TypeStepRaise(hash: Digest, uid: Json, timestamp: int, groups: seq<(string, Json)>, g: nat, es: seq<Entry>)
    requires g < |groups|
    requires TypeEntries(hash, uid, timestamp, groups[..g]) == Some(es)
    requires GroupEntries(hash, uid, timestamp, groups[g].0, groups[g].1).None?
    ensures TypeEntries(hash, uid, timestamp, groups).None?
  {
    assert groups[..g + 1][..g] == groups[..g];
    TypeEntriesRaise(hash, uid, timestamp, groups, g + 1);
  }

  /**
   * The body of the series loop: `_base_type`, `description`, the bucket
   * opened for the base type, then the records.
   */
  method CollectGroup(hash: Digest, uid: Json, timestamp: int, series: string, group: Json,
                      ghost keys: seq<int>, ghost es: seq<Entry>, buckets: Buckets, metadata: seq<Source>)
    returns (r: Option<(Buckets, seq<Source>)>)
    requires Keyed(keys, es) && buckets == Bucketize(keys, es)
    ensures r.None? <==> GroupEntries(hash, uid, timestamp, series, group).None?
    ensures r.Some? ==>
      var pe := GroupEntries(hash, uid, timestamp, series, group).value;
      r.value == (Bucketize(AddKey(keys, GroupBaseType(group)), es + pe), metadata + SourcesOf(pe))
  {
    var header := GroupHeader(group);
    if header.None? {
      return None;
    }
    var h := header.value;
    BucketizeOpen(keys, es, h.baseType);
    var b := buckets;
    if !HasBucket(b, h.baseType) {
      b := b + [(h.baseType, [])];
    }
    r := CollectSeries(hash, uid, timestamp, series, h, AddKey(keys, h.baseType), es, b, metadata);
  }

  /** The state of the series loop after the first `g` series of `groups`. */
  ghost predicate Walked(hash: Digest, uid: Json, timestamp: int, groups: seq<(string, Json)>, g: nat,
                         metadata: seq<Source>, es: seq<Entry>, b: Buckets, m: seq<Source>)
  {
    && g <= |groups|
    && TypeEntries(hash, uid, timestamp, groups[..g]) == Some(es)
    && Keyed(Keys(groups[..g]), es)
    && b == Bucketize(Keys(groups[..g]), es)
    && m == metadata + SourcesOf(es)
  }

  /** The series loop's state after one more series. */
  lemma WalkedStep(hash: Digest, uid: Json, timestamp: int, groups: seq<(string, Json)>, g: nat,
                   metadata: seq<Source>, es: seq<Entry>, b: Buckets, m: seq<Source>, pe: seq<Entry>, b': Buckets, m': seq<Source>)
    requires g < |groups| && Walked(hash, uid, timestamp, groups, g, metadata, es, b, m)
    requires GroupEntries(hash, uid, timestamp, groups[g].0, groups[g].1) == Some(pe)
    requires b' == Bucketize(AddKey(Keys(groups[..g]), GroupBaseType(groups[g].1)), es + pe)
    requires m' == m + SourcesOf(pe)
    ensures Walked(hash, uid, timestamp, groups, g + 1, metadata, es + pe, b', m')
  {
    TypeStep(hash, uid, timestamp, groups, g, es, pe);
    SourcesOfAppend(es, pe);
    AppendAssoc(metadata, SourcesOf(es), SourcesOf(pe));
  }

  lemma AppendAssoc<T>(a: seq<T>, b: seq<T>, c: seq<T>)
    ensures (a + b) + c == a + (b + c)
  {
  }

  /** One turn of the series loop. */
  method CollectNext(hash: Digest, uid: Json, timestamp: int, groups: seq<(string, Json)>, g: nat,
                     ghost metadata: seq<Source>, ghost es: seq<Entry>, b: Buckets, m: seq<Source>)
    returns (r: Option<(Buckets, seq<Source>)>, ghost es': seq<Entry>)
    requires g < |groups| && Walked(hash, uid, timestamp, groups, g, metadata, es, b, m)
    ensures r.None? ==> TypeEntries(hash, uid, timestamp, groups).None?
    ensures r.Some? ==> Walked(hash, uid, timestamp, groups, g + 1, metadata, es', r.value.0, r.value.1)
  {
    var series := groups[g].0;
    var group := groups[g].1;
    r := CollectGroup(hash, uid, timestamp, series, group, Keys(groups[..g]), es, b, m);
    if r.None? {
      TypeStepRaise(hash, uid, timestamp, groups, g, es);
      es' := es;
    } else {
      var pe := GroupEntries(hash, uid, timestamp, series, group).value;
      WalkedStep(hash, uid, timestamp, groups, g, metadata, es, b, m, pe, r.value.0, r.value.1);
      es' := es + pe;
    }
  }

  /**
   * The `for label, group in sorted(...)` loop of one data type: the buckets
   * it leaves hold, under each base type met, the rows of that base type's
   * records; the metadata grows by one tuple per record.
   */
  method CollectType(hash: Digest, uid: Json, timestamp: int, groups: seq<(string, Json)>, metadata: seq<Source>)
    returns (r: Option<(Buckets, seq<Source>)>)
    ensures r.None? <==> TypeEntries(hash, uid, timestamp, groups).None?
    ensures r.Some? ==>
      var es := TypeEntries(hash, uid, timestamp, groups).value;
      r.value == (Bucketize(Keys(groups), es), metadata + SourcesOf(es))
  {
    var b: Buckets := [];
    var m := metadata;
    ghost var es: seq<Entry> := [];
    var g := 0;
    while g < |groups|
      invariant Walked(hash, uid, timestamp, groups, g, metadata, es, b, m)
    {
      var next;
      next, es := CollectNext(hash, uid, timestamp, groups, g, metadata, es, b, m);
      if next.None? {
        return None;
      }
      b, m := next.value.0, next.value.1;
      g := g + 1;
    }
    assert groups[..g] == groups;
    r := Some((b, m));
  }

  /** One more data type walked. */
  lemma TypesStep(hash: Digest, uid: Json, timestamp: int, information: Json, t: nat,
                  data: map<string, Buckets>, metadata: seq<Source>, groups: seq<(string, Json)>, es: seq<Entry>)
    requires t < |DataTypes|
    requires TypesFold(hash, uid, timestamp, information, DataTypes[..t]) == Some((data, metadata))
    requires TypeGroups(information, DataTypes[t]) == Some(groups)
    requires TypeEntries(hash, uid, timestamp, groups) == Some(es)
    ensures TypesFold(hash, uid, timestamp, information, DataTypes[..t + 1]) ==
      Some((AddType(data, DataTypes[t], groups, es), metadata + SourcesOf(es)))
  {
    assert DataTypes[..t + 1][..t] == DataTypes[..t];
    assert TypeWalk(hash, uid, timestamp, information, DataTypes[t]) == Some((groups, es));
  }

  /** A data type whose series raise makes the constructor raise. */
  lemma TypesStepRaise(hash: Digest, uid: Json, timestamp: int, information: Json, t: nat,
                       data: map<string, Buckets>, metadata: seq<Source>)
    requires t < |DataTypes|
    requires TypesFold(hash, uid, timestamp, information, DataTypes[..t]) == Some((data, metadata))
    requires TypeGroups(information, DataTypes[t]).None?
      || TypeEntries(hash, uid, timestamp, TypeGroups(information, DataTypes[t]).value).None?
    ensures TypesFold(hash, uid, timestamp, information, DataTypes).None?
  {
    assert DataTypes[..t + 1][..t] == DataTypes[..t];
    TypesFoldRaise(hash, uid, timestamp, information, DataTypes, t + 1);
  }

  /** Accepted, read off the walk of the two data types. */
  lemma AcceptedOf(hash: Digest, filename: string, information: Json)
    requires WellFormed(information)
    ensures
      var fields := information.fields;
      assert "timestamp" in MetaKeys && "uid" in MetaKeys && "agent" in MetaKeys && "hostname" in MetaKeys;
      var timestamp := PyInt(Lookup(fields, "timestamp").value).value;
      var uid := Lookup(fields, "uid").value;
      Accepted(hash, filename, information) ==
        match TypesFold(hash, uid, timestamp, information, DataTypes)
        case None => None
        case Some((data, metadata)) => Some(Drain(filename, true, AgentMeta(fields), data, metadata))
  {
  }

  /** `for key in agent_meta_keys: self.agent_meta[key] = information[key]`. */
  method CopyAgentMeta(fields: seq<(string, Json)>) returns (agentMeta: seq<(string, Json)>)
    requires HasKey(fields, "timestamp") && HasKey(fields, "uid") && HasKey(fields, "agent") && HasKey(fields, "hostname")
    ensures agentMeta == AgentMeta(fields)
  {
    agentMeta := [];
    for k := 0 to |MetaKeys|
      invariant agentMeta == AgentMeta(fields)[..k]
    {
      agentMeta := agentMeta + [(MetaKeys[k], Lookup(fields, MetaKeys[k]).value)];
    }
  }

  /** One turn of the data-type loop: look the data type up, then walk its series. */
  method CollectNextType(hash: Digest, uid: Json, timestamp: int, information: Json, t: nat,
                         data: map<string, Buckets>, metadata: seq<Source>)
    returns (r: Option<(map<string, Buckets>, seq<Source>)>)
    requires t < |DataTypes|
    requires TypesFold(hash, uid, timestamp, information, DataTypes[..t]) == Some((data, metadata))
    ensures r.None? ==> TypesFold(hash, uid, timestamp, information, DataTypes).None?
    ensures r.Some? ==> TypesFold(hash, uid, timestamp, information, DataTypes[..t + 1]) == r
  {
    var dataType := DataTypes[t];
    var groups := TypeGroups(information, dataType);
    if groups.None? {
      TypesStepRaise(hash, uid, timestamp, information, t, data, metadata);
      return None;
    }
    var collected := CollectType(hash, uid, timestamp, groups.value, metadata);
    if collected.None? {
      TypesStepRaise(hash, uid, timestamp, information, t, data, metadata);
      return None;
    }
    TypesStep(hash, uid, timestamp, information, t, data, metadata, groups.value,
      TypeEntries(hash, uid, timestamp, groups.value).value);
    var data' := data;
    if |groups.value| > 0 {
      data' := data[dataType := collected.value.0];
    }
    r := Some((data', collected.value.1));
  }

  /** The `for data_type in data_types` loop. */
  method CollectTypes(hash: Digest, uid: Json, timestamp: int, information: Json)
    returns (r: Option<(map<string, Buckets>, seq<Source>)>)
    ensures r == TypesFold(hash, uid, timestamp, information, DataTypes)
  {
    var data: map<string, Buckets> := map[];
    var metadata: seq<Source> := [];
    var t := 0;
    while t < |DataTypes|
      invariant 0 <= t <= |DataTypes|
      invariant TypesFold(hash, uid, timestamp, information, DataTypes[..t]) == Some((data, metadata))
    {
      var next := CollectNextType(hash, uid, timestamp, information, t, data, metadata);
      if next.None? {
        return None;
      }
      data, metadata := next.value.0, next.value.1;
      t := t + 1;
    }
    assert DataTypes[..t] == DataTypes;
    r := Some((data, metadata));
  }

  /** The constructor past validation: the agent keys, then the two data types. */
  method Accept(hash: Digest, filename: string, information: Json) returns (r: Option<Drain>)
    requires WellFormed(information)
    ensures r == Accepted(hash, filename, information)
  {
    var fields := information.fields;
    assert "timestamp" in MetaKeys && "uid" in MetaKeys && "agent" in MetaKeys && "hostname" in MetaKeys;
    AcceptedOf(hash, filename, information);
    var agentMeta := CopyAgentMeta(fields);
    var timestamp := PyInt(Lookup(fields, "timestamp").value).value;
    var uid := Lookup(fields, "uid").value;
    var collected := CollectTypes(hash, uid, timestamp, information);
    if collected.None? {
      return None;
    }
    r := Some(Drain(filename, true, agentMeta, collected.value.0, collected.value.1));
  }

  /** `Drain(filename)`: read, validate, then walk a valid snapshot. */
  method NewDrain(hash: Digest, filename: string, content: Option<Json>) returns (r: Option<Drain>)
    ensures r == DrainOf(hash, filename, content)
  {
    if content.None? {
      return Some(Rejected(filename));
    }
    var information := content.value;
    var valid := Validate(information);
    if valid.None? {
      return None;
    }
    if !valid.value {
      return Some(Rejected(filename));
    }
    ValidatedIff(information);
    r := Accept(hash, filename, information);
  }

  // ---------------------------------------------------------------------
  // What a Drain holds.
  // ---------------------------------------------------------------------

  predicate Distinct(keys: seq<int>) {
    forall i, j :: 0 <= i < j < |keys| ==> keys[i] != keys[j]
  }

  /** The entries of a data type are filed under its keys, and each key is opened once. */
  lemma {:induction false} EntriesKeyed(hash: Digest, uid: Json, timestamp: int, groups: seq<(string, Json)>)
    requires TypeEntries(hash, uid, timestamp, groups).Some?
    ensures Keyed(Keys(groups), TypeEntries(hash, uid, timestamp, groups).value)
    ensures Distinct(Keys(groups))
    decreases |groups|
  {
    if |groups| > 0 {
      var n := |groups| - 1;
      var prefix := groups[..n];
      assert groups[..n + 1] == groups;
      EntriesKeyed(hash, uid, timestamp, prefix);
      var es := TypeEntries(hash, uid, timestamp, prefix).value;
      var pe := GroupEntries(hash, uid, timestamp, groups[n].0, groups[n].1).value;
      TypeStep(hash, uid, timestamp, groups, n, es, pe);
    }
  }

  lemma {:induction false} RowsWithMembers(es: seq<Entry>, baseType: int, row: Row)
    ensures row in RowsWith(es, baseType) <==> exists i :: 0 <= i < |es| && es[i].row == row && es[i].baseType == baseType
    decreases |es|
  {
    if |es| > 0 {
      var n := |es| - 1;
      RowsWithMembers(es[..n], baseType, row);
      assert forall i :: 0 <= i < n ==> es[..n][i] == es[i];
    }
  }

  /** The last data type of a walk that does not raise, and what it adds. */
  lemma TypesFoldLast(hash: Digest, uid: Json, timestamp: int, information: Json, dataTypes: seq<string>)
    requires |dataTypes| > 0 && TypesFold(hash, uid, timestamp, information, dataTypes).Some?
    ensures TypesFold(hash, uid, timestamp, information, dataTypes[..|dataTypes| - 1]).Some?
    ensures TypeWalk(hash, uid, timestamp, information, dataTypes[|dataTypes| - 1]).Some?
    ensures
      var (data, metadata) := TypesFold(hash, uid, timestamp, information, dataTypes[..|dataTypes| - 1]).value;
      var (groups, es) := TypeWalk(hash, uid, timestamp, information, dataTypes[|dataTypes| - 1]).value;
      TypesFold(hash, uid, timestamp, information, dataTypes).value ==
        (AddType(data, dataTypes[|dataTypes| - 1], groups, es), metadata + SourcesOf(es))
  {
  }

  /**
   * The walk of the two data types: 'chartable' enters the data map, then
   * 'other', each only when it has a series; the metadata holds the tuples
   * of the 'chartable' records, then those of the 'other' records.
   */
  lemma TypesFoldContents(hash: Digest, uid: Json, timestamp: int, information: Json)
    requires TypesFold(hash, uid, timestamp, information, DataTypes).Some?
    ensures TypeWalk(hash, uid, timestamp, information, "chartable").Some?
    ensures TypeWalk(hash, uid, timestamp, information, "other").Some?
    ensures
      var (gc, ec) := TypeWalk(hash, uid, timestamp, information, "chartable").value;
      var (go, eo) := TypeWalk(hash, uid, timestamp, information, "other").value;
      TypesFold(hash, uid, timestamp, information, DataTypes).value ==
        (AddType(AddType(map[], "chartable", gc, ec), "other", go, eo), SourcesOf(ec) + SourcesOf(eo))
  {
    var first := DataTypes[..1];
    assert DataTypes[..|DataTypes| - 1] == first && DataTypes[|DataTypes| - 1] == "other";
    assert first[..|first| - 1] == [] && first[|first| - 1] == "chartable";
    TypesFoldLast(hash, uid, timestamp, information, DataTypes);
    TypesFoldLast(hash, uid, timestamp, information, first);
    var (gc, ec) := TypeWalk(hash, uid, timestamp, information, "chartable").value;
    var (go, eo) := TypeWalk(hash, uid, timestamp, information, "other").value;
    assert TypesFold(hash, uid, timestamp, information, first).value == (AddType(map[], "chartable", gc, ec), [] + SourcesOf(ec));
    assert [] + SourcesOf(ec) == SourcesOf(ec);
  }
}
