/**
 * `_update_measurements` (infoset/cache/cache.py): the chartable rows of a
 * drained file are split into fresh ones, which are written to `iset_data`,
 * and stale ones, whose largest timestamp per datapoint is then written
 * back as that datapoint's `last_timestamp` — but only when at least one
 * fresh row was found.
 */
module Measurements {
  import opened Wrappers
  import opened Json
  import opened Ingest
  import opened Store

  /**
   * `timestamp_tracker`: datapoint index -> timestamp, in insertion order
   * (the order `items()` yields them).
   */
  type Tracker = seq<(int, int)>

  /** What the loop gathers: `data_list` and `timestamp_tracker`. */
  datatype Pass = Pass(written: seq<Measurement>, tracker: Tracker)

  /** The loop can handle the row: its did is mapped and `float(value)` succeeds. */
  predicate Usable(row: Row, mapping: map<string, DatapointRow>) {
    row.did in mapping && PyFloatable(row.value)
  }

  /** The row is newer than its datapoint's `last_timestamp`. */
  predicate Fresh(row: Row, mapping: map<string, DatapointRow>) {
    row.did in mapping && row.timestamp > mapping[row.did].lastTimestamp
  }

  /** The row is not newer than `last_timestamp` of its datapoint, whose index is `idx`. */
  predicate Stale(row: Row, mapping: map<string, DatapointRow>, idx: int) {
    row.did in mapping && mapping[row.did].idx == idx && row.timestamp <= mapping[row.did].lastTimestamp
  }

  /** The `iset_data` row a fresh row becomes. */
  function Written(row: Row, mapping: map<string, DatapointRow>): (m: Measurement)
    requires row.did in mapping
    ensures m.idxDatapoint == mapping[row.did].idx && m.idxAgent == mapping[row.did].idxAgent
    ensures m.value == row.value && m.timestamp == row.timestamp
  {
    var dp := mapping[row.did];
    Measurement(dp.idx, dp.idxAgent, row.value, row.timestamp)
  }

  /** `timestamp_tracker[idx]`, None where the index is not a key (the last entry for it wins). */
  function Lookup(tracker: Tracker, idx: int): Option<int>
    decreases |tracker|
  {
    if |tracker| == 0 then None
    else if tracker[|tracker| - 1].0 == idx then Some(tracker[|tracker| - 1].1)
    else Lookup(tracker[..|tracker| - 1], idx)
  }

  /** Every entry for `idx` gets the timestamp `timestamp`; the order is kept. */
  function Reset(tracker: Tracker, idx: int, timestamp: int): (r: Tracker)
    ensures |r| == |tracker|
    decreases |tracker|
  {
    if |tracker| == 0 then []
    else
      var last := tracker[|tracker| - 1];
      Reset(tracker[..|tracker| - 1], idx, timestamp) + [if last.0 == idx then (idx, timestamp) else last]
  }

  /** `timestamp_tracker[idx] = max(timestamp, timestamp_tracker[idx])`, or a new last entry. */
  function Track(tracker: Tracker, idx: int, timestamp: int): Tracker {
    match Lookup(tracker, idx)
    case None => tracker + [(idx, timestamp)]
    case Some(v) => Reset(tracker, idx, if timestamp > v then timestamp else v)
  }

  lemma {:induction false} LookupReset(tracker: Tracker, idx: int, timestamp: int, k: int)
    ensures Lookup(Reset(tracker, idx, timestamp), k) ==
      if k == idx && Lookup(tracker, idx).Some? then Some(timestamp) else Lookup(tracker, k)
    decreases |tracker|
  {
    if |tracker| > 0 {
      LookupReset(tracker[..|tracker| - 1], idx, timestamp, k);
    }
  }

  /** The entry of `idx` becomes the larger of the two timestamps; the other entries are kept. */
  lemma LookupTrack(tracker: Tracker, idx: int, timestamp: int, k: int)
    ensures Lookup(Track(tracker, idx, timestamp), k) ==
      if k != idx then Lookup(tracker, k)
      else if Lookup(tracker, idx).Some? && Lookup(tracker, idx).value > timestamp then Lookup(tracker, idx)
      else Some(timestamp)
  {
    var v := Lookup(tracker, idx);
    if v.None? {
      assert (tracker + [(idx, timestamp)])[..|tracker|] == tracker;
    } else {
      LookupReset(tracker, idx, if timestamp > v.value then timestamp else v.value, k);
    }
  }

  /** The loop over `ingest.chartable()`; None where `mapping[did]` or `float(value)` raises. */
  function Partition(rows: seq<Row>, mapping: map<string, DatapointRow>): Option<Pass>
    decreases |rows|
  {
    if |rows| == 0 then Some(Pass([], []))
    else
      match Partition(rows[..|rows| - 1], mapping)
      case None => None
      case Some(p) =>
        var row := rows[|rows| - 1];
        if !Usable(row, mapping) then None
        else if Fresh(row, mapping) then Some(p.(written := p.written + [Written(row, mapping)]))
        else Some(p.(tracker := Track(p.tracker, mapping[row.did].idx, row.timestamp)))
  }

  /** Every datapoint whose index the tracker holds gets the tracked timestamp. */
  function Stamp(dps: map<string, DatapointRow>, tracker: Tracker): (r: map<string, DatapointRow>)
    ensures r.Keys == dps.Keys
    ensures forall d :: d in dps ==>
      r[d] == match Lookup(tracker, dps[d].idx)
              case None => dps[d]
              case Some(ts) => dps[d].(lastTimestamp := ts)
  {
    map d | d in dps :: match Lookup(tracker, dps[d].idx)
                        case None => dps[d]
                        case Some(ts) => dps[d].(lastTimestamp := ts)
  }

  /**
   * The whole of `_update_measurements` on the tables: nothing is written
   * unless some row is fresh; otherwise the fresh rows are appended and the
   * tracked timestamps applied.
   */
  function Update(t: Tables, rows: seq<Row>): Option<Tables> {
    match Partition(rows, t.datapoints)
    case None => None
    case Some(p) =>
      if |p.written| == 0 then Some(t)
      else Some(t.(data := t.data + p.written, datapoints := Stamp(t.datapoints, p.tracker)))
  }

  /** No two enabled datapoints share a row index (`idx` is the table's key). */
  predicate UniqueIdx(dps: map<string, DatapointRow>) {
    forall d1, d2 :: d1 in dps && d2 in dps && dps[d1].idx == dps[d2].idx ==> d1 == d2
  }

  // ---------------------------------------------------------------------
  // What the loop gathers.
  // ---------------------------------------------------------------------

  lemma {:induction false} PartitionRaise(rows: seq<Row>, mapping: map<string, DatapointRow>, k: nat)
    requires k <= |rows|
    requires Partition(rows[..k], mapping).None?
    ensures Partition(rows, mapping).None?
    decreases |rows| - k
  {
    if k < |rows| {
      assert rows[..k + 1][..k] == rows[..k];
      PartitionRaise(rows, mapping, k + 1);
    } else {
      assert rows[..k] == rows;
    }
  }

  /** The loop raises exactly when some row's did is unmapped or its value is not a number. */
  lemma {:induction false} PartitionOk(rows: seq<Row>, mapping: map<string, DatapointRow>)
    ensures Partition(rows, mapping).Some? <==> forall i :: 0 <= i < |rows| ==> Usable(rows[i], mapping)
    decreases |rows|
  {
    if |rows| > 0 {
      var front := rows[..|rows| - 1];
      PartitionOk(front, mapping);
      assert forall i :: 0 <= i < |front| ==> front[i] == rows[i];
    }
  }

  /** Every fresh row is written, and everything written comes from a fresh row. */
  lemma {:induction false} PartitionWritten(rows: seq<Row>, mapping: map<string, DatapointRow>)
    requires Partition(rows, mapping).Some?
    ensures forall i :: 0 <= i < |rows| && Fresh(rows[i], mapping) ==>
      Written(rows[i], mapping) in Partition(rows, mapping).value.written
    ensures forall m :: m in Partition(rows, mapping).value.written ==>
      exists i :: 0 <= i < |rows| && Fresh(rows[i], mapping) && m == Written(rows[i], mapping)
    decreases |rows|
  {
    if |rows| > 0 {
      var front := rows[..|rows| - 1];
      PartitionWritten(front, mapping);
      assert forall i :: 0 <= i < |front| ==> front[i] == rows[i];
    }
  }

  /** The tracker holds an entry for an index exactly when some row of that datapoint is stale. */
  lemma {:induction false} TrackerKeys(rows: seq<Row>, mapping: map<string, DatapointRow>, idx: int)
    requires Partition(rows, mapping).Some?
    ensures Lookup(Partition(rows, mapping).value.tracker, idx).Some? <==>
      exists i :: 0 <= i < |rows| && Stale(rows[i], mapping, idx)
    decreases |rows|
  {
    if |rows| > 0 {
      var front := rows[..|rows| - 1];
      var row := rows[|rows| - 1];
      var p := Partition(front, mapping).value;
      TrackerKeys(front, mapping, idx);
      assert forall i :: 0 <= i < |front| ==> front[i] == rows[i];
      if !Fresh(row, mapping) {
        LookupTrack(p.tracker, mapping[row.did].idx, row.timestamp, idx);
      }
    }
  }

  /** An index's entry in the tracker is at least the timestamp of each of that datapoint's stale rows. */
  lemma {:induction false} TrackerBound(rows: seq<Row>, mapping: map<string, DatapointRow>, idx: int, i: nat)
    requires Partition(rows, mapping).Some?
    requires i < |rows| && Stale(rows[i], mapping, idx)
    ensures Lookup(Partition(rows, mapping).value.tracker, idx).Some?
    ensures rows[i].timestamp <= Lookup(Partition(rows, mapping).value.tracker, idx).value
    decreases |rows|
  {
    var front := rows[..|rows| - 1];
    var n := |rows| - 1;
    var row := rows[n];
    var p := Partition(front, mapping).value;
    if !Fresh(row, mapping) {
      LookupTrack(p.tracker, mapping[row.did].idx, row.timestamp, idx);
    }
    if i < n {
      assert front[i] == rows[i];
      TrackerBound(front, mapping, idx, i);
    }
  }

  /** An index's entry in the tracker is the timestamp of one of that datapoint's stale rows. */
  lemma {:induction false} TrackerAttained(rows: seq<Row>, mapping: map<string, DatapointRow>, idx: int) returns (i: nat)
    requires Partition(rows, mapping).Some?
    requires Lookup(Partition(rows, mapping).value.tracker, idx).Some?
    ensures i < |rows| && Stale(rows[i], mapping, idx)
    ensures rows[i].timestamp == Lookup(Partition(rows, mapping).value.tracker, idx).value
    decreases |rows|
  {
    var front := rows[..|rows| - 1];
    var n := |rows| - 1;
    var row := rows[n];
    var p := Partition(front, mapping).value;
    var before := Lookup(p.tracker, idx);
    if !Fresh(row, mapping) {
      LookupTrack(p.tracker, mapping[row.did].idx, row.timestamp, idx);
    }
    if Stale(row, mapping, idx) && (before.None? || before.value <= row.timestamp) {
      i := n;
    } else {
      i := TrackerAttained(front, mapping, idx);
      assert front[i] == rows[i];
    }
  }

  // ---------------------------------------------------------------------
  // What the update does to the tables.
  // ---------------------------------------------------------------------

  /** With no fresh row, nothing is gathered for writing. */
  lemma {:induction false} NoneFresh(rows: seq<Row>, mapping: map<string, DatapointRow>)
    requires Partition(rows, mapping).Some?
    requires forall i :: 0 <= i < |rows| ==> !Fresh(rows[i], mapping)
    ensures Partition(rows, mapping).value.written == []
    decreases |rows|
  {
    if |rows| > 0 {
      var front := rows[..|rows| - 1];
      assert forall i :: 0 <= i < |front| ==> front[i] == rows[i];
      NoneFresh(front, mapping);
    }
  }

  /** When no row is fresh, nothing is written: not even the tracked timestamps. */
  lemma NothingFresh(t: Tables, rows: seq<Row>)
    requires Partition(rows, t.datapoints).Some?
    requires forall i :: 0 <= i < |rows| ==> !Fresh(rows[i], t.datapoints)
    ensures Update(t, rows) == Some(t)
  {
    NoneFresh(rows, t.datapoints);
  }

  /**
   * `last_timestamp` never advances: the tracker only sees stale rows, whose
   * timestamps are at most the datapoint's `last_timestamp`. A fresh row
   * therefore stays fresh after the update, and draining the same rows again
   * writes them again.
   */
  lemma WatermarkNeverRises(t: Tables, rows: seq<Row>)
    requires UniqueIdx(t.datapoints)
    requires Update(t, rows).Some?
    ensures Update(t, rows).value.datapoints.Keys == t.datapoints.Keys
    ensures forall d :: d in t.datapoints ==>
      Update(t, rows).value.datapoints[d].lastTimestamp <= t.datapoints[d].lastTimestamp
    ensures forall i :: 0 <= i < |rows| && Fresh(rows[i], t.datapoints) ==>
      Fresh(rows[i], Update(t, rows).value.datapoints)
  {
    var dps := t.datapoints;
    var p := Partition(rows, dps).value;
    var after := Update(t, rows).value.datapoints;
    forall d | d in dps
      ensures after[d].lastTimestamp <= dps[d].lastTimestamp
    {
      if |p.written| > 0 && Lookup(p.tracker, dps[d].idx).Some? {
        var i := TrackerAttained(rows, dps, dps[d].idx);
        assert rows[i].did == d;
      }
    }
  }

  /** The update appends exactly the fresh rows' measurements and leaves the agents alone. */
  lemma UpdateWrites(t: Tables, rows: seq<Row>)
    requires Update(t, rows).Some?
    ensures Update(t, rows).value.agents == t.agents && Update(t, rows).value.nextIdx == t.nextIdx
    ensures |Update(t, rows).value.data| >= |t.data| && Update(t, rows).value.data[..|t.data|] == t.data
    ensures forall i :: 0 <= i < |rows| && Fresh(rows[i], t.datapoints) ==>
      Written(rows[i], t.datapoints) in Update(t, rows).value.data[|t.data|..]
    ensures forall m :: m in Update(t, rows).value.data[|t.data|..] ==>
      exists i :: 0 <= i < |rows| && Fresh(rows[i], t.datapoints) && m == Written(rows[i], t.datapoints)
  {
    PartitionWritten(rows, t.datapoints);
    var p := Partition(rows, t.datapoints).value;
    var u := Update(t, rows).value;
    if |p.written| > 0 {
      assert u.data[|t.data|..] == p.written;
    } else {
      assert u.data[|t.data|..] == [];
    }
  }

  /** The update adds no datapoint and removes none, and leaves the agents alone. */
  lemma UpdateKeys(t: Tables, rows: seq<Row>)
    requires Update(t, rows).Some?
    ensures Update(t, rows).value.agents == t.agents
    ensures forall d :: d in Update(t, rows).value.datapoints <==> d in t.datapoints
  {
  }

  /** Applying the tracker's entries one by one, in order, stamps with the tracker. */
  lemma StampStep(dps: map<string, DatapointRow>, done: Tracker, idx: int, ts: int)
    ensures SetLast(Stamp(dps, done), idx, ts) == Stamp(dps, done + [(idx, ts)])
  {
    assert (done + [(idx, ts)])[..|done|] == done;
  }

  // ---------------------------------------------------------------------
  // The procedure.
  // ---------------------------------------------------------------------

  /** The first loop: false where a row raises. */
  method Gather(rows: seq<Row>, mapping: map<string, DatapointRow>) returns (r: Option<Pass>)
    ensures r == Partition(rows, mapping)
  {
    var written: seq<Measurement> := [];
    var tracker: Tracker := [];
    var i := 0;
    while i < |rows|
      invariant 0 <= i <= |rows|
      invariant Partition(rows[..i], mapping) == Some(Pass(written, tracker))
    {
      var row := rows[i];
      assert rows[..i + 1][..i] == rows[..i];
      if row.did !in mapping || !PyFloatable(row.value) {
        PartitionRaise(rows, mapping, i + 1);
        return None;
      }
      var dp := mapping[row.did];
      if row.timestamp > dp.lastTimestamp {
        written := written + [Measurement(dp.idx, dp.idxAgent, row.value, row.timestamp)];
      } else {
        var seen := Lookup(tracker, dp.idx);
        if seen.Some? {
          tracker := Reset(tracker, dp.idx, if row.timestamp > seen.value then row.timestamp else seen.value);
        } else {
          tracker := tracker + [(dp.idx, row.timestamp)];
        }
      }
      i := i + 1;
    }
    assert rows[..i] == rows;
    r := Some(Pass(written, tracker));
  }

  /** `_update_measurements(ingest, config)` on the drained file's chartable rows. */
  method UpdateMeasurements(db: Database, rows: seq<Row>) returns (ok: bool)
    modifies db
    ensures ok <==> Update(old(db.State()), rows).Some?
    ensures db.State() == if ok then Update(old(db.State()), rows).value else old(db.State())
  {
    var mapping := db.datapoints;
    var gathered := Gather(rows, mapping);
    if gathered.None? {
      return false;
    }
    var written, tracker := gathered.value.written, gathered.value.tracker;
    ok := true;
    if |written| == 0 {
      return;
    }
    db.Write(written);
    ApplyTracker(db, tracker);
  }

  /** The `for idx_datapoint, last_timestamp in timestamp_tracker.items()` loop. */
  method ApplyTracker(db: Database, tracker: Tracker)
    modifies db
    ensures db.State() == old(db.State()).(datapoints := Stamp(old(db.datapoints), tracker))
  {
    ghost var start := db.State();
    var i := 0;
    while i < |tracker|
      invariant 0 <= i <= |tracker|
      invariant db.State() == start.(datapoints := Stamp(start.datapoints, tracker[..i]))
    {
      var (idx, ts) := tracker[i];
      db.SetLastTimestamp(idx, ts);
      StampStep(start.datapoints, tracker[..i], idx, ts);
      assert tracker[..i + 1] == tracker[..i] + [(idx, ts)];
      i := i + 1;
    }
    assert tracker[..i] == tracker;
  }
}
