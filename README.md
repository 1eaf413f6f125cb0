# infoset cache ingestion and SNMP translation, modelled in Dafny

This project models the core of infoset, a collector of device telemetry.
Agents write one JSON snapshot per poll into a cache directory. The file is
named `<timestamp>_<uid>.json`.

The cache process (`infoset/cache/cache.py`) does three things:

- **Scan.** It scans the directory. It keeps the names that match its
  pattern and are at least 15 seconds old, and groups them by device uid.
- **Drain.** It hands each device's batch to a `FillDB` worker. The worker
  drains the files in timestamp order.
- **Per file.** For each file:
  - `Drain` reads and validates the snapshot and flattens its `chartable`
    and `other` series into rows and metadata tuples;
  - an invalid file goes to the failures directory;
  - a file whose uid or timestamp disagrees with its name is skipped;
  - otherwise the device's agent row and every unseen datapoint are
    inserted, and `_update_measurements` writes the rows newer than each
    datapoint's `last_timestamp`;
  - the file is then deleted.

Next to this core, the model covers:

- the SNMP helpers that build part of the snapshots:
  - the `cleanstring` text normaliser;
  - the key normalisation and pivot of the Sentry3 agent;
  - the neighbour tables of IP-MIB, IPv6-MIB and CISCO-IETF-IP-MIB;
- the translator that annotates the Ethernet ports of a device's YAML file
  with VLAN, trunk and duplex attributes (`lib/getdata/files/xlate_snmp.py`).

How the model is built:

- **Values.** The parsed JSON and YAML are a `Json` datatype. A dict keeps its
  insertion order: `seq<(string, Json)>` or `Dict<V>`.
- **Exceptions.** Every Python operation that can raise answers an
  `Option`, where `None` is the exception.
- **Pure code and loops.** Pure code is written as functions. Every loop of
  the source is a method with invariants, proved equal to its function.
- **Objects.** The objects the source updates in place are classes:
  - the database tables (`Store.Database`);
  - the spool directory and the worker (`BatchLoop.Spool`,
    `BatchLoop.FillDB`);
  - the translator (`Xlate.Translator`).
- **Parameters.** The SHA-256 digest behind `_did` and
  `jm_general.validate_timestamp` are function-typed parameters (`hash`,
  `validTs`). So are the directory listing with file ages and the SNMP walk
  results.

Where the written behaviour of the code differs from what a reader of its
documentation would expect, the model follows the code, and lemmas exhibit
the difference:

- **The watermark does not rise.** `last_timestamp` is only fed from
  records that were *not* written, and the tracked timestamps are applied
  only when something was written. So a datapoint's `last_timestamp` never
  rises, and replaying a file submits its rows to `iset_data` again
  (`Measurements.WatermarkNeverRises`).
- **The filename pattern is loose.** `^\d+_[0-9a-f]+.json` has an unescaped
  `.` and no end anchor:
  - `<ts>_<hex>Xjson` matches;
  - `<ts>_<hex>.jsonx` matches;
  - `<ts>_<hex>.json.bak` matches and then makes the scan raise.
- **The datapoint id has no separators.** The id is the digest of uid,
  label and index run together, so `("ab", "c", 1)` and `("a", "bc", 1)`
  share one (`Identifiers.DidCollides`).
- **The float check tests the series label.** `_validated` checks that
  a record's value converts with `float()` only in a series whose own label
  is `chartable`, not in the series of the `chartable` data type
  (`Validation.ValidatedIff`).
- **`sorted()` orders strings, not numbers.** The Sentry3 keys are
  therefore in string order: `1.10` comes before `1.2`.

## Model

| member | source | states |
|---|---|---|
| `Strings.SplitPartsFree` | infoset/cache/cache.py:871-873 | no part that `split(sep)` produces contains the separator |
| `Strings.JoinSplit` | infoset/cache/cache.py:871-873 | joining the parts of a split with the separator restores the string |
| `Strings.SplitJoin` | infoset/snmp/mib_ipv6.py:108 | splitting the join of separator-free parts gives the parts back |
| `Strings.LastN` | infoset/snmp/mib_ip.py:116-117 | Python's `s[-n:]`: the last `n` items, or all of them when there are fewer or when `n` is 0 |
| `Strings.IntStringRoundTrip` | infoset/cache/cache.py:871-874 | `int(str(n)) == n` for every integer |
| `Strings.DigitsParse` | infoset/cache/cache.py:874 | `int()` of a string of decimal digits is its value |
| `Sorting.SortByKeySorted` | infoset/cache/cache.py:99 | `sorted(d.items())` over distinct keys is in ascending key order |
| `Sorting.SortByKeyMembers` | infoset/cache/cache.py:99 | the sorted items are exactly the items of the dict |
| `Sorting.SortByKeyStrict` | infoset.old/lib/getdata/snmp/mib_ciscoietfip.py:107 | sorting items with distinct keys gives strictly increasing keys |
| `Sorting.SortTuplesSorted` | infoset/cache/cache.py:407 | `metadata.sort()` orders `(timestamp, path)` pairs lexicographically |
| `Json.PyGet` | infoset/cache/cache.py:88-90 | `j[key]` succeeds exactly on a dict that holds the key |
| `Json.PyIn` | infoset/cache/cache.py:768-770 | `key in j` raises exactly on anything but a dict, a list or a str, and on a dict tells whether the key is present |
| `Json.PyLen` | infoset/cache/cache.py:797 | `len(j)` is defined exactly for str, list and dict |
| `Json.PyItem` | infoset/cache/cache.py:110-112 | `j[i]` is defined exactly for an in-range index of a list or str, and never on a dict |
| `Identifiers.DidAgreement` | infoset/cache/cache.py:711-714 | under a digest without collisions, two (uid, label, index) triples share a datapoint id exactly when their `%s%s%s` texts agree |
| `Identifiers.DidCollides` | infoset/cache/cache.py:711-714 | two different triples share an id whatever the digest is |
| `Identifiers.BaseType` | infoset/cache/cache.py:720-747 | `_base_type` returns one of 0, 1, 32 or 64, and raises only on a truthy non-str |
| `Identifiers.BaseTypeNames` | infoset/cache/cache.py:737-744 | "floating", "counter32" and "counter64" select 1, 32 and 64 in any letter case, and no other text does |
| `Identifiers.BaseTypeOfFalsy` | infoset/cache/cache.py:731-732 | a falsy base type (null, "", false, 0) gives 0 |
| `Validation.AllMeaning` | infoset/cache/cache.py:783-806 | the chained checks raise iff one check raises, and hold iff every check holds |
| `Validation.KeysTrue` | infoset/cache/cache.py:768-770 | over a dict, the key loop holds iff every key is present |
| `Validation.GroupsAllTrue` | infoset/cache/cache.py:789 | iterating the series in sorted order does not change whether all of them pass |
| `Validation.ValidatedIff` | infoset/cache/cache.py:750-816 | a snapshot is valid exactly when it is an object holding timestamp, uid, agent and hostname whose timestamp converts with `int()`, and each of 'chartable' and 'other' that is present is an object whose every series holds base_type, description and data, every record of the data has exactly three items, and, in a series whose own label is 'chartable', every record's second item converts with `float()` |
| `Validation.MissingDataRaises` | infoset/cache/cache.py:796 | a series object without 'data' anywhere under 'chartable' or 'other' makes `_validated` raise instead of returning False, whatever the rest of the snapshot holds |
| `Validation.MissingMetaKeyNotValid` | infoset/cache/cache.py:768-770 | an object missing one of the four agent keys never validates |
| `Validation.CheckKeys` | infoset/cache/cache.py:768-770 | the key loop computes the key checks of the model |
| `Validation.CheckRecords` | infoset/cache/cache.py:796-806 | the record loop computes the record checks |
| `Validation.CheckGroup` | infoset/cache/cache.py:791-806 | one series: its keys, then its records |
| `Validation.CheckGroups` | infoset/cache/cache.py:789-806 | the loop over the sorted series of one data type |
| `Validation.CheckTypes` | infoset/cache/cache.py:783-806 | the loop over the two data types |
| `Validation.Validate` | infoset/cache/cache.py:750-816 | the loops of `_validated` compute `Validated`, whose meaning `ValidatedIff` states |
| `Ingest.AgentMetaLookup` | infoset/cache/cache.py:87-88 | each agent key is found in `agent_meta` under its value in the snapshot |
| `Ingest.BucketizeSnoc` | infoset/cache/cache.py:116-118 | appending a row reaches its own base type's bucket and no other |
| `Ingest.BucketRowsOf` | infoset/cache/cache.py:105-118 | a bucket holds exactly the rows of the entries filed under its base type, in order |
| `Ingest.PointEntriesSome` | infoset/cache/cache.py:109-123 | a series raises exactly when one of its records cannot be indexed |
| `Ingest.PointEntriesValues` | infoset/cache/cache.py:109-123 | a series that does not raise yields exactly one entry per record, in record order |
| `Ingest.GroupEntriesKeyed` | infoset/cache/cache.py:101-118 | every entry of a series is filed under the series' base type |
| `Ingest.TypeStepRaise` | infoset/cache/cache.py:99-123 | a series whose header or records raise makes the data type raise |
| `Ingest.TypesStepRaise` | infoset/cache/cache.py:93-123 | a data type whose series raise makes the constructor raise |
| `Ingest.EntriesKeyed` | infoset/cache/cache.py:99-118 | the entries of a data type are filed under its base types, and each bucket is opened once |
| `Ingest.TypesFoldContents` | infoset/cache/cache.py:93-123 | 'chartable' and then 'other' enter the data when present; the metadata holds the tuples of the 'chartable' records, then those of the 'other' records |
| `Ingest.CollectSeries` | infoset/cache/cache.py:109-123 | the record loop appends each record's row to its bucket and its tuple to the metadata, and stops where a record cannot be indexed |
| `Ingest.CollectGroup` | infoset/cache/cache.py:101-123 | one series: `_base_type`, the description, its bucket opened, then its records |
| `Ingest.CollectType` | infoset/cache/cache.py:99-123 | the series loop of a data type builds that type's buckets and metadata as `TypeEntries` does |
| `Ingest.CopyAgentMeta` | infoset/cache/cache.py:87-88 | the copy of the four agent keys |
| `Ingest.CollectTypes` | infoset/cache/cache.py:93-123 | the data-type loop walks 'chartable' then 'other' |
| `Ingest.Accept` | infoset/cache/cache.py:86-123 | the constructor past validation: the agent keys, then both data types |
| `Ingest.NewDrain` | infoset/cache/cache.py:45-123 | `Drain(filename)`: read and validate, then walk a valid snapshot; None where the constructor raises |
| `DrainFacts.FlattenBucketize` | infoset/cache/cache.py:322-325 | with distinct keys covering every entry, the flattened buckets hold each entry's row exactly once |
| `DrainFacts.AcceptedWalk` | infoset/cache/cache.py:86-123 | the drain of a valid snapshot is the walk of its two data types |
| `DrainFacts.AcceptedAgent` | infoset/cache/cache.py:141-203 | `uid()`, `timestamp()`, `agent()` and `hostname()` of a valid drain return the snapshot's values, the timestamp through `int()` |
| `DrainFacts.AcceptedChartable` | infoset/cache/cache.py:205-303 | `floating()`, `counter32()` and `counter64()` return the rows of the 'chartable' records of base type 1, 32 and 64, in record order; `chartable()` is the three one after the other |
| `DrainFacts.ChartableMembers` | infoset/cache/cache.py:280-303 | a row is charted exactly when it comes from a 'chartable' record of base type 1, 32 or 64 |
| `DrainFacts.AcceptedOther` | infoset/cache/cache.py:305-326 | `other()` returns each 'other' record's row exactly once, whatever its base type |
| `DrainFacts.ChartableRegistered` | infoset/cache/cache.py:328-348 | every charted row carries the snapshot's uid and timestamp, and `sources()` holds a tuple with the same uid and id |
| `DrainFacts.IngestValid` | infoset/cache/cache.py:125-139 | `valid()` is true exactly for a file that was read and validated; an unread or invalid file yields empty lists and raising agent accessors |
| `DrainFacts.IngestRaises` | infoset/cache/cache.py:45-123 | `Drain(filename)` raises exactly when `_validated` raises on the content, or the snapshot is valid and one of its series has a base type that is truthy and not a str or a record that cannot be indexed (a dict of three keys) |
| `DrainFacts.ValidDrainAccepted` | infoset/cache/cache.py:67-123 | a valid drain comes from a valid snapshot walked by `Accepted` |
| `DrainFacts.SourcesOwned` | infoset/cache/cache.py:121-123 | every metadata tuple carries the snapshot's uid |
| `DrainFacts.ValidDrain` | infoset/cache/cache.py:45-348 | in a valid drain the agent accessors do not raise, every tuple carries the file's uid, and every charted row's id is announced by a tuple |
| `Store.AddAgent` | infoset/cache/cache.py:575-596 | `_insert_agent` adds a row with the next index and the `%s` texts of name and hostname, and changes nothing else |
| `Store.AddDatapoint` | infoset/cache/cache.py:538-572 | `_insert_datapoint` raises exactly when the uid has no agent row; otherwise it adds the datapoint under its id with the agent's index, label, source, base type and a zero `last_timestamp`, and changes nothing else |
| `Store.SetLast` | infoset/cache/cache.py:526-530 | the `UPDATE` sets `last_timestamp` on the rows with that index and leaves every other row |
| `Store.Database.InsertAgent` | infoset/cache/cache.py:575-596 | the database after `_insert_agent` |
| `Store.Database.InsertDatapoint` | infoset/cache/cache.py:538-572 | the database after `_insert_datapoint`, unchanged where it raises |
| `Store.Database.Write` | infoset/cache/cache.py:514-521 | `REPLACE INTO iset_data` appends the rows |
| `Store.Database.SetLastTimestamp` | infoset/cache/cache.py:526-530 | the database after one `UPDATE iset_datapoint` |
| `Measurements.Written` | infoset/cache/cache.py:498-502 | a fresh row is written with its datapoint's index and agent index, its value and its timestamp |
| `Measurements.LookupTrack` | infoset/cache/cache.py:505-509 | the tracker entry of an index becomes the larger of the old entry and the new timestamp, and other entries stay |
| `Measurements.Stamp` | infoset/cache/cache.py:524-530 | every datapoint whose index the tracker holds gets the tracked timestamp; the others keep theirs |
| `Measurements.PartitionOk` | infoset/cache/cache.py:488-494 | the loop raises exactly when a row's id is unmapped or its value is not a number |
| `Measurements.PartitionWritten` | infoset/cache/cache.py:498-502 | every fresh row is gathered for writing, and everything gathered comes from a fresh row |
| `Measurements.TrackerKeys` | infoset/cache/cache.py:498-509 | the tracker holds an index exactly when some row of that datapoint is stale |
| `Measurements.TrackerBound` | infoset/cache/cache.py:505-509 | the tracked timestamp of an index is at least that of each stale row of the datapoint |
| `Measurements.TrackerAttained` | infoset/cache/cache.py:505-509 | the tracked timestamp of an index is that of one stale row of the datapoint |
| `Measurements.NothingFresh` | infoset/cache/cache.py:512-530 | with no fresh row the database is left unchanged, tracked timestamps included |
| `Measurements.WatermarkNeverRises` | infoset/cache/cache.py:488-530 | no `last_timestamp` ever increases, so every fresh row is still fresh after the update |
| `Measurements.UpdateWrites` | infoset/cache/cache.py:488-530 | the update appends exactly the fresh rows' measurements and leaves the agents alone |
| `Measurements.UpdateKeys` | infoset/cache/cache.py:468-535 | the update adds or removes no datapoint |
| `Measurements.StampStep` | infoset/cache/cache.py:524-530 | applying the tracker's entries one at a time, in order, stamps with the whole tracker |
| `Measurements.Gather` | infoset/cache/cache.py:488-509 | the first loop computes the written rows and the tracker, or fails where a row raises |
| `Measurements.UpdateMeasurements` | infoset/cache/cache.py:468-535 | `_update_measurements` leaves the database as `Update` says, unchanged where it raises |
| `Measurements.ApplyTracker` | infoset/cache/cache.py:524-530 | the tracker loop stamps the datapoints with the tracker |
| `BatchLoop.RegisterFrame` | infoset/cache/cache.py:451-456 | registration touches only the datapoint list and table, and only appends to the list |
| `BatchLoop.RegisterNoDup` | infoset/cache/cache.py:451-456 | an id is listed at most once |
| `BatchLoop.RegisterSynced` | infoset/cache/cache.py:451-456 | every listed id has its row in the datapoint table |
| `BatchLoop.RegisterListed` | infoset/cache/cache.py:451-456 | after a registration that did not raise, every id of the tuples is listed |
| `BatchLoop.RegisterOk` | infoset/cache/cache.py:451-456 | registration raises only for a tuple whose agent has no row |
| `BatchLoop.AdmitFacts` | infoset/cache/cache.py:440-448 | the agent insertion lists the uid once and gives it a row, changing nothing else |
| `BatchLoop.LoadFacts` | infoset/cache/cache.py:451-462 | registration, writing and deletion keep the lists growing, duplicate-free and backed by the tables |
| `BatchLoop.StepFacts` | infoset/cache/cache.py:413-462 | each file only appends to the shared lists, never lists an entry twice, keeps every listed entry backed by a row, and never takes a file out of the failures directory |
| `BatchLoop.VisitInvalid` | infoset/cache/cache.py:417-424 | an invalid file is moved to the failures directory and nothing else changes; the move raises when it cannot be made |
| `BatchLoop.VisitMismatch` | infoset/cache/cache.py:431-437 | a valid file whose uid or timestamp disagrees with its name, or whose timestamp is refused, is left alone |
| `BatchLoop.VisitStored` | infoset/cache/cache.py:440-462 | after a valid, matching file, its uid and every id of its tuples are listed and the file is gone |
| `BatchLoop.LoadCrash` | infoset/cache/cache.py:451-459 | registration, writing and deletion raise only on a charted value `float()` rejects |
| `BatchLoop.VisitCrash` | infoset/cache/cache.py:431-462 | a valid matching file whose tuples carry its uid and announce every charted id raises only on a charted value `float()` rejects |
| `BatchLoop.StepCrash` | infoset/cache/cache.py:413-462 | with the lists backed by the tables, a file raises only in the constructor, in the move of an invalid file, or on a non-numeric charted value |
| `BatchLoop.RunFacts` | infoset/cache/cache.py:407-462 | the whole batch keeps the lists duplicate-free and backed by the tables, and the failures only grow |
| `BatchLoop.BatchOrder` | infoset/cache/cache.py:407 | the batch is drained in `(timestamp, path)` order, so two listings of the same files give the same run whatever order they were listed in |
| `BatchLoop.Spool.Read` | infoset/cache/cache.py:67-71 | `json.load` yields the file's content, None when it is missing or not JSON |
| `BatchLoop.Spool.Move` | infoset/cache/cache.py:423-424 | `shutil.move` succeeds exactly when the file exists and its name is free in the failures directory |
| `BatchLoop.Spool.Remove` | infoset/cache/cache.py:350-379 | `purge()` deletes the file, and a missing file is not an error |
| `BatchLoop.FillDB.RegisterSources` | infoset/cache/cache.py:451-456 | the sources loop leaves the worker as `Register` says |
| `BatchLoop.FillDB.AdmitAgent` | infoset/cache/cache.py:440-448 | the agent block leaves the worker as `Admit` says |
| `BatchLoop.FillDB.LoadDrain` | infoset/cache/cache.py:451-462 | register, write the measurements, delete the file |
| `BatchLoop.FillDB.ProcessDrain` | infoset/cache/cache.py:417-462 | the handling of one built drain |
| `BatchLoop.FillDB.ProcessFile` | infoset/cache/cache.py:411-462 | one iteration of the file loop |
| `BatchLoop.FillDB.Run` | infoset/cache/cache.py:395-465 | `run` for one batch: the sort, then the files in order, stopping at the first raise |
| `Scanner.MatchesIff` | infoset/cache/cache.py:836 | the matcher accepts exactly the names `^\d+_[0-9a-f]+.json` matches |
| `Scanner.ParseName` | infoset/cache/cache.py:871-874 | `<tstamp>_<uid>.<ext>` with no other `.` or `_` is taken apart into its timestamp and uid |
| `Scanner.ParseShape` | infoset/cache/cache.py:871-874 | every name the unpacking accepts has that form |
| `Scanner.AgentNameRoundTrip` | infoset/cache/cache.py:871-874 | the name `<timestamp>_<uid>.json` gives the timestamp and uid back |
| `Scanner.MatchedTimestamp` | infoset/cache/cache.py:836-874 | for a matching name, the timestamp is the number the name starts with |
| `Scanner.AgentNameMatches` | infoset/cache/cache.py:836-874 | `<timestamp>_<hex digest>.json` matches and gives the timestamp and digest back |
| `Scanner.DotTakesAnyCharacter` | infoset/cache/cache.py:836 | any character but a newline stands in for the `.`, and the uid then runs on past the digest |
| `Scanner.NoEndAnchor` | infoset/cache/cache.py:836 | a name that goes on after `json` matches |
| `Scanner.SecondDotRaises` | infoset/cache/cache.py:836-872 | `<timestamp>_<digest>.json.bak` matches, then its unpacking raises and ends the scan |
| `Scanner.PathJoinInjective` | infoset/cache/cache.py:862 | within one directory, different names give different paths |
| `Scanner.CollectOk` | infoset/cache/cache.py:858-878 | the scan raises exactly when a kept file has a name the unpacking rejects |
| `Scanner.CollectSound` | infoset/cache/cache.py:858-878 | every item of every batch comes from a kept file under the uid in its name |
| `Scanner.CollectComplete` | infoset/cache/cache.py:858-878 | every kept file, matching and at least 15 seconds old, lands in the batch of its uid |
| `Scanner.ScanUnique` | infoset/cache/cache.py:858-878 | no file lands in two batches |
| `Scanner.Scan` | infoset/cache/cache.py:858-878 | the filename loop builds the batches as `Collect` says |
| `Scanner.Take` | infoset/cache/cache.py:860-878 | one file filed under its uid |
| `Scanner.Queue` | infoset/cache/cache.py:881-896 | one queued batch per uid, in the order the uids were first met |
| `Scanner.DrainAllFacts` | infoset/cache/cache.py:881-896 | draining every batch keeps the shared lists duplicate-free and backed by the tables |
| `Scanner.Process` | infoset/cache/cache.py:819-906 | `process`: the scan, then every batch drained; false where the scan raises |
| `CleanString.Prepared` | infoset/utils/jm_general.py:241 | the prepared text holds no line feed and no carriage return |
| `CleanString.Words` | infoset/utils/jm_general.py:242 | `split()` yields non-empty words without whitespace |
| `CleanString.WordsOfJoin` | infoset/utils/jm_general.py:242-243 | splitting a join of words gives the words back |
| `CleanString.WordsStrip` | infoset/utils/jm_general.py:241-242 | `strip()` before `split()` changes nothing |
| `CleanString.WordsNone` | infoset/utils/jm_general.py:242 | a string has no words exactly when it is all whitespace |
| `CleanString.PreparedSpaces` | infoset/utils/jm_general.py:241 | the preparation keeps or deletes whitespace and keeps every other character |
| `CleanString.CleanFacts` | infoset/utils/jm_general.py:229-245 | the result has no line break, no outer whitespace and no two spaces in a row, and its words are those of the input with carriage returns deleted and line feeds as spaces |
| `CleanString.CleanIdempotent` | infoset/utils/jm_general.py:229-245 | cleaning a cleaned string changes nothing |
| `CleanString.CleanEmpty` | infoset/utils/jm_general.py:229-245 | the result is empty exactly when the input is empty or all whitespace |
| `CleanString.CarriageReturnMerges` | infoset/utils/jm_general.py:241 | a carriage return between two words is deleted, so they merge |
| `Dicts.PutFacts` | infoset/agents/standard/sentry3.py:171 | `d[k] = v` keeps keys distinct, stores `v` under `k`, and leaves every other key's item where and as it was |
| `Dicts.RekeyOk` | infoset/agents/standard/sentry3.py:168-171 | a `for key, value in items: d[f(key)] = g(value)` loop raises exactly when some item's new key raises |
| `Dicts.RekeyLastWins` | infoset/agents/standard/sentry3.py:168-171 | the value stored under a new key is that of the last item mapped to it |
| `Dicts.RekeyListed` | infoset/agents/standard/sentry3.py:168-171 | every stored item is the new key and value of some input item |
| `Dicts.RekeyKeys` | infoset/agents/standard/sentry3.py:168-171 | every new key the loop computes is a key of the result |
| `Dicts.RekeyEmpty` | infoset/snmp/mib_ip.py:86-93 | the loop leaves the dict empty exactly when there are no items |
| `Dicts.RekeyCopy` | infoset/snmp/mib_ip.py:86-93 | the copying loop reproduces a dict with distinct keys unchanged |
| `Dicts.Copy` | infoset/snmp/mib_ip.py:86-93 | the item-by-item copy of a table |
| `Sentry3.Normalized` | infoset/agents/standard/sentry3.py:153-181 | `_normalize_keys` raises exactly where the renumbering does, and otherwise its keys are 0 .. n-1 for the n entries of `intermediate` |
| `Sentry3.IntermediateOk` | infoset/agents/standard/sentry3.py:168-171 | the renumbering raises exactly when a key has fewer than two parts |
| `Sentry3.LastWins` | infoset/agents/standard/sentry3.py:168-171 | the value kept for a suffix is that of the last key with the suffix |
| `Sentry3.SuffixListed` | infoset/agents/standard/sentry3.py:168-171 | every suffix of a walk key is a key of `intermediate` |
| `Sentry3.NormalizedFacts` | infoset/agents/standard/sentry3.py:153-181 | the keys are 0 .. n-1 for the n distinct suffixes, and key i holds the value of the i-th suffix in string order |
| `Sentry3.NormalizedValue` | infoset/agents/standard/sentry3.py:153-181 | every value of the result is the value of some walk key |
| `Sentry3.StringOrder` | infoset/agents/standard/sentry3.py:174 | suffix `1.10` sorts before `1.2` |
| `Sentry3.Renumber` | infoset/agents/standard/sentry3.py:168-171 | the first loop fills `intermediate` |
| `Sentry3.Enumerate` | infoset/agents/standard/sentry3.py:174-176 | the second loop numbers the sorted values and counts them |
| `Sentry3.NormalizeKeys` | infoset/agents/standard/sentry3.py:153-181 | the two loops compute `Normalized`, with `count` its size |
| `Sentry3.PivotOk` | infoset/agents/standard/sentry3.py:137-140 | the pivot raises exactly when a reading has no infeed id |
| `Sentry3.PivotLast` | infoset/agents/standard/sentry3.py:137-140 | a reading lands under its infeed id unless a later reading has the same id |
| `Sentry3.PivotSource` | infoset/agents/standard/sentry3.py:137-140 | every source in the pivot is some reading's infeed id and holds that reading |
| `Sentry3.PivotLabel` | infoset/agents/standard/sentry3.py:138-140 | the loop for one label computes the pivot |
| `Sentry3.UploadOk` | infoset/agents/standard/sentry3.py:131-140 | `upload` raises exactly when a walk key is too short or a reading has no infeed id |
| `Sentry3.UploadPlaces` | infoset/agents/standard/sentry3.py:131-140 | a reading lands under its label and the infeed id of the same number, unless a later reading of the label has the same id |
| `Sentry3.UploadData` | infoset/agents/standard/sentry3.py:124-140 | `upload` up to posting: three walks normalised, then each label pivoted |
| `OidHex.HexlifyRoundTrip` | infoset/snmp/mib_ip.py:121 | the bytes come back from their `hexlify` text |
| `OidHex.MacFacts` | infoset/snmp/mib_ip.py:121-124 | the MAC text is the lowercase hexadecimal text of all the value's bytes, and gives them back |
| `OidHex.Mac12Facts` | infoset/snmp/mib_ip.py:147-148 | the IPv6 tables keep the first 12 hexadecimal digits: the text of the value's first six bytes |
| `OidHex.Mac12Lower` | infoset/snmp/mib_ip.py:171 | the MAC text is lower case already, so `.lower()` changes nothing |
| `OidHex.HexNode` | infoset/snmp/mib_ip.py:158-159 | converting one sub-identifier raises exactly when `int()` does |
| `OidHex.ZFill` | infoset/snmp/mib_ip.py:159 | `zfill(width)` gives a text of at least `width` characters and adds no character but `0` |
| `OidHex.HexOfValue` | infoset/snmp/mib_ip.py:158-159 | a number n >= 0 becomes at least two lowercase hexadecimal digits standing for n |
| `OidHex.HexOfByte` | infoset/snmp/mib_ip.py:158-159 | a number from 0 to 255 becomes exactly the two digits `hexlify` gives its byte |
| `OidHex.HexOfNegative` | infoset/snmp/mib_ip.py:158 | a negative number keeps the `x` of `-0x` |
| `OidHex.ConvertNodes` | infoset/snmp/mib_ip.py:153-159 | the append loop converts every sub-identifier, or raises at the first bad one |
| `OidHex.ConvertNode` | infoset/snmp/mib_ip.py:155-159 | the loop body for one sub-identifier |
| `OidHex.Pairs` | infoset/snmp/mib_ip.py:162-165 | one group per pair of items: group i is items 2i and 2i+1 run together, and an odd last item is dropped |
| `OidHex.PairUp` | infoset/snmp/mib_ip.py:162-165 | the stride-2 loop yields one group per pair of items, group i being items 2i and 2i+1 run together |
| `OidHex.AddressOf` | infoset/snmp/mib_ip.py:151-168 | an OID key's IPv6 address text |
| `OidHex.Ipv6Table` | infoset/snmp/mib_ip.py:129-174 | `ipnettophysicalphysaddress` (and the IPv6-MIB table) computes the table of MAC texts by address, None where it raises |
| `OidHex.Ipv6LastWins` | infoset/snmp/mib_ipv6.py:85-111 | the MAC stored for an address is that of the last walk item with that address |
| `OidHex.Ipv6TableEntries` | infoset/snmp/mib_ipv6.py:85-111 | every item is the address of some walk item and the text of its first six bytes |
| `OidHex.Ipv6Groups` | infoset/snmp/mib_ipv6.py:91-108 | the address has one group per pair of the last min(16, n) sub-identifiers; an odd last one must still be an int but is dropped |
| `OidHex.QuadsRoundTrip` | infoset/snmp/mib_ipv6.py:95-108 | groups of four digits joined by colons give their bytes back |
| `OidHex.Ipv6RoundTrip` | infoset/snmp/mib_ipv6.py:91-108 | an OID ending in 16 byte sub-identifiers gives eight colon-separated groups of four lowercase digits, from which the bytes come back |
| `MibIp.Supported` | infoset/snmp/mib_ip.py:56-70 | IP-MIB is supported by every device |
| `MibIp.ArpTable` | infoset/snmp/mib_ip.py:98-127 | the ARP table is what the `data_dict[ipaddress] = ...` loop over the walk yields, and that loop never raises |
| `MibIp.IpNetToMediaTable` | infoset/snmp/mib_ip.py:98-127 | the walk loop computes the ARP table |
| `MibIp.Ipv4RoundTrip` | infoset/snmp/mib_ip.py:116-118 | an OID ending in four byte sub-identifiers gives those four numbers dotted, readable back |
| `MibIp.ArpLastWins` | infoset/snmp/mib_ip.py:114-124 | the MAC stored for an address is that of the last walk item with that address |
| `MibIp.ArpEntries` | infoset/snmp/mib_ip.py:114-124 | every item is the address of some walk item and the hexadecimal text of its value |
| `MibIp.Layer3` | infoset/snmp/mib_ip.py:72-96 | `layer3` computes both labelled tables |
| `MibIp.FinalTables` | infoset/snmp/mib_ip.py:72-96 | `layer3` raises only where the IPv6 table does; each label is present exactly when its walk has an item, and holds its table unchanged |
| `MibIpv6.Layer3` | infoset/snmp/mib_ipv6.py:48-67 | `layer3` computes the labelled table |
| `MibIpv6.FinalTable` | infoset/snmp/mib_ipv6.py:48-114 | `layer3` raises exactly when a last-16 sub-identifier is not an int; the label is present exactly when the walk has an item, and holds the table unchanged |
| `MibCiscoIetfIp.Supported` | infoset.old/lib/getdata/snmp/mib_ciscoietfip.py:47-68 | supported exactly when the table's OID exists |
| `MibCiscoIetfIp.AddressOf` | infoset.old/lib/getdata/snmp/mib_ciscoietfip.py:113-123 | an OID key's address text |
| `MibCiscoIetfIp.PhysAddressTable` | infoset.old/lib/getdata/snmp/mib_ciscoietfip.py:91-129 | the loop over the sorted walk computes the table |
| `MibCiscoIetfIp.FillTable` | infoset.old/lib/getdata/snmp/mib_ciscoietfip.py:107-126 | the loop body over the items in the order given |
| `MibCiscoIetfIp.GreatestKeyWins` | infoset.old/lib/getdata/snmp/mib_ciscoietfip.py:107-126 | of the walk items sharing an address, the one with the greatest OID wins, whatever order the walk came in |
| `MibCiscoIetfIp.SixteenGroups` | infoset.old/lib/getdata/snmp/mib_ciscoietfip.py:113-123 | 16 byte sub-identifiers give 16 colon-separated two-digit groups, from which the bytes come back |
| `MibCiscoIetfIp.TableOk` | infoset.old/lib/getdata/snmp/mib_ciscoietfip.py:91-129 | the table raises exactly when some key's address raises |
| `MibCiscoIetfIp.Layer3` | infoset.old/lib/getdata/snmp/mib_ciscoietfip.py:70-89 | `layer3` computes the labelled table |
| `MibCiscoIetfIp.FinalTable` | infoset.old/lib/getdata/snmp/mib_ciscoietfip.py:70-129 | `layer3` raises exactly when a last-16 sub-identifier is not an int; the label is present exactly when the walk has an item, and holds the table unchanged |
| `Xlate.LookupPut` | lib/getdata/files/xlate_snmp.py:145-151 | `d[k] = v` leaves what every other key finds, and `k` then finds `v` |
| `Xlate.EthernetIff` | lib/getdata/files/xlate_snmp.py:193-218 | a port is Ethernet exactly when ifType is 6 and its lowercased ifName does not start with "vl"; the test raises exactly with an ifType and no str ifName |
| `Xlate.EthernetObject` | lib/getdata/files/xlate_snmp.py:193-218 | only a dict can be an Ethernet port |
| `Xlate.VlanInterfaceExcluded` | lib/getdata/files/xlate_snmp.py:209-215 | an uppercase "Vl10" is excluded too |
| `Xlate.VlanCases` | lib/getdata/files/xlate_snmp.py:221-246 | `_vlan` raises exactly when vmVlan is present but not an int; otherwise non-empty Juniper tags win, then `[vmVlan]`, and None without either |
| `Xlate.TrunkIff` | lib/getdata/files/xlate_snmp.py:321-348 | a port is a trunk exactly when its Cisco dynamic status is 1 or its Juniper access mode is 2 |
| `Xlate.Duplex` | lib/getdata/files/xlate_snmp.py:249-318 | `_duplex` returns a code from 0 to 4 |
| `Xlate.DuplexPrecedence` | lib/getdata/files/xlate_snmp.py:268-275 | swPortDuplexStatus, where present, decides alone: 2 when it is 1, otherwise 1 |
| `Xlate.DuplexCodes` | lib/getdata/files/xlate_snmp.py:249-318 | which vendor values give each duplex code, and that `_duplex` raises exactly when the c2900 linkbeat status has no duplex status beside it |
| `Xlate.Higher` | lib/getdata/files/xlate_snmp.py:135-142 | the higher layer is the port itself, the one bound before, or a key of the port's stack entry |
| `Xlate.DuplexKeys` | lib/getdata/files/xlate_snmp.py:145-151 | the added keys are not `_duplex` sources, so storing them does not change it |
| `Xlate.DuplexReads` | lib/getdata/files/xlate_snmp.py:249-318 | `_duplex` reads only its five keys |
| `Xlate.AnnotatedFacts` | lib/getdata/files/xlate_snmp.py:145-151 | the three stores succeed exactly when `_duplex` does, keep the other keys and hold the computed attributes |
| `Xlate.FoldSource` | lib/getdata/files/xlate_snmp.py:120-154 | a port's entry is the one stored by the last iteration that writes its key |
| `Xlate.StepKeys` | lib/getdata/files/xlate_snmp.py:120-154 | one iteration stores the chosen port under `int(ifindex)` and nothing else |
| `Xlate.PortAnnotates` | lib/getdata/files/xlate_snmp.py:145-154 | the stored dict is the port's own with its attributes taken from the higher layer |
| `Xlate.PortSource` | lib/getdata/files/xlate_snmp.py:120-154 | every stored port comes from the last chosen item with that ifIndex: an Ethernet port, within `ifindices` when given, annotated for some higher layer |
| `Xlate.PortListed` | lib/getdata/files/xlate_snmp.py:120-154 | every chosen item's ifIndex is a key of the ports |
| `Xlate.Visit` | lib/getdata/files/xlate_snmp.py:120-154 | one loop iteration |
| `Xlate.Store` | lib/getdata/files/xlate_snmp.py:129-154 | the store of one Ethernet port |
| `Xlate.Annotate` | lib/getdata/files/xlate_snmp.py:145-151 | the three attribute stores |
| `Xlate.Translator.Init` | lib/getdata/files/xlate_snmp.py:120-157 | `__init__` succeeds exactly when `Translation` does, and then sets `ports` and `system` to it |
| `Xlate.Translator.SystemSummary` | lib/getdata/files/xlate_snmp.py:159-178 | `system_summary` computes `Summary` |
| `Xlate.SummaryValues` | lib/getdata/files/xlate_snmp.py:159-178 | the summary raises exactly when an SNMPv2-MIB object has no instance "0"; otherwise it holds each object's instance "0" under its name, in file order |

## Left out

- **I/O and environment.** Logging, the configuration object and
  `time.sleep` are left out. Opening files is the `Spool`'s map from path to
  parsed content. A file's age is a number given with the listing, not
  `time.time()` minus `getmtime`.
- **Digest and timestamp check.** `hashlib.sha256` behind `_did` is the
  parameter `hash`. `jm_general.validate_timestamp` is the parameter
  `validTs`.
- **Threads.** The thread pool, `THREAD_QUEUE` and `task_done`/`join` are
  left out. The workers are one sequential `FillDB` draining the queued
  batches in order (`Scanner.Process`). The shared `agents` and
  `datapoints` lists are seen by one worker at a time, so races between
  workers are not modelled.
- **SQL.**
  - The SQL statements are functions on `Store.Tables`. Database errors
    other than a missing agent row are not modelled. The table definitions
    are not part of this model.
  - `_agents`, `_datapoints` and `_datapoints_by_did` are the maps of
    enabled rows held in `Store.Tables`, not separate queries.
- **Drain.** A `Drain` is an immutable datatype built by `Ingest.NewDrain`.
  - Its accessors are functions on it.
  - `purge()` is `BatchLoop.Spool.Remove`. Its log messages and returned
    flag are left out, since `run` ignores the flag.
- **Listing and queue.** The directory listing is given, not read from the
  spool. `os.path.isfile` is taken to hold for every listed name.
  `THREAD_QUEUE.put` is the list returned by `Scanner.Queue`.
- **Python built-ins.**
  - `Lower` folds ASCII letters only.
  - `int()` of a text accepts surrounding whitespace, an optional sign and
    ASCII decimal digits. It does not accept underscores or non-ASCII
    digits, which Python accepts.
  - `float()` succeeds on numbers and numeric text, without parsing the
    text.
- **Sentry3.**
  - `PollingAgent.__init__`, `query`, the SNMP credentials, the `Agent`
    object, `populate_dict`, `post` and `purge` are left out. The three
    walks are inputs to `Sentry3.UploadData`.
  - The `nodes=2` parameter of `_normalize_keys` is dropped, because the
    loop rebinds `nodes` before using it.
- **SNMP walks.** `walk`, `swalk` and `oid_exists` are inputs to
  `MibIp`, `MibIpv6` and `MibCiscoIetfIp`: a sequence of `(oid, bytes)`
  items and a predicate.
  - The `Query` base classes, `__init__`, `get_query` and `init_query` are
    left out.
  - `supported()` of IPv6-MIB is inherited from a base class that is not
    part of this model.
  - The Cisco loop sorts items that are `(oid, bytes)` tuples. The keys of
    a walk are distinct, so the model sorts by key.
- **Translator.**
  - The constructor's loading of the configuration and the device's YAML
    file is left out. `Xlate.Translator.Init` takes the parsed YAML.
  - YAML integer keys are given as their text.
  - The port dicts are updated in place inside the loaded YAML in the
    source. The model builds the annotated copy that `self.ports` holds,
    and does not write it back into `layer1`.
  - `_duplex` is modelled on a dict of keys only.
- Xlate.Higher: where a port's stack entry is empty, the layer bound
  for an earlier port is kept. The first such port makes the source raise
  on an unbound name. The model reproduces both cases but states only where
  the chosen layer can come from, not which key of the entry is chosen.
  The model keys the YAML by text. With integer YAML keys, as a YAML loader
  reads numeric keys, the source's `== '0'` test never holds, so a port with
  nothing stacked on it takes layer 0 and `_vlan` then raises on the
  missing key 0.
- MibIp.ArpTable: the MAC text is `hexlify` of the whole value. The
  model does not check that the value is six bytes long, and neither does
  the source.
- Store.AddDatapoint: the new row's `last_timestamp` is 0, taken as the
  default of a column the INSERT does not set. `agent.Get(uid).idx()` is
  taken to raise exactly when the uid has no enabled agent row. One
  counter hands out the indices of both tables, so the model does not
  capture auto-increment columns counting apart.
- Store.Database.InsertDatapoint: inherits the three assumptions of
  `Store.AddDatapoint`.
- Store.Database.Write: appends the submitted rows. `REPLACE INTO` instead
  replaces a row with the same key, and the key of `iset_data` is not part
  of this model, so the table after a replayed file is not stated.
- Json.PyStr: non-integral floats, integral floats of magnitude 1e16 or
  more, lists and dicts render as fixed placeholders. So `Did` and the
  agent name and hostname columns do not tell apart two such values that
  Python renders differently, such as 0.5 and 1.5.
- Scanner.MatchesIff: `\d` is taken as the ASCII digits. Python 3's `re`
  also matches other Unicode decimal digits there.
- Scanner.Process: a batch that raises ends its worker thread before
  `task_done`, so `THREAD_QUEUE.join()` never returns and `process` blocks;
  once every worker is gone, later batches are not drained. The model
  drains every batch and returns.
- Sentry3.Pivot: the pivot is a `map`, so the order in which sources were
  inserted into `data[label]` is not kept.
