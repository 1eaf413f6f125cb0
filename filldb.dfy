/**
 * `FillDB.run` (infoset/cache/cache.py): one device's batch of cache files,
 * drained in `(timestamp, path)` order. An invalid file is moved to the
 * failures directory; a file whose content disagrees with its name is left
 * where it is; any other file registers its agent and datapoints (each at
 * most once), has its chartable rows written and is deleted.
 *
 * A raise ends the batch (the worker thread dies): every function below
 * returns the state reached so far together with `false`.
 */
module BatchLoop {
  import opened Wrappers
  import opened Json
  import opened Sorting
  import opened Identifiers
  import opened Ingest
  import opened Store
  import opened Measurements
  import opened DrainFacts

  /** `(timestamp, filepath)` pairs of one uid. */
  type Batch = seq<(int, string)>

  /**
   * Everything the loop reads or changes: the cache directory (path ->
   * parsed content, None when the file cannot be read as JSON), the paths
   * moved to the failures directory, the shared `agents` and `datapoints`
   * lists, and the database.
   */
  datatype World = World(
    files: map<string, Option<Json>>,
    failures: set<string>,
    agents: seq<string>,
    datapoints: seq<string>,
    tables: Tables)

  /** What `Drain(filepath)` reads. */
  function ContentOf(files: map<string, Option<Json>>, path: string): Option<Json> {
    if path in files then files[path] else None
  }

  /** `shutil.move(filepath, failures)`: raises when the file is gone or its name is taken there. */
  function Quarantine(w: World, path: string): Option<World> {
    if path in w.files && path !in w.failures then Some(w.(files := w.files - {path}, failures := w.failures + {path}))
    else None
  }

  /** The agent insertion, when the uid is not listed yet; the accessors raise on a drain without agent keys. */
  function Admit(w: World, uid: string, d: Drain): Option<World> {
    if uid in w.agents then Some(w)
    else if AgentName(d).None? || Hostname(d).None? then None
    else Some(w.(tables := AddAgent(w.tables, uid, AgentName(d).value, Hostname(d).value), agents := w.agents + [uid]))
  }

  /** The `for item in ingest.sources()` loop: unlisted dids are inserted and listed. */
  function Register(w: World, sources: seq<Source>): (World, bool)
    decreases |sources|
  {
    if |sources| == 0 then (w, true)
    else
      var (w1, ok) := Register(w, sources[..|sources| - 1]);
      var s := sources[|sources| - 1];
      if !ok then (w1, false)
      else if s.did in w1.datapoints then (w1, true)
      else
        match AddDatapoint(w1.tables, s)
        case None => (w1, false)
        case Some(t) => (w1.(tables := t, datapoints := w1.datapoints + [s.did]), true)
  }

  /** The rest of the iteration: register, write the measurements, delete the file. */
  function Load(w: World, path: string, d: Drain): (World, bool) {
    var (w1, ok) := Register(w, Sources(d));
    if !ok then (w1, false)
    else
      match Update(w1.tables, Chartable(d))
      case None => (w1, false)
      case Some(t) => (w1.(tables := t, files := w1.files - {path}), true)
  }

  /** The iteration once `Drain(filepath)` has returned `d`. */
  function Visit(validTs: int -> bool, uid: string, w: World, timestamp: int, path: string, d: Drain): (World, bool) {
    if !d.validated then
      match Quarantine(w, path)
      case None => (w, false)
      case Some(w1) => (w1, true)
    else if Uid(d).None? then (w, false)
    else if Uid(d).value != JString(uid) then (w, true)
    else if Timestamp(d).None? then (w, false)
    else if Timestamp(d).value != timestamp || !validTs(timestamp) then (w, true)
    else
      match Admit(w, uid, d)
      case None => (w, false)
      case Some(w1) => Load(w1, path, d)
  }

  /** One iteration of `for (timestamp, filepath) in metadata`. */
  function Step(hash: Digest, validTs: int -> bool, uid: string, w: World, item: (int, string)): (World, bool) {
    match DrainOf(hash, item.1, ContentOf(w.files, item.1))
    case None => (w, false)
    case Some(d) => Visit(validTs, uid, w, item.0, item.1, d)
  }

  /** The loop over the batch in the given order; it stops at the first raise. */
  function RunFold(hash: Digest, validTs: int -> bool, uid: string, w: World, batch: Batch): (World, bool)
    decreases |batch|
  {
    if |batch| == 0 then (w, true)
    else
      var (w1, ok) := RunFold(hash, validTs, uid, w, batch[..|batch| - 1]);
      if !ok then (w1, false) else Step(hash, validTs, uid, w1, batch[|batch| - 1])
  }

  /** `metadata.sort()`, then the loop. */
  function RunBatch(hash: Digest, validTs: int -> bool, uid: string, w: World, metadata: Batch): (World, bool) {
    RunFold(hash, validTs, uid, w, SortTuples(metadata))
  }

  // ---------------------------------------------------------------------
  // Invariants of the shared lists.
  // ---------------------------------------------------------------------

  predicate NoDup(s: seq<string>) {
    forall i, j :: 0 <= i < j < |s| ==> s[i] != s[j]
  }

  /** Every listed agent and datapoint has its row in the database. */
  predicate Synced(w: World) {
    && (forall i :: 0 <= i < |w.agents| ==> w.agents[i] in w.tables.agents)
    && (forall i :: 0 <= i < |w.datapoints| ==> w.datapoints[i] in w.tables.datapoints)
  }

  /** `b` is `a` with entries appended. */
  predicate Extends(a: seq<string>, b: seq<string>) {
    |a| <= |b| && b[..|a|] == a
  }

  // ---------------------------------------------------------------------
  // Registration.
  // ---------------------------------------------------------------------

  lemma {:induction false} RegisterRaise(w: World, sources: seq<Source>, k: nat)
    requires k <= |sources|
    requires !Register(w, sources[..k]).1
    ensures Register(w, sources) == Register(w, sources[..k])
    decreases |sources| - k
  {
    if k < |sources| {
      assert sources[..k + 1][..k] == sources[..k];
      RegisterRaise(w, sources, k + 1);
    } else {
      assert sources[..k] == sources;
    }
  }

  /** Registration touches only the datapoint list and table, and only appends to the list. */
  lemma {:induction false} RegisterFrame(w: World, sources: seq<Source>)
    ensures
      var w1 := Register(w, sources).0;
      && w1.files == w.files && w1.failures == w.failures && w1.agents == w.agents
      && w1.tables.agents == w.tables.agents && w1.tables.data == w.tables.data
      && Extends(w.datapoints, w1.datapoints)
      && (forall d :: d in w.tables.datapoints ==> d in w1.tables.datapoints)
    decreases |sources|
  {
    if |sources| > 0 {
      RegisterFrame(w, sources[..|sources| - 1]);
    }
  }

  /** A did is listed at most once. */
  lemma {:induction false} RegisterNoDup(w: World, sources: seq<Source>)
    requires NoDup(w.datapoints)
    ensures NoDup(Register(w, sources).0.datapoints)
    decreases |sources|
  {
    if |sources| > 0 {
      RegisterNoDup(w, sources[..|sources| - 1]);
    }
  }

  /** A listed did has its row: the list never runs ahead of the table. */
  lemma {:induction false} RegisterSynced(w: World, sources: seq<Source>)
    requires Synced(w)
    ensures Synced(Register(w, sources).0)
    decreases |sources|
  {
    if |sources| > 0 {
      var (w1, ok) := Register(w, sources[..|sources| - 1]);
      RegisterSynced(w, sources[..|sources| - 1]);
      var s := sources[|sources| - 1];
      if ok && s.did !in w1.datapoints && AddDatapoint(w1.tables, s).Some? {
        var w2 := Register(w, sources).0;
        forall i | 0 <= i < |w2.datapoints|
          ensures w2.datapoints[i] in w2.tables.datapoints
        {
          if i < |w1.datapoints| {
            assert w2.datapoints[i] == w1.datapoints[i];
          }
        }
      }
    }
  }

  /** After a registration that did not raise, every did of the tuples is listed. */
  lemma {:induction false} RegisterListed(w: World, sources: seq<Source>)
    requires Register(w, sources).1
    ensures forall s :: s in sources ==> s.did in Register(w, sources).0.datapoints
    decreases |sources|
  {
    if |sources| > 0 {
      var front := sources[..|sources| - 1];
      RegisterListed(w, front);
      RegisterFrame(Register(w, front).0, []);
      var w1 := Register(w, front).0;
      var w2 := Register(w, sources).0;
      assert Extends(w1.datapoints, w2.datapoints);
      forall s | s in sources
        ensures s.did in w2.datapoints
      {
        if s in front {
          var k :| 0 <= k < |w1.datapoints| && w1.datapoints[k] == s.did;
          assert w2.datapoints[k] == s.did;
        }
      }
    }
  }

  /** Registration raises only for a tuple whose agent has no row. */
  lemma {:induction false} RegisterOk(w: World, sources: seq<Source>)
    requires forall s :: s in sources ==> PyStr(s.uid) in w.tables.agents
    ensures Register(w, sources).1
    decreases |sources|
  {
    if |sources| > 0 {
      var front := sources[..|sources| - 1];
      RegisterOk(w, front);
      RegisterFrame(w, front);
    }
  }

  // ---------------------------------------------------------------------
  // One iteration.
  // ---------------------------------------------------------------------

  /** The agent insertion lists the uid once and gives it a row; nothing else changes. */
  lemma AdmitFacts(w: World, uid: string, d: Drain)
    requires Admit(w, uid, d).Some?
    ensures
      var w1 := Admit(w, uid, d).value;
      && w1.files == w.files && w1.failures == w.failures && w1.datapoints == w.datapoints
      && w1.tables.datapoints == w.tables.datapoints && w1.tables.data == w.tables.data
      && Extends(w.agents, w1.agents) && uid in w1.agents
      && (NoDup(w.agents) ==> NoDup(w1.agents))
      && (Synced(w) ==> Synced(w1) && uid in w1.tables.agents)
  {
    var w1 := Admit(w, uid, d).value;
    if uid in w.agents {
      if Synced(w) {
        var k :| 0 <= k < |w.agents| && w.agents[k] == uid;
      }
    } else {
      assert w1.agents[..|w.agents|] == w.agents;
      assert w1.agents[|w.agents|] == uid;
    }
  }

  /** Registration, writing and deletion keep the lists growing, duplicate-free and in step with the tables. */
  lemma LoadFacts(w: World, path: string, d: Drain)
    ensures
      var w1 := Load(w, path, d).0;
      && w1.failures == w.failures && w1.agents == w.agents
      && Extends(w.datapoints, w1.datapoints)
      && (NoDup(w.datapoints) ==> NoDup(w1.datapoints))
      && (Synced(w) ==> Synced(w1))
  {
    var (w1, ok) := Register(w, Sources(d));
    RegisterFrame(w, Sources(d));
    if NoDup(w.datapoints) {
      RegisterNoDup(w, Sources(d));
    }
    if Synced(w) {
      RegisterSynced(w, Sources(d));
      if ok && Update(w1.tables, Chartable(d)).Some? {
        UpdateKeys(w1.tables, Chartable(d));
      }
    }
  }

  lemma VisitFacts(validTs: int -> bool, uid: string, w: World, timestamp: int, path: string, d: Drain)
    ensures
      var w1 := Visit(validTs, uid, w, timestamp, path, d).0;
      && Extends(w.agents, w1.agents) && Extends(w.datapoints, w1.datapoints)
      && (NoDup(w.agents) ==> NoDup(w1.agents))
      && (NoDup(w.datapoints) ==> NoDup(w1.datapoints))
      && (Synced(w) ==> Synced(w1))
      && w.failures <= w1.failures
  {
    var r := Visit(validTs, uid, w, timestamp, path, d);
    if !d.validated {
      assert r.0 == w || r.0 == Quarantine(w, path).value;
    } else if Uid(d).None? || Uid(d).value != JString(uid) || Timestamp(d).None?
      || Timestamp(d).value != timestamp || !validTs(timestamp) || Admit(w, uid, d).None? {
      assert r.0 == w;
    } else {
      var w1 := Admit(w, uid, d).value;
      assert r == Load(w1, path, d);
      AdmitFacts(w, uid, d);
      LoadFacts(w1, path, d);
    }
  }

  /**
   * Each iteration only appends to the shared lists, never lists an entry
   * twice, keeps every listed entry backed by a row, and never takes a file
   * out of the failures directory.
   */
  lemma StepFacts(hash: Digest, validTs: int -> bool, uid: string, w: World, item: (int, string))
    ensures
      var w1 := Step(hash, validTs, uid, w, item).0;
      && Extends(w.agents, w1.agents) && Extends(w.datapoints, w1.datapoints)
      && (NoDup(w.agents) ==> NoDup(w1.agents))
      && (NoDup(w.datapoints) ==> NoDup(w1.datapoints))
      && (Synced(w) ==> Synced(w1))
      && w.failures <= w1.failures
  {
    var drained := DrainOf(hash, item.1, ContentOf(w.files, item.1));
    if drained.Some? {
      VisitFacts(validTs, uid, w, item.0, item.1, drained.value);
    }
  }

  /** An invalid file is moved to the failures directory, and nothing else changes; the move raises when it cannot be made. */
  lemma VisitInvalid(validTs: int -> bool, uid: string, w: World, timestamp: int, path: string, d: Drain)
    requires !d.validated
    ensures
      var (w1, ok) := Visit(validTs, uid, w, timestamp, path, d);
      && (ok <==> path in w.files && path !in w.failures)
      && (ok ==> path !in w1.files && path in w1.failures && w1.files == w.files - {path})
      && w1.agents == w.agents && w1.datapoints == w.datapoints && w1.tables == w.tables
  {
  }

  /** A valid file whose uid or timestamp disagrees with its name, or whose timestamp is refused, is left alone. */
  lemma VisitMismatch(validTs: int -> bool, uid: string, w: World, timestamp: int, path: string, d: Drain)
    requires d.validated && Uid(d).Some? && Timestamp(d).Some?
    requires Uid(d).value != JString(uid) || Timestamp(d).value != timestamp || !validTs(timestamp)
    ensures Visit(validTs, uid, w, timestamp, path, d) == (w, true)
  {
  }

  /**
   * After a valid, matching file has been processed, its uid is listed,
   * every did of its metadata is listed, and the file is gone.
   */
  lemma VisitStored(validTs: int -> bool, uid: string, w: World, timestamp: int, path: string, d: Drain)
    requires d.validated && Uid(d) == Some(JString(uid)) && Timestamp(d) == Some(timestamp) && validTs(timestamp)
    requires Visit(validTs, uid, w, timestamp, path, d).1
    ensures
      var w1 := Visit(validTs, uid, w, timestamp, path, d).0;
      && uid in w1.agents
      && (forall s :: s in Sources(d) ==> s.did in w1.datapoints)
      && path !in w1.files && w1.failures == w.failures
  {
    var w1 := Admit(w, uid, d).value;
    AdmitFacts(w, uid, d);
    RegisterListed(w1, Sources(d));
    RegisterFrame(w1, Sources(d));
  }

  /** Registration, writing and deletion raise only on a charted value `float()` rejects. */
  lemma LoadCrash(w: World, path: string, d: Drain)
    requires Synced(w)
    requires forall s :: s in Sources(d) ==> PyStr(s.uid) in w.tables.agents
    requires forall row :: row in Chartable(d) ==> exists s :: s in Sources(d) && s.did == row.did
    requires !Load(w, path, d).1
    ensures exists row :: row in Chartable(d) && !PyFloatable(row.value)
  {
    RegisterOk(w, Sources(d));
    RegisterSynced(w, Sources(d));
    RegisterListed(w, Sources(d));
    var w1 := Register(w, Sources(d)).0;
    var rows := Chartable(d);
    forall i | 0 <= i < |rows|
      ensures rows[i].did in w1.tables.datapoints
    {
      assert rows[i] in rows;
      var s :| s in Sources(d) && s.did == rows[i].did;
      var k :| 0 <= k < |w1.datapoints| && w1.datapoints[k] == s.did;
    }
    PartitionOk(rows, w1.tables.datapoints);
    var i :| 0 <= i < |rows| && !Usable(rows[i], w1.tables.datapoints);
    assert rows[i] in rows;
  }

  /**
   * With the lists backed by the tables, a valid matching file whose
   * metadata carries its uid and announces every charted did can only
   * raise on a charted value that `float()` rejects.
   */
  lemma VisitCrash(validTs: int -> bool, uid: string, w: World, timestamp: int, path: string, d: Drain)
    requires Synced(w)
    requires d.validated && Uid(d).Some? && Timestamp(d).Some? && AgentName(d).Some? && Hostname(d).Some?
    requires forall s :: s in Sources(d) ==> s.uid == Uid(d).value
    requires forall row :: row in Chartable(d) ==> exists s :: s in Sources(d) && s.did == row.did
    requires !Visit(validTs, uid, w, timestamp, path, d).1
    ensures exists row :: row in Chartable(d) && !PyFloatable(row.value)
  {
    var w1 := Admit(w, uid, d).value;
    assert Visit(validTs, uid, w, timestamp, path, d) == Load(w1, path, d);
    AdmitFacts(w, uid, d);
    forall s | s in Sources(d)
      ensures PyStr(s.uid) in w1.tables.agents
    {
      assert PyStr(JString(uid)) == uid;
    }
    LoadCrash(w1, path, d);
  }

  /**
   * An iteration raises only when the constructor raises, when an invalid
   * file cannot be moved, or when a charted value of a valid file is not a
   * number — provided the lists are backed by the tables, as they are when
   * read from the database.
   */
  lemma StepCrash(hash: Digest, validTs: int -> bool, uid: string, w: World, item: (int, string))
    requires Synced(w)
    requires !Step(hash, validTs, uid, w, item).1
    ensures
      var drained := DrainOf(hash, item.1, ContentOf(w.files, item.1));
      || drained.None?
      || (!drained.value.validated && Quarantine(w, item.1).None?)
      || (drained.value.validated && exists row :: row in Chartable(drained.value) && !PyFloatable(row.value))
  {
    var drained := DrainOf(hash, item.1, ContentOf(w.files, item.1));
    if drained.Some? && drained.value.validated {
      ValidDrain(hash, item.1, ContentOf(w.files, item.1));
      VisitCrash(validTs, uid, w, item.0, item.1, drained.value);
    }
  }

  // ---------------------------------------------------------------------
  // The batch.
  // ---------------------------------------------------------------------

  lemma {:induction false} RunRaise(hash: Digest, validTs: int -> bool, uid: string, w: World, batch: Batch, k: nat)
    requires k <= |batch|
    requires !RunFold(hash, validTs, uid, w, batch[..k]).1
    ensures RunFold(hash, validTs, uid, w, batch) == RunFold(hash, validTs, uid, w, batch[..k])
    decreases |batch| - k
  {
    if k < |batch| {
      assert batch[..k + 1][..k] == batch[..k];
      RunRaise(hash, validTs, uid, w, batch, k + 1);
    } else {
      assert batch[..k] == batch;
    }
  }

  /** The whole batch keeps the lists duplicate-free and backed by the tables, and the failures only grow. */
  lemma {:induction false} RunFacts(hash: Digest, validTs: int -> bool, uid: string, w: World, batch: Batch)
    ensures
      var w1 := RunFold(hash, validTs, uid, w, batch).0;
      && Extends(w.agents, w1.agents) && Extends(w.datapoints, w1.datapoints)
      && (NoDup(w.agents) ==> NoDup(w1.agents))
      && (NoDup(w.datapoints) ==> NoDup(w1.datapoints))
      && (Synced(w) ==> Synced(w1))
      && w.failures <= w1.failures
    decreases |batch|
  {
    if |batch| > 0 {
      var front := batch[..|batch| - 1];
      RunFacts(hash, validTs, uid, w, front);
      var (w1, ok) := RunFold(hash, validTs, uid, w, front);
      if ok {
        StepFacts(hash, validTs, uid, w1, batch[|batch| - 1]);
        ExtendsTransitive(w.agents, w1.agents, RunFold(hash, validTs, uid, w, batch).0.agents);
        ExtendsTransitive(w.datapoints, w1.datapoints, RunFold(hash, validTs, uid, w, batch).0.datapoints);
      }
    }
  }

  lemma ExtendsTransitive(a: seq<string>, b: seq<string>, c: seq<string>)
    requires Extends(a, b) && Extends(b, c)
    ensures Extends(a, c)
  {
    assert c[..|a|] == c[..|b|][..|a|];
  }

  /**
   * The batch is drained in ascending `(timestamp, path)` order, so what it
   * does does not depend on the order in which its files were listed: two
   * listings of the same files, each as often, give the same run.
   */
  lemma BatchOrder(hash: Digest, validTs: int -> bool, uid: string, w: World, m1: Batch, m2: Batch)
    requires multiset(m1) == multiset(m2)
    ensures RunBatch(hash, validTs, uid, w, m1) == RunBatch(hash, validTs, uid, w, m2)
  {
    SortTuplesSorted(m1);
    SortTuplesSorted(m2);
    SortedUnique(SortTuples(m1), SortTuples(m2));
  }

  // ---------------------------------------------------------------------
  // The objects the loop works on.
  // ---------------------------------------------------------------------

  /** The cache directory and the failures directory. */
  class Spool {
    var files: map<string, Option<Json>>
    var failures: set<string>

    constructor (files: map<string, Option<Json>>, failures: set<string>)
      ensures this.files == files && this.failures == failures
    {
      this.files, this.failures := files, failures;
    }

    /** `json.load` of the file at `path`: None when it is missing or not JSON. */
    method Read(path: string) returns (content: Option<Json>)
      ensures content == ContentOf(files, path)
    {
      content := if path in files then files[path] else None;
    }

    /** `shutil.move(path, failures directory)`; false where it raises. */
    method Move(path: string) returns (ok: bool)
      modifies this
      ensures ok <==> path in old(files) && path !in old(failures)
      ensures files == (if ok then old(files) - {path} else old(files))
      ensures failures == (if ok then old(failures) + {path} else old(failures))
    {
      ok := path in files && path !in failures;
      if ok {
        files := files - {path};
        failures := failures + {path};
      }
    }

    /** `os.remove(path)` inside `try`: a missing file is not an error. */
    method Remove(path: string)
      modifies this
      ensures files == old(files) - {path} && failures == old(failures)
    {
      files := files - {path};
    }
  }

  /** One worker: the shared lists, the spool and the database. */
  class FillDB {
    var agents: seq<string>
    var datapoints: seq<string>
    const spool: Spool
    const db: Database

    function State(): World
      reads this, spool, db
    {
      World(spool.files, spool.failures, agents, datapoints, db.State())
    }

    constructor (spool: Spool, db: Database, agents: seq<string>, datapoints: seq<string>)
      ensures this.spool == spool && this.db == db
      ensures this.agents == agents && this.datapoints == datapoints
    {
      this.spool, this.db := spool, db;
      this.agents, this.datapoints := agents, datapoints;
    }

    /** `for item in ingest.sources()`; false where `_insert_datapoint` raises. */
    method RegisterSources(sources: seq<Source>) returns (ok: bool)
      modifies this, db
      ensures (State(), ok) == Register(old(State()), sources)
    {
      ghost var w0 := State();
      var i := 0;
      while i < |sources|
        invariant 0 <= i <= |sources|
        invariant Register(w0, sources[..i]) == (State(), true)
      {
        var s := sources[i];
        assert sources[..i + 1][..i] == sources[..i];
        if s.did !in datapoints {
          var inserted := db.InsertDatapoint(s);
          if !inserted {
            RegisterRaise(w0, sources, i + 1);
            return false;
          }
          datapoints := datapoints + [s.did];
        }
        i := i + 1;
      }
      assert sources[..i] == sources;
      ok := true;
    }

    /** The `if uid not in self.agents` block: insert the agent row and list the uid. */
    method AdmitAgent(uid: string, d: Drain) returns (ok: bool)
      modifies this, db
      ensures ok <==> Admit(old(State()), uid, d).Some?
      ensures State() == if ok then Admit(old(State()), uid, d).value else old(State())
    {
      if uid in agents {
        return true;
      }
      var name, hostname := AgentName(d), Hostname(d);
      if name.None? || hostname.None? {
        return false;
      }
      db.InsertAgent(uid, name.value, hostname.value);
      agents := agents + [uid];
      ok := true;
    }

    /** Register the sources, write the measurements, then delete the file. */
    method LoadDrain(path: string, d: Drain) returns (ok: bool)
      modifies this, spool, db
      ensures (State(), ok) == Load(old(State()), path, d)
    {
      ok := RegisterSources(Sources(d));
      if !ok {
        return;
      }
      ok := UpdateMeasurements(db, Chartable(d));
      if !ok {
        return;
      }
      spool.Remove(path);
    }

    /** The iteration once the drain `d` of the file at `path` has been built. */
    method ProcessDrain(validTs: int -> bool, uid: string, timestamp: int, path: string, d: Drain) returns (ok: bool)
      modifies this, spool, db
      ensures (State(), ok) == Visit(validTs, uid, old(State()), timestamp, path, d)
    {
      if !d.validated {
        ok := spool.Move(path);
        return;
      }
      var fileUid := Uid(d);
      if fileUid.None? {
        return false;
      }
      if fileUid.value != JString(uid) {
        return true;
      }
      var fileTimestamp := Timestamp(d);
      if fileTimestamp.None? {
        return false;
      }
      if fileTimestamp.value != timestamp || !validTs(timestamp) {
        return true;
      }
      ok := AdmitAgent(uid, d);
      if !ok {
        return;
      }
      ok := LoadDrain(path, d);
    }

    /** The body of `for (timestamp, filepath) in metadata`; false where it raises. */
    method ProcessFile(hash: Digest, validTs: int -> bool, uid: string, timestamp: int, path: string) returns (ok: bool)
      modifies this, spool, db
      ensures (State(), ok) == Step(hash, validTs, uid, old(State()), (timestamp, path))
    {
      var content := spool.Read(path);
      var drained := NewDrain(hash, path, content);
      if drained.None? {
        return false;
      }
      ok := ProcessDrain(validTs, uid, timestamp, path, drained.value);
    }

    /** `FillDB.run` for one queued batch: sort, then drain file by file; false where it raises. */
    method Run(hash: Digest, validTs: int -> bool, uid: string, metadata: Batch) returns (ok: bool)
      modifies this, spool, db
      ensures (State(), ok) == RunBatch(hash, validTs, uid, old(State()), metadata)
    {
      var batch := SortTuples(metadata);
      ghost var w0 := State();
      var i := 0;
      while i < |batch|
        invariant 0 <= i <= |batch|
        invariant RunFold(hash, validTs, uid, w0, batch[..i]) == (State(), true)
      {
        assert batch[..i + 1][..i] == batch[..i];
        var (timestamp, path) := batch[i];
        ok := ProcessFile(hash, validTs, uid, timestamp, path);
        if !ok {
          RunRaise(hash, validTs, uid, w0, batch, i + 1);
          return;
        }
        i := i + 1;
      }
      assert batch[..i] == batch;
      ok := true;
    }
  }
}
