/**
 * The three tables the cache drain writes (infoset/cache/cache.py,
 * `_insert_agent`, `_insert_datapoint`, `_update_measurements` and the
 * read-only queries `_agents`, `_datapoints`, `_datapoints_by_did`), as maps
 * from the row's id to the columns the drain reads or writes. A map holds
 * the ENABLED rows, which are the only ones the queries return.
 */
module Store {
  import opened Wrappers
  import opened Json
  import opened Ingest

  /** An `iset_agent` row: `idx`, `name`, `hostname`. */
  datatype AgentRow = AgentRow(idx: int, name: string, hostname: string)

  /** An `iset_datapoint` row: `idx`, `idx_agent`, `agent_label`, `agent_source`, `base_type`, `last_timestamp`. */
  datatype DatapointRow = DatapointRow(idx: int, idxAgent: int, agentLabel: string, agentSource: string, baseType: int, lastTimestamp: int)

  /** An `iset_data` row: `(idx_datapoint, idx_agent, value, timestamp)`; the value is kept as read. */
  datatype Measurement = Measurement(idxDatapoint: int, idxAgent: int, value: Json, timestamp: int)

  /**
   * The database: agents by uid, datapoints by did, the measurements in the
   * order they were written, and the next row index the database hands out.
   */
  datatype Tables = Tables(
    agents: map<string, AgentRow>,
    datapoints: map<string, DatapointRow>,
    data: seq<Measurement>,
    nextIdx: int)

  /**
   * `last_timestamp` of a datapoint row that has just been inserted. The
   * INSERT leaves the column to the table's default, which is not part of
   * this model; it is taken to be 0.
   */
  const NewTimestamp: int := 0

  /** `_insert_agent(uid, name, hostname)`: the two columns are rendered with `%s`. */
  function AddAgent(t: Tables, uid: string, name: Json, hostname: Json): (r: Tables)
    ensures uid in r.agents && r.agents[uid] == AgentRow(t.nextIdx, PyStr(name), PyStr(hostname))
    ensures forall u :: u != uid ==> (u in r.agents <==> u in t.agents)
    ensures forall u :: u != uid && u in t.agents ==> r.agents[u] == t.agents[u]
    ensures r.datapoints == t.datapoints && r.data == t.data && r.nextIdx == t.nextIdx + 1
  {
    t.(agents := t.agents[uid := AgentRow(t.nextIdx, PyStr(name), PyStr(hostname))], nextIdx := t.nextIdx + 1)
  }

  /**
   * `_insert_datapoint(item)`: the datapoint's agent is looked up by uid
   * (None where that lookup fails, taken to be exactly when the uid has no
   * enabled agent row), and a row with the next index and the label, source
   * and base type of the tuple is added.
   */
  function AddDatapoint(t: Tables, s: Source): (r: Option<Tables>)
    ensures r.Some? <==> PyStr(s.uid) in t.agents
    ensures r.Some? ==>
      && s.did in r.value.datapoints
      && r.value.datapoints[s.did] ==
           DatapointRow(t.nextIdx, t.agents[PyStr(s.uid)].idx, s.series, PyStr(s.source), s.baseType, NewTimestamp)
      && (forall d :: d != s.did ==> (d in r.value.datapoints <==> d in t.datapoints))
      && (forall d :: d != s.did && d in t.datapoints ==> r.value.datapoints[d] == t.datapoints[d])
      && r.value.agents == t.agents && r.value.data == t.data && r.value.nextIdx == t.nextIdx + 1
  {
    var uid := PyStr(s.uid);
    if uid !in t.agents then None
    else
      var row := DatapointRow(t.nextIdx, t.agents[uid].idx, s.series, PyStr(s.source), s.baseType, NewTimestamp);
      Some(t.(datapoints := t.datapoints[s.did := row], nextIdx := t.nextIdx + 1))
  }

  /** `UPDATE iset_datapoint SET last_timestamp=ts WHERE idx=idx`. */
  function SetLast(dps: map<string, DatapointRow>, idx: int, ts: int): (r: map<string, DatapointRow>)
    ensures r.Keys == dps.Keys
    ensures forall d :: d in dps ==>
      r[d] == if dps[d].idx == idx then dps[d].(lastTimestamp := ts) else dps[d]
  {
    map d | d in dps :: if dps[d].idx == idx then dps[d].(lastTimestamp := ts) else dps[d]
  }

  /** The database of `_update_measurements`, its tables updated in place. */
  class Database {
    var agents: map<string, AgentRow>
    var datapoints: map<string, DatapointRow>
    var data: seq<Measurement>
    var nextIdx: int

    function State(): Tables
      reads this
    {
      Tables(agents, datapoints, data, nextIdx)
    }

    constructor (t: Tables)
      ensures State() == t
    {
      agents, datapoints, data, nextIdx := t.agents, t.datapoints, t.data, t.nextIdx;
    }

    method InsertAgent(uid: string, name: Json, hostname: Json)
      modifies this
      ensures State() == AddAgent(old(State()), uid, name, hostname)
    {
      agents := agents[uid := AgentRow(nextIdx, PyStr(name), PyStr(hostname))];
      nextIdx := nextIdx + 1;
    }

    /** False where the agent lookup raises; nothing is written then. */
    method InsertDatapoint(s: Source) returns (ok: bool)
      modifies this
      ensures ok <==> AddDatapoint(old(State()), s).Some?
      ensures State() == if ok then AddDatapoint(old(State()), s).value else old(State())
    {
      var uid := PyStr(s.uid);
      if uid !in agents {
        return false;
      }
      var row := DatapointRow(nextIdx, agents[uid].idx, s.series, PyStr(s.source), s.baseType, NewTimestamp);
      datapoints := datapoints[s.did := row];
      nextIdx := nextIdx + 1;
      ok := true;
    }

    /**
     * `REPLACE INTO iset_data ...` with `data_list`: the rows are appended
     * in the order submitted; a row that replaces one with the same key is
     * not told apart from a new one.
     */
    method Write(rows: seq<Measurement>)
      modifies this
      ensures State() == old(State()).(data := old(data) + rows)
    {
      data := data + rows;
    }

    method SetLastTimestamp(idx: int, ts: int)
      modifies this
      ensures State() == old(State()).(datapoints := SetLast(old(datapoints), idx, ts))
    {
      datapoints := SetLast(datapoints, idx, ts);
    }
  }
}
