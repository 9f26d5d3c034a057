/**
  Simulation.SaveState and Simulation.LoadState with their section
  methods: a writer appends the sections field by field, a reader consumes
  them in the same order and fills a fresh State. Each method is proved
  against the matching encoder or decoder of SaveFormat.
 */
module LoadSave {
  import opened Wrappers
  import opened Numeric
  import opened Wire
  import opened RandomGen
  import opened Configs
  import opened Agents
  import opened SaveFormat
  import opened MapLoad
  import opened WorldState

  // ----- saving -----

  method SaveHeader(w: Writer)
    requires w.Valid()
    modifies w
    ensures w.Valid() && w.intended == old(w.intended) + EncodeHeader()
  {
    w.WriteUInt32(SaveMagic);
    w.WriteUInt32(SaveVersion);
  }

  method SaveInfo(info: Info, w: Writer)
    requires w.Valid()
    modifies w
    ensures w.Valid() && w.intended == old(w.intended) + EncodeInfo(info)
  {
    w.WriteVector3(info.worldMins);
    w.WriteVector3(info.worldMaxs);
    w.WriteUInt32(info.slowIterator);
    w.WriteVector3(info.windDir);
    w.WriteVector3(info.windDirTarget);
    w.WriteSingle(info.windTime);
    w.WriteUInt32(info.ticks);
    w.WriteUInt32(info.tickNextWindChange);
    w.WriteInt32(info.groupCount);
    w.WriteSingle(info.maxNeighbourDistance);
    Append10(old(w.intended), EncodeVector3(info.worldMins), EncodeVector3(info.worldMaxs),
             EncodeUInt32(info.slowIterator), EncodeVector3(info.windDir), EncodeVector3(info.windDirTarget),
             EncodeSingle(info.windTime), EncodeUInt32(info.ticks), EncodeUInt32(info.tickNextWindChange),
             EncodeInt32(info.groupCount), EncodeSingle(info.maxNeighbourDistance));
  }

  method SaveConfig(config: Config, w: Writer)
    requires w.Valid()
    modifies w
    ensures w.Valid() && w.intended == old(w.intended) + EncodeConfig(config)
  {
    w.WriteStringUTF8(ConfigDocument(config));
  }

  method SavePrng(prng: Random, w: Writer)
    requires w.Valid()
    modifies w
    ensures w.Valid() && w.intended == old(w.intended) + EncodePrng(prng)
  {
    w.WriteUInt32(prng.state0);
    w.WriteUInt32(prng.state1);
  }

  method SaveAgent(agent: AgentRecord, w: Writer)
    requires w.Valid()
    modifies w
    ensures w.Valid() && w.intended == old(w.intended) + EncodeAgent(agent)
  {
    w.WriteInt32(agent.index);
    w.WriteInt32(agent.group);
    w.WriteVector3(agent.position);
    w.WriteVector3(agent.velocity);
    w.WriteInt32(agent.cellIndex);
    w.WriteInt32(agent.entityId);
    w.WriteInt32(agent.entityClassId);
    w.WriteInt32(agent.health);
    w.WriteInt32(agent.currentState);
    w.WriteUInt32(agent.lastUpdateTick);
    Append10(old(w.intended), EncodeInt32(agent.index), EncodeInt32(agent.group),
             EncodeVector3(agent.position), EncodeVector3(agent.velocity), EncodeInt32(agent.cellIndex),
             EncodeInt32(agent.entityId), EncodeInt32(agent.entityClassId), EncodeInt32(agent.health),
             EncodeInt32(agent.currentState), EncodeUInt32(agent.lastUpdateTick));
  }

  method SaveAgents(agents: seq<AgentRecord>, w: Writer)
    requires w.Valid() && |agents| <= MaxInt32
    modifies w
    ensures w.Valid() && w.intended == old(w.intended) + EncodeAgents(agents)
  {
    w.WriteInt32(|agents|);
    var i := 0;
    while i < |agents|
      invariant 0 <= i <= |agents|
      invariant w.Valid()
      invariant w.intended == old(w.intended) + EncodeInt32(|agents|) + EncodeList(EncodeAgent, agents[..i])
    {
      SaveAgent(agents[i], w);
      EncodeListSnoc(EncodeAgent, agents, i);
      Regroup3(old(w.intended) + EncodeInt32(|agents|), EncodeList(EncodeAgent, agents[..i]), EncodeAgent(agents[i]));
      i := i + 1;
    }
    assert agents[..i] == agents;
    Regroup3(old(w.intended), EncodeInt32(|agents|), EncodeList(EncodeAgent, agents));
  }

  method SaveCell(cell: Cell, w: Writer)
    requires w.Valid()
    modifies w
    ensures w.Valid() && w.intended == old(w.intended) + EncodeCell(cell)
  {
    w.WriteInt32(|cell|);
    var i := 0;
    while i < |cell|
      invariant 0 <= i <= |cell|
      invariant w.Valid()
      invariant w.intended == old(w.intended) + EncodeInt32(|cell|) + EncodeList(EncodeInt32, cell[..i])
    {
      w.WriteInt32(cell[i]);
      EncodeListSnoc(EncodeInt32, cell, i);
      Regroup3(old(w.intended) + EncodeInt32(|cell|), EncodeList(EncodeInt32, cell[..i]), EncodeInt32(cell[i]));
      i := i + 1;
    }
    assert cell[..i] == cell;
    Regroup3(old(w.intended), EncodeInt32(|cell|), EncodeList(EncodeInt32, cell));
  }

  method SaveGrid(grid: seq<Cell>, w: Writer)
    requires w.Valid() && |grid| <= MaxInt32
    modifies w
    ensures w.Valid() && w.intended == old(w.intended) + EncodeGrid(grid)
  {
    w.WriteInt32(|grid|);
    var i := 0;
    while i < |grid|
      invariant 0 <= i <= |grid|
      invariant w.Valid()
      invariant w.intended == old(w.intended) + EncodeInt32(|grid|) + EncodeList(EncodeCell, grid[..i])
    {
      SaveCell(grid[i], w);
      EncodeListSnoc(EncodeCell, grid, i);
      Regroup3(old(w.intended) + EncodeInt32(|grid|), EncodeList(EncodeCell, grid[..i]), EncodeCell(grid[i]));
      i := i + 1;
    }
    assert grid[..i] == grid;
    Regroup3(old(w.intended), EncodeInt32(|grid|), EncodeList(EncodeCell, grid));
  }

  method SaveEvent(e: EventData, w: Writer)
    requires w.Valid()
    modifies w
    ensures w.Valid() && w.intended == old(w.intended) + EncodeEvent(e)
  {
    w.WriteInt32(e.eventType);
    w.WriteVector3(e.position);
    w.WriteSingle(e.radius);
    w.WriteSingle(e.decayRate);
    Append4(old(w.intended), EncodeInt32(e.eventType), EncodeVector3(e.position),
            EncodeSingle(e.radius), EncodeSingle(e.decayRate));
  }

  method SaveEvents(events: seq<EventData>, w: Writer)
    requires w.Valid() && |events| <= MaxInt32
    modifies w
    ensures w.Valid() && w.intended == old(w.intended) + EncodeEvents(events)
  {
    w.WriteInt32(|events|);
    var i := 0;
    while i < |events|
      invariant 0 <= i <= |events|
      invariant w.Valid()
      invariant w.intended == old(w.intended) + EncodeInt32(|events|) + EncodeList(EncodeEvent, events[..i])
    {
      SaveEvent(events[i], w);
      EncodeListSnoc(EncodeEvent, events, i);
      Regroup3(old(w.intended) + EncodeInt32(|events|), EncodeList(EncodeEvent, events[..i]), EncodeEvent(events[i]));
      i := i + 1;
    }
    assert events[..i] == events;
    Regroup3(old(w.intended), EncodeInt32(|events|), EncodeList(EncodeEvent, events));
  }

  /**
    SaveState: the whole state, section after section. It is given the
    state as a save sees it, agents included: writing cannot change them.
   */
  method SaveState(x: Snapshot, w: Writer)
    requires w.Valid() && Encodable(x)
    modifies w
    ensures w.Valid() && w.intended == old(w.intended) + EncodeSnapshot(x)
  {
    SaveHeader(w);
    SaveInfo(x.info, w);
    SaveConfig(x.config, w);
    SavePrng(x.prng, w);
    SaveAgents(x.agents, w);
    SaveGrid(x.grid, w);
    SaveEvents(x.events, w);
    Append7(old(w.intended), EncodeHeader(), EncodeInfo(x.info), EncodeConfig(x.config), EncodePrng(x.prng),
            EncodeAgents(x.agents), EncodeGrid(x.grid), EncodeEvents(x.events));
  }

  // ----- loading -----

  /** LoadHeader: the magic word must match; the version word is read and not looked at. */
  method LoadHeader(r: Reader) returns (res: Result<(), LoadError>)
    requires r.Valid()
    modifies r
    ensures r.Valid()
    ensures DecodeHeader(old(r.Rest())) == if res.Ok? then Ok(r.Rest()) else Err(res.error)
  {
    var magic := r.ReadUInt32();
    if magic.None? {
      return Err(Truncated);
    }
    if magic.value != SaveMagic {
      return Err(BadMagic);
    }
    var version := r.ReadUInt32();
    if version.None? {
      return Err(Truncated);
    }
    return Ok(());
  }

  method LoadInfo(r: Reader) returns (res: Option<Info>)
    requires r.Valid()
    modifies r
    ensures r.Valid()
    ensures DecodeInfoFields(old(r.Rest())) == if res.Some? then Some((res.value, r.Rest())) else None
  {
    var worldMins :- r.ReadVector3();
    var worldMaxs :- r.ReadVector3();
    var slowIterator :- r.ReadUInt32();
    var windDir :- r.ReadVector3();
    var windDirTarget :- r.ReadVector3();
    var windTime :- r.ReadSingle();
    var ticks :- r.ReadUInt32();
    var tickNextWindChange :- r.ReadUInt32();
    var groupCount :- r.ReadInt32();
    var maxNeighbourDistance :- r.ReadSingle();
    return Some(Info(worldMins, worldMaxs, slowIterator, windDir, windDirTarget, windTime,
                     ticks, tickNextWindChange, groupCount, maxNeighbourDistance));
  }

  /** LoadConfig: the configuration document, which must parse. */
  method LoadConfig(r: Reader) returns (res: Result<Config, LoadError>)
    requires r.Valid()
    modifies r
    ensures r.Valid()
    ensures DecodeConfig(old(r.Rest())) == if res.Ok? then Ok((res.value, r.Rest())) else Err(res.error)
  {
    var doc := r.ReadStringUTF8();
    if doc.None? {
      return Err(Truncated);
    }
    var config := ParseConfigDocument(doc.value);
    if config.None? {
      return Err(BadConfig);
    }
    return Ok(config.value);
  }

  method LoadPrng(r: Reader) returns (res: Option<Random>)
    requires r.Valid()
    modifies r
    ensures r.Valid()
    ensures DecodePrng(old(r.Rest())) == if res.Some? then Ok((res.value, r.Rest())) else Err(Truncated)
  {
    var state0 :- r.ReadUInt32();
    var state1 :- r.ReadUInt32();
    return Some(Random(state0, state1));
  }

  method LoadAgent(r: Reader) returns (res: Option<AgentRecord>)
    requires r.Valid()
    modifies r
    ensures r.Valid()
    ensures DecodeAgent(old(r.Rest())) == if res.Some? then Some((res.value, r.Rest())) else None
  {
    var index :- r.ReadInt32();
    var group :- r.ReadInt32();
    var position :- r.ReadVector3();
    var velocity :- r.ReadVector3();
    var cellIndex :- r.ReadInt32();
    var entityId :- r.ReadInt32();
    var entityClassId :- r.ReadInt32();
    var health :- r.ReadInt32();
    var currentState :- r.ReadInt32();
    var lastUpdateTick :- r.ReadUInt32();
    return Some(AgentRecord(index, group, position, velocity, cellIndex, entityId,
                            entityClassId, health, currentState, lastUpdateTick));
  }

  /**
    One pass of LoadAgents' loop: read the next record into a fresh Agent,
    append it, and file it under its entity id when it is active.
   */
  method LoadNextAgent(r: Reader, agents: seq<Agent>, active: map<Int32, Agent>,
                       ghost recs: seq<AgentRecord>, ghost s0: Bytes)
    returns (res: Result<(Agent, map<Int32, Agent>), LoadError>, ghost recs': seq<AgentRecord>)
    requires r.Valid() && Records(agents) == recs && Indexes(active, agents)
    requires DecodeAgentList(s0, |agents|) == Ok((recs, r.Rest()))
    modifies r
    ensures r.Valid()
    ensures res.Err? ==> DecodeAgentList(s0, |agents| + 1) == Err(res.error)
    ensures res.Ok? ==> fresh(res.value.0)
    ensures res.Ok? ==> Records(agents + [res.value.0]) == recs' && Indexes(res.value.1, agents + [res.value.0])
    ensures res.Ok? ==> DecodeAgentList(s0, |agents| + 1) == Ok((recs', r.Rest()))
  {
    ghost var before := r.Rest();
    var rec := LoadAgent(r);
    if rec.None? {
      KeyedListStepTruncated(DecodeAgent, ActiveKey, s0, |agents| + 1, recs, before);
      return Err(Truncated), recs;
    }
    res := FileAgent(rec.value, agents, active);
    if res.Err? {
      KeyedListStepDuplicate(DecodeAgent, ActiveKey, s0, |agents| + 1, recs, before, rec.value, r.Rest());
      return res, recs;
    }
    KeyedListStep(DecodeAgent, ActiveKey, s0, |agents| + 1, recs, before, rec.value, r.Rest());
    return res, recs + [rec.value];
  }

  /**
    The in-memory half of that pass: a fresh Agent for the record, filed under
    its entity id when it is active, unless an active agent already has that id.
   */
  method FileAgent(rec: AgentRecord, agents: seq<Agent>, active: map<Int32, Agent>)
    returns (res: Result<(Agent, map<Int32, Agent>), LoadError>)
    requires Indexes(active, agents)
    ensures res.Err? <==> ActiveKey(rec).Some? && ActiveKey(rec).value in ActiveIds(Records(agents))
    ensures res.Err? ==> res.error == DuplicateEntity
    ensures res.Ok? ==> fresh(res.value.0)
    ensures res.Ok? ==> Records(agents + [res.value.0]) == Records(agents) + [rec]
    ensures res.Ok? ==> Indexes(res.value.1, agents + [res.value.0])
  {
    if rec.currentState == StateActive && rec.entityId in active {
      return Err(DuplicateEntity);
    }
    var agent := new Agent.FromRecord(rec);
    IndexesSnoc(active, agents, agent);
    var active' := active;
    if agent.currentState == StateActive {
      active' := active[agent.entityId := agent];
    }
    return Ok((agent, active'));
  }

  /** LoadAgents' loop: `n` agents in order, the active ones filed by entity id. */
  method LoadAgentList(r: Reader, n: nat) returns (res: Result<(seq<Agent>, map<Int32, Agent>), LoadError>)
    requires r.Valid()
    modifies r
    ensures r.Valid()
    ensures res.Ok? ==> DecodeAgentList(old(r.Rest()), n) == Ok((Records(res.value.0), r.Rest()))
    ensures res.Ok? ==> fresh(res.value.0) && Indexes(res.value.1, res.value.0)
    ensures res.Err? ==> DecodeAgentList(old(r.Rest()), n) == Err(res.error)
  {
    ghost var s0 := r.Rest();
    var agents: seq<Agent> := [];
    var active: map<Int32, Agent> := map[];
    ghost var recs: seq<AgentRecord> := [];
    while |agents| < n
      invariant |agents| <= n && r.Valid() && fresh(agents)
      invariant Records(agents) == recs && Indexes(active, agents)
      invariant DecodeAgentList(s0, |agents|) == Ok((recs, r.Rest()))
      decreases n - |agents|
    {
      var next;
      next, recs := LoadNextAgent(r, agents, active, recs, s0);
      if next.Err? {
        KeyedListFailurePersists(DecodeAgent, ActiveKey, s0, |agents| + 1, n);
        return Err(next.error);
      }
      agents, active := agents + [next.value.0], next.value.1;
    }
    return Ok((agents, active));
  }

  /**
    LoadAgents: a fresh Agent per record, in order; an active agent is
    also filed under its entity id, and a second one with the same id
    fails the load.
   */
  method LoadAgents(r: Reader) returns (res: Result<(seq<Agent>, map<Int32, Agent>), LoadError>)
    requires r.Valid()
    modifies r
    ensures r.Valid()
    ensures res.Ok? ==> DecodeAgents(old(r.Rest())) == Ok((Records(res.value.0), r.Rest()))
    ensures res.Ok? ==> fresh(res.value.0) && Indexes(res.value.1, res.value.0)
    ensures res.Err? ==> DecodeAgents(old(r.Rest())) == Err(res.error)
  {
    var count := r.ReadInt32();
    if count.None? {
      return Err(Truncated);
    }
    res := LoadAgentList(r, if count.value < 0 then 0 else count.value);
  }

  /** The entries of a grid cell: `n` integers. */
  method LoadCellEntries(r: Reader, n: nat) returns (res: Option<seq<Int32>>)
    requires r.Valid()
    modifies r
    ensures r.Valid()
    ensures DecodeList(DecodeInt32, old(r.Rest()), n) == if res.Some? then Some((res.value, r.Rest())) else None
  {
    ghost var s0 := r.Rest();
    var cell: seq<Int32> := [];
    var j := 0;
    while j < n
      invariant 0 <= j <= n && r.Valid()
      invariant DecodeList(DecodeInt32, s0, j) == Some((cell, r.Rest()))
    {
      ghost var before := r.Rest();
      var entry := r.ReadInt32();
      if entry.None? {
        ListFailurePersists(DecodeInt32, s0, j + 1, n);
        return None;
      }
      ListStep(DecodeInt32, s0, j, cell, before, entry.value, r.Rest());
      cell := cell + [entry.value];
      j := j + 1;
    }
    return Some(cell);
  }

  /** One grid cell: its entry count, then the entries; a negative count reads none. */
  method LoadCell(r: Reader) returns (res: Option<Cell>)
    requires r.Valid()
    modifies r
    ensures r.Valid()
    ensures DecodeCell(old(r.Rest())) == if res.Some? then Some((res.value, r.Rest())) else None
  {
    var count :- r.ReadInt32();
    var entries :- LoadCellEntries(r, if count < 0 then 0 else count);
    return Some(entries);
  }

  /** LoadGrid's loop: an array of `n` cells, filled in order. */
  method LoadCells(r: Reader, n: nat) returns (res: Option<seq<Cell>>)
    requires r.Valid()
    modifies r
    ensures r.Valid()
    ensures DecodeList(DecodeCell, old(r.Rest()), n) == if res.Some? then Some((res.value, r.Rest())) else None
  {
    ghost var s0 := r.Rest();
    var grid := new Cell[n](_ => []);
    var k := 0;
    while k < grid.Length
      invariant 0 <= k <= grid.Length && r.Valid()
      invariant DecodeList(DecodeCell, s0, k) == Some((grid[..k], r.Rest()))
    {
      ghost var before := r.Rest();
      var cell := LoadCell(r);
      if cell.None? {
        ListFailurePersists(DecodeCell, s0, k + 1, grid.Length);
        return None;
      }
      ghost var done := grid[..k];
      ListStep(DecodeCell, s0, k, done, before, cell.value, r.Rest());
      grid[k] := cell.value;
      assert grid[..k + 1] == done + [cell.value];
      k := k + 1;
    }
    assert grid[..k] == grid[..];
    return Some(grid[..]);
  }

  /** LoadGrid: the cell count, then the cells. A negative count is the array allocation that fails. */
  method LoadGrid(r: Reader) returns (res: Result<seq<Cell>, LoadError>)
    requires r.Valid()
    modifies r
    ensures r.Valid()
    ensures DecodeGrid(old(r.Rest())) == if res.Ok? then Ok((res.value, r.Rest())) else Err(res.error)
  {
    var count := r.ReadInt32();
    if count.None? {
      return Err(Truncated);
    }
    if count.value < 0 {
      return Err(NegativeGridSize);
    }
    var cells := LoadCells(r, count.value);
    if cells.None? {
      return Err(Truncated);
    }
    return Ok(cells.value);
  }

  method LoadEvent(r: Reader) returns (res: Option<EventData>)
    requires r.Valid()
    modifies r
    ensures r.Valid()
    ensures DecodeEvent(old(r.Rest())) == if res.Some? then Some((res.value, r.Rest())) else None
  {
    var eventType :- r.ReadInt32();
    var position :- r.ReadVector3();
    var radius :- r.ReadSingle();
    var decayRate :- r.ReadSingle();
    return Some(EventData(eventType, position, radius, decayRate));
  }

  /** LoadEvents' loop: `n` events in order. */
  method LoadEventList(r: Reader, n: nat) returns (res: Option<seq<EventData>>)
    requires r.Valid()
    modifies r
    ensures r.Valid()
    ensures DecodeList(DecodeEvent, old(r.Rest()), n) == if res.Some? then Some((res.value, r.Rest())) else None
  {
    ghost var s0 := r.Rest();
    var events: seq<EventData> := [];
    var i := 0;
    while i < n
      invariant 0 <= i <= n && r.Valid()
      invariant DecodeList(DecodeEvent, s0, i) == Some((events, r.Rest()))
    {
      ghost var before := r.Rest();
      var ev := LoadEvent(r);
      if ev.None? {
        ListFailurePersists(DecodeEvent, s0, i + 1, n);
        return None;
      }
      ListStep(DecodeEvent, s0, i, events, before, ev.value, r.Rest());
      events := events + [ev.value];
      i := i + 1;
    }
    return Some(events);
  }

  method LoadEvents(r: Reader) returns (res: Option<seq<EventData>>)
    requires r.Valid()
    modifies r
    ensures r.Valid()
    ensures DecodeEvents(old(r.Rest())) == if res.Some? then Ok((res.value, r.Rest())) else Err(Truncated)
  {
    var count :- r.ReadInt32();
    res := LoadEventList(r, if count < 0 then 0 else count);
  }

  /** The agent, grid and event sections. */
  method LoadCollections(r: Reader)
    returns (res: Result<(seq<Agent>, map<Int32, Agent>, seq<Cell>, seq<EventData>), LoadError>)
    requires r.Valid()
    modifies r
    ensures r.Valid()
    ensures res.Ok? ==>
      DecodeCollections(old(r.Rest())) == Ok(((Records(res.value.0), res.value.2, res.value.3), r.Rest()))
    ensures res.Ok? ==> fresh(res.value.0) && Indexes(res.value.1, res.value.0)
    ensures res.Err? ==> DecodeCollections(old(r.Rest())) == Err(res.error)
  {
    var agents := LoadAgents(r);
    if agents.Err? {
      return Err(agents.error);
    }
    ghost var records := Records(agents.value.0);
    var grid := LoadGrid(r);
    if grid.Err? {
      return Err(grid.error);
    }
    var events := LoadEvents(r);
    if events.None? {
      return Err(Truncated);
    }
    assert Records(agents.value.0) == records && Indexes(agents.value.1, agents.value.0);
    return Ok((agents.value.0, agents.value.1, grid.value, events.value));
  }

  /** Everything after the header. */
  method LoadSections(r: Reader) returns (res: Result<State, LoadError>)
    requires r.Valid()
    modifies r
    ensures r.Valid()
    ensures res.Ok? ==> DecodeSections(old(r.Rest())) == Ok((SnapshotOf(res.value), r.Rest()))
    ensures res.Ok? ==> fresh(res.value.agents) && fresh(res.value.prng) && ActiveIndexed(res.value) && res.value.mapData.None?
    ensures res.Err? ==> DecodeSections(old(r.Rest())) == Err(res.error)
  {
    var info := LoadInfo(r);
    if info.None? {
      return Err(Truncated);
    }
    var config := LoadConfig(r);
    if config.Err? {
      return Err(config.error);
    }
    var prng := LoadPrng(r);
    if prng.None? {
      return Err(Truncated);
    }
    var lists := LoadCollections(r);
    if lists.Err? {
      return Err(lists.error);
    }
    var (agents, active, grid, events) := lists.value;
    var generator := new Generator(prng.value);
    return Ok(State(info.value, config.value, generator, agents, active, grid, events, None));
  }

  /**
    LoadState: the sections in save order, into a new State. Map data is
    not part of a save: the new state has none until Load carries it over.
   */
  method LoadState(r: Reader) returns (res: Result<State, LoadError>)
    requires r.Valid()
    modifies r
    ensures r.Valid()
    ensures res.Ok? ==> DecodeSnapshot(old(r.Rest())) == Ok((SnapshotOf(res.value), r.Rest()))
    ensures res.Ok? ==> fresh(res.value.agents) && fresh(res.value.prng) && ActiveIndexed(res.value) && res.value.mapData.None?
    ensures res.Err? ==> DecodeSnapshot(old(r.Rest())) == Err(res.error)
  {
    var header := LoadHeader(r);
    if header.Err? {
      return Err(header.error);
    }
    AfterHeader(old(r.Rest()));
    res := LoadSections(r);
  }
}
