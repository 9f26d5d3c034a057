/**
  The simulation's State: the world fields a save records, the agent list,
  the map from entity id to active agent, the grid, the events and the
  loaded map data (which a save does not record).
 */
module WorldState {
  import opened Wrappers
  import opened Numeric
  import opened RandomGen
  import opened Configs
  import opened Agents
  import opened SaveFormat
  import opened MapLoad

  datatype State = State(
    info: Info,
    config: Config,
    prng: Generator,
    agents: seq<Agent>,
    active: map<Int32, Agent>,
    grid: seq<Cell>,
    events: seq<EventData>,
    mapData: Option<MapData>)

  /** The agents' current field values, in list order. */
  function Records(agents: seq<Agent>): (r: seq<AgentRecord>)
    reads agents
    ensures |r| == |agents|
    decreases |agents|
  {
    if |agents| == 0 then [] else Records(agents[..|agents| - 1]) + [agents[|agents| - 1].Record()]
  }

  /** What a save of `s` records. */
  function SnapshotOf(s: State): Snapshot
    reads s.agents, s.prng
  {
    Snapshot(s.info, s.config, s.prng.value, Records(s.agents), s.grid, s.events)
  }

  /**
    `active` holds exactly the active agents of `agents`, each under its
    own entity id.
   */
  predicate Indexes(active: map<Int32, Agent>, agents: seq<Agent>)
    reads agents
  {
    && active.Keys == ActiveIds(Records(agents))
    && (forall id :: id in active ==>
          active[id] in agents && active[id].entityId == id && active[id].currentState == StateActive)
  }

  /** Appending an agent to the list, and filing it when it is active, keeps the index. */
  lemma IndexesSnoc(active: map<Int32, Agent>, agents: seq<Agent>, agent: Agent)
    requires Indexes(active, agents)
    ensures Records(agents + [agent]) == Records(agents) + [agent.Record()]
    ensures agent.currentState != StateActive ==> Indexes(active, agents + [agent])
    ensures agent.currentState == StateActive && agent.entityId !in active ==>
      Indexes(active[agent.entityId := agent], agents + [agent])
  {
    var xs := agents + [agent];
    assert xs[..|agents|] == agents;
    assert Records(xs) == Records(agents) + [agent.Record()];
    KeySetSnoc(ActiveKey, Records(agents), agent.Record());
  }

  /** The state's `Active` dictionary indexes its agent list. */
  predicate ActiveIndexed(s: State)
    reads s.agents
  {
    Indexes(s.active, s.agents)
  }
}
