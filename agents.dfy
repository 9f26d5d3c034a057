/**
  The simulated agent and the world event, as far as a save records them.

  Agent.cs is not part of this model. An Agent is a class because the
  simulation updates its fields in place and keeps the same object both in
  the agent list and in the map of active agents. Its State enum is kept as
  its integer code (the declaration order Inactive, Queued, Active, Dead is
  assumed), since a load casts any stored int to it.
 */
module Agents {
  import opened Numeric

  const StateInactive: Int32 := 0
  const StateQueued: Int32 := 1
  const StateActive: Int32 := 2
  const StateDead: Int32 := 3

  /** The values of an agent's fields at one moment, in save order. */
  datatype AgentRecord = AgentRecord(
    index: Int32,
    group: Int32,
    position: Vector3,
    velocity: Vector3,
    cellIndex: Int32,
    entityId: Int32,
    entityClassId: Int32,
    health: Int32,
    currentState: Int32,
    lastUpdateTick: UInt32)

  /** What `new Agent(index, group)` holds (defaults assumed). */
  function FreshRecord(index: Int32, group: Int32): AgentRecord
  {
    AgentRecord(index, group, ZeroVector, ZeroVector, -1, -1, -1, -1, StateInactive, 0)
  }

  class Agent {
    var index: Int32
    var group: Int32
    var position: Vector3
    var velocity: Vector3
    var cellIndex: Int32
    var entityId: Int32
    var entityClassId: Int32
    var health: Int32
    var currentState: Int32
    var lastUpdateTick: UInt32

    constructor (index: Int32, group: Int32)
      ensures Record() == FreshRecord(index, group)
    {
      this.index := index;
      this.group := group;
      position := ZeroVector;
      velocity := ZeroVector;
      cellIndex := -1;
      entityId := -1;
      entityClassId := -1;
      health := -1;
      currentState := StateInactive;
      lastUpdateTick := 0;
    }

    /** `new Agent()` followed by one assignment per field, as a load does. */
    constructor FromRecord(r: AgentRecord)
      ensures Record() == r
    {
      index := r.index;
      group := r.group;
      position := r.position;
      velocity := r.velocity;
      cellIndex := r.cellIndex;
      entityId := r.entityId;
      entityClassId := r.entityClassId;
      health := r.health;
      currentState := r.currentState;
      lastUpdateTick := r.lastUpdateTick;
    }

    function Record(): AgentRecord
      reads this
    {
      AgentRecord(index, group, position, velocity, cellIndex, entityId,
                  entityClassId, health, currentState, lastUpdateTick)
    }
  }

  /** A world event (noise and the like) that attracts agents. */
  datatype EventData = EventData(eventType: Int32, position: Vector3, radius: Single, decayRate: Single)
}
