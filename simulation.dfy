/**
  Simulation.cs: the Simulation object's lifecycle flags (running, paused,
  the worker thread), its start-location draws, Populate and Reset, the
  game-thread entry points, and the save/load entry points of
  Simulation.LoadSave.cs.

  The draws are methods that advance the state's generator; each is proved
  to compute what the corresponding function of the Placement module
  computes. The operations this file calls but does not define (Tick, Warp,
  MoveInGrid, SetupGrid, SetupProcessors, MarkAgentDead, ProcessSpawnQueue,
  CheckAgentDespawn) are not part of this model: each one appends an entry
  to a call log, so that contracts can say which of them ran and in what
  order.
 */
module Simulation {
  import opened Wrappers
  import opened Numeric
  import opened Wire
  import opened RandomGen
  import opened Configs
  import opened Agents
  import opened SaveFormat
  import opened WorldState
  import opened LoadSave
  import opened Placement

  const TicksPerSecond: int := 40
  /** `1000 / TicksPerSecond`, an integer division: 25 milliseconds. */
  const TickRateMs: int := 1000 / TicksPerSecond

  /** 1.0f, the speed scale of a new simulation. */
  const NormalScale: Single := Single(0x3F80_0000)
  /** 256.0f, the speed scale FastAdvance ticks at. */
  const FastScale: Single := Single(0x4380_0000)

  datatype Color = Color(argb: UInt32)

  /** An operation that is not part of this model, as it was invoked. */
  datatype Call =
    | Tick(speedScale: Single)
    | Warp(agent: Agent)
    | MoveInGrid(agent: Agent)
    | SetupGrid
    | SetupProcessors(config: Config)
    | MarkAgentDead(agent: Agent)
    | ProcessSpawnQueue
    | CheckAgentDespawn

  // ----- tick pacing -----

  /** C#'s cast of a double to int: truncation toward zero. */
  function Truncate(x: real): int
  {
    if x >= 0.0 then x.Floor else -((-x).Floor)
  }

  function Clamp(v: int, lo: int, hi: int): int
    requires lo <= hi
  {
    if v < lo then lo else if v > hi then hi else v
  }

  /** The worker thread's sleep after a tick that took `elapsedMs`, as the code computes it. */
  function SleepTime(elapsedMs: real): (ms: int)
    ensures 0 <= ms <= TickRateMs
  {
    Clamp(Truncate(elapsedMs - TickRateMs as real), 0, TickRateMs)
  }

  /** The sleep that keeps ticks TickRateMs apart: what is left of the period. */
  function IntendedSleepTime(elapsedMs: real): (ms: int)
    ensures 0 <= ms <= TickRateMs
  {
    Clamp(Truncate(TickRateMs as real - elapsedMs), 0, TickRateMs)
  }

  /** As written, a tick that finishes early is followed by no sleep at all, and a late one by a sleep. */
  lemma SleepTimeInverted()
    ensures SleepTime(0.0) == 0 && IntendedSleepTime(0.0) == TickRateMs
    ensures SleepTime(30.0) == 5 && IntendedSleepTime(30.0) == 0
  {
    assert (25.0 as real).Floor == 25;
    assert (5.0 as real).Floor == 5;
  }

  /** As written, every tick shorter than the period is followed by no sleep. */
  lemma {:induction false} EarlyTicksNeverSleep(elapsedMs: real)
    requires 0.0 <= elapsedMs < TickRateMs as real
    ensures SleepTime(elapsedMs) == 0
  {
    var d := elapsedMs - TickRateMs as real;
    assert d < 0.0;
    assert (-d).Floor >= 0;
  }

  /** The intended sleep fills the rest of the period, to the millisecond, and no more. */
  lemma {:induction false} IntendedSleepFillsPeriod(elapsedMs: real)
    requires 0.0 <= elapsedMs
    ensures elapsedMs + IntendedSleepTime(elapsedMs) as real <= TickRateMs as real || IntendedSleepTime(elapsedMs) == 0
    ensures elapsedMs + IntendedSleepTime(elapsedMs) as real > TickRateMs as real - 1.0
  {
    var d := TickRateMs as real - elapsedMs;
    if d >= 0.0 {
      assert d.Floor as real <= d < d.Floor as real + 1.0;
      assert d.Floor <= TickRateMs;
    } else {
      assert (-d).Floor >= 0;
    }
  }

  // ----- the call log of Populate -----

  /** Populate's unshown calls for the agents it appended: Warp, then MoveInGrid, for each in turn. */
  function PlacementLog(agents: seq<Agent>): (r: seq<Call>)
    ensures |r| == 2 * |agents|
    ensures forall i :: 0 <= i < |agents| ==> r[2 * i] == Warp(agents[i]) && r[2 * i + 1] == MoveInGrid(agents[i])
    decreases |agents|
  {
    if |agents| == 0 then []
    else PlacementLog(agents[..|agents| - 1]) + [Warp(agents[|agents| - 1]), MoveInGrid(agents[|agents| - 1])]
  }

  /** FastAdvance's log: `n` ticks at the fast scale. */
  function FastTicks(n: int): (r: seq<Call>)
    ensures |r| == if n < 0 then 0 else n
    ensures forall i :: 0 <= i < |r| ==> r[i] == Tick(FastScale)
  {
    seq(if n < 0 then 0 else n, _ => Tick(FastScale))
  }

  /** A method's outcome `r`, with the generator `g` it leaves, is the outcome `expected` that its function computes. */
  predicate Agrees<T(==)>(r: Result<T, SimError>, expected: Result<(T, Random), SimError>, g: Random)
  {
    match r
    case Ok(v) => expected == Ok((v, g))
    case Err(e) => expected == Err(e)
  }

  /** Appending an agent appends its record. */
  lemma RecordsSnoc(agents: seq<Agent>, agent: Agent)
    ensures Records(agents + [agent]) == Records(agents) + [agent.Record()]
  {
    assert (agents + [agent])[..|agents|] == agents;
  }

  /** Appending an agent appends its Warp and MoveInGrid. */
  lemma PlacementSnoc(agents: seq<Agent>, agent: Agent)
    ensures PlacementLog(agents + [agent]) == PlacementLog(agents) + [Warp(agent), MoveInGrid(agent)]
  {
    assert (agents + [agent])[..|agents|] == agents;
  }

  /**
    EntityKilled acts exactly on the entity ids of active agents in the
    list, and the agent it marks dead is that listed agent.
   */
  lemma KilledAgentListed(s: State, entityId: Int32)
    requires ActiveIndexed(s)
    ensures entityId in s.active <==>
      exists i :: 0 <= i < |s.agents| && Records(s.agents)[i].currentState == StateActive && Records(s.agents)[i].entityId == entityId
    ensures entityId in s.active ==>
      s.active[entityId] in s.agents && s.active[entityId].entityId == entityId && s.active[entityId].currentState == StateActive
  {
    assert s.active.Keys == ActiveIds(Records(s.agents));
    ActiveIdsMembers(Records(s.agents), entityId);
  }

  /** What Reset leaves of the world the location code reads: the tick counter at zero and the new configuration. */
  function ResetWorld(w: Setting, config: Config): (r: Setting)
    ensures r.ticks == 0 && r.config == config
    ensures r.worldMins == w.worldMins && r.worldMaxs == w.worldMaxs && r.mapData == w.mapData
  {
    w.(ticks := 0, config := config)
  }

  /**
    The Simulation object. `state` is `_state`; `hasThread` is whether
    `_thread` is set; `groupStarts` is `_groupStarts`; `processorColors`
    are the colours of the processors SetupProcessors built; `calls` logs
    the operations that are not part of this model. The float arithmetic,
    ColorTable.GetColorForIndex and the processor colours a configuration
    yields are fixed functions.
   */
  class Simulation {
    var state: State
    var running: bool
    var paused: bool
    var hasThread: bool
    var speedScale: Single
    var groupStarts: array<Vector3>
    var processorColors: seq<Color>
    var calls: seq<Call>
    const host: Host
    const colorTable: Int32 -> Color
    const processorsFor: Config -> seq<Color>

    constructor (initial: State, host: Host, colorTable: Int32 -> Color, processorsFor: Config -> seq<Color>)
      ensures state == initial && this.host == host && this.colorTable == colorTable && this.processorsFor == processorsFor
      ensures !running && !paused && !hasThread && speedScale == NormalScale
      ensures groupStarts.Length == 0 && processorColors == [] && calls == []
    {
      state := initial;
      running := false;
      paused := false;
      hasThread := false;
      speedScale := NormalScale;
      groupStarts := new Vector3[0];
      processorColors := [];
      calls := [];
      this.host := host;
      this.colorTable := colorTable;
      this.processorsFor := processorsFor;
    }

    /** What the location code reads of the state. */
    function World(): Setting
      reads this
    {
      Setting(state.info.worldMins, state.info.worldMaxs, state.info.ticks, state.config, state.mapData)
    }

    // ----- draws -----

    /** GetRandomPosition. */
    method GetRandomPosition() returns (p: Vector3)
      modifies state.prng
      ensures (p, state.prng.value) == RandomPosition(World(), host, old(state.prng.value))
    {
      var mins, maxs := state.info.worldMins, state.info.worldMaxs;
      var x0 := state.prng.DrawDouble();
      var y0 := state.prng.DrawDouble();
      var x := host.remap(x0, host.add(mins.x, BorderSize), host.sub(maxs.x, BorderSize));
      var y := host.remap(y0, host.add(mins.y, BorderSize), host.sub(maxs.y, BorderSize));
      p := Vector3(x, y, ZeroSingle);
    }

    /** GetRandomBorderPosition. */
    method GetRandomBorderPosition() returns (p: Vector3)
      modifies state.prng
      ensures (p, state.prng.value) == RandomBorderPosition(World(), host, old(state.prng.value))
    {
      var mins, maxs := state.info.worldMins, state.info.worldMaxs;
      p := ZeroVector;
      var side := state.prng.Draw(0, 4);
      if side == 0 {
        var x0 := state.prng.DrawDouble();
        p := p.(x := host.remap(x0, host.add(mins.x, BorderSize), host.sub(maxs.x, BorderSize)));
        p := p.(y := host.add(mins.y, BorderSize));
      } else if side == 1 {
        p := p.(x := host.sub(maxs.x, BorderSize));
        var y0 := state.prng.DrawDouble();
        p := p.(y := host.remap(y0, host.add(mins.y, BorderSize), host.sub(maxs.y, BorderSize)));
      } else if side == 2 {
        var x0 := state.prng.DrawDouble();
        p := p.(x := host.remap(x0, host.add(mins.x, BorderSize), host.sub(maxs.x, BorderSize)));
        p := p.(y := host.sub(maxs.y, BorderSize));
      } else if side == 3 {
        p := p.(x := host.add(mins.x, BorderSize));
        var y0 := state.prng.DrawDouble();
        p := p.(y := host.remap(y0, host.add(mins.y, BorderSize), host.sub(maxs.y, BorderSize)));
      }
    }

    /** GetRandomPOIPosition. */
    method GetRandomPoiPosition() returns (r: Result<Vector3, SimError>)
      modifies state.prng
      ensures Agrees(r, RandomPoiPosition(World(), host, old(state.prng.value)), state.prng.value)
    {
      match state.mapData {
        case None =>
          var p := GetRandomBorderPosition();
          r := Ok(p);
        case Some(m) =>
          var decos := m.prefabs.decorations;
          if |decos| == 0 {
            r := Err(IndexOutOfRange);
          } else {
            var i := state.prng.Draw(0, |decos|);
            r := Ok(decos[i].position);
          }
      }
    }

    /** GetWorldLocation. */
    method GetWorldLocation(location: Int32) returns (r: Result<Vector3, SimError>)
      modifies state.prng
      ensures Agrees(r, WorldLocation(World(), host, old(state.prng.value), location), state.prng.value)
    {
      var kind: int := location;
      if location == LocationMixed {
        kind := state.prng.Draw(LocationRandomBorder as int, LocationRandomPOI as int + 1);
      }
      if kind == LocationRandomBorder {
        var p := GetRandomBorderPosition();
        r := Ok(p);
      } else if kind == LocationRandom {
        var p := GetRandomPosition();
        r := Ok(p);
      } else if kind == LocationRandomPOI {
        r := GetRandomPoiPosition();
      } else {
        r := Err(BadLocation);
      }
    }

    /** GetStartLocation(): the configured start location. */
    method GetStartLocation() returns (r: Result<Vector3, SimError>)
      modifies state.prng
      ensures Agrees(r, WorldLocation(World(), host, old(state.prng.value), state.config.startPosition), state.prng.value)
    {
      r := GetWorldLocation(state.config.startPosition);
    }

    /** GetStartLocation(index, groupIndex) over the group starts `starts`; the index is not used. */
    method GetAgentStartLocation(starts: array<Vector3>, groupIndex: int) returns (r: Result<Vector3, SimError>)
      modifies state.prng
      ensures Agrees(r, AgentStartLocation(World(), host, old(state.prng.value), starts[..], groupIndex), state.prng.value)
    {
      if state.config.startAgentsGrouped {
        var angle := state.prng.DrawDouble();
        var radius := state.prng.DrawDouble();
        var offset := host.circleOffset(angle, radius, state.config.groupSize);
        if 0 <= groupIndex < starts.Length {
          r := Ok(host.vecAdd(starts[groupIndex], offset));
        } else {
          r := Err(IndexOutOfRange);
        }
      } else {
        r := GetStartLocation();
      }
    }

    // ----- Populate -----

    /** The running, paused, thread and speed fields and the processor colours keep their values. */
    twostate predicate Settled()
      reads this
    {
      running == old(running) && paused == old(paused) && hasThread == old(hasThread) && speedScale == old(speedScale)
      && processorColors == old(processorColors)
    }

    /** Populate's first loop: `starts[i] = GetStartLocation()` for every group, in order. */
    method FillGroupStarts(starts: array<Vector3>, ghost w: Setting) returns (r: Result<(), SimError>)
      requires w == World() && starts.Length <= 0x8000_0000
      modifies starts, state.prng
      ensures r.Ok? ==> GroupStarts(w, host, old(state.prng.value), starts.Length) == Ok((starts[..], state.prng.value))
      ensures r.Err? ==> GroupStarts(w, host, old(state.prng.value), starts.Length) == Err(r.error)
    {
      ghost var step := StartStep(w, host);
      ghost var gens := [state.prng.value];
      var i := 0;
      while i < starts.Length
        invariant 0 <= i <= starts.Length
        invariant Traced(step, gens, starts[..i]) && gens[0] == old(state.prng.value) && gens[i] == state.prng.value
      {
        ghost var placed := starts[..i];
        var p := AddGroupStart(starts, i, step, gens);
        if p.Err? {
          TracedFailure(step, gens, placed, p.error, starts.Length);
          return p;
        }
        gens := gens + [state.prng.value];
        i := i + 1;
      }
      TracedChain(step, gens, starts[..i]);
      assert starts[..i] == starts[..];
      r := Ok(());
    }

    /** One pass of the group-start loop: `starts[i] = GetStartLocation()`. */
    method AddGroupStart(starts: array<Vector3>, i: nat, ghost step: (Random, Int32) -> Result<(Vector3, Random), SimError>, ghost gens: seq<Random>)
      returns (r: Result<(), SimError>)
      requires step == StartStep(World(), host)
      requires i < starts.Length <= 0x8000_0000
      requires Traced(step, gens, starts[..i]) && gens[i] == state.prng.value
      modifies starts, state.prng
      ensures r.Ok? ==> Traced(step, gens + [state.prng.value], starts[..i + 1])
      ensures r.Err? ==> step(gens[i], i) == Err(r.error)
    {
      var p := GetStartLocation();
      if p.Err? {
        return Err(p.error);
      }
      starts[i] := p.value;
      assert starts[..i + 1] == old(starts[..i]) + [p.value];
      TracedSnoc(step, gens, old(starts[..i]), p.value, state.prng.value);
      r := Ok(());
    }

    /**
      One pass of Populate's agent loop, up to appending: a new agent for
      `index` in group `index / GroupSize`, stamped with the tick, placed
      at its start location and given a velocity.
     */
    method PlaceNext(starts: array<Vector3>, index: Int32) returns (r: Result<Agent, SimError>)
      modifies state.prng
      ensures r.Ok? ==> fresh(r.value)
      ensures r.Ok? ==> PlaceAgent(World(), host, starts[..], old(state.prng.value), index) == Ok((r.value.Record(), state.prng.value))
      ensures r.Err? ==> PlaceAgent(World(), host, starts[..], old(state.prng.value), index) == Err(r.error)
    {
      var group := IntDiv(index, state.config.groupSize);
      if group.Err? {
        return Err(group.error);
      }
      var agent := NewAgent(starts, index, group.value);
      if agent.Err? {
        return Err(agent.error);
      }
      SetVelocity(agent.value);
      r := agent;
    }

    /** `new Agent(index, groupIndex)`, stamped with the tick and placed at GetStartLocation(index, groupIndex). */
    method NewAgent(starts: array<Vector3>, index: Int32, group: Int32) returns (r: Result<Agent, SimError>)
      modifies state.prng
      ensures r.Ok? ==> fresh(r.value)
      ensures r.Ok? ==> AgentStartLocation(World(), host, old(state.prng.value), starts[..], group) == Ok((r.value.position, state.prng.value))
      ensures r.Ok? ==> r.value.Record() == FreshRecord(index, group).(lastUpdateTick := state.info.ticks, position := r.value.position)
      ensures r.Err? ==> AgentStartLocation(World(), host, old(state.prng.value), starts[..], group) == Err(r.error)
    {
      var agent := new Agent(index, group);
      agent.lastUpdateTick := state.info.ticks;
      var position := GetAgentStartLocation(starts, group);
      if position.Err? {
        return Err(position.error);
      }
      agent.position := position.value;
      r := Ok(agent);
    }

    /** The agent's velocity from two draws: `(float)(NextDouble() * 3f)` for x, then for y. */
    method SetVelocity(agent: Agent)
      modifies agent, state.prng
      ensures var (dx, g1) := NextDouble(old(state.prng.value)); var (dy, g2) := NextDouble(g1);
        && agent.Record() == old(agent.Record()).(velocity := Vector3(host.velocity(dx), host.velocity(dy), old(agent.velocity.z)))
        && state.prng.value == g2
    {
      var dx := state.prng.DrawDouble();
      var dy := state.prng.DrawDouble();
      agent.velocity := agent.velocity.(x := host.velocity(dx), y := host.velocity(dy));
    }

    /** One pass of the agent loop for the next index, `|agents|`: PlaceNext, traced against PlaceStep. */
    method AddAgent(starts: array<Vector3>, agents: seq<Agent>,
                    ghost step: (Random, Int32) -> Result<(AgentRecord, Random), SimError>, ghost gens: seq<Random>)
      returns (r: Result<Agent, SimError>)
      requires step == PlaceStep(World(), host, starts[..])
      requires |agents| < 0x8000_0000
      requires Traced(step, gens, Records(agents)) && gens[|agents|] == state.prng.value
      modifies state.prng
      ensures r.Ok? ==> fresh(r.value) && Traced(step, gens + [state.prng.value], Records(agents + [r.value]))
      ensures r.Err? ==> step(gens[|agents|], |agents|) == Err(r.error)
    {
      ghost var placed := Records(agents);
      r := PlaceNext(starts, |agents|);
      if r.Ok? {
        RecordsSnoc(agents, r.value);
        TracedSnoc(step, gens, placed, r.value.Record(), state.prng.value);
      }
    }

    /**
      Populate's agent loop: for every index below MaxAgents, PlaceNext,
      Warp, add to the agent list and MoveInGrid. The agents placed and the
      calls made are returned, up to the first throw.
     */
    method PlaceAll(starts: array<Vector3>, ghost w: Setting) returns (r: Result<(), SimError>, agents: seq<Agent>, log: seq<Call>)
      requires w == World()
      modifies state.prng
      ensures log == PlacementLog(agents) && fresh(agents)
      ensures r.Ok? ==> PlaceAgents(w, host, starts[..], old(state.prng.value), AgentCount(w.config)) == Ok((Records(agents), state.prng.value))
      ensures r.Err? ==> PlaceAgents(w, host, starts[..], old(state.prng.value), AgentCount(w.config)) == Err(r.error)
    {
      ghost var n := AgentCount(w.config);
      ghost var step := PlaceStep(w, host, starts[..]);
      ghost var gens := [state.prng.value];
      agents, log := [], [];
      var index := 0;
      while index < state.config.maxAgents
        invariant 0 <= index <= n && |agents| == index
        invariant log == PlacementLog(agents) && fresh(agents)
        invariant Traced(step, gens, Records(agents)) && gens[0] == old(state.prng.value) && gens[index] == state.prng.value
      {
        ghost var placed := Records(agents);
        var agent := AddAgent(starts, agents, step, gens);
        if agent.Err? {
          TracedFailure(step, gens, placed, agent.error, n);
          return Err(agent.error), agents, log;
        }
        PlacementSnoc(agents, agent.value);
        agents := agents + [agent.value];
        log := log + [Warp(agent.value), MoveInGrid(agent.value)];
        gens := gens + [state.prng.value];
        index := index + 1;
      }
      assert index == n;
      TracedChain(step, gens, Records(agents));
      r := Ok(());
    }

    /**
      Populate's work on a fresh group-start array: compute the group count
      (MaxAgents / GroupSize, plus one for a remainder), allocate and fill
      the group starts, then place MaxAgents agents around them.
     */
    method PopulateGroups(ghost w: Setting) returns (r: Result<(), SimError>, count: Int32, starts: array<Vector3>, agents: seq<Agent>, log: seq<Call>)
      requires w == World()
      modifies state.prng
      ensures fresh(starts) && fresh(agents) && log == PlacementLog(agents)
      ensures PopulateResult(w, host, old(state.prng.value))
              == if r.Ok? then Ok((starts[..], Records(agents), state.prng.value)) else Err(r.error)
      ensures r.Ok? ==> count as int == GroupCount(w.config.maxAgents, w.config.groupSize)
    {
      agents, log, count := [], [], 0;
      starts := new Vector3[0];
      var maxAgents, groupSize := state.config.maxAgents, state.config.groupSize;
      var quotient := IntDiv(maxAgents, groupSize);
      if quotient.Err? {
        return Err(quotient.error), count, starts, agents, log;
      }
      GroupDivisionFits(maxAgents, groupSize);
      var n := quotient.value;
      if CsRem(maxAgents, groupSize) != 0 {
        n := n + 1;
      }
      if n < 0 {
        return Err(Overflow), count, starts, agents, log;
      }
      count := n;
      starts := new Vector3[count](_ => ZeroVector);
      PopulateStages(w, host, state.prng.value, starts.Length);
      r := FillGroupStarts(starts, w);
      if r.Err? {
        return;
      }
      r, agents, log := PlaceAll(starts, w);
    }

    /** Populate's assignments: the new group starts, group count and agent list, and the calls made. */
    method Install(count: Int32, starts: array<Vector3>, agents: seq<Agent>, log: seq<Call>)
      modifies this
      ensures groupStarts == starts && calls == old(calls) + log
      ensures state == old(state).(agents := agents, info := old(state.info).(groupCount := count))
      ensures Settled()
    {
      groupStarts := starts;
      state := state.(agents := agents, info := state.info.(groupCount := count));
      calls := calls + log;
    }

    /**
      Populate: replace the group starts and the agent list with those
      PopulateGroups builds and log the Warp and MoveInGrid calls. The
      Active dictionary is left as it was.
     */
    method Populate() returns (r: Result<(), SimError>)
      modifies this, state.prng
      ensures PopulateResult(old(World()), host, old(state.prng.value))
              == if r.Ok? then Ok((groupStarts[..], Records(state.agents), state.prng.value)) else Err(r.error)
      ensures r.Ok? ==> && state == old(state).(agents := state.agents, info := old(state.info).(groupCount := state.info.groupCount))
                        && state.info.groupCount as int == GroupCount(state.config.maxAgents, state.config.groupSize)
                        && calls == old(calls) + PlacementLog(state.agents) && fresh(state.agents) && fresh(groupStarts)
      ensures r.Err? ==> state == old(state) && calls == old(calls) && groupStarts == old(groupStarts)
      ensures Settled()
    {
      var count, starts, agents, log;
      r, count, starts, agents, log := PopulateGroups(World());
      if r.Ok? {
        Install(count, starts, agents, log);
      }
    }

    // ----- lifecycle -----

    /** The generator, the call log and the fields other than the lifecycle flags keep their values. */
    twostate predicate WorkKept()
      reads this
    {
      && state == old(state) && calls == old(calls) && groupStarts == old(groupStarts)
      && speedScale == old(speedScale) && processorColors == old(processorColors)
    }

    /** Stop: with a worker thread, clear the running flag and drop the thread; without one, nothing. */
    method Stop()
      modifies this
      ensures !hasThread
      ensures running == (old(running) && !old(hasThread)) && paused == old(paused)
      ensures WorkKept()
    {
      if !hasThread {
        return;
      }
      running := false;
      hasThread := false;
    }

    /** Start: stop any worker, then set the running flag and start a new worker thread. */
    method Start()
      modifies this
      ensures running && hasThread && paused == old(paused)
      ensures WorkKept()
    {
      Stop();
      running := true;
      hasThread := true;
    }

    /** SetPaused: the paused flag becomes `p`. */
    method SetPaused(p: bool)
      modifies this
      ensures paused == p && running == old(running) && hasThread == old(hasThread)
      ensures WorkKept()
    {
      paused := p;
    }

    /** FastAdvance: `numTicks` ticks at 256 times the speed, after which the speed scale is what it was. */
    method FastAdvance(numTicks: Int32)
      modifies this
      ensures calls == old(calls) + FastTicks(numTicks as int)
      ensures speedScale == old(speedScale) && state == old(state) && groupStarts == old(groupStarts)
      ensures Settled()
    {
      var oldScale := speedScale;
      speedScale := FastScale;
      var i := 0;
      while i < numTicks
        invariant 0 <= i <= if numTicks < 0 then 0 else numTicks as int
        invariant calls == old(calls) + FastTicks(i) && speedScale == FastScale
        invariant state == old(state) && groupStarts == old(groupStarts)
        invariant running == old(running) && paused == old(paused) && hasThread == old(hasThread)
        invariant processorColors == old(processorColors)
      {
        calls := calls + [Tick(speedScale)];
        assert FastTicks(i) + [Tick(FastScale)] == FastTicks(i + 1);
        i := i + 1;
      }
      assert FastTicks(i) == FastTicks(numTicks as int);
      speedScale := oldScale;
    }

    // ----- Reset -----

    /** Reset's reseeding: the new configuration, a generator seeded from it, and the iteration, wind-change and tick counters at zero. */
    method Reseed(config: Config)
      modifies this
      ensures state == old(state).(config := config, prng := state.prng,
                                   info := old(state.info).(slowIterator := 0, tickNextWindChange := 0, ticks := 0))
      ensures fresh(state.prng) && state.prng.value == Seeded(config.randomSeed)
      ensures calls == old(calls) && groupStarts == old(groupStarts) && Settled()
    {
      var generator := new Generator(Seeded(config.randomSeed));
      state := state.(config := config, prng := generator,
                      info := state.info.(slowIterator := 0, tickNextWindChange := 0, ticks := 0));
    }

    /** SetupProcessors, as far as this model sees it: logged, and the processor colours those of the configuration. */
    method RunSetupProcessors()
      modifies this
      ensures calls == old(calls) + [SetupProcessors(state.config)] && processorColors == processorsFor(state.config)
      ensures state == old(state) && groupStarts == old(groupStarts)
      ensures running == old(running) && paused == old(paused) && hasThread == old(hasThread) && speedScale == old(speedScale)
    {
      calls := calls + [SetupProcessors(state.config)];
      processorColors := processorsFor(state.config);
    }

    /**
      Reset: stop the worker, store the configuration, reseed the generator
      from its seed, zero the counters, then SetupGrid, Populate and
      SetupProcessors in that order.
     */
    method Reset(config: Config) returns (r: Result<(), SimError>)
      modifies this
      ensures PopulateResult(ResetWorld(old(World()), config), host, Seeded(config.randomSeed))
              == if r.Ok? then Ok((groupStarts[..], Records(state.agents), state.prng.value)) else Err(r.error)
      ensures state.config == config && fresh(state.prng)
      ensures state.info == old(state.info).(slowIterator := 0, tickNextWindChange := 0, ticks := 0, groupCount := state.info.groupCount)
      ensures state.active == old(state.active) && state.grid == old(state.grid) && state.events == old(state.events)
      ensures state.mapData == old(state.mapData)
      ensures r.Ok? ==> calls == old(calls) + [SetupGrid] + PlacementLog(state.agents) + [SetupProcessors(config)]
      ensures r.Ok? ==> processorColors == processorsFor(config)
      ensures r.Err? ==> calls == old(calls) + [SetupGrid]
      ensures !hasThread && running == (old(running) && !old(hasThread)) && paused == old(paused) && speedScale == old(speedScale)
    {
      Stop();
      Reseed(config);
      calls := calls + [SetupGrid];
      r := Populate();
      if r.Err? {
        return;
      }
      RunSetupProcessors();
    }

    // ----- game-thread entry points -----

    /** EntityKilled: an entity id that `Active` holds has its agent marked dead; any other id is ignored. */
    method EntityKilled(entityId: Int32)
      modifies this
      ensures calls == old(calls) + if entityId in state.active then [MarkAgentDead(state.active[entityId])] else []
      ensures state == old(state) && groupStarts == old(groupStarts) && speedScale == old(speedScale) && Settled()
    {
      if entityId in state.active {
        calls := calls + [MarkAgentDead(state.active[entityId])];
      }
    }

    /** GameUpdate: while running and not paused, process the spawn queue, then check for despawns. */
    method GameUpdate(deltaTime: Single)
      modifies this
      ensures calls == old(calls) + if running && !paused then [ProcessSpawnQueue, CheckAgentDespawn] else []
      ensures state == old(state) && groupStarts == old(groupStarts) && speedScale == old(speedScale) && Settled()
    {
      if !running || paused {
        return;
      }
      calls := calls + [ProcessSpawnQueue, CheckAgentDespawn];
    }

    /**
      GetGroupColor: a group without a processor takes its colour from the
      colour table; a negative index throws, as List indexing does.
     */
    function GroupColor(groupIndex: Int32): (r: Result<Color, SimError>)
      reads this
      ensures r.Err? <==> groupIndex < 0
      ensures r.Err? ==> r.error == IndexOutOfRange
      ensures groupIndex >= |processorColors| ==> r == Ok(colorTable(groupIndex))
      ensures 0 <= groupIndex < |processorColors| ==> r == Ok(processorColors[groupIndex])
    {
      if groupIndex as int >= |processorColors| then Ok(colorTable(groupIndex))
      else if groupIndex < 0 then Err(IndexOutOfRange)
      else Ok(processorColors[groupIndex])
    }

    // ----- save and load -----

    /** Save(Stream): the state, as SaveState writes it; false when the stream cannot take it all. */
    method Save(w: Writer) returns (ok: bool)
      requires w.Valid() && Encodable(SnapshotOf(state))
      modifies w
      ensures w.Valid() && w.intended == old(w.intended) + EncodeSnapshot(old(SnapshotOf(state)))
      ensures ok <==> |old(w.intended)| + |EncodeSnapshot(old(SnapshotOf(state)))| <= w.capacity
    {
      var snapshot := SnapshotOf(state);
      SaveState(snapshot, w);
      ok := !w.failed;
    }

    /**
      Load(Stream): a new state from the stream, which replaces the current
      one only once it has been read in full; the map data carries over and
      the processors are set up again. On failure nothing changes.
     */
    method Load(rd: Reader) returns (ok: bool)
      requires rd.Valid()
      modifies this, rd
      ensures rd.Valid()
      ensures ok <==> DecodeSnapshot(old(rd.Rest())).Ok?
      ensures ok ==> DecodeSnapshot(old(rd.Rest())) == Ok((SnapshotOf(state), rd.Rest()))
      ensures ok ==> && ActiveIndexed(state) && state.mapData == old(state.mapData)
                     && fresh(state.agents) && fresh(state.prng)
      ensures ok ==> calls == old(calls) + [SetupProcessors(state.config)] && processorColors == processorsFor(state.config)
      ensures !ok ==> state == old(state) && calls == old(calls) && processorColors == old(processorColors)
      ensures groupStarts == old(groupStarts) && running == old(running) && paused == old(paused)
      ensures hasThread == old(hasThread) && speedScale == old(speedScale)
    {
      var loaded := LoadState(rd);
      if loaded.Err? {
        return false;
      }
      Adopt(loaded.value);
      ok := true;
    }

    /** Load's swap: `s` becomes the state, keeping the current map data, and SetupProcessors runs. */
    method Adopt(s: State)
      modifies this
      ensures state == s.(mapData := old(state.mapData))
      ensures SnapshotOf(state) == SnapshotOf(s) && (ActiveIndexed(s) ==> ActiveIndexed(state))
      ensures calls == old(calls) + [SetupProcessors(s.config)] && processorColors == processorsFor(s.config)
      ensures groupStarts == old(groupStarts) && running == old(running) && paused == old(paused)
      ensures hasThread == old(hasThread) && speedScale == old(speedScale)
    {
      state := s.(mapData := state.mapData);
      RunSetupProcessors();
    }
  }
}
