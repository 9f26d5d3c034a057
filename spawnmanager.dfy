/**
  SpawnManager.cs: the ceiling on spawned zombies, the choice of an entity
  class for an agent, and the hand-over of an agent to a game entity
  (SpawnAgent) and back (DespawnAgent).

  Every query into the game engine is an input: the answers the engine
  would give (whether the world exists, the enemy count, whether the
  agent's chunk is loaded, the biome's spawn groups, the successive random
  picks, the entity it creates) are passed in as values, so the decisions
  and the writes to the agent are what is modelled. Entity creation,
  SpawnEntityInWorld and RemoveEntity have no effect the model tracks
  beyond the values they return.
 */
module Spawning {
  import opened Wrappers
  import opened Numeric
  import opened Agents

  // ----- the spawn ceiling -----

  /** CanSpawnZombie: fewer enemies alive than half the MaxSpawnedZombies preference, halved by C#'s truncating `/ 2`. */
  predicate CanSpawnZombie(alive: Int32, maxSpawned: Int32)
  {
    alive < CsDiv(maxSpawned, 2)
  }

  /** With a non-negative preference, a spawn is allowed exactly while one more enemy still fits in half of it. */
  lemma {:induction false} CanSpawnZombieHalf(alive: Int32, maxSpawned: Int32)
    requires maxSpawned >= 0
    ensures CanSpawnZombie(alive, maxSpawned) <==> 2 * (alive + 1) <= maxSpawned
  {
    assert CsDiv(maxSpawned, 2) == maxSpawned / 2;
  }

  /** The halving truncates toward zero: a preference of -3 allows up to -1 exclusive, not -2. */
  lemma CanSpawnZombieTruncates()
    ensures CanSpawnZombie(-2, -3) && !CanSpawnZombie(-1, -3)
  {
    assert CsDiv(-3, 2) == -1;
  }

  /** CanSpawnAtPosition: the world exists, mobs may spawn there, and no bedroll is in range. */
  predicate CanSpawnAtPosition(worldPresent: bool, mobsCanSpawn: bool, nearBedroll: bool)
  {
    worldPresent && mobsCanSpawn && !nearBedroll
  }

  // ----- GetEntityClassId -----

  /**
    A biome spawn group: the time of day it spawns at (EDaytime, as its
    code), whether EntityGroups calls it an enemy group, and whether
    EntityGroups lists it.
   */
  datatype BiomeGroup = BiomeGroup(daytime: int, enemy: bool, registered: bool)

  /**
    The engine's answers for one GetEntityClassId: the biome's spawn
    groups (None when BiomeSpawningClass has no list for the biome), the
    current time of day, the successive `RandomRange(0, count)` picks and
    the successive GetRandomFromGroup results.
   */
  datatype ClassQuery = ClassQuery(groups: Option<seq<BiomeGroup>>, now: int, picks: seq<int>, classes: seq<Int32>)

  /** Every pick is an index into the spawn groups, as RandomRange(0, count) promises. */
  predicate PicksInRange(q: ClassQuery)
  {
    q.groups.Some? ==> forall k :: 0 <= k < |q.picks| ==> 0 <= q.picks[k] < |q.groups.value|
  }

  /** The outcome of the attempt loop; OutOfDraws means the given picks or classes ran out first. */
  datatype Search = Found(classId: Int32) | NoClass | OutOfDraws

  /** A class id the code accepts: neither -1 nor 0. */
  predicate Usable(classId: int)
  {
    classId != -1 && classId != 0
  }

  /** The group may be asked for a class: right time of day, an enemy group, and a listed one. */
  predicate Qualifies(g: BiomeGroup, now: int)
  {
    g.daytime == now && g.enemy && g.registered
  }

  /**
    The attempt loop from the state where `attempts` attempts are left and
    `lastPick` was the last pick: a pick equal to the last one is drawn
    again without using an attempt; any other pick uses one, and a
    qualifying group's class is returned when it is usable.
   */
  function ClassSearch(groups: seq<BiomeGroup>, now: int, picks: seq<int>, classes: seq<Int32>, attempts: int, lastPick: int)
    : (r: Search)
    requires forall k :: 0 <= k < |picks| ==> 0 <= picks[k] < |groups|
    decreases |picks|
  {
    if attempts <= 0 then NoClass
    else if |picks| == 0 then OutOfDraws
    else if picks[0] == lastPick then ClassSearch(groups, now, picks[1..], classes, attempts, lastPick)
    else if !Qualifies(groups[picks[0]], now) then ClassSearch(groups, now, picks[1..], classes, attempts - 1, picks[0])
    else if |classes| == 0 then OutOfDraws
    else if Usable(classes[0]) then Found(classes[0])
    else ClassSearch(groups, now, picks[1..], classes[1..], attempts - 1, picks[0])
  }

  /** GetEntityClassId's result: -1 without a group list, otherwise the search over min(count, 10) attempts. */
  function EntityClassSearch(q: ClassQuery): Search
    requires PicksInRange(q)
  {
    match q.groups
    case None => NoClass
    case Some(groups) => ClassSearch(groups, q.now, q.picks, q.classes, if |groups| < 10 then |groups| else 10, -1)
  }

  /** A class the search finds is usable and is one of the classes GetRandomFromGroup returned. */
  lemma {:induction false} FoundIsUsable(groups: seq<BiomeGroup>, now: int, picks: seq<int>, classes: seq<Int32>, attempts: int, lastPick: int)
    requires forall k :: 0 <= k < |picks| ==> 0 <= picks[k] < |groups|
    ensures var r := ClassSearch(groups, now, picks, classes, attempts, lastPick);
      r.Found? ==> Usable(r.classId) && r.classId in classes
    decreases |picks|
  {
    if attempts > 0 && |picks| > 0 {
      if picks[0] == lastPick || !Qualifies(groups[picks[0]], now) {
        FoundIsUsable(groups, now, picks[1..], classes, attempts - (if picks[0] == lastPick then 0 else 1),
                      if picks[0] == lastPick then lastPick else picks[0]);
      } else if |classes| > 0 && !Usable(classes[0]) {
        FoundIsUsable(groups, now, picks[1..], classes[1..], attempts - 1, picks[0]);
      }
    }
  }

  /**
    Every class request uses an attempt, so the search asks for at most
    `attempts` classes: the classes after the first `attempts` never
    matter.
   */
  lemma {:induction false} AtMostAttemptsClasses(groups: seq<BiomeGroup>, now: int, picks: seq<int>, classes: seq<Int32>, attempts: nat, lastPick: int)
    requires forall k :: 0 <= k < |picks| ==> 0 <= picks[k] < |groups|
    requires attempts <= |classes|
    ensures ClassSearch(groups, now, picks, classes, attempts, lastPick)
         == ClassSearch(groups, now, picks, classes[..attempts], attempts, lastPick)
    decreases |picks|
  {
    if attempts > 0 && |picks| > 0 {
      if picks[0] == lastPick {
        AtMostAttemptsClasses(groups, now, picks[1..], classes, attempts, lastPick);
      } else if !Qualifies(groups[picks[0]], now) {
        AtMostAttemptsClasses(groups, now, picks[1..], classes, attempts - 1, picks[0]);
        AtMostAttemptsClasses(groups, now, picks[1..], classes[..attempts], attempts - 1, picks[0]);
        assert classes[..attempts][..attempts - 1] == classes[..attempts - 1];
      } else if !Usable(classes[0]) {
        AtMostAttemptsClasses(groups, now, picks[1..], classes[1..], attempts - 1, picks[0]);
        assert classes[..attempts][1..] == classes[1..][..attempts - 1];
      }
    }
  }

  /** A run of picks that repeat the last one uses no attempt: the search goes on as if they were not drawn. */
  lemma {:induction false} RepeatsAreFree(groups: seq<BiomeGroup>, now: int, repeats: nat, picks: seq<int>, classes: seq<Int32>, attempts: int, lastPick: int)
    requires 0 <= lastPick < |groups| && attempts > 0
    requires forall k :: 0 <= k < |picks| ==> 0 <= picks[k] < |groups|
    ensures ClassSearch(groups, now, seq(repeats, _ => lastPick) + picks, classes, attempts, lastPick)
         == ClassSearch(groups, now, picks, classes, attempts, lastPick)
    decreases repeats
  {
    if repeats > 0 {
      var all := seq(repeats, _ => lastPick) + picks;
      assert all[1..] == seq(repeats - 1, _ => lastPick) + picks;
      RepeatsAreFree(groups, now, repeats - 1, picks, classes, attempts, lastPick);
    } else {
      assert seq(repeats, _ => lastPick) + picks == picks;
    }
  }

  /** A biome without spawn groups, or without a list at all, yields no class, and no pick is drawn. */
  lemma NoGroupsNoClass(q: ClassQuery)
    requires PicksInRange(q)
    requires q.groups.None? || q.groups.value == []
    ensures EntityClassSearch(q) == NoClass
  {
  }

  /**
    GetEntityClassId's attempt loop: `i` counts the attempts used and
    `lastPick` is the previous pick; a repeated pick is drawn again
    without counting. `p` and `c` are how many picks and classes the
    engine has handed out.
   */
  method GetEntityClassId(q: ClassQuery) returns (r: Search)
    requires PicksInRange(q)
    ensures r == EntityClassSearch(q)
  {
    if q.groups.None? {
      return NoClass;
    }
    var groups := q.groups.value;
    var maxAttempts := if |groups| < 10 then |groups| else 10;
    var lastPick := -1;
    var i, p, c := 0, 0, 0;
    while i < maxAttempts
      invariant 0 <= i <= maxAttempts && p <= |q.picks| && c <= |q.classes|
      invariant ClassSearch(groups, q.now, q.picks[p..], q.classes[c..], maxAttempts - i, lastPick) == EntityClassSearch(q)
      decreases |q.picks| - p, maxAttempts - i
    {
      if p == |q.picks| {
        return OutOfDraws;
      }
      var pick := q.picks[p];
      assert q.picks[p..][1..] == q.picks[p + 1..];
      p := p + 1;
      if pick == lastPick {
        continue;
      }
      lastPick := pick;
      var group := groups[pick];
      if !Qualifies(group, q.now) {
        i := i + 1;
        continue;
      }
      if c == |q.classes| {
        return OutOfDraws;
      }
      var classId := q.classes[c];
      assert q.classes[c..][1..] == q.classes[c + 1..];
      c := c + 1;
      if Usable(classId) {
        return Found(classId);
      }
      i := i + 1;
    }
    return NoClass;
  }

  // ----- SpawnAgent -----

  /** The entity EntityFactory.CreateEntity returned: its entity id and its health right after creation. */
  datatype Created = Created(entityId: Int32, health: Int32)

  /**
    The engine's answers for one SpawnAgent: whether the world exists, the
    enemy count and the MaxSpawnedZombies preference, whether the agent's
    chunk is loaded, the position checks at the terrain height, the class
    search inputs, the ZombiesAll fallback pick, and the created entity
    (None when creation failed).
   */
  datatype SpawnWorld = SpawnWorld(
    present: bool,
    alive: Int32,
    maxSpawned: Int32,
    chunkLoaded: bool,
    mobsCanSpawn: bool,
    nearBedroll: bool,
    query: ClassQuery,
    fallbackClass: Int32,
    created: Option<Created>)

  /** Why SpawnAgent returned -1. */
  datatype SpawnFailure = NoWorld | Ceiling | NoChunk | BadPosition | NoClassId | NotCreated

  /** The class the search yields for a spawn: its find, else the ZombiesAll pick when usable. */
  function NewClass(env: SpawnWorld): (r: Result<Int32, SpawnFailure>)
    requires PicksInRange(env.query) && EntityClassSearch(env.query) != OutOfDraws
  {
    var found := EntityClassSearch(env.query);
    if found.Found? then Ok(found.classId)
    else if Usable(env.fallbackClass) then Ok(env.fallbackClass)
    else Err(NoClassId)
  }

  /** The class id SpawnAgent would create the entity with, or the check that stops it, in the order the code checks. */
  function SpawnClass(env: SpawnWorld, classId: Int32): (r: Result<Int32, SpawnFailure>)
    requires !Usable(classId) ==> PicksInRange(env.query) && EntityClassSearch(env.query) != OutOfDraws
  {
    if !env.present then Err(NoWorld)
    else if !CanSpawnZombie(env.alive, env.maxSpawned) then Err(Ceiling)
    else if !env.chunkLoaded then Err(NoChunk)
    else if !CanSpawnAtPosition(env.present, env.mobsCanSpawn, env.nearBedroll) then Err(BadPosition)
    else if Usable(classId) then Ok(classId)
    else NewClass(env)
  }

  /** The class chosen is always usable, and an agent's own usable class is kept whatever the biome offers. */
  lemma SpawnClassUsable(env: SpawnWorld, classId: Int32)
    requires !Usable(classId) ==> PicksInRange(env.query) && EntityClassSearch(env.query) != OutOfDraws
    ensures SpawnClass(env, classId).Ok? ==> Usable(SpawnClass(env, classId).value)
    ensures Usable(classId) ==> SpawnClass(env, classId) == SpawnClass(env.(query := ClassQuery(None, 0, [], [])), classId)
    ensures Usable(classId) && SpawnClass(env, classId).Ok? ==> SpawnClass(env, classId).value == classId
  {
    if !Usable(classId) && SpawnClass(env, classId).Ok? && EntityClassSearch(env.query).Found? {
      var q := env.query;
      var groups := q.groups.value;
      FoundIsUsable(groups, q.now, q.picks, q.classes, if |groups| < 10 then |groups| else 10, -1);
    }
  }

  /** SpawnAgent goes ahead exactly when the world exists, the ceiling allows it, the chunk is loaded and the position is fit. */
  lemma SpawnChecks(env: SpawnWorld, classId: Int32)
    requires !Usable(classId) ==> PicksInRange(env.query) && EntityClassSearch(env.query) != OutOfDraws
    ensures SpawnClass(env, classId).Ok? ==>
      env.present && CanSpawnZombie(env.alive, env.maxSpawned) && env.chunkLoaded && env.mobsCanSpawn && !env.nearBedroll
    ensures env.present && CanSpawnZombie(env.alive, env.maxSpawned) && env.chunkLoaded && env.mobsCanSpawn && !env.nearBedroll ==>
      (SpawnClass(env, classId).Ok? <==> Usable(classId) || NewClass(env).Ok?)
  {
  }

  /** The health an agent leaves SpawnAgent with: its own when it had one, else the new entity's. */
  function SpawnedHealth(previous: Int32, created: Int32): Int32
  {
    if previous != -1 then previous else created
  }

  /** SpawnManager's static state: the class id of the last entity it created. */
  class SpawnManager {
    var lastClassId: Int32

    constructor ()
      ensures lastClassId == -1
    {
      lastClassId := -1;
    }

    /**
      SpawnAgent: every check comes before any write, so a failure
      returns -1 with the agent and the last class id untouched; a
      success records the new entity's id, the class, the Active state
      and the health on the agent, remembers the class, and returns the
      entity id.
     */
    method SpawnAgent(agent: Agent, env: SpawnWorld) returns (id: int)
      requires !Usable(agent.entityClassId) ==> PicksInRange(env.query) && EntityClassSearch(env.query) != OutOfDraws
      modifies this, agent
      ensures var plan := SpawnClass(env, old(agent.entityClassId));
        if plan.Err? || env.created.None? then
          id == -1 && agent.Record() == old(agent.Record()) && lastClassId == old(lastClassId)
        else
          && id == env.created.value.entityId
          && lastClassId == plan.value
          && agent.Record() == old(agent.Record()).(entityId := env.created.value.entityId, entityClassId := plan.value,
                                                     currentState := StateActive,
                                                     health := SpawnedHealth(old(agent.health), env.created.value.health))
    {
      if !env.present {
        return -1;
      }
      if !CanSpawnZombie(env.alive, env.maxSpawned) {
        return -1;
      }
      if !env.chunkLoaded {
        return -1;
      }
      if !CanSpawnAtPosition(env.present, env.mobsCanSpawn, env.nearBedroll) {
        return -1;
      }
      var entityClassId := agent.entityClassId;
      if !Usable(entityClassId) {
        var found := GetEntityClassId(env.query);
        if found.Found? {
          entityClassId := found.classId;
        } else {
          entityClassId := env.fallbackClass;
          if !Usable(entityClassId) {
            return -1;
          }
        }
      }
      if env.created.None? {
        return -1;
      }
      var spawned := env.created.value;
      lastClassId := entityClassId;
      var health := SpawnedHealth(agent.health, spawned.health);
      agent.entityId := spawned.entityId;
      agent.entityClassId := entityClassId;
      agent.currentState := StateActive;
      agent.health := health;
      id := spawned.entityId;
    }
  }

  // ----- DespawnAgent -----

  /** The game entity an agent is taken back from: its health, its move direction and its position, in the engine's axes. */
  datatype Entity = Entity(health: Int32, moveDirection: Vector3, position: Vector3)

  /** The engine's y and z are the simulation's z and y. */
  function SwapYZ(v: Vector3): (r: Vector3)
    ensures r.x == v.x && r.y == v.z && r.z == v.y
  {
    Vector3(v.x, v.z, v.y)
  }

  /** Swapping the axes twice gives the vector back: the two frames differ only by that swap. */
  lemma SwapYZInvolution(v: Vector3)
    ensures SwapYZ(SwapYZ(v)) == v
  {
  }

  /**
    DespawnAgent: without a world or without the agent's entity it
    returns false and leaves the agent alone; otherwise it copies the
    entity's health, direction and position back (axes swapped, each
    passed through Vector3.Validate) and returns true. The entity id,
    class and state are not touched.
   */
  method DespawnAgent(agent: Agent, worldPresent: bool, entity: Option<Entity>, validate: Vector3 -> Vector3)
    returns (ok: bool)
    modifies agent
    ensures ok <==> worldPresent && entity.Some?
    ensures !ok ==> agent.Record() == old(agent.Record())
    ensures ok ==> agent.Record() == old(agent.Record()).(health := entity.value.health,
                                                         velocity := validate(SwapYZ(entity.value.moveDirection)),
                                                         position := validate(SwapYZ(entity.value.position)))
  {
    if !worldPresent {
      return false;
    }
    if entity.None? {
      return false;
    }
    var e := entity.value;
    agent.health := e.health;
    agent.velocity := validate(SwapYZ(e.moveDirection));
    agent.position := validate(SwapYZ(e.position));
    ok := true;
  }
}
