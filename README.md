# WalkerSim core, modelled in Dafny

WalkerSim simulates a world population of wandering agents ("walkers") next
to a game. It places them at start locations when the world is reset. It
spawns a game entity for an agent near a player and takes the entity back
when the player leaves. It saves and loads the whole simulation state as a
binary file. This project models four parts of it and proves properties of
that model:

- **Save and load** (`WalkerSim/Simulation.LoadSave.cs`):
  - The writer emits the sections in a fixed order: header, info, config, generator, agents, grid, events.
  - The reader consumes them in the same order and rejects a bad magic number.
  - The reader rebuilds the `Active` lookup from the agents' states, and fails on a duplicate active entity id.
  - `Load` swaps the new state in only after the whole stream has parsed.
  - Model: the byte stream is a `seq<Byte>`; the writer and reader are classes with a cursor.
  - Model: each `Save*`/`Load*` method is proved against a pure encoder or decoder (module `SaveFormat`), and those are proved inverse to each other.
- **Population, start locations and lifecycle** (`WalkerSim/Simulation.cs`):
  - `Populate` computes a ceiling-division group count, one start per group, and one agent per index with its group.
  - `GetWorldLocation` dispatches on the location kind, resolving `Mixed` by a draw; `None` throws.
  - Border and POI positions.
  - `Reset`, `FastAdvance`, `Stop`, `Start`, `SetPaused`, `EntityKilled`, `GameUpdate`, `GetGroupColor`.
  - The worker thread's sleep clamp.
  - Model: the generator is an object whose draws are methods; each draw method is proved to compute a function of module `Placement`.
  - Model: the operations the file calls but does not define are logged as `Call` values, in the order they were invoked.
- **Spawning** (`Mod/SpawnManager.cs`):
  - The population ceiling.
  - The class-id search loop with its attempt counting.
  - `SpawnAgent`, which writes nothing unless every check passes.
  - `DespawnAgent`, which copies the entity back with the y and z axes swapped.
  - Model: every game-engine query is an input value.
- **Map data** (`WalkerSim/MapData.cs`):
  - The `map_info.xml` property fold, including the `HeightMapSize` rule.
  - The road-image fallback list.
  - The success condition of `LoadFromFolder`.

Modules:
- `Numeric`: machine integers, C# truncating division, float bit patterns.
- `Wire`: the field encoders and the `Writer`/`Reader` stream classes.
- `RandomGen`: the generator.
- `Configs`: the configuration and its document form.
- `Agents`: the `Agent` class and its field record.
- `SaveFormat`: the file codec and its round-trip proofs.
- `WorldState`: the simulation state.
- `LoadSave`: the `Save*`/`Load*` methods.
- `Placement`: start-location and population functions.
- `Simulation`: the `Simulation` class.
- `Spawning`: SpawnManager.
- `MapLoad`: MapData.

Integers are `Int32`/`UInt32` subset types. A C# `/` or `%` is written with
`CsDiv`/`CsRem` (truncating toward zero), and the exceptions it can throw
are results. Floats are their 32-bit patterns. Float arithmetic (`Remap`,
the circle offset, the `* 3f` velocity) is taken from a `Host` record of
functions, so contracts state which arithmetic produced a value, not its
numeric result.

## Model

| member | source | states |
|---|---|---|
| Numeric.CsDivRem | WalkerSim/Simulation.cs:269-270 | C#'s `/` and `%`: quotient times divisor plus remainder is the dividend; the remainder is smaller than the divisor in magnitude and has the dividend's sign; the quotient truncates toward zero |
| Numeric.CsDivNonNegative | WalkerSim/Simulation.cs:283 | for a non-negative index and a positive group size, C#'s quotient and remainder are Euclid's |
| Numeric.ToUnsigned | WalkerSim/Simulation.LoadSave.cs:79 | an Int32's two's-complement pattern reads back as the same Int32, and is below 2^31 exactly for non-negative values |
| Numeric.UnsignedRoundTrip | WalkerSim/Simulation.LoadSave.cs:186 | reading a 32-bit pattern as signed and re-encoding it gives the pattern back |
| Wire.UInt32RoundTrip | WalkerSim/Simulation.LoadSave.cs:126-133 | a UInt32 written as four bytes reads back as itself, leaving what follows unread |
| Wire.DecodeUInt32 | WalkerSim/Simulation.LoadSave.cs:126 | a UInt32 read succeeds exactly when four bytes remain, and consumes exactly four |
| Wire.Int32RoundTrip | WalkerSim/Simulation.LoadSave.cs:174 | an Int32 written as four bytes reads back as itself, leaving what follows unread |
| Wire.DecodeInt32 | WalkerSim/Simulation.LoadSave.cs:174 | an Int32 read succeeds exactly when four bytes remain, and consumes exactly four |
| Wire.SingleRoundTrip | WalkerSim/Simulation.LoadSave.cs:143 | a float's bit pattern round-trips |
| Wire.Vector3RoundTrip | WalkerSim/Simulation.LoadSave.cs:138 | a Vector3 (three floats) round-trips |
| Wire.DecodeVector3 | WalkerSim/Simulation.LoadSave.cs:138 | a Vector3 read succeeds exactly when twelve bytes remain |
| Wire.StringRoundTrip | WalkerSim/Simulation.LoadSave.cs:152 | a length-prefixed UTF-8 string round-trips |
| Wire.DecodeString | WalkerSim/Simulation.LoadSave.cs:152 | a string read consumes its length prefix and exactly that many bytes |
| Wire.DecodeList | WalkerSim/Simulation.LoadSave.cs:209-212 | a counted read loop that completes yields exactly `n` items |
| Wire.ListStep | WalkerSim/Simulation.LoadSave.cs:209-212 | one more pass of a counted read loop appends the item that pass reads |
| Wire.ListFailurePersists | WalkerSim/Simulation.LoadSave.cs:209-212 | once a counted read runs out of input, every longer read fails too |
| Wire.ListRoundTrip | WalkerSim/Simulation.LoadSave.cs:89-96 | a list written item by item reads back in the same order when the item decoder inverts the encoder |
| Wire.Writer.Put | WalkerSim/Simulation.LoadSave.cs:241-242 | the intended stream grows by the bytes; the stream takes them only while nothing has failed and they fit its capacity, and a failure is sticky |
| Wire.Writer.WriteUInt32 | WalkerSim/Simulation.LoadSave.cs:26 | writing a UInt32 appends its encoding |
| Wire.Writer.WriteStringUTF8 | WalkerSim/Simulation.LoadSave.cs:54 | writing a string appends its length-prefixed encoding |
| Wire.Reader.ReadUInt32 | WalkerSim/Simulation.LoadSave.cs:126 | the reader returns what the decoder reads and advances past it, or reports end of stream exactly when the decoder fails |
| Wire.Reader.ReadInt32 | WalkerSim/Simulation.LoadSave.cs:174 | as for ReadUInt32, for an Int32 |
| Wire.Reader.ReadVector3 | WalkerSim/Simulation.LoadSave.cs:138 | as for ReadUInt32, for a Vector3 |
| Wire.Reader.ReadStringUTF8 | WalkerSim/Simulation.LoadSave.cs:152 | as for ReadUInt32, for a string |
| RandomGen.Next | WalkerSim/Simulation.cs:144 | a draw `Next(min, max)` lies in `[min, max)` |
| RandomGen.Generator.Draw | WalkerSim/Simulation.cs:207 | drawing from the generator object returns the draw the pure step computes and advances the generator to the step's result |
| Configs.ConfigDocumentRoundTrip | WalkerSim/Simulation.LoadSave.cs:48-54 | a configuration serialized as a document parses back as itself |
| Agents.Agent.FromRecord | WalkerSim/Simulation.LoadSave.cs:177-187 | an agent built by assigning every loaded field holds exactly the loaded values |
| SaveFormat.HeaderRoundTrip | WalkerSim/Simulation.LoadSave.cs:24-28 | the header is the magic 0x4D534B57 and version 1, and it reads back with nothing consumed beyond it |
| SaveFormat.BadMagicRejected | WalkerSim/Simulation.LoadSave.cs:126-130 | a stream whose first word is not the magic fails with BadMagic, whatever follows |
| SaveFormat.VersionIgnored | WalkerSim/Simulation.LoadSave.cs:132-133 | replacing the version word changes nothing about the load |
| SaveFormat.HeaderVersionIgnored | WalkerSim/Simulation.LoadSave.cs:132-133 | the header read does not depend on the version word |
| SaveFormat.InfoRoundTrip | WalkerSim/Simulation.LoadSave.cs:136-148 | the ten info fields, in the write order, read back as the same record |
| SaveFormat.ConfigRoundTrip | WalkerSim/Simulation.LoadSave.cs:150-160 | the configuration section reads back as the saved configuration |
| SaveFormat.PrngRoundTrip | WalkerSim/Simulation.LoadSave.cs:162-167 | the generator's two state words are restored verbatim |
| SaveFormat.AgentRoundTrip | WalkerSim/Simulation.LoadSave.cs:176-187 | an agent's ten fields, in the write order, read back as the same record |
| SaveFormat.KeySetMembers | WalkerSim/Simulation.LoadSave.cs:190-193 | an id is among the keys of a list exactly when some item of the list has that key |
| SaveFormat.DecodeKeyedList | WalkerSim/Simulation.LoadSave.cs:175-194 | a completed keyed read yields exactly `n` items |
| SaveFormat.KeyedListStep | WalkerSim/Simulation.LoadSave.cs:188-193 | a pass whose key is new appends its item |
| SaveFormat.KeyedListStepDuplicate | WalkerSim/Simulation.LoadSave.cs:190-193 | a pass whose key is already filed fails the read with DuplicateEntity, as `Dictionary.Add` throws |
| SaveFormat.KeyedListStepTruncated | WalkerSim/Simulation.LoadSave.cs:178-187 | a pass that runs out of input fails the read |
| SaveFormat.KeyedListFailurePersists | WalkerSim/Simulation.LoadSave.cs:175-194 | a read that fails at some pass fails with the same error however many passes the count asks for |
| SaveFormat.KeyedListRoundTrip | WalkerSim/Simulation.LoadSave.cs:68-81 | a list with unique keys, written item by item, reads back unchanged |
| SaveFormat.DecodedKeysUnique | WalkerSim/Simulation.LoadSave.cs:190-193 | whatever a successful keyed read yields has unique keys |
| SaveFormat.ActiveIdsMembers | WalkerSim/Simulation.LoadSave.cs:190-193 | an id is an active id exactly when some agent in the list is active with that entity id |
| SaveFormat.AgentListRoundTrip | WalkerSim/Simulation.LoadSave.cs:174-194 | agents whose active entity ids are unique round-trip in order |
| SaveFormat.AgentsRoundTrip | WalkerSim/Simulation.LoadSave.cs:64-82 | the agents section (count, then agents) round-trips |
| SaveFormat.DecodedAgentsUnique | WalkerSim/Simulation.LoadSave.cs:190-193 | a successful agent read never holds two active agents with one entity id |
| SaveFormat.CellRoundTrip | WalkerSim/Simulation.LoadSave.cs:205-213 | a grid cell (entry count, then entries) round-trips with its entry order |
| SaveFormat.GridRoundTrip | WalkerSim/Simulation.LoadSave.cs:200-217 | the grid round-trips cell by cell |
| SaveFormat.EventsRoundTrip | WalkerSim/Simulation.LoadSave.cs:219-235 | each event's type, position, radius and decay rate are restored, in order |
| SaveFormat.NegativeCountsReadEmpty | WalkerSim/Simulation.LoadSave.cs:202-203 | a negative agent or event count reads as an empty list, as the `for` loops do not run; a negative cell count fails, as the array allocation throws |
| SaveFormat.CollectionsRoundTrip | WalkerSim/Simulation.LoadSave.cs:119-121 | agents, grid and events read back in that order |
| SaveFormat.SectionsRoundTrip | WalkerSim/Simulation.LoadSave.cs:116-121 | every section after the header reads back |
| SaveFormat.SnapshotRoundTrip | WalkerSim/Simulation.LoadSave.cs:113-122 | decoding a whole save returns the saved state and leaves what follows unread |
| SaveFormat.AfterHeader | WalkerSim/Simulation.LoadSave.cs:115-116 | after a good header, the load is the read of the sections |
| SaveFormat.LoadedAgentsUnique | WalkerSim/Simulation.LoadSave.cs:190-193 | a successful load never has two active agents with one entity id |
| WorldState.IndexesSnoc | WalkerSim/Simulation.LoadSave.cs:188-193 | appending an agent keeps `Active` an index of the list; an active agent is filed under its new entity id |
| LoadSave.SaveHeader | WalkerSim/Simulation.LoadSave.cs:24-28 | writes exactly the header encoding |
| LoadSave.SaveInfo | WalkerSim/Simulation.LoadSave.cs:30-42 | writes exactly the info encoding |
| LoadSave.SaveConfig | WalkerSim/Simulation.LoadSave.cs:44-55 | writes the configuration's document as a string |
| LoadSave.SavePrng | WalkerSim/Simulation.LoadSave.cs:57-62 | writes the two generator words |
| LoadSave.SaveAgents | WalkerSim/Simulation.LoadSave.cs:64-82 | the loop writes the count and every agent, in list order |
| LoadSave.SaveGrid | WalkerSim/Simulation.LoadSave.cs:84-97 | the nested loops write the cell count and every cell's entries, in order |
| LoadSave.SaveEvents | WalkerSim/Simulation.LoadSave.cs:99-111 | the loop writes the count and every event, in order |
| LoadSave.SaveState | WalkerSim/Simulation.LoadSave.cs:13-22 | writes the seven sections in order: the whole encoding of the state |
| LoadSave.LoadHeader | WalkerSim/Simulation.LoadSave.cs:124-134 | reads what the header decoder reads, including the BadMagic failure |
| LoadSave.LoadInfo | WalkerSim/Simulation.LoadSave.cs:136-148 | reads the info fields the decoder reads |
| LoadSave.LoadConfig | WalkerSim/Simulation.LoadSave.cs:150-160 | reads the configuration the decoder reads, or fails as it does |
| LoadSave.LoadPrng | WalkerSim/Simulation.LoadSave.cs:162-167 | reads the two generator words |
| LoadSave.LoadAgent | WalkerSim/Simulation.LoadSave.cs:177-187 | reads one agent's ten fields |
| LoadSave.FileAgent | WalkerSim/Simulation.LoadSave.cs:188-193 | a fresh agent is appended; an active one is filed under its entity id; a repeated active id fails exactly when it is already filed |
| LoadSave.LoadNextAgent | WalkerSim/Simulation.LoadSave.cs:175-194 | one pass of the agent loop is one more step of the keyed decoder, with `Active` kept an index of the list |
| LoadSave.LoadAgentList | WalkerSim/Simulation.LoadSave.cs:175-194 | the loop yields fresh agents whose records are what the decoder reads, and an `Active` map that indexes them, or fails as the decoder does |
| LoadSave.LoadAgents | WalkerSim/Simulation.LoadSave.cs:169-198 | the agents section read, as above, after its count |
| LoadSave.LoadCellEntries | WalkerSim/Simulation.LoadSave.cs:208-212 | reads one cell's entries in order |
| LoadSave.LoadCells | WalkerSim/Simulation.LoadSave.cs:205-214 | reads the cells in order |
| LoadSave.LoadGrid | WalkerSim/Simulation.LoadSave.cs:200-217 | reads the grid the decoder reads; a negative cell count fails |
| LoadSave.LoadEventList | WalkerSim/Simulation.LoadSave.cs:224-232 | reads the events in order |
| LoadSave.LoadEvents | WalkerSim/Simulation.LoadSave.cs:219-235 | reads the events section |
| LoadSave.LoadSections | WalkerSim/Simulation.LoadSave.cs:116-121 | fills a fresh state whose save image is what the decoder reads, with `Active` indexing the agents and no map data |
| LoadSave.LoadState | WalkerSim/Simulation.LoadSave.cs:113-122 | the whole load: succeeds exactly when the decoder does, into a fresh state whose save image is the decoded one |
| Placement.GroupCountIsCeiling | WalkerSim/Simulation.cs:269-273 | the group count is the ceiling of MaxAgents / GroupSize: enough groups for every agent, and no empty group |
| Placement.GroupInRange | WalkerSim/Simulation.cs:283 | every agent's group `i / GroupSize` is one of the allocated groups |
| Placement.GroupDivisionFits | WalkerSim/Simulation.cs:269-273 | the quotient and the group count fit an Int32 except for int.MinValue / -1 |
| Placement.CsQuotientShrinks | WalkerSim/Simulation.cs:283 | a truncating quotient is no larger than its dividend |
| Placement.ExactDivision | WalkerSim/Simulation.cs:270 | a group size of 1 or -1 leaves no remainder, so no group is added |
| Placement.IntDiv | WalkerSim/Simulation.cs:269 | C#'s `/`: the truncating quotient, DivideByZero exactly for a zero divisor, Overflow exactly for int.MinValue / -1 |
| Placement.RandomPositionCoordinates | WalkerSim/Simulation.cs:123-132 | x is the first draw remapped onto the span between the inner border lines, y the second draw likewise, z is zero, and the generator advances by exactly those two draws |
| Placement.BorderSidePinned | WalkerSim/Simulation.cs:134-175 | side 0 pins y to mins.y+250, side 1 pins x to maxs.x-250, side 2 pins y to maxs.y-250, side 3 pins x to mins.x+250; the other coordinate is remapped from one more draw |
| Placement.BorderPositionOnBorderLine | WalkerSim/Simulation.cs:134-175 | every border position lies on one of the four inner border lines |
| Placement.PoiFallbackAndChoice | WalkerSim/Simulation.cs:177-191 | without map data, the border position the same generator state gives; with it, the position of one of the map's decorations, and an exception exactly when there are none |
| Placement.ResolveLocation | WalkerSim/Simulation.cs:203-208 | Mixed is replaced by a draw in [RandomBorderLocation, RandomPOI]; every other kind is kept and draws nothing |
| Placement.WorldLocationDispatch | WalkerSim/Simulation.cs:198-224 | each resolved kind goes to its own position choice, and only an unhandled kind throws |
| Placement.NoneLocationRejected | WalkerSim/Simulation.cs:212-223 | None, and every code outside the enumeration, throws instead of yielding a default |
| Placement.MixedNeverBad | WalkerSim/Simulation.cs:203-208 | Mixed never reaches the throw |
| Placement.AgentStartCases | WalkerSim/Simulation.cs:238-259 | a grouped start succeeds exactly for an existing group and lands at an offset from its start; otherwise it is the configured start location |
| Placement.ChainStep | WalkerSim/Simulation.cs:276-279 | one more pass of a counted loop over the generator appends what it produced |
| Placement.ChainFailurePersists | WalkerSim/Simulation.cs:276-279 | once a pass throws, every longer loop throws the same |
| Placement.ChainMember | WalkerSim/Simulation.cs:281-298 | every element the loop produced is the output of its own pass |
| Placement.ChainSucceeds | WalkerSim/Simulation.cs:281-298 | when no pass can throw, the loop completes, and what every pass guarantees holds of every element |
| Placement.TracedChain | WalkerSim/Simulation.cs:276-279 | a loop traced pass by pass is the counted loop |
| Placement.TracedFailure | WalkerSim/Simulation.cs:281-298 | a pass that throws makes the whole loop throw that exception |
| Placement.PlaceAgent | WalkerSim/Simulation.cs:283-293 | the agent for index `i` is a new agent with index `i`, group `i / GroupSize`, the current tick, a start location and two velocity draws |
| Placement.PlacedAgentsShape | WalkerSim/Simulation.cs:281-298 | the agent at position `i` has index `i`, group `i / GroupSize` and the current tick as its last update |
| Placement.PopulateResult | WalkerSim/Simulation.cs:261-299 | a completed population has GroupCount group starts and exactly MaxAgents agents (none for a negative count) |
| Placement.PopulateErrors | WalkerSim/Simulation.cs:269-275 | a zero group size throws DivideByZero; int.MinValue agents in groups of -1 throw Overflow; a negative group count throws Overflow at the array allocation |
| Placement.PopulateStages | WalkerSim/Simulation.cs:275-298 | population is the group-start loop followed by the agent loop, and a throw in the first skips the second |
| Placement.BorderGroupStarts | WalkerSim/Simulation.cs:276-279 | with border start locations, every group start lies on a border line |
| Placement.GroupedPlacementInBounds | WalkerSim/Simulation.cs:245-253 | with grouped starts and a positive group size, placing up to MaxAgents agents never throws, and each agent stands at an offset from its own group's start |
| Placement.BorderPopulationStarts | WalkerSim/Simulation.cs:261-299 | a population with border start locations never throws in its first loop, and its group starts lie on border lines |
| Placement.GroupedBorderPopulation | WalkerSim/Simulation.cs:261-299 | a grouped border population always completes, with every agent around its group's start |
| Simulation.SleepTime | WalkerSim/Simulation.cs:339 | the sleep as written is always within [0, TickRateMs] |
| Simulation.SleepTimeInverted | WalkerSim/Simulation.cs:339 | as written, a tick of 0 ms sleeps 0 ms and a tick of 30 ms sleeps 5 ms |
| Simulation.EarlyTicksNeverSleep | WalkerSim/Simulation.cs:339 | as written, a tick shorter than the period is followed by no sleep |
| Simulation.IntendedSleepTime | WalkerSim/Simulation.cs:339 | the corrected sleep is within [0, TickRateMs] |
| Simulation.IntendedSleepFillsPeriod | WalkerSim/Simulation.cs:339 | the corrected sleep fills the rest of the 25 ms period to the millisecond and never overshoots it |
| Simulation.PlacementLog | WalkerSim/Simulation.cs:290-297 | each appended agent is warped, then moved into the grid, in list order |
| Simulation.FastTicks | WalkerSim/Simulation.cs:42-45 | `n` ticks at the fast speed scale, none for a negative `n` |
| Simulation.KilledAgentListed | WalkerSim/Simulation.cs:106-112 | EntityKilled finds an id exactly when an active agent in the list has it, and the agent it marks dead is that agent |
| Simulation.ResetWorld | WalkerSim/Simulation.cs:82-86 | Reset's view of the world: the new configuration and a zero tick counter, with the bounds and map data kept |
| Simulation.Simulation.constructor | WalkerSim/Simulation.cs:17-22 | a new simulation is stopped, unpaused, without a thread, at speed 1, with no group starts |
| Simulation.Simulation.GetRandomPosition | WalkerSim/Simulation.cs:123-132 | returns the random position the generator's state determines and advances the generator as that function does |
| Simulation.Simulation.GetRandomBorderPosition | WalkerSim/Simulation.cs:134-175 | returns the border position the generator's state determines |
| Simulation.Simulation.GetRandomPoiPosition | WalkerSim/Simulation.cs:177-191 | returns the POI position, or its exception |
| Simulation.Simulation.GetWorldLocation | WalkerSim/Simulation.cs:198-224 | returns the location of the given kind, or its exception |
| Simulation.Simulation.GetStartLocation | WalkerSim/Simulation.cs:226-230 | the location of the configured start kind |
| Simulation.Simulation.GetAgentStartLocation | WalkerSim/Simulation.cs:238-259 | the start of one agent, grouped or not |
| Simulation.Simulation.FillGroupStarts | WalkerSim/Simulation.cs:275-279 | fills the array with one start per group, in order, or throws as the first failing pass does |
| Simulation.Simulation.PlaceAll | WalkerSim/Simulation.cs:281-298 | creates the agents the population function places, in order, logging Warp and MoveInGrid for each |
| Simulation.Simulation.PopulateGroups | WalkerSim/Simulation.cs:267-298 | the group count, the group starts and the agents are exactly the population function's result |
| Simulation.Simulation.Populate | WalkerSim/Simulation.cs:261-299 | the new agents, group starts, group count and generator are the population function's result; on a throw, the agents, group starts, counters and call log are unchanged (the generator keeps the draws already made) |
| Simulation.Simulation.Stop | WalkerSim/Simulation.cs:24-36 | with a thread: the running flag clears and the thread is dropped; without one: nothing changes |
| Simulation.Simulation.Start | WalkerSim/Simulation.cs:49-63 | after Stop, a running simulation with a thread; pausing is kept |
| Simulation.Simulation.SetPaused | WalkerSim/Simulation.cs:94-104 | the paused flag becomes the argument and nothing else changes |
| Simulation.Simulation.FastAdvance | WalkerSim/Simulation.cs:38-47 | exactly max(n, 0) ticks at speed 256, then the previous speed scale restored |
| Simulation.Simulation.Reseed | WalkerSim/Simulation.cs:82-86 | the new configuration, a generator seeded from it, and the iteration, wind-change and tick counters at zero |
| Simulation.Simulation.Reset | WalkerSim/Simulation.cs:76-92 | stops, reseeds, zeroes the counters, then runs SetupGrid, Populate and SetupProcessors in that order; the population is the one the new seed determines |
| Simulation.Simulation.EntityKilled | WalkerSim/Simulation.cs:106-112 | marks the listed agent dead when `Active` holds the id, and does nothing otherwise |
| Simulation.Simulation.GameUpdate | WalkerSim/Simulation.cs:345-354 | while running and not paused: processes the spawn queue, then checks for despawns; otherwise nothing |
| Simulation.Simulation.GroupColor | WalkerSim/Simulation.cs:378-386 | a group without a processor takes the colour table's colour; one with a processor takes that processor's colour; a negative index throws |
| Simulation.Simulation.Save | WalkerSim/Simulation.LoadSave.cs:237-251 | writes the state's whole encoding, and returns true exactly when the stream can take all of it |
| Simulation.Simulation.Load | WalkerSim/Simulation.LoadSave.cs:267-286 | true exactly when the stream decodes; then the state is the decoded one, with `Active` indexing the agents, the previous map data kept and SetupProcessors run; on failure nothing changes |
| Simulation.Simulation.Adopt | WalkerSim/Simulation.LoadSave.cs:275-278 | the swap: the loaded state with the previous map data, then SetupProcessors |
| Spawning.CanSpawnZombieHalf | Mod/SpawnManager.cs:9-24 | for a non-negative preference, a spawn is allowed exactly while one more enemy fits in half the MaxSpawnedZombies preference |
| Spawning.CanSpawnZombieTruncates | Mod/SpawnManager.cs:15-17 | the halving truncates toward zero: with a preference of -3, -2 alive may spawn and -1 may not |
| Spawning.FoundIsUsable | Mod/SpawnManager.cs:99-104 | a class the search finds is neither -1 nor 0, and is one GetRandomFromGroup returned |
| Spawning.AtMostAttemptsClasses | Mod/SpawnManager.cs:67-105 | the search asks for at most `attempts` classes: later answers cannot change its result |
| Spawning.RepeatsAreFree | Mod/SpawnManager.cs:71-76 | picks that repeat the last pick use no attempt |
| Spawning.NoGroupsNoClass | Mod/SpawnManager.cs:62-108 | a biome without a spawn list, or with an empty one, yields no class |
| Spawning.GetEntityClassId | Mod/SpawnManager.cs:47-109 | the attempt loop computes the search over min(count, 10) attempts |
| Spawning.SpawnClassUsable | Mod/SpawnManager.cs:153-170 | the class chosen is never -1 or 0, and an agent's own usable class is kept whatever the biome offers |
| Spawning.SpawnChecks | Mod/SpawnManager.cs:113-149 | a spawn can go ahead only when the world exists, the ceiling allows it, the chunk is loaded and the position is fit; when all of these hold it goes ahead exactly when the agent's own class is usable or a new class is found |
| Spawning.SpawnManager.constructor | Mod/SpawnManager.cs:7 | the last class id starts at -1 |
| Spawning.SpawnManager.SpawnAgent | Mod/SpawnManager.cs:111-219 | every failure returns -1 with the agent and the last class id unchanged; a success writes the entity id, the class, the Active state and the health, remembers the class, and returns the entity id |
| Spawning.SwapYZInvolution | Mod/SpawnManager.cs:239-242 | the engine's axes and the simulation's differ by a swap of y and z, which undoes itself |
| Spawning.DespawnAgent | Mod/SpawnManager.cs:221-250 | false exactly when the world or the entity is missing, with the agent unchanged; otherwise health copied and position and velocity copied with y and z swapped, other fields unchanged |
| MapLoad.SplitJoin | WalkerSim/MapData.cs:120 | the pieces `Split` yields join back to the string |
| MapLoad.SplitCount | WalkerSim/MapData.cs:120-121 | there is one more piece than separators, so HeightMapSize needs exactly one comma |
| MapLoad.ParseInfo | WalkerSim/MapData.cs:74-133 | the loop computes the property fold; a missing file or a root other than MapInfo yields null |
| MapLoad.IrrelevantNodesIgnored | WalkerSim/MapData.cs:99-129 | nodes that are not properties, and properties with other names, change nothing |
| MapLoad.LastPropertyWins | WalkerSim/MapData.cs:106-117 | each text field holds the value of the last property naming it |
| MapLoad.HeightMapSizeDecides | WalkerSim/MapData.cs:118-127 | a parse gives a record exactly when every HeightMapSize value splits into two parts |
| MapLoad.FirstExistingIsFirst | WalkerSim/MapData.cs:137-149 | the chosen candidate exists and every earlier one is missing; none is chosen exactly when all are missing |
| MapLoad.LoadRoadSplat | WalkerSim/MapData.cs:135-155 | the road image is the first existing of splat3_half.png, splat3_processed.png and splat3.png, and the roads are what decoding it yields; no candidate gives null, and an unreadable chosen image throws, without a later candidate being tried |
| MapLoad.LoadFromFolder | WalkerSim/MapData.cs:174-202 | map-info exceptions escape first, then an unreadable road image throws; otherwise null exactly when no road image exists or the prefabs fail to load, a null map info is kept without failing, and the result holds the parsed info, the decoded roads and the prefabs |

## Left out

- Threading and pacing (Simulation.cs:17-63, 301-342): the worker thread, `Join`, the locks, the stopwatches, the autosave clock and the tick-time averages are not modelled. Start, Stop and the sleep keep only their flags and arithmetic. The elapsed time of a tick is a parameter.
- Float arithmetic: Remap, the circle offset and its [10, 500] radius clamp, the `NextDouble() * 3f` velocities, `Vector3.Validate` and `Normalize`. These are supplied functions, so the proofs cover which inputs and draws reach each result, not the numbers.
- The generator's algorithm: `Random` is not part of this model. A stand-in with the same state (two words) and the documented ranges of `Next` and `NextDouble` takes its place, and no property depends on its arithmetic.
- The `Serialization` helpers are not part of this model. The field encodings are fixed little-endian encoders. The `false` flag on the header's UInt32 calls is modelled as the same encoding on both sides.
- XmlSerializer for Config and PrefabsData, XmlDocument parsing, `int.Parse`, `Vector3.Parse`, and the image loading (`Image.FromFile`, `RemoveTransparency`, `Roads.LoadFromBitmap`) are foreign libraries. Their results, including an image that fails to decode, are inputs. `GC.Collect` has no effect the model can see.
- Config: the configuration serializes to a fixed-width document in place of XML. Only its round trip is used.
- Tick, Warp, MoveInGrid, SetupGrid, SetupProcessors, MarkAgentDead, ProcessSpawnQueue and CheckAgentDespawn are not part of this model. Each is logged as a call. SetupProcessors' processor colours are a fixed function of the configuration. Warp's effect on an agent's position is not modelled.
- Simulation.Simulation.Populate: on a throw mid-way, the code has already cleared the agent list, set GroupCount and possibly replaced `_groupStarts`. The model leaves the state unchanged instead, and states only which exception is thrown.
- Simulation.Simulation.Reset: after a throw from Populate, the code's exception escapes Reset. The model returns it as an error, with the configuration, generator and counters already updated as in the code.
- SetWorldSize, LoadMapData, GetRespawnLocation, GetGroupPosition, RemapPosition2D and ReloadConfig are not in the modelled core.
- The grid's consistency with the agents, and event decay, are not checked: the code that maintains them is not part of this model.
- Save(string) and Load(string) are file I/O only and are not modelled. Stream failures are modelled as a capacity on the writer.
- Simulation.Simulation.Save: the partial bytes left on a failing stream are not specified beyond the writer's own contract.
- Logging calls are not modelled. `Logging.Err` in Save and Load is given a `{1}` format item with one argument (Simulation.LoadSave.cs:246, 282). `String.Format` would reject that, but Logging is not part of this model, so both methods are modelled as returning false.
- Engine queries in SpawnManager (GameManager, chunks, biomes, EntityGroups, EntityFactory, GameStats, GamePrefs) are inputs. `SpawnEntityInWorld`, `RemoveEntity`, `SetInvestigatePosition`, the rotation and the entity flags are not modelled.
- Spawning.GetEntityClassId: its own world-null check is not modelled, because SpawnAgent has already returned -1 when the world is null. The random picks and the classes GetRandomFromGroup returns are given as finite sequences. A search that would need more of them reports OutOfDraws.
- Spawning.SpawnManager.SpawnAgent: requires that the class search, when it runs, does not run out of the supplied draws. The health setter is assumed to store the value it is given.
- `VectorUtils.ToUnity`, and the terrain-height adjustment of the spawn position, are not modelled. Only the checks' answers are inputs.
- Simulation.Simulation.FastAdvance, Simulation.Simulation.EntityKilled, Simulation.Simulation.GameUpdate, Simulation.Simulation.Reset, Simulation.Simulation.Populate: Tick, SetupGrid, MoveInGrid, Warp, MarkAgentDead, ProcessSpawnQueue and CheckAgentDespawn are logged calls given no effect. The frames of these methods (`state == old(state)`, the grid kept by Reset, agents with cell index -1 after Populate) therefore say only what each method writes itself. In the program, Tick advances the simulation, MarkAgentDead marks the agent dead, SetupGrid rebuilds the grid and MoveInGrid sets each agent's cell index. None of that is modelled.
- Agents.FreshRecord: the Agent class is not part of this model. The defaults of `new Agent(index, group)` are assumed: -1 for cell index, entity id, class id and health; the Inactive state; zero position and velocity; tick 0. Placement.PlacedAgentsShape and Simulation.Simulation.Populate state agents' fields on that assumption.
- Placement.RandomPoiPosition: with map data and no decorations, the program first draws `Next(0)` and then fails on the empty array. The model fails without drawing, so only the generator left behind by that failure differs. No contract says what the generator is after a failure. A prefabs.xml without any `decoration` element can leave the array null; the program then throws a null-reference exception at `decos.Length` (Simulation.cs:189), before any draw. The model treats a missing decoration list as an empty one and reports IndexOutOfRange.
- Configs.Config holds only the six fields this model reads: maximum agents, group size, grouped starts, start position, respawn position and random seed. The processor colours are a function of those six alone, while in the program they depend on the whole configuration.
- Simulation.SleepTime: the elapsed time is a parameter. The program reads it from `tickWatch` (Simulation.cs:328), which is not the stopwatch `sw` the loop restarts, and `tickWatch` is not part of this model.
- Enumeration ordinals (agent states, world locations, event types) are not shown in the source. They are taken in declaration order: Inactive, Queued, Active, Dead; None, RandomBorderLocation, RandomLocation, RandomPOI, Mixed.

## Findings

| source | as written | input that shows it | evidently intended | confidence | as-written member | corrected member |
|---|---|---|---|---|---|---|
| WalkerSim/Simulation.cs:339 | the sleep is `Clamp((int)(elapsedMs - TickRateMs), 0, TickRateMs)`: it grows with the tick's duration | a tick of 0 ms sleeps 0 ms; a tick of 30 ms sleeps 5 ms | sleep for the rest of the 25 ms period, `TickRateMs - elapsedMs`, clamped the same way | not executed; the operands are evidently swapped | Simulation.SleepTime, Simulation.SleepTimeInverted, Simulation.EarlyTicksNeverSleep | Simulation.IntendedSleepTime, Simulation.IntendedSleepFillsPeriod |
