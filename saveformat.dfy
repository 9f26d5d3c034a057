/**
  The save file's byte layout as pure encoders and decoders: one pair per
  section, in the order the simulation writes them (header, world info,
  configuration, generator state, agents, grid, events).

  A decoder returns the section and the bytes after it, or the reason the
  load throws. It reads exactly what the corresponding Load* method of the
  simulation reads, with the same counted loops; the round-trip lemmas say
  that loading what a save wrote gives back the saved state.
 */
module SaveFormat {
  import opened Wrappers
  import opened Numeric
  import opened Wire
  import opened RandomGen
  import opened Configs
  import opened Agents

  /** "WKSM" read as a little-endian word. */
  const SaveMagic: UInt32 := 0x4D53_4B57
  const SaveVersion: UInt32 := 1

  /** Why a load throws. */
  datatype LoadError =
    | Truncated          // the stream ended inside a read
    | BadMagic           // the first word is not SaveMagic
    | BadConfig          // the configuration document does not deserialize
    | DuplicateEntity    // two active agents share an entity id
    | NegativeGridSize   // the grid's cell count is negative

  /** The scalar world fields of the state. */
  datatype Info = Info(
    worldMins: Vector3,
    worldMaxs: Vector3,
    slowIterator: UInt32,
    windDir: Vector3,
    windDirTarget: Vector3,
    windTime: Single,
    ticks: UInt32,
    tickNextWindChange: UInt32,
    groupCount: Int32,
    maxNeighbourDistance: Single)

  /** A grid cell: the indices of the agents in it. */
  type Cell = c: seq<Int32> | |c| <= MaxInt32

  /** Everything a save records. */
  datatype Snapshot = Snapshot(
    info: Info,
    config: Config,
    prng: Random,
    agents: seq<AgentRecord>,
    grid: seq<Cell>,
    events: seq<EventData>)

  /** A read that runs past the end of the stream throws. */
  function Need<T>(o: Option<T>): (r: Result<T, LoadError>)
    ensures r.Ok? <==> o.Some?
    ensures r.Ok? ==> r.value == o.value
    ensures r.Err? ==> r.error == Truncated
  {
    if o.Some? then Ok(o.value) else Err(Truncated)
  }

  /** A loop `for (i = 0; i < count; i++)` runs this many times. */
  function Iterations(count: Int32): nat
  {
    if count < 0 then 0 else count
  }

  // ----- header -----

  function EncodeHeader(): Bytes
  {
    EncodeUInt32(SaveMagic) + EncodeUInt32(SaveVersion)
  }

  function DecodeHeader(s: Bytes): Result<Bytes, LoadError>
  {
    var (magic, r1) :- Need(DecodeUInt32(s));
    if magic != SaveMagic then Err(BadMagic)
    else
      var (_, r2) :- Need(DecodeUInt32(r1));
      Ok(r2)
  }

  lemma HeaderRoundTrip(rest: Bytes)
    ensures DecodeHeader(EncodeHeader() + rest) == Ok(rest)
  {
    var t := EncodeUInt32(SaveVersion) + rest;
    assert EncodeHeader() + rest == EncodeUInt32(SaveMagic) + t;
    UInt32RoundTrip(SaveMagic, t);
    UInt32RoundTrip(SaveVersion, rest);
  }

  // ----- world info -----

  function EncodeInfo(i: Info): Bytes
  {
    EncodeVector3(i.worldMins) + EncodeVector3(i.worldMaxs) + EncodeUInt32(i.slowIterator)
    + EncodeVector3(i.windDir) + EncodeVector3(i.windDirTarget) + EncodeSingle(i.windTime)
    + EncodeUInt32(i.ticks) + EncodeUInt32(i.tickNextWindChange) + EncodeInt32(i.groupCount)
    + EncodeSingle(i.maxNeighbourDistance)
  }

  /** The ten fields of the info section; any short read is a truncated save. */
  function DecodeInfo(s: Bytes): Result<(Info, Bytes), LoadError>
  {
    Need(DecodeInfoFields(s))
  }

  function DecodeInfoFields(s: Bytes): Option<(Info, Bytes)>
  {
    var (worldMins, r1) :- DecodeVector3(s);
    var (worldMaxs, r2) :- DecodeVector3(r1);
    var (slowIterator, r3) :- DecodeUInt32(r2);
    var (windDir, r4) :- DecodeVector3(r3);
    var (windDirTarget, r5) :- DecodeVector3(r4);
    var (windTime, r6) :- DecodeSingle(r5);
    var (ticks, r7) :- DecodeUInt32(r6);
    var (tickNextWindChange, r8) :- DecodeUInt32(r7);
    var (groupCount, r9) :- DecodeInt32(r8);
    var (maxNeighbourDistance, r10) :- DecodeSingle(r9);
    Some((Info(worldMins, worldMaxs, slowIterator, windDir, windDirTarget, windTime,
               ticks, tickNextWindChange, groupCount, maxNeighbourDistance), r10))
  }

  lemma InfoRoundTrip(i: Info, rest: Bytes)
    ensures DecodeInfoFields(EncodeInfo(i) + rest) == Some((i, rest))
    ensures DecodeInfo(EncodeInfo(i) + rest) == Ok((i, rest))
  {
    var t9 := EncodeSingle(i.maxNeighbourDistance) + rest;
    var t8 := EncodeInt32(i.groupCount) + t9;
    var t7 := EncodeUInt32(i.tickNextWindChange) + t8;
    var t6 := EncodeUInt32(i.ticks) + t7;
    var t5 := EncodeSingle(i.windTime) + t6;
    var t4 := EncodeVector3(i.windDirTarget) + t5;
    var t3 := EncodeVector3(i.windDir) + t4;
    var t2 := EncodeUInt32(i.slowIterator) + t3;
    var t1 := EncodeVector3(i.worldMaxs) + t2;
    Regroup10(EncodeVector3(i.worldMins), EncodeVector3(i.worldMaxs), EncodeUInt32(i.slowIterator),
              EncodeVector3(i.windDir), EncodeVector3(i.windDirTarget), EncodeSingle(i.windTime),
              EncodeUInt32(i.ticks), EncodeUInt32(i.tickNextWindChange), EncodeInt32(i.groupCount),
              EncodeSingle(i.maxNeighbourDistance), rest);
    Vector3RoundTrip(i.worldMins, t1);
    Vector3RoundTrip(i.worldMaxs, t2);
    UInt32RoundTrip(i.slowIterator, t3);
    Vector3RoundTrip(i.windDir, t4);
    Vector3RoundTrip(i.windDirTarget, t5);
    SingleRoundTrip(i.windTime, t6);
    UInt32RoundTrip(i.ticks, t7);
    UInt32RoundTrip(i.tickNextWindChange, t8);
    Int32RoundTrip(i.groupCount, t9);
    SingleRoundTrip(i.maxNeighbourDistance, rest);
  }

  // ----- configuration -----

  function EncodeConfig(c: Config): Bytes
  {
    EncodeString(ConfigDocument(c))
  }

  function DecodeConfig(s: Bytes): Result<(Config, Bytes), LoadError>
  {
    var (doc, r) :- Need(DecodeString(s));
    match ParseConfigDocument(doc)
    case None => Err(BadConfig)
    case Some(c) => Ok((c, r))
  }

  lemma ConfigRoundTrip(c: Config, rest: Bytes)
    ensures DecodeConfig(EncodeConfig(c) + rest) == Ok((c, rest))
  {
    StringRoundTrip(ConfigDocument(c), rest);
    ConfigDocumentRoundTrip(c);
  }

  // ----- generator state -----

  function EncodePrng(g: Random): Bytes
  {
    EncodeUInt32(g.state0) + EncodeUInt32(g.state1)
  }

  function DecodePrng(s: Bytes): Result<(Random, Bytes), LoadError>
  {
    var (state0, r1) :- Need(DecodeUInt32(s));
    var (state1, r2) :- Need(DecodeUInt32(r1));
    Ok((Random(state0, state1), r2))
  }

  lemma PrngRoundTrip(g: Random, rest: Bytes)
    ensures DecodePrng(EncodePrng(g) + rest) == Ok((g, rest))
  {
    var t := EncodeUInt32(g.state1) + rest;
    assert EncodePrng(g) + rest == EncodeUInt32(g.state0) + t;
    UInt32RoundTrip(g.state0, t);
    UInt32RoundTrip(g.state1, rest);
  }

  // ----- agents -----

  function EncodeAgent(a: AgentRecord): Bytes
  {
    EncodeInt32(a.index) + EncodeInt32(a.group) + EncodeVector3(a.position)
    + EncodeVector3(a.velocity) + EncodeInt32(a.cellIndex) + EncodeInt32(a.entityId)
    + EncodeInt32(a.entityClassId) + EncodeInt32(a.health) + EncodeInt32(a.currentState)
    + EncodeUInt32(a.lastUpdateTick)
  }

  function DecodeAgent(s: Bytes): Option<(AgentRecord, Bytes)>
  {
    var (index, r1) :- DecodeInt32(s);
    var (group, r2) :- DecodeInt32(r1);
    var (position, r3) :- DecodeVector3(r2);
    var (velocity, r4) :- DecodeVector3(r3);
    var (cellIndex, r5) :- DecodeInt32(r4);
    var (entityId, r6) :- DecodeInt32(r5);
    var (entityClassId, r7) :- DecodeInt32(r6);
    var (health, r8) :- DecodeInt32(r7);
    var (currentState, r9) :- DecodeInt32(r8);
    var (lastUpdateTick, r10) :- DecodeUInt32(r9);
    Some((AgentRecord(index, group, position, velocity, cellIndex, entityId,
                      entityClassId, health, currentState, lastUpdateTick), r10))
  }

  lemma AgentRoundTrip(a: AgentRecord, rest: Bytes)
    ensures DecodeAgent(EncodeAgent(a) + rest) == Some((a, rest))
  {
    var t9 := EncodeUInt32(a.lastUpdateTick) + rest;
    var t8 := EncodeInt32(a.currentState) + t9;
    var t7 := EncodeInt32(a.health) + t8;
    var t6 := EncodeInt32(a.entityClassId) + t7;
    var t5 := EncodeInt32(a.entityId) + t6;
    var t4 := EncodeInt32(a.cellIndex) + t5;
    var t3 := EncodeVector3(a.velocity) + t4;
    var t2 := EncodeVector3(a.position) + t3;
    var t1 := EncodeInt32(a.group) + t2;
    Regroup10(EncodeInt32(a.index), EncodeInt32(a.group), EncodeVector3(a.position),
              EncodeVector3(a.velocity), EncodeInt32(a.cellIndex), EncodeInt32(a.entityId),
              EncodeInt32(a.entityClassId), EncodeInt32(a.health), EncodeInt32(a.currentState),
              EncodeUInt32(a.lastUpdateTick), rest);
    Int32RoundTrip(a.index, t1);
    Int32RoundTrip(a.group, t2);
    Vector3RoundTrip(a.position, t3);
    Vector3RoundTrip(a.velocity, t4);
    Int32RoundTrip(a.cellIndex, t5);
    Int32RoundTrip(a.entityId, t6);
    Int32RoundTrip(a.entityClassId, t7);
    Int32RoundTrip(a.health, t8);
    Int32RoundTrip(a.currentState, t9);
    UInt32RoundTrip(a.lastUpdateTick, rest);
  }

  // A list whose items may carry a key, read by a loop that files each
  // keyed item in a dictionary: Dictionary.Add throws on a key it holds.

  /** The keys of the keyed items among `xs`. */
  function KeySet<T>(key: T -> Option<Int32>, xs: seq<T>): set<Int32>
    decreases |xs|
  {
    if |xs| == 0 then {}
    else
      KeySet(key, xs[..|xs| - 1]) + (match key(xs[|xs| - 1]) case None => {} case Some(k) => {k})
  }

  lemma {:induction false} KeySetMembers<T>(key: T -> Option<Int32>, xs: seq<T>, k: Int32)
    ensures k in KeySet(key, xs) <==> exists i :: 0 <= i < |xs| && key(xs[i]) == Some(k)
    decreases |xs|
  {
    if |xs| > 0 {
      var init := xs[..|xs| - 1];
      KeySetMembers(key, init, k);
      if exists i :: 0 <= i < |init| && key(init[i]) == Some(k) {
        var i :| 0 <= i < |init| && key(init[i]) == Some(k);
        assert xs[i] == init[i];
      }
      if exists i :: 0 <= i < |xs| && key(xs[i]) == Some(k) {
        var i :| 0 <= i < |xs| && key(xs[i]) == Some(k);
        if i < |init| {
          assert init[i] == xs[i];
        }
      }
    }
  }

  /** No two keyed items of `xs` share a key. */
  predicate UniqueKeys<T>(key: T -> Option<Int32>, xs: seq<T>)
  {
    forall i, j :: 0 <= i < j < |xs| && key(xs[i]).Some? && key(xs[j]).Some? ==> key(xs[i]) != key(xs[j])
  }

  function DecodeKeyedList<T>(dec: Bytes -> Option<(T, Bytes)>, key: T -> Option<Int32>, s: Bytes, n: nat)
    : (r: Result<(seq<T>, Bytes), LoadError>)
    ensures r.Ok? ==> |r.value.0| == n
  {
    if n == 0 then Ok(([], s))
    else
      var (xs, r1) :- DecodeKeyedList(dec, key, s, n - 1);
      var (x, r2) :- Need(dec(r1));
      if key(x).Some? && key(x).value in KeySet(key, xs) then Err(DuplicateEntity)
      else Ok((xs + [x], r2))
  }

  lemma UniqueLastKey<T>(key: T -> Option<Int32>, xs: seq<T>)
    requires |xs| > 0 && UniqueKeys(key, xs)
    ensures UniqueKeys(key, xs[..|xs| - 1])
    ensures key(xs[|xs| - 1]).Some? ==> key(xs[|xs| - 1]).value !in KeySet(key, xs[..|xs| - 1])
  {
    var init, last := xs[..|xs| - 1], xs[|xs| - 1];
    forall i, j | 0 <= i < j < |init| && key(init[i]).Some? && key(init[j]).Some?
      ensures key(init[i]) != key(init[j])
    {
      assert init[i] == xs[i] && init[j] == xs[j];
    }
    if key(last).Some? {
      KeySetMembers(key, init, key(last).value);
    }
  }

  /** One more pass of the loop. */
  lemma KeyedListStep<T>(dec: Bytes -> Option<(T, Bytes)>, key: T -> Option<Int32>, s: Bytes, n: nat,
                         xs: seq<T>, r1: Bytes, x: T, r2: Bytes)
    requires n > 0 && DecodeKeyedList(dec, key, s, n - 1) == Ok((xs, r1)) && dec(r1) == Some((x, r2))
    requires !(key(x).Some? && key(x).value in KeySet(key, xs))
    ensures DecodeKeyedList(dec, key, s, n) == Ok((xs + [x], r2))
  {
  }

  /** A pass that runs out of input fails the read. */
  lemma KeyedListStepTruncated<T>(dec: Bytes -> Option<(T, Bytes)>, key: T -> Option<Int32>, s: Bytes, n: nat,
                                  xs: seq<T>, r1: Bytes)
    requires n > 0 && DecodeKeyedList(dec, key, s, n - 1) == Ok((xs, r1)) && dec(r1).None?
    ensures DecodeKeyedList(dec, key, s, n) == Err(Truncated)
  {
  }

  /** A pass whose item repeats a key fails the read. */
  lemma KeyedListStepDuplicate<T>(dec: Bytes -> Option<(T, Bytes)>, key: T -> Option<Int32>, s: Bytes, n: nat,
                                  xs: seq<T>, r1: Bytes, x: T, r2: Bytes)
    requires n > 0 && DecodeKeyedList(dec, key, s, n - 1) == Ok((xs, r1)) && dec(r1) == Some((x, r2))
    requires key(x).Some? && key(x).value in KeySet(key, xs)
    ensures DecodeKeyedList(dec, key, s, n) == Err(DuplicateEntity)
  {
  }

  /** A loop that fails at some pass fails the whole read with that error. */
  lemma {:induction false} KeyedListFailurePersists<T>(dec: Bytes -> Option<(T, Bytes)>, key: T -> Option<Int32>,
                                                       s: Bytes, m: nat, n: nat)
    requires m <= n && DecodeKeyedList(dec, key, s, m).Err?
    ensures DecodeKeyedList(dec, key, s, n) == Err(DecodeKeyedList(dec, key, s, m).error)
    decreases n
  {
    if m < n {
      KeyedListFailurePersists(dec, key, s, m, n - 1);
    }
  }

  lemma KeySetSnoc<T>(key: T -> Option<Int32>, xs: seq<T>, x: T)
    ensures KeySet(key, xs + [x]) == KeySet(key, xs) + (match key(x) case None => {} case Some(k) => {k})
  {
    assert (xs + [x])[..|xs|] == xs;
  }

  lemma {:induction false} KeyedListRoundTrip<T(!new)>(enc: T -> Bytes, dec: Bytes -> Option<(T, Bytes)>,
                                                      key: T -> Option<Int32>, xs: seq<T>, rest: Bytes)
    requires Inverse(enc, dec) && UniqueKeys(key, xs)
    ensures DecodeKeyedList(dec, key, EncodeList(enc, xs) + rest, |xs|) == Ok((xs, rest))
    decreases |xs|
  {
    if |xs| == 0 {
      assert EncodeList(enc, xs) == [];
      assert [] + rest == rest;
    } else {
      var init, last := xs[..|xs| - 1], xs[|xs| - 1];
      UniqueLastKey(key, xs);
      var tail := enc(last) + rest;
      KeyedListRoundTrip(enc, dec, key, init, tail);
      assert EncodeList(enc, xs) == EncodeList(enc, init) + enc(last);
      Regroup3(EncodeList(enc, init), enc(last), rest);
      KeyedListStep(dec, key, EncodeList(enc, init) + tail, |xs|, init, tail, last, rest);
      Snoc(xs);
    }
  }

  /** Whatever the loop accepts has no two items with one key. */
  lemma {:induction false} DecodedKeysUnique<T>(dec: Bytes -> Option<(T, Bytes)>, key: T -> Option<Int32>,
                                                s: Bytes, n: nat)
    ensures DecodeKeyedList(dec, key, s, n).Ok? ==> UniqueKeys(key, DecodeKeyedList(dec, key, s, n).value.0)
  {
    if n > 0 && DecodeKeyedList(dec, key, s, n).Ok? {
      DecodedKeysUnique(dec, key, s, n - 1);
      var (init, r1) := DecodeKeyedList(dec, key, s, n - 1).value;
      var (last, r2) := dec(r1).value;
      var xs := init + [last];
      assert DecodeKeyedList(dec, key, s, n).value.0 == xs;
      if key(last).Some? {
        KeySetMembers(key, init, key(last).value);
      }
      forall i, j | 0 <= i < j < |xs| && key(xs[i]).Some? && key(xs[j]).Some?
        ensures key(xs[i]) != key(xs[j])
      {
        if j < |init| {
          assert xs[i] == init[i] && xs[j] == init[j];
        } else {
          assert xs[i] == init[i];
        }
      }
    }
  }

  /** The key under which LoadAgents files an agent in `Active`: its entity id, when it is active. */
  function ActiveKey(a: AgentRecord): Option<Int32>
  {
    if a.currentState == StateActive then Some(a.entityId) else None
  }

  /** The entity ids of the active agents among `xs`: the keys of `Active`. */
  function ActiveIds(xs: seq<AgentRecord>): set<Int32>
  {
    KeySet(ActiveKey, xs)
  }

  lemma ActiveIdsMembers(xs: seq<AgentRecord>, id: Int32)
    ensures id in ActiveIds(xs) <==>
      exists i :: 0 <= i < |xs| && xs[i].currentState == StateActive && xs[i].entityId == id
  {
    KeySetMembers(ActiveKey, xs, id);
    if id in ActiveIds(xs) {
      var i :| 0 <= i < |xs| && ActiveKey(xs[i]) == Some(id);
    }
    if exists i :: 0 <= i < |xs| && xs[i].currentState == StateActive && xs[i].entityId == id {
      var i :| 0 <= i < |xs| && xs[i].currentState == StateActive && xs[i].entityId == id;
      assert ActiveKey(xs[i]) == Some(id);
    }
  }

  /** No two active agents share an entity id, so `Active` can hold them all. */
  predicate ActiveUnique(xs: seq<AgentRecord>)
  {
    UniqueKeys(ActiveKey, xs)
  }

  /** LoadAgents' loop: `n` agents, each added to `Active` when it is active. */
  function DecodeAgentList(s: Bytes, n: nat): Result<(seq<AgentRecord>, Bytes), LoadError>
  {
    DecodeKeyedList(DecodeAgent, ActiveKey, s, n)
  }

  function EncodeAgents(xs: seq<AgentRecord>): Bytes
    requires |xs| <= MaxInt32
  {
    EncodeInt32(|xs|) + EncodeList(EncodeAgent, xs)
  }

  function DecodeAgents(s: Bytes): Result<(seq<AgentRecord>, Bytes), LoadError>
  {
    var (count, r) :- Need(DecodeInt32(s));
    DecodeAgentList(r, Iterations(count))
  }

  lemma AgentInverse()
    ensures Inverse(EncodeAgent, DecodeAgent)
  {
    forall a: AgentRecord, rest: Bytes
      ensures DecodeAgent(EncodeAgent(a) + rest) == Some((a, rest))
    {
      AgentRoundTrip(a, rest);
    }
  }

  lemma AgentListRoundTrip(xs: seq<AgentRecord>, rest: Bytes)
    requires ActiveUnique(xs)
    ensures DecodeAgentList(EncodeList(EncodeAgent, xs) + rest, |xs|) == Ok((xs, rest))
  {
    AgentInverse();
    KeyedListRoundTrip(EncodeAgent, DecodeAgent, ActiveKey, xs, rest);
  }

  /** Whatever LoadAgents accepts has no two active agents with one entity id. */
  lemma DecodedAgentsUnique(s: Bytes, n: nat)
    ensures DecodeAgentList(s, n).Ok? ==> ActiveUnique(DecodeAgentList(s, n).value.0)
  {
    DecodedKeysUnique(DecodeAgent, ActiveKey, s, n);
  }

  // ----- grid -----

  function EncodeCell(c: Cell): Bytes
  {
    EncodeInt32(|c|) + EncodeList(EncodeInt32, c)
  }

  function DecodeCell(s: Bytes): Option<(Cell, Bytes)>
  {
    var (count, r1) :- DecodeInt32(s);
    var (entries, r2) :- DecodeList(DecodeInt32, r1, Iterations(count));
    Some((entries, r2))
  }

  lemma CellRoundTrip(c: Cell, rest: Bytes)
    ensures DecodeCell(EncodeCell(c) + rest) == Some((c, rest))
  {
    var t := EncodeList(EncodeInt32, c) + rest;
    assert EncodeCell(c) + rest == EncodeInt32(|c|) + t;
    Int32RoundTrip(|c|, t);
    assert Iterations(|c|) == |c|;
    Int32Inverse();
    ListRoundTrip(EncodeInt32, DecodeInt32, c, rest);
  }

  lemma CellInverse()
    ensures Inverse(EncodeCell, DecodeCell)
  {
    forall c: Cell, rest: Bytes
      ensures DecodeCell(EncodeCell(c) + rest) == Some((c, rest))
    {
      CellRoundTrip(c, rest);
    }
  }

  function EncodeGrid(grid: seq<Cell>): Bytes
    requires |grid| <= MaxInt32
  {
    EncodeInt32(|grid|) + EncodeList(EncodeCell, grid)
  }

  /** LoadGrid: allocating an array of negative length throws. */
  function DecodeGrid(s: Bytes): Result<(seq<Cell>, Bytes), LoadError>
  {
    var (count, r1) :- Need(DecodeInt32(s));
    if count < 0 then Err(NegativeGridSize)
    else
      var (cells, r2) :- Need(DecodeList(DecodeCell, r1, count));
      Ok((cells, r2))
  }

  lemma GridRoundTrip(grid: seq<Cell>, rest: Bytes)
    requires |grid| <= MaxInt32
    ensures DecodeGrid(EncodeGrid(grid) + rest) == Ok((grid, rest))
  {
    var t := EncodeList(EncodeCell, grid) + rest;
    assert EncodeGrid(grid) + rest == EncodeInt32(|grid|) + t;
    Int32RoundTrip(|grid|, t);
    CellInverse();
    ListRoundTrip(EncodeCell, DecodeCell, grid, rest);
  }

  // ----- events -----

  function EncodeEvent(e: EventData): Bytes
  {
    EncodeInt32(e.eventType) + EncodeVector3(e.position) + EncodeSingle(e.radius) + EncodeSingle(e.decayRate)
  }

  function DecodeEvent(s: Bytes): Option<(EventData, Bytes)>
  {
    var (eventType, r1) :- DecodeInt32(s);
    var (position, r2) :- DecodeVector3(r1);
    var (radius, r3) :- DecodeSingle(r2);
    var (decayRate, r4) :- DecodeSingle(r3);
    Some((EventData(eventType, position, radius, decayRate), r4))
  }

  lemma EventInverse()
    ensures Inverse(EncodeEvent, DecodeEvent)
  {
    forall e: EventData, rest: Bytes
      ensures DecodeEvent(EncodeEvent(e) + rest) == Some((e, rest))
    {
      var t3 := EncodeSingle(e.decayRate) + rest;
      var t2 := EncodeSingle(e.radius) + t3;
      var t1 := EncodeVector3(e.position) + t2;
      Regroup4(EncodeInt32(e.eventType), EncodeVector3(e.position), EncodeSingle(e.radius),
               EncodeSingle(e.decayRate), rest);
      Int32RoundTrip(e.eventType, t1);
      Vector3RoundTrip(e.position, t2);
      SingleRoundTrip(e.radius, t3);
      SingleRoundTrip(e.decayRate, rest);
    }
  }

  function EncodeEvents(events: seq<EventData>): Bytes
    requires |events| <= MaxInt32
  {
    EncodeInt32(|events|) + EncodeList(EncodeEvent, events)
  }

  function DecodeEvents(s: Bytes): Result<(seq<EventData>, Bytes), LoadError>
  {
    var (count, r1) :- Need(DecodeInt32(s));
    var (events, r2) :- Need(DecodeList(DecodeEvent, r1, Iterations(count)));
    Ok((events, r2))
  }

  lemma EventsRoundTrip(events: seq<EventData>, rest: Bytes)
    requires |events| <= MaxInt32
    ensures DecodeEvents(EncodeEvents(events) + rest) == Ok((events, rest))
  {
    var t := EncodeList(EncodeEvent, events) + rest;
    assert EncodeEvents(events) + rest == EncodeInt32(|events|) + t;
    Int32RoundTrip(|events|, t);
    EventInverse();
    ListRoundTrip(EncodeEvent, DecodeEvent, events, rest);
  }

  /** A negative count makes LoadAgents' and LoadEvents' loops run zero times. */
  lemma NegativeCountsReadEmpty(count: Int32, rest: Bytes)
    requires count < 0
    ensures DecodeAgents(EncodeInt32(count) + rest) == Ok(([], rest))
    ensures DecodeEvents(EncodeInt32(count) + rest) == Ok(([], rest))
    ensures DecodeGrid(EncodeInt32(count) + rest) == Err(NegativeGridSize)
  {
    Int32RoundTrip(count, rest);
  }

  // ----- the whole file -----

  /** The lists a save writes have counts that fit an Int32. */
  predicate Encodable(x: Snapshot)
  {
    |x.agents| <= MaxInt32 && |x.grid| <= MaxInt32 && |x.events| <= MaxInt32
  }

  /** SaveState: the sections in order. */
  function EncodeSnapshot(x: Snapshot): Bytes
    requires Encodable(x)
  {
    EncodeHeader() + EncodeInfo(x.info) + EncodeConfig(x.config) + EncodePrng(x.prng)
    + EncodeAgents(x.agents) + EncodeGrid(x.grid) + EncodeEvents(x.events)
  }

  /** LoadState: the sections in the same order; the first failure wins. */
  function DecodeSnapshot(s: Bytes): Result<(Snapshot, Bytes), LoadError>
  {
    var r0 :- DecodeHeader(s);
    DecodeSections(r0)
  }

  /** The sections after the header. */
  function DecodeSections(s: Bytes): Result<(Snapshot, Bytes), LoadError>
  {
    var (info, r1) :- DecodeInfo(s);
    var (config, r2) :- DecodeConfig(r1);
    var (prng, r3) :- DecodePrng(r2);
    var (lists, r6) :- DecodeCollections(r3);
    Ok((Snapshot(info, config, prng, lists.0, lists.1, lists.2), r6))
  }

  /** The agents, the grid and the events. */
  function DecodeCollections(s: Bytes): Result<((seq<AgentRecord>, seq<Cell>, seq<EventData>), Bytes), LoadError>
  {
    var (agents, r1) :- DecodeAgents(s);
    var (grid, r2) :- DecodeGrid(r1);
    var (events, r3) :- DecodeEvents(r2);
    Ok(((agents, grid, events), r3))
  }

  lemma AgentsRoundTrip(xs: seq<AgentRecord>, rest: Bytes)
    requires |xs| <= MaxInt32 && ActiveUnique(xs)
    ensures DecodeAgents(EncodeAgents(xs) + rest) == Ok((xs, rest))
  {
    var t := EncodeList(EncodeAgent, xs) + rest;
    assert EncodeAgents(xs) + rest == EncodeInt32(|xs|) + t;
    Int32RoundTrip(|xs|, t);
    AgentListRoundTrip(xs, rest);
  }

  lemma CollectionsRoundTrip(x: Snapshot, rest: Bytes)
    requires Encodable(x) && ActiveUnique(x.agents)
    ensures DecodeCollections(EncodeAgents(x.agents) + (EncodeGrid(x.grid) + (EncodeEvents(x.events) + rest)))
         == Ok(((x.agents, x.grid, x.events), rest))
  {
    AgentsRoundTrip(x.agents, EncodeGrid(x.grid) + (EncodeEvents(x.events) + rest));
    GridRoundTrip(x.grid, EncodeEvents(x.events) + rest);
    EventsRoundTrip(x.events, rest);
  }

  lemma SectionsRoundTrip(x: Snapshot, rest: Bytes)
    requires Encodable(x) && ActiveUnique(x.agents)
    ensures DecodeSections(EncodeInfo(x.info) + (EncodeConfig(x.config) + (EncodePrng(x.prng) +
              (EncodeAgents(x.agents) + (EncodeGrid(x.grid) + (EncodeEvents(x.events) + rest))))))
         == Ok((x, rest))
  {
    var t3 := EncodeAgents(x.agents) + (EncodeGrid(x.grid) + (EncodeEvents(x.events) + rest));
    InfoRoundTrip(x.info, EncodeConfig(x.config) + (EncodePrng(x.prng) + t3));
    ConfigRoundTrip(x.config, EncodePrng(x.prng) + t3);
    PrngRoundTrip(x.prng, t3);
    CollectionsRoundTrip(x, rest);
  }

  /** Loading what a save wrote restores every section; later bytes are not read. */
  lemma SnapshotRoundTrip(x: Snapshot, rest: Bytes)
    requires Encodable(x) && ActiveUnique(x.agents)
    ensures DecodeSnapshot(EncodeSnapshot(x) + rest) == Ok((x, rest))
  {
    var t0 := EncodeInfo(x.info) + (EncodeConfig(x.config) + (EncodePrng(x.prng) +
              (EncodeAgents(x.agents) + (EncodeGrid(x.grid) + (EncodeEvents(x.events) + rest)))));
    Regroup7(EncodeHeader(), EncodeInfo(x.info), EncodeConfig(x.config), EncodePrng(x.prng),
             EncodeAgents(x.agents), EncodeGrid(x.grid), EncodeEvents(x.events), rest);
    HeaderRoundTrip(t0);
    SectionsRoundTrip(x, rest);
    AfterHeader(EncodeHeader() + t0);
  }

  /** Past a valid header, a load reads the sections. */
  lemma AfterHeader(s: Bytes)
    requires DecodeHeader(s).Ok?
    ensures DecodeSnapshot(s) == DecodeSections(DecodeHeader(s).value)
  {
  }

  /** A stream whose first word is not the magic is rejected before anything else is read. */
  lemma BadMagicRejected(s: Bytes)
    requires |s| >= 4 && DecodeUInt32(s).value.0 != SaveMagic
    ensures DecodeSnapshot(s) == Err(BadMagic)
  {
  }

  /** The version word is read and ignored: any value loads the same. */
  lemma VersionIgnored(s: Bytes, version: UInt32)
    requires |s| >= 8
    ensures DecodeSnapshot(s[..4] + EncodeUInt32(version) + s[8..]) == DecodeSnapshot(s)
  {
    HeaderVersionIgnored(s, version);
  }

  lemma HeaderVersionIgnored(s: Bytes, version: UInt32)
    requires |s| >= 8
    ensures DecodeHeader(s[..4] + EncodeUInt32(version) + s[8..]) == DecodeHeader(s)
  {
    var s' := s[..4] + EncodeUInt32(version) + s[8..];
    assert s'[..4] == s[..4];
    assert s'[4..] == EncodeUInt32(version) + s[8..];
    UInt32RoundTrip(version, s[8..]);
    assert DecodeUInt32(s').value.0 == DecodeUInt32(s).value.0;
  }

  /** A successful load never holds two active agents with one entity id. */
  lemma LoadedAgentsUnique(s: Bytes)
    ensures DecodeSnapshot(s).Ok? ==> ActiveUnique(DecodeSnapshot(s).value.0.agents)
  {
    if DecodeSnapshot(s).Ok? {
      var r0 := DecodeHeader(s).value;
      var r1 := DecodeInfo(r0).value.1;
      var r2 := DecodeConfig(r1).value.1;
      var r3 := DecodePrng(r2).value.1;
      var (count, r) := DecodeInt32(r3).value;
      DecodedAgentsUnique(r, Iterations(count));
    }
  }
}
