/**
  The start-location policy and the population of Simulation.cs, as
  functions of the values the code reads: the world bounds, the
  configuration, the map data and the random generator, which every draw
  advances and which the functions thread through explicitly.

  Positions are float vectors. The float arithmetic the code does (sums,
  Math.Remap of a draw, the circle offset of a grouped start, the velocity
  of a draw) is taken from a Host record of functions, so that contracts can
  say which coordinate is which expression without computing with floats.
 */
module Placement {
  import opened Wrappers
  import opened Numeric
  import opened RandomGen
  import opened Configs
  import opened Agents
  import opened SaveFormat
  import opened MapLoad

  /** 250.0f, the margin kept from the world's edge. */
  const BorderSize: Single := Single(0x437A_0000)

  /** The exceptions the code below can throw. */
  datatype SimError =
    | DivideByZero      // an integer division by a zero GroupSize
    | Overflow          // int.MinValue / -1, or an array of negative length
    | IndexOutOfRange   // an array index outside the array
    | BadLocation       // "Bad starting location type"

  /** The float arithmetic the location code delegates. */
  datatype Host = Host(
    add: (Single, Single) -> Single,                  // float a + b
    sub: (Single, Single) -> Single,                  // float a - b
    remap: (Double, Single, Single) -> Single,        // Math.Remap((float)d, 0f, 1f, lo, hi)
    circleOffset: (Double, Double, Int32) -> Vector3, // the grouped-start offset for two draws and a group size
    vecAdd: (Vector3, Vector3) -> Vector3,            // vector a + b
    velocity: Double -> Single)                       // (float)(d * 3f)

  /** What the location code reads of the simulation state, besides the generator. */
  datatype Setting = Setting(worldMins: Vector3, worldMaxs: Vector3, ticks: UInt32, config: Config, mapData: Option<MapData>)

  // ----- group arithmetic -----

  /** Populate's group count: MaxAgents / GroupSize, plus one when that leaves a remainder. */
  function GroupCount(maxAgents: Int32, groupSize: Int32): int
    requires groupSize != 0
  {
    CsDiv(maxAgents, groupSize) + (if CsRem(maxAgents, groupSize) != 0 then 1 else 0)
  }

  /** Multiplying by a non-negative factor keeps an order. */
  lemma MulMonotone(k: int, a: int, b: int)
    requires k >= 0 && a <= b
    ensures k * a <= k * b
  {
    var d := b - a;
    assert k * b == k * a + k * d;
  }

  /** For the sizes a configuration means, the group count is the ceiling of the division. */
  lemma GroupCountIsCeiling(maxAgents: Int32, groupSize: Int32)
    requires maxAgents >= 0 && groupSize > 0
    ensures groupSize * GroupCount(maxAgents, groupSize) >= maxAgents
    ensures maxAgents == 0 || groupSize * (GroupCount(maxAgents, groupSize) - 1) < maxAgents
  {
    CsDivNonNegative(maxAgents, groupSize);
    var q, m := maxAgents / groupSize, maxAgents % groupSize;
    assert maxAgents == groupSize * q + m && 0 <= m < groupSize;
    if m == 0 {
      assert groupSize * (q - 1) == groupSize * q - groupSize;
    } else {
      assert groupSize * (q + 1) == groupSize * q + groupSize;
    }
  }

  /** Agent `i`'s group, `i / GroupSize`, is one of the groups Populate allocates. */
  lemma GroupInRange(maxAgents: Int32, groupSize: Int32, i: int)
    requires groupSize > 0 && 0 <= i < maxAgents
    ensures 0 <= CsDiv(i, groupSize) < GroupCount(maxAgents, groupSize)
  {
    CsDivNonNegative(i, groupSize);
    GroupCountIsCeiling(maxAgents, groupSize);
    var g, n := i / groupSize, GroupCount(maxAgents, groupSize);
    assert groupSize * g + i % groupSize == i;
    if g >= n {
      MulMonotone(groupSize, n, g);
      assert false;
    }
  }

  /** A quotient is no larger than its dividend, and at most half of it for a divisor of two or more. */
  lemma QuotientShrinks(a: nat, b: nat)
    requires b >= 1
    ensures a / b <= a
    ensures b >= 2 ==> 2 * (a / b) <= a
  {
    var q, m := a / b, a % b;
    assert b * q + m == a && m >= 0;
    MulMonotone(q, 1, b);
    if b >= 2 {
      MulMonotone(q, 2, b);
    }
  }

  /** The truncating quotient shrinks the same way. */
  lemma CsQuotientShrinks(a: int, b: int)
    requires b != 0
    ensures Abs(CsDiv(a, b)) <= Abs(a)
    ensures Abs(b) >= 2 ==> 2 * Abs(CsDiv(a, b)) <= Abs(a)
  {
    QuotientShrinks(Abs(a), Abs(b));
  }

  /** Truncating division of an Int32 by a GroupSize fits an Int32 except for int.MinValue / -1. */
  lemma GroupDivisionFits(a: Int32, groupSize: Int32)
    requires groupSize != 0 && !(a == -0x8000_0000 && groupSize == -1)
    ensures -0x8000_0000 <= CsDiv(a, groupSize) <= MaxInt32
    ensures -0x8000_0000 <= GroupCount(a, groupSize) <= MaxInt32
  {
    CsQuotientShrinks(a, groupSize);
    if groupSize == 1 || groupSize == -1 {
      ExactDivision(a, groupSize);
    }
  }

  /** Dividing by one or minus one leaves no remainder. */
  lemma ExactDivision(a: int, groupSize: int)
    requires groupSize == 1 || groupSize == -1
    ensures CsRem(a, groupSize) == 0
  {
    if groupSize == 1 {
      assert CsDiv(a, groupSize) == a;
    } else {
      assert CsDiv(a, groupSize) == -a;
    }
  }

  /** C#'s `a / b` on int, with the two exceptions it can throw. */
  function IntDiv(a: Int32, b: Int32): (r: Result<Int32, SimError>)
    ensures r.Ok? ==> b != 0 && r.value == CsDiv(a, b)
    ensures r == Err(DivideByZero) <==> b == 0
    ensures r == Err(Overflow) <==> a == -0x8000_0000 && b == -1
  {
    if b == 0 then Err(DivideByZero)
    else if a == -0x8000_0000 && b == -1 then Err(Overflow)
    else
      GroupDivisionFits(a, b);
      Ok(CsDiv(a, b))
  }

  // ----- start locations -----

  /** GetRandomPosition: a point inside the border margin, from two draws. */
  function RandomPosition(w: Setting, h: Host, g: Random): (Vector3, Random)
  {
    var mins, maxs := w.worldMins, w.worldMaxs;
    var (x0, g1) := NextDouble(g);
    var (y0, g2) := NextDouble(g1);
    (Vector3(h.remap(x0, h.add(mins.x, BorderSize), h.sub(maxs.x, BorderSize)),
             h.remap(y0, h.add(mins.y, BorderSize), h.sub(maxs.y, BorderSize)),
             ZeroSingle),
     g2)
  }

  /**
    Which draw and which bounds give each coordinate of a random position:
    x is the first draw remapped onto the inner x span, y the second onto
    the inner y span, z is zero, and exactly two draws are used.
   */
  lemma RandomPositionCoordinates(w: Setting, h: Host, g: Random)
    ensures var p, mins, maxs := RandomPosition(w, h, g).0, w.worldMins, w.worldMaxs;
      && p.x == h.remap(NextDouble(g).0, h.add(mins.x, BorderSize), h.sub(maxs.x, BorderSize))
      && p.y == h.remap(NextDouble(NextDouble(g).1).0, h.add(mins.y, BorderSize), h.sub(maxs.y, BorderSize))
      && p.z == ZeroSingle
    ensures RandomPosition(w, h, g).1 == NextDouble(NextDouble(g).1).1
  {
  }

  /**
    GetRandomBorderPosition: a draw in [0, 4) picks a side; that side pins
    one coordinate to the inner border line and a second draw places the
    other along it. The result starts as the zero vector, which a side
    outside 0..3 would leave unchanged.
   */
  function RandomBorderPosition(w: Setting, h: Host, g: Random): (Vector3, Random)
  {
    var mins, maxs := w.worldMins, w.worldMaxs;
    var (side, g1) := Next(g, 0, 4);
    var (t, g2) := NextDouble(g1);
    var alongX := h.remap(t, h.add(mins.x, BorderSize), h.sub(maxs.x, BorderSize));
    var alongY := h.remap(t, h.add(mins.y, BorderSize), h.sub(maxs.y, BorderSize));
    if side == 0 then (Vector3(alongX, h.add(mins.y, BorderSize), ZeroSingle), g2)        // top
    else if side == 1 then (Vector3(h.sub(maxs.x, BorderSize), alongY, ZeroSingle), g2)   // right
    else if side == 2 then (Vector3(alongX, h.sub(maxs.y, BorderSize), ZeroSingle), g2)   // bottom
    else if side == 3 then (Vector3(h.add(mins.x, BorderSize), alongY, ZeroSingle), g2)   // left
    else (ZeroVector, g1)
  }

  /**
    The side drawn decides which coordinate is pinned to the inner border
    line; the other comes from Remap of the second draw; z stays zero.
   */
  lemma BorderSidePinned(w: Setting, h: Host, g: Random)
    ensures var mins, maxs, side := w.worldMins, w.worldMaxs, Next(g, 0, 4).0;
      var p, d := RandomBorderPosition(w, h, g).0, NextDouble(Next(g, 0, 4).1).0;
      && (side == 0 ==> p.y == h.add(mins.y, BorderSize) && p.x == h.remap(d, h.add(mins.x, BorderSize), h.sub(maxs.x, BorderSize)))
      && (side == 1 ==> p.x == h.sub(maxs.x, BorderSize) && p.y == h.remap(d, h.add(mins.y, BorderSize), h.sub(maxs.y, BorderSize)))
      && (side == 2 ==> p.y == h.sub(maxs.y, BorderSize) && p.x == h.remap(d, h.add(mins.x, BorderSize), h.sub(maxs.x, BorderSize)))
      && (side == 3 ==> p.x == h.add(mins.x, BorderSize) && p.y == h.remap(d, h.add(mins.y, BorderSize), h.sub(maxs.y, BorderSize)))
      && p.z == ZeroSingle
    ensures RandomBorderPosition(w, h, g).1 == NextDouble(Next(g, 0, 4).1).1
  {
  }

  /** Whether `p` lies on one of the four lines GetRandomBorderPosition pins a coordinate to. */
  predicate OnBorderLine(w: Setting, h: Host, p: Vector3)
  {
    || p.y == h.add(w.worldMins.y, BorderSize)
    || p.x == h.sub(w.worldMaxs.x, BorderSize)
    || p.y == h.sub(w.worldMaxs.y, BorderSize)
    || p.x == h.add(w.worldMins.x, BorderSize)
  }

  /** Every border position lies on a border line, whichever side was drawn. */
  lemma BorderPositionOnBorderLine(w: Setting, h: Host, g: Random)
    ensures OnBorderLine(w, h, RandomBorderPosition(w, h, g).0)
  {
    BorderSidePinned(w, h, g);
  }

  /**
    GetRandomPOIPosition: without map data, a border position; otherwise
    the position of the decoration a draw in [0, count) selects. With no
    decorations the lookup fails.
   */
  function RandomPoiPosition(w: Setting, h: Host, g: Random): Result<(Vector3, Random), SimError>
  {
    match w.mapData
    case None => Ok(RandomBorderPosition(w, h, g))
    case Some(m) =>
      var decos := m.prefabs.decorations;
      if |decos| == 0 then Err(IndexOutOfRange)
      else
        var (i, g') := Next(g, 0, |decos|);
        Ok((decos[i].position, g'))
  }

  /** Without map data the POI position is a border position; with it, one of the decorations' positions, or a throw when there are none. */
  lemma PoiFallbackAndChoice(w: Setting, h: Host, g: Random)
    ensures w.mapData.None? ==> RandomPoiPosition(w, h, g) == Ok(RandomBorderPosition(w, h, g))
    ensures w.mapData.Some? ==> var decos, r := w.mapData.value.prefabs.decorations, RandomPoiPosition(w, h, g);
      && (r.Err? <==> |decos| == 0)
      && (r.Ok? ==> exists i :: 0 <= i < |decos| && r.value.0 == decos[i].position)
  {
    if w.mapData.Some? && |w.mapData.value.prefabs.decorations| > 0 {
      var i := Next(g, 0, |w.mapData.value.prefabs.decorations|).0;
      assert RandomPoiPosition(w, h, g).value.0 == w.mapData.value.prefabs.decorations[i].position;
    }
  }

  /** The location kind GetWorldLocation dispatches on: Mixed is replaced by a draw in [RandomBorderLocation, RandomPOI]. */
  function ResolveLocation(g: Random, location: Int32): (r: (Int32, Random))
    ensures location == LocationMixed ==> LocationRandomBorder <= r.0 <= LocationRandomPOI
    ensures location != LocationMixed ==> r == (location, g)
  {
    if location == LocationMixed then
      var (drawn, g') := Next(g, LocationRandomBorder as int, LocationRandomPOI as int + 1);
      (drawn, g')
    else (location, g)
  }

  /** GetWorldLocation: one of the three position choices; any other kind throws. */
  function WorldLocation(w: Setting, h: Host, g: Random, location: Int32): Result<(Vector3, Random), SimError>
  {
    var (kind, g') := ResolveLocation(g, location);
    if kind == LocationRandomBorder then Ok(RandomBorderPosition(w, h, g'))
    else if kind == LocationRandom then Ok(RandomPosition(w, h, g'))
    else if kind == LocationRandomPOI then RandomPoiPosition(w, h, g')
    else Err(BadLocation)
  }

  /** After Mixed is resolved, each kind goes to its own position choice, and only an unhandled kind throws BadLocation. */
  lemma WorldLocationDispatch(w: Setting, h: Host, g: Random, location: Int32)
    ensures var (kind, g') := ResolveLocation(g, location);
      var r := WorldLocation(w, h, g, location);
      && (kind == LocationRandomBorder ==> r == Ok(RandomBorderPosition(w, h, g')))
      && (kind == LocationRandom ==> r == Ok(RandomPosition(w, h, g')))
      && (kind == LocationRandomPOI ==> r == RandomPoiPosition(w, h, g'))
      && (r == Err(BadLocation) <==> kind !in {LocationRandomBorder, LocationRandom, LocationRandomPOI})
  {
    var (kind, g') := ResolveLocation(g, location);
    if kind == LocationRandomPOI {
      PoiFallbackAndChoice(w, h, g');
    }
  }

  /** None, and every code outside the enumeration, is rejected rather than given a default. */
  lemma NoneLocationRejected(w: Setting, h: Host, g: Random, location: Int32)
    requires location == LocationNone || location < LocationNone || location > LocationMixed
    ensures WorldLocation(w, h, g, location) == Err(BadLocation)
  {
  }

  /** Mixed never throws BadLocation: the draw always lands on a kind that is handled. */
  lemma MixedNeverBad(w: Setting, h: Host, g: Random)
    ensures WorldLocation(w, h, g, LocationMixed) != Err(BadLocation)
  {
    WorldLocationDispatch(w, h, g, LocationMixed);
  }

  /**
    GetStartLocation(index, groupIndex): with StartAgentsGrouped, the
    group's start plus an offset from two draws; otherwise the configured
    start location.
   */
  function AgentStartLocation(w: Setting, h: Host, g: Random, groupStarts: seq<Vector3>, groupIndex: int)
    : Result<(Vector3, Random), SimError>
  {
    if w.config.startAgentsGrouped then
      var (angle, g1) := NextDouble(g);
      var (radius, g2) := NextDouble(g1);
      var offset := h.circleOffset(angle, radius, w.config.groupSize);
      if 0 <= groupIndex < |groupStarts| then Ok((h.vecAdd(groupStarts[groupIndex], offset), g2))
      else Err(IndexOutOfRange)
    else WorldLocation(w, h, g, w.config.startPosition)
  }

  /** `p` is the group start `start` moved by some offset. */
  ghost predicate AroundStart(h: Host, p: Vector3, start: Vector3)
  {
    exists offset :: p == h.vecAdd(start, offset)
  }

  /** Grouped starts succeed exactly for an existing group and land at an offset from its start; ungrouped ones are the configured start location. */
  lemma AgentStartCases(w: Setting, h: Host, g: Random, groupStarts: seq<Vector3>, groupIndex: int)
    ensures var r := AgentStartLocation(w, h, g, groupStarts, groupIndex);
      && (!w.config.startAgentsGrouped ==> r == WorldLocation(w, h, g, w.config.startPosition))
      && (w.config.startAgentsGrouped ==>
            && (r.Ok? <==> 0 <= groupIndex < |groupStarts|)
            && (r.Ok? ==> AroundStart(h, r.value.0, groupStarts[groupIndex])))
  {
    if w.config.startAgentsGrouped && 0 <= groupIndex < |groupStarts| {
      var offset := h.circleOffset(NextDouble(g).0, NextDouble(NextDouble(g).1).0, w.config.groupSize);
      assert AgentStartLocation(w, h, g, groupStarts, groupIndex).value.0 == h.vecAdd(groupStarts[groupIndex], offset);
    }
  }

  // ----- counted loops over the generator -----

  /**
    A counted loop that threads the generator through `n` passes, pass `i`
    producing one element or throwing; the first throw ends the loop.
   */
  function Chain<T>(step: (Random, Int32) -> Result<(T, Random), SimError>, g: Random, n: nat)
    : (r: Result<(seq<T>, Random), SimError>)
    requires n <= 0x8000_0000
    ensures r.Ok? ==> |r.value.0| == n
    decreases n
  {
    if n == 0 then Ok(([], g))
    else
      var (xs, g1) :- Chain(step, g, n - 1);
      var (x, g2) :- step(g1, n - 1);
      Ok((xs + [x], g2))
  }

  /** One more pass extends a completed loop by what that pass produced. */
  lemma ChainStep<T>(step: (Random, Int32) -> Result<(T, Random), SimError>, g: Random, n: nat, xs: seq<T>, g1: Random)
    requires n < 0x8000_0000 && Chain(step, g, n) == Ok((xs, g1))
    ensures step(g1, n).Ok? ==> Chain(step, g, n + 1) == Ok((xs + [step(g1, n).value.0], step(g1, n).value.1))
    ensures step(g1, n).Err? ==> Chain(step, g, n + 1) == Err(step(g1, n).error)
  {
  }

  /** Once a pass throws, every longer loop throws the same exception. */
  lemma {:induction false} ChainFailurePersists<T>(step: (Random, Int32) -> Result<(T, Random), SimError>, g: Random, m: nat, n: nat)
    requires m <= n <= 0x8000_0000 && Chain(step, g, m).Err?
    ensures Chain(step, g, n) == Chain(step, g, m)
    decreases n
  {
    if m < n {
      ChainFailurePersists(step, g, m, n - 1);
    }
  }

  /** Every element the loop produced is what its pass produced from some generator state. */
  lemma {:induction false} ChainMember<T>(step: (Random, Int32) -> Result<(T, Random), SimError>, g: Random, n: nat, i: Int32)
    requires n <= 0x8000_0000 && Chain(step, g, n).Ok? && 0 <= i < n
    ensures exists g' :: step(g', i).Ok? && step(g', i).value.0 == Chain(step, g, n).value.0[i]
    decreases n
  {
    var (xs, g1) := Chain(step, g, n - 1).value;
    var ys := Chain(step, g, n).value.0;
    assert ys == xs + [step(g1, n - 1).value.0];
    if i < n - 1 {
      ChainMember(step, g, n - 1, i);
      assert ys[i] == xs[i];
    } else {
      assert step(g1, i).value.0 == ys[i];
    }
  }

  /** When no pass can throw, the loop completes, and a property every pass guarantees holds of every element. */
  lemma {:induction false} ChainSucceeds<T>(step: (Random, Int32) -> Result<(T, Random), SimError>, g: Random, n: nat,
                                           p: (Int32, T) -> bool)
    requires n <= 0x8000_0000
    requires forall g', i: Int32 :: 0 <= i < n ==> step(g', i).Ok? && p(i, step(g', i).value.0)
    ensures Chain(step, g, n).Ok?
    ensures forall i :: 0 <= i < n ==> p(i, Chain(step, g, n).value.0[i])
    decreases n
  {
    if n > 0 {
      ChainSucceeds(step, g, n - 1, p);
      var (xs, g1) := Chain(step, g, n - 1).value;
      assert step(g1, n - 1).Ok?;
      assert Chain(step, g, n).value.0 == xs + [step(g1, n - 1).value.0];
    }
  }

  /**
    A loop followed pass by pass: `gens[k]` is the generator before pass `k`,
    which produced `xs[k]` and left `gens[k + 1]`.
   */
  ghost predicate Traced<T>(step: (Random, Int32) -> Result<(T, Random), SimError>, gens: seq<Random>, xs: seq<T>)
  {
    && |gens| == |xs| + 1 && |xs| <= 0x8000_0000
    && forall k: Int32 {:trigger step(gens[k], k)} :: 0 <= k < |xs| ==> step(gens[k], k) == Ok((xs[k], gens[k + 1]))
  }

  /** A pass that succeeds extends the trace by what it produced. */
  lemma TracedSnoc<T>(step: (Random, Int32) -> Result<(T, Random), SimError>, gens: seq<Random>, xs: seq<T>, x: T, g: Random)
    requires Traced(step, gens, xs) && |xs| < 0x8000_0000
    requires step(gens[|xs|], |xs|) == Ok((x, g))
    ensures Traced(step, gens + [g], xs + [x])
  {
    var gens', xs' := gens + [g], xs + [x];
    forall k: Int32 | 0 <= k < |xs'|
      ensures step(gens'[k], k) == Ok((xs'[k], gens'[k + 1]))
    {
      if k < |xs| {
        assert gens'[k] == gens[k] && gens'[k + 1] == gens[k + 1] && xs'[k] == xs[k];
      }
    }
  }

  /** A traced loop is the counted loop from the first generator. */
  lemma {:induction false} TracedChain<T>(step: (Random, Int32) -> Result<(T, Random), SimError>, gens: seq<Random>, xs: seq<T>)
    requires Traced(step, gens, xs)
    ensures Chain(step, gens[0], |xs|) == Ok((xs, gens[|xs|]))
    decreases |xs|
  {
    if |xs| > 0 {
      var m := |xs| - 1;
      var gens', xs' := gens[..m + 1], xs[..m];
      forall k: Int32 | 0 <= k < |xs'|
        ensures step(gens'[k], k) == Ok((xs'[k], gens'[k + 1]))
      {
        assert step(gens[k], k) == Ok((xs[k], gens[k + 1]));
      }
      TracedChain(step, gens', xs');
      assert step(gens[m], m) == Ok((xs[m], gens[m + 1]));
      assert xs' + [xs[m]] == xs;
    }
  }

  /** A pass that throws after a traced loop makes every loop at least one pass longer throw the same. */
  lemma TracedFailure<T>(step: (Random, Int32) -> Result<(T, Random), SimError>, gens: seq<Random>, xs: seq<T>, e: SimError, n: nat)
    requires Traced(step, gens, xs) && |xs| < n <= 0x8000_0000
    requires step(gens[|xs|], |xs|) == Err(e)
    ensures Chain(step, gens[0], n) == Err(e)
  {
    TracedChain(step, gens, xs);
    ChainStep(step, gens[0], |xs|, xs, gens[|xs|]);
    ChainFailurePersists(step, gens[0], |xs| + 1, n);
  }

  // ----- population -----

  /** One pass of Populate's first loop: GetStartLocation(). */
  function StartStep(w: Setting, h: Host): (Random, Int32) -> Result<(Vector3, Random), SimError>
  {
    (g: Random, i: Int32) => WorldLocation(w, h, g, w.config.startPosition)
  }

  /** Populate's first loop: one start per group, the generator threaded through. */
  function GroupStarts(w: Setting, h: Host, g: Random, n: nat): Result<(seq<Vector3>, Random), SimError>
    requires n <= 0x8000_0000
  {
    Chain(StartStep(w, h), g, n)
  }

  /**
    One pass of Populate's second loop: the agent at `index` in group
    `index / GroupSize`, stamped with the current tick, placed at its start
    location and given a velocity from two further draws.
   */
  function PlaceAgent(w: Setting, h: Host, starts: seq<Vector3>, g: Random, index: Int32)
    : (r: Result<(AgentRecord, Random), SimError>)
    ensures r.Ok? ==> w.config.groupSize != 0 && r.value.0.group == CsDiv(index, w.config.groupSize)
    ensures r.Ok? ==> r.value.0 == FreshRecord(index, r.value.0.group).(
      lastUpdateTick := w.ticks, position := r.value.0.position,
      velocity := Vector3(r.value.0.velocity.x, r.value.0.velocity.y, ZeroSingle))
  {
    var group :- IntDiv(index, w.config.groupSize);
    var (position, g1) :- AgentStartLocation(w, h, g, starts, group);
    var (dx, g2) := NextDouble(g1);
    var (dy, g3) := NextDouble(g2);
    var initial := FreshRecord(index, group);
    Ok((initial.(lastUpdateTick := w.ticks, position := position,
                 velocity := Vector3(h.velocity(dx), h.velocity(dy), initial.velocity.z)), g3))
  }

  function PlaceStep(w: Setting, h: Host, starts: seq<Vector3>): (Random, Int32) -> Result<(AgentRecord, Random), SimError>
  {
    (g: Random, i: Int32) => PlaceAgent(w, h, starts, g, i)
  }

  /** Populate's second loop over the first `n` indices. */
  function PlaceAgents(w: Setting, h: Host, starts: seq<Vector3>, g: Random, n: nat): Result<(seq<AgentRecord>, Random), SimError>
    requires n <= 0x8000_0000
  {
    Chain(PlaceStep(w, h, starts), g, n)
  }

  /**
    The agent at position `i` has index `i`, group `i / GroupSize`, the
    current tick and otherwise a new agent's fields (apart from position
    and velocity).
   */
  lemma PlacedAgentsShape(w: Setting, h: Host, starts: seq<Vector3>, g: Random, n: nat)
    requires n <= 0x8000_0000 && PlaceAgents(w, h, starts, g, n).Ok?
    ensures n > 0 ==> w.config.groupSize != 0
    ensures forall i :: 0 <= i < n ==>
      var a := PlaceAgents(w, h, starts, g, n).value.0[i];
      && a.index == i
      && a.group == CsDiv(i, w.config.groupSize)
      && a.lastUpdateTick == w.ticks
      && a.currentState == StateInactive
      && a.entityId == -1 && a.entityClassId == -1 && a.health == -1 && a.cellIndex == -1
      && a.velocity.z == ZeroSingle
  {
    var step := PlaceStep(w, h, starts);
    var xs := PlaceAgents(w, h, starts, g, n).value.0;
    forall i | 0 <= i < n
      ensures w.config.groupSize != 0 && xs[i].index == i && xs[i].group == CsDiv(i, w.config.groupSize)
      ensures xs[i] == FreshRecord(i, xs[i].group).(
        lastUpdateTick := w.ticks, position := xs[i].position,
        velocity := Vector3(xs[i].velocity.x, xs[i].velocity.y, ZeroSingle))
    {
      ChainMember(step, g, n, i);
      var g' :| step(g', i).Ok? && step(g', i).value.0 == xs[i];
      assert PlaceAgent(w, h, starts, g', i) == step(g', i);
    }
  }

  /** The number of agents Populate places: MaxAgents, or none when it is negative. */
  function AgentCount(c: Config): nat
  {
    if c.maxAgents < 0 then 0 else c.maxAgents
  }

  /**
    Populate as a whole: the group count, the group starts and the agents,
    or the exception that stops it.
   */
  function PopulateResult(w: Setting, h: Host, g: Random): (r: Result<(seq<Vector3>, seq<AgentRecord>, Random), SimError>)
    ensures r.Ok? ==> w.config.groupSize != 0 && |r.value.0| == GroupCount(w.config.maxAgents, w.config.groupSize)
    ensures r.Ok? ==> |r.value.1| == AgentCount(w.config)
  {
    var c := w.config;
    var quotient :- IntDiv(c.maxAgents, c.groupSize);
    GroupDivisionFits(c.maxAgents, c.groupSize);
    var count := GroupCount(c.maxAgents, c.groupSize);
    if count < 0 then Err(Overflow)
    else
      var (starts, g1) :- GroupStarts(w, h, g, count);
      var (agents, g2) :- PlaceAgents(w, h, starts, g1, AgentCount(c));
      Ok((starts, agents, g2))
  }

  /** A zero group size throws DivideByZero, int.MinValue agents in groups of -1 throw Overflow, and so does a negative group count. */
  lemma PopulateErrors(w: Setting, h: Host, g: Random)
    ensures w.config.groupSize == 0 ==> PopulateResult(w, h, g) == Err(DivideByZero)
    ensures w.config.maxAgents == -0x8000_0000 && w.config.groupSize == -1 ==> PopulateResult(w, h, g) == Err(Overflow)
    ensures (w.config.groupSize != 0 && !(w.config.maxAgents == -0x8000_0000 && w.config.groupSize == -1) &&
             GroupCount(w.config.maxAgents, w.config.groupSize) < 0) ==> PopulateResult(w, h, g) == Err(Overflow)
  {
  }

  /** Once the group count is known, Populate's result is its first loop's followed by its second loop's. */
  lemma PopulateStages(w: Setting, h: Host, g: Random, count: nat)
    requires IntDiv(w.config.maxAgents, w.config.groupSize).Ok?
    requires count == GroupCount(w.config.maxAgents, w.config.groupSize)
    ensures count <= 0x8000_0000
    ensures GroupStarts(w, h, g, count).Err? ==> PopulateResult(w, h, g) == Err(GroupStarts(w, h, g, count).error)
    ensures GroupStarts(w, h, g, count).Ok? ==>
      var (starts, g1) := GroupStarts(w, h, g, count).value;
      var placed := PlaceAgents(w, h, starts, g1, AgentCount(w.config));
      PopulateResult(w, h, g) == if placed.Ok? then Ok((starts, placed.value.0, placed.value.1)) else Err(placed.error)
  {
    GroupDivisionFits(w.config.maxAgents, w.config.groupSize);
  }

  /**
    With RandomBorderLocation as the start location, the first loop never
    throws and every group starts on a border line.
   */
  lemma BorderGroupStarts(w: Setting, h: Host, g: Random, n: nat)
    requires n <= 0x8000_0000 && w.config.startPosition == LocationRandomBorder
    ensures GroupStarts(w, h, g, n).Ok?
    ensures forall i :: 0 <= i < n ==> OnBorderLine(w, h, GroupStarts(w, h, g, n).value.0[i])
  {
    var step := StartStep(w, h);
    var p := (i: Int32, v: Vector3) => OnBorderLine(w, h, v);
    forall g': Random, i: Int32 | 0 <= i < n
      ensures step(g', i).Ok? && p(i, step(g', i).value.0)
    {
      BorderPositionOnBorderLine(w, h, g');
    }
    ChainSucceeds(step, g, n, p);
  }

  /** Every agent belongs to an existing group and stands at an offset from that group's start. */
  ghost predicate AroundGroupStarts(h: Host, starts: seq<Vector3>, agents: seq<AgentRecord>)
  {
    forall i :: 0 <= i < |agents| ==>
      && 0 <= agents[i].group < |starts|
      && AroundStart(h, agents[i].position, starts[agents[i].group])
  }

  /**
    With grouped starts, a positive group size and a start per group, the
    second loop never indexes outside the group starts, and every agent is
    placed at an offset from its own group's start.
   */
  lemma GroupedPlacementInBounds(w: Setting, h: Host, starts: seq<Vector3>, g: Random, n: nat)
    requires w.config.startAgentsGrouped && w.config.groupSize > 0
    requires n <= w.config.maxAgents && |starts| == GroupCount(w.config.maxAgents, w.config.groupSize)
    ensures PlaceAgents(w, h, starts, g, n).Ok?
    ensures AroundGroupStarts(h, starts, PlaceAgents(w, h, starts, g, n).value.0)
  {
    var gs := w.config.groupSize;
    var step := PlaceStep(w, h, starts);
    var p := (i: Int32, a: AgentRecord) => 0 <= CsDiv(i, gs) < |starts| && AroundStart(h, a.position, starts[CsDiv(i, gs)]);
    forall g': Random, i: Int32 | 0 <= i < n
      ensures step(g', i).Ok? && p(i, step(g', i).value.0)
    {
      GroupInRange(w.config.maxAgents, gs, i);
      AgentStartCases(w, h, g', starts, CsDiv(i, gs));
    }
    ChainSucceeds(step, g, n, p);
    PlacedAgentsShape(w, h, starts, g, n);
    var xs := PlaceAgents(w, h, starts, g, n).value.0;
    forall i | 0 <= i < n
      ensures 0 <= xs[i].group < |starts| && AroundStart(h, xs[i].position, starts[xs[i].group])
    {
      assert p(i, xs[i]);
    }
  }

  /** With RandomBorderLocation starts, the groups start on border lines. */
  lemma BorderPopulationStarts(w: Setting, h: Host, g: Random)
    requires w.config.groupSize > 0 && w.config.maxAgents >= 0
    requires w.config.startPosition == LocationRandomBorder
    ensures GroupStarts(w, h, g, GroupCount(w.config.maxAgents, w.config.groupSize)).Ok?
    ensures PopulateResult(w, h, g).Ok? ==>
      forall i :: 0 <= i < |PopulateResult(w, h, g).value.0| ==> OnBorderLine(w, h, PopulateResult(w, h, g).value.0[i])
  {
    GroupCountIsCeiling(w.config.maxAgents, w.config.groupSize);
    GroupDivisionFits(w.config.maxAgents, w.config.groupSize);
    BorderGroupStarts(w, h, g, GroupCount(w.config.maxAgents, w.config.groupSize));
  }

  /**
    A configuration that groups agents, with a positive group size, a
    non-negative agent count and border starts, always populates, and every
    agent stands at an offset from its own group's start.
   */
  lemma GroupedBorderPopulation(w: Setting, h: Host, g: Random)
    requires w.config.startAgentsGrouped && w.config.groupSize > 0 && w.config.maxAgents >= 0
    requires w.config.startPosition == LocationRandomBorder
    ensures PopulateResult(w, h, g).Ok?
    ensures AroundGroupStarts(h, PopulateResult(w, h, g).value.0, PopulateResult(w, h, g).value.1)
  {
    var c := w.config;
    BorderPopulationStarts(w, h, g);
    var (starts, g1) := GroupStarts(w, h, g, GroupCount(c.maxAgents, c.groupSize)).value;
    GroupedPlacementInBounds(w, h, starts, g1, c.maxAgents);
  }
}
