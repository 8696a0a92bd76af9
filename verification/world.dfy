/** The world: its clock, its resource nodes, its agents and corpses, and
    the road-formation graph that agents' footsteps grow. */
module Worlds {
  import opened Common
  import opened Roads
  import Foods
  import Waters
  import Woods
  import Homes
  import Corpses
  import Agents
  import AgentBounds

  const DayLength: real := 120.0
  /** Twelve days. */
  const YearLength: real := 1440.0
  /** Half extents of the world rectangle around the screen centre. */
  const HalfWorldWidth: real := 4000.0
  const HalfWorldHeight: real := 2800.0
  /** Radius within which two agents interact. */
  const InteractionRadius: real := 50.0

  // -----------------------------------------------------------------
  // Time of day

  /** Fraction of the current day elapsed at time t (0 is midnight, 0.5
      noon), with the remainder of a float modulo: the sign of t. */
  function DayFraction(t: real): (f: real)
    ensures t >= 0.0 ==> 0.0 <= f < 1.0
  {
    (t - DayLength * Trunc(t / DayLength) as real) / DayLength
  }

  /** Night runs from 0.833 of the day to 0.25 of the next. */
  predicate IsNightAt(t: real)
  {
    DayFraction(t) < 0.25 || DayFraction(t) > 0.833
  }

  /** On every day, night holds exactly in the first 30 s and after
      0.833 of the day. */
  lemma {:induction false} NightHours(d: nat, r: real)
    requires 0.0 <= r < DayLength
    ensures IsNightAt(d as real * DayLength + r) <==> r < 30.0 || r > 0.833 * DayLength
  {
    assert (d as real * DayLength + r) / DayLength == d as real + r / DayLength;
    assert Trunc(d as real + r / DayLength) == d;
  }

  /** The day fraction repeats every day. */
  lemma {:induction false} DayFractionPeriodic(t: real)
    requires t >= 0.0
    ensures DayFraction(t + DayLength) == DayFraction(t)
  {
    var n := Trunc(t / DayLength);
    var m := Trunc((t + DayLength) / DayLength);
    assert (t + DayLength) / DayLength == t / DayLength + 1.0;
    assert m == n + 1;
  }

  /** Midnight of every day is night and noon is day. */
  lemma {:induction false} MidnightAndNoon(d: nat)
    ensures IsNightAt(d as real * DayLength)
    ensures !IsNightAt(d as real * DayLength + DayLength / 2.0)
  {
    assert Trunc(d as real * DayLength / DayLength) == d;
    assert (d as real * DayLength + DayLength / 2.0) / DayLength == d as real + 0.5;
    assert Trunc(d as real + 0.5) == d;
  }

  /** The year counter is the day counter in groups of twelve. */
  lemma {:induction false} YearOfDay(t: real)
    requires t >= 0.0
    ensures Trunc(t / YearLength) == Trunc(t / DayLength) / 12
  {
    var n := Trunc(t / DayLength);
    var q := n / 12;
    assert n == 12 * q + n % 12;
    assert YearLength * q as real <= t < YearLength * (q + 1) as real;
  }

  // -----------------------------------------------------------------
  // Reaping

  /** The agents of s that are alive, in order. */
  function Survivors(s: seq<Agents.Agent>): (r: seq<Agents.Agent>)
    reads s
    ensures |r| <= |s|
    ensures forall i :: 0 <= i < |r| ==> !r[i].isDead
  {
    if s == [] then []
    else (if s[0].isDead then [] else [s[0]]) + Survivors(s[1..])
  }

  /** The agents of s that are dead, in order; none exactly when every
      agent of s is alive. */
  function DeadOf(s: seq<Agents.Agent>): (r: seq<Agents.Agent>)
    reads s
    ensures |r| + |Survivors(s)| == |s|
    ensures forall i :: 0 <= i < |r| ==> r[i].isDead
    ensures r == [] <==> forall i :: 0 <= i < |s| ==> !s[i].isDead
  {
    if s == [] then []
    else
      var rest := DeadOf(s[1..]);
      assert rest == [] <==> forall i :: 1 <= i < |s| ==> !s[i].isDead by {
        if rest == [] {
          forall i | 1 <= i < |s| ensures !s[i].isDead { assert s[i] == s[1..][i - 1]; }
        }
      }
      (if s[0].isDead then [s[0]] else []) + rest
  }

  /** Total mood change at p from the corpses within the mood radius;
      burial plays no part. */
  function CorpsePenaltyAt(cs: seq<Corpses.Corpse>, p: Vec): (t: real)
    reads cs
    ensures -0.3 * |cs| as real <= t <= 0.0
  {
    if cs == [] then 0.0
    else
      var c := cs[|cs| - 1];
      CorpsePenaltyAt(cs[..|cs| - 1], p)
      + (if DistSq(p, c.position) < Corpses.MoodRadius * Corpses.MoodRadius then c.GetMoodPenalty() else 0.0)
  }

  /** A buried, fully rotten corpse next to p still costs the full
      penalty, although it does not affect mood by its own account. The
      running program never buries a corpse (Bury has no caller), so this
      is an inconsistency between the two queries that a tick cannot
      reach. */
  lemma {:induction false} BuriedCorpseStillCounts(c: Corpses.Corpse, p: Vec)
    requires c.isBuried && c.rottenTime >= Corpses.TimeToRot
    requires DistSq(p, c.position) < Corpses.MoodRadius * Corpses.MoodRadius
    ensures CorpsePenaltyAt([c], p) == -0.3
    ensures !c.AffectsMood(p)
  {
    assert [c][..0] == [];
    DistSqSymmetric(p, c.position);
  }

  /** Every corpse of cs keeps its invariant. */
  ghost predicate CorpsesValid(cs: seq<Corpses.Corpse>)
    reads cs
  {
    forall c :: c in cs ==> c.Valid()
  }

  /** Every bush of fs keeps its invariant. */
  ghost predicate FoodsValid(fs: seq<Foods.Food>)
    reads fs
  {
    forall f :: f in fs ==> f.Valid()
  }

  /** Every drinking spot of ws keeps its invariant. */
  ghost predicate WatersValid(ws: seq<Waters.Water>)
    reads ws
  {
    forall w :: w in ws ==> w.Valid()
  }

  /** Every home of hs keeps its invariant. */
  ghost predicate HomesValid(hs: seq<Homes.Home>)
    reads hs
  {
    forall h :: h in hs ==> h.Valid()
  }

  /** Every tree of wds keeps its invariant. */
  ghost predicate WoodsValid(wds: seq<Woods.Wood>)
    reads wds
  {
    forall w :: w in wds ==> w.Valid()
  }

  /** Every resource node and home keeps its invariant. */
  ghost predicate NodesValid(fs: seq<Foods.Food>, ws: seq<Waters.Water>, hs: seq<Homes.Home>, wds: seq<Woods.Wood>)
    reads fs, ws, hs, wds
  {
    FoodsValid(fs) && WatersValid(ws) && HomesValid(hs) && WoodsValid(wds)
  }

  class World {
    var width: int
    var height: int

    var agents: seq<Agents.Agent>
    var foodSources: seq<Foods.Food>
    var waterSources: seq<Waters.Water>
    var homes: seq<Homes.Home>
    var corpses: seq<Corpses.Corpse>
    var woodSources: seq<Woods.Wood>

    var worldTime: real
    var currentDay: int
    var currentYear: int

    /** Transient footpath intensity per tile. */
    var pathIntensity: map<Tile, real>
    /** Tiles visited by 2 or more agents within the visit window. */
    var potentialRoads: set<Tile>
    /** Potential tiles with at least 2 road neighbours. */
    var permanentRoads: set<Tile>
    /** Per tile, each recent visitor's timestamp. */
    var tileVisitors: map<Tile, map<int, real>>

    /** The invariant of the road graph. */
    ghost predicate RoadsValid()
      reads this
    {
      && potentialRoads !! permanentRoads
      && (forall k :: k in pathIntensity ==> MinIntensity <= pathIntensity[k] <= 1.0)
    }

    /** The clock counters agree with the world time. */
    ghost predicate ClockValid()
      reads this
    {
      && worldTime >= 0.0
      && currentDay == Trunc(worldTime / DayLength) + 1
      && currentYear == Trunc(worldTime / YearLength) + 1
    }

    /** A world with the given screen size and the given spawned agents and
        resource nodes; the clock starts on day 1 of year 1. */
    constructor (width: int, height: int, agents: seq<Agents.Agent>, food: seq<Foods.Food>,
                 water: seq<Waters.Water>, wood: seq<Woods.Wood>)
      ensures RoadsValid() && ClockValid() && CorpsesValid(corpses)
      ensures this.width == width && this.height == height
      ensures this.agents == agents && foodSources == food && waterSources == water && woodSources == wood
      ensures homes == [] && corpses == []
      ensures currentDay == 1 && currentYear == 1
      ensures pathIntensity == map[] && potentialRoads == {} && permanentRoads == {} && tileVisitors == map[]
    {
      this.width := width;
      this.height := height;
      this.agents := agents;
      foodSources := food;
      waterSources := water;
      homes := [];
      corpses := [];
      woodSources := wood;
      worldTime := 0.0;
      currentDay := 1;
      currentYear := 1;
      pathIntensity := map[];
      potentialRoads := {};
      permanentRoads := {};
      tileVisitors := map[];
    }

    // ---------------------------------------------------------------
    // Clock

    function GetTimeOfDay(): (f: real)
      reads this
      ensures worldTime >= 0.0 ==> 0.0 <= f < 1.0
    {
      DayFraction(worldTime)
    }

    /** Night by the world clock: within each 120 s day, the first 30 s and
        everything after 0.833 of the day. */
    predicate IsNightTime(): (night: bool)
      reads this
      ensures worldTime >= 0.0 ==>
        var r := worldTime - DayLength * Trunc(worldTime / DayLength) as real;
        && 0.0 <= r < DayLength
        && (night <==> r < 30.0 || r > 0.833 * DayLength)
    {
      IsNightAt(worldTime)
    }

    /** Advances world time and recomputes the day and year counters. */
    method AdvanceClock(dt: real)
      requires ClockValid() && dt >= 0.0
      modifies this`worldTime, this`currentDay, this`currentYear
      ensures ClockValid()
      ensures worldTime == old(worldTime) + dt
      ensures old(currentDay) <= currentDay && old(currentYear) <= currentYear
      ensures currentYear == (currentDay - 1) / 12 + 1
    {
      worldTime := worldTime + dt;
      currentDay := Trunc(worldTime / DayLength) + 1;
      currentYear := Trunc(worldTime / YearLength) + 1;
      YearOfDay(worldTime);
      TruncMonotone(old(worldTime) / DayLength, worldTime / DayLength);
      TruncMonotone(old(worldTime) / YearLength, worldTime / YearLength);
    }

    // ---------------------------------------------------------------
    // Queries

    /** The world rectangle, centred on the screen centre. */
    function WorldRect(): (r: Rect)
      reads this
      ensures r.WellFormed()
      ensures r.right - r.left == 2.0 * HalfWorldWidth && r.bottom - r.top == 2.0 * HalfWorldHeight
      // centred on the screen centre
      ensures r.left + r.right == width as real && r.top + r.bottom == height as real
    {
      var centerX := width as real / 2.0;
      var centerY := height as real / 2.0;
      Rect(centerX - HalfWorldWidth, centerX + HalfWorldWidth, centerY - HalfWorldHeight, centerY + HalfWorldHeight)
    }

    /** Clamps a position into the world rectangle; changed tells whether
        any coordinate moved. */
    method CheckWorldBoundary(position: Vec) returns (changed: bool, clamped: Vec)
      ensures clamped == ClampToRect(position, WorldRect())
      ensures WorldRect().Contains(clamped)
      ensures changed <==> clamped != position
      ensures changed <==> !WorldRect().Contains(position)
    {
      var r := WorldRect();
      clamped := position;
      changed := false;
      if clamped.x < r.left {
        clamped := clamped.(x := r.left);
        changed := true;
      } else if clamped.x > r.right {
        clamped := clamped.(x := r.right);
        changed := true;
      }
      if clamped.y < r.top {
        clamped := clamped.(y := r.top);
        changed := true;
      } else if clamped.y > r.bottom {
        clamped := clamped.(y := r.bottom);
        changed := true;
      }
    }

    /** Index of the nearest available bush: the first one at minimal
        distance in list order; None when every bush is consumed. */
    method FindNearestFood(position: Vec) returns (nearest: Option<nat>)
      ensures nearest.None? <==> forall i :: 0 <= i < |foodSources| ==> foodSources[i].consumed
      ensures nearest.Some? ==>
        && nearest.value < |foodSources| && !foodSources[nearest.value].consumed
        && (forall i :: 0 <= i < |foodSources| && !foodSources[i].consumed ==>
              DistSq(position, foodSources[nearest.value].position) <= DistSq(position, foodSources[i].position))
        && (forall i :: 0 <= i < nearest.value && !foodSources[i].consumed ==>
              DistSq(position, foodSources[nearest.value].position) < DistSq(position, foodSources[i].position))
    {
      nearest := None;
      var nearestDist := 0.0;
      for i := 0 to |foodSources|
        invariant nearest.None? <==> forall j :: 0 <= j < i ==> foodSources[j].consumed
        invariant nearest.Some? ==>
          && nearest.value < i && !foodSources[nearest.value].consumed
          && nearestDist == DistSq(position, foodSources[nearest.value].position)
          && (forall j :: 0 <= j < i && !foodSources[j].consumed ==> nearestDist <= DistSq(position, foodSources[j].position))
          && (forall j :: 0 <= j < nearest.value && !foodSources[j].consumed ==> nearestDist < DistSq(position, foodSources[j].position))
      {
        var food := foodSources[i];
        if !food.consumed {
          var dist := DistSq(position, food.position);
          if nearest.None? || dist < nearestDist {
            nearestDist := dist;
            nearest := Some(i);
          }
        }
      }
    }

    /** Index of the nearest available drinking spot, as for food. */
    method FindNearestWater(position: Vec) returns (nearest: Option<nat>)
      ensures nearest.None? <==> forall i :: 0 <= i < |waterSources| ==> waterSources[i].consumed
      ensures nearest.Some? ==>
        && nearest.value < |waterSources| && !waterSources[nearest.value].consumed
        && (forall i :: 0 <= i < |waterSources| && !waterSources[i].consumed ==>
              DistSq(position, waterSources[nearest.value].position) <= DistSq(position, waterSources[i].position))
        && (forall i :: 0 <= i < nearest.value && !waterSources[i].consumed ==>
              DistSq(position, waterSources[nearest.value].position) < DistSq(position, waterSources[i].position))
    {
      nearest := None;
      var nearestDist := 0.0;
      for i := 0 to |waterSources|
        invariant nearest.None? <==> forall j :: 0 <= j < i ==> waterSources[j].consumed
        invariant nearest.Some? ==>
          && nearest.value < i && !waterSources[nearest.value].consumed
          && nearestDist == DistSq(position, waterSources[nearest.value].position)
          && (forall j :: 0 <= j < i && !waterSources[j].consumed ==> nearestDist <= DistSq(position, waterSources[j].position))
          && (forall j :: 0 <= j < nearest.value && !waterSources[j].consumed ==> nearestDist < DistSq(position, waterSources[j].position))
      {
        var water := waterSources[i];
        if !water.consumed {
          var dist := DistSq(position, water.position);
          if nearest.None? || dist < nearestDist {
            nearestDist := dist;
            nearest := Some(i);
          }
        }
      }
    }

    /** Sum of the mood penalties of the corpses within the mood radius of
        position, buried or not. */
    method GetCorpseMoodPenalty(position: Vec) returns (totalPenalty: real)
      ensures totalPenalty == CorpsePenaltyAt(corpses, position)
      ensures -0.3 * |corpses| as real <= totalPenalty <= 0.0
    {
      totalPenalty := 0.0;
      for i := 0 to |corpses|
        invariant totalPenalty == CorpsePenaltyAt(corpses[..i], position)
      {
        var corpse := corpses[i];
        if DistSq(position, corpse.position) < Corpses.MoodRadius * Corpses.MoodRadius {
          totalPenalty := totalPenalty + corpse.GetMoodPenalty();
        }
        assert corpses[..i + 1][..i] == corpses[..i];
      }
      assert corpses[..|corpses|] == corpses;
    }

    /** The speed multiplier at a position, from the state of its tile. */
    function GetPathSpeedBoost(position: Vec): (boost: real)
      reads this
      ensures RoadsValid() ==> 1.0 <= boost <= 1.5
      ensures TileOf(position) in permanentRoads ==> boost == 1.5
      ensures TileOf(position) !in permanentRoads && TileOf(position) in pathIntensity
              && pathIntensity[TileOf(position)] > 0.5 ==>
        boost == 1.0 + pathIntensity[TileOf(position)] * 0.5
      ensures TileOf(position) !in permanentRoads && TileOf(position) !in pathIntensity ==> boost == 1.0
    {
      SpeedBoost(TileOf(position), permanentRoads, pathIntensity)
    }

    // ---------------------------------------------------------------
    // Road formation

    /** A footstep of agentId on the tile under position at currentTime
        (the agent's own clock). */
    method RecordFootstep(position: Vec, agentId: int, currentTime: real) returns (ghost promoted: seq<Tile>)
      requires RoadsValid()
      modifies this`tileVisitors, this`pathIntensity, this`potentialRoads, this`permanentRoads
      ensures RoadsValid()
      ensures old(permanentRoads) <= permanentRoads
      // a permanent road is absorbing: its footsteps change nothing
      ensures TileOf(position) in old(permanentRoads) ==>
        && tileVisitors == old(tileVisitors) && pathIntensity == old(pathIntensity)
        && potentialRoads == old(potentialRoads) && permanentRoads == old(permanentRoads) && promoted == []
      // the second recent visitor makes the tile a road
      ensures var key := TileOf(position);
        var visitors := Visited(VisitorsAt(old(tileVisitors), key), agentId, currentTime);
        var roads := old(potentialRoads) + old(permanentRoads) + {key};
        key !in old(permanentRoads) && |visitors| >= 2 ==>
          && tileVisitors == old(tileVisitors) - {key}
          && pathIntensity == old(pathIntensity) - {key}
          && potentialRoads + permanentRoads == roads
          && (key in permanentRoads <==> Promotable(key, roads))
          && (forall t :: t in permanentRoads && t !in old(permanentRoads) ==>
                Promotable(t, roads) && SettledAround(t, potentialRoads, roads))
          // promotions start at the tile and spread only through promoted neighbours
          && (forall t :: t in promoted <==> t in permanentRoads && t !in old(permanentRoads))
          && ReachedFrom(key, promoted)
      // otherwise the visit is recorded and the footpath deepens
      ensures var key := TileOf(position);
        var visitors := Visited(VisitorsAt(old(tileVisitors), key), agentId, currentTime);
        key !in old(permanentRoads) && |visitors| < 2 ==>
          && tileVisitors == old(tileVisitors)[key := visitors]
          && pathIntensity == old(pathIntensity)[key := Bumped(IntensityAt(old(pathIntensity), key))]
          && potentialRoads == old(potentialRoads) && permanentRoads == old(permanentRoads)
          && promoted == []
    {
      promoted := [];
      var key := TileOf(position);
      if key in permanentRoads {
        return;
      }
      var visitors := VisitorsAt(tileVisitors, key);
      tileVisitors := tileVisitors[key := Visited(visitors, agentId, currentTime)];
      if |tileVisitors[key]| >= 2 {
        promoted := MakePotentialRoad(key);
      } else {
        pathIntensity := pathIntensity[key := Bumped(IntensityAt(pathIntensity, key))];
      }
    }

    /** A tile with two recent visitors becomes a potential road: its
        visitors and footpath are dropped and percolation starts from it. */
    method MakePotentialRoad(key: Tile) returns (ghost promoted: seq<Tile>)
      requires RoadsValid() && key !in permanentRoads
      modifies this`tileVisitors, this`pathIntensity, this`potentialRoads, this`permanentRoads
      ensures RoadsValid()
      ensures old(permanentRoads) <= permanentRoads
      ensures var roads := old(potentialRoads) + old(permanentRoads) + {key};
        && tileVisitors == old(tileVisitors) - {key}
        && pathIntensity == old(pathIntensity) - {key}
        && potentialRoads + permanentRoads == roads
        && (key in permanentRoads <==> Promotable(key, roads))
        && (forall t :: t in permanentRoads && t !in old(permanentRoads) ==>
              Promotable(t, roads) && SettledAround(t, potentialRoads, roads))
        && (forall t :: t in promoted <==> t in permanentRoads && t !in old(permanentRoads))
        && ReachedFrom(key, promoted)
    {
      potentialRoads := potentialRoads + {key};
      tileVisitors := tileVisitors - {key};
      pathIntensity := pathIntensity - {key};
      promoted := CheckAndPromoteToPermanentRoad(key);
    }

    /** Percolation: a potential tile with at least 2 road neighbours
        becomes permanent, and each of its potential neighbours is then
        checked in turn. The union of the two sets never changes, so the
        connection counts are those of the roads at the first call. */
    method CheckAndPromoteToPermanentRoad(tile: Tile) returns (ghost promoted: seq<Tile>)
      requires tile in potentialRoads && potentialRoads !! permanentRoads
      modifies this`potentialRoads, this`permanentRoads
      decreases |potentialRoads|, 1
      ensures potentialRoads !! permanentRoads
      ensures potentialRoads + permanentRoads == old(potentialRoads + permanentRoads)
      ensures potentialRoads <= old(potentialRoads) && old(permanentRoads) <= permanentRoads
      ensures tile in permanentRoads <==> Promotable(tile, old(potentialRoads + permanentRoads))
      ensures !Promotable(tile, old(potentialRoads + permanentRoads)) ==>
        potentialRoads == old(potentialRoads) && permanentRoads == old(permanentRoads)
      // promoted tiles obey the rule, and around each of them percolation is complete
      ensures forall t :: t in permanentRoads && t !in old(permanentRoads) ==>
        && Promotable(t, old(potentialRoads + permanentRoads))
        && SettledAround(t, potentialRoads, old(potentialRoads + permanentRoads))
      // the promotions, in order: tile first, each later one next to an earlier one
      ensures forall t :: t in promoted <==> t in permanentRoads && t !in old(permanentRoads)
      ensures ReachedFrom(tile, promoted)
    {
      promoted := [];
      var connectedNeighbours := CountIn(Neighbours(tile), potentialRoads + permanentRoads);
      if connectedNeighbours >= 2 {
        permanentRoads := permanentRoads + {tile};
        potentialRoads := potentialRoads - {tile};
        ghost var rest := PercolateAround(tile);
        promoted := [tile] + rest;
        ReachedFromRoot(tile, rest);
      }
    }

    /** The neighbours of a freshly promoted tile, each checked in turn
        while it is still potential. */
    method PercolateAround(tile: Tile) returns (ghost promoted: seq<Tile>)
      requires tile in permanentRoads && potentialRoads !! permanentRoads
      modifies this`potentialRoads, this`permanentRoads
      decreases |potentialRoads| + 1, 0
      ensures potentialRoads !! permanentRoads
      ensures potentialRoads + permanentRoads == old(potentialRoads + permanentRoads)
      ensures potentialRoads <= old(potentialRoads) && old(permanentRoads) <= permanentRoads
      ensures forall t :: t in permanentRoads && t !in old(permanentRoads) ==>
        && Promotable(t, old(potentialRoads + permanentRoads))
        && SettledAround(t, potentialRoads, old(potentialRoads + permanentRoads))
      ensures SettledAround(tile, potentialRoads, old(potentialRoads + permanentRoads))
      ensures forall t :: t in promoted <==> t in permanentRoads && t !in old(permanentRoads)
      ensures GrownFrom(tile, promoted)
    {
      promoted := [];
      ghost var roads := potentialRoads + permanentRoads;
      var neighbours := Neighbours(tile);
      for i := 0 to |neighbours|
        invariant potentialRoads !! permanentRoads
        invariant potentialRoads + permanentRoads == roads
        invariant potentialRoads <= old(potentialRoads) && old(permanentRoads) <= permanentRoads
        invariant forall t :: t in permanentRoads && t !in old(permanentRoads) ==>
          Promotable(t, roads) && SettledAround(t, potentialRoads, roads)
        invariant forall j :: 0 <= j < i && neighbours[j] in potentialRoads ==> !Promotable(neighbours[j], roads)
        invariant forall t :: t in promoted <==> t in permanentRoads && t !in old(permanentRoads)
        invariant GrownFrom(tile, promoted)
      {
        var neighbour := neighbours[i];
        ghost var potentialBefore, permanentBefore := potentialRoads, permanentRoads;
        if neighbour in potentialRoads {
          SubsetCardinality(potentialRoads, old(potentialRoads));
          ghost var sub := CheckAndPromoteToPermanentRoad(neighbour);
          GrownFromExtend(tile, promoted, neighbour, sub);
          promoted := promoted + sub;
          forall t | t in permanentRoads && t !in old(permanentRoads)
            ensures Promotable(t, roads) && SettledAround(t, potentialRoads, roads)
          {
            if t in permanentBefore {
              SettledAroundShrinks(t, potentialBefore, potentialRoads, roads);
            }
          }
        }
        forall j | 0 <= j < i + 1 && neighbours[j] in potentialRoads
          ensures !Promotable(neighbours[j], roads)
        {
          if j < i {
            assert neighbours[j] in potentialBefore;
          }
        }
      }
    }

    /** One tick of footpath decay: every intensity is multiplied by 0.999
        and the ones that fall below 0.01 are dropped. */
    method DecayPaths()
      requires RoadsValid()
      modifies this`pathIntensity
      ensures RoadsValid()
      ensures pathIntensity == DecayedPaths(old(pathIntensity))
    {
      var keysToUpdate := pathIntensity.Keys;
      while keysToUpdate != {}
        invariant keysToUpdate <= old(pathIntensity).Keys
        invariant pathIntensity.Keys <= old(pathIntensity).Keys
        invariant forall k :: k in keysToUpdate ==> k in pathIntensity && pathIntensity[k] == old(pathIntensity)[k]
        invariant forall k :: k in old(pathIntensity) && k !in keysToUpdate ==>
          && (k in pathIntensity <==> old(pathIntensity)[k] * DecayFactor >= MinIntensity)
          && (k in pathIntensity ==> pathIntensity[k] == old(pathIntensity)[k] * DecayFactor)
        decreases |keysToUpdate|
      {
        var key :| key in keysToUpdate;
        pathIntensity := pathIntensity[key := pathIntensity[key] * DecayFactor];
        if pathIntensity[key] < MinIntensity {
          pathIntensity := pathIntensity - {key};
        }
        keysToUpdate := keysToUpdate - {key};
      }
      assert pathIntensity.Keys == DecayedPaths(old(pathIntensity)).Keys;
    }

    // ---------------------------------------------------------------
    // Death handling

    /** Start-of-tick reaping: a corpse for every dead agent, at its
        position and with its cause of death, then the dead are removed. */
    method ReapDead() returns (dead: seq<Agents.Agent>)
      requires CorpsesValid(corpses)
      modifies this`corpses, this`agents
      ensures dead == old(DeadOf(agents))
      ensures agents == old(Survivors(agents)) && DeadOf(agents) == []
      ensures CorpsesValid(corpses)
      ensures |corpses| == |old(corpses)| + |dead|
      ensures corpses[..|old(corpses)|] == old(corpses)
      ensures forall c :: c in corpses ==> c in old(corpses) || fresh(c)
      ensures forall j :: 0 <= j < |dead| ==>
        var c := corpses[|old(corpses)| + j];
        && fresh(c) && c.position == dead[j].position && c.causeDeath == dead[j].deathCause
        && c.rottenTime == 0.0 && !c.isBuried
    {
      dead := DeadOf(agents);
      var survivors := Survivors(agents);
      assert DeadOf(survivors) == [];
      SpawnCorpses(dead);
      agents := survivors;
    }

    /** Appends one fresh corpse per agent of dead, in order. */
    method SpawnCorpses(dead: seq<Agents.Agent>)
      requires CorpsesValid(corpses)
      modifies this`corpses
      ensures CorpsesValid(corpses)
      ensures |corpses| == |old(corpses)| + |dead|
      ensures corpses[..|old(corpses)|] == old(corpses)
      ensures forall c :: c in corpses ==> c in old(corpses) || fresh(c)
      ensures forall j :: 0 <= j < |dead| ==>
        var c := corpses[|old(corpses)| + j];
        && fresh(c) && c.position == dead[j].position && c.causeDeath == dead[j].deathCause
        && c.rottenTime == 0.0 && !c.isBuried
    {
      ghost var born: seq<Corpses.Corpse> := [];
      for i := 0 to |dead|
        invariant corpses == old(corpses) + born && |born| == i
        invariant CorpsesValid(corpses)
        invariant forall j :: 0 <= j < i ==>
          && fresh(born[j]) && born[j].position == dead[j].position && born[j].causeDeath == dead[j].deathCause
          && born[j].rottenTime == 0.0 && !born[j].isBuried
      {
        var corpse := new Corpses.Corpse(dead[i].position, dead[i].deathCause);
        corpses := corpses + [corpse];
        born := born + [corpse];
      }
    }

    /** End-of-agent-phase removal as written: agents that died during the
        phase are dropped without corpses, so the next tick's reaping finds
        no dead agent to turn into one. */
    method RemoveDead()
      modifies this`agents
      ensures agents == Survivors(old(agents))
      ensures |old(agents)| - |agents| == |DeadOf(old(agents))|
      ensures DeadOf(agents) == []
    {
      agents := Survivors(agents);
    }

    // ---------------------------------------------------------------
    // Social interaction

    /** The first other agent within the interaction radius of agents[i],
        in list order. */
    method FindPartner(i: nat) returns (partner: Option<nat>)
      requires i < |agents|
      ensures partner.None? ==>
        forall j :: 0 <= j < |agents| && agents[j] != agents[i] ==>
          DistSq(agents[i].position, agents[j].position) >= InteractionRadius * InteractionRadius
      ensures partner.Some? ==>
        && partner.value < |agents| && agents[partner.value] != agents[i]
        && DistSq(agents[i].position, agents[partner.value].position) < InteractionRadius * InteractionRadius
        && forall j :: 0 <= j < partner.value && agents[j] != agents[i] ==>
             DistSq(agents[i].position, agents[j].position) >= InteractionRadius * InteractionRadius
    {
      var agent := agents[i];
      for j := 0 to |agents|
        invariant forall k :: 0 <= k < j && agents[k] != agent ==>
          DistSq(agent.position, agents[k].position) >= InteractionRadius * InteractionRadius
      {
        var other := agents[j];
        if other != agent {
          if DistSq(agent.position, other.position) < InteractionRadius * InteractionRadius {
            return Some(j);
          }
        }
      }
      return None;
    }

    /** The interaction of agent with the partner it found: a trade when it
        has stock to trade and is willing, then an energy gift of 15 when it
        is above 60 energy, the partner below 40, and it is willing again.
        helpDraw1 and helpDraw2 are the two willingness draws. */
    method Interact(agent: Agents.Agent, other: Agents.Agent, helpDraw1: real, helpDraw2: real)
      requires agent != other && agent.Valid() && other.Valid()
      modifies agent, other
      ensures agent.Valid() && other.Valid()
      ensures agent.relationships.Keys <= old(agent.relationships).Keys + {other}
      ensures other.relationships.Keys <= old(other.relationships).Keys + {agent}
      ensures !old(agent.CanTrade()) && !(old(agent.energy) > 60.0 && old(other.energy) < 40.0) ==>
        agent.relationships == old(agent.relationships) && other.energy == old(other.energy)
    {
      if agent.CanTrade() {
        var willing := agent.WillHelp(other, helpDraw1);
        if willing {
          agent.Trade(other);
        }
      }
      if agent.energy > AgentBounds.MaxEnergy * 0.6 && other.energy < AgentBounds.MaxEnergy * 0.4 {
        var willing := agent.WillHelp(other, helpDraw2);
        if willing {
          agent.ShareEnergyWith(other, 15.0);
        }
      }
    }

    // ---------------------------------------------------------------
    // The tick around the agent phase

    /** The start of a tick: the clock advances and the agents that died
        in the previous tick become corpses. The two touch disjoint state,
        so the reaping is done first. */
    method BeginTick(dt: real) returns (dead: seq<Agents.Agent>)
      requires ClockValid() && CorpsesValid(corpses) && dt >= 0.0
      modifies this`worldTime, this`currentDay, this`currentYear, this`corpses, this`agents
      ensures ClockValid() && CorpsesValid(corpses)
      ensures worldTime == old(worldTime) + dt
      ensures dead == old(DeadOf(agents))
      ensures agents == old(Survivors(agents)) && DeadOf(agents) == []
      ensures |corpses| == |old(corpses)| + |dead|
      ensures corpses[..|old(corpses)|] == old(corpses)
      ensures forall j :: 0 <= j < |dead| ==>
        var c := corpses[|old(corpses)| + j];
        && fresh(c) && c.position == dead[j].position && c.causeDeath == dead[j].deathCause
        && c.rottenTime == 0.0 && !c.isBuried
    {
      dead := ReapDead();
      AdvanceClock(dt);
    }

    /** The end of a tick as written, after every agent has taken its step:
        the agents that died during it are dropped without corpses
        (RemoveDead), then every resource node, home and corpse advances
        and the footpaths decay. owners holds, per home, its owner's
        current specialization. */
    method FinishTick(dt: real, owners: seq<Option<Specialization>>)
      requires RoadsValid() && CorpsesValid(corpses) && NodesValid(foodSources, waterSources, homes, woodSources) && dt >= 0.0
      requires |owners| == |homes|
      modifies this`agents, this`pathIntensity
      modifies foodSources, waterSources, homes, woodSources
      modifies set c | c in corpses
      ensures RoadsValid() && CorpsesValid(corpses) && NodesValid(foodSources, waterSources, homes, woodSources)
      ensures agents == old(Survivors(agents))
      ensures corpses == old(corpses)
      ensures pathIntensity == DecayedPaths(old(pathIntensity))
    {
      RemoveDead();
      AdvanceNodes(dt, owners);
    }

    /** The end of a tick with the dead reaped instead of dropped: the
        agents that died during the agent phase become corpses, then the
        node phase runs as in FinishTick. */
    method FinishTickReaping(dt: real, owners: seq<Option<Specialization>>)
      requires RoadsValid() && CorpsesValid(corpses) && NodesValid(foodSources, waterSources, homes, woodSources) && dt >= 0.0
      requires |owners| == |homes|
      modifies this`corpses, this`agents, this`pathIntensity
      modifies foodSources, waterSources, homes, woodSources
      modifies set c | c in corpses
      ensures RoadsValid() && CorpsesValid(corpses) && NodesValid(foodSources, waterSources, homes, woodSources)
      ensures agents == old(Survivors(agents))
      ensures |corpses| == |old(corpses)| + |old(DeadOf(agents))|
      ensures corpses[..|old(corpses)|] == old(corpses)
      ensures forall j :: 0 <= j < |old(DeadOf(agents))| ==>
        var c := corpses[|old(corpses)| + j];
        && fresh(c) && c.position == old(DeadOf(agents))[j].position
        && c.causeDeath == old(DeadOf(agents))[j].deathCause
      ensures pathIntensity == DecayedPaths(old(pathIntensity))
    {
      var _ := ReapDead();
      AdvanceNodes(dt, owners);
    }

    /** The node phase of FinishTick: every node ticks, then the footpaths
        decay. */
    method AdvanceNodes(dt: real, owners: seq<Option<Specialization>>)
      requires RoadsValid() && CorpsesValid(corpses) && NodesValid(foodSources, waterSources, homes, woodSources) && dt >= 0.0
      requires |owners| == |homes|
      modifies this`pathIntensity, foodSources, waterSources, homes, corpses, woodSources
      ensures RoadsValid() && CorpsesValid(corpses) && NodesValid(foodSources, waterSources, homes, woodSources)
      ensures pathIntensity == DecayedPaths(old(pathIntensity))
    {
      TickNodes(dt, owners);
      DecayPaths();
    }

    /** Every food, water, home, corpse and wood node advances by dt, in
        that order. */
    method TickNodes(dt: real, owners: seq<Option<Specialization>>)
      requires CorpsesValid(corpses) && NodesValid(foodSources, waterSources, homes, woodSources) && dt >= 0.0
      requires |owners| == |homes|
      modifies foodSources, waterSources, homes, corpses, woodSources
      ensures CorpsesValid(corpses) && NodesValid(foodSources, waterSources, homes, woodSources)
    {
      TickFoods(dt);
      TickWaters(dt);
      TickHomes(dt, owners);
      TickCorpses(dt);
      TickWoods(dt);
    }

    method TickFoods(dt: real)
      requires FoodsValid(foodSources) && dt >= 0.0
      modifies foodSources
      ensures FoodsValid(foodSources)
    {
      for i := 0 to |foodSources|
        invariant FoodsValid(foodSources)
      {
        foodSources[i].Update(dt);
      }
    }

    method TickWaters(dt: real)
      requires WatersValid(waterSources) && dt >= 0.0
      modifies waterSources
      ensures WatersValid(waterSources)
    {
      for i := 0 to |waterSources|
        invariant WatersValid(waterSources)
      {
        waterSources[i].Update(dt);
      }
    }

    method TickHomes(dt: real, owners: seq<Option<Specialization>>)
      requires HomesValid(homes) && dt >= 0.0 && |owners| == |homes|
      modifies homes
      ensures HomesValid(homes)
    {
      for i := 0 to |homes|
        invariant HomesValid(homes)
      {
        homes[i].Update(dt, owners[i]);
      }
    }

    method TickCorpses(dt: real)
      requires CorpsesValid(corpses) && dt >= 0.0
      modifies corpses
      ensures CorpsesValid(corpses)
    {
      for i := 0 to |corpses|
        invariant CorpsesValid(corpses)
      {
        corpses[i].Update(dt);
      }
    }

    method TickWoods(dt: real)
      requires WoodsValid(woodSources) && dt >= 0.0
      modifies woodSources
      ensures WoodsValid(woodSources)
    {
      for i := 0 to |woodSources|
        invariant WoodsValid(woodSources)
      {
        woodSources[i].Update(dt);
      }
    }
  }

  /** The visitor map of a tile, empty when the tile has none. */
  function VisitorsAt(tileVisitors: map<Tile, map<int, real>>, key: Tile): map<int, real>
  {
    if key in tileVisitors then tileVisitors[key] else map[]
  }

  /** The footpath intensity of a tile, 0 when it has none. */
  function IntensityAt(pathIntensity: map<Tile, real>, key: Tile): real
  {
    if key in pathIntensity then pathIntensity[key] else 0.0
  }

  /** Removing the dead twice is removing them once. */
  lemma {:induction false} SurvivorsIdempotent(s: seq<Agents.Agent>)
    ensures Survivors(Survivors(s)) == Survivors(s)
  {
    if s != [] {
      SurvivorsIdempotent(s[1..]);
      var rest := Survivors(s[1..]);
      if !s[0].isDead {
        var t := [s[0]] + rest;
        assert Survivors(s) == t;
        assert t[1..] == rest;
        assert Survivors(t) == [s[0]] + Survivors(rest);
      } else {
        assert Survivors(s) == rest;
      }
    }
  }

  /** Survivors keeps exactly the living agents of s. */
  lemma {:induction false} SurvivorsAreTheLiving(s: seq<Agents.Agent>)
    ensures forall a :: a in Survivors(s) <==> a in s && !a.isDead
  {
    if s != [] {
      SurvivorsAreTheLiving(s[1..]);
      assert s == [s[0]] + s[1..];
    }
  }

  /** DeadOf keeps exactly the dead agents of s. */
  lemma {:induction false} DeadOfAreTheDead(s: seq<Agents.Agent>)
    ensures forall a :: a in DeadOf(s) <==> a in s && a.isDead
  {
    if s != [] {
      DeadOfAreTheDead(s[1..]);
      assert s == [s[0]] + s[1..];
    }
  }

  /** Removing the dead before reaping loses corpses: with any dead agent
      in s, reaping the survivors of s finds nobody, although s had a dead
      agent to turn into a corpse. */
  lemma {:induction false} RemovalLosesCorpses(s: seq<Agents.Agent>, i: nat)
    requires i < |s| && s[i].isDead
    ensures DeadOf(Survivors(s)) == []
    ensures |DeadOf(s)| > 0
  {
    DeadOfAreTheDead(s);
    assert s[i] in s;
  }

  /** Truncation of non-negative values is monotone. */
  lemma {:induction false} TruncMonotone(a: real, b: real)
    requires 0.0 <= a <= b
    ensures Trunc(a) <= Trunc(b)
  {
  }
}
