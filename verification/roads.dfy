/** The value side of the road-formation graph: tile keys, the 8-tile
    neighbourhood, the connection count that decides promotion, visitor
    pruning and footpath intensity. The world's road state itself lives in
    the World class. */
module Roads {
  import opened Common

  /** A 32-unit grid cell, as the pair of its column and row. */
  type Tile = (int, int)

  const TileSize: real := 32.0
  /** Seconds a visit keeps counting toward promotion. */
  const VisitWindow: real := 10.0
  /** Intensity added by one footstep. */
  const IntensityStep: real := 0.05
  /** Factor applied to every intensity once per tick. */
  const DecayFactor: real := 0.999
  /** Intensities below this are dropped. */
  const MinIntensity: real := 0.01

  /** The tile of a position: each coordinate divided by the tile size and
      truncated toward zero, as the float-to-int cast does. */
  function TileOf(p: Vec): (t: Tile)
    ensures p.x >= 0.0 ==> t.0 as real * TileSize <= p.x < (t.0 + 1) as real * TileSize
    ensures p.y >= 0.0 ==> t.1 as real * TileSize <= p.y < (t.1 + 1) as real * TileSize
    ensures p.x < 0.0 ==> (t.0 - 1) as real * TileSize < p.x <= t.0 as real * TileSize
    ensures p.y < 0.0 ==> (t.1 - 1) as real * TileSize < p.y <= t.1 as real * TileSize
  {
    (Trunc(p.x / TileSize), Trunc(p.y / TileSize))
  }

  /** Truncation makes column 0 twice as wide as the others: it holds
      exactly the positions strictly within one tile size of the origin,
      on both sides of it. */
  lemma {:induction false} ColumnZeroIsDoubleWidth(x: real, y: real)
    ensures TileOf(Vec(x, y)).0 == 0 <==> -TileSize < x < TileSize
  {
    var c := TileOf(Vec(x, y)).0;
    if x >= TileSize {
      assert c >= 1;
    } else if x <= -TileSize {
      assert c <= -1;
    }
  }

  /** Whether n is one of the 8 tiles around t. */
  predicate Adjacent(t: Tile, n: Tile)
  {
    n != t && -1 <= n.0 - t.0 <= 1 && -1 <= n.1 - t.1 <= 1
  }

  /** The 8 tiles around t: left, right, up, down, then the diagonals. */
  function Neighbours(t: Tile): (ns: seq<Tile>)
    ensures |ns| == 8
    ensures forall i :: 0 <= i < |ns| ==> Adjacent(t, ns[i])
    ensures forall i, j :: 0 <= i < j < |ns| ==> ns[i] != ns[j]
    ensures forall n :: Adjacent(t, n) ==> n in ns
  {
    var (x, y) := t;
    [(x - 1, y), (x + 1, y), (x, y - 1), (x, y + 1),
     (x - 1, y - 1), (x + 1, y - 1), (x - 1, y + 1), (x + 1, y + 1)]
  }

  /** How many tiles of s lie in roads. */
  function CountIn(s: seq<Tile>, roads: set<Tile>): (c: nat)
    ensures c <= |s|
    ensures c == 0 <==> forall i :: 0 <= i < |s| ==> s[i] !in roads
    ensures c == |s| <==> forall i :: 0 <= i < |s| ==> s[i] in roads
  {
    if s == [] then 0
    else (if s[0] in roads then 1 else 0) + CountIn(s[1..], roads)
  }

  /** More roads never mean fewer connections. */
  lemma {:induction false} CountInMonotone(s: seq<Tile>, a: set<Tile>, b: set<Tile>)
    requires a <= b
    ensures CountIn(s, a) <= CountIn(s, b)
  {
    if s != [] {
      CountInMonotone(s[1..], a, b);
    }
  }

  /** Number of the 8 neighbours of t that are roads (potential or permanent). */
  function ConnectedNeighbours(t: Tile, roads: set<Tile>): (c: nat)
    ensures c <= 8
  {
    CountIn(Neighbours(t), roads)
  }

  /** The percolation rule: a potential tile becomes permanent with at
      least 2 connected neighbours. */
  predicate Promotable(t: Tile, roads: set<Tile>)
  {
    ConnectedNeighbours(t, roads) >= 2
  }

  /** Any two distinct road tiles among its neighbours make a tile promotable. */
  lemma {:induction false} PromotableFromTwo(t: Tile, roads: set<Tile>, a: Tile, b: Tile)
    requires Adjacent(t, a) && Adjacent(t, b) && a != b && a in roads && b in roads
    ensures Promotable(t, roads)
  {
    var ns := Neighbours(t);
    var i :| 0 <= i < 8 && ns[i] == a;
    var j :| 0 <= j < 8 && ns[j] == b;
    TwoMembersCount(ns, roads, i, j);
  }

  lemma {:induction false} TwoMembersCount(s: seq<Tile>, roads: set<Tile>, i: nat, j: nat)
    requires i < |s| && j < |s| && i != j && s[i] in roads && s[j] in roads
    ensures CountIn(s, roads) >= 2
  {
    if i == 0 {
      assert s[1..][j - 1] == s[j];
    } else if j == 0 {
      assert s[1..][i - 1] == s[i];
    } else {
      TwoMembersCount(s[1..], roads, i - 1, j - 1);
    }
  }

  /** Around a permanent tile t the percolation has finished: no
      neighbour still in the potential set is promotable. */
  ghost predicate SettledAround(t: Tile, potential: set<Tile>, roads: set<Tile>)
  {
    forall i :: 0 <= i < 8 ==> Neighbours(t)[i] in potential ==> !Promotable(Neighbours(t)[i], roads)
  }

  /** Settledness survives the potential set shrinking. */
  lemma SettledAroundShrinks(t: Tile, potential: set<Tile>, smaller: set<Tile>, roads: set<Tile>)
    requires smaller <= potential && SettledAround(t, potential, roads)
    ensures SettledAround(t, smaller, roads)
  {
  }

  /** Every tile of grown touches root or a tile before it in grown: the
      order in which a percolation from root can reach them. */
  ghost predicate GrownFrom(root: Tile, grown: seq<Tile>)
  {
    forall k :: 0 <= k < |grown| ==>
      Adjacent(root, grown[k]) || exists j :: 0 <= j < k && Adjacent(grown[j], grown[k])
  }

  /** The promotions of one percolation started at tile: none, or tile
      itself first and then tiles grown from it. */
  ghost predicate ReachedFrom(tile: Tile, promoted: seq<Tile>)
  {
    promoted == [] || (promoted[0] == tile && GrownFrom(tile, promoted[1..]))
  }

  /** The promotions reached from a neighbour of root extend the tiles
      grown from root. */
  lemma {:induction false} GrownFromExtend(root: Tile, grown: seq<Tile>, n: Tile, sub: seq<Tile>)
    requires GrownFrom(root, grown) && Adjacent(root, n) && ReachedFrom(n, sub)
    ensures GrownFrom(root, grown + sub)
  {
    var all := grown + sub;
    forall k | 0 <= k < |all|
      ensures Adjacent(root, all[k]) || exists j :: 0 <= j < k && Adjacent(all[j], all[k])
    {
      if k < |grown| {
        assert all[k] == grown[k];
        if !Adjacent(root, grown[k]) {
          var j :| 0 <= j < k && Adjacent(grown[j], grown[k]);
          assert all[j] == grown[j];
        }
      } else if k == |grown| {
        assert all[k] == n;
      } else {
        var m := k - |grown| - 1;
        assert all[k] == sub[1..][m];
        assert all[|grown|] == n;
        if !Adjacent(n, sub[1..][m]) {
          var j :| 0 <= j < m && Adjacent(sub[1..][j], sub[1..][m]);
          assert all[|grown| + 1 + j] == sub[1..][j];
        }
      }
    }
  }

  /** A tile followed by tiles grown from it is reached from it. */
  lemma {:induction false} ReachedFromRoot(tile: Tile, rest: seq<Tile>)
    requires GrownFrom(tile, rest)
    ensures ReachedFrom(tile, [tile] + rest)
  {
    assert ([tile] + rest)[1..] == rest;
  }

  /** A subset is never larger. */
  lemma {:induction false} SubsetCardinality(a: set<Tile>, b: set<Tile>)
    requires a <= b
    ensures |a| <= |b|
    decreases |a|
  {
    if a != {} {
      var x :| x in a;
      SubsetCardinality(a - {x}, b - {x});
    }
  }

  /** The visitor map after the caller's visit at now and the pruning of
      visits older than the window. */
  function Visited(visitors: map<int, real>, agentId: int, now: real): (v: map<int, real>)
    ensures agentId in v && v[agentId] == now
    ensures forall id :: id in v ==> now - v[id] <= VisitWindow
    ensures forall id :: id in v && id != agentId ==> id in visitors && v[id] == visitors[id]
    ensures forall id :: id in visitors && now - visitors[id] <= VisitWindow ==> id in v
  {
    var stamped := visitors[agentId := now];
    map id | id in stamped && !(now - stamped[id] > VisitWindow) :: stamped[id]
  }

  /** Intensity after one footstep: the old intensity plus the step,
      capped at 1. */
  function Bumped(intensity: real): (r: real)
    ensures r <= 1.0
    ensures r == 1.0 || r == intensity + IntensityStep
    ensures 0.0 <= intensity ==> IntensityStep <= r
    ensures intensity <= 1.0 ==> intensity <= r
  {
    Min(intensity + IntensityStep, 1.0)
  }

  /** The intensity map after one tick of decay. */
  function DecayedPaths(m: map<Tile, real>): (r: map<Tile, real>)
    ensures r.Keys <= m.Keys
    ensures forall k :: k in r ==> r[k] == m[k] * DecayFactor
    ensures forall k :: k in m ==> (k in r <==> m[k] * DecayFactor >= MinIntensity)
    // every retained intensity lies in [0.01, 1] when none exceeded 1 before
    ensures (forall k :: k in m ==> m[k] <= 1.0) ==> forall k :: k in r ==> MinIntensity <= r[k] <= 1.0
  {
    map k | k in m && !(m[k] * DecayFactor < MinIntensity) :: m[k] * DecayFactor
  }

  /** The speed multiplier of a tile: 1.5 on a permanent road, 1 + 0.5 i on
      a footpath of intensity i above 0.5, and 1 elsewhere. */
  function SpeedBoost(t: Tile, permanent: set<Tile>, intensity: map<Tile, real>): (b: real)
    ensures t in permanent ==> b == 1.5
    ensures t !in permanent && t !in intensity ==> b == 1.0
    ensures t !in permanent && t in intensity && intensity[t] <= 0.5 ==> b == 1.0
    ensures t !in permanent && t in intensity && intensity[t] > 0.5 ==> b == 1.0 + intensity[t] * 0.5
    ensures (forall k :: k in intensity ==> intensity[k] <= 1.0) ==> 1.0 <= b <= 1.5
  {
    if t in permanent then 1.5
    else if t in intensity && intensity[t] > 0.5 then 1.0 + intensity[t] * 0.5
    else 1.0
  }
}
