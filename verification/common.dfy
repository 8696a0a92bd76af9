/** Shared vocabulary of the simulation: optional values, 2-D positions,
    the world rectangle, agent specializations and the saturating arithmetic
    every component uses. */
module Common {

  datatype Option<T> = None | Some(value: T)

  /** A position or displacement in world units. */
  datatype Vec = Vec(x: real, y: real)

  /** An axis-aligned rectangle: left <= x <= right, top <= y <= bottom. */
  datatype Rect = Rect(left: real, right: real, top: real, bottom: real)
  {
    predicate WellFormed() { left <= right && top <= bottom }

    predicate Contains(p: Vec) { left <= p.x <= right && top <= p.y <= bottom }
  }

  /** What an agent prefers to gather; also decides what its home produces. */
  datatype Specialization = Generalist | FoodGatherer | WaterGatherer

  function Min(a: real, b: real): (r: real)
    ensures r <= a && r <= b
    ensures r == a || r == b
  {
    if a <= b then a else b
  }

  function Max(a: real, b: real): (r: real)
    ensures r >= a && r >= b
    ensures r == a || r == b
  {
    if a >= b then a else b
  }

  /** The library clamp: below lo gives lo, above hi gives hi, else v. */
  function Clamp(v: real, lo: real, hi: real): (r: real)
    requires lo <= hi
    ensures lo <= r <= hi
    ensures lo <= v <= hi ==> r == v
    ensures v < lo ==> r == lo
    ensures v > hi ==> r == hi
  {
    if v < lo then lo else if v > hi then hi else v
  }

  function Clamp01(v: real): (r: real)
    ensures 0.0 <= r <= 1.0
    ensures 0.0 <= v <= 1.0 ==> r == v
  {
    Clamp(v, 0.0, 1.0)
  }

  /** Square of the Euclidean distance; every radius test of the simulation
      is modelled as a comparison of this against the squared radius. */
  function DistSq(a: Vec, b: Vec): (d: real)
    ensures d >= 0.0
  {
    (a.x - b.x) * (a.x - b.x) + (a.y - b.y) * (a.y - b.y)
  }

  /** The squared distance does not depend on the order of the points. */
  lemma DistSqSymmetric(a: Vec, b: Vec)
    ensures DistSq(a, b) == DistSq(b, a)
  {
    var u, v := a.x - b.x, a.y - b.y;
    assert b.x - a.x == -u && b.y - a.y == -v;
    assert (-u) * (-u) == u * u && (-v) * (-v) == v * v;
  }

  /** Comparing squared distances is the same as comparing distances:
      if d is the (non-negative) distance whose square is dsq, then
      d < r exactly when dsq < r * r. */
  lemma SquaredComparison(d: real, dsq: real, r: real)
    requires d >= 0.0 && r >= 0.0 && d * d == dsq
    ensures d < r <==> dsq < r * r
  {
    if d < r {
      calc {
        dsq;
      ==
        d * d;
      <= { assert d * (r - d) >= 0.0; }
        d * r;
      < { assert (r - d) * r > 0.0; }
        r * r;
      }
    } else {
      calc {
        r * r;
      <= { assert r * (d - r) >= 0.0; }
        r * d;
      <= { assert (d - r) * d >= 0.0; }
        d * d;
      ==
        dsq;
      }
    }
  }

  /** A position pushed back inside a rectangle, coordinate by coordinate. */
  function ClampToRect(p: Vec, r: Rect): (q: Vec)
    requires r.WellFormed()
    ensures r.Contains(q)
    ensures r.Contains(p) ==> q == p
    ensures p.x < r.left ==> q.x == r.left
    ensures p.x > r.right ==> q.x == r.right
    ensures p.y < r.top ==> q.y == r.top
    ensures p.y > r.bottom ==> q.y == r.bottom
  {
    Vec(Clamp(p.x, r.left, r.right), Clamp(p.y, r.top, r.bottom))
  }

  /** A float-to-int cast: truncation toward zero. */
  function Trunc(v: real): (n: int)
    ensures v >= 0.0 ==> 0.0 <= n as real <= v < n as real + 1.0
    ensures v < 0.0 ==> n as real - 1.0 < v <= n as real <= 0.0
  {
    if v >= 0.0 then v.Floor else -((-v).Floor)
  }
}
