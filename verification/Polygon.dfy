/** Ray casting for polygon restrictions (discovery/utils.go).  A longitude is the rank of the finite float among
    the floats, so that the order is that of the floats and `math.Nextafter` towards +Inf is the next rank.
    Latitudes are reals, and the comparison of slopes is left open. */
module Polygon {

  datatype Point = Point(latitude: real, longitude: int)

  type Slope = (Point, Point, Point) -> bool

  function Max(a: int, b: int): int
  {
    if a < b then b else a
  }

  /** Moves off the longitudes of the edge's ends. */
  function Bump(p: int, a: int, b: int): int
    decreases Max(a, b) + 1 - p
  {
    if p == a || p == b then Bump(p + 1, a, b) else p
  }

  function Intersects(point: Point, a: Point, b: Point, slope: Slope): bool
  {
    var (start, end) := if a.longitude > b.longitude then (b, a) else (a, b);
    var p := Bump(point.longitude, start.longitude, end.longitude);
    if p < start.longitude || p > end.longitude then false
    else if start.latitude > end.latitude && point.latitude > start.latitude then false
    else if start.latitude > end.latitude && point.latitude < end.latitude then true
    else if start.latitude <= end.latitude && point.latitude > end.latitude then false
    else if start.latitude <= end.latitude && point.latitude < start.latitude then true
    else slope(Point(point.latitude, p), start, end)
  }

  /** `intersectsWithRaycast`. */
  method IntersectsWithRaycast(point: Point, a: Point, b: Point, slope: Slope) returns (hit: bool)
    ensures hit == Intersects(point, a, b, slope)
  {
    var start, end, p := a, b, point;
    if start.longitude > end.longitude {
      start, end := end, start;
    }
    while p.longitude == start.longitude || p.longitude == end.longitude
      invariant p.latitude == point.latitude
      invariant Bump(p.longitude, start.longitude, end.longitude)
                == Bump(point.longitude, start.longitude, end.longitude)
      decreases Max(start.longitude, end.longitude) + 1 - p.longitude
    {
      p := Point(p.latitude, p.longitude + 1);
    }
    if p.longitude < start.longitude || p.longitude > end.longitude {
      return false;
    }
    if start.latitude > end.latitude {
      if p.latitude > start.latitude {
        return false;
      }
      if p.latitude < end.latitude {
        return true;
      }
    } else {
      if p.latitude > end.latitude {
        return false;
      }
      if p.latitude < start.latitude {
        return true;
      }
    }
    return slope(p, start, end);
  }

  // ----- Parity over the edges of a ring -----

  type Test = (Point, Point) -> bool

  /** Whether an odd number of the edges between neighbours pass the test. */
  function ChainOdd(vs: seq<Point>, test: Test): bool
  {
    if |vs| <= 1 then false
    else ChainOdd(vs[..|vs| - 1], test) != test(vs[|vs| - 2], vs[|vs| - 1])
  }

  /** The same with the edge from the last vertex back to the first. */
  function RingOdd(vs: seq<Point>, test: Test): bool
    requires vs != []
  {
    test(vs[|vs| - 1], vs[0]) != ChainOdd(vs, test)
  }

  function Hits(point: Point, slope: Slope): Test
  {
    (a: Point, b: Point) => Intersects(point, a, b, slope)
  }

  /** `PointInPolygon`; an empty polygon makes the code panic. */
  method PointInPolygon(point: Point, vs: seq<Point>, slope: Slope) returns (contains: bool)
    requires vs != []
    ensures contains == RingOdd(vs, Hits(point, slope))
  {
    contains := IntersectsWithRaycast(point, vs[|vs| - 1], vs[0], slope);
    for i := 1 to |vs|
      invariant contains == (Intersects(point, vs[|vs| - 1], vs[0], slope) != ChainOdd(vs[..i], Hits(point, slope)))
    {
      var hit := IntersectsWithRaycast(point, vs[i - 1], vs[i], slope);
      if hit {
        contains := !contains;
      }
      assert vs[..i + 1][..i] == vs[..i];
    }
    assert vs[..|vs|] == vs;
  }

  // ----- The answer does not depend on how the ring is written down -----

  ghost predicate SymmetricTest(test: Test)
  {
    forall a, b :: test(a, b) == test(b, a)
  }

  /** An edge between equal longitudes is never hit, so the direction of an edge does not matter. */
  lemma HitsSymmetric(point: Point, slope: Slope)
    ensures SymmetricTest(Hits(point, slope))
    ensures forall a :: !Hits(point, slope)(a, a)
  {
    forall a, b ensures Intersects(point, a, b, slope) == Intersects(point, b, a, slope) {
      if a.longitude == b.longitude {
        BumpSteps(point.longitude, a.longitude, b.longitude);
      }
    }
    forall a ensures !Intersects(point, a, a, slope) {
      BumpSteps(point.longitude, a.longitude, a.longitude);
    }
  }

  lemma BumpSteps(p: int, a: int, b: int)
    ensures Bump(p, a, b) == if p != a && p != b then p else if p + 1 != a && p + 1 != b then p + 1 else p + 2
  {
    if p == a || p == b {
      assert Bump(p, a, b) == Bump(p + 1, a, b);
      if p + 1 == a || p + 1 == b {
        assert Bump(p + 1, a, b) == Bump(p + 2, a, b);
        assert Bump(p + 2, a, b) == p + 2;
      }
    }
  }

  lemma {:induction false} ChainConcat(a: seq<Point>, b: seq<Point>, test: Test)
    requires a != [] && b != []
    ensures ChainOdd(a + b, test) == ((ChainOdd(a, test) != test(a[|a| - 1], b[0])) != ChainOdd(b, test))
  {
    var ab := a + b;
    assert ab[|ab| - 1] == b[|b| - 1];
    if |b| == 1 {
      assert ab[..|ab| - 1] == a;
    } else {
      assert ab[..|ab| - 1] == a + b[..|b| - 1];
      ChainConcat(a, b[..|b| - 1], test);
    }
  }

  /** Rotating the ring. */
  lemma RotationKeeps(vs: seq<Point>, k: nat, test: Test)
    requires vs != [] && k <= |vs|
    ensures RingOdd(vs[k..] + vs[..k], test) == RingOdd(vs, test)
  {
    var a, b := vs[..k], vs[k..];
    assert vs == a + b;
    if a == [] || b == [] {
      assert b + a == vs;
    } else {
      ChainConcat(a, b, test);
      ChainConcat(b, a, test);
    }
  }

  function Reversed(vs: seq<Point>): seq<Point>
  {
    seq(|vs|, i requires 0 <= i < |vs| => vs[|vs| - 1 - i])
  }

  lemma {:induction false} ReversedChain(vs: seq<Point>, test: Test)
    requires SymmetricTest(test)
    ensures ChainOdd(Reversed(vs), test) == ChainOdd(vs, test)
  {
    if |vs| > 1 {
      var init, last := vs[..|vs| - 1], vs[|vs| - 1];
      ReversedChain(init, test);
      assert Reversed(vs) == [last] + Reversed(init);
      ChainConcat([last], Reversed(init), test);
    }
  }

  /** Reversing the ring. */
  lemma ReversalKeeps(vs: seq<Point>, test: Test)
    requires vs != [] && SymmetricTest(test)
    ensures RingOdd(Reversed(vs), test) == RingOdd(vs, test)
  {
    ReversedChain(vs, test);
  }

  /** Closing the ring by repeating its first vertex, as in section 3.1.6 of RFC 7946. */
  lemma ClosingKeeps(vs: seq<Point>, test: Test)
    requires vs != [] && !test(vs[0], vs[0])
    ensures RingOdd(vs + [vs[0]], test) == RingOdd(vs, test)
  {
    ChainConcat(vs, [vs[0]], test);
  }

  /** The three together for `PointInPolygon`. */
  lemma SameRingSameAnswer(point: Point, vs: seq<Point>, k: nat, slope: Slope)
    requires vs != [] && k <= |vs|
    ensures
      var test := Hits(point, slope);
      var answer := RingOdd(vs, test);
      && RingOdd(vs[k..] + vs[..k], test) == answer
      && RingOdd(Reversed(vs), test) == answer
      && RingOdd(vs + [vs[0]], test) == answer
  {
    var test := Hits(point, slope);
    HitsSymmetric(point, slope);
    RotationKeeps(vs, k, test);
    ReversalKeeps(vs, test);
    ClosingKeeps(vs, test);
  }

  // ----- Points outside the bounding box -----

  /** On the ray's side of the point. */
  function Beyond(p: int): Test
  {
    (a: Point, b: Point) => (a.longitude > p) != (b.longitude > p)
  }

  predicate IsStep(p: int, a: Point, b: Point)
  {
    (a.longitude == p && b.longitude == p + 1) || (a.longitude == p + 1 && b.longitude == p)
  }

  /** Edges that join a vertex at the point's longitude to one at the very next float. */
  function Steps(p: int): Test
  {
    (a: Point, b: Point) => IsStep(p, a, b)
  }

  /** A closed ring changes side an even number of times. */
  lemma {:induction false} ChainChangesSide(vs: seq<Point>, p: int)
    requires vs != []
    ensures ChainOdd(vs, Beyond(p)) == Beyond(p)(vs[0], vs[|vs| - 1])
  {
    if |vs| > 1 {
      ChainChangesSide(vs[..|vs| - 1], p);
    }
  }

  lemma RingChangesSideEvenly(vs: seq<Point>, p: int)
    requires vs != []
    ensures !RingOdd(vs, Beyond(p))
  {
    ChainChangesSide(vs, p);
  }

  /** Parities of tests add up. */
  lemma {:induction false} ChainXor(vs: seq<Point>, f: Test, g: Test, h: Test)
    requires forall a, b :: a in vs && b in vs ==> f(a, b) == (g(a, b) != h(a, b))
    ensures ChainOdd(vs, f) == (ChainOdd(vs, g) != ChainOdd(vs, h))
  {
    if |vs| > 1 {
      assert forall a :: a in vs[..|vs| - 1] ==> a in vs;
      ChainXor(vs[..|vs| - 1], f, g, h);
    }
  }

  lemma {:induction false} ChainNever(vs: seq<Point>, f: Test)
    requires forall a, b :: a in vs && b in vs ==> !f(a, b)
    ensures !ChainOdd(vs, f)
  {
    if |vs| > 1 {
      assert forall a :: a in vs[..|vs| - 1] ==> a in vs;
      ChainNever(vs[..|vs| - 1], f);
    }
  }

  ghost predicate Below(point: Point, vs: seq<Point>)
  {
    forall v :: v in vs ==> point.latitude < v.latitude
  }

  ghost predicate Above(point: Point, vs: seq<Point>)
  {
    forall v :: v in vs ==> point.latitude > v.latitude
  }

  /** Strictly outside the bounding box of the vertices. */
  ghost predicate Outside(point: Point, vs: seq<Point>)
  {
    || Below(point, vs) || Above(point, vs)
    || (forall v :: v in vs ==> point.longitude < v.longitude)
    || (forall v :: v in vs ==> point.longitude > v.longitude)
  }

  /** From below, an edge is hit iff its ends lie on different sides, except for a step. */
  lemma HitFromBelow(point: Point, a: Point, b: Point, slope: Slope)
    requires point.latitude < a.latitude && point.latitude < b.latitude
    ensures Intersects(point, a, b, slope)
            == (Beyond(point.longitude)(a, b) != Steps(point.longitude)(a, b))
  {
    BumpSteps(point.longitude, a.longitude, b.longitude);
    BumpSteps(point.longitude, b.longitude, a.longitude);
  }

  /** For a point strictly outside the box the answer is exactly this: it is said to be inside iff it lies below
      the polygon and an odd number of edges are steps. */
  lemma OutsideExactly(point: Point, vs: seq<Point>, slope: Slope)
    requires vs != [] && Outside(point, vs)
    ensures RingOdd(vs, Hits(point, slope)) <==> Below(point, vs) && RingOdd(vs, Steps(point.longitude))
  {
    var f, g, h := Hits(point, slope), Beyond(point.longitude), Steps(point.longitude);
    if Below(point, vs) {
      forall a, b | a in vs && b in vs ensures f(a, b) == (g(a, b) != h(a, b)) {
        HitFromBelow(point, a, b, slope);
      }
      ChainXor(vs, f, g, h);
      RingChangesSideEvenly(vs, point.longitude);
      assert f(vs[|vs| - 1], vs[0]) == (g(vs[|vs| - 1], vs[0]) != h(vs[|vs| - 1], vs[0]));
    } else {
      forall a, b | a in vs && b in vs ensures !f(a, b) {
        BumpSteps(point.longitude, a.longitude, b.longitude);
        BumpSteps(point.longitude, b.longitude, a.longitude);
      }
      ChainNever(vs, f);
      assert vs[0] in vs && vs[|vs| - 1] in vs;
    }
  }

  /** So no point outside the box is inside, as long as no vertex is at the float just above its longitude. */
  lemma OutsideIsOutside(point: Point, vs: seq<Point>, slope: Slope)
    requires vs != [] && Outside(point, vs)
    requires forall v :: v in vs ==> v.longitude != point.longitude + 1
    ensures !RingOdd(vs, Hits(point, slope))
  {
    OutsideExactly(point, vs, slope);
    ChainNever(vs, Steps(point.longitude));
    assert vs[0] in vs && vs[|vs| - 1] in vs;
  }

  /** Without that, a point far below a triangle is said to be inside it. */
  lemma StepGoesWrong(slope: Slope)
    ensures
      var vs := [Point(1.0, 0), Point(1.0, 1), Point(2.0, 5)];
      Outside(Point(0.0, 0), vs) && RingOdd(vs, Hits(Point(0.0, 0), slope))
  {
    var vs := [Point(1.0, 0), Point(1.0, 1), Point(2.0, 5)];
    OutsideExactly(Point(0.0, 0), vs, slope);
    assert vs[..2] == [vs[0], vs[1]] && vs[..2][..1] == [vs[0]];
    assert ChainOdd(vs[..2], Steps(0));
  }
}
