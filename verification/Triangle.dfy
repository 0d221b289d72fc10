/** Ray casting inside the bounding box (discovery/utils.go), with the comparison of slopes in exact arithmetic: when an
    edge is hit, and what the answer is for a triangle. */
module Triangle {
  import opened Polygon

  // ----- The comparison of slopes -----

  /** The value of the float of a given rank. */
  type Values = int -> real

  ghost predicate Increasing(val: Values)
  {
    forall i, j :: i < j ==> val(i) < val(j)
  }

  /** The quotients the code compares.  It does so only for a longitude above that of `s`, so a zero denominator gives
      plus infinity. */
  function Quotients(val: Values): Slope
  {
    (p: Point, s: Point, e: Point) =>
      if p.latitude == s.latitude then true
      else if e.latitude == s.latitude then false
      else (val(p.longitude) - val(s.longitude)) / (p.latitude - s.latitude)
           >= (val(e.longitude) - val(s.longitude)) / (e.latitude - s.latitude)
  }

  /** Positive on one side of the line through `a` and `b`, negative on the other: cross multiplication. */
  function Cross(px: real, py: real, ax: real, ay: real, bx: real, by': real): real
  {
    (by' - ay) * (px - ax) - (bx - ax) * (py - ay)
  }

  function Side(val: Values, p: Point, a: Point, b: Point): real
  {
    Cross(val(p.longitude), p.latitude, val(a.longitude), a.latitude, val(b.longitude), b.latitude)
  }

  /** With `0 < y < x`: comparing the quotients is cross multiplication. */
  lemma QuotientsCompare(u: real, v: real, x: real, y: real)
    requires 0.0 < y < x && ((0.0 < u && 0.0 < v) || (u < 0.0 && v < 0.0))
    ensures y / u >= x / v <==> v * y - x * u >= 0.0
  {
    var q, r := y / u, x / v;
    assert q * u == y && r * v == x;
    assert v * y - x * u == (q - r) * (u * v) by {
      assert v * y == v * (q * u) && x * u == (r * v) * u;
    }
    assert u * v > 0.0;
    if q >= r {
      assert (q - r) * (u * v) >= 0.0;
    } else {
      assert (r - q) * (u * v) > 0.0;
    }
  }

  /** The four early answers are right. */
  lemma EarlyAnswers(u: real, v: real, x: real, y: real)
    requires 0.0 < y < x
    ensures (if v < 0.0 then u > 0.0 else u > v) ==> v * y - x * u < 0.0
    ensures (if v < 0.0 then u < v else u < 0.0) ==> v * y - x * u > 0.0
    ensures u == 0.0 ==> (v * y - x * u >= 0.0 <==> v >= 0.0)
  {
    if v < 0.0 {
      assert v * y < 0.0;
      assert v * x < v * y;
      if u > 0.0 {
        assert x * u > 0.0;
      } else if u < v {
        assert x * u < x * v;
      }
    } else {
      assert 0.0 <= v * y <= v * x;
      if u > v {
        assert x * u > x * v;
      } else if u < 0.0 {
        assert x * u < 0.0;
      }
    }
  }

  // ----- When an edge is hit -----

  /** The end with the smaller longitude, and the other. */
  function Lower(a: Point, b: Point): Point { if a.longitude > b.longitude then b else a }

  function Upper(a: Point, b: Point): Point { if a.longitude > b.longitude then a else b }

  /** The point, moved off the longitudes of the ends. */
  function Moved(p: Point, a: Point, b: Point): Point
  {
    Point(p.latitude, Bump(p.longitude, Lower(a, b).longitude, Upper(a, b).longitude))
  }

  /** The moved longitude lies between the ends. */
  predicate Spans(p: Point, a: Point, b: Point)
  {
    Lower(a, b).longitude < Moved(p, a, b).longitude < Upper(a, b).longitude
  }

  /** The point lies at or below the edge, which its ray then meets. */
  predicate MeetsAbove(val: Values, p: Point, a: Point, b: Point)
  {
    Spans(p, a, b) && Side(val, Moved(p, a, b), Lower(a, b), Upper(a, b)) >= 0.0
  }

  /** The point lies above the edge, at the latitude of the end with the smaller longitude: the code divides by
      zero, and takes the edge for hit. */
  predicate DividesByZero(p: Point, a: Point, b: Point)
  {
    Spans(p, a, b) && p.latitude == Lower(a, b).latitude > Upper(a, b).latitude
  }

  /** An edge is hit iff the moved longitude lies between its ends and the point is at or below the segment there, or
      the code has divided by zero; never both. */
  lemma HitExactly(val: Values, p: Point, a: Point, b: Point)
    requires Increasing(val)
    ensures Intersects(p, a, b, Quotients(val)) == (MeetsAbove(val, p, a, b) != DividesByZero(p, a, b))
  {
    var s, e, m := Lower(a, b), Upper(a, b), Moved(p, a, b);
    BumpSteps(p.longitude, s.longitude, e.longitude);
    if Spans(p, a, b) {
      var u, v := p.latitude - s.latitude, e.latitude - s.latitude;
      var x, y := val(e.longitude) - val(s.longitude), val(m.longitude) - val(s.longitude);
      assert 0.0 < y < x;
      assert Side(val, m, s, e) == v * y - x * u;
      EarlyAnswers(u, v, x, y);
      if (0.0 < u && 0.0 < v) || (u < 0.0 && v < 0.0) {
        QuotientsCompare(u, v, x, y);
      }
    }
  }

  function Meets(val: Values, p: Point): Test
  {
    (a: Point, b: Point) => MeetsAbove(val, p, a, b)
  }

  function Zeros(p: Point): Test
  {
    (a: Point, b: Point) => DividesByZero(p, a, b)
  }

  /** For every polygon: the answer is whether the ray upwards meets an odd number of edges, turned around once for
      every division by zero. */
  lemma AnswerExactly(val: Values, p: Point, vs: seq<Point>)
    requires Increasing(val) && vs != []
    ensures RingOdd(vs, Hits(p, Quotients(val))) == (RingOdd(vs, Meets(val, p)) != RingOdd(vs, Zeros(p)))
  {
    var f, g, h := Hits(p, Quotients(val)), Meets(val, p), Zeros(p);
    forall a, b ensures f(a, b) == (g(a, b) != h(a, b)) {
      HitExactly(val, p, a, b);
    }
    ChainXor(vs, f, g, h);
  }

  // ----- Triangles -----

  ghost predicate SameSide(val: Values, p: Point, q: Point, a: Point, b: Point)
  {
    Side(val, p, a, b) * Side(val, q, a, b) > 0.0
  }

  ghost predicate OtherSide(val: Values, p: Point, q: Point, a: Point, b: Point)
  {
    Side(val, p, a, b) * Side(val, q, a, b) < 0.0
  }

  /** In the open half-plane of each edge in which the third vertex lies. */
  ghost predicate StrictlyInside(val: Values, p: Point, a: Point, b: Point, c: Point)
  {
    SameSide(val, p, c, a, b) && SameSide(val, p, a, b, c) && SameSide(val, p, b, c, a)
  }

  /** On the other side of some edge than the third vertex. */
  ghost predicate StrictlyOutside(val: Values, p: Point, a: Point, b: Point, c: Point)
  {
    OtherSide(val, p, c, a, b) || OtherSide(val, p, a, b, c) || OtherSide(val, p, b, c, a)
  }

  /** The sides add up to the orientation, and weigh the vertices to give the point. */
  lemma Weights(px: real, py: real, ax: real, ay: real, bx: real, by': real, cx: real, cy: real)
    ensures
      var s1, s2, s3 := Cross(px, py, ax, ay, bx, by'), Cross(px, py, bx, by', cx, cy), Cross(px, py, cx, cy, ax, ay);
      && s1 + s2 + s3 == Cross(cx, cy, ax, ay, bx, by')
      && s2 * (px - ax) == s3 * (bx - px) + s1 * (cx - px)
  {
  }

  lemma Orientation(ax: real, ay: real, bx: real, by': real, cx: real, cy: real)
    ensures Cross(cx, cy, ax, ay, bx, by') == Cross(ax, ay, bx, by', cx, cy) == Cross(bx, by', cx, cy, ax, ay)
  {
  }

  lemma Flip(px: real, py: real, ax: real, ay: real, bx: real, by': real)
    ensures Cross(px, py, bx, by', ax, ay) == -Cross(px, py, ax, ay, bx, by')
  {
  }

  /** All sides have the sign of their sum, the orientation. */
  ghost predicate SignsInside(s1: real, s2: real, s3: real)
  {
    var d := s1 + s2 + s3;
    s1 * d > 0.0 && s2 * d > 0.0 && s3 * d > 0.0
  }

  /** Some side has the other sign. */
  ghost predicate SignsOutside(s1: real, s2: real, s3: real)
  {
    var d := s1 + s2 + s3;
    s1 * d < 0.0 || s2 * d < 0.0 || s3 * d < 0.0
  }

  /** Signs of the sides of a point for which the first vertex is alone on its side of the meridian. */
  lemma AloneSigns(s1: real, s2: real, s3: real, x: real, y: real, z: real)
    requires x > 0.0 && y > 0.0 && z > 0.0 && s2 * x == s3 * y + s1 * z
    ensures
      && (SignsInside(s1, s2, s3) ==> (s1 > 0.0 && s3 > 0.0) || (s1 < 0.0 && s3 < 0.0))
      && (SignsOutside(s1, s2, s3) ==>
            && !(s1 >= 0.0 && s3 > 0.0) && !(s1 < 0.0 && s3 <= 0.0)
            && !(s1 > 0.0 && s3 >= 0.0) && !(s1 <= 0.0 && s3 < 0.0))
  {
    var d := s1 + s2 + s3;
    if s1 >= 0.0 && s3 >= 0.0 && (s1 > 0.0 || s3 > 0.0) {
      assert s3 * y >= 0.0 && s1 * z >= 0.0 && s3 * y + s1 * z > 0.0;
      assert s2 > 0.0;
      assert s1 * d >= 0.0 && s2 * d >= 0.0 && s3 * d >= 0.0;
    } else if s1 <= 0.0 && s3 <= 0.0 && (s1 < 0.0 || s3 < 0.0) {
      assert s3 * y <= 0.0 && s1 * z <= 0.0 && s3 * y + s1 * z < 0.0;
      assert s2 < 0.0;
      assert s1 * d >= 0.0 && s2 * d >= 0.0 && s3 * d >= 0.0;
    }
    if s1 * d > 0.0 && s3 * d > 0.0 {
      assert s1 > 0.0 <==> d > 0.0;
      assert s3 > 0.0 <==> d > 0.0;
    }
  }

  /** A point with all vertices on one side of its meridian is not inside. */
  lemma OneSidedSigns(s1: real, s2: real, s3: real, x: real, y: real, z: real)
    requires x > 0.0 && y > 0.0 && z > 0.0 && s2 * x + s3 * y + s1 * z == 0.0
    ensures !SignsInside(s1, s2, s3)
  {
    var d := s1 + s2 + s3;
    ProductSign(s1, z);
    ProductSign(s2, x);
    ProductSign(s3, y);
    ProductSign(s1, d);
    ProductSign(s2, d);
    ProductSign(s3, d);
  }

  lemma ProductSign(s: real, t: real)
    ensures t > 0.0 ==> (s * t > 0.0 <==> s > 0.0) && (s * t < 0.0 <==> s < 0.0)
    ensures t < 0.0 ==> (s * t > 0.0 <==> s < 0.0) && (s * t < 0.0 <==> s > 0.0)
    ensures t == 0.0 ==> s * t == 0.0
  {
    if t > 0.0 {
      assert s > 0.0 ==> s * t > 0.0;
      assert s < 0.0 ==> s * t < 0.0;
    } else if t < 0.0 {
      assert s > 0.0 ==> s * t < 0.0;
      assert s < 0.0 ==> s * t > 0.0;
    }
  }

  ghost predicate NoVertexAt(p: Point, a: Point, b: Point, c: Point)
  {
    a.longitude != p.longitude && b.longitude != p.longitude && c.longitude != p.longitude
  }

  /** Whether the ray meets an edge, by the sides of its ends. */
  lemma MeetsBySide(val: Values, p: Point, a: Point, b: Point)
    requires a.longitude != p.longitude && b.longitude != p.longitude
    ensures MeetsAbove(val, p, a, b) <==>
            || (a.longitude < p.longitude < b.longitude && Side(val, p, a, b) >= 0.0)
            || (b.longitude < p.longitude < a.longitude && Side(val, p, a, b) <= 0.0)
  {
    BumpSteps(p.longitude, a.longitude, b.longitude);
    BumpSteps(p.longitude, b.longitude, a.longitude);
    Flip(val(p.longitude), p.latitude, val(a.longitude), a.latitude, val(b.longitude), b.latitude);
  }

  lemma RingOfThree(a: Point, b: Point, c: Point, test: Test)
    ensures RingOdd([a, b, c], test) == (test(c, a) != (test(a, b) != test(b, c)))
  {
    var vs := [a, b, c];
    assert vs[..2] == [a, b] && vs[..2][..1] == [a];
    assert ChainOdd(vs[..2], test) == test(a, b);
  }

  /** The answer without divisions by zero, for a triangle of which `odd` says whether it is met an odd number of
      times. */
  ghost predicate Agrees(val: Values, p: Point, a: Point, b: Point, c: Point)
  {
    var odd := RingOdd([a, b, c], Meets(val, p));
    (StrictlyInside(val, p, a, b, c) ==> odd) && (StrictlyOutside(val, p, a, b, c) ==> !odd)
  }

  /** The sides by which inside and outside are told. */
  lemma BySigns(val: Values, p: Point, a: Point, b: Point, c: Point)
    ensures
      var s1, s2, s3 := Side(val, p, a, b), Side(val, p, b, c), Side(val, p, c, a);
      && (StrictlyInside(val, p, a, b, c) <==> SignsInside(s1, s2, s3))
      && (StrictlyOutside(val, p, a, b, c) <==> SignsOutside(s1, s2, s3))
  {
    Weights(val(p.longitude), p.latitude, val(a.longitude), a.latitude, val(b.longitude), b.latitude,
            val(c.longitude), c.latitude);
    Orientation(val(a.longitude), a.latitude, val(b.longitude), b.latitude, val(c.longitude), c.latitude);
  }

  /** How often the triangle is met when its first vertex is alone on its side of the meridian of the point. */
  lemma AloneMeets(val: Values, p: Point, a: Point, b: Point, c: Point)
    requires NoVertexAt(p, a, b, c) && (b.longitude < p.longitude <==> c.longitude < p.longitude)
    requires (a.longitude < p.longitude <==> b.longitude > p.longitude)
    ensures
      var s1, s3 := Side(val, p, a, b), Side(val, p, c, a);
      RingOdd([a, b, c], Meets(val, p))
      == if a.longitude < p.longitude then (s1 >= 0.0) != (s3 <= 0.0) else (s1 <= 0.0) != (s3 >= 0.0)
  {
    RingOfThree(a, b, c, Meets(val, p));
    MeetsBySide(val, p, a, b);
    MeetsBySide(val, p, b, c);
    MeetsBySide(val, p, c, a);
  }

  /** The conclusion from the signs alone. */
  lemma AloneConclusion(s1: real, s2: real, s3: real, x: real, y: real, z: real, left: bool, odd: bool)
    requires s2 * x == s3 * y + s1 * z
    requires if left then x > 0.0 && y > 0.0 && z > 0.0 else x < 0.0 && y < 0.0 && z < 0.0
    requires odd == if left then (s1 >= 0.0) != (s3 <= 0.0) else (s1 <= 0.0) != (s3 >= 0.0)
    ensures SignsInside(s1, s2, s3) ==> odd
    ensures SignsOutside(s1, s2, s3) ==> !odd
  {
    if left {
      AloneSigns(s1, s2, s3, x, y, z);
    } else {
      NegatedWeights(s1, s2, s3, x, y, z);
      AloneSigns(s1, s2, s3, -x, -y, -z);
    }
  }

  /** The conclusion for coordinates. */
  lemma AlonePoint(px: real, py: real, ax: real, ay: real, bx: real, by': real, cx: real, cy: real, odd: bool)
    requires if ax < px then bx > px && cx > px else ax > px && bx < px && cx < px
    requires
      var s1, s3 := Cross(px, py, ax, ay, bx, by'), Cross(px, py, cx, cy, ax, ay);
      odd == if ax < px then (s1 >= 0.0) != (s3 <= 0.0) else (s1 <= 0.0) != (s3 >= 0.0)
    ensures
      var s1, s2, s3 := Cross(px, py, ax, ay, bx, by'), Cross(px, py, bx, by', cx, cy), Cross(px, py, cx, cy, ax, ay);
      (SignsInside(s1, s2, s3) ==> odd) && (SignsOutside(s1, s2, s3) ==> !odd)
  {
    var s1, s2, s3 := Cross(px, py, ax, ay, bx, by'), Cross(px, py, bx, by', cx, cy), Cross(px, py, cx, cy, ax, ay);
    Weights(px, py, ax, ay, bx, by', cx, cy);
    AloneConclusion(s1, s2, s3, px - ax, bx - px, cx - px, ax < px, odd);
  }

  lemma AloneFirst(val: Values, p: Point, a: Point, b: Point, c: Point)
    requires Increasing(val) && NoVertexAt(p, a, b, c)
    requires (b.longitude < p.longitude <==> c.longitude < p.longitude)
    requires (a.longitude < p.longitude <==> b.longitude > p.longitude)
    ensures Agrees(val, p, a, b, c)
  {
    AloneMeets(val, p, a, b, c);
    BySigns(val, p, a, b, c);
    AlonePoint(val(p.longitude), p.latitude, val(a.longitude), a.latitude, val(b.longitude), b.latitude,
               val(c.longitude), c.latitude, RingOdd([a, b, c], Meets(val, p)));
  }

  lemma NegatedWeights(s1: real, s2: real, s3: real, x: real, y: real, z: real)
    requires s2 * x == s3 * y + s1 * z
    ensures s2 * -x == s3 * -y + s1 * -z
  {
  }

  lemma OneSidedConclusion(s1: real, s2: real, s3: real, x: real, y: real, z: real)
    requires s2 * x == s3 * y + s1 * z
    requires (x > 0.0 && y < 0.0 && z < 0.0) || (x < 0.0 && y > 0.0 && z > 0.0)
    ensures !SignsInside(s1, s2, s3)
  {
    SumOfWeights(s1, s2, s3, x, y, z);
    if x > 0.0 {
      OneSidedSigns(s1, s2, s3, x, -y, -z);
    } else {
      OneSidedSigns(s1, s2, s3, -x, y, z);
    }
  }

  lemma OneSidedPoint(px: real, py: real, ax: real, ay: real, bx: real, by': real, cx: real, cy: real)
    requires (ax < px && bx < px && cx < px) || (ax > px && bx > px && cx > px)
    ensures !SignsInside(Cross(px, py, ax, ay, bx, by'), Cross(px, py, bx, by', cx, cy), Cross(px, py, cx, cy, ax, ay))
  {
    Weights(px, py, ax, ay, bx, by', cx, cy);
    OneSidedConclusion(Cross(px, py, ax, ay, bx, by'), Cross(px, py, bx, by', cx, cy), Cross(px, py, cx, cy, ax, ay),
                       px - ax, bx - px, cx - px);
  }

  lemma OneSided(val: Values, p: Point, a: Point, b: Point, c: Point)
    requires Increasing(val) && NoVertexAt(p, a, b, c)
    requires (a.longitude < p.longitude <==> b.longitude < p.longitude)
    requires (b.longitude < p.longitude <==> c.longitude < p.longitude)
    ensures Agrees(val, p, a, b, c)
  {
    NoneMet(val, p, a, b, c);
    BySigns(val, p, a, b, c);
    OneSidedPoint(val(p.longitude), p.latitude, val(a.longitude), a.latitude, val(b.longitude), b.latitude,
                  val(c.longitude), c.latitude);
  }

  lemma NoneMet(val: Values, p: Point, a: Point, b: Point, c: Point)
    requires NoVertexAt(p, a, b, c)
    requires (a.longitude < p.longitude <==> b.longitude < p.longitude)
    requires (b.longitude < p.longitude <==> c.longitude < p.longitude)
    ensures !RingOdd([a, b, c], Meets(val, p))
  {
    RingOfThree(a, b, c, Meets(val, p));
    MeetsBySide(val, p, a, b);
    MeetsBySide(val, p, b, c);
    MeetsBySide(val, p, c, a);
  }

  lemma SumOfWeights(s1: real, s2: real, s3: real, x: real, y: real, z: real)
    requires s2 * x == s3 * y + s1 * z
    ensures s2 * x + s3 * -y + s1 * -z == 0.0 && s2 * -x + s3 * y + s1 * z == 0.0
  {
  }

  /** Writing the triangle from its second vertex changes nothing. */
  lemma Rotated(val: Values, p: Point, a: Point, b: Point, c: Point)
    requires Agrees(val, p, b, c, a)
    ensures Agrees(val, p, a, b, c)
  {
    RotationKeeps([a, b, c], 1, Meets(val, p));
    assert [a, b, c][1..] + [a, b, c][..1] == [b, c, a];
  }

  lemma TriangleAgrees(val: Values, p: Point, a: Point, b: Point, c: Point)
    requires Increasing(val) && NoVertexAt(p, a, b, c)
    ensures Agrees(val, p, a, b, c)
  {
    var la, lb, lc := a.longitude < p.longitude, b.longitude < p.longitude, c.longitude < p.longitude;
    if la == lb == lc {
      OneSided(val, p, a, b, c);
    } else if lb == lc {
      AloneFirst(val, p, a, b, c);
    } else if lc == la {
      AloneFirst(val, p, b, c, a);
      Rotated(val, p, a, b, c);
    } else {
      AloneFirst(val, p, c, a, b);
      Rotated(val, p, b, c, a);
      Rotated(val, p, a, b, c);
    }
  }

  /** For every triangle and every point that no vertex shares its longitude with: a point strictly inside is said to
      be inside, and a point strictly outside is not, if and only if the code divides by zero an even number of
      times. */
  lemma TriangleExactly(val: Values, p: Point, a: Point, b: Point, c: Point)
    requires Increasing(val) && NoVertexAt(p, a, b, c)
    requires StrictlyInside(val, p, a, b, c) || StrictlyOutside(val, p, a, b, c)
    ensures (RingOdd([a, b, c], Hits(p, Quotients(val))) <==> StrictlyInside(val, p, a, b, c))
            <==> !RingOdd([a, b, c], Zeros(p))
  {
    TriangleAgrees(val, p, a, b, c);
    AnswerExactly(val, p, [a, b, c]);
    BySigns(val, p, a, b, c);
  }

  /** A point strictly inside a triangle, at the latitude of its leftmost vertex, that is said to be outside. */
  lemma ZeroGoesWrong()
    ensures
      var val: Values := (i: int) => i as real;
      var p, a, b, c := Point(10.0, 5), Point(10.0, 0), Point(0.0, 10), Point(20.0, 10);
      Increasing(val) && StrictlyInside(val, p, a, b, c) && !RingOdd([a, b, c], Hits(p, Quotients(val)))
  {
    var val: Values := (i: int) => i as real;
    var p, a, b, c := Point(10.0, 5), Point(10.0, 0), Point(0.0, 10), Point(20.0, 10);
    assert Side(val, p, a, b) == -50.0 && Side(val, c, a, b) == -200.0;
    assert Side(val, p, b, c) == -100.0 && Side(val, a, b, c) == -200.0;
    assert Side(val, p, c, a) == -50.0 && Side(val, b, c, a) == -200.0;
    TriangleExactly(val, p, a, b, c);
    RingOfThree(a, b, c, Zeros(p));
    BumpSteps(5, 0, 10);
    BumpSteps(5, 10, 10);
  }

  // ----- A vertex at the longitude of the point -----

  /** With a vertex at the point's longitude but none at the next float, and every edge that does not touch the
      longitude hit from both or from neither, the answer is that for the point moved to the next float. */
  lemma AnswerOfMoved(p: Point, vs: seq<Point>, slope: Slope)
    requires vs != [] && forall v :: v in vs ==> v.longitude != p.longitude + 1
    requires forall a, b :: a in vs && b in vs && a.longitude != p.longitude && b.longitude != p.longitude ==>
      Intersects(p, a, b, slope) == Intersects(Point(p.latitude, p.longitude + 1), a, b, slope)
    ensures RingOdd(vs, Hits(p, slope)) == RingOdd(vs, Hits(Point(p.latitude, p.longitude + 1), slope))
  {
    var q := Point(p.latitude, p.longitude + 1);
    var f, g, h := Hits(p, slope), Hits(q, slope), (a: Point, b: Point) => false;
    forall a, b | a in vs && b in vs ensures f(a, b) == g(a, b) {
      BumpSteps(p.longitude, a.longitude, b.longitude);
      BumpSteps(p.longitude, b.longitude, a.longitude);
      BumpSteps(q.longitude, a.longitude, b.longitude);
      BumpSteps(q.longitude, b.longitude, a.longitude);
    }
    ChainXor(vs, f, g, h);
    ChainNever(vs, h);
    assert vs[|vs| - 1] in vs && vs[0] in vs;
    assert f(vs[|vs| - 1], vs[0]) == g(vs[|vs| - 1], vs[0]);
  }

  /** Without that, a point strictly inside a triangle and below a vertex is said to be outside. */
  lemma VertexGoesWrong()
    ensures
      var val: Values := (i: int) => i as real;
      var p, a, b, c := Point(5.0, 0), Point(10.0, 0), Point(0.0, -10), Point(0.0, 1);
      Increasing(val) && StrictlyInside(val, p, a, b, c) && !RingOdd([a, b, c], Hits(p, Quotients(val)))
  {
    var val: Values := (i: int) => i as real;
    var p, a, b, c := Point(5.0, 0), Point(10.0, 0), Point(0.0, -10), Point(0.0, 1);
    assert Side(val, p, a, b) == -50.0 && Side(val, c, a, b) == -110.0;
    assert Side(val, p, b, c) == -55.0 && Side(val, a, b, c) == -110.0;
    assert Side(val, p, c, a) == -5.0 && Side(val, b, c, a) == -110.0;
    RingOfThree(a, b, c, Hits(p, Quotients(val)));
    BumpSteps(0, -10, 0);
    BumpSteps(0, 0, 1);
    BumpSteps(0, -10, 1);
  }
}
