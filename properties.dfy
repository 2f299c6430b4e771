/** Properties of the polygon kernel that relate several operations: how
    orientation, the convexity check, the centroid and the overlap test
    behave under the transforms, and what the check does and does not
    accept. */
module PolygonProperties {
  import opened Vectors
  import opened ConvexPolygons
  import CentroidProperties

  // ---------------------------------------------------------------------------
  // Orientation under the transforms
  // ---------------------------------------------------------------------------

  /** Moving all three points by the same vector keeps the orientation. */
  lemma OrientTranslated(a: Point, b: Point, c: Point, v: Vec2D)
    ensures Orient2D(a.Add(v.AsPoint()), b.Add(v.AsPoint()), c.Add(v.AsPoint())) == Orient2D(a, b, c)
  {
    var d := v.AsPoint();
    assert SignedArea2(a.Add(d), b.Add(d), c.Add(d)) == SignedArea2(a, b, c);
  }

  /** For one coordinate of a rotation: the difference of the images is the
      image of the difference, the pivot terms cancelling. */
  lemma RotatedCoordinateDifference(c: real, s: real, px: real, py: real, ax: real, ay: real, bx: real, b_y: real)
    ensures (c * (bx - px) - s * (b_y - py) + px) - (c * (ax - px) - s * (ay - py) + px)
         == c * (bx - ax) - s * (b_y - ay)
  {
    assert c * (bx - px) - c * (ax - px) == c * (bx - ax);
    assert s * (b_y - py) - s * (ay - py) == s * (b_y - ay);
  }

  /** The difference of two rotated points is the rotated difference. */
  lemma RotatedDifference(a: Point, b: Point, c: real, s: real, pivot: Point)
    ensures RotatePoint(b, c, s, pivot).x - RotatePoint(a, c, s, pivot).x == c * (b.x - a.x) - s * (b.y - a.y)
    ensures RotatePoint(b, c, s, pivot).y - RotatePoint(a, c, s, pivot).y == s * (b.x - a.x) + c * (b.y - a.y)
  {
    RotatedCoordinateDifference(c, s, pivot.x, pivot.y, a.x, a.y, b.x, b.y);
    RotatedCoordinateDifference(c, -s, pivot.y, pivot.x, a.y, a.x, b.y, b.x);
  }

  /** The cross product of the rotated differences b - a and d - a is
      c*c + s*s times the signed area of a, b, d. */
  lemma CrossOfRotated(c: real, s: real, a: Point, b: Point, d: Point)
    ensures Cross(Point(c * (b.x - a.x) - s * (b.y - a.y), s * (b.x - a.x) + c * (b.y - a.y)),
                  Point(c * (d.x - a.x) - s * (d.y - a.y), s * (d.x - a.x) + c * (d.y - a.y)))
         == (c * c + s * s) * SignedArea2(a, b, d)
  {
    var ux, uy, wx, wy := b.x - a.x, b.y - a.y, d.x - a.x, d.y - a.y;
    assert (c * ux - s * uy) * (s * wx + c * wy)
        == c * s * ux * wx + c * c * ux * wy - s * s * uy * wx - s * c * uy * wy;
    assert (c * wx - s * wy) * (s * ux + c * uy)
        == c * s * wx * ux + c * c * wx * uy - s * s * wy * ux - s * c * wy * uy;
  }

  /** Three points whose differences are those of a, b, d rotated by (c, s)
      have c*c + s*s times the signed area of a, b, d. */
  lemma SignedAreaOfRotatedDifferences(ra: Point, rb: Point, rd: Point, a: Point, b: Point, d: Point,
                                       c: real, s: real)
    requires rb.x - ra.x == c * (b.x - a.x) - s * (b.y - a.y)
    requires rb.y - ra.y == s * (b.x - a.x) + c * (b.y - a.y)
    requires rd.x - ra.x == c * (d.x - a.x) - s * (d.y - a.y)
    requires rd.y - ra.y == s * (d.x - a.x) + c * (d.y - a.y)
    ensures SignedArea2(ra, rb, rd) == (c * c + s * s) * SignedArea2(a, b, d)
  {
    CrossOfRotated(c, s, a, b, d);
    assert SignedArea2(ra, rb, rd) == Cross(Point(rb.x - ra.x, rb.y - ra.y), Point(rd.x - ra.x, rd.y - ra.y));
  }

  /** A rotation by (c, s) about any pivot multiplies the signed area by
      c*c + s*s. */
  lemma SignedAreaRotated(a: Point, b: Point, d: Point, c: real, s: real, pivot: Point)
    ensures SignedArea2(RotatePoint(a, c, s, pivot), RotatePoint(b, c, s, pivot), RotatePoint(d, c, s, pivot))
         == (c * c + s * s) * SignedArea2(a, b, d)
  {
    RotatedDifference(a, b, c, s, pivot);
    RotatedDifference(a, d, c, s, pivot);
    SignedAreaOfRotatedDifferences(RotatePoint(a, c, s, pivot), RotatePoint(b, c, s, pivot), RotatePoint(d, c, s, pivot),
                                   a, b, d, c, s);
  }

  /** Triples with the same signed area have the same orientation. */
  lemma OrientOfEqualAreas(p: Point, q: Point, r: Point, a: Point, b: Point, d: Point)
    requires SignedArea2(p, q, r) == SignedArea2(a, b, d)
    ensures Orient2D(p, q, r) == Orient2D(a, b, d)
  {
  }

  /** A factor of one leaves a value unchanged. */
  lemma UnitFactor(k: real, t: real)
    requires k == 1.0
    ensures k * t == t
  {
  }

  /** A proper rotation (c*c + s*s == 1) keeps the orientation of every
      triple. */
  lemma OrientRotated(a: Point, b: Point, d: Point, c: real, s: real, pivot: Point)
    requires c * c + s * s == 1.0
    ensures Orient2D(RotatePoint(a, c, s, pivot), RotatePoint(b, c, s, pivot), RotatePoint(d, c, s, pivot))
         == Orient2D(a, b, d)
  {
    SignedAreaRotated(a, b, d, c, s, pivot);
    UnitFactor(c * c + s * s, SignedArea2(a, b, d));
    OrientOfEqualAreas(RotatePoint(a, c, s, pivot), RotatePoint(b, c, s, pivot), RotatePoint(d, c, s, pivot), a, b, d);
  }

  /** Scaling by (sx, sy) about any centre multiplies the signed area by
      sx*sy. */
  lemma SignedAreaScaled(a: Point, b: Point, d: Point, sx: real, sy: real, center: Point)
    ensures SignedArea2(ScalePoint(a, sx, sy, center), ScalePoint(b, sx, sy, center), ScalePoint(d, sx, sy, center))
         == (sx * sy) * SignedArea2(a, b, d)
  {
    var sa, sb, sd := ScalePoint(a, sx, sy, center), ScalePoint(b, sx, sy, center), ScalePoint(d, sx, sy, center);
    var ux, uy := b.x - a.x, b.y - a.y;
    var wx, wy := d.x - a.x, d.y - a.y;
    assert sb.x - sa.x == sx * ux;
    assert sb.y - sa.y == sy * uy;
    assert sd.x - sa.x == sx * wx;
    assert sd.y - sa.y == sy * wy;
    calc {
      SignedArea2(sa, sb, sd);
      (sx * ux) * (sy * wy) - (sx * wx) * (sy * uy);
      (sx * sy) * (ux * wy - wx * uy);
    }
  }

  /** Scaling keeps the orientation of every triple when sx*sy > 0 and
      reverses it when sx*sy < 0. */
  lemma OrientScaled(a: Point, b: Point, d: Point, sx: real, sy: real, center: Point)
    ensures sx * sy > 0.0 ==>
      Orient2D(ScalePoint(a, sx, sy, center), ScalePoint(b, sx, sy, center), ScalePoint(d, sx, sy, center)) == Orient2D(a, b, d)
    ensures sx * sy < 0.0 ==>
      Orient2D(ScalePoint(a, sx, sy, center), ScalePoint(b, sx, sy, center), ScalePoint(d, sx, sy, center)) == -Orient2D(a, b, d)
  {
    SignedAreaScaled(a, b, d, sx, sy, center);
    var k, t := sx * sy, SignedArea2(a, b, d);
    if k > 0.0 {
      assert t > 0.0 ==> k * t > 0.0;
      assert t < 0.0 ==> k * t < 0.0;
    } else if k < 0.0 {
      assert t > 0.0 ==> k * t < 0.0;
      assert t < 0.0 ==> k * t > 0.0;
    }
  }

  // ---------------------------------------------------------------------------
  // The convexity check under the transforms
  // ---------------------------------------------------------------------------

  /** Translation does not change whether the constructor's check passes. */
  lemma TranslateKeepsCheck(vs: seq<Point>, v: Vec2D)
    requires 3 <= |vs|
    ensures FirstEdgeTest(Translated(vs, v)) == FirstEdgeTest(vs)
  {
    var ws := Translated(vs, v);
    forall i | 2 <= i < |vs|
      ensures Orient2D(ws[0], ws[1], ws[i]) == Orient2D(vs[0], vs[1], vs[i])
    {
      OrientTranslated(vs[0], vs[1], vs[i], v);
    }
  }

  /** A proper rotation does not change whether the check passes. */
  lemma RotateKeepsCheck(vs: seq<Point>, c: real, s: real, pivot: Point)
    requires 3 <= |vs| && c * c + s * s == 1.0
    ensures FirstEdgeTest(Rotated(vs, c, s, pivot)) == FirstEdgeTest(vs)
  {
    var ws := Rotated(vs, c, s, pivot);
    forall i | 2 <= i < |vs|
      ensures Orient2D(ws[0], ws[1], ws[i]) == Orient2D(vs[0], vs[1], vs[i])
    {
      OrientRotated(vs[0], vs[1], vs[i], c, s, pivot);
    }
  }

  /** Scaling with sx*sy > 0 keeps a polygon that passed the check passing;
      with sx*sy < 0 the winding flips and the result would be refused. */
  lemma ScaleAndCheck(vs: seq<Point>, sx: real, sy: real, center: Point)
    requires 3 <= |vs| && FirstEdgeTest(vs)
    ensures sx * sy > 0.0 ==> FirstEdgeTest(Scaled(vs, sx, sy, center))
    ensures sx * sy < 0.0 ==> !FirstEdgeTest(Scaled(vs, sx, sy, center))
  {
    var ws := Scaled(vs, sx, sy, center);
    forall i | 2 <= i < |vs|
      ensures sx * sy > 0.0 ==> Orient2D(ws[0], ws[1], ws[i]) == 1
      ensures sx * sy < 0.0 ==> Orient2D(ws[0], ws[1], ws[i]) == -1
    {
      OrientScaled(vs[0], vs[1], vs[i], sx, sy, center);
    }
    assert sx * sy < 0.0 ==> Orient2D(ws[0], ws[1], ws[2]) == -1;
  }

  // ---------------------------------------------------------------------------
  // What the check lets through and what it refuses
  // ---------------------------------------------------------------------------

  /** A vertex on the line through the first edge makes the check refuse the
      whole list. */
  lemma CollinearRejected(vs: seq<Point>, i: nat)
    requires 2 <= i < |vs| && SignedArea2(vs[0], vs[1], vs[i]) == 0.0
    ensures !FirstEdgeTest(vs)
  {
    assert Orient2D(vs[0], vs[1], vs[i]) == 0;
  }

  /** The self-crossing "bow tie" (0,0), (1,0), (0,1), (1,1) passes the check,
      because every vertex lies left of the first edge, yet it is not a convex
      polygon: (1,1) lies right of the side from (1,0) to (0,1).  Its two
      lobes have opposite signed areas that cancel, so its centroid divides by
      zero. */
  lemma BowtieAccepted()
    ensures var bowtie := [Point(0.0, 0.0), Point(1.0, 0.0), Point(0.0, 1.0), Point(1.0, 1.0)];
      FirstEdgeTest(bowtie) && !StrictlyConvex(bowtie) && CentroidOf(bowtie) == Err(ZeroDivisionError)
  {
    var p0, p1, p2, p3 := Point(0.0, 0.0), Point(1.0, 0.0), Point(0.0, 1.0), Point(1.0, 1.0);
    var bowtie := [p0, p1, p2, p3];
    assert Orient2D(p0, p1, p2) == 1 && Orient2D(p0, p1, p3) == 1;
    assert Next(1, 4) == 2;
    assert Orient2D(bowtie[1], bowtie[Next(1, 4)], bowtie[3]) == -1;
    CentroidProperties.SideSumOfFour(bowtie, Cross);
    assert Cross(p0, p1) == 0.0 && Cross(p1, p2) == 1.0 && Cross(p2, p3) == -1.0 && Cross(p3, p0) == 0.0;
    assert SideSum(bowtie, 4, Cross) == 0.0;
  }

  // ---------------------------------------------------------------------------
  // The transforms themselves
  // ---------------------------------------------------------------------------

  /** `translate(v)` followed by `translate(v * -1)` restores every vertex. */
  lemma TranslateBack(vs: seq<Point>, v: Vec2D)
    ensures Translated(Translated(vs, v), v.Scale(-1.0)) == vs
  {
    var ws := Translated(Translated(vs, v), v.Scale(-1.0));
    forall i | 0 <= i < |vs|
      ensures ws[i] == vs[i]
    {
    }
  }

  function SquaredDistance(p: Point, q: Point): real {
    (p.x - q.x) * (p.x - q.x) + (p.y - q.y) * (p.y - q.y)
  }

  /** A proper rotation keeps every vertex's distance from the pivot. */
  lemma RotateKeepsDistance(p: Point, c: real, s: real, pivot: Point)
    requires c * c + s * s == 1.0
    ensures SquaredDistance(RotatePoint(p, c, s, pivot), pivot) == SquaredDistance(p, pivot)
  {
    var dx, dy := p.x - pivot.x, p.y - pivot.y;
    var r := RotatePoint(p, c, s, pivot);
    assert r.x - pivot.x == c * dx - s * dy;
    assert r.y - pivot.y == s * dx + c * dy;
    calc {
      SquaredDistance(r, pivot);
      (c * dx - s * dy) * (c * dx - s * dy) + (s * dx + c * dy) * (s * dx + c * dy);
      (c * c + s * s) * (dx * dx + dy * dy);
      dx * dx + dy * dy;
    }
  }

  /** Rotating by a full turn (cos = 1, sin = 0) returns every vertex to its
      place. */
  lemma FullTurn(vs: seq<Point>, pivot: Point)
    ensures Rotated(vs, 1.0, 0.0, pivot) == vs
  {
    var ws := Rotated(vs, 1.0, 0.0, pivot);
    forall i | 0 <= i < |vs|
      ensures ws[i] == vs[i]
    {
    }
  }

  /** Rotating by (c, s) and then by (c, -s) multiplies an offset by
      c*c + s*s, on plain coordinates. */
  lemma RotateBackCoordinates(c: real, s: real, dx: real, dy: real)
    ensures c * (c * dx - s * dy) - (-s) * (s * dx + c * dy) == (c * c + s * s) * dx
    ensures (-s) * (c * dx - s * dy) + c * (s * dx + c * dy) == (c * c + s * s) * dy
  {
  }

  /** Rotating a vertex about a pivot and then rotating it back by the
      opposite angle returns it to its place. */
  lemma RotateBack(p: Point, c: real, s: real, pivot: Point)
    requires c * c + s * s == 1.0
    ensures RotatePoint(RotatePoint(p, c, s, pivot), c, -s, pivot) == p
  {
    var dx, dy := p.x - pivot.x, p.y - pivot.y;
    var r := RotatePoint(p, c, s, pivot);
    assert r.x - pivot.x == c * dx - s * dy;
    assert r.y - pivot.y == s * dx + c * dy;
    RotateBackCoordinates(c, s, dx, dy);
  }

  /** `rotate` by an angle and then by its opposite about the same pivot
      restores every vertex. */
  lemma RotatedBack(vs: seq<Point>, c: real, s: real, pivot: Point)
    requires c * c + s * s == 1.0
    ensures Rotated(Rotated(vs, c, s, pivot), c, -s, pivot) == vs
  {
    var ws := Rotated(Rotated(vs, c, s, pivot), c, -s, pivot);
    forall i | 0 <= i < |vs|
      ensures ws[i] == vs[i]
    {
      RotateBack(vs[i], c, s, pivot);
    }
  }

  /** Scaling an offset by k and then by 1 / k gives it back. */
  lemma ScaleBackCoordinate(k: real, d: real, center: real)
    requires k != 0.0
    ensures (1.0 / k) * (k * d + center - center) + center == d + center
  {
    assert (1.0 / k) * (k * d) == ((1.0 / k) * k) * d;
  }

  /** Scaling a vertex about a centre and then by the reciprocal factors
      about the same centre returns it to its place. */
  lemma ScaleBack(p: Point, sx: real, sy: real, center: Point)
    requires sx != 0.0 && sy != 0.0
    ensures ScalePoint(ScalePoint(p, sx, sy, center), 1.0 / sx, 1.0 / sy, center) == p
  {
    ScaleBackCoordinate(sx, p.x - center.x, center.x);
    ScaleBackCoordinate(sy, p.y - center.y, center.y);
  }

  /** Scaling every vertex by (sx, sy) and then by (1 / sx, 1 / sy) about the
      same centre restores every vertex. */
  lemma ScaledBack(vs: seq<Point>, sx: real, sy: real, center: Point)
    requires sx != 0.0 && sy != 0.0
    ensures Scaled(Scaled(vs, sx, sy, center), 1.0 / sx, 1.0 / sy, center) == vs
  {
    var ws := Scaled(Scaled(vs, sx, sy, center), 1.0 / sx, 1.0 / sy, center);
    forall i | 0 <= i < |vs|
      ensures ws[i] == vs[i]
    {
      ScaleBack(vs[i], sx, sy, center);
    }
  }

  /** `scale(1, 1)` leaves every vertex where it was. */
  lemma ScaleByOne(vs: seq<Point>, center: Point)
    ensures Scaled(vs, 1.0, 1.0, center) == vs
  {
    var ws := Scaled(vs, 1.0, 1.0, center);
    forall i | 0 <= i < |vs|
      ensures ws[i] == vs[i]
    {
    }
  }
}

module CentroidProperties {
  import opened Vectors
  import opened ConvexPolygons

  // ---------------------------------------------------------------------------
  // One side's terms at translated points
  // ---------------------------------------------------------------------------

  /** The telescoping part of Cross at translated points. */
  function CrossShift(v: Vec2D, p: Point): real {
    v.x * p.y - v.y * p.x
  }

  lemma CrossAtTranslated(p: Point, q: Point, v: Vec2D)
    ensures Cross(p.Add(v.AsPoint()), q.Add(v.AsPoint()))
         == Cross(p, q) + (CrossShift(v, q) - CrossShift(v, p))
  {
    var d := v.AsPoint();
    assert (p.x + d.x) * (q.y + d.y) == p.x * q.y + p.x * d.y + d.x * q.y + d.x * d.y;
    assert (q.x + d.x) * (p.y + d.y) == q.x * p.y + q.x * d.y + d.x * p.y + d.x * d.y;
  }

  /** The moment gained per unit of shoelace term when the polygon moves by
      d along an axis: a translation by v adds MomentGain(v.x) times each
      shoelace term to the x-moment term, and MomentGain(v.y) times it to the
      y-moment term. */
  function MomentGain(d: real): real {
    3.0 * d
  }

  /** A total m whose every term gained t times the matching term of the
      shoelace total s. */
  function ShiftedMoment(m: real, t: real, s: real): real {
    m + t * s
  }

  /** The telescoping part of MomentX at translated points. */
  function MomentXShift(v: Vec2D, p: Point): real {
    -v.y * p.x * p.x + v.x * p.x * p.y - 2.0 * v.x * v.y * p.x + 2.0 * v.x * v.x * p.y
  }

  /** The telescoping part of MomentY at translated points. */
  function MomentYShift(v: Vec2D, p: Point): real {
    -v.y * p.x * p.y + v.x * p.y * p.y - 2.0 * v.y * v.y * p.x + 2.0 * v.x * v.y * p.y
  }

  /** The x-moment identity on plain coordinates. */
  lemma MomentXShiftIdentity(px: real, py: real, qx: real, qy: real, dx: real, dy: real)
    ensures (px + dx + (qx + dx)) * ((px + dx) * (qy + dy) - (qx + dx) * (py + dy))
         == (px + qx) * (px * qy - qx * py) + 3.0 * dx * (px * qy - qx * py)
            + ((-dy * qx * qx + dx * qx * qy - 2.0 * dx * dy * qx + 2.0 * dx * dx * qy)
               - (-dy * px * px + dx * px * py - 2.0 * dx * dy * px + 2.0 * dx * dx * py))
  {
  }

  /** The y-moment identity on plain coordinates. */
  lemma MomentYShiftIdentity(px: real, py: real, qx: real, qy: real, dx: real, dy: real)
    ensures (py + dy + (qy + dy)) * ((px + dx) * (qy + dy) - (qx + dx) * (py + dy))
         == (py + qy) * (px * qy - qx * py) + 3.0 * dy * (px * qy - qx * py)
            + ((-dy * qx * qy + dx * qy * qy - 2.0 * dy * dy * qx + 2.0 * dx * dy * qy)
               - (-dy * px * py + dx * py * py - 2.0 * dy * dy * px + 2.0 * dx * dy * py))
  {
  }

  lemma MomentXAtTranslated(p: Point, q: Point, v: Vec2D)
    ensures MomentX(p.Add(v.AsPoint()), q.Add(v.AsPoint()))
         == MomentX(p, q) + MomentGain(v.x) * Cross(p, q) + (MomentXShift(v, q) - MomentXShift(v, p))
  {
    MomentXShiftIdentity(p.x, p.y, q.x, q.y, v.x, v.y);
  }

  lemma MomentYAtTranslated(p: Point, q: Point, v: Vec2D)
    ensures MomentY(p.Add(v.AsPoint()), q.Add(v.AsPoint()))
         == MomentY(p, q) + MomentGain(v.y) * Cross(p, q) + (MomentYShift(v, q) - MomentYShift(v, p))
  {
    MomentYShiftIdentity(p.x, p.y, q.x, q.y, v.x, v.y);
  }

  // ---------------------------------------------------------------------------
  // The centroid under translation
  // ---------------------------------------------------------------------------

  /** The first k shoelace terms of the translated loop differ from the
      original ones by a telescoping amount. */
  lemma {:induction false} CrossSumTranslated(vs: seq<Point>, v: Vec2D, k: nat)
    requires 1 <= k <= |vs|
    ensures SideSum(Translated(vs, v), k, Cross)
         == SideSum(vs, k, Cross) + (CrossShift(v, vs[Next(k - 1, |vs|)]) - CrossShift(v, vs[0]))
  {
    var ws := Translated(vs, v);
    var p, q := vs[k - 1], vs[Next(k - 1, |vs|)];
    assert ws[k - 1] == p.Add(v.AsPoint()) && ws[Next(k - 1, |vs|)] == q.Add(v.AsPoint());
    CrossAtTranslated(p, q, v);
    if k > 1 {
      CrossSumTranslated(vs, v, k - 1);
      assert Next(k - 2, |vs|) == k - 1;
    }
  }

  /** The signed area does not change under translation. */
  lemma AreaTranslated(vs: seq<Point>, v: Vec2D)
    requires 1 <= |vs|
    ensures SideSum(Translated(vs, v), |vs|, Cross) == SideSum(vs, |vs|, Cross)
  {
    CrossSumTranslated(vs, v, |vs|);
  }

  /** Term i of the f-sum over ws is term i of the g-sum over vs plus t
      times the shoelace term plus the difference of h at the side's two
      ends. */
  ghost predicate TermShifted(ws: seq<Point>, vs: seq<Point>, i: nat, f: (Point, Point) -> real,
                              g: (Point, Point) -> real, t: real, h: (Vec2D, Point) -> real, v: Vec2D)
    requires |ws| == |vs| && i < |vs|
  {
    f(ws[i], ws[Next(i, |vs|)])
      == g(vs[i], vs[Next(i, |vs|)]) + t * Cross(vs[i], vs[Next(i, |vs|)])
         + (h(v, vs[Next(i, |vs|)]) - h(v, vs[i]))
  }

  /** TermShifted for every side. */
  ghost predicate ShiftedTerms(ws: seq<Point>, vs: seq<Point>, f: (Point, Point) -> real,
                               g: (Point, Point) -> real, t: real, h: (Vec2D, Point) -> real, v: Vec2D)
    requires |ws| == |vs|
  {
    forall i :: 0 <= i < |vs| ==> TermShifted(ws, vs, i, f, g, t, h, v)
  }

  /** The first k terms of two side sums over sequences of equal length,
      when each term of the first is the matching term of the second plus t
      times the shoelace term plus a telescoping difference. */
  lemma {:induction false} SumShift(ws: seq<Point>, vs: seq<Point>, k: nat, f: (Point, Point) -> real,
                                    g: (Point, Point) -> real, t: real, h: (Vec2D, Point) -> real, v: Vec2D)
    requires |ws| == |vs| && 1 <= k <= |vs|
    requires ShiftedTerms(ws, vs, f, g, t, h, v)
    ensures SideSum(ws, k, f) == SideSum(vs, k, g) + t * SideSum(vs, k, Cross)
                                 + (h(v, vs[Next(k - 1, |vs|)]) - h(v, vs[0]))
  {
    var n := |vs|;
    var p, q := vs[k - 1], vs[Next(k - 1, n)];
    if k > 1 {
      SumShift(ws, vs, k - 1, f, g, t, h, v);
      assert Next(k - 2, n) == k - 1;
      assert TermShifted(ws, vs, k - 1, f, g, t, h, v);
      StepCombine(SideSum(ws, k, f), SideSum(ws, k - 1, f), f(ws[k - 1], ws[Next(k - 1, n)]),
                  SideSum(vs, k, g), SideSum(vs, k - 1, g), g(p, q),
                  SideSum(vs, k, Cross), SideSum(vs, k - 1, Cross), Cross(p, q),
                  t, h(v, q), h(v, p), h(v, vs[0]));
    } else {
      assert TermShifted(ws, vs, 0, f, g, t, h, v);
      assert SideSum(ws, 1, f) == f(ws[0], ws[Next(0, n)]);
      assert SideSum(vs, 1, g) == g(p, q);
      assert SideSum(vs, 1, Cross) == Cross(p, q);
    }
  }

  /** Around the whole polygon the telescoping differences cancel. */
  lemma SumShiftClosed(ws: seq<Point>, vs: seq<Point>, f: (Point, Point) -> real,
                       g: (Point, Point) -> real, t: real, h: (Vec2D, Point) -> real, v: Vec2D)
    requires |ws| == |vs| && 1 <= |vs|
    requires ShiftedTerms(ws, vs, f, g, t, h, v)
    ensures SideSum(ws, |vs|, f) == ShiftedMoment(SideSum(vs, |vs|, g), t, SideSum(vs, |vs|, Cross))
  {
    SumShift(ws, vs, |vs|, f, g, t, h, v);
    assert Next(|vs| - 1, |vs|) == 0;
  }

  /** The i-th x-moment term of the translated loop, side by side with
      the original one. */
  lemma MomentXTermTranslated(vs: seq<Point>, v: Vec2D, i: int)
    requires 0 <= i < |vs|
    ensures TermShifted(Translated(vs, v), vs, i, MomentX, MomentX, MomentGain(v.x), MomentXShift, v)
  {
    var ws := Translated(vs, v);
    assert ws[i] == vs[i].Add(v.AsPoint()) && ws[Next(i, |vs|)] == vs[Next(i, |vs|)].Add(v.AsPoint());
    MomentXAtTranslated(vs[i], vs[Next(i, |vs|)], v);
  }

  /** Every x-moment term of the translated loop, side by side with the
      original one. */
  lemma MomentXTermsTranslated(vs: seq<Point>, v: Vec2D)
    ensures ShiftedTerms(Translated(vs, v), vs, MomentX, MomentX, MomentGain(v.x), MomentXShift, v)
  {
    forall i | 0 <= i < |vs|
      ensures TermShifted(Translated(vs, v), vs, i, MomentX, MomentX, MomentGain(v.x), MomentXShift, v)
    {
      MomentXTermTranslated(vs, v, i);
    }
  }

  /** Over the whole loop the translated x-moment sum is the original
      one plus 3 v.x times the shoelace sum. */
  lemma MomentXSumTranslated(vs: seq<Point>, v: Vec2D)
    requires 1 <= |vs|
    ensures SideSum(Translated(vs, v), |vs|, MomentX)
         == ShiftedMoment(SideSum(vs, |vs|, MomentX), MomentGain(v.x), SideSum(vs, |vs|, Cross))
  {
    MomentXTermsTranslated(vs, v);
    SumShiftClosed(Translated(vs, v), vs, MomentX, MomentX, MomentGain(v.x), MomentXShift, v);
  }

  /** The i-th y-moment term of the translated loop, side by side with
      the original one. */
  lemma MomentYTermTranslated(vs: seq<Point>, v: Vec2D, i: int)
    requires 0 <= i < |vs|
    ensures TermShifted(Translated(vs, v), vs, i, MomentY, MomentY, MomentGain(v.y), MomentYShift, v)
  {
    var ws := Translated(vs, v);
    assert ws[i] == vs[i].Add(v.AsPoint()) && ws[Next(i, |vs|)] == vs[Next(i, |vs|)].Add(v.AsPoint());
    MomentYAtTranslated(vs[i], vs[Next(i, |vs|)], v);
  }

  /** Every y-moment term of the translated loop, side by side with the
      original one. */
  lemma MomentYTermsTranslated(vs: seq<Point>, v: Vec2D)
    ensures ShiftedTerms(Translated(vs, v), vs, MomentY, MomentY, MomentGain(v.y), MomentYShift, v)
  {
    forall i | 0 <= i < |vs|
      ensures TermShifted(Translated(vs, v), vs, i, MomentY, MomentY, MomentGain(v.y), MomentYShift, v)
    {
      MomentYTermTranslated(vs, v, i);
    }
  }

  /** Over the whole loop the translated y-moment sum is the original
      one plus 3 v.y times the shoelace sum. */
  lemma MomentYSumTranslated(vs: seq<Point>, v: Vec2D)
    requires 1 <= |vs|
    ensures SideSum(Translated(vs, v), |vs|, MomentY)
         == ShiftedMoment(SideSum(vs, |vs|, MomentY), MomentGain(v.y), SideSum(vs, |vs|, Cross))
  {
    MomentYTermsTranslated(vs, v);
    SumShiftClosed(Translated(vs, v), vs, MomentY, MomentY, MomentGain(v.y), MomentYShift, v);
  }

  /** The arithmetic of one induction step of the moment sums. */
  lemma StepCombine(a1: real, a0: real, m1: real, b1: real, b0: real, m0: real,
                    c1: real, c0: real, cr: real, t: real, hq: real, hk: real, h0: real)
    requires a1 == a0 + m1 && b1 == b0 + m0 && c1 == c0 + cr
    requires m1 == m0 + t * cr + (hq - hk)
    requires a0 == b0 + t * c0 + (hk - h0)
    ensures a1 == b1 + t * c1 + (hq - h0)
  {
    assert t * c1 == t * c0 + t * cr;
  }

  /** Adding MomentGain(d) times the shoelace total to a moment total moves the
      quotient by d. */
  lemma ShiftedQuotient(m: real, s: real, d: real)
    requires s != 0.0
    ensures (m + MomentGain(d) * s) / (6.0 * (0.5 * s)) == m / (6.0 * (0.5 * s)) + d
  {
    var t := 6.0 * (0.5 * s);
    assert MomentGain(d) * s == d * t;
    assert (m + d * t) / t == m / t + (d * t) / t;
    assert (d * t) / t == d;
  }

  /** The centroid computed from totals shifted as a translation by v shifts
      them is the original centroid moved by v. */
  lemma CentroidFromShiftedSums(s: real, mx: real, my: real, s': real, mx': real, my': real, v: Vec2D)
    requires s' == s && mx' == ShiftedMoment(mx, MomentGain(v.x), s) && my' == ShiftedMoment(my, MomentGain(v.y), s)
    ensures CentroidFromSums(s', mx', my').Ok? == CentroidFromSums(s, mx, my).Ok?
    ensures CentroidFromSums(s, mx, my).Ok? ==>
      CentroidFromSums(s', mx', my').value == CentroidFromSums(s, mx, my).value.Add(v.AsPoint())
  {
    if s != 0.0 {
      ShiftedQuotient(mx, s, v.x);
      ShiftedQuotient(my, s, v.y);
    }
  }

  /** `translate(v)` moves the centroid by v, and a polygon whose centroid
      divides by zero still does after translation. */
  lemma CentroidTranslated(vs: seq<Point>, v: Vec2D)
    ensures CentroidOf(Translated(vs, v)).Ok? == CentroidOf(vs).Ok?
    ensures CentroidOf(vs).Ok? ==>
      CentroidOf(Translated(vs, v)).value == CentroidOf(vs).value.Add(v.AsPoint())
  {
    var ws := Translated(vs, v);
    if |vs| == 0 {
      assert ws == [];
    } else {
      AreaTranslated(vs, v);
      MomentXSumTranslated(vs, v);
      MomentYSumTranslated(vs, v);
      CentroidFromShiftedSums(SideSum(vs, |vs|, Cross), SideSum(vs, |vs|, MomentX), SideSum(vs, |vs|, MomentY),
                              SideSum(ws, |vs|, Cross), SideSum(ws, |vs|, MomentX), SideSum(ws, |vs|, MomentY), v);
    }
  }

  /** p balances the moment totals (mx, my) against the shoelace total s:
      three times s times each coordinate gives that coordinate's moment. */
  predicate Balances(p: Point, s: real, mx: real, my: real) {
    p.x * (3.0 * s) == mx && p.y * (3.0 * s) == my
  }

  /** The centroid from the loop totals exists exactly when the shoelace
      total is non-zero, and is then the point whose coordinates times three
      times the shoelace total give back the moment totals. */
  lemma CentroidFromSumsSolves(s: real, mx: real, my: real)
    ensures CentroidFromSums(s, mx, my).Ok? <==> s != 0.0
    ensures CentroidFromSums(s, mx, my).Ok? ==> Balances(CentroidFromSums(s, mx, my).value, s, mx, my)
  {
    assert 6.0 * (0.5 * s) == 3.0 * s;
  }

  /** `centroid()` fails exactly when the signed area is zero; otherwise its
      coordinates balance the moment totals against the shoelace total. */
  lemma CentroidSolvesMoments(vs: seq<Point>)
    ensures CentroidOf(vs).Ok? <==> SideSum(vs, |vs|, Cross) != 0.0
    ensures CentroidOf(vs).Ok? ==>
      Balances(CentroidOf(vs).value, SideSum(vs, |vs|, Cross), SideSum(vs, |vs|, MomentX), SideSum(vs, |vs|, MomentY))
  {
    CentroidFromSumsSolves(SideSum(vs, |vs|, Cross), SideSum(vs, |vs|, MomentX), SideSum(vs, |vs|, MomentY));
  }

  // ---------------------------------------------------------------------------
  // Reference values
  // ---------------------------------------------------------------------------

  /** A side sum over three vertices, written out. */
  lemma SideSumOfThree(vs: seq<Point>, f: (Point, Point) -> real)
    requires |vs| == 3
    ensures SideSum(vs, 3, f) == f(vs[0], vs[1]) + f(vs[1], vs[2]) + f(vs[2], vs[0])
  {
    assert Next(0, 3) == 1 && Next(1, 3) == 2 && Next(2, 3) == 0;
    SideSumStep(vs, 0, f);
    SideSumStep(vs, 1, f);
    SideSumStep(vs, 2, f);
  }

  /** A side sum over four vertices, written out. */
  lemma SideSumOfFour(vs: seq<Point>, f: (Point, Point) -> real)
    requires |vs| == 4
    ensures SideSum(vs, 4, f) == f(vs[0], vs[1]) + f(vs[1], vs[2]) + f(vs[2], vs[3]) + f(vs[3], vs[0])
  {
    assert Next(0, 4) == 1 && Next(1, 4) == 2 && Next(2, 4) == 3 && Next(3, 4) == 0;
    SideSumStep(vs, 0, f);
    SideSumStep(vs, 1, f);
    SideSumStep(vs, 2, f);
    SideSumStep(vs, 3, f);
  }

  /** For a triangle each moment total is the coordinate sum of the three
      vertices times the shoelace total. */
  lemma TriangleMoment(ax: real, ay: real, bx: real, b_y: real, cx: real, cy: real)
    ensures (ax + bx) * (ax * b_y - bx * ay) + (bx + cx) * (bx * cy - cx * b_y) + (cx + ax) * (cx * ay - ax * cy)
         == (ax + bx + cx) * ((ax * b_y - bx * ay) + (bx * cy - cx * b_y) + (cx * ay - ax * cy))
  {
  }

  /** k times the shoelace total over six times half of it is k / 3. */
  lemma ThirdOf(k: real, s: real)
    requires s != 0.0
    ensures k * s / (6.0 * (0.5 * s)) == k / 3.0
  {
    assert 6.0 * (0.5 * s) == 3.0 * s;
    assert k * s / (3.0 * s) == k / 3.0;
  }

  /** The shoelace and moment totals of a triangle: its doubled signed area,
      and that area times the sum of the x (resp. y) coordinates. */
  lemma TriangleTotals(a: Point, b: Point, c: Point)
    ensures SideSum([a, b, c], 3, Cross) == SignedArea2(a, b, c)
    ensures SideSum([a, b, c], 3, MomentX) == (a.x + b.x + c.x) * SignedArea2(a, b, c)
    ensures SideSum([a, b, c], 3, MomentY) == (a.y + b.y + c.y) * SignedArea2(a, b, c)
  {
    var vs := [a, b, c];
    SideSumOfThree(vs, Cross);
    SideSumOfThree(vs, MomentX);
    SideSumOfThree(vs, MomentY);
    TriangleMoment(a.x, a.y, b.x, b.y, c.x, c.y);
    TriangleMoment(a.y, -a.x, b.y, -b.x, c.y, -c.x);
  }

  /** For a triangle the shoelace centroid is the average of the three
      vertices, and it divides by zero exactly when they are collinear. */
  lemma TriangleCentroid(a: Point, b: Point, c: Point)
    ensures CentroidOf([a, b, c]).Ok? <==> SignedArea2(a, b, c) != 0.0
    ensures CentroidOf([a, b, c]).Ok? ==>
      CentroidOf([a, b, c]).value == Point((a.x + b.x + c.x) / 3.0, (a.y + b.y + c.y) / 3.0)
  {
    TriangleTotals(a, b, c);
    var s := SignedArea2(a, b, c);
    if s != 0.0 {
      ThirdOf(a.x + b.x + c.x, s);
      ThirdOf(a.y + b.y + c.y, s);
    }
  }

  /** The axis-parallel rectangle with opposite corners (x0, y0) and
      (x1, y1), listed from (x0, y0) along the x direction first. */
  function Rectangle(x0: real, y0: real, x1: real, y1: real): (vs: seq<Point>)
    ensures |vs| == 4
  {
    [Point(x0, y0), Point(x1, y0), Point(x1, y1), Point(x0, y1)]
  }

  /** The shoelace and moment totals of a rectangle, on plain coordinates:
      corners a, b, c, d with b level with a, c above b and d level with c
      and above a.  The totals are 2 w, 3 (ax + bx) w and 3 (ay + cy) w for
      the signed area w = (bx - ax) (cy - ay). */
  lemma RectangleTotals(ax: real, ay: real, bx: real, b_y: real, cx: real, cy: real, dx: real, dy: real, w: real)
    requires b_y == ay && cx == bx && dy == cy && dx == ax
    requires w == (bx - ax) * (cy - ay)
    ensures (ax * b_y - bx * ay) + (bx * cy - cx * b_y) + (cx * dy - dx * cy) + (dx * ay - ax * dy) == 2.0 * w
    ensures (ax + bx) * (ax * b_y - bx * ay) + (bx + cx) * (bx * cy - cx * b_y)
            + (cx + dx) * (cx * dy - dx * cy) + (dx + ax) * (dx * ay - ax * dy) == 3.0 * (ax + bx) * w
    ensures (ay + b_y) * (ax * b_y - bx * ay) + (b_y + cy) * (bx * cy - cx * b_y)
            + (cy + dy) * (cx * dy - dx * cy) + (dy + ay) * (dx * ay - ax * dy) == 3.0 * (ay + cy) * w
  {
  }

  /** 3 k w over six times half of 2 w is k / 2. */
  lemma HalfOf(k: real, w: real)
    requires w != 0.0
    ensures 3.0 * k * w / (6.0 * (0.5 * (2.0 * w))) == k / 2.0
  {
    assert 6.0 * (0.5 * (2.0 * w)) == 6.0 * w;
    assert 3.0 * k * w == (k / 2.0) * (6.0 * w);
  }

  /** A rectangle's centroid is the midpoint of its diagonal, and a rectangle
      with no width or no height divides by zero.  For (0,0), (2,0), (2,2),
      (0,2) this is (1,1). */
  lemma RectangleCentroid(x0: real, y0: real, x1: real, y1: real)
    ensures CentroidOf(Rectangle(x0, y0, x1, y1)).Ok? <==> x0 != x1 && y0 != y1
    ensures CentroidOf(Rectangle(x0, y0, x1, y1)).Ok? ==>
      CentroidOf(Rectangle(x0, y0, x1, y1)).value == Point((x0 + x1) / 2.0, (y0 + y1) / 2.0)
  {
    var vs := Rectangle(x0, y0, x1, y1);
    var w := (x1 - x0) * (y1 - y0);
    SideSumOfFour(vs, Cross);
    SideSumOfFour(vs, MomentX);
    SideSumOfFour(vs, MomentY);
    RectangleTotals(vs[0].x, vs[0].y, vs[1].x, vs[1].y, vs[2].x, vs[2].y, vs[3].x, vs[3].y, w);
    assert SideSum(vs, 4, Cross) == 2.0 * w;
    assert SideSum(vs, 4, MomentX) == 3.0 * (x0 + x1) * w;
    assert SideSum(vs, 4, MomentY) == 3.0 * (y0 + y1) * w;
    assert w == 0.0 <==> x0 == x1 || y0 == y1;
    if w != 0.0 {
      HalfOf(x0 + x1, w);
      HalfOf(y0 + y1, w);
    }
  }
}
