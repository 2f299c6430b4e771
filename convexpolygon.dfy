/** The convex-polygon kernel: the orientation test, construction with its
    convexity check, the shoelace centroid, the three affine transforms and
    the Separating-Axis overlap test, over exact real coordinates. */
module ConvexPolygons {
  import opened Vectors

  /** The exceptions the kernel raises. */
  datatype Error =
    | ValueError          // construction refused: "Points do not form a convex polygon"
    | ZeroDivisionError   // centroid of a polygon whose signed area is zero

  datatype Result<T> = Ok(value: T) | Err(error: Error)

  datatype Option<T> = None | Some(value: T)

  /** What a transform does: completes, or raises before changing anything. */
  datatype Outcome = Pass | Fail(error: Error)

  // ---------------------------------------------------------------------------
  // orient2d
  // ---------------------------------------------------------------------------

  /** The index after i on a closed loop of n vertices: 0 after the last. */
  function Next(i: nat, n: nat): (j: nat)
    requires i < n
    ensures j < n
  {
    if i + 1 == n then 0 else i + 1
  }

  /** Twice the signed area of the triangle a, b, c. */
  function SignedArea2(a: Point, b: Point, c: Point): real {
    (b.x - a.x) * (c.y - a.y) - (c.x - a.x) * (b.y - a.y)
  }

  /** 1 when c is strictly left of the ray a->b (counter-clockwise turn),
      -1 when strictly right, 0 when the three points are collinear. */
  function Orient2D(a: Point, b: Point, c: Point): (r: int)
    ensures r == 1 || r == -1 || r == 0
    ensures r == 1 <==> SignedArea2(a, b, c) > 0.0
    ensures r == -1 <==> SignedArea2(a, b, c) < 0.0
  {
    var s := SignedArea2(a, b, c);
    if s > 0.0 then 1 else if s < 0.0 then -1 else 0
  }

  /** Swapping the last two points reverses the orientation. */
  lemma OrientSwapLast(a: Point, b: Point, c: Point)
    ensures Orient2D(a, c, b) == -Orient2D(a, b, c)
  {
    assert SignedArea2(a, c, b) == -SignedArea2(a, b, c);
  }

  /** Swapping the first two points reverses the orientation. */
  lemma OrientSwapFirst(a: Point, b: Point, c: Point)
    ensures Orient2D(b, a, c) == -Orient2D(a, b, c)
  {
    assert SignedArea2(b, a, c) == -SignedArea2(a, b, c);
  }

  // ---------------------------------------------------------------------------
  // Convexity check run by the constructor
  // ---------------------------------------------------------------------------

  /** What the constructor's check accepts: every vertex from index 2 on lies
      strictly left of the FIRST edge, from vs[0] to vs[1].  No other edge is
      tested. */
  predicate FirstEdgeTest(vs: seq<Point>)
    requires 2 <= |vs|
  {
    forall i :: 2 <= i < |vs| ==> Orient2D(vs[0], vs[1], vs[i]) == 1
  }

  /** Strict convexity with counter-clockwise winding: for every side from
      vs[i] to vs[i+1 mod n], every other vertex lies strictly left of it. */
  predicate StrictlyConvex(vs: seq<Point>)
    requires 3 <= |vs|
  {
    forall i, j :: 0 <= i < |vs| && 0 <= j < |vs| && j != i && j != Next(i, |vs|) ==>
      Orient2D(vs[i], vs[Next(i, |vs|)], vs[j]) == 1
  }

  /** The convexity loop of the constructor, as written: the outer loop runs
      once per vertex, and each pass repeats the same test of every vertex
      from index 2 on against the first edge, refusing at the first vertex
      that is not strictly left of it.  The n passes decide exactly what one
      pass decides. */
  method CheckConvexity(verts: seq<Point>) returns (ok: bool)
    requires 3 <= |verts|
    ensures ok == FirstEdgeTest(verts)
  {
    var p := 0;
    while p < |verts|
      invariant 0 <= p <= |verts|
      invariant 0 < p ==> FirstEdgeTest(verts)
    {
      var a := verts[0];
      var b := verts[1];
      var i := 2;
      while i < |verts|
        invariant 2 <= i <= |verts|
        invariant forall k :: 2 <= k < i ==> Orient2D(a, b, verts[k]) == 1
      {
        var orient := Orient2D(a, b, verts[i]);
        if orient == -1 || orient == 0 {
          return false;
        }
        i := i + 1;
      }
      p := p + 1;
    }
    return true;
  }

  /** Every strictly convex counter-clockwise polygon passes the check. */
  lemma ConvexAccepted(vs: seq<Point>)
    requires 3 <= |vs| && StrictlyConvex(vs)
    ensures FirstEdgeTest(vs)
  {
    forall i | 2 <= i < |vs|
      ensures Orient2D(vs[0], vs[1], vs[i]) == 1
    {
      assert Orient2D(vs[0], vs[Next(0, |vs|)], vs[i]) == 1;
    }
  }

  /** The vertices in the opposite order. */
  function Reverse(vs: seq<Point>): (rs: seq<Point>)
    ensures |rs| == |vs|
    ensures forall i :: 0 <= i < |vs| ==> rs[i] == vs[|vs| - 1 - i]
  {
    seq(|vs|, i requires 0 <= i < |vs| => vs[|vs| - 1 - i])
  }

  /** The same strictly convex polygon listed clockwise is refused: the
      check accepts one winding only. */
  lemma {:induction false} ClockwiseRejected(vs: seq<Point>)
    requires 3 <= |vs| && StrictlyConvex(vs)
    ensures !FirstEdgeTest(Reverse(vs))
  {
    var n := |vs|;
    var rs := Reverse(vs);
    assert Orient2D(vs[n - 2], vs[Next(n - 2, n)], vs[0]) == 1;
    OrientSwapFirst(vs[n - 2], vs[n - 1], vs[0]);
    assert rs[0] == vs[n - 1] && rs[1] == vs[n - 2] && rs[n - 1] == vs[0];
    assert Orient2D(rs[0], rs[1], rs[n - 1]) == -1;
  }

  // ---------------------------------------------------------------------------
  // Edges
  // ---------------------------------------------------------------------------

  /** The edge list derived from the vertices: edge i is built as
      `Vec2D(verts[i+1 mod n], verts[i])`, which is verts[i] minus
      verts[i+1 mod n], so it points from the next vertex back to vertex i. */
  function Edges(vs: seq<Point>): (es: seq<Vec2D>)
    ensures |es| == |vs|
    ensures forall i :: 0 <= i < |vs| ==> vs[Next(i, |vs|)].Add(es[i].AsPoint()) == vs[i]
  {
    seq(|vs|, i requires 0 <= i < |vs| => Between(vs[Next(i, |vs|)], vs[i]))
  }

  /** The edge-building loop shared by the constructor, rotate and scale,
      with its special case for the last vertex. */
  method BuildEdges(verts: seq<Point>) returns (edges: seq<Vec2D>)
    ensures edges == Edges(verts)
  {
    var n := |verts|;
    edges := [];
    var i := 0;
    while i < n
      invariant 0 <= i <= n
      invariant |edges| == i
      invariant forall k :: 0 <= k < i ==> edges[k] == Between(verts[Next(k, n)], verts[k])
    {
      var vector;
      if i == n - 1 {
        vector := Between(verts[0], verts[i]);
      } else {
        vector := Between(verts[i + 1], verts[i]);
      }
      edges := edges + [vector];
      i := i + 1;
    }
  }

  /** The vector sum of a list of vectors. */
  function SumVec(es: seq<Vec2D>): Vec2D {
    if es == [] then Vec2D(0.0, 0.0) else SumVec(es[..|es| - 1]).Add(es[|es| - 1])
  }

  /** The first k edges of the closed loop add up to vs[0] - vs[k]. */
  lemma {:induction false} EdgePrefixSum(vs: seq<Point>, k: nat)
    requires 1 <= k < |vs|
    ensures SumVec(Edges(vs)[..k]) == Between(vs[k], vs[0])
  {
    var es := Edges(vs);
    assert es[..k][..k - 1] == es[..k - 1];
    assert es[k - 1] == Between(vs[k], vs[k - 1]);
    if k > 1 {
      EdgePrefixSum(vs, k - 1);
    } else {
      assert es[..0] == [];
    }
  }

  /** The edges close up: their sum is the zero vector. */
  lemma EdgesClose(vs: seq<Point>)
    requires 2 <= |vs|
    ensures SumVec(Edges(vs)) == Vec2D(0.0, 0.0)
  {
    var n := |vs|;
    var es := Edges(vs);
    EdgePrefixSum(vs, n - 1);
    assert es[..n][..n - 1] == es[..n - 1];
    assert es[..n] == es;
    assert es[n - 1] == Between(vs[0], vs[n - 1]);
  }

  // ---------------------------------------------------------------------------
  // Centroid
  // ---------------------------------------------------------------------------

  /** Sum of f over the first k sides of the closed vertex loop, side i going
      from vs[i] to vs[i+1 mod n]. */
  function SideSum(vs: seq<Point>, k: nat, f: (Point, Point) -> real): real
    requires k <= |vs|
  {
    if k == 0 then 0.0 else SideSum(vs, k - 1, f) + f(vs[k - 1], vs[Next(k - 1, |vs|)])
  }

  lemma SideSumStep(vs: seq<Point>, k: nat, f: (Point, Point) -> real)
    requires k < |vs|
    ensures SideSum(vs, k + 1, f) == SideSum(vs, k, f) + f(vs[k], vs[Next(k, |vs|)])
  {
  }

  /** One accumulator loop of `centroid()`: adds f of every side, taking
      vertex 0 as the successor of the last vertex. */
  method SideTotal(verts: seq<Point>, f: (Point, Point) -> real) returns (total: real)
    ensures total == SideSum(verts, |verts|, f)
  {
    var n := |verts|;
    total := 0.0;
    var i := 0;
    while i < n
      invariant 0 <= i <= n
      invariant total == SideSum(verts, i, f)
    {
      var vertexMult;
      if i + 1 == n {
        assert Next(i, n) == 0;
        vertexMult := f(verts[i], verts[0]);
      } else {
        assert Next(i, n) == i + 1;
        vertexMult := f(verts[i], verts[i + 1]);
      }
      SideSumStep(verts, i, f);
      total := total + vertexMult;
      i := i + 1;
    }
  }

  /** The shoelace term of one side. */
  function Cross(p: Point, q: Point): real {
    p.x * q.y - q.x * p.y
  }

  /** The x-moment term of one side. */
  function MomentX(p: Point, q: Point): real {
    (p.x + q.x) * Cross(p, q)
  }

  /** The y-moment term of one side. */
  function MomentY(p: Point, q: Point): real {
    (p.y + q.y) * Cross(p, q)
  }

  /** The centroid from the three loop totals: with a = 1/2 * the sum of
      Cross, cx = (sum of MomentX) / (6a) and cy = (sum of MomentY) / (6a);
      zero signed area divides by zero. */
  function CentroidFromSums(crossSum: real, momentXSum: real, momentYSum: real): Result<Point> {
    var a := 0.5 * crossSum;
    if 6.0 * a == 0.0 then Err(ZeroDivisionError)
    else Ok(Point(momentXSum / (6.0 * a), momentYSum / (6.0 * a)))
  }

  /** The centroid of the vertex loop by the shoelace formula. */
  function CentroidOf(vs: seq<Point>): Result<Point> {
    CentroidFromSums(SideSum(vs, |vs|, Cross), SideSum(vs, |vs|, MomentX), SideSum(vs, |vs|, MomentY))
  }

  // ---------------------------------------------------------------------------
  // Transforms of the vertex list
  // ---------------------------------------------------------------------------

  /** Every vertex moved by v. */
  function Translated(vs: seq<Point>, v: Vec2D): (ws: seq<Point>)
    ensures |ws| == |vs|
    ensures forall i :: 0 <= i < |vs| ==> Between(vs[i], ws[i]) == v
  {
    seq(|vs|, i requires 0 <= i < |vs| => vs[i].Add(v.AsPoint()))
  }

  /** One vertex rotated about a pivot by the angle whose cosine and sine are
      c and s. */
  function RotatePoint(p: Point, c: real, s: real, pivot: Point): Point {
    Point(c * (p.x - pivot.x) - s * (p.y - pivot.y) + pivot.x,
          s * (p.x - pivot.x) + c * (p.y - pivot.y) + pivot.y)
  }

  function Rotated(vs: seq<Point>, c: real, s: real, pivot: Point): (ws: seq<Point>)
    ensures |ws| == |vs|
  {
    seq(|vs|, i requires 0 <= i < |vs| => RotatePoint(vs[i], c, s, pivot))
  }

  /** One vertex's offset from the centre scaled by sx along x and sy along y. */
  function ScalePoint(p: Point, sx: real, sy: real, center: Point): Point {
    Point(sx * (p.x - center.x) + center.x, sy * (p.y - center.y) + center.y)
  }

  function Scaled(vs: seq<Point>, sx: real, sy: real, center: Point): (ws: seq<Point>)
    ensures |ws| == |vs|
  {
    seq(|vs|, i requires 0 <= i < |vs| => ScalePoint(vs[i], sx, sy, center))
  }

  /** The pivot rotate uses: the one given, else the centroid. */
  function ResolvePivot(pivot: Option<Point>, vs: seq<Point>): Result<Point> {
    if pivot.Some? then Ok(pivot.value) else CentroidOf(vs)
  }

  /** Translation does not change the edges: each is a difference of two
      vertices moved by the same vector. */
  lemma EdgesTranslated(vs: seq<Point>, v: Vec2D)
    ensures Edges(Translated(vs, v)) == Edges(vs)
  {
    var ws := Translated(vs, v);
    forall i | 0 <= i < |vs|
      ensures Edges(ws)[i] == Edges(vs)[i]
    {
      var j := Next(i, |vs|);
      assert ws[i] == vs[i].Add(v.AsPoint()) && ws[j] == vs[j].Add(v.AsPoint());
    }
  }

  // ---------------------------------------------------------------------------
  // Separating-axis overlap test
  // ---------------------------------------------------------------------------

  /** The axis tested for an edge: the edge turned a quarter turn,
      (-e.y, e.x), perpendicular to it. */
  function Normal(e: Vec2D): Vec2D {
    Vec2D(-e.y, e.x)
  }

  /** The tested axis is perpendicular to its edge and as long as it. */
  lemma NormalPerpendicular(e: Vec2D)
    ensures Normal(e).Dot(e) == 0.0
    ensures Normal(e).Dot(Normal(e)) == e.Dot(e)
  {
  }

  /** The projection of every vertex onto an axis. */
  function Projections(vs: seq<Point>, axis: Vec2D): (ps: seq<real>)
    ensures |ps| == |vs|
  {
    seq(|vs|, i requires 0 <= i < |vs| => Vec2D(vs[i].x, vs[i].y).Dot(axis))
  }

  /** The smallest element of a non-empty list. */
  function SeqMin(s: seq<real>): (m: real)
    requires |s| > 0
    ensures m in s
    ensures forall x :: x in s ==> m <= x
  {
    if |s| == 1 then s[0]
    else
      assert forall x :: x in s ==> x == s[0] || x in s[1..];
      var rest := SeqMin(s[1..]);
      if s[0] <= rest then s[0] else rest
  }

  /** The largest element of a non-empty list. */
  function SeqMax(s: seq<real>): (m: real)
    requires |s| > 0
    ensures m in s
    ensures forall x :: x in s ==> x <= m
  {
    if |s| == 1 then s[0]
    else
      assert forall x :: x in s ==> x == s[0] || x in s[1..];
      var rest := SeqMax(s[1..]);
      if rest <= s[0] then s[0] else rest
  }

  /** The projection ranges of the two vertex lists on the axis are strictly
      disjoint; ranges that touch are not separated. */
  predicate Separates(axis: Vec2D, va: seq<Point>, vb: seq<Point>)
    requires |va| > 0 && |vb| > 0
  {
    var pa := Projections(va, axis);
    var pb := Projections(vb, axis);
    SeqMax(pa) < SeqMin(pb) || SeqMax(pb) < SeqMin(pa)
  }

  /** Separation read off the projection lists once they are computed. */
  lemma SeparatesByRanges(axis: Vec2D, va: seq<Point>, vb: seq<Point>, pa: seq<real>, pb: seq<real>)
    requires |va| > 0 && |vb| > 0
    requires pa == Projections(va, axis) && pb == Projections(vb, axis)
    ensures Separates(axis, va, vb) <==> SeqMax(pa) < SeqMin(pb) || SeqMax(pb) < SeqMin(pa)
  {
  }

  /** The outcome of `A & B` for edge lists ea and eb: no edge of either
      polygon yields a separating axis. */
  predicate Overlap(va: seq<Point>, ea: seq<Vec2D>, vb: seq<Point>, eb: seq<Vec2D>)
    requires |va| > 0 && |vb| > 0
  {
    forall e :: e in ea + eb ==> !Separates(Normal(e), va, vb)
  }

  /** Overlap of two vertex lists through their derived edges. */
  predicate OverlapOfDerivedEdges(va: seq<Point>, vb: seq<Point>)
    requires |va| > 0 && |vb| > 0
  {
    Overlap(va, Edges(va), vb, Edges(vb))
  }

  // ---------------------------------------------------------------------------
  // The polygon object
  // ---------------------------------------------------------------------------

  class ConvexPolygon {
    var nverts: int
    var verts: seq<Point>
    var edges: seq<Vec2D>

    /** The object invariant every operation keeps: the vertex count is the
        length of the vertex list, at least 3, and the edge list is the one
        derived from the current vertices. */
    ghost predicate Valid()
      reads this
    {
      nverts == |verts| && 3 <= nverts && edges == Edges(verts)
    }

    /** The part of `__init__` after the size guard: keep the points and
        derive the edge list. */
    constructor (points: seq<Point>)
      requires 3 <= |points|
      ensures Valid() && verts == points
    {
      var es := BuildEdges(points);
      nverts := |points|;
      verts := points;
      edges := es;
    }

    /** `ConvexPolygon(points)`: refuses fewer than 3 points, builds the
        edges, then refuses unless the convexity check passes. */
    static method Create(points: seq<Point>) returns (r: Result<ConvexPolygon>)
      ensures r.Ok? <==> 3 <= |points| && FirstEdgeTest(points)
      ensures r.Err? ==> r.error == ValueError
      ensures r.Ok? ==> fresh(r.value) && r.value.Valid() && r.value.verts == points
    {
      if |points| < 3 {
        return Err(ValueError);
      }
      var polygon := new ConvexPolygon(points);
      var ok := CheckConvexity(polygon.verts);
      if !ok {
        return Err(ValueError);
      }
      return Ok(polygon);
    }

    /** `translate(v)`: moves every vertex by v.  The edge list is not
        rebuilt, and stays correct because translation does not change it. */
    method Translate(v: Vec2D)
      requires Valid()
      modifies this
      ensures Valid()
      ensures nverts == old(nverts) && edges == old(edges)
      ensures verts == Translated(old(verts), v)
    {
      var newVerts := [];
      var i := 0;
      while i < |verts|
        invariant 0 <= i <= |verts|
        invariant |newVerts| == i
        invariant forall k :: 0 <= k < i ==> newVerts[k] == verts[k].Add(v.AsPoint())
      {
        var n := verts[i].Add(v.AsPoint());
        newVerts := newVerts + [n];
        i := i + 1;
      }
      EdgesTranslated(verts, v);
      verts := newVerts;
    }

    /** `centroid()`: the three accumulator loops of the shoelace formula,
        with the division by 6a after the second and the third. */
    method Centroid() returns (r: Result<Point>)
      requires Valid()
      ensures r == CentroidOf(verts)
    {
      var a := SideTotal(verts, Cross);
      a := a * 0.5;
      var cx := SideTotal(verts, MomentX);
      if 6.0 * a == 0.0 {
        return Err(ZeroDivisionError);
      }
      cx := cx / (6.0 * a);
      var cy := SideTotal(verts, MomentY);
      cy := cy / (6.0 * a);
      return Ok(Point(cx, cy));
    }

    /** `rotate(angle, pivot)` with c = cos(angle) and s = sin(angle): rotates
        every vertex about the pivot (the centroid when none is given) and
        rebuilds the edges.  A centroid that divides by zero raises before
        anything changes. */
    method Rotate(c: real, s: real, pivot: Option<Point>) returns (r: Outcome)
      requires Valid()
      modifies this
      ensures Valid() && nverts == old(nverts)
      ensures var p := ResolvePivot(pivot, old(verts));
        if p.Ok? then r == Pass && verts == Rotated(old(verts), c, s, p.value)
        else r == Fail(p.error) && verts == old(verts) && edges == old(edges)
    {
      var p: Point;
      if pivot.None? {
        var centroid := Centroid();
        if centroid.Err? {
          return Fail(centroid.error);
        }
        p := centroid.value;
      } else {
        p := pivot.value;
      }
      var newVerts := [];
      var i := 0;
      while i < |verts|
        invariant 0 <= i <= |verts|
        invariant |newVerts| == i
        invariant forall k :: 0 <= k < i ==> newVerts[k] == RotatePoint(verts[k], c, s, p)
      {
        newVerts := newVerts + [RotatePoint(verts[i], c, s, p)];
        i := i + 1;
      }
      assert ResolvePivot(pivot, verts) == Ok(p);
      assert newVerts == Rotated(verts, c, s, p);
      verts := newVerts;
      edges := BuildEdges(verts);
      return Pass;
    }

    /** `scale(sx, sy)`: scales every vertex's offset from a freshly computed
        centroid and rebuilds the edges.  A centroid that divides by zero
        raises before anything changes. */
    method Scale(sx: real, sy: real) returns (r: Outcome)
      requires Valid()
      modifies this
      ensures Valid() && nverts == old(nverts)
      ensures var center := CentroidOf(old(verts));
        if center.Ok? then r == Pass && verts == Scaled(old(verts), sx, sy, center.value)
        else r == Fail(center.error) && verts == old(verts) && edges == old(edges)
    {
      var centroid := Centroid();
      if centroid.Err? {
        return Fail(centroid.error);
      }
      var center := centroid.value;
      var newVerts := [];
      var i := 0;
      while i < |verts|
        invariant 0 <= i <= |verts|
        invariant |newVerts| == i
        invariant forall k :: 0 <= k < i ==> newVerts[k] == ScalePoint(verts[k], sx, sy, center)
      {
        newVerts := newVerts + [ScalePoint(verts[i], sx, sy, center)];
        i := i + 1;
      }
      verts := newVerts;
      edges := BuildEdges(verts);
      return Pass;
    }

    /** `self & other`, on the two polygons' current vertex and edge
        lists. */
    method Intersects(other: ConvexPolygon) returns (r: bool)
      requires Valid() && other.Valid()
      ensures r == Overlap(verts, edges, other.verts, other.edges)
    {
      r := OverlapTest(verts, edges, other.verts, other.edges);
    }
  }

  /** The body of `A & B`: for each edge of A and then of B, projects all
      vertices of both polygons onto the edge's normal and answers false as
      soon as the two ranges are strictly disjoint; true when no edge
      separates them. */
  method OverlapTest(va: seq<Point>, ea: seq<Vec2D>, vb: seq<Point>, eb: seq<Vec2D>) returns (r: bool)
    requires |va| > 0 && |vb| > 0
    ensures r == Overlap(va, ea, vb, eb)
  {
    var totalEdges := ea + eb;
    var k := 0;
    while k < |totalEdges|
      invariant 0 <= k <= |totalEdges|
      invariant forall j :: 0 <= j < k ==> !Separates(Normal(totalEdges[j]), va, vb)
    {
      var edge := totalEdges[k];
      var orthog := Vec2D(-edge.y, edge.x);
      assert orthog == Normal(edge);
      var polyAProjs := ProjectAll(va, orthog);
      var polyBProjs := ProjectAll(vb, orthog);
      var minA := SeqMin(polyAProjs);
      var maxA := SeqMax(polyAProjs);
      var minB := SeqMin(polyBProjs);
      var maxB := SeqMax(polyBProjs);
      SeparatesByRanges(orthog, va, vb, polyAProjs, polyBProjs);
      if maxA < minB || maxB < minA {
        assert edge in totalEdges;
        return false;
      }
      k := k + 1;
    }
    forall e | e in totalEdges
      ensures !Separates(Normal(e), va, vb)
    {
      var j :| 0 <= j < |totalEdges| && totalEdges[j] == e;
    }
    return true;
  }

  /** One projection loop of `A & B`: the dot product of every vertex, as a
      vector, with the axis. */
  method ProjectAll(vs: seq<Point>, axis: Vec2D) returns (ps: seq<real>)
    ensures ps == Projections(vs, axis)
  {
    ps := [];
    var i := 0;
    while i < |vs|
      invariant 0 <= i <= |vs|
      invariant ps == Projections(vs, axis)[..i]
    {
      var vec := Vec2D(vs[i].x, vs[i].y);
      ps := ps + [vec.Dot(axis)];
      i := i + 1;
    }
  }
}
