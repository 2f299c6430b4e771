/** Properties of `A & B`, the Separating-Axis overlap test: what a strict
    separation on one axis means for the vertices, symmetry in the two
    operands, a polygon against itself, invariance under a common
    translation, and worked cases with unit squares. */
module OverlapProperties {
  import opened Vectors
  import opened ConvexPolygons

  // ---------------------------------------------------------------------------
  // One axis
  // ---------------------------------------------------------------------------

  /** Every vertex of va projects strictly below every vertex of vb. */
  ghost predicate AllBelow(axis: Vec2D, va: seq<Point>, vb: seq<Point>) {
    var pa, pb := Projections(va, axis), Projections(vb, axis);
    forall i, j :: 0 <= i < |pa| && 0 <= j < |pb| ==> pa[i] < pb[j]
  }

  /** The min/max test on one axis says exactly that one polygon's vertices
      all project strictly below the other's. */
  lemma SeparatesMeans(axis: Vec2D, va: seq<Point>, vb: seq<Point>)
    requires |va| > 0 && |vb| > 0
    ensures Separates(axis, va, vb) <==> AllBelow(axis, va, vb) || AllBelow(axis, vb, va)
  {
    var pa, pb := Projections(va, axis), Projections(vb, axis);
    var maxA, minA, maxB, minB := SeqMax(pa), SeqMin(pa), SeqMax(pb), SeqMin(pb);
    var iMax :| 0 <= iMax < |pa| && pa[iMax] == maxA;
    var iMin :| 0 <= iMin < |pa| && pa[iMin] == minA;
    var jMax :| 0 <= jMax < |pb| && pb[jMax] == maxB;
    var jMin :| 0 <= jMin < |pb| && pb[jMin] == minB;
    if maxA < minB {
      forall i, j | 0 <= i < |pa| && 0 <= j < |pb|
        ensures pa[i] < pb[j]
      {
        assert pa[i] in pa && pb[j] in pb;
      }
    }
    if maxB < minA {
      forall i, j | 0 <= i < |pb| && 0 <= j < |pa|
        ensures pb[i] < pa[j]
      {
        assert pb[i] in pb && pa[j] in pa;
      }
    }
    if AllBelow(axis, va, vb) {
      assert pa[iMax] < pb[jMin];
    }
    if AllBelow(axis, vb, va) {
      assert pb[jMax] < pa[iMin];
    }
  }

  /** When `A & B` is False, some axis has every vertex of one polygon
      strictly on one side of every vertex of the other. */
  lemma SeparatedWhenFalse(va: seq<Point>, ea: seq<Vec2D>, vb: seq<Point>, eb: seq<Vec2D>)
    requires |va| > 0 && |vb| > 0
    requires !Overlap(va, ea, vb, eb)
    ensures exists e :: e in ea + eb && (AllBelow(Normal(e), va, vb) || AllBelow(Normal(e), vb, va))
  {
    var e :| e in ea + eb && Separates(Normal(e), va, vb);
    SeparatesMeans(Normal(e), va, vb);
  }

  // ---------------------------------------------------------------------------
  // Symmetry and reflexivity
  // ---------------------------------------------------------------------------

  /** `A & B == B & A` for any two vertex and edge lists. */
  lemma OverlapSymmetric(va: seq<Point>, ea: seq<Vec2D>, vb: seq<Point>, eb: seq<Vec2D>)
    requires |va| > 0 && |vb| > 0
    ensures Overlap(va, ea, vb, eb) == Overlap(vb, eb, va, ea)
  {
    forall e
      ensures e in ea + eb <==> e in eb + ea
    {
      assert e in ea + eb <==> e in ea || e in eb;
      assert e in eb + ea <==> e in eb || e in ea;
    }
  }

  /** `A & B == B & A` for polygons whose edges are derived from their
      vertices. */
  lemma IntersectSymmetric(va: seq<Point>, vb: seq<Point>)
    requires |va| > 0 && |vb| > 0
    ensures OverlapOfDerivedEdges(va, vb) == OverlapOfDerivedEdges(vb, va)
  {
    OverlapSymmetric(va, Edges(va), vb, Edges(vb));
  }

  /** A polygon overlaps itself, whatever its edge list. */
  lemma SelfOverlap(va: seq<Point>, ea: seq<Vec2D>)
    requires |va| > 0
    ensures Overlap(va, ea, va, ea)
  {
    forall e | e in ea + ea
      ensures !Separates(Normal(e), va, va)
    {
      var pa := Projections(va, Normal(e));
      assert SeqMin(pa) <= SeqMax(pa) by {
        assert pa[0] in pa;
      }
    }
  }

  // ---------------------------------------------------------------------------
  // A common translation
  // ---------------------------------------------------------------------------

  /** Translating by v adds the same amount to every projection. */
  lemma ProjectionsTranslated(vs: seq<Point>, v: Vec2D, axis: Vec2D)
    ensures forall i :: 0 <= i < |vs| ==>
      Projections(Translated(vs, v), axis)[i] == Projections(vs, axis)[i] + v.Dot(axis)
  {
    var ws := Translated(vs, v);
    forall i | 0 <= i < |vs|
      ensures Projections(ws, axis)[i] == Projections(vs, axis)[i] + v.Dot(axis)
    {
      assert ws[i] == vs[i].Add(v.AsPoint());
    }
  }

  /** Strict order between the two vertex lists survives a common
      translation. */
  lemma AllBelowTranslated(axis: Vec2D, va: seq<Point>, vb: seq<Point>, v: Vec2D)
    ensures AllBelow(axis, Translated(va, v), Translated(vb, v)) == AllBelow(axis, va, vb)
  {
    ProjectionsTranslated(va, v, axis);
    ProjectionsTranslated(vb, v, axis);
  }

  /** Moving both polygons by the same vector, as `translate` does, with
      their edge lists left as they are, does not change `A & B`. */
  lemma OverlapTranslated(va: seq<Point>, ea: seq<Vec2D>, vb: seq<Point>, eb: seq<Vec2D>, v: Vec2D)
    requires |va| > 0 && |vb| > 0
    ensures Overlap(Translated(va, v), ea, Translated(vb, v), eb) == Overlap(va, ea, vb, eb)
  {
    var wa, wb := Translated(va, v), Translated(vb, v);
    forall e | e in ea + eb
      ensures Separates(Normal(e), wa, wb) == Separates(Normal(e), va, vb)
    {
      SeparatesMeans(Normal(e), va, vb);
      SeparatesMeans(Normal(e), wa, wb);
      AllBelowTranslated(Normal(e), va, vb, v);
      AllBelowTranslated(Normal(e), vb, va, v);
    }
  }

  // ---------------------------------------------------------------------------
  // Unit squares
  // ---------------------------------------------------------------------------

  /** The unit square with its lower-left corner at (x, y), counter-clockwise. */
  function UnitSquare(x: real, y: real): (vs: seq<Point>)
    ensures |vs| == 4
  {
    [Point(x, y), Point(x + 1.0, y), Point(x + 1.0, y + 1.0), Point(x, y + 1.0)]
  }

  /** Twice the area of a right triangle with unit legs, on plain
      differences. */
  lemma UnitTriangleArea(bx: real, b_y: real, cx: real, cy: real)
    requires bx == 1.0 && b_y == 0.0 && cy == 1.0
    ensures bx * cy - cx * b_y == 1.0
  {
  }

  /** Unit squares pass the constructor's check. */
  lemma UnitSquareAccepted(x: real, y: real)
    ensures FirstEdgeTest(UnitSquare(x, y))
  {
    var vs := UnitSquare(x, y);
    UnitTriangleArea(vs[1].x - vs[0].x, vs[1].y - vs[0].y, vs[2].x - vs[0].x, vs[2].y - vs[0].y);
    UnitTriangleArea(vs[1].x - vs[0].x, vs[1].y - vs[0].y, vs[3].x - vs[0].x, vs[3].y - vs[0].y);
    assert Orient2D(vs[0], vs[1], vs[2]) == 1;
    assert Orient2D(vs[0], vs[1], vs[3]) == 1;
  }

  /** The edge list of every unit square, wherever it lies. */
  function UnitSquareEdges(): seq<Vec2D> {
    [Vec2D(-1.0, 0.0), Vec2D(0.0, -1.0), Vec2D(1.0, 0.0), Vec2D(0.0, 1.0)]
  }

  /** The edges derived from a unit square do not depend on its position. */
  lemma SquareEdges(x: real, y: real)
    ensures Edges(UnitSquare(x, y)) == UnitSquareEdges()
  {
    var es := Edges(UnitSquare(x, y));
    assert Next(0, 4) == 1 && Next(1, 4) == 2 && Next(2, 4) == 3 && Next(3, 4) == 0;
    assert es[0] == Vec2D(-1.0, 0.0) && es[1] == Vec2D(0.0, -1.0);
    assert es[2] == Vec2D(1.0, 0.0) && es[3] == Vec2D(0.0, 1.0);
  }

  /** The horizontal and vertical unit axes. */
  predicate UnitAxis(u: Vec2D) {
    u == Vec2D(1.0, 0.0) || u == Vec2D(-1.0, 0.0) || u == Vec2D(0.0, 1.0) || u == Vec2D(0.0, -1.0)
  }

  /** The lower end of the projection range of the unit square at (x, y) on a
      unit axis; the range is one unit long. */
  function SquareLow(x: real, y: real, u: Vec2D): real {
    if u == Vec2D(1.0, 0.0) then x
    else if u == Vec2D(-1.0, 0.0) then -x - 1.0
    else if u == Vec2D(0.0, 1.0) then y
    else -y - 1.0
  }

  /** A list whose elements lie in [lo, lo + 1] and that reaches both ends
      has lo as its min and lo + 1 as its max. */
  lemma MinMaxOfSpan(ps: seq<real>, lo: real, i: int, j: int)
    requires 0 <= i < |ps| && 0 <= j < |ps| && ps[i] == lo && ps[j] == lo + 1.0
    requires forall k :: 0 <= k < |ps| ==> lo <= ps[k] <= lo + 1.0
    ensures SeqMin(ps) == lo && SeqMax(ps) == lo + 1.0
  {
    var kMin :| 0 <= kMin < |ps| && ps[kMin] == SeqMin(ps);
    var kMax :| 0 <= kMax < |ps| && ps[kMax] == SeqMax(ps);
    assert ps[i] in ps && ps[j] in ps;
  }

  /** On a horizontal or vertical axis the unit square at (x, y) projects
      onto [SquareLow, SquareLow + 1]. */
  lemma SquareRange(x: real, y: real, u: Vec2D)
    requires UnitAxis(u)
    ensures SeqMin(Projections(UnitSquare(x, y), u)) == SquareLow(x, y, u)
    ensures SeqMax(Projections(UnitSquare(x, y), u)) == SquareLow(x, y, u) + 1.0
  {
    var sq := UnitSquare(x, y);
    var ps := Projections(sq, u);
    var lo := SquareLow(x, y, u);
    assert ps[0] == Vec2D(x, y).Dot(u) && ps[1] == Vec2D(x + 1.0, y).Dot(u);
    assert ps[2] == Vec2D(x + 1.0, y + 1.0).Dot(u) && ps[3] == Vec2D(x, y + 1.0).Dot(u);
    forall k | 0 <= k < 4
      ensures lo <= ps[k] <= lo + 1.0
    {
      assert k == 0 || k == 1 || k == 2 || k == 3;
    }
    if u == Vec2D(1.0, 0.0) {
      MinMaxOfSpan(ps, lo, 0, 1);
    } else if u == Vec2D(-1.0, 0.0) {
      MinMaxOfSpan(ps, lo, 1, 0);
    } else if u == Vec2D(0.0, 1.0) {
      MinMaxOfSpan(ps, lo, 0, 3);
    } else {
      MinMaxOfSpan(ps, lo, 3, 0);
    }
  }

  /** On a horizontal or vertical axis two unit squares are separated exactly
      when one range ends strictly before the other begins. */
  lemma SquaresSeparatedOn(x: real, y: real, x': real, y': real, u: Vec2D)
    requires UnitAxis(u)
    ensures Separates(u, UnitSquare(x, y), UnitSquare(x', y')) <==>
      SquareLow(x, y, u) + 1.0 < SquareLow(x', y', u) ||
      SquareLow(x', y', u) + 1.0 < SquareLow(x, y, u)
  {
    var a, b := UnitSquare(x, y), UnitSquare(x', y');
    SeparatesByRanges(u, a, b, Projections(a, u), Projections(b, u));
    SquareRange(x, y, u);
    SquareRange(x', y', u);
  }

  /** Unit squares whose corners differ by at most one unit in each
      coordinate meet on every axis tested. */
  lemma NearSquaresMeet(x: real, y: real, x': real, y': real)
    requires -1.0 <= x' - x <= 1.0 && -1.0 <= y' - y <= 1.0
    ensures OverlapOfDerivedEdges(UnitSquare(x, y), UnitSquare(x', y'))
  {
    var a, b := UnitSquare(x, y), UnitSquare(x', y');
    var es := UnitSquareEdges();
    SquareEdges(x, y);
    SquareEdges(x', y');
    forall g | g in es + es
      ensures !Separates(Normal(g), a, b)
    {
      assert UnitAxis(Normal(g)) by {
        assert g == es[0] || g == es[1] || g == es[2] || g == es[3];
      }
      SquaresSeparatedOn(x, y, x', y', Normal(g));
    }
  }

  /** Unit squares whose corners differ by more than one unit in some
      coordinate are separated on the horizontal or the vertical axis. */
  lemma FarSquaresApart(x: real, y: real, x': real, y': real)
    requires !(-1.0 <= x' - x <= 1.0 && -1.0 <= y' - y <= 1.0)
    ensures !OverlapOfDerivedEdges(UnitSquare(x, y), UnitSquare(x', y'))
  {
    var es := UnitSquareEdges();
    SquareEdges(x, y);
    SquareEdges(x', y');
    assert Normal(es[1]) == Vec2D(1.0, 0.0) && Normal(es[2]) == Vec2D(0.0, 1.0);
    assert es[1] in es + es && es[2] in es + es;
    SquaresSeparatedOn(x, y, x', y', Vec2D(1.0, 0.0));
    SquaresSeparatedOn(x, y, x', y', Vec2D(0.0, 1.0));
  }

  /** Unit squares at (x, y) and (x', y') overlap exactly when neither
      coordinate differs by more than one unit; squares that only touch
      overlap. */
  lemma UnitSquaresIntersect(x: real, y: real, x': real, y': real)
    ensures OverlapOfDerivedEdges(UnitSquare(x, y), UnitSquare(x', y')) <==>
      -1.0 <= x' - x <= 1.0 && -1.0 <= y' - y <= 1.0
  {
    if -1.0 <= x' - x <= 1.0 && -1.0 <= y' - y <= 1.0 {
      NearSquaresMeet(x, y, x', y');
    } else {
      FarSquaresApart(x, y, x', y');
    }
  }

  /** The three worked cases, wherever the first square lies: squares two
      units apart diagonally do not overlap, while squares overlapping by
      half a unit each way, or sharing a side, do. */
  lemma UnitSquareCases(x: real, y: real)
    ensures !OverlapOfDerivedEdges(UnitSquare(x, y), UnitSquare(x + 2.0, y + 2.0))
    ensures OverlapOfDerivedEdges(UnitSquare(x, y), UnitSquare(x + 0.5, y + 0.5))
    ensures OverlapOfDerivedEdges(UnitSquare(x, y), UnitSquare(x + 1.0, y))
  {
    UnitSquaresIntersect(x, y, x + 2.0, y + 2.0);
    UnitSquaresIntersect(x, y, x + 0.5, y + 0.5);
    UnitSquaresIntersect(x, y, x + 1.0, y);
  }
}
