# Convex-polygon kernel, modelled in Dafny

This project models a small 2D convex-polygon kernel written in Python. It
covers two source files:

- `vec2d.py`: points and vectors with `+`, `-`, `+=`, `-=`, the two-point
  vector constructor and the overloaded `*`.
- `convexpolygon.py`: the `orient2d` orientation test and the
  `ConvexPolygon` object. The object has a constructor with a convexity
  check, the shoelace `centroid`, the transforms `translate`, `rotate` and
  `scale`, and the Separating-Axis overlap test `A & B`.

Coordinates are exact Dafny `real` values.

Files:

- `vec2d.dfy`, module `Vectors`:
  - `Point` and `Vec2D` are value types.
  - `MutablePoint` is the source's point object, whose `+=` and `-=`
    change its own coordinates in place.
- `convexpolygon.dfy`, module `ConvexPolygons`:
  - The specification functions: `Orient2D`, `FirstEdgeTest`, `Edges`,
    `SideSum`/`CentroidOf`, `Translated`/`Rotated`/`Scaled` and `Overlap`.
  - The class `ConvexPolygon`, whose fields `nverts`, `verts` and `edges`
    its methods update. Each method is proved against those functions.
    `Valid()` is the invariant every operation keeps: `nverts` is the
    vertex count, at least 3, and `edges` is the list derived from `verts`.
- `properties.dfy`:
  - Module `PolygonProperties`: orientation, the convexity check and the
    transforms under each other.
  - Module `CentroidProperties`: the centroid under translation, and its
    closed form for triangles and rectangles.
- `overlap.dfy`, module `OverlapProperties`: what the overlap test means,
  its symmetry, its invariance under translation, and cases with unit
  squares.

The model follows what the code does, including where that differs from
what a reader might expect of a convex-polygon kernel:

- Edge i is built as `Vec2D(verts[i+1], verts[i])`. That is `verts[i]`
  minus `verts[i+1 mod n]`, so it points from the next vertex back to
  vertex i. It is not the forward difference.
- The convexity check tests every vertex against the first edge only. Its
  outer loop repeats that same test once per vertex.
  - A clockwise listing of a convex polygon is refused
    (`ClockwiseRejected`).
  - A self-crossing "bow tie" is accepted, and its centroid then divides
    by zero (`BowtieAccepted`).
- `translate` does not rebuild `edges`. When every vertex moves by the same
  vector the old edges still match, because translation does not change
  vertex differences (`EdgesTranslated`). The source does not always move
  every vertex by the same vector; see `ConvexPolygons.ConvexPolygon.Translate`
  under "Left out".
- The errors are Python's `ValueError` (construction) and
  `ZeroDivisionError` (centroid of zero signed area), raised by the code at
  convexpolygon.py:40, convexpolygon.py:60 and convexpolygon.py:99.

## Model

| member | source | states |
|---|---|---|
| Vectors.Point.Add | vec2d.py:37-40 | `p + q` is the point from which subtracting q gives p back, and subtracting p gives q |
| Vectors.Point.Sub | vec2d.py:66-69 | `p - q` is the origin exactly when p and q are the same point |
| Vectors.SubThenAdd | vec2d.py:66-69 | `(p - q) + q == p` for all points |
| Vectors.MutablePoint.constructor | vec2d.py:13-16 | a new point object holds the given coordinates |
| Vectors.MutablePoint.IAdd | vec2d.py:52-54 | `+=` adds the operand to the object's own coordinates and returns that same object |
| Vectors.MutablePoint.ISub | vec2d.py:81-83 | `-=` subtracts the operand from the object's own coordinates and returns that same object |
| Vectors.IAddThenISub | vec2d.py:41-83 | `p += q; p -= q` restores p's coordinates |
| Vectors.Vec2D.Add | vec2d.py:101-105 | vector `+` is the vector from which subtracting either operand gives the other |
| Vectors.Vec2D.Sub | vec2d.py:106-110 | `v - w` is the zero vector exactly when v and w are the same vector |
| Vectors.VecSubThenAdd | vec2d.py:106-110 | `(v - w) + w == v` for all vectors |
| Vectors.Between | vec2d.py:95-98 | `Vec2D(p, q)` is the vector that carries p onto q: second point minus first |
| Vectors.DotSymmetric | vec2d.py:112-114 | the dot product `v * w` does not depend on operand order |
| Vectors.ScaleDot | vec2d.py:118-120 | `v * k` scales the vector so that its dot product with any w is k times the original |
| Vectors.DotAddLeft | vec2d.py:101-114 | the dot product `(u + v) * w` is `u * w + v * w` |
| Vectors.ScaleTwice | vec2d.py:118-120 | `(v * a) * b == v * (a * b)`, and `v * 1 == v` |
| ConvexPolygons.Orient2D | convexpolygon.py:29-32 | orient2d is one of 1, -1, 0: 1 exactly when the signed area is positive, -1 exactly when negative |
| ConvexPolygons.OrientSwapLast | convexpolygon.py:29-32 | swapping b and c negates orient2d |
| ConvexPolygons.OrientSwapFirst | convexpolygon.py:29-32 | swapping a and b negates orient2d |
| ConvexPolygons.CheckConvexity | convexpolygon.py:54-60 | the constructor's nested loop accepts exactly when every vertex from index 2 is strictly left of the first edge; its n passes decide what one pass decides (`FirstEdgeTest`) |
| ConvexPolygons.ConvexAccepted | convexpolygon.py:54-60 | every strictly convex counter-clockwise polygon passes the check |
| ConvexPolygons.ClockwiseRejected | convexpolygon.py:54-60 | the same strictly convex polygon listed clockwise is refused |
| ConvexPolygons.Edges | convexpolygon.py:46-52 | one edge per vertex, and edge i carries vertex i+1 mod n back onto vertex i |
| ConvexPolygons.BuildEdges | convexpolygon.py:46-52 | the edge loop, with its special case for the last vertex, builds exactly the derived edge list |
| ConvexPolygons.EdgePrefixSum | convexpolygon.py:46-52 | the first k edges add up to the vector from vertex k to vertex 0 |
| ConvexPolygons.EdgesClose | convexpolygon.py:46-52 | the edges of a closed loop add up to the zero vector |
| ConvexPolygons.SideTotal | convexpolygon.py:83-107 | each accumulator loop of `centroid`, with its special case for the last vertex, totals f over every side of the closed loop (`SideSum`, with f one of `Cross`, `MomentX`, `MomentY`) |
| ConvexPolygons.Translated | convexpolygon.py:74-79 | translation keeps the vertex count and moves each vertex by exactly v |
| ConvexPolygons.EdgesTranslated | convexpolygon.py:74-79 | translation leaves the derived edge list unchanged |
| ConvexPolygons.NormalPerpendicular | convexpolygon.py:162 | the tested axis (-e.y, e.x) is perpendicular to the edge and as long as it |
| ConvexPolygons.SeqMin | convexpolygon.py:173 | `min` of a non-empty list is an element no larger than any element |
| ConvexPolygons.SeqMax | convexpolygon.py:174 | `max` of a non-empty list is an element no smaller than any element |
| ConvexPolygons.ProjectAll | convexpolygon.py:164-171 | the projection loop builds, in vertex order, the dot product of every vertex with the axis (`Projections`) |
| ConvexPolygons.OverlapTest | convexpolygon.py:155-184 | the loop over the edges of A then B returns false at the first edge whose normal separates the projection ranges, and true when none does (`Overlap`) |
| ConvexPolygons.ConvexPolygon.constructor | convexpolygon.py:42-52 | the object keeps the given points, and its edges are the derived edge list |
| ConvexPolygons.ConvexPolygon.Create | convexpolygon.py:37-60 | construction succeeds exactly when there are at least 3 points and the first-edge check passes; otherwise it raises ValueError and no polygon results; a new polygon is valid and holds the points |
| ConvexPolygons.ConvexPolygon.Translate | convexpolygon.py:74-79 | every vertex moves by v; nverts and the edge list are untouched and the edges still match the vertices |
| ConvexPolygons.ConvexPolygon.Centroid | convexpolygon.py:82-112 | the three accumulator loops compute the shoelace centroid of the current vertices, or ZeroDivisionError for zero signed area |
| ConvexPolygons.ConvexPolygon.Rotate | convexpolygon.py:114-134 | every vertex is rotated by (cos, sin) about the given pivot or else the centroid (`ResolvePivot`), and the edges are rebuilt; a centroid that divides by zero raises with nothing changed |
| ConvexPolygons.ConvexPolygon.Scale | convexpolygon.py:136-153 | every vertex's offset from a freshly computed centroid is scaled by (sx, sy), and the edges are rebuilt; a zero-area polygon raises with nothing changed |
| ConvexPolygons.ConvexPolygon.Intersects | convexpolygon.py:155-184 | `A & B` is false exactly when some edge of A or B gives an axis on which the two projection ranges are strictly disjoint (`Overlap`, computed by `OverlapTest`) |
| PolygonProperties.OrientTranslated | convexpolygon.py:29-32 | moving three points by a common vector keeps their orientation |
| PolygonProperties.RotatedDifference | convexpolygon.py:121-122 | the difference of two rotated vertices is the rotated difference, whatever the pivot |
| PolygonProperties.SignedAreaRotated | convexpolygon.py:121-122 | rotation by (c, s) multiplies every signed area by c*c + s*s |
| PolygonProperties.OrientRotated | convexpolygon.py:121-122 | a proper rotation keeps every orientation |
| PolygonProperties.SignedAreaScaled | convexpolygon.py:140-141 | scaling by (sx, sy) multiplies every signed area by sx*sy |
| PolygonProperties.OrientScaled | convexpolygon.py:140-141 | scaling keeps orientations when sx*sy > 0 and reverses them when sx*sy < 0 |
| PolygonProperties.TranslateKeepsCheck | convexpolygon.py:74-79 | translated vertices pass the constructor's check exactly when the originals do |
| PolygonProperties.RotateKeepsCheck | convexpolygon.py:114-125 | properly rotated vertices pass the check exactly when the originals do |
| PolygonProperties.ScaleAndCheck | convexpolygon.py:136-144 | vertices that passed still pass after scaling with sx*sy > 0; with sx*sy < 0 they would be refused |
| PolygonProperties.CollinearRejected | convexpolygon.py:57-60 | a vertex on the line of the first edge makes the check refuse |
| PolygonProperties.BowtieAccepted | convexpolygon.py:54-60 | the bow tie (0,0), (1,0), (0,1), (1,1) passes the check but is not convex, and its centroid divides by zero |
| PolygonProperties.TranslateBack | convexpolygon.py:74-79 | translating by v and then by v * -1 restores every vertex |
| PolygonProperties.RotateKeepsDistance | convexpolygon.py:121-122 | a proper rotation keeps each vertex's distance from the pivot |
| PolygonProperties.FullTurn | convexpolygon.py:120-125 | rotating by a full turn (cos 1, sin 0) returns every vertex to its place |
| PolygonProperties.RotateBack | convexpolygon.py:121-123 | rotating a vertex by (c, s) about a pivot and then by (c, -s) about it returns the vertex, for a proper rotation (`RotatePoint`) |
| PolygonProperties.RotatedBack | convexpolygon.py:120-125 | `rotate` by an angle and then by its opposite about the same pivot restores the vertex list (`Rotated`) |
| PolygonProperties.ScaleBack | convexpolygon.py:140-142 | scaling a vertex by (sx, sy) about a centre and then by (1/sx, 1/sy) returns it, for non-zero factors (`ScalePoint`) |
| PolygonProperties.ScaledBack | convexpolygon.py:139-144 | scaling the vertex list by (sx, sy) and then by (1/sx, 1/sy) about the same centre restores it (`Scaled`) |
| PolygonProperties.ScaleByOne | convexpolygon.py:139-143 | `scale(1, 1)` leaves every vertex unchanged |
| CentroidProperties.CrossAtTranslated | convexpolygon.py:86-88 | one side's shoelace term after translation differs only by a term that telescopes around the loop |
| CentroidProperties.MomentXAtTranslated | convexpolygon.py:95-97 | one side's x-moment term after translation gains 3 v.x times its shoelace term, plus a telescoping term |
| CentroidProperties.MomentYAtTranslated | convexpolygon.py:104-106 | one side's y-moment term after translation gains 3 v.y times its shoelace term, plus a telescoping term |
| CentroidProperties.CrossSumTranslated | convexpolygon.py:84-89 | the partial shoelace sum after translation differs from the original only by the telescoped end terms |
| CentroidProperties.AreaTranslated | convexpolygon.py:83-90 | translation does not change the signed area |
| CentroidProperties.MomentXSumTranslated | convexpolygon.py:92-98 | after translation the x-moment total gains 3 v.x times the shoelace total |
| CentroidProperties.MomentYSumTranslated | convexpolygon.py:101-107 | after translation the y-moment total gains 3 v.y times the shoelace total |
| CentroidProperties.CentroidTranslated | convexpolygon.py:82-112 | translating by v moves the centroid by v; a centroid that divides by zero still does after translation |
| CentroidProperties.CentroidFromSumsSolves | convexpolygon.py:90-110 | from the three loop totals the centroid exists exactly when the shoelace total is non-zero, and its coordinates times three times that total give back the moment totals (`CentroidFromSums`) |
| CentroidProperties.CentroidSolvesMoments | convexpolygon.py:82-112 | `centroid()` raises exactly when the shoelace total over the closed loop is zero; otherwise each coordinate times three times that total is the matching moment total (`CentroidOf` built from `SideSum` of `Cross`, `MomentX`, `MomentY`) |
| CentroidProperties.TriangleTotals | convexpolygon.py:83-107 | for a triangle the shoelace total is its doubled signed area, and each moment total is that area times the sum of the vertices' coordinates |
| CentroidProperties.TriangleCentroid | convexpolygon.py:82-112 | a triangle's centroid exists exactly when it is not degenerate, and is then the average of its vertices |
| CentroidProperties.RectangleCentroid | convexpolygon.py:82-112 | an axis-parallel rectangle's centroid is the midpoint of its diagonal, e.g. (1,1) for (0,0), (2,0), (2,2), (0,2); a flat rectangle divides by zero |
| OverlapProperties.SeparatesMeans | convexpolygon.py:173-179 | the min/max test on one axis holds exactly when every projection of one polygon is strictly below every projection of the other (`Separates`) |
| OverlapProperties.SeparatedWhenFalse | convexpolygon.py:155-184 | when `A & B` is false some edge normal has all of one polygon strictly on one side of all of the other |
| OverlapProperties.OverlapSymmetric | convexpolygon.py:155-184 | `A & B == B & A` for any vertex and edge lists |
| OverlapProperties.IntersectSymmetric | convexpolygon.py:155-184 | `A & B == B & A` for polygons with derived edges |
| OverlapProperties.SelfOverlap | convexpolygon.py:155-184 | a polygon overlaps itself |
| OverlapProperties.ProjectionsTranslated | convexpolygon.py:164-167 | translating by v adds the same amount v·axis to every projection |
| OverlapProperties.AllBelowTranslated | convexpolygon.py:164-179 | strict separation of two vertex lists on an axis survives a common translation |
| OverlapProperties.OverlapTranslated | convexpolygon.py:155-184 | translating both polygons by the same vector, with their edge lists kept, does not change `A & B` |
| OverlapProperties.UnitSquareAccepted | convexpolygon.py:54-60 | every counter-clockwise unit square passes the constructor's check |
| OverlapProperties.SquareEdges | convexpolygon.py:46-52 | every unit square has the same four axis-aligned edges, wherever it lies |
| OverlapProperties.SquareRange | convexpolygon.py:164-177 | on a horizontal or vertical axis a unit square's projections span exactly one unit, from `SquareLow` |
| OverlapProperties.SquaresSeparatedOn | convexpolygon.py:164-180 | on a horizontal or vertical axis two unit squares are separated exactly when one range ends strictly before the other starts |
| OverlapProperties.NearSquaresMeet | convexpolygon.py:155-184 | unit squares whose corners differ by at most one unit in each coordinate overlap |
| OverlapProperties.FarSquaresApart | convexpolygon.py:155-184 | unit squares whose corners differ by more than one unit in some coordinate do not overlap |
| OverlapProperties.UnitSquaresIntersect | convexpolygon.py:155-184 | `A & B` on unit squares at (x, y) and (x', y') is true exactly when -1 <= x' - x <= 1 and -1 <= y' - y <= 1; touching counts as overlap |
| OverlapProperties.UnitSquareCases | convexpolygon.py:155-184 | squares two units apart diagonally do not overlap; squares offset by half a unit each way, or sharing a side, do |

## Left out

- Text rendering (`__str__` at convexpolygon.py:62-72, vec2d.py:17-25 and vec2d.py:99-100) and the `final` attribute it prints: they only format text.
- `Vec2D.norm` (vec2d.py:121-123): a square root has no exact counterpart over `real`.
- `math.cos`/`math.sin` in `rotate`: `ConvexPolygon.Rotate` takes the cosine and sine as real parameters instead of an angle.
- `ConvexPolygon.Rotate`: the `pivot == 0` sentinel becomes an `Option` pivot; `None` means "use the centroid".
- Floating-point rounding and the int/float distinction: coordinates are exact reals, so the comparisons `s_a > 0` (convexpolygon.py:32) and `max_A < min_B` (convexpolygon.py:179) are decided exactly, with no rounding.
- Python's runtime type dispatch:
  - The `Vec2D` constructor becomes the datatype constructor for two numbers and `Between` for two points.
  - A `Vec2D` built from one number and one point sets no components; the model has no such value.
  - `__mul__` becomes `Dot` and `Scale`. Its branch at vec2d.py:115-117 is unreachable, because `self` is always a vector, and it is not modelled.
  - `Point` and `Vec2D` are separate value types; `AsPoint` views a vector as the point it also is.
- Object aliasing:
  - `self.verts = points` keeps the caller's list.
  - `translate`'s `+=` changes the caller's point objects in place.
  - The polygon holds its vertices as values (`seq<Point>`), so these caller-visible side effects are not captured. `MutablePoint` models `+=`/`-=` on a single object only.
- `ConvexPolygons.ConvexPolygon.Translate`: moves every listed vertex by exactly v, and keeps the edges. The source moves point objects in place, so it can do otherwise. A point object listed twice, as in `[P(0,0), P(1,0), p, p]`, which passes the constructor's check, is moved twice. `poly.translate(poly.verts[0])` moves vertex 0 first, which doubles the vector used for every later vertex. In both cases the vertices no longer move by one common vector, and the kept edges no longer match them. The model does not capture either case.
- The default argument `points=[]`: it is refused by the size guard like any list shorter than 3.
- The default arguments of `Point(x=0, y=0)` (vec2d.py:13) and `Vec2D(x=Point(), y=Point())` (vec2d.py:90) become default values of the datatype constructors: `Point()` is the origin and `Vec2D()` the zero vector between two origin points. `MutablePoint`'s constructor has the same defaults.
- The assignment of `nverts` before the size guard raises: no object results, so it is unobservable.
- The converse of the Separating-Axis Theorem (overlapping ranges on every edge normal imply that the convex regions meet) is not proved. The model proves what `A & B` computes and what a separating axis means for the vertices.
- `ConvexPolygons.Rotated`, `ConvexPolygons.Scaled`: their own contracts state only the vertex count. What they compute is stated by the methods `Rotate` and `Scale`, and their effect on orientations and distances, and their inverses (`RotatedBack`, `ScaledBack`), by the lemmas in `PolygonProperties`.
