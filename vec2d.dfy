/** The 2D arithmetic module the polygon kernel is built on: points and
    vectors with exact real coordinates.

    Both source classes carry an `x` and a `y`.  `Vec2D` derives from `Point`
    in the source; here it is a separate value type that can be viewed as the
    Point it also is (`AsPoint`).  The overloaded, type-dispatched operators
    become separately named functions. */
module Vectors {

  /** A point of the Cartesian plane, as a value; `Point()` is the origin. */
  datatype Point = Point(x: real := 0.0, y: real := 0.0) {

    /** `p + q`: a new point holding the componentwise sum. */
    function Add(other: Point): (r: Point)
      ensures r.Sub(other) == this
      ensures r.Sub(this) == other
    {
      Point(x + other.x, y + other.y)
    }

    /** `p - q`: a new point holding the componentwise difference. */
    function Sub(other: Point): (r: Point)
      ensures r == Point(0.0, 0.0) <==> this == other
    {
      Point(x - other.x, y - other.y)
    }
  }

  /** Subtracting and adding back the same point gives the point again. */
  lemma SubThenAdd(p: Point, q: Point)
    ensures p.Sub(q).Add(q) == p
  {
  }

  /** A Point object as the source holds it: its coordinates are updated in
      place by `+=` and `-=`, and every holder of the object sees the change. */
  class MutablePoint {
    var x: real
    var y: real

    constructor (x: real := 0.0, y: real := 0.0)
      ensures this.x == x && this.y == y
    {
      this.x := x;
      this.y := y;
    }

    /** The coordinates the object holds right now. */
    function Value(): Point
      reads this
    {
      Point(x, y)
    }

    /** `p += q`: adds q to the object's own coordinates and returns the same
        object. */
    method IAdd(other: Point) returns (r: MutablePoint)
      modifies this
      ensures r == this
      ensures Value() == old(Value()).Add(other)
    {
      x := x + other.x;
      y := y + other.y;
      r := this;
    }

    /** `p -= q`: subtracts q from the object's own coordinates and returns the
        same object. */
    method ISub(other: Point) returns (r: MutablePoint)
      modifies this
      ensures r == this
      ensures Value() == old(Value()).Sub(other)
    {
      x := x - other.x;
      y := y - other.y;
      r := this;
    }
  }

  /** `p += q; p -= q` leaves p's coordinates as they were. */
  method IAddThenISub(p: MutablePoint, q: Point)
    modifies p
    ensures p.Value() == old(p.Value())
  {
    var same := p.IAdd(q);
    same := same.ISub(q);
  }

  /** A 2D vector, as a value.  `Vec2D(a, b)` with two numbers is this
      datatype's own constructor; `Vec2D()`, whose default arguments are two
      origin points, is the zero vector between them. */
  datatype Vec2D = Vec2D(x: real := 0.0, y: real := 0.0) {

    /** The Point this vector also is: the same x and y. */
    function AsPoint(): Point {
      Point(x, y)
    }

    /** `v + w`: a new vector holding the componentwise sum. */
    function Add(other: Vec2D): (r: Vec2D)
      ensures r.Sub(other) == this
      ensures r.Sub(this) == other
    {
      Vec2D(x + other.x, y + other.y)
    }

    /** `v - w`: a new vector holding the componentwise difference. */
    function Sub(other: Vec2D): (r: Vec2D)
      ensures r == Vec2D(0.0, 0.0) <==> this == other
    {
      Vec2D(x - other.x, y - other.y)
    }

    /** `v * w` with a vector (or a point viewed as one): the dot product. */
    function Dot(other: Vec2D): real {
      x * other.x + y * other.y
    }

    /** `v * k` with a number: the vector scaled by k. */
    function Scale(k: real): Vec2D {
      Vec2D(x * k, y * k)
    }
  }

  /** `Vec2D(p, q)` with two points: the vector from p to q, that is, the
      SECOND point minus the first. */
  function Between(p: Point, q: Point): (v: Vec2D)
    ensures p.Add(v.AsPoint()) == q
  {
    Vec2D(q.x - p.x, q.y - p.y)
  }

  /** The dot product does not depend on the order of its operands. */
  lemma DotSymmetric(v: Vec2D, w: Vec2D)
    ensures v.Dot(w) == w.Dot(v)
  {
  }

  /** Scaling either operand by k scales the dot product by k. */
  lemma ScaleDot(v: Vec2D, w: Vec2D, k: real)
    ensures v.Scale(k).Dot(w) == k * v.Dot(w)
    ensures w.Dot(v.Scale(k)) == k * w.Dot(v)
  {
  }

  /** The dot product distributes over vector addition. */
  lemma DotAddLeft(u: Vec2D, v: Vec2D, w: Vec2D)
    ensures u.Add(v).Dot(w) == u.Dot(w) + v.Dot(w)
  {
  }

  /** Scaling by a and then by b is scaling by a * b; scaling by 1 is the
      identity. */
  lemma ScaleTwice(v: Vec2D, a: real, b: real)
    ensures v.Scale(a).Scale(b) == v.Scale(a * b)
    ensures v.Scale(1.0) == v
  {
    assert v.x * a * b == v.x * (a * b) && v.y * a * b == v.y * (a * b);
  }

  /** Subtracting and adding back the same vector gives the vector again. */
  lemma VecSubThenAdd(v: Vec2D, w: Vec2D)
    ensures v.Sub(w).Add(w) == v
  {
  }
}
