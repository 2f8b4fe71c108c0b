/*
  Three-dimensional coordinates (coordinate.java).

  `Vec3` is the value of a coordinate; the `Coordinate` class is the mutable
  object of the source, whose operations update x, y and z in place. Objects
  that merely own a location (points, links, receptors) store a `Vec3`, which
  makes every stored location an independent copy by construction.
*/
module Coordinates {
  import opened Numerics

  datatype Vec3 = Vec3(x: real, y: real, z: real)

  const Origin: Vec3 := Vec3(0.0, 0.0, 0.0)

  function Plus(a: Vec3, b: Vec3): Vec3
  {
    Vec3(a.x + b.x, a.y + b.y, a.z + b.z)
  }

  function Minus(a: Vec3, b: Vec3): Vec3
  {
    Vec3(a.x - b.x, a.y - b.y, a.z - b.z)
  }

  function Scale(a: Vec3, m: real): Vec3
  {
    Vec3(a.x * m, a.y * m, a.z * m)
  }

  /** Scalar product (coordinate.dot). */
  function DotProduct(a: Vec3, b: Vec3): real
  {
    a.x * b.x + a.y * b.y + a.z * b.z
  }

  /** Length of the projection on the x-y plane (coordinate.horizontal_norm). */
  function HorizontalNorm(a: Vec3, t: Transcendentals): real
  {
    t.sqrt(a.x * a.x + a.y * a.y)
  }

  /** Angle of the projection on the x-y plane, shifted into [0, 2 pi) (coordinate.horizontal_angle). */
  function HorizontalAngle(a: Vec3, t: Transcendentals): real
  {
    var angle := t.atan2(a.y, a.x);
    if angle < 0.0 then 2.0 * Pi + angle else angle
  }

  /** Counter-clockwise rotation about the z-axis (coordinate.horizontal_rotation). */
  function Rotated(a: Vec3, radians: real, t: Transcendentals): Vec3
  {
    var length := HorizontalNorm(a, t);
    var angle := HorizontalAngle(a, t) + radians;
    Vec3(length * t.cos(angle), length * t.sin(angle), a.z)
  }

  lemma TranslationRoundTrip(a: Vec3, b: Vec3)
    ensures Minus(Plus(a, b), b) == a
    ensures Plus(Minus(a, b), b) == a
  {
  }

  lemma DotSymmetric(a: Vec3, b: Vec3)
    ensures DotProduct(a, b) == DotProduct(b, a)
  {
  }

  /** The dot-product case of the source's self test: <3,-1,2> . <-4,0,2> = -8. */
  lemma DotExample()
    ensures DotProduct(Vec3(3.0, -1.0, 2.0), Vec3(-4.0, 0.0, 2.0)) == -8.0
  {
  }

  lemma HorizontalAngleRange(a: Vec3, t: Transcendentals)
    requires Atan2InRange(t)
    ensures 0.0 <= HorizontalAngle(a, t) < 2.0 * Pi
  {
    assert -Pi <= t.atan2(a.y, a.x) <= Pi;
  }

  lemma RotationKeepsElevation(a: Vec3, radians: real, t: Transcendentals)
    ensures Rotated(a, radians, t).z == a.z
  {
  }

  class Coordinate {
    var x: real
    var y: real
    var z: real

    function Value(): Vec3
      reads this
    {
      Vec3(x, y, z)
    }

    /** The origin. */
    constructor ()
      ensures Value() == Origin
    {
      x, y, z := 0.0, 0.0, 0.0;
    }

    /** The copy constructor: equal to, but independent of, `other`. */
    constructor Copy(other: Coordinate)
      ensures Value() == other.Value()
    {
      x, y, z := other.x, other.y, other.z;
    }

    constructor At(x0: real, y0: real, z0: real)
      ensures Value() == Vec3(x0, y0, z0)
    {
      x, y, z := x0, y0, z0;
    }

    method SetAll(x0: real, y0: real, z0: real)
      modifies this
      ensures Value() == Vec3(x0, y0, z0)
    {
      x, y, z := x0, y0, z0;
    }

    /** Adds `other` component by component; `other` may be this very object. */
    method Add(other: Coordinate)
      modifies this
      ensures Value() == Plus(old(Value()), old(other.Value()))
    {
      x := x + other.x;
      y := y + other.y;
      z := z + other.z;
    }

    method Subtract(other: Coordinate)
      modifies this
      ensures Value() == Minus(old(Value()), old(other.Value()))
    {
      x := x - other.x;
      y := y - other.y;
      z := z - other.z;
    }

    method Multiply(m: real)
      modifies this
      ensures Value() == Scale(old(Value()), m)
    {
      x := x * m;
      y := y * m;
      z := z * m;
    }

    function Dot(other: Coordinate): real
      reads this, other
    {
      DotProduct(Value(), other.Value())
    }

    /** Rotates x and y about the z-axis; z is not touched. */
    method HorizontalRotation(radians: real, t: Transcendentals)
      modifies this
      ensures Value() == Rotated(old(Value()), radians, t)
      ensures z == old(z)
    {
      var length := HorizontalNorm(Value(), t);
      var angle := HorizontalAngle(Value(), t);
      angle := angle + radians;
      x := length * t.cos(angle);
      y := length * t.sin(angle);
    }

    /** An equal coordinate in a new object. */
    method Clone() returns (c: Coordinate)
      ensures fresh(c)
      ensures c.Value() == Value()
    {
      c := new Coordinate.Copy(this);
    }
  }

  /**
    Moving a coordinate by an offset held in a different object and moving it
    back restores it exactly; the normalisation of the point discretizer
    relies on this.
  */
  method TranslateAndRestore(c: Coordinate, offset: Coordinate)
    requires c != offset
    modifies c
    ensures c.Value() == old(c.Value())
    ensures offset.Value() == old(offset.Value())
  {
    c.Subtract(offset);
    c.Add(offset);
    TranslationRoundTrip(old(c.Value()), offset.Value());
  }
}
