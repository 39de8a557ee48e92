/**
 * `layerdata/Layer.java`: one slice of the fly-through, a fixed point pattern at
 * a depth, with a colour, a rotation angle and an oscillation clock.
 */
module LayerData {

  /** `layerdata.Coordinate2D`: a vertex of the pattern in model space. */
  datatype Point2D = Point2D(x: real, y: real)

  function Negate(p: Point2D): Point2D
  {
    Point2D(-p.x, -p.y)
  }

  /** `createSquare`: the 16-point pattern, listed in the order the source adds the points. */
  function CreateSquare(): (pts: seq<Point2D>)
    ensures |pts| == 16
    ensures pts[0] == Point2D(260.0, 0.0) && pts[15] == Point2D(-300.0, -300.0)
  {
    [ Point2D(260.0, 0.0), Point2D(0.0, 260.0), Point2D(-260.0, 0.0), Point2D(0.0, -260.0),
      Point2D(275.0, 150.0), Point2D(275.0, -150.0), Point2D(150.0, 275.0), Point2D(150.0, -275.0),
      Point2D(-275.0, 150.0), Point2D(-275.0, -150.0), Point2D(-150.0, 275.0), Point2D(-150.0, -275.0),
      Point2D(300.0, 300.0), Point2D(-300.0, 300.0), Point2D(300.0, -300.0), Point2D(-300.0, -300.0) ]
  }

  /** `createShape`: the default shape of every layer is the square pattern. */
  function CreateShape(): (pts: seq<Point2D>)
    ensures pts == CreateSquare()
  {
    CreateSquare()
  }

  /** Index of the point opposite to point `i` of the pattern. */
  function Opposite(i: nat): nat
    requires i < 16
  {
    [2, 3, 0, 1, 9, 8, 11, 10, 5, 4, 7, 6, 15, 14, 13, 12][i]
  }

  /** The pattern is symmetric about the origin: every point's mirror image is also a point of it. */
  lemma SquareIsPointSymmetric()
    ensures forall i :: 0 <= i < 16 ==> Opposite(i) < 16 && CreateSquare()[Opposite(i)] == Negate(CreateSquare()[i])
    ensures forall p :: p in CreateSquare() ==> Negate(p) in CreateSquare()
  {
    var pts := CreateSquare();
    forall i | 0 <= i < 16
      ensures Opposite(i) < 16 && pts[Opposite(i)] == Negate(pts[i])
    {
      if i < 4 {
        assert i == 0 || i == 1 || i == 2 || i == 3;
      } else if i < 8 {
        assert i == 4 || i == 5 || i == 6 || i == 7;
      } else if i < 12 {
        assert i == 8 || i == 9 || i == 10 || i == 11;
      } else {
        assert i == 12 || i == 13 || i == 14 || i == 15;
      }
    }
    forall p | p in pts
      ensures Negate(p) in pts
    {
      var i :| 0 <= i < 16 && pts[i] == p;
      assert pts[Opposite(i)] == Negate(p);
    }
  }

  class Layer {
    /** The pattern, set once at construction and never changed. */
    const coordinates: seq<Point2D>
    var z: real
    /** The colour array `{r,g,b,a}`, held by reference. */
    var rgba: array<real>
    var rotationAngle: real
    /** Oscillation clock, advanced from outside (public in the source). */
    var time: real

    /** A layer at depth `initZ`, unrotated, with its clock at zero, that keeps the caller's colour array itself. */
    constructor (rgba: array<real>, initZ: int)
      ensures this.rgba == rgba
      ensures z == initZ as real && rotationAngle == 0.0 && time == 0.0
      ensures coordinates == CreateShape()
    {
      this.rgba := rgba;
      coordinates := CreateShape();
      z := initZ as real;
      rotationAngle := 0.0;
      time := 0.0;
    }

    /** `getZ()`: the current depth. */
    function GetZ(): (r: real)
      reads this
      ensures r == z
    {
      z
    }

    /** `setZ(v)` makes `getZ()` return `v` and touches no other field. */
    method SetZ(z: real)
      modifies this
      ensures GetZ() == z
      ensures rgba == old(rgba) && rotationAngle == old(rotationAngle) && time == old(time)
    {
      this.z := z;
    }

    /** `getCoordinates()`: the layer's own pattern. */
    function GetCoordinates(): (pts: seq<Point2D>)
      ensures pts == coordinates
    {
      coordinates
    }

    /** The colour array itself, not a copy. */
    function GetColor(): (c: array<real>)
      reads this
      ensures c == rgba
    {
      rgba
    }

    /** Replaces the colour array by the caller's (by reference) and touches no other field. */
    method SetColor(rgba: array<real>)
      modifies this
      ensures GetColor() == rgba
      ensures z == old(z) && rotationAngle == old(rotationAngle) && time == old(time)
    {
      this.rgba := rgba;
    }

    /** `getRotationAngle()`: the current angle in degrees. */
    function GetRotationAngle(): (a: real)
      reads this
      ensures a == rotationAngle
    {
      rotationAngle
    }

    /** `setRotationAngle(a)` makes `getRotationAngle()` return `a` and touches no other field. */
    method SetRotationAngle(rotAngle: real)
      modifies this
      ensures GetRotationAngle() == rotAngle
      ensures z == old(z) && rgba == old(rgba) && time == old(time)
    {
      rotationAngle := rotAngle;
    }
  }
}
