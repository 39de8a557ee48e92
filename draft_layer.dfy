/**
 * `main/Layer.java`: the layer of the early draft of the fly-through. Its
 * points carry their own depth, which the draft scheduler lowers in place, and
 * its colour is a private four-entry array that is filled by copying.
 */
module DraftLayer {
  import LayerData

  /** `Layer.Coordinate3D`: a point of the pattern with its own depth. */
  datatype Coordinate3D = Coordinate3D(x: real, y: real, z: real)

  /** The depth every point of a new draft layer starts at. */
  const SquareDepth: real := 3000.0

  /** `createSquare`: the 16 points of the pattern, in the order the source adds them, all at depth 3000. */
  function CreateSquare(): (cs: seq<Coordinate3D>)
    ensures |cs| == 16
    ensures forall i :: 0 <= i < |cs| ==> cs[i].z == SquareDepth
  {
    [ Coordinate3D(260.0, 0.0, SquareDepth), Coordinate3D(0.0, 260.0, SquareDepth),
      Coordinate3D(-260.0, 0.0, SquareDepth), Coordinate3D(0.0, -260.0, SquareDepth),
      Coordinate3D(275.0, 150.0, SquareDepth), Coordinate3D(275.0, -150.0, SquareDepth),
      Coordinate3D(150.0, 275.0, SquareDepth), Coordinate3D(150.0, -275.0, SquareDepth),
      Coordinate3D(-275.0, 150.0, SquareDepth), Coordinate3D(-275.0, -150.0, SquareDepth),
      Coordinate3D(-150.0, 275.0, SquareDepth), Coordinate3D(-150.0, -275.0, SquareDepth),
      Coordinate3D(300.0, 300.0, SquareDepth), Coordinate3D(-300.0, 300.0, SquareDepth),
      Coordinate3D(300.0, -300.0, SquareDepth), Coordinate3D(-300.0, -300.0, SquareDepth) ]
  }

  /** `createShape`: the default shape of a draft layer is the square pattern. */
  function CreateShape(): (cs: seq<Coordinate3D>)
    ensures cs == CreateSquare()
  {
    CreateSquare()
  }

  /** The draft pattern has the outline of the final one, point for point, lifted to depth 3000. */
  lemma DraftOutlineIsFinalOutline()
    ensures |CreateSquare()| == |LayerData.CreateSquare()|
    ensures forall i :: 0 <= i < |CreateSquare()| ==>
              CreateSquare()[i] == Coordinate3D(LayerData.CreateSquare()[i].x, LayerData.CreateSquare()[i].y, SquareDepth)
  {
  }

  class Layer {
    /** The points, each of which the scheduler moves in place. */
    var coordinates: seq<Coordinate3D>
    /** The layer's own colour array; the same array object for the layer's whole life. */
    const rgba: array<real>

    /**
     * Copies the first four entries of the caller's array into a fresh
     * array of the layer's own, and gives the layer the square pattern.
     */
    constructor (rgba: array<real>)
      requires rgba.Length >= 4
      ensures fresh(this.rgba) && this.rgba.Length == 4
      ensures this.rgba[..] == rgba[..4]
      ensures coordinates == CreateShape()
    {
      var own := new real[4];
      var i := 0;
      while i < own.Length
        invariant 0 <= i <= own.Length
        invariant own[..i] == rgba[..i]
      {
        own[i] := rgba[i];
        i := i + 1;
      }
      this.rgba := own;
      coordinates := CreateShape();
    }

    /** `getCoordinates()`: the layer's current points. */
    function GetCoordinates(): (pts: seq<Coordinate3D>)
      reads this
      ensures pts == coordinates
    {
      coordinates
    }

    /** The colour array itself, not a copy: a write through it is a write to the layer's colour. */
    function GetColor(): (c: array<real>)
      ensures c == rgba
    {
      rgba
    }

    /**
     * Overwrites the layer's own colour array entry by entry with the first
     * four entries of the caller's array; the array object stays the same.
     */
    method SetColor(rgba: array<real>)
      requires this.rgba.Length == 4 && rgba.Length >= 4
      modifies this.rgba
      ensures this.rgba[..] == old(rgba[..4])
    {
      var i := 0;
      while i < this.rgba.Length
        invariant 0 <= i <= this.rgba.Length
        invariant this.rgba[..i] == old(rgba[..i])
        invariant this.rgba == rgba ==> rgba[i..] == old(rgba[i..])
        invariant this.rgba != rgba ==> rgba[..] == old(rgba[..])
      {
        this.rgba[i] := rgba[i];
        i := i + 1;
      }
    }
  }
}
