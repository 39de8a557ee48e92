/**
 * What the two `BasicGeometry` builders (`div/BasicGeometry.java` and
 * `de/audio_vis_theeJ/audio_visualizer/geometry/BasicGeometry.java`) share:
 * the choice of shape from a level id by Java's remainder, the vertex count
 * each shape rounds to, the `Float32Array` wrapper, and the exceptions the
 * builders can raise.
 */
module LevelShapes {
  import opened JavaMath

  datatype Shape = Triangle | Circle | Rektangle | Cross

  /** The Java exceptions the builders can end with. */
  datatype Failure = NegativeArraySize | ArrayIndexOutOfBounds

  /** A builder's result: a value, or the exception it ended with. */
  datatype Outcome<T> = Done(value: T) | Thrown(failure: Failure)

  /**
   * `MakeLevelData`'s switch on `levelId % 4`: 1, 2 and 3 pick a shape, every other remainder the triangle.
   * Java's remainder is negative or zero for a negative id, so every negative id builds triangles; for
   * the other ids the shape follows the residue, with period 4.
   */
  function ShapeFor(levelId: int): (s: Shape)
    ensures levelId < 0 ==> s == Triangle
    ensures levelId >= 0 ==> s == [Triangle, Circle, Rektangle, Cross][levelId % 4]
  {
    var r := Rem(levelId, 4);
    assert levelId < 0 ==> r <= 0;
    if r == 1 then Circle
    else if r == 2 then Rektangle
    else if r == 3 then Cross
    else Triangle
  }

  /** The vertex count each shape rounds down to a multiple of. */
  function Multiple(s: Shape): (k: nat)
    ensures k >= 1
  {
    match s
    case Triangle => 3
    case Circle => 1
    case Rektangle => 4
    case Cross => 12
  }

  /**
   * The array length a builder wants for `numVert` vertices: the circle takes them all, the others drop
   * the remainder, so for a non-negative count the target is at most `numVert` and less than one step below it.
   */
  function TargetLength(s: Shape, numVert: int): (n: int)
    ensures s == Circle ==> n == numVert
    ensures numVert >= 0 ==> 0 <= n <= numVert && numVert - n < Multiple(s)
  {
    match s
    case Circle => numVert
    case _ => numVert - Rem(numVert, Multiple(s))
  }

  /** The target is `numVert` rounded toward zero to a multiple of the shape's step. */
  lemma TargetLengthRoundsTowardZero(s: Shape, numVert: int)
    ensures TargetLength(s, numVert) == Quot(numVert, Multiple(s)) * Multiple(s)
  {
    if s == Circle {
      assert Rem(numVert, 1) == 0;
    }
  }

  /**
   * A negative count gives a negative target, which makes the allocation
   * throw, exactly when it is at least one step below zero; counts between
   * are rounded up to an empty array.
   */
  lemma NegativeTarget(s: Shape, numVert: int)
    ensures TargetLength(s, numVert) < 0 <==> numVert <= -(Multiple(s) as int)
  {
    TargetLengthRoundsTowardZero(s, numVert);
    var k := Multiple(s) as int;
    if numVert <= -k {
      assert Quot(numVert, k) == -((-numVert) / k);
      assert (-numVert) / k >= 1;
    }
  }

  /** Where the loop of either builder's `shapeGeometry` stops: at its count, or at the end of the array, whichever is first. */
  function Processed(count: int, length: nat): (n: nat)
    ensures n <= length
    ensures count <= 0 ==> n == 0
    ensures 0 < count <= length ==> n == count
    ensures count > length ==> n == length
  {
    if count <= 0 then 0 else if count <= length then count else length
  }

  /** `Float32Array`: a wrapper around a float array. */
  class Float32Array {
    const data: array<real>

    /** A zeroed array of `size` entries. */
    constructor (size: nat)
      ensures fresh(data) && data.Length == size
      ensures forall i :: 0 <= i < size ==> data[i] == 0.0
    {
      data := new real[size](_ => 0.0);
    }

    /** Wraps the caller's array itself, without copying. */
    constructor FromData(initialData: array<real>)
      ensures data == initialData
    {
      data := initialData;
    }

    function GetData(): (d: array<real>)
      ensures d == data
    {
      data
    }

    function Length(): (n: nat)
      ensures n == data.Length
    {
      data.Length
    }
  }

  /** An array freshly built for a target length: every entry zero. */
  predicate Zeroed(a: Float32Array, target: int)
    reads a.data
  {
    a.data.Length == target && forall i :: 0 <= i < a.data.Length ==> a.data[i] == 0.0
  }

  /** `new Float32Array(size)`: Java throws on a negative size. */
  method Allocate(size: int) returns (r: Outcome<Float32Array>)
    ensures size < 0 ==> r == Thrown(NegativeArraySize)
    ensures size >= 0 ==> r.Done? && fresh(r.value) && fresh(r.value.data) && Zeroed(r.value, size)
  {
    if size < 0 {
      return Thrown(NegativeArraySize);
    }
    var a := new Float32Array(size);
    r := Done(a);
  }
}
