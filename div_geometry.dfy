/**
 * `div/BasicGeometry.java`: builds the vertex buffers of a level, one
 * `Float32Array` per subset, reusing the previous buffers where their sizes
 * still fit. The static state of the Java class (the settings array and the
 * last result) is held by one `BasicGeometry` object.
 *
 * The random start and end scales are computed by the source but never reach
 * the buffers, so they are not modelled.
 */
module DivGeometry {
  import opened JavaMath
  import opened LevelShapes

  /** An old buffer can stay when it exists and already has the target length. */
  predicate Fits(arr: Float32Array?, target: int)
  {
    arr != null && arr.Length() == target
  }

  /**
   * Whether entry `after` is what the builder makes of entry `before` for a
   * target length: the same buffer if it fits, otherwise a zeroed one of the
   * target length.
   */
  predicate Rebuilt(before: Float32Array?, after: Float32Array?, target: int)
    reads if after != null then {after.data} else {}
  {
    if Fits(before, target) then after == before else after != null && Zeroed(after, target)
  }

  class BasicGeometry {
    /** `levelSettings`: 20 numbers, public in the source and written from outside. */
    const levelSettings: array<real>
    /** `lastData`: the result of the previous build, if any. */
    var lastData: array?<Float32Array?>

    ghost predicate Valid()
      reads this
    {
      levelSettings.Length == 20
    }

    /** The class's initial state: all settings zero and no previous result. */
    constructor ()
      ensures Valid() && fresh(levelSettings) && lastData == null
      ensures forall i :: 0 <= i < 20 ==> levelSettings[i] == 0.0
    {
      levelSettings := new real[20](_ => 0.0);
      lastData := null;
    }

    /** `(int) (levelSettings[2] / 100)`: the vertex count every builder starts from. */
    function NumVert(): (n: int)
      reads this, levelSettings
      requires Valid()
      ensures var x := levelSettings[2] / 100.0;
              && (0.0 <= x ==> n as real <= x < n as real + 1.0)
              && (x < 0.0 ==> n as real - 1.0 < x <= n as real)
      ensures levelSettings[2] == 0.0 ==> n == 0
    {
      TruncToInt(levelSettings[2] / 100.0)
    }

    /** The length every buffer of a level with this id is built to. */
    function Target(levelId: int): int
      reads this, levelSettings
      requires Valid()
    {
      TargetLength(ShapeFor(levelId), NumVert())
    }

    /**
     * `MakeLevelData` with `Triangle`, `Circle`, `Rektangle` and `Cross`: keep
     * the buffer if it has the target length, else allocate a zeroed one of
     * that length, which throws if the target is negative.
     */
    method MakeLevelData(levelId: int, arr: Float32Array?) returns (r: Outcome<Float32Array>)
      requires Valid()
      ensures Fits(arr, Target(levelId)) ==> r.Done? && r.value == arr
      ensures !Fits(arr, Target(levelId)) && Target(levelId) < 0 ==> r == Thrown(NegativeArraySize)
      ensures !Fits(arr, Target(levelId)) && Target(levelId) >= 0 ==>
                r.Done? && fresh(r.value) && fresh(r.value.data) && Zeroed(r.value, Target(levelId))
    {
      var target := TargetLength(ShapeFor(levelId), NumVert());
      if arr == null || arr.Length() != target {
        r := Allocate(target);
      } else {
        r := Done(arr);
      }
    }

    /**
     * `ShapeGeometry`: null stays null. Otherwise entries `0 .. (int)
     * levelSettings[1] - 1` are rebuilt in place, in order, and the same array
     * is returned. A count beyond the array's end throws once the end is
     * reached; a negative target throws at the first entry, before anything
     * changes, since no existing buffer can have a negative length.
     */
    method ShapeGeometry(levelId: int, reuse: array?<Float32Array?>) returns (r: Outcome<array?<Float32Array?>>)
      requires Valid()
      modifies reuse
      ensures reuse == null ==> r == Done(null)
      ensures reuse != null ==>
                var count := TruncToInt(levelSettings[1]);
                var n := Processed(count, reuse.Length);
                var target := Target(levelId);
                && (target < 0 && n > 0 ==> r == Thrown(NegativeArraySize) && reuse[..] == old(reuse[..]))
                && (!(target < 0 && n > 0) ==>
                      && (r == if count > reuse.Length then Thrown(ArrayIndexOutOfBounds) else Done(reuse))
                      && (forall k :: 0 <= k < n ==> Rebuilt(old(reuse[k]), reuse[k], target))
                      && (forall k :: 0 <= k < n && !Fits(old(reuse[k]), target) ==> fresh(reuse[k]))
                      && (forall k :: n <= k < reuse.Length ==> reuse[k] == old(reuse[k])))
    {
      if reuse == null {
        return Done(null);
      }
      var count := TruncToInt(levelSettings[1]);
      ghost var n := Processed(count, reuse.Length);
      ghost var target := Target(levelId);
      var s := 0;
      while s < count
        invariant 0 <= s <= n
        invariant target < 0 ==> s == 0
        invariant forall k :: 0 <= k < s ==> Rebuilt(old(reuse[k]), reuse[k], target)
        invariant forall k :: 0 <= k < s && !Fits(old(reuse[k]), target) ==> fresh(reuse[k])
        invariant forall k :: s <= k < reuse.Length ==> reuse[k] == old(reuse[k])
      {
        if s >= reuse.Length {
          return Thrown(ArrayIndexOutOfBounds);
        }
        var built := MakeLevelData(levelId, reuse[s]);
        if built.Thrown? {
          assert reuse[..] == old(reuse[..]);
          return Thrown(built.failure);
        }
        reuse[s] := built.value;
        s := s + 1;
      }
      r := Done(reuse);
    }

    /**
     * `build` / `myBuild`: the previous result array is reallocated (all
     * null) when there is none or its length differs from `(int)
     * levelSettings[0]`; it is then filled by `ShapeGeometry` and kept as the
     * previous result.
     */
    method Build(id: int) returns (r: Outcome<array?<Float32Array?>>)
      requires Valid()
      modifies this, lastData
      ensures Valid()
      ensures var numSubsets := TruncToInt(old(levelSettings[0]));
              && (old(lastData) != null && old(lastData).Length == numSubsets ==> lastData == old(lastData))
              && (!(old(lastData) != null && old(lastData).Length == numSubsets) && numSubsets < 0 ==>
                    r == Thrown(NegativeArraySize) && lastData == old(lastData))
              && (!(old(lastData) != null && old(lastData).Length == numSubsets) && numSubsets >= 0 ==>
                    fresh(lastData) && lastData != null && lastData.Length == numSubsets)
      ensures r.Done? ==> r.value == lastData
    {
      var numSubsets := TruncToInt(levelSettings[0]);
      if lastData == null || lastData.Length != numSubsets {
        if numSubsets < 0 {
          return Thrown(NegativeArraySize);
        }
        lastData := new Float32Array?[numSubsets](_ => null);
      }
      r := ShapeGeometry(id, lastData);
      if r.Done? {
        lastData := r.value;
      }
    }
  }
}
