/**
 * `de/audio_vis_theeJ/audio_visualizer/geometry/BasicGeometry.java`: the
 * variant of the level builder that allocates its result array once and keeps
 * any existing buffer, whatever its length. The static state of the Java class
 * is held by one `BasicGeometry` object.
 *
 * In the source the settings array is private and never written, so all its
 * entries stay zero; the model states the behaviour for any contents. The
 * random scales are computed but never reach the buffers and are not modelled.
 */
module VisGeometry {
  import opened JavaMath
  import opened LevelShapes

  /**
   * Whether entry `after` is what the builder makes of entry `before`: an
   * existing buffer stays, a missing one becomes a zeroed buffer of the
   * target length.
   */
  predicate Kept(before: Float32Array?, after: Float32Array?, target: int)
    reads if after != null then {after.data} else {}
  {
    if before != null then after == before else after != null && Zeroed(after, target)
  }

  /** Whether one of the first `n` entries of `a` is missing. */
  predicate SomeMissing(a: seq<Float32Array?>, n: nat)
    requires n <= |a|
  {
    exists k :: 0 <= k < n && a[k] == null
  }

  class BasicGeometry {
    /** `levelSettings`: 20 numbers, zero in the source. */
    const levelSettings: array<real>
    /** `lastData`: allocated by the first build and kept from then on. */
    var lastData: array?<Float32Array?>

    ghost predicate Valid()
      reads this
    {
      levelSettings.Length == 20
    }

    /** The class's initial state: all settings zero and no result array yet. */
    constructor ()
      ensures Valid() && fresh(levelSettings) && lastData == null
      ensures forall i :: 0 <= i < 20 ==> levelSettings[i] == 0.0
    {
      levelSettings := new real[20](_ => 0.0);
      lastData := null;
    }

    /** `(int) Math.floor(levelSettings[2] / 100)`: the vertex count every builder starts from. */
    function NumVert(): (n: int)
      reads this, levelSettings
      requires Valid()
      ensures n as real <= levelSettings[2] / 100.0 < n as real + 1.0
      ensures levelSettings[2] == 0.0 ==> n == 0
    {
      FloorToInt(levelSettings[2] / 100.0)
    }

    /** The length a missing buffer of a level with this id is built to. */
    function Target(levelId: int): int
      reads this, levelSettings
      requires Valid()
    {
      TargetLength(ShapeFor(levelId), NumVert())
    }

    /**
     * `MakeLevelData` with `Triangle`, `Circle`, `Rektangle` and `Cross`: any
     * existing buffer is returned as it is; a missing one is allocated zeroed
     * with the target length, which throws if the target is negative.
     */
    method MakeLevelData(levelId: int, arr: Float32Array?) returns (r: Outcome<Float32Array>)
      requires Valid()
      ensures arr != null ==> r.Done? && r.value == arr
      ensures arr == null && Target(levelId) < 0 ==> r == Thrown(NegativeArraySize)
      ensures arr == null && Target(levelId) >= 0 ==>
                r.Done? && fresh(r.value) && fresh(r.value.data) && Zeroed(r.value, Target(levelId))
    {
      var target := TargetLength(ShapeFor(levelId), NumVert());
      if arr != null {
        r := Done(arr);
      } else {
        r := Allocate(target);
      }
    }

    /**
     * `ShapeGeometry`: null stays null. Otherwise entries `0 .. (int)
     * levelSettings[1] - 1` are filled in place where missing, and the same
     * array is returned. Existing buffers never change. A count beyond the
     * array's end throws once the end is reached; a negative target throws
     * at the first missing entry.
     */
    method ShapeGeometry(levelId: int, reuse: array?<Float32Array?>) returns (r: Outcome<array?<Float32Array?>>)
      requires Valid()
      modifies reuse
      ensures reuse == null ==> r == Done(null)
      ensures reuse != null ==>
                var count := TruncToInt(levelSettings[1]);
                var n := Processed(count, reuse.Length);
                var target := Target(levelId);
                && (forall k :: 0 <= k < reuse.Length && old(reuse[k]) != null ==> reuse[k] == old(reuse[k]))
                && (forall k :: n <= k < reuse.Length ==> reuse[k] == old(reuse[k]))
                && (target < 0 && SomeMissing(old(reuse[..]), n) ==> r == Thrown(NegativeArraySize) && reuse[..] == old(reuse[..]))
                && (!(target < 0 && SomeMissing(old(reuse[..]), n)) ==>
                      && (r == if count > reuse.Length then Thrown(ArrayIndexOutOfBounds) else Done(reuse))
                      && (forall k :: 0 <= k < n ==> Kept(old(reuse[k]), reuse[k], target))
                      && (forall k :: 0 <= k < n && old(reuse[k]) == null ==> fresh(reuse[k])))
    {
      if reuse == null {
        return Done(null);
      }
      var count := TruncToInt(levelSettings[1]);
      ghost var n := Processed(count, reuse.Length);
      ghost var target := Target(levelId);
      var s := 0;
      while s < count
        invariant 0 <= s <= n
        invariant target < 0 ==> !SomeMissing(old(reuse[..]), s)
        invariant target < 0 ==> forall k :: 0 <= k < s ==> reuse[k] == old(reuse[k])
        invariant forall k :: 0 <= k < s ==> Kept(old(reuse[k]), reuse[k], target)
        invariant forall k :: 0 <= k < s && old(reuse[k]) == null ==> fresh(reuse[k])
        invariant forall k :: s <= k < reuse.Length ==> reuse[k] == old(reuse[k])
      {
        if s >= reuse.Length {
          return Thrown(ArrayIndexOutOfBounds);
        }
        var built := MakeLevelData(levelId, reuse[s]);
        if built.Thrown? {
          assert reuse[..] == old(reuse[..]);
          return Thrown(built.failure);
        }
        reuse[s] := built.value;
        s := s + 1;
      }
      r := Done(reuse);
    }

    /**
     * `build` / `myBuild`: the result array is allocated (all null) with
     * length `(int) Math.floor(levelSettings[0])` only when there is none yet,
     * and is never resized afterwards; it is then filled by `ShapeGeometry`.
     * With the all-zero settings of the source, the first build yields an
     * empty array.
     */
    method Build(id: int) returns (r: Outcome<array?<Float32Array?>>)
      requires Valid()
      modifies this, lastData
      ensures Valid()
      ensures old(lastData) != null ==> lastData == old(lastData)
      ensures var numSubsets := FloorToInt(old(levelSettings[0]));
              && (old(lastData) == null && numSubsets < 0 ==> r == Thrown(NegativeArraySize) && lastData == null)
              && (old(lastData) == null && numSubsets >= 0 ==>
                    fresh(lastData) && lastData != null && lastData.Length == numSubsets)
      ensures r.Done? ==> r.value == lastData
      ensures old(lastData) == null && (forall i :: 0 <= i < 20 ==> levelSettings[i] == 0.0) ==>
                r.Done? && r.value != null && r.value.Length == 0
    {
      var numSubsets := FloorToInt(levelSettings[0]);
      if lastData == null {
        if numSubsets < 0 {
          return Thrown(NegativeArraySize);
        }
        lastData := new Float32Array?[numSubsets](_ => null);
      }
      r := ShapeGeometry(id, lastData);
    }
  }
}
