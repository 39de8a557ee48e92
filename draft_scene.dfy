/**
 * `main/Renderer.java`: the early draft of the scheduler. Each update moves
 * every point of every layer 2.0 closer, counts one new layer for each layer
 * that has a point at exactly depth 2900 afterwards, appends that many white
 * layers at the end of the list, and removes the last layer that has a point
 * closer than 30.
 *
 * The application handle and the texture are only handed on to OpenGL; the
 * draft's `render` is not part of this model.
 */
module DraftScene {
  import opened Wrappers
  import opened Lists
  import opened DraftLayer

  /** How far every point moves towards the camera in one update. */
  const Step: real := 2.0

  /** The depth at which a point makes its layer summon a new one. */
  const SpawnDepth: real := 2900.0

  /** A layer with a point closer than this is retired. */
  const RetireDepth: real := 30.0

  // ---------------------------------------------------------------------------
  // One update, on values

  /** A point after one update: 2.0 closer, at the same position in the plane. */
  function Closer(c: Coordinate3D): (r: Coordinate3D)
    ensures r.x == c.x && r.y == c.y && r.z < c.z
  {
    c.(z := c.z - Step)
  }

  /** A layer's points after one update. */
  function Advanced(cs: seq<Coordinate3D>): (r: seq<Coordinate3D>)
    ensures |r| == |cs|
    ensures forall j :: 0 <= j < |cs| ==> r[j].x == cs[j].x && r[j].y == cs[j].y && r[j].z == cs[j].z - Step
    decreases |cs|
  {
    if cs == [] then [] else Advanced(cs[..|cs| - 1]) + [Closer(cs[|cs| - 1])]
  }

  /** Every layer's points after one update. */
  function AdvancedAll(shapes: seq<seq<Coordinate3D>>): (r: seq<seq<Coordinate3D>>)
    ensures |r| == |shapes|
    ensures forall i :: 0 <= i < |shapes| ==> r[i] == Advanced(shapes[i])
    decreases |shapes|
  {
    if shapes == [] then [] else AdvancedAll(shapes[..|shapes| - 1]) + [Advanced(shapes[|shapes| - 1])]
  }

  /** A layer whose points all share one depth, as every layer of this scheduler does. */
  predicate Flat(cs: seq<Coordinate3D>)
  {
    cs != [] && forall j :: 0 <= j < |cs| ==> cs[j].z == cs[0].z
  }

  /** A layer summons a new one when one of its points sits at exactly the spawn depth. */
  predicate Summons(cs: seq<Coordinate3D>)
    ensures Flat(cs) ==> (Summons(cs) <==> cs[0].z == SpawnDepth)
  {
    exists j :: 0 <= j < |cs| && cs[j].z == SpawnDepth
  }

  /** A layer is close enough to retire when one of its points is closer than the retire depth. */
  predicate Near(cs: seq<Coordinate3D>)
    ensures Flat(cs) ==> (Near(cs) <==> cs[0].z < RetireDepth)
  {
    exists j :: 0 <= j < |cs| && cs[j].z < RetireDepth
  }

  /** The number of layers that summon a new one: each layer counts once, however many of its points qualify. */
  function SpawnCount(shapes: seq<seq<Coordinate3D>>): (n: nat)
    ensures n <= |shapes|
    ensures n == 0 <==> forall i :: 0 <= i < |shapes| ==> !Summons(shapes[i])
    decreases |shapes|
  {
    if shapes == [] then 0
    else SpawnCount(shapes[..|shapes| - 1]) + (if Summons(shapes[|shapes| - 1]) then 1 else 0)
  }

  /** The index of the last layer close enough to retire, if any: the one the update removes. */
  function LastNear(shapes: seq<seq<Coordinate3D>>): (r: Option<nat>)
    ensures r.Some? ==> r.value < |shapes| && Near(shapes[r.value])
    ensures r.Some? ==> forall j :: r.value < j < |shapes| ==> !Near(shapes[j])
    ensures r.None? <==> forall j :: 0 <= j < |shapes| ==> !Near(shapes[j])
    decreases |shapes|
  {
    if shapes == [] then None
    else if Near(shapes[|shapes| - 1]) then Some(|shapes| - 1)
    else LastNear(shapes[..|shapes| - 1])
  }

  // ---------------------------------------------------------------------------
  // The life of one layer

  /** A layer's points after `k` updates. */
  function AfterUpdates(cs: seq<Coordinate3D>, k: nat): seq<Coordinate3D>
    decreases k
  {
    if k == 0 then cs else Advanced(AfterUpdates(cs, k - 1))
  }

  /** After `k` updates every point of a new layer is at depth `3000 - 2k`. */
  lemma {:induction false} DepthAfterUpdates(k: nat)
    ensures |AfterUpdates(CreateSquare(), k)| == 16
    ensures forall j :: 0 <= j < 16 ==> AfterUpdates(CreateSquare(), k)[j].z == SquareDepth - Step * k as real
  {
    if k > 0 {
      DepthAfterUpdates(k - 1);
    }
  }

  /** A layer summons exactly one successor in its life: in its 50th update, and in no other. */
  lemma SummonsOnlyInFiftiethUpdate(k: nat)
    ensures Summons(AfterUpdates(CreateSquare(), k)) <==> k == 50
  {
    DepthAfterUpdates(k);
    var cs := AfterUpdates(CreateSquare(), k);
    if k == 50 {
      assert cs[0].z == SpawnDepth;
    }
  }

  /** A layer becomes close enough to retire in its 1486th update and stays so. */
  lemma NearFromUpdate1486(k: nat)
    ensures Near(AfterUpdates(CreateSquare(), k)) <==> k >= 1486
  {
    DepthAfterUpdates(k);
    var cs := AfterUpdates(CreateSquare(), k);
    if k >= 1486 {
      assert cs[0].z < RetireDepth;
    }
  }

  // ---------------------------------------------------------------------------
  // The renderer

  /** The points of each layer of a list, in list order. */
  function Shapes(ls: seq<Layer>): (shs: seq<seq<Coordinate3D>>)
    reads Elements(ls)
    ensures |shs| == |ls|
    ensures forall i :: 0 <= i < |ls| ==> shs[i] == ls[i].coordinates
  {
    seq(|ls|, i reads Elements(ls) requires 0 <= i < |ls| => ls[i].coordinates)
  }

  /** A layer as the draft creates it: white, with the square pattern at depth 3000. */
  predicate WhiteLayer(l: Layer)
    reads l, l.rgba
  {
    && l.coordinates == CreateShape()
    && l.rgba.Length == 4
    && l.rgba[0] == 1.0 && l.rgba[1] == 1.0 && l.rgba[2] == 1.0 && l.rgba[3] == 1.0
  }

  /** A new white layer: its own colour array filled with `{1,1,1,1}`. */
  method NewWhiteLayer() returns (layer: Layer)
    ensures fresh(layer) && fresh(layer.rgba) && WhiteLayer(layer)
  {
    var white := new real[4](_ => 1.0);
    layer := new Layer(white);
  }

  class Renderer {
    var layers: seq<Layer>
    const focalLength: real
    const windowWidth: int
    const windowHeight: int
    const textureId: int
    var baseScale: real

    /** The constructor the application uses: a single white layer. */
    constructor (textureId: int, windowWidth: int, windowHeight: int)
      ensures |layers| == 1 && fresh(layers[0]) && fresh(layers[0].rgba) && WhiteLayer(layers[0])
      ensures this.textureId == textureId && this.windowWidth == windowWidth && this.windowHeight == windowHeight
      ensures focalLength == 300.0 && baseScale == 0.15
    {
      focalLength := 300.0;
      baseScale := 0.15;
      this.textureId := textureId;
      this.windowWidth := windowWidth;
      this.windowHeight := windowHeight;
      var layer := NewWhiteLayer();
      layers := [layer];
    }

    /** The constructor taking a ready list: the renderer works on exactly that list. */
    constructor FromList(layers: seq<Layer>, textureId: int, windowWidth: int, windowHeight: int)
      ensures this.layers == layers
      ensures this.textureId == textureId && this.windowWidth == windowWidth && this.windowHeight == windowHeight
      ensures focalLength == 300.0 && baseScale == 0.15
    {
      focalLength := 300.0;
      baseScale := 0.15;
      this.layers := layers;
      this.textureId := textureId;
      this.windowWidth := windowWidth;
      this.windowHeight := windowHeight;
    }

    method SetBaseScale(baseScale: real)
      modifies this
      ensures this.baseScale == baseScale && layers == old(layers)
    {
      this.baseScale := baseScale;
    }

    /**
     * The point loop of `update` for one layer: every point moves 2.0 closer
     * in place; the spawn counter goes up once if some point lands on the
     * spawn depth, and the layer becomes the one to remove if some point is
     * closer than the retire depth.
     */
    static method MovePoints(layer: Layer, newLayers: nat, removeLayer: Layer?) returns (count: nat, remove: Layer?)
      modifies layer
      ensures layer.coordinates == Advanced(old(layer.coordinates))
      ensures count == newLayers + (if Summons(layer.coordinates) then 1 else 0)
      ensures remove == if Near(layer.coordinates) then layer else removeLayer
    {
      ghost var cs := layer.coordinates;
      var summonNewLayer := false;
      count, remove := newLayers, removeLayer;
      var j := 0;
      while j < |layer.coordinates|
        invariant 0 <= j <= |cs| == |layer.coordinates|
        invariant forall k :: 0 <= k < j ==> layer.coordinates[k] == Closer(cs[k])
        invariant forall k :: j <= k < |cs| ==> layer.coordinates[k] == cs[k]
        invariant summonNewLayer <==> exists k :: 0 <= k < j && layer.coordinates[k].z == SpawnDepth
        invariant count == newLayers + (if summonNewLayer then 1 else 0)
        invariant remove == if exists k :: 0 <= k < j && layer.coordinates[k].z < RetireDepth then layer else removeLayer
      {
        var coord := Closer(layer.coordinates[j]);
        layer.coordinates := layer.coordinates[j := coord];
        if coord.z == SpawnDepth && !summonNewLayer {
          summonNewLayer := true;
          count := count + 1;
        }
        if coord.z < RetireDepth {
          remove := layer;
        }
        j := j + 1;
      }
      assert layer.coordinates == Advanced(cs);
    }

    /** Whether the depth-ordered facts of the layer loop hold after its first `i` layers. */
    static ghost predicate MovedUpTo(ls: seq<Layer>, i: nat, before: seq<seq<Coordinate3D>>, newLayers: nat, removeLayer: Layer?)
      requires i <= |ls| == |before|
      reads Elements(ls)
    {
      var moved := AdvancedAll(before);
      && (forall k :: 0 <= k < i ==> ls[k].coordinates == moved[k])
      && (forall k :: i <= k < |ls| ==> ls[k].coordinates == before[k])
      && newLayers == SpawnCount(moved[..i])
      && var gone := LastNear(moved[..i]);
         && (gone.None? ==> removeLayer == null)
         && (gone.Some? ==> removeLayer == ls[gone.value])
    }

    /** One pass of the layer loop of `update`: layer `i` moves, the others keep their points. */
    static method MoveLayerAt(ls: seq<Layer>, i: nat, ghost before: seq<seq<Coordinate3D>>, newLayers: nat, removeLayer: Layer?)
      returns (count: nat, remove: Layer?)
      requires Distinct(ls) && i < |ls| == |before|
      requires MovedUpTo(ls, i, before, newLayers, removeLayer)
      modifies ls[i]
      ensures MovedUpTo(ls, i + 1, before, count, remove)
    {
      ghost var moved := AdvancedAll(before);
      var layer := ls[i];
      assert layer.coordinates == before[i] && moved[i] == Advanced(before[i]);
      label Before:
      count, remove := MovePoints(layer, newLayers, removeLayer);
      assert layer.coordinates == moved[i];
      forall k | 0 <= k < |ls| && k != i
        ensures ls[k].coordinates == old@Before(ls[k].coordinates)
      {
        assert ls[k] != layer;
      }
      assert moved[..i + 1][..i] == moved[..i];
    }

    /**
     * The layer loop of `update`: every layer is moved; the counter ends at
     * the number of layers that summon a new one, and the layer to remove is
     * the last one close enough, if any.
     */
    static method MoveLayers(ls: seq<Layer>) returns (newLayers: nat, removeLayer: Layer?)
      requires Distinct(ls)
      modifies Elements(ls)
      ensures Shapes(ls) == AdvancedAll(old(Shapes(ls)))
      ensures newLayers == SpawnCount(AdvancedAll(old(Shapes(ls))))
      ensures var gone := LastNear(AdvancedAll(old(Shapes(ls))));
              && (gone.None? ==> removeLayer == null)
              && (gone.Some? ==> removeLayer == ls[gone.value])
    {
      ghost var before := Shapes(ls);
      newLayers, removeLayer := 0, null;
      var i := 0;
      while i < |ls|
        invariant 0 <= i <= |ls|
        invariant MovedUpTo(ls, i, before, newLayers, removeLayer)
      {
        newLayers, removeLayer := MoveLayerAt(ls, i, before, newLayers, removeLayer);
        i := i + 1;
      }
      ghost var moved := AdvancedAll(before);
      assert moved[..|ls|] == moved;
      assert Shapes(ls) == moved;
    }

    /** The spawn loop of `update`: `n` new white layers appended at the end, in order. */
    static method AppendWhiteLayers(ls: seq<Layer>, n: nat) returns (next: seq<Layer>)
      ensures |next| == |ls| + n && next[..|ls|] == ls
      ensures Distinct(next[|ls|..])
      ensures forall k :: |ls| <= k < |next| ==> fresh(next[k]) && fresh(next[k].rgba) && WhiteLayer(next[k])
    {
      next := ls;
      var l := 0;
      while l < n
        invariant 0 <= l <= n
        invariant |next| == |ls| + l && next[..|ls|] == ls
        invariant Distinct(next[|ls|..])
        invariant forall k :: |ls| <= k < |next| ==> fresh(next[k]) && fresh(next[k].rgba) && WhiteLayer(next[k])
      {
        var layer := NewWhiteLayer();
        ghost var added := next[|ls|..];
        next := next + [layer];
        assert next[|ls|..] == added + [layer];
        AppendDistinct(added, [layer]);
        l := l + 1;
      }
    }

    /**
     * The spawn and retirement part of `update`: `n` white layers are
     * appended, then the layer to remove, if any, is removed from the combined
     * list, which leaves the survivors in their order followed by the spawns.
     */
    static method SpawnAndRetire(ls: seq<Layer>, n: nat, removeLayer: Layer?, ghost gone: Option<nat>) returns (next: seq<Layer>)
      requires Distinct(ls)
      requires gone.None? ==> removeLayer == null
      requires gone.Some? ==> gone.value < |ls| && removeLayer == ls[gone.value]
      ensures Distinct(next)
      ensures |next| == |ls| + n - (if gone.Some? then 1 else 0)
      ensures next == Survivors(ls, gone) + next[|next| - n..]
      ensures forall k :: |next| - n <= k < |next| ==> fresh(next[k]) && fresh(next[k].rgba) && WhiteLayer(next[k])
    {
      next := AppendWhiteLayers(ls, n);
      ghost var appended := next[|ls|..];
      assert next == ls + appended;
      RetireBeforeAppends(ls, appended, gone);
      if removeLayer != null {
        next := RemoveFirst<Layer>(next, removeLayer);
      }
      assert next == Survivors(ls, gone) + appended;
    }

    /** The list side of `update`: the layers move, then the spawns and the retirement. */
    static method AdvanceLayers(ls: seq<Layer>) returns (next: seq<Layer>)
      requires Distinct(ls)
      modifies Elements(ls)
      ensures Distinct(next)
      ensures Shapes(ls) == AdvancedAll(old(Shapes(ls)))
      ensures var moved := AdvancedAll(old(Shapes(ls)));
              var gone := LastNear(moved);
              var n := SpawnCount(moved);
              && |next| == |ls| + n - (if gone.Some? then 1 else 0)
              && next == Survivors(ls, gone) + next[|next| - n..]
              && forall k :: |next| - n <= k < |next| ==>
                   fresh(next[k]) && fresh(next[k].rgba) && WhiteLayer(next[k])
    {
      ghost var moved := AdvancedAll(Shapes(ls));
      var newLayers, removeLayer := MoveLayers(ls);
      ghost var gone := LastNear(moved);
      next := SpawnAndRetire(ls, newLayers, removeLayer, gone);
      assert |next| == |ls| + newLayers - (if gone.Some? then 1 else 0);
    }

    /**
     * The assignment that installs the updated list: only the list field
     * changes, so the layers of `ls` keep their points and the last `n`
     * layers of `next` stay white.
     */
    method SetLayers(next: seq<Layer>, ghost ls: seq<Layer>, ghost n: nat)
      requires n <= |next|
      modifies this
      ensures layers == next
      ensures Shapes(ls) == old(Shapes(ls))
      ensures forall k :: |next| - n <= k < |next| && old(WhiteLayer(next[k])) ==> WhiteLayer(next[k])
      ensures baseScale == old(baseScale)
    {
      layers := next;
    }

    /**
     * `update`: every layer moves 2.0 closer; one white layer per summoning
     * layer is appended at the end; then the last layer close enough to
     * retire, if any, is removed. The list keeps no duplicates, its size
     * grows by the spawns and shrinks by at most one.
     */
    method Update()
      requires Distinct(layers)
      modifies this, Elements(layers)
      ensures Distinct(layers)
      ensures Shapes(old(layers)) == AdvancedAll(old(Shapes(layers)))
      ensures var moved := AdvancedAll(old(Shapes(layers)));
              var gone := LastNear(moved);
              var n := SpawnCount(moved);
              && |layers| == |old(layers)| + n - (if gone.Some? then 1 else 0)
              && layers == Survivors(old(layers), gone) + layers[|layers| - n..]
              && forall k :: |layers| - n <= k < |layers| ==>
                   fresh(layers[k]) && fresh(layers[k].rgba) && WhiteLayer(layers[k])
      ensures baseScale == old(baseScale)
    {
      ghost var ls := layers;
      ghost var moved := AdvancedAll(Shapes(ls));
      ghost var n := SpawnCount(moved);
      ghost var gone := LastNear(moved);
      var next := AdvanceLayers(layers);
      assert next == Survivors(ls, gone) + next[|next| - n..];
      SetLayers(next, ls, n);
    }
  }
}
