/**
 * `rendering/Renderer.java`: the scene the visualizer flies through. Each
 * update cycles the rotation mode on a timer, runs the fade-in, moves every
 * layer towards the camera, spawns new layers at the far depth whenever the
 * travelled distance crosses the layer spacing, retires a layer that came too
 * close, and turns the whole scene. Rendering projects every point of every
 * layer and appends the fade overlay while the fade-in runs.
 *
 * The OpenGL calls are replaced by the list of draws they would issue.
 */
module Scene {
  import opened Wrappers
  import opened Lists
  import opened JavaMath
  import opened Settings
  import opened LayerData
  import opened Effects
  import opened Projection
  import opened Timing

  /** The mode script the renderer steps through, one entry per timer expiry. */
  const RotationAnimation: seq<int> := [0, 1, 2, 2, 1, 4, 5, 4, 5, 7, 7, 6, 6, 7, 7]

  /** Seconds between two mode changes. */
  const ModeSeconds: real := 10.0

  // ---------------------------------------------------------------------------
  // Rotation-mode script

  /** The clamp of `initializeSettings`: a mode outside 0..6 falls back to 0. */
  function ClampMode(mode: int): (r: int)
    ensures 0 <= r <= 6
    ensures r == mode <==> 0 <= mode <= 6
    ensures r != mode ==> r == 0
  {
    if mode < 0 then 0 else if mode > 6 then 0 else mode
  }

  datatype ModeState = ModeState(mode: int, counter: int)

  /**
   * One timer expiry: the counter wraps to 0 once it has run past the script,
   * the mode becomes the script entry at the counter, and the counter advances.
   */
  function NextMode(script: seq<int>, counter: int): (r: ModeState)
    requires |script| > 0 && 0 <= counter
    ensures 1 <= r.counter <= |script|
    ensures r.mode == script[r.counter - 1]
    ensures counter < |script| ==> r.counter == counter + 1
    ensures counter >= |script| ==> r.counter == 1
  {
    var c := if counter >= |script| then 0 else counter;
    ModeState(script[c], c + 1)
  }

  /** The modes chosen by `n` successive timer expiries, starting from `counter`. */
  function ModesAfter(script: seq<int>, counter: int, n: nat): seq<int>
    requires |script| > 0 && 0 <= counter
    decreases n
  {
    if n == 0 then []
    else
      var r := NextMode(script, counter);
      [r.mode] + ModesAfter(script, r.counter, n - 1)
  }

  /** From counter `c`, the next `n` expiries read the script straight on, as long as it lasts. */
  lemma {:induction false} ModesFollowScript(script: seq<int>, c: int, n: nat)
    requires 0 <= c < |script| && c + n <= |script|
    ensures ModesAfter(script, c, n) == script[c..c + n]
    decreases n
  {
    if n > 0 {
      assert NextMode(script, c) == ModeState(script[c], c + 1);
      assert ModesAfter(script, c, n) == [script[c]] + ModesAfter(script, c + 1, n - 1);
      if n > 1 {
        ModesFollowScript(script, c + 1, n - 1);
      }
      assert ModesAfter(script, c + 1, n - 1) == script[c + 1..c + n];
      assert script[c..c + n] == [script[c]] + script[c + 1..c + n];
    }
  }

  /** A counter that has run past the script behaves exactly like a fresh counter. */
  lemma ModesWrapAround(script: seq<int>, n: nat)
    requires |script| > 0
    ensures ModesAfter(script, |script|, n) == ModesAfter(script, 0, n)
  {
  }

  /** From counter `c`, the rest of the script plays, and then the script starts over. */
  lemma {:induction false} ModesFinishScript(script: seq<int>, c: int, n: nat)
    requires 0 <= c < |script|
    ensures ModesAfter(script, c, |script| - c + n) == script[c..] + ModesAfter(script, 0, n)
    decreases |script| - c
  {
    var r := NextMode(script, c);
    assert script[c..] == [script[c]] + script[c + 1..];
    if c + 1 < |script| {
      ModesFinishScript(script, c + 1, n);
    } else {
      ModesWrapAround(script, n);
    }
  }

  /**
   * From a fresh counter the modes follow the script and then repeat it:
   * the first `|script|` expiries give the script itself, and every later run
   * is the script followed by the same run again.
   */
  lemma ModesCycle(script: seq<int>, n: nat)
    requires |script| > 0
    ensures n <= |script| ==> ModesAfter(script, 0, n) == script[..n]
    ensures ModesAfter(script, 0, |script| + n) == script + ModesAfter(script, 0, n)
  {
    if n <= |script| {
      if n > 0 {
        ModesFollowScript(script, 0, n);
      }
    }
    ModesFinishScript(script, 0, n);
  }

  /** The shipped script: the 15 entries play in order, then the script starts over with mode 0. */
  lemma ShippedScriptCycles()
    ensures ModesAfter(RotationAnimation, 0, 15) == RotationAnimation
    ensures ModesAfter(RotationAnimation, 0, 17) == RotationAnimation + [0, 1]
  {
    ModesCycle(RotationAnimation, 0);
    ModesCycle(RotationAnimation, 2);
    ModesCycle(RotationAnimation, 15);
    assert RotationAnimation[..2] == [0, 1];
  }

  // ---------------------------------------------------------------------------
  // Spawning from the travel accumulator

  /** How many layers to spawn and the travel left over. */
  datatype Drain = Drain(spawns: nat, rest: real)

  /** `n` layer spacings laid end to end: `n * d`, built by repeated addition as the drain loop builds it. */
  function Span(n: nat, d: real): (r: real)
    ensures d >= 0.0 ==> r >= 0.0
    decreases n
  {
    if n == 0 then 0.0 else Span(n - 1, d) + d
  }

  /** A span is the product of the count and the spacing. */
  lemma {:induction false} SpanIsProduct(n: nat, d: real)
    ensures Span(n, d) == n as real * d
    decreases n
  {
    if n > 0 {
      SpanIsProduct(n - 1, d);
    }
  }

  /** Spans laid end to end add up. */
  lemma {:induction false} SpanAdd(a: nat, b: nat, d: real)
    ensures Span(a + b, d) == Span(a, d) + Span(b, d)
    decreases b
  {
    if b > 0 {
      SpanAdd(a, b - 1, d);
    }
  }

  /**
   * What draining the accumulator yields: as many whole layer spacings as fit
   * into `acc` (none when `acc` is below one spacing), and the remainder.
   */
  function DrainSpec(acc: real, layerDistance: int): (r: Drain)
    requires layerDistance > 0
    ensures Span(r.spawns, layerDistance as real) + r.rest == acc
    ensures r.rest < layerDistance as real
    ensures acc >= 0.0 ==> 0.0 <= r.rest
    ensures acc < layerDistance as real <==> r.spawns == 0
    decreases if acc >= layerDistance as real then acc.Floor else 0
  {
    if acc < layerDistance as real then Drain(0, acc)
    else
      var r := DrainSpec(acc - layerDistance as real, layerDistance);
      assert Span(r.spawns + 1, layerDistance as real) == Span(r.spawns, layerDistance as real) + layerDistance as real;
      Drain(r.spawns + 1, r.rest)
  }

  /** A count and a remainder in [0, layerDistance) that add up to `acc` are exactly what the drain yields. */
  lemma {:induction false} DrainUnique(acc: real, layerDistance: int, n: nat, rest: real)
    requires layerDistance > 0 && 0.0 <= rest < layerDistance as real
    requires Span(n, layerDistance as real) + rest == acc
    ensures DrainSpec(acc, layerDistance) == Drain(n, rest)
    decreases n
  {
    if n > 0 {
      DrainUnique(acc - layerDistance as real, layerDistance, n - 1, rest);
    }
  }

  function Sum(xs: seq<real>): real
    decreases |xs|
  {
    if xs == [] then 0.0 else xs[0] + Sum(xs[1..])
  }

  lemma {:induction false} SumNonNegative(xs: seq<real>)
    requires forall i :: 0 <= i < |xs| ==> xs[i] >= 0.0
    ensures Sum(xs) >= 0.0
    decreases |xs|
  {
    if xs != [] {
      SumNonNegative(xs[1..]);
    }
  }

  /** Spawns over a run of updates with the given movements, and the final accumulator. */
  function DrainRun(acc: real, layerDistance: int, moves: seq<real>): Drain
    requires layerDistance > 0
    decreases |moves|
  {
    if moves == [] then Drain(0, acc)
    else
      var s := DrainSpec(acc + moves[0], layerDistance);
      var t := DrainRun(s.rest, layerDistance, moves[1..]);
      Drain(s.spawns + t.spawns, t.rest)
  }

  /** A run of updates accounts for all of its travel: its spawns and remainder add up to the start plus every move. */
  lemma {:induction false} DrainRunAdds(acc: real, layerDistance: int, moves: seq<real>)
    requires layerDistance > 0 && 0.0 <= acc < layerDistance as real
    requires forall i :: 0 <= i < |moves| ==> moves[i] >= 0.0
    ensures var r := DrainRun(acc, layerDistance, moves);
            Span(r.spawns, layerDistance as real) + r.rest == acc + Sum(moves) && 0.0 <= r.rest < layerDistance as real
    decreases |moves|
  {
    if moves != [] {
      var s := DrainSpec(acc + moves[0], layerDistance);
      var t := DrainRun(s.rest, layerDistance, moves[1..]);
      DrainRunAdds(s.rest, layerDistance, moves[1..]);
      SpanAdd(s.spawns, t.spawns, layerDistance as real);
    }
  }

  /**
   * No travel is lost or counted twice across updates: with no backward
   * movement, a run of updates spawns exactly as many layers, and leaves the
   * same remainder, as one update moving the whole distance at once, however
   * the movement is split into frames.
   */
  lemma DrainRunIsOneDrain(acc: real, layerDistance: int, moves: seq<real>)
    requires layerDistance > 0 && 0.0 <= acc < layerDistance as real
    requires forall i :: 0 <= i < |moves| ==> moves[i] >= 0.0
    ensures DrainRun(acc, layerDistance, moves) == DrainSpec(acc + Sum(moves), layerDistance)
  {
    var r := DrainRun(acc, layerDistance, moves);
    DrainRunAdds(acc, layerDistance, moves);
    DrainUnique(acc + Sum(moves), layerDistance, r.spawns, r.rest);
  }

  /** Three updates moving 150 each with spacing 100 spawn 4 layers (450 / 100, rounded down) and leave 50. */
  lemma ThreeUpdatesSpawnFour()
    ensures DrainRun(0.0, 100, [150.0, 150.0, 150.0]) == Drain(4, 50.0)
  {
    var moves := [150.0, 150.0, 150.0];
    assert Sum(moves[2..]) == 150.0;
    assert Sum(moves[1..]) == 300.0;
    assert Sum(moves) == 450.0;
    DrainRunIsOneDrain(0.0, 100, moves);
    SpanIsProduct(4, 100.0);
    DrainUnique(450.0, 100, 4, 50.0);
  }

  /**
   * The drain loop of `update`: subtract the spacing while the accumulator
   * holds at least one spacing, counting the subtractions. It terminates only
   * for a positive spacing or an accumulator already below it.
   */
  method DrainAccumulator(zAccumulator: real, layerDistance: int) returns (newLayers: nat, rest: real)
    requires layerDistance > 0 || zAccumulator < layerDistance as real
    ensures layerDistance > 0 ==> Drain(newLayers, rest) == DrainSpec(zAccumulator, layerDistance)
    ensures layerDistance <= 0 ==> newLayers == 0 && rest == zAccumulator
  {
    newLayers := 0;
    rest := zAccumulator;
    while rest >= layerDistance as real
      invariant rest >= layerDistance as real ==> layerDistance > 0
      invariant layerDistance > 0 ==>
                  DrainSpec(zAccumulator, layerDistance) ==
                  Drain(newLayers + DrainSpec(rest, layerDistance).spawns, DrainSpec(rest, layerDistance).rest)
      invariant layerDistance <= 0 ==> newLayers == 0 && rest == zAccumulator
      decreases if rest >= layerDistance as real then rest.Floor else 0
    {
      rest := rest - layerDistance as real;
      newLayers := newLayers + 1;
    }
  }

  // ---------------------------------------------------------------------------
  // Retiring a layer

  /** The index of the last depth below `threshold`, if any: the layer `update` retires. */
  function LastBelow(zs: seq<real>, threshold: real): (r: Option<nat>)
    ensures r.Some? ==> r.value < |zs| && zs[r.value] < threshold
    ensures r.Some? ==> forall j :: r.value < j < |zs| ==> zs[j] >= threshold
    ensures r.None? <==> forall j :: 0 <= j < |zs| ==> zs[j] >= threshold
    decreases |zs|
  {
    if zs == [] then None
    else if zs[|zs| - 1] < threshold then Some(|zs| - 1)
    else LastBelow(zs[..|zs| - 1], threshold)
  }

  /** Appending a depth: it becomes the retired one exactly when it is below the threshold. */
  lemma LastBelowSnoc(zs: seq<real>, z: real, threshold: real)
    ensures LastBelow(zs + [z], threshold) == if z < threshold then Some(|zs|) else LastBelow(zs, threshold)
  {
    assert (zs + [z])[..|zs|] == zs;
  }

  /** How far the camera travels in one update: the speed times the frame time. */
  function Travel(speed: real, deltaTime: real): real
  {
    speed * deltaTime
  }

  /** The mutable part of a layer: depth, colour array, angle and oscillation clock. */
  datatype LayerState = LayerState(z: real, rgba: array<real>, angle: real, time: real)

  function StateOf(l: Layer): LayerState
    reads l
  {
    LayerState(l.z, l.rgba, l.rotationAngle, l.time)
  }

  /** The snapshots of a list of layers, in list order. */
  function States(ls: seq<Layer>): (sts: seq<LayerState>)
    reads Elements(ls)
    ensures |sts| == |ls|
    decreases |ls|
  {
    if ls == [] then [] else States(ls[..|ls| - 1]) + [StateOf(ls[|ls| - 1])]
  }

  /** Two snapshot lists that agree entry by entry are equal. */
  lemma SameStates(a: seq<LayerState>, b: seq<LayerState>)
    requires |a| == |b| && forall k :: 0 <= k < |a| ==> a[k] == b[k]
    ensures a == b
  {
  }

  /** Entry `i` of the snapshots is the snapshot of layer `i`. */
  lemma {:induction false} StatesAt(ls: seq<Layer>, i: nat)
    requires i < |ls|
    ensures States(ls)[i] == StateOf(ls[i])
    decreases |ls|
  {
    if i < |ls| - 1 {
      StatesAt(ls[..|ls| - 1], i);
    }
  }

  /** The snapshots depend on the layers' own fields only. */
  twostate lemma {:induction false} StatesFramed(ls: seq<Layer>)
    requires unchanged(Elements(ls))
    ensures States(ls) == old(States(ls))
    decreases |ls|
  {
    if ls != [] {
      StatesFramed(ls[..|ls| - 1]);
    }
  }

  /** The depths recorded in a list of snapshots. */
  function Zs(sts: seq<LayerState>): (zs: seq<real>)
    ensures |zs| == |sts| && forall i :: 0 <= i < |sts| ==> zs[i] == sts[i].z
    decreases |sts|
  {
    if sts == [] then [] else Zs(sts[..|sts| - 1]) + [sts[|sts| - 1].z]
  }

  // ---------------------------------------------------------------------------
  // Rendering

  /** One `glDrawArrays` of the six-vertex quad, with the uniforms set for it. */
  datatype Draw = Draw(offsetX: real, offsetY: real, scale: real, color: seq<real>, aspect: real, textured: bool)

  /** What the renderer reads from a layer when drawing it. */
  datatype LayerView = LayerView(points: seq<Point2D>, z: real, angle: real, color: seq<real>)

  function Aspect(cam: Camera): real
    requires cam.windowHeight != 0
  {
    cam.windowWidth as real / cam.windowHeight as real
  }

  /** The rotation a layer is drawn with: its own angle in the per-layer modes, the scene's in 1..3, none otherwise. */
  function LayerRotation(mode: int, wholeAngle: real, layerAngle: real, math: Trig): (r: (real, real))
    ensures mode >= 4 ==> r == CalculateAngles(layerAngle, math)
    ensures 1 <= mode <= 3 ==> r == CalculateAngles(wholeAngle, math)
    ensures mode <= 0 ==> r == (1.0, 0.0)
  {
    if mode >= 4 then GetAngles(mode, layerAngle, math)
    else if 1 <= mode <= 3 then GetAngles(mode, wholeAngle, math)
    else (1.0, 0.0)
  }

  /**
   * The draw of one point: a textured quad in the layer's colour and the window's aspect ratio, scaled by
   * the layer's depth; the model origin lands at the centre of the viewport.
   */
  function PointDraw(p: Point2D, rot: (real, real), z: real, color: seq<real>, cam: Camera): (r: Draw)
    requires Drawable(z, cam)
    ensures r.textured && r.color == color && r.aspect == Aspect(cam)
    ensures r.scale == cam.focalLength / z * cam.baseScale
    ensures p == Point2D(0.0, 0.0) ==> r.offsetX == 0.0 && r.offsetY == 0.0
  {
    var pl := Project(p, rot.0, rot.1, z, cam);
    Draw(pl.ndcX, pl.ndcY, pl.scale, color, Aspect(cam), true)
  }

  /** The draws of one layer: one textured quad per point, in point order. */
  function LayerDraws(v: LayerView, mode: int, wholeAngle: real, math: Trig, cam: Camera): (r: seq<Draw>)
    requires Drawable(v.z, cam)
    ensures |r| == |v.points|
    ensures forall j :: 0 <= j < |r| ==> r[j] == PointDraw(v.points[j], LayerRotation(mode, wholeAngle, v.angle, math), v.z, v.color, cam)
  {
    var rot := LayerRotation(mode, wholeAngle, v.angle, math);
    seq(|v.points|, j requires 0 <= j < |v.points| => PointDraw(v.points[j], rot, v.z, v.color, cam))
  }

  predicate AllDrawable(views: seq<LayerView>, cam: Camera)
  {
    forall i :: 0 <= i < |views| ==> Drawable(views[i].z, cam)
  }

  /** The draws of all layers, layer by layer in list order. */
  function FrameDraws(views: seq<LayerView>, mode: int, wholeAngle: real, math: Trig, cam: Camera): (r: seq<Draw>)
    requires AllDrawable(views, cam)
    ensures forall i :: 0 <= i < |r| ==> r[i].textured && cam.windowHeight != 0 && r[i].aspect == Aspect(cam)
    decreases |views|
  {
    if views == [] then []
    else FrameDraws(views[..|views| - 1], mode, wholeAngle, math, cam)
         + LayerDraws(views[|views| - 1], mode, wholeAngle, math, cam)
  }

  /** `renderFadeLayer`: an untextured black quad covering the viewport, with the fade alpha. */
  function Overlay(fadeAlpha: real): (d: Draw)
    ensures !d.textured && |d.color| == 4 && d.color[3] == fadeAlpha
    ensures 0.0 <= fadeAlpha <= 1.0 ==> forall i :: 0 <= i < 4 ==> 0.0 <= d.color[i] <= 1.0
  {
    Draw(0.0, 0.0, 2.0, [0.0, 0.0, 0.0, fadeAlpha], 1.0, false)
  }

  /** With every layer holding the 16-point pattern, a frame issues 16 draws per layer. */
  lemma {:induction false} FrameDrawsLength(views: seq<LayerView>, mode: int, wholeAngle: real, math: Trig, cam: Camera)
    requires AllDrawable(views, cam)
    requires forall i :: 0 <= i < |views| ==> |views[i].points| == 16
    ensures |FrameDraws(views, mode, wholeAngle, math, cam)| == 16 * |views|
    decreases |views|
  {
    if views != [] {
      FrameDrawsLength(views[..|views| - 1], mode, wholeAngle, math, cam);
    }
  }

  /**
   * Draw `16 * k + j` of a frame is point `j` of layer `k`, projected at that
   * layer's depth with that layer's rotation and coloured with its colour.
   */
  lemma {:induction false} FrameDrawsAt(views: seq<LayerView>, mode: int, wholeAngle: real, math: Trig, cam: Camera,
                                        k: nat, j: nat)
    requires AllDrawable(views, cam)
    requires forall i :: 0 <= i < |views| ==> |views[i].points| == 16
    requires k < |views| && j < 16
    ensures 16 * k + j < |FrameDraws(views, mode, wholeAngle, math, cam)|
    ensures FrameDraws(views, mode, wholeAngle, math, cam)[16 * k + j] ==
            PointDraw(views[k].points[j], LayerRotation(mode, wholeAngle, views[k].angle, math), views[k].z, views[k].color, cam)
    decreases |views|
  {
    var init := views[..|views| - 1];
    FrameDrawsLength(init, mode, wholeAngle, math, cam);
    FrameDrawsLength(views, mode, wholeAngle, math, cam);
    if k < |views| - 1 {
      FrameDrawsAt(init, mode, wholeAngle, math, cam, k, j);
    }
  }

  /** In a rotation-free mode every point is drawn at its unrotated projection. */
  lemma NoRotationInModeZero(p: Point2D, wholeAngle: real, layerAngle: real, math: Trig, z: real, color: seq<real>, cam: Camera)
    requires Drawable(z, cam)
    ensures var d := PointDraw(p, LayerRotation(0, wholeAngle, layerAngle, math), z, color, cam);
            var pl := Project(p, 1.0, 0.0, z, cam);
            && d.offsetX == pl.ndcX && d.offsetY == pl.ndcY && d.scale == pl.scale
            && d.offsetX == p.x * (cam.focalLength / z) / (cam.windowWidth as real / 2.0)
            && d.offsetY == p.y * (cam.focalLength / z) / (cam.windowHeight as real / 2.0)
  {
    IdentityRotation(p);
  }

  /**
   * The layer list `initializeSettings` starts from: in debug mode one layer
   * at the debug depth with a copy of the debug colour, otherwise the initial
   * population of `fx`. Every layer is fresh, unturned and has the square
   * pattern.
   */
  method FirstLayers(fx: Effects, cfg: Config, debugMode: bool, draws: nat -> real) returns (ls: seq<Layer>)
    requires fx.initFrontLayerDistance == cfg.initFrontDistance && fx.initZ == cfg.initZ
    requires fx.layerDistance == cfg.layerDistance && fx.alphaClamp == cfg.idleAlphaClamp
    requires !debugMode && cfg.initFrontDistance < cfg.initZ ==> cfg.layerDistance > 0
    requires debugMode ==> |cfg.debugRgba| == 4
    ensures Distinct(ls)
    ensures forall i :: 0 <= i < |ls| ==>
              && ls[i].rgba.Length == 4 && ls[i].coordinates == CreateShape()
              && ls[i].rotationAngle == 0.0 && ls[i].time == 0.0
    ensures debugMode ==>
              && |ls| == 1 && fresh(ls[0]) && fresh(ls[0].rgba)
              && ls[0].z == cfg.debugInitZ as real && ls[0].rgba[..] == cfg.debugRgba
    ensures !debugMode ==>
              var ds := InitialDepths(cfg.initFrontDistance, cfg.initZ, cfg.layerDistance);
              && |ls| == |ds|
              && forall i :: 0 <= i < |ls| ==>
                   && fresh(ls[i]) && fresh(ls[i].rgba)
                   && ls[i].z == ds[i] as real
                   && ls[i].rgba[..] == RandomRGBA(draws(4 * i), draws(4 * i + 1), draws(4 * i + 2), draws(4 * i + 3), cfg.idleAlphaClamp)
  {
    if debugMode {
      var rgba := new real[|cfg.debugRgba|](i requires 0 <= i < |cfg.debugRgba| => cfg.debugRgba[i]);
      var layer := new Layer(rgba, cfg.debugInitZ);
      ls := [layer];
    } else {
      ls := fx.CreateInitialLayers(draws);
    }
  }

  // ---------------------------------------------------------------------------
  // The renderer

  class Renderer {
    const windowWidth: int
    const windowHeight: int
    const baseScale: real
    /** All active layers, frontmost (most recently spawned) first. */
    var layers: seq<Layer>
    const initZ: int
    const layerDistance: int
    const removeLayerDistance: int
    var zAccumulator: real
    const focalLength: real
    var rotationAngle: real
    var speed: real
    var rotationMode: int
    const rotationAnimation: seq<int>
    var animationCounter: int
    const timer: Timer
    const effects: Effects
    const debugMode: bool

    /** The mode script is non-empty, the counter within it, no layer is listed twice and every colour has four channels. */
    ghost predicate Valid()
      reads this, Elements(layers)
    {
      && |rotationAnimation| > 0
      && 0 <= animationCounter <= |rotationAnimation|
      && Distinct(layers)
      && forall i :: 0 <= i < |layers| ==> layers[i].rgba.Length == 4
    }

    /** Every angle of the scene lies in [0,360), the range the wrap after each step aims for. */
    ghost predicate Wrapped()
      reads this, Elements(layers)
    {
      && 0.0 <= rotationAngle < 360.0
      && forall i :: 0 <= i < |layers| ==> 0.0 <= layers[i].rotationAngle < 360.0
    }

    /** Both rotation families take steps of at most a full turn in a frame of `deltaTime`. */
    ghost predicate SmallSteps(deltaTime: real)
    {
      && SmallStep(deltaTime, effects.wholeRotationSpeed, effects.wholeSwingAmplitude, effects.math.sin)
      && SmallStep(deltaTime, effects.layerRotationSpeed, effects.layerSwingAmplitude, effects.math.sin)
    }

    function Cam(): Camera
    {
      Camera(focalLength, baseScale, windowWidth, windowHeight)
    }

    /**
     * The constructor with `initializeSettings`: settings from the configuration,
     * mode 0 after the clamp, a 10-second mode timer started at `now`, fresh
     * effects, and either the single debug layer or the initial population.
     */
    constructor (cfg: Config, debugMode: bool, now: real, math: Trig, draws: nat -> real)
      requires !debugMode && cfg.initFrontDistance < cfg.initZ ==> cfg.layerDistance > 0
      requires debugMode ==> |cfg.debugRgba| == 4
      ensures Valid() && Wrapped()
      ensures windowWidth == cfg.virtualWidth && windowHeight == cfg.virtualHeight && baseScale == cfg.baseImageScale
      ensures initZ == cfg.initZ && layerDistance == cfg.layerDistance && removeLayerDistance == cfg.removeLayerDistance
      ensures focalLength == cfg.focalLength && speed == cfg.startSpeed
      ensures zAccumulator == 0.0 && rotationAngle == 0.0
      ensures rotationMode == 0 && animationCounter == 0 && rotationAnimation == RotationAnimation
      ensures this.debugMode == debugMode
      ensures fresh(timer) && timer.duration == ModeSeconds && timer.startTime == now && !timer.triggered
      ensures fresh(effects) && effects.math == math && !effects.initialized && effects.fadeAlpha == cfg.initFadeAlpha
      ensures effects.wholeRotationTime == 0.0 && effects.alphaClamp == cfg.idleAlphaClamp
      ensures effects.fadeSpeed == cfg.fadeSpeed && effects.idleSpeed == cfg.idleSpeed
      ensures effects.wholeRotationSpeed == cfg.wholeRotationSpeed && effects.wholeOscillationSpeed == cfg.wholeOscillationSpeed
      ensures effects.wholeSwingAmplitude == cfg.wholeSwingAmplitude
      ensures effects.layerRotationSpeed == cfg.layerRotationSpeed && effects.layerOscillationSpeed == cfg.layerOscillationSpeed
      ensures effects.layerSwingAmplitude == cfg.layerSwingAmplitude
      ensures forall i :: 0 <= i < |layers| ==>
                layers[i].coordinates == CreateShape() && layers[i].rotationAngle == 0.0 && layers[i].time == 0.0
      ensures debugMode ==>
                && |layers| == 1 && fresh(layers[0]) && fresh(layers[0].rgba)
                && layers[0].z == cfg.debugInitZ as real && layers[0].rgba[..] == cfg.debugRgba
      ensures !debugMode ==>
                var ds := InitialDepths(cfg.initFrontDistance, cfg.initZ, cfg.layerDistance);
                && |layers| == |ds|
                && forall i :: 0 <= i < |layers| ==>
                     && fresh(layers[i]) && fresh(layers[i].rgba)
                     && layers[i].z == ds[i] as real
                     && layers[i].rgba[..] == RandomRGBA(draws(4 * i), draws(4 * i + 1), draws(4 * i + 2), draws(4 * i + 3), cfg.idleAlphaClamp)
    {
      windowWidth := cfg.virtualWidth;
      windowHeight := cfg.virtualHeight;
      baseScale := cfg.baseImageScale;
      initZ := cfg.initZ;
      layerDistance := cfg.layerDistance;
      removeLayerDistance := cfg.removeLayerDistance;
      focalLength := cfg.focalLength;
      speed := cfg.startSpeed;
      zAccumulator := 0.0;
      rotationAngle := 0.0;
      rotationMode := ClampMode(0);
      rotationAnimation := RotationAnimation;
      animationCounter := 0;
      this.debugMode := debugMode;
      timer := new Timer(ModeSeconds, now);
      var fx := new Effects(cfg, math);
      effects := fx;
      var first := FirstLayers(fx, cfg, debugMode, draws);
      layers := first;
    }

    /** How one update turns a layer: the base-4 step of the current mode in the per-layer modes, nothing otherwise. */
    function LayerTurn(mode: int, s: Spin, deltaTime: real): Spin
    {
      if mode >= 4 then
        RotationStep(4, mode, s, deltaTime, effects.layerRotationSpeed, effects.layerOscillationSpeed,
                     effects.layerSwingAmplitude, effects.math.sin)
      else s
    }

    /** How one update turns the whole scene: the base-1 step in modes 1..3, nothing otherwise. */
    function WholeTurn(mode: int, s: Spin, deltaTime: real): Spin
    {
      if 1 <= mode <= 3 then
        RotationStep(1, mode, s, deltaTime, effects.wholeRotationSpeed, effects.wholeOscillationSpeed,
                     effects.wholeSwingAmplitude, effects.math.sin)
      else s
    }

    /** One update's effect on a layer: `zMovement` closer, turned as the mode says, the colour array kept. */
    function StepState(st: LayerState, mode: int, zMovement: real, deltaTime: real): LayerState
    {
      var turned := LayerTurn(mode, Spin(st.angle, st.time), deltaTime);
      LayerState(st.z - zMovement, st.rgba, turned.angle, turned.clock)
    }

    /** `StepState` applied to every snapshot of a list. */
    function StepStates(sts: seq<LayerState>, mode: int, zMovement: real, deltaTime: real): (r: seq<LayerState>)
      ensures |r| == |sts|
      decreases |sts|
    {
      if sts == [] then []
      else StepStates(sts[..|sts| - 1], mode, zMovement, deltaTime) + [StepState(sts[|sts| - 1], mode, zMovement, deltaTime)]
    }

    /** Entry `i` of the stepped list is entry `i` stepped. */
    lemma {:induction false} StepStatesAt(sts: seq<LayerState>, mode: int, zMovement: real, deltaTime: real, i: nat)
      requires i < |sts|
      ensures StepStates(sts, mode, zMovement, deltaTime)[i] == StepState(sts[i], mode, zMovement, deltaTime)
      decreases |sts|
    {
      if i < |sts| - 1 {
        StepStatesAt(sts[..|sts| - 1], mode, zMovement, deltaTime, i);
      }
    }

    /** Layers each of which took one step from its snapshot in `before` have, together, the stepped snapshots. */
    lemma StatesStepped(ls: seq<Layer>, before: seq<LayerState>, mode: int, zMovement: real, deltaTime: real)
      requires |before| == |ls|
      requires forall k :: 0 <= k < |ls| ==> StateOf(ls[k]) == StepState(before[k], mode, zMovement, deltaTime)
      ensures States(ls) == StepStates(before, mode, zMovement, deltaTime)
    {
      forall k | 0 <= k < |ls|
        ensures States(ls)[k] == StepStates(before, mode, zMovement, deltaTime)[k]
      {
        StatesAt(ls, k);
        StepStatesAt(before, mode, zMovement, deltaTime, k);
      }
      SameStates(States(ls), StepStates(before, mode, zMovement, deltaTime));
    }

    /** The depths the layer loop records are the depths of the stepped snapshots. */
    lemma SteppedDepths(before: seq<LayerState>, mode: int, zMovement: real, deltaTime: real, moved: seq<real>)
      requires |moved| == |before|
      requires forall k :: 0 <= k < |before| ==> moved[k] == StepState(before[k], mode, zMovement, deltaTime).z
      ensures Zs(StepStates(before, mode, zMovement, deltaTime)) == moved
    {
      forall k | 0 <= k < |before|
        ensures Zs(StepStates(before, mode, zMovement, deltaTime))[k] == moved[k]
      {
        StepStatesAt(before, mode, zMovement, deltaTime, k);
      }
    }

    /**
     * A layer that took one step from its snapshot keeps its colour array and,
     * while the per-layer steps are small, an angle in [0,360) stays there.
     */
    lemma SteppedLayer(ls: seq<Layer>, sts0: seq<LayerState>, mode: int, zMovement: real, deltaTime: real, k: nat)
      requires k < |ls| == |sts0|
      requires States(ls) == StepStates(sts0, mode, zMovement, deltaTime)
      ensures ls[k].rgba == sts0[k].rgba
      ensures 0.0 <= sts0[k].angle < 360.0 && SmallStep(deltaTime, effects.layerRotationSpeed, effects.layerSwingAmplitude, effects.math.sin)
              ==> 0.0 <= ls[k].rotationAngle < 360.0
    {
      StatesAt(ls, k);
      StepStatesAt(sts0, mode, zMovement, deltaTime, k);
      if mode >= 4 && 0.0 <= sts0[k].angle < 360.0 {
        if SmallStep(deltaTime, effects.layerRotationSpeed, effects.layerSwingAmplitude, effects.math.sin) {
          RotationStepKeepsRange(4, mode, Spin(sts0[k].angle, sts0[k].time), deltaTime, effects.layerRotationSpeed,
                                 effects.layerOscillationSpeed, effects.layerSwingAmplitude, effects.math.sin);
        }
      }
    }

    /** What the invariant asks of a layer: four colour channels and, when `ranged`, an angle in [0,360). */
    ghost predicate Kept(l: Layer, ranged: bool)
      reads l
    {
      l.rgba.Length == 4 && (ranged ==> 0.0 <= l.rotationAngle < 360.0)
    }

    /** Layers that each took one step from snapshots with four colour channels are kept; under small steps, with their angles. */
    lemma SteppedKeep(ls: seq<Layer>, sts0: seq<LayerState>, mode: int, zMovement: real, deltaTime: real, ranged: bool)
      requires |ls| == |sts0|
      requires States(ls) == StepStates(sts0, mode, zMovement, deltaTime)
      requires forall k :: 0 <= k < |sts0| ==> sts0[k].rgba.Length == 4
      requires ranged ==> (forall k :: 0 <= k < |sts0| ==> 0.0 <= sts0[k].angle < 360.0) &&
                          SmallStep(deltaTime, effects.layerRotationSpeed, effects.layerSwingAmplitude, effects.math.sin)
      ensures forall j :: 0 <= j < |ls| ==> Kept(ls[j], ranged)
    {
      forall j | 0 <= j < |ls|
        ensures Kept(ls[j], ranged)
      {
        SteppedLayer(ls, sts0, mode, zMovement, deltaTime, j);
      }
    }

    /**
     * After the layer loop every layer is a fresh spawn or a survivor of `ls`,
     * so when every layer of `ls` is kept, every layer of the new list is.
     */
    lemma TravelKeeps(ls: seq<Layer>, next: seq<Layer>, n: nat, gone: Option<nat>, draws: nat -> real, ranged: bool)
      requires gone.Some? ==> gone.value < |ls|
      requires |next| >= n && next == next[..n] + Survivors(ls, gone)
      requires SpawnedFront(next, n, draws)
      requires forall j :: 0 <= j < |ls| ==> Kept(ls[j], ranged)
      ensures forall i :: 0 <= i < |next| ==> Kept(next[i], ranged)
    {
      forall i | 0 <= i < |next|
        ensures Kept(next[i], ranged)
      {
        if i >= n {
          var j := if gone.Some? && i - n >= gone.value then i - n + 1 else i - n;
          SurvivorAt(ls, gone, i - n);
          assert next[i] == Survivors(ls, gone)[i - n] == ls[j];
        }
      }
    }

    /** One layer's share of the layer loop: it moves `zMovement` closer and is turned. */
    method StepLayer(layer: Layer, mode: int, zMovement: real, deltaTime: real)
      modifies layer
      ensures StateOf(layer) == StepState(old(StateOf(layer)), mode, zMovement, deltaTime)
    {
      layer.SetZ(layer.GetZ() - zMovement);
      if mode >= 4 {
        var a := effects.CalculateLayerAngle(mode, layer, deltaTime);
        layer.SetRotationAngle(a);
      }
    }

    /**
     * The layer loop of `update`: every layer moves `zMovement` closer and is
     * turned; the result is the last layer whose new depth is below
     * `removeLayerDistance`, or null.
     */
    method MoveLayers(ls: seq<Layer>, mode: int, zMovement: real, deltaTime: real) returns (removeLayer: Layer?)
      requires Distinct(ls)
      modifies Elements(ls)
      ensures States(ls) == StepStates(old(States(ls)), mode, zMovement, deltaTime)
      ensures var gone := LastBelow(Zs(StepStates(old(States(ls)), mode, zMovement, deltaTime)), removeLayerDistance as real);
              && (gone.None? ==> removeLayer == null)
              && (gone.Some? ==> removeLayer == ls[gone.value])
    {
      ghost var before := States(ls);
      forall k | 0 <= k < |ls|
        ensures before[k] == StateOf(ls[k])
      {
        StatesAt(ls, k);
      }
      var threshold := removeLayerDistance as real;
      removeLayer := null;
      ghost var moved: seq<real> := [];
      ghost var gone: Option<nat> := None;
      var i := 0;
      while i < |ls|
        invariant 0 <= i <= |ls| && |moved| == i
        invariant forall k :: 0 <= k < i ==> StateOf(ls[k]) == StepState(before[k], mode, zMovement, deltaTime)
        invariant forall k :: 0 <= k < i ==> moved[k] == StepState(before[k], mode, zMovement, deltaTime).z
        invariant forall k :: i <= k < |ls| ==> StateOf(ls[k]) == before[k]
        invariant gone == LastBelow(moved, threshold)
        invariant gone.None? ==> removeLayer == null
        invariant gone.Some? ==> gone.value < i && removeLayer == ls[gone.value]
      {
        var layer := ls[i];
        label Before:
        StepLayer(layer, mode, zMovement, deltaTime);
        forall k | 0 <= k < |ls| && k != i
          ensures StateOf(ls[k]) == old@Before(StateOf(ls[k]))
        {
          assert ls[k] != layer;
        }
        LastBelowSnoc(moved, layer.z, threshold);
        if layer.GetZ() < threshold {
          removeLayer := layer;
          gone := Some(i);
        }
        moved := moved + [layer.z];
        i := i + 1;
      }
      StatesStepped(ls, before, mode, zMovement, deltaTime);
      SteppedDepths(before, mode, zMovement, deltaTime, moved);
    }

    /**
     * A layer as `update` spawns it: at the far depth `initZ`, unturned, with
     * the default shape and the colour drawn by the `c`-th spawn of the update.
     */
    predicate Spawned(l: Layer, c: nat, draws: nat -> real)
      reads l, l.rgba
    {
      Created(l, initZ as real, c, draws, effects.alphaClamp)
    }

    /** The first `n` layers of `ls` are the spawns of an update, the `c`-th spawn at index `n - 1 - c`. */
    ghost predicate SpawnedFront(ls: seq<Layer>, n: nat, draws: nat -> real)
      reads Elements(ls), set l <- ls :: l.rgba
    {
      n <= |ls| && forall k :: 0 <= k < n ==> Spawned(ls[k], n - 1 - k, draws)
    }

    /** One round of the spawn loop: a fresh layer goes in at index 0, with the next colour number. */
    method PrependSpawn(spawned: seq<Layer>, draws: nat -> real) returns (next: seq<Layer>)
      requires Distinct(spawned)
      requires forall k :: 0 <= k < |spawned| ==> Spawned(spawned[k], |spawned| - 1 - k, draws)
      ensures |next| == |spawned| + 1 && next[1..] == spawned
      ensures fresh(next[0]) && fresh(next[0].rgba)
      ensures Distinct(next)
      ensures forall k :: 0 <= k < |next| ==> Spawned(next[k], |next| - 1 - k, draws)
    {
      var c := |spawned|;
      var layer := effects.NewLayer(initZ, c, draws);
      assert layer !in spawned;
      next := [layer] + spawned;
      forall k | 0 <= k < |next|
        ensures Spawned(next[k], |next| - 1 - k, draws)
      {
        if k > 0 {
          assert next[k] == spawned[k - 1] && |next| - 1 - k == c - 1 - (k - 1);
        }
      }
      PrependDistinct(layer, spawned);
    }

    /**
     * The spawn loop of `update`: `n` fresh layers at `initZ`, each inserted at
     * the front, so the layer made from draws `4c`..`4c + 3` ends up at index `n - 1 - c`.
     */
    method SpawnLayers(n: nat, draws: nat -> real) returns (spawned: seq<Layer>)
      ensures |spawned| == n && Distinct(spawned)
      ensures forall k :: 0 <= k < n ==>
                fresh(spawned[k]) && fresh(spawned[k].rgba) && Spawned(spawned[k], n - 1 - k, draws)
    {
      spawned := [];
      var l := 0;
      while l < n
        invariant 0 <= l <= n && |spawned| == l
        invariant Distinct(spawned)
        invariant forall k :: 0 <= k < l ==>
                    fresh(spawned[k]) && fresh(spawned[k].rgba) && Spawned(spawned[k], l - 1 - k, draws)
      {
        spawned := PrependSpawn(spawned, draws);
        l := l + 1;
      }
    }

    /**
     * The spawn and removal steps of `update`: `n` fresh layers are put in
     * front, one at a time at index 0, and `removeLayer`, the old layer the
     * layer loop picked (if any), is removed from the list.
     */
    method SpawnInFront(ls: seq<Layer>, removeLayer: Layer?, ghost gone: Option<nat>, n: nat, draws: nat -> real)
      returns (next: seq<Layer>)
      requires Distinct(ls)
      requires gone.None? ==> removeLayer == null
      requires gone.Some? ==> gone.value < |ls| && removeLayer == ls[gone.value]
      ensures Distinct(next)
      ensures |next| >= n && next == next[..n] + Survivors(ls, gone)
      ensures forall k :: 0 <= k < n ==>
                fresh(next[k]) && fresh(next[k].rgba) && Spawned(next[k], n - 1 - k, draws)
    {
      var spawned := SpawnLayers(n, draws);
      assert forall a, b :: 0 <= a < |spawned| && 0 <= b < |ls| ==> spawned[a] != ls[b] by {
        forall a, b | 0 <= a < |spawned| && 0 <= b < |ls|
          ensures spawned[a] != ls[b]
        {
          assert fresh(spawned[a]);
        }
      }
      RetireBehindSpawns(spawned, ls, gone);
      next := spawned + ls;
      if removeLayer != null {
        next := RemoveFirst<Layer>(next, removeLayer);
      }
      assert next == spawned + Survivors(ls, gone);
      assert next[..n] == spawned;
    }

    /**
     * The layer half of `update`: every layer moves forward and turns, `n`
     * fresh layers are put in front, and the last old layer whose new depth
     * is below `removeLayerDistance` is removed.
     */
    method AdvanceLayers(ls: seq<Layer>, mode: int, zMovement: real, deltaTime: real, n: nat, draws: nat -> real)
      returns (next: seq<Layer>)
      requires Distinct(ls)
      modifies Elements(ls)
      ensures Distinct(next)
      ensures States(ls) == StepStates(old(States(ls)), mode, zMovement, deltaTime)
      ensures |next| >= n && next == next[..n] + Survivors(ls, LastBelow(Zs(StepStates(old(States(ls)), mode, zMovement, deltaTime)), removeLayerDistance as real))
      ensures forall k :: 0 <= k < n ==>
                fresh(next[k]) && fresh(next[k].rgba) && Spawned(next[k], n - 1 - k, draws)
    {
      ghost var stepped := StepStates(States(ls), mode, zMovement, deltaTime);
      var removeLayer := MoveLayers(ls, mode, zMovement, deltaTime);
      ghost var gone := LastBelow(Zs(stepped), removeLayerDistance as real);
      next := SpawnInFront(ls, removeLayer, gone, n, draws);
    }

    /**
     * The mode timer of `update`: when it has run out it is reset, the
     * animation counter wraps once it has run past the script, and the mode
     * becomes the next script entry. Nothing else of the scene changes.
     */
    method AdvanceMode(now: real)
      requires Valid()
      modifies this, timer
      ensures Valid()
      ensures old(timer.IsElapsed(now)) ==>
                && ModeState(rotationMode, animationCounter) == NextMode(rotationAnimation, old(animationCounter))
                && timer.startTime == now && !timer.triggered
      ensures !old(timer.IsElapsed(now)) ==>
                rotationMode == old(rotationMode) && animationCounter == old(animationCounter) && unchanged(timer)
      ensures layers == old(layers) && speed == old(speed) && zAccumulator == old(zAccumulator)
      ensures rotationAngle == old(rotationAngle)
    {
      if timer.IsElapsed(now) {
        timer.Reset(now);
        if animationCounter >= |rotationAnimation| {
          animationCounter := 0;
        }
        rotationMode := rotationAnimation[animationCounter];
        animationCounter := animationCounter + 1;
      }
    }

    /**
     * The fade-in of `update`: until the fade has completed, every update
     * lowers the overlay alpha and ramps the speed up towards the idle speed.
     */
    method AdvanceFade(deltaTime: real)
      requires Valid()
      modifies this, effects
      ensures Valid()
      ensures old(effects.initialized) ==> unchanged(effects) && speed == old(speed)
      ensures !old(effects.initialized) ==>
                && Fade(effects.fadeAlpha, effects.initialized) == FadeStep(Fade(old(effects.fadeAlpha), false), effects.fadeSpeed, deltaTime)
                && speed == RampSpeed(old(speed), effects.idleSpeed)
                && effects.wholeRotationTime == old(effects.wholeRotationTime)
      ensures layers == old(layers) && rotationMode == old(rotationMode) && animationCounter == old(animationCounter)
      ensures zAccumulator == old(zAccumulator) && rotationAngle == old(rotationAngle)
    {
      if !effects.IsInitialized() {
        speed := effects.UpdateFadeAlpha(deltaTime, speed);
      }
    }

    /**
     * The drain of `update`: the distance `speed * deltaTime` travelled in this
     * frame is added to the accumulator, which is drained by whole layer
     * spacings. The result is the travel and the number of layers to spawn.
     */
    method DrainTravel(deltaTime: real) returns (zMovement: real, newLayers: nat)
      requires layerDistance > 0
      modifies this
      ensures zMovement == Travel(speed, deltaTime)
      ensures Drain(newLayers, zAccumulator) == DrainSpec(old(zAccumulator) + zMovement, layerDistance)
      ensures layers == old(layers) && rotationMode == old(rotationMode) && animationCounter == old(animationCounter)
      ensures speed == old(speed) && rotationAngle == old(rotationAngle)
    {
      zMovement := Travel(speed, deltaTime);
      newLayers, zAccumulator := DrainAccumulator(zAccumulator + zMovement, layerDistance);
    }

    /**
     * The layer half of `update` on the renderer's own list: every layer moves
     * `zMovement` closer and turns, `newLayers` fresh layers go in front, and
     * the last layer that came closer than `removeLayerDistance` is removed.
     */
    method TravelLayers(zMovement: real, deltaTime: real, newLayers: nat, draws: nat -> real)
      requires Valid()
      modifies this, Elements(layers)
      ensures Valid()
      ensures States(old(layers)) == StepStates(old(States(layers)), old(rotationMode), zMovement, deltaTime)
      ensures var gone := LastBelow(Zs(StepStates(old(States(layers)), old(rotationMode), zMovement, deltaTime)), removeLayerDistance as real);
              |layers| >= newLayers && layers == layers[..newLayers] + Survivors(old(layers), gone)
      ensures SpawnedFront(layers, newLayers, draws)
      ensures forall k :: 0 <= k < newLayers ==> fresh(layers[k]) && fresh(layers[k].rgba)
      ensures old(Wrapped()) && SmallStep(deltaTime, effects.layerRotationSpeed, effects.layerSwingAmplitude, effects.math.sin)
              ==> Wrapped()
      ensures zAccumulator == old(zAccumulator) && rotationMode == old(rotationMode) && animationCounter == old(animationCounter)
      ensures speed == old(speed) && rotationAngle == old(rotationAngle)
    {
      ghost var ls, sts0 := layers, States(layers);
      forall k | 0 <= k < |ls|
        ensures sts0[k] == StateOf(ls[k])
      {
        StatesAt(ls, k);
      }
      ghost var stepped := StepStates(sts0, rotationMode, zMovement, deltaTime);
      ghost var gone := LastBelow(Zs(stepped), removeLayerDistance as real);
      var next := AdvanceLayers(layers, rotationMode, zMovement, deltaTime, newLayers, draws);
      assert SpawnedFront(next, newLayers, draws);
      SetLayers(next, ls, sts0, rotationMode, zMovement, deltaTime, gone, newLayers, draws);
    }

    /**
     * The assignment that installs the updated list: only the list field of
     * the renderer changes. The new list holds `n` spawns in front of the
     * survivors of `ls`, each of which took one step from its snapshot in
     * `sts0`, so every colour still has four channels and, while the
     * per-layer steps are small, angles in [0,360) stay there.
     */
    method SetLayers(next: seq<Layer>, ghost ls: seq<Layer>, ghost sts0: seq<LayerState>, ghost mode: int,
                     ghost zMovement: real, ghost deltaTime: real, ghost gone: Option<nat>, ghost n: nat,
                     ghost draws: nat -> real)
      requires |ls| == |sts0| && (gone.Some? ==> gone.value < |ls|)
      requires States(ls) == StepStates(sts0, mode, zMovement, deltaTime)
      requires |next| >= n && next == next[..n] + Survivors(ls, gone)
      requires SpawnedFront(next, n, draws) && Distinct(next)
      requires forall k :: 0 <= k < |sts0| ==> sts0[k].rgba.Length == 4
      requires |rotationAnimation| > 0 && 0 <= animationCounter <= |rotationAnimation|
      modifies this
      ensures layers == next && Valid()
      ensures forall k :: 0 <= k < |next| ==> next[k].rgba == old(next[k].rgba)
      ensures States(ls) == old(States(ls))
      ensures SpawnedFront(layers, n, draws)
      ensures (forall k :: 0 <= k < |sts0| ==> 0.0 <= sts0[k].angle < 360.0) &&
              SmallStep(deltaTime, effects.layerRotationSpeed, effects.layerSwingAmplitude, effects.math.sin)
              ==> forall i :: 0 <= i < |layers| ==> 0.0 <= layers[i].rotationAngle < 360.0
      ensures zAccumulator == old(zAccumulator) && rotationMode == old(rotationMode) && animationCounter == old(animationCounter)
      ensures speed == old(speed) && rotationAngle == old(rotationAngle)
    {
      layers := next;
      StatesFramed(ls);
      ghost var ranged := (forall k :: 0 <= k < |sts0| ==> 0.0 <= sts0[k].angle < 360.0) &&
                          SmallStep(deltaTime, effects.layerRotationSpeed, effects.layerSwingAmplitude, effects.math.sin);
      SteppedKeep(ls, sts0, mode, zMovement, deltaTime, ranged);
      TravelKeeps(ls, next, n, gone, draws, ranged);
    }

    /** The whole-scene rotation of `update`, in modes 1 to 3 only. */
    method TurnScene(deltaTime: real, ghost ls: seq<Layer>, ghost n: nat, ghost draws: nat -> real)
      requires Valid()
      modifies this, effects
      ensures States(ls) == old(States(ls))
      ensures old(SpawnedFront(layers, n, draws)) ==> SpawnedFront(layers, n, draws)
      ensures Valid()
      ensures Spin(rotationAngle, effects.wholeRotationTime) ==
              WholeTurn(rotationMode, Spin(old(rotationAngle), old(effects.wholeRotationTime)), deltaTime)
      ensures old(Wrapped()) && SmallStep(deltaTime, effects.wholeRotationSpeed, effects.wholeSwingAmplitude, effects.math.sin)
              ==> Wrapped()
      ensures effects.fadeAlpha == old(effects.fadeAlpha) && effects.initialized == old(effects.initialized)
      ensures layers == old(layers) && rotationMode == old(rotationMode) && animationCounter == old(animationCounter)
      ensures speed == old(speed) && zAccumulator == old(zAccumulator)
      ensures forall k :: 0 <= k < |layers| ==> layers[k].rgba == old(layers[k].rgba)
    {
      if 1 <= rotationMode <= 3 {
        ghost var before := Spin(rotationAngle, effects.wholeRotationTime);
        rotationAngle := effects.CalculateRotationAngle(rotationMode, rotationAngle, deltaTime);
        if 0.0 <= before.angle < 360.0 {
          if SmallStep(deltaTime, effects.wholeRotationSpeed, effects.wholeSwingAmplitude, effects.math.sin) {
            RotationStepKeepsRange(1, rotationMode, before, deltaTime, effects.wholeRotationSpeed,
                                   effects.wholeOscillationSpeed, effects.wholeSwingAmplitude, effects.math.sin);
          }
        }
      }
      StatesFramed(ls);
      if old(SpawnedFront(layers, n, draws)) {
        forall k | 0 <= k < n
          ensures Spawned(layers[k], n - 1 - k, draws)
        {
          assert old(Spawned(layers[k], n - 1 - k, draws));
        }
      }
    }

    /**
     * The first half of `update`, before any layer is touched: the mode timer,
     * the fade-in and the drain of the travel into spawns.
     */
    method Prepare(deltaTime: real, now: real) returns (zMovement: real, newLayers: nat)
      requires Valid() && layerDistance > 0
      modifies this, timer, effects
      ensures Valid()
      ensures old(timer.IsElapsed(now)) ==>
                && ModeState(rotationMode, animationCounter) == NextMode(rotationAnimation, old(animationCounter))
                && timer.startTime == now && !timer.triggered
      ensures !old(timer.IsElapsed(now)) ==>
                && rotationMode == old(rotationMode) && animationCounter == old(animationCounter)
                && timer.startTime == old(timer.startTime) && timer.triggered == old(timer.triggered)
      ensures old(effects.initialized) ==>
                speed == old(speed) && effects.fadeAlpha == old(effects.fadeAlpha) && effects.initialized
      ensures !old(effects.initialized) ==>
                && Fade(effects.fadeAlpha, effects.initialized) == FadeStep(Fade(old(effects.fadeAlpha), false), effects.fadeSpeed, deltaTime)
                && speed == RampSpeed(old(speed), effects.idleSpeed)
      ensures effects.wholeRotationTime == old(effects.wholeRotationTime)
      ensures zMovement == Travel(speed, deltaTime)
      ensures Drain(newLayers, zAccumulator) == DrainSpec(old(zAccumulator) + zMovement, layerDistance)
      ensures layers == old(layers) && rotationAngle == old(rotationAngle)
      ensures forall k :: 0 <= k < |layers| ==> layers[k].rgba == old(layers[k].rgba)
      ensures old(Wrapped()) ==> Wrapped()
    {
      AdvanceMode(now);
      AdvanceFade(deltaTime);
      zMovement, newLayers := DrainTravel(deltaTime);
    }

    /**
     * The second half of `update`: the layers travel, spawn and retire, and
     * then the whole scene turns.
     */
    method Finish(zMovement: real, deltaTime: real, newLayers: nat, draws: nat -> real)
      requires Valid()
      modifies this, effects, Elements(layers)
      ensures Valid()
      ensures var stepped := StepStates(old(States(layers)), rotationMode, zMovement, deltaTime);
              && States(old(layers)) == stepped
              && |layers| >= newLayers
              && layers == layers[..newLayers] + Survivors(old(layers), LastBelow(Zs(stepped), removeLayerDistance as real))
      ensures SpawnedFront(layers, newLayers, draws)
      ensures forall k :: 0 <= k < newLayers ==> fresh(layers[k]) && fresh(layers[k].rgba)
      ensures Spin(rotationAngle, effects.wholeRotationTime) ==
              WholeTurn(rotationMode, Spin(old(rotationAngle), old(effects.wholeRotationTime)), deltaTime)
      ensures effects.fadeAlpha == old(effects.fadeAlpha) && effects.initialized == old(effects.initialized)
      ensures zAccumulator == old(zAccumulator) && rotationMode == old(rotationMode) && animationCounter == old(animationCounter)
      ensures old(Wrapped()) && SmallSteps(deltaTime) ==> Wrapped()
      ensures speed == old(speed)
    {
      ghost var ls0 := layers;
      TravelLayers(zMovement, deltaTime, newLayers, draws);
      TurnScene(deltaTime, ls0, newLayers, draws);
    }

    /**
     * `update`: on a timer expiry the timer restarts and the mode takes the
     * next script entry; until the fade completes, one fade step and one speed
     * ramp; the travel `speed * deltaTime`, with the ramped speed, is drained
     * into spawns; every old layer moves by the travel and turns in the new
     * mode; the spawns go in front and the last layer that came closer than
     * `removeLayerDistance` is retired; finally the whole scene turns.
     */
    method Update(deltaTime: real, now: real, draws: nat -> real)
      requires Valid() && layerDistance > 0
      modifies this, timer, effects, Elements(layers)
      ensures Valid()
      ensures old(Wrapped()) && SmallSteps(deltaTime) ==> Wrapped()
      ensures old(timer.IsElapsed(now)) ==>
                && ModeState(rotationMode, animationCounter) == NextMode(rotationAnimation, old(animationCounter))
                && timer.startTime == now && !timer.triggered
      ensures !old(timer.IsElapsed(now)) ==>
                && rotationMode == old(rotationMode) && animationCounter == old(animationCounter)
                && timer.startTime == old(timer.startTime) && timer.triggered == old(timer.triggered)
      ensures old(effects.initialized) ==>
                speed == old(speed) && effects.fadeAlpha == old(effects.fadeAlpha) && effects.initialized
      ensures !old(effects.initialized) ==>
                && Fade(effects.fadeAlpha, effects.initialized) == FadeStep(Fade(old(effects.fadeAlpha), false), effects.fadeSpeed, deltaTime)
                && speed == RampSpeed(old(speed), effects.idleSpeed)
      ensures var d := DrainSpec(old(zAccumulator) + Travel(speed, deltaTime), layerDistance);
              && zAccumulator == d.rest
              && |layers| >= d.spawns
              && SpawnedFront(layers, d.spawns, draws)
              && forall k :: 0 <= k < d.spawns ==> fresh(layers[k]) && fresh(layers[k].rgba)
      ensures var travel := Travel(speed, deltaTime);
              var n := DrainSpec(old(zAccumulator) + travel, layerDistance).spawns;
              var stepped := StepStates(old(States(layers)), rotationMode, travel, deltaTime);
              && States(old(layers)) == stepped
              && layers == layers[..n] + Survivors(old(layers), LastBelow(Zs(stepped), removeLayerDistance as real))
      ensures Spin(rotationAngle, effects.wholeRotationTime) ==
              WholeTurn(rotationMode, Spin(old(rotationAngle), old(effects.wholeRotationTime)), deltaTime)
    {
      var zMovement, newLayers := Prepare(deltaTime, now);
      StatesFramed(layers);
      Finish(zMovement, deltaTime, newLayers, draws);
      assert DrainSpec(old(zAccumulator) + Travel(speed, deltaTime), layerDistance).spawns == newLayers;
    }

    /** The snapshot `render` reads from a layer. */
    function View(l: Layer): (v: LayerView)
      reads l, l.rgba
      requires l.rgba.Length >= 4
      ensures v.points == l.coordinates && v.z == l.z && v.angle == l.rotationAngle
      ensures |v.color| == 4 && forall i :: 0 <= i < 4 ==> v.color[i] == l.rgba[i]
    {
      LayerView(l.coordinates, l.z, l.rotationAngle, l.rgba[..4])
    }

    /** What `render` needs beyond the invariant: a window of non-zero size and no layer at depth 0. */
    ghost predicate Renderable()
      reads this, Elements(layers)
    {
      && Valid()
      && windowWidth != 0 && windowHeight != 0
      && forall l :: l in layers ==> l.z != 0.0
    }

    function ColorSet(): set<array<real>>
      reads this, Elements(layers)
    {
      set l | l in layers :: l.rgba
    }

    function Views(): (vs: seq<LayerView>)
      reads this, Elements(layers), ColorSet()
      requires Renderable()
      ensures |vs| == |layers|
      ensures AllDrawable(vs, Cam())
      ensures forall i :: 0 <= i < |layers| ==> vs[i] == View(layers[i])
    {
      seq(|layers|, i reads this, Elements(layers), ColorSet() requires 0 <= i < |layers| && Renderable() => View(layers[i]))
    }

    /** The point loop of `render`: one textured draw per point, projected at depth `layerZ` with the given rotation. */
    method DrawPoints(pts: seq<Point2D>, cosAngle: real, sinAngle: real, layerZ: real, color: seq<real>) returns (inner: seq<Draw>)
      requires Drawable(layerZ, Cam())
      ensures |inner| == |pts|
      ensures forall j :: 0 <= j < |pts| ==> inner[j] == PointDraw(pts[j], (cosAngle, sinAngle), layerZ, color, Cam())
    {
      var aspect := windowWidth as real / windowHeight as real;
      var centerX := windowWidth as real / 2.0;
      var centerY := windowHeight as real / 2.0;
      var computedScale := focalLength / layerZ;
      var finalScale := computedScale * baseScale;
      inner := [];
      var j := 0;
      while j < |pts|
        invariant 0 <= j <= |pts| && |inner| == j
        invariant forall k :: 0 <= k < j ==> inner[k] == PointDraw(pts[k], (cosAngle, sinAngle), layerZ, color, Cam())
      {
        var coord := pts[j];
        var rotatedX := cosAngle * coord.x - sinAngle * coord.y;
        var rotatedY := sinAngle * coord.x + cosAngle * coord.y;
        var screenX := centerX + rotatedX * computedScale;
        var screenY := centerY - rotatedY * computedScale;
        var ndcX := screenX / (windowWidth as real / 2.0) - 1.0;
        var ndcY := 1.0 - screenY / (windowHeight as real / 2.0);
        inner := inner + [Draw(ndcX, ndcY, finalScale, color, aspect, true)];
        j := j + 1;
      }
    }

    /**
     * One pass of the layer loop of `render`: in the per-layer modes the
     * rotation is recomputed from the layer's own angle, otherwise the one
     * computed before the loop is kept; then the layer's points are drawn.
     */
    method RenderLayer(v: LayerView, mode: int, wholeAngle: real, math: Trig, cosAngle: real, sinAngle: real)
      returns (inner: seq<Draw>, cosOut: real, sinOut: real)
      requires Drawable(v.z, Cam())
      requires mode < 4 ==> (cosAngle, sinAngle) == LayerRotation(mode, wholeAngle, 0.0, math)
      ensures inner == LayerDraws(v, mode, wholeAngle, math, Cam())
      ensures mode < 4 ==> (cosOut, sinOut) == (cosAngle, sinAngle)
    {
      cosOut, sinOut := cosAngle, sinAngle;
      if mode >= 4 {
        var angles := GetAngles(mode, v.angle, math);
        cosOut, sinOut := angles.0, angles.1;
      }
      assert (cosOut, sinOut) == LayerRotation(mode, wholeAngle, v.angle, math);
      inner := DrawPoints(v.points, cosOut, sinOut, v.z, v.color);
    }

    /**
     * The layer part of `render`: the whole-scene rotation of modes 1 to 3 is
     * computed once, then every layer is drawn in list order.
     */
    method DrawLayers(vs: seq<LayerView>, mode: int, wholeAngle: real, math: Trig) returns (frame: seq<Draw>)
      requires AllDrawable(vs, Cam())
      ensures frame == FrameDraws(vs, mode, wholeAngle, math, Cam())
    {
      var cosAngle, sinAngle := 1.0, 0.0;
      if 1 <= mode <= 3 {
        var angles := GetAngles(mode, wholeAngle, math);
        cosAngle, sinAngle := angles.0, angles.1;
      }
      frame := [];
      var i := 0;
      while i < |vs|
        invariant 0 <= i <= |vs|
        invariant frame == FrameDraws(vs[..i], mode, wholeAngle, math, Cam())
        invariant mode < 4 ==> (cosAngle, sinAngle) == LayerRotation(mode, wholeAngle, 0.0, math)
      {
        var inner;
        inner, cosAngle, sinAngle := RenderLayer(vs[i], mode, wholeAngle, math, cosAngle, sinAngle);
        assert vs[..i + 1][..i] == vs[..i];
        frame := frame + inner;
        i := i + 1;
      }
      assert vs[..|vs|] == vs;
    }

    /**
     * `render`: every point of every layer, in list order, projected with the
     * rotation of the current mode; then the fade overlay, while the fade-in
     * runs outside debug mode. Nothing changes the scene while it draws, so
     * the layers are read once, as views, before drawing.
     */
    method Render() returns (frame: seq<Draw>)
      requires Renderable()
      ensures frame == FrameDraws(Views(), rotationMode, rotationAngle, effects.math, Cam())
                       + (if !effects.initialized && !debugMode then [Overlay(effects.fadeAlpha)] else [])
    {
      var vs := Views();
      var fading := !effects.IsInitialized() && !debugMode;
      var fadeAlpha := effects.GetFadeAlpha();
      frame := DrawLayers(vs, rotationMode, rotationAngle, effects.math);
      assert forall k :: 0 <= k < |layers| ==> vs[k] == Views()[k];
      assert vs == Views();
      if fading {
        frame := frame + [Overlay(fadeAlpha)];
      }
    }
  }
}
