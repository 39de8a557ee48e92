/**
 * `rendering/Effects.java`: the fade-in ramp, the speed ramp, random colours with
 * a clamped alpha, the initial population of layers and the rotation-angle steps.
 *
 * The Java class holds a back-reference to the renderer, from which it reads
 * `rotationMode` and whose `speed` it raises. Here the mode is a parameter and
 * the raised speed is returned for the renderer to store.
 */
module Effects {
  import opened JavaMath
  import opened LayerData
  import opened Settings

  // ---------------------------------------------------------------------------
  // Colour

  /** `clampAlpha`: raises an alpha below the floor up to the floor and never lowers a value. */
  function ClampAlpha(alpha: real, alphaClamp: real): (r: real)
    ensures r >= alpha && r >= alphaClamp
    ensures r == alpha || r == alphaClamp
  {
    if alpha < alphaClamp then alphaClamp else alpha
  }

  lemma ClampAlphaIdempotent(alpha: real, alphaClamp: real)
    ensures ClampAlpha(ClampAlpha(alpha, alphaClamp), alphaClamp) == ClampAlpha(alpha, alphaClamp)
  {
  }

  lemma ClampAlphaMonotone(a: real, b: real, alphaClamp: real)
    requires a <= b
    ensures ClampAlpha(a, alphaClamp) <= ClampAlpha(b, alphaClamp)
  {
  }

  /** The colour `generateRandomRGBA` builds from its four draws: the first draw becomes the clamped alpha. */
  function RandomRGBA(alphaDraw: real, rDraw: real, gDraw: real, bDraw: real, alphaClamp: real): (c: seq<real>)
    ensures |c| == 4 && c[..3] == [rDraw, gDraw, bDraw]
    ensures c[3] >= alphaClamp && c[3] >= alphaDraw
    ensures 0.0 <= alphaDraw < 1.0 && alphaClamp <= 1.0 ==> 0.0 <= c[3] <= 1.0
  {
    [rDraw, gDraw, bDraw, ClampAlpha(alphaDraw, alphaClamp)]
  }

  /**
   * A layer as it is created at depth `z` with colour number `c`: unturned,
   * its clock at zero, the square pattern, and the colour `RandomRGBA` builds
   * from draws `4c` (alpha) to `4c + 3`.
   */
  predicate Created(l: Layer, z: real, c: nat, draws: nat -> real, alphaClamp: real)
    reads l, l.rgba
  {
    && l.z == z && l.rotationAngle == 0.0 && l.time == 0.0
    && l.coordinates == CreateShape()
    && l.rgba.Length == 4
    && l.rgba[0] == draws(4 * c + 1) && l.rgba[1] == draws(4 * c + 2) && l.rgba[2] == draws(4 * c + 3)
    && l.rgba[3] == ClampAlpha(draws(4 * c), alphaClamp)
  }

  // ---------------------------------------------------------------------------
  // Fade-in and speed ramp

  datatype Fade = Fade(alpha: real, initialized: bool)

  /**
   * One call of `updateFadeAlpha` on the fade state: the alpha drops by
   * `fadeSpeed * deltaTime`, is clamped at 0, and the `initialized` latch is set
   * exactly when it reaches 0.
   */
  function FadeStep(f: Fade, fadeSpeed: real, deltaTime: real): (r: Fade)
    ensures r.alpha >= 0.0
    ensures r.alpha == f.alpha - fadeSpeed * deltaTime || r.alpha == 0.0
    ensures r.alpha == 0.0 ==> r.initialized
    ensures f.initialized ==> r.initialized
    ensures r.initialized && !f.initialized ==> r.alpha == 0.0
    ensures f.alpha - fadeSpeed * deltaTime > 0.0 ==> r == Fade(f.alpha - fadeSpeed * deltaTime, f.initialized)
    ensures f.alpha - fadeSpeed * deltaTime <= 0.0 ==> r == Fade(0.0, true)
  {
    var a := f.alpha - fadeSpeed * deltaTime;
    if a <= 0.0 then Fade(0.0, true) else Fade(a, f.initialized)
  }

  /** A positive fade per frame strictly lowers an alpha that is still above 0. */
  lemma FadeStepDecreases(f: Fade, fadeSpeed: real, deltaTime: real)
    requires f.alpha > 0.0 && fadeSpeed * deltaTime > 0.0
    ensures FadeStep(f, fadeSpeed, deltaTime).alpha < f.alpha
  {
  }

  /** The fade state after a run of updates with the given frame times. */
  function FadeAfter(f: Fade, fadeSpeed: real, deltaTimes: seq<real>): Fade
    decreases |deltaTimes|
  {
    if deltaTimes == [] then f
    else FadeAfter(FadeStep(f, fadeSpeed, deltaTimes[0]), fadeSpeed, deltaTimes[1..])
  }

  /** Once the fade has completed, no further update clears the latch, and the alpha is never negative after an update. */
  lemma {:induction false} FadeLatchHolds(f: Fade, fadeSpeed: real, deltaTimes: seq<real>)
    requires f.initialized
    ensures FadeAfter(f, fadeSpeed, deltaTimes).initialized
    decreases |deltaTimes|
  {
    if deltaTimes != [] {
      FadeLatchHolds(FadeStep(f, fadeSpeed, deltaTimes[0]), fadeSpeed, deltaTimes[1..]);
    }
  }

  /** With a positive fade per frame the alpha strictly decreases over any non-empty run until it is clamped at 0. */
  lemma {:induction false} FadeDecreases(f: Fade, fadeSpeed: real, deltaTimes: seq<real>)
    requires f.alpha > 0.0 && deltaTimes != []
    requires forall i :: 0 <= i < |deltaTimes| ==> fadeSpeed * deltaTimes[i] > 0.0
    ensures 0.0 <= FadeAfter(f, fadeSpeed, deltaTimes).alpha < f.alpha
    decreases |deltaTimes|
  {
    var g := FadeStep(f, fadeSpeed, deltaTimes[0]);
    FadeStepDecreases(f, fadeSpeed, deltaTimes[0]);
    if |deltaTimes| > 1 && g.alpha > 0.0 {
      FadeDecreases(g, fadeSpeed, deltaTimes[1..]);
    } else if |deltaTimes| > 1 {
      FadeStaysClosed(g, fadeSpeed, deltaTimes[1..]);
    }
  }

  /** A fade at alpha 0 stays at 0 under positive fade steps. */
  lemma {:induction false} FadeStaysClosed(f: Fade, fadeSpeed: real, deltaTimes: seq<real>)
    requires f.alpha == 0.0
    requires forall i :: 0 <= i < |deltaTimes| ==> fadeSpeed * deltaTimes[i] > 0.0
    ensures FadeAfter(f, fadeSpeed, deltaTimes).alpha == 0.0
    decreases |deltaTimes|
  {
    if deltaTimes != [] {
      FadeStaysClosed(FadeStep(f, fadeSpeed, deltaTimes[0]), fadeSpeed, deltaTimes[1..]);
    }
  }

  /** The speed ramp of `updateFadeAlpha`: exactly 1.0 is added iff the speed is below the idle speed. */
  function RampSpeed(speed: real, idleSpeed: real): (r: real)
    ensures r == speed + 1.0 <==> speed < idleSpeed
    ensures r == speed <==> speed >= idleSpeed
    ensures speed < idleSpeed + 1.0 ==> r < idleSpeed + 1.0
  {
    if speed < idleSpeed then speed + 1.0 else speed
  }

  /** The speed after `n` ramp steps. */
  function RampedSpeed(speed: real, idleSpeed: real, n: nat): real
    decreases n
  {
    if n == 0 then speed else RampedSpeed(RampSpeed(speed, idleSpeed), idleSpeed, n - 1)
  }

  /** A speed that starts below `idleSpeed + 1` never reaches it, however many ramp steps run, and never decreases. */
  lemma {:induction false} RampStaysBelowCeiling(speed: real, idleSpeed: real, n: nat)
    requires speed < idleSpeed + 1.0
    ensures speed <= RampedSpeed(speed, idleSpeed, n) < idleSpeed + 1.0
    decreases n
  {
    if n > 0 {
      RampStaysBelowCeiling(RampSpeed(speed, idleSpeed), idleSpeed, n - 1);
    }
  }

  // ---------------------------------------------------------------------------
  // Rotation

  /** The single wrap applied after every angle step: subtract 360 once if at or above 360, then add 360 once if negative. */
  function Wrap360(angle: real): (r: real)
    ensures -360.0 <= angle < 720.0 ==> 0.0 <= r < 360.0
    ensures 0.0 <= angle < 360.0 ==> r == angle
    ensures r == angle || r == angle - 360.0 || r == angle + 360.0
  {
    var a := if angle >= 360.0 then angle - 360.0 else angle;
    if a < 0.0 then a + 360.0 else a
  }

  /** `r` names the same direction as `a` and lies at most one turn from it. */
  predicate SameDirection(r: real, a: real)
  {
    r == a || r == a - 360.0 || r == a + 360.0
  }

  /** An angle together with the oscillation clock that drives it. */
  datatype Spin = Spin(angle: real, clock: real)

  /**
   * One angle step of a rotation family whose modes are `base` (decrement by
   * `speed * deltaTime`), `base + 1` (increment) and `base + 2` (oscillate:
   * advance the clock, then `sin(clock * oscSpeed) * amplitude`). Any other mode
   * leaves the angle and clock alone. The wrap into [0,360) follows in every mode.
   * `calculateRotationAngle` is the family with base 1, `calculateLayerAngle` the one with base 4.
   */
  function RotationStep(base: int, mode: int, s: Spin, deltaTime: real, speed: real, oscSpeed: real,
                        amplitude: real, sin: real -> real): (r: Spin)
    ensures r.clock == if mode == base + 2 then s.clock + deltaTime else s.clock
  {
    if mode == base then Spin(Wrap360(s.angle - speed * deltaTime), s.clock)
    else if mode == base + 1 then Spin(Wrap360(s.angle + speed * deltaTime), s.clock)
    else if mode == base + 2 then Spin(Wrap360(Swing(s.clock + deltaTime, oscSpeed, amplitude, sin)), s.clock + deltaTime)
    else Spin(Wrap360(s.angle), s.clock)
  }

  /** The step bounds under which one step cannot leave [0,360): speeds and swings of at most a full turn, a bounded sine. */
  ghost predicate SmallStep(deltaTime: real, speed: real, amplitude: real, sin: real -> real)
  {
    && -360.0 <= speed * deltaTime <= 360.0
    && -360.0 <= amplitude <= 360.0
    && forall x :: -1.0 <= sin(x) <= 1.0
  }

  /** The oscillation angle at clock `t`. */
  function Swing(t: real, oscSpeed: real, amplitude: real, sin: real -> real): real
  {
    sin(t * oscSpeed) * amplitude
  }

  lemma SwingBounded(t: real, oscSpeed: real, amplitude: real, sin: real -> real)
    requires forall x :: -1.0 <= sin(x) <= 1.0
    requires -360.0 <= amplitude <= 360.0
    ensures -360.0 <= Swing(t, oscSpeed, amplitude, sin) <= 360.0
  {
    assert -1.0 <= sin(t * oscSpeed) <= 1.0;
    if amplitude >= 0.0 {
      assert -amplitude <= sin(t * oscSpeed) * amplitude <= amplitude;
    } else {
      assert amplitude <= sin(t * oscSpeed) * amplitude <= -amplitude;
    }
  }

  /** Under small steps an angle in [0,360) stays in [0,360), in every mode. */
  lemma RotationStepKeepsRange(base: int, mode: int, s: Spin, deltaTime: real, speed: real, oscSpeed: real,
                               amplitude: real, sin: real -> real)
    requires 0.0 <= s.angle < 360.0
    requires SmallStep(deltaTime, speed, amplitude, sin)
    ensures 0.0 <= RotationStep(base, mode, s, deltaTime, speed, oscSpeed, amplitude, sin).angle < 360.0
  {
    SwingBounded(s.clock + deltaTime, oscSpeed, amplitude, sin);
  }

  /**
   * Each mode of the family turns the angle by its step and then wraps it: the result names the same
   * direction as the decremented, incremented or oscillation angle, and outside the family an angle in
   * [0,360) is left as it is.
   */
  lemma RotationStepTurns(base: int, mode: int, s: Spin, deltaTime: real, speed: real, oscSpeed: real,
                          amplitude: real, sin: real -> real)
    ensures var r := RotationStep(base, mode, s, deltaTime, speed, oscSpeed, amplitude, sin);
            && (mode == base ==> SameDirection(r.angle, s.angle - speed * deltaTime))
            && (mode == base + 1 ==> SameDirection(r.angle, s.angle + speed * deltaTime))
            && (mode == base + 2 ==> SameDirection(r.angle, Swing(s.clock + deltaTime, oscSpeed, amplitude, sin)))
            && (mode != base && mode != base + 1 && mode != base + 2 && 0.0 <= s.angle < 360.0 ==> r == s)
  {
  }

  /** `calculateAngles`: the cosine and sine of the angle, given in degrees. */
  function CalculateAngles(angle: real, math: Trig): (r: (real, real))
    ensures UnitCircle(math) ==> r.0 * r.0 + r.1 * r.1 == 1.0
  {
    var rad := math.toRadians(angle);
    (math.cos(rad), math.sin(rad))
  }

  /** `getAngles`: the identity rotation (1,0) in mode 0 or below, without any trigonometry; otherwise `calculateAngles`. */
  function GetAngles(mode: int, angle: real, math: Trig): (r: (real, real))
    ensures mode <= 0 ==> r == (1.0, 0.0)
    ensures mode > 0 ==> r == CalculateAngles(angle, math)
  {
    if mode > 0 then CalculateAngles(angle, math) else (1.0, 0.0)
  }

  // ---------------------------------------------------------------------------
  // Initial population

  /** The depths `createInitialLayers` visits: `front`, `front + d`, ... while below `initZ`. */
  function InitialDepths(front: int, initZ: int, d: int): (ds: seq<int>)
    requires front < initZ ==> d > 0
    ensures forall i :: 0 <= i < |ds| ==> ds[i] == front + i * d
    decreases if front < initZ then initZ - front else 0
  {
    if front >= initZ then [] else [front] + InitialDepths(front + d, initZ, d)
  }

  /**
   * The initial depths start at `front`, are evenly spaced by `d` (so they
   * strictly increase), all lie below `initZ`, and stop at the first step that
   * would reach `initZ`; there are none when `front >= initZ`.
   */
  lemma {:induction false} InitialDepthsShape(front: int, initZ: int, d: int)
    requires front < initZ ==> d > 0
    ensures var ds := InitialDepths(front, initZ, d);
            && (ds == [] <==> front >= initZ)
            && (ds != [] ==> ds[0] == front && ds[|ds| - 1] + d >= initZ)
            && (forall i :: 0 <= i < |ds| ==> front <= ds[i] < initZ)
            && (forall i :: 0 <= i < |ds| - 1 ==> ds[i + 1] == ds[i] + d)
            && (forall i, j :: 0 <= i < j < |ds| ==> ds[i] < ds[j])
    decreases if front < initZ then initZ - front else 0
  {
    if front < initZ {
      var ds := InitialDepths(front, initZ, d);
      var rest := InitialDepths(front + d, initZ, d);
      InitialDepthsShape(front + d, initZ, d);
      assert ds == [front] + rest;
      forall i, j | 0 <= i < j < |ds|
        ensures ds[i] < ds[j]
      {
        if i > 0 {
          assert ds[i] == rest[i - 1] && ds[j] == rest[j - 1];
        } else {
          assert ds[j] == rest[j - 1] && front < front + d <= rest[j - 1];
        }
      }
    }
  }

  // ---------------------------------------------------------------------------
  // The effects object

  class Effects {
    var fadeAlpha: real
    const fadeSpeed: real
    var initialized: bool
    const alphaClamp: real
    const idleSpeed: real
    const initFrontLayerDistance: int
    const initZ: int
    const layerDistance: int
    const wholeRotationSpeed: real
    const wholeOscillationSpeed: real
    const wholeSwingAmplitude: real
    var wholeRotationTime: real
    const layerRotationSpeed: real
    const layerOscillationSpeed: real
    const layerSwingAmplitude: real
    /** `Math.sin`, `Math.cos`, `Math.toRadians`. */
    const math: Trig

    /** `initializeSettings`: every setting from the configuration, the fade not yet complete, the oscillation clock at 0. */
    constructor (cfg: Config, math: Trig)
      ensures fadeAlpha == cfg.initFadeAlpha && fadeSpeed == cfg.fadeSpeed && !initialized
      ensures alphaClamp == cfg.idleAlphaClamp && idleSpeed == cfg.idleSpeed
      ensures initFrontLayerDistance == cfg.initFrontDistance && initZ == cfg.initZ && layerDistance == cfg.layerDistance
      ensures wholeRotationSpeed == cfg.wholeRotationSpeed && wholeOscillationSpeed == cfg.wholeOscillationSpeed
      ensures wholeSwingAmplitude == cfg.wholeSwingAmplitude && wholeRotationTime == 0.0
      ensures layerRotationSpeed == cfg.layerRotationSpeed && layerOscillationSpeed == cfg.layerOscillationSpeed
      ensures layerSwingAmplitude == cfg.layerSwingAmplitude
      ensures this.math == math
    {
      fadeAlpha := cfg.initFadeAlpha;
      fadeSpeed := cfg.fadeSpeed;
      initialized := false;
      idleSpeed := cfg.idleSpeed;
      initFrontLayerDistance := cfg.initFrontDistance;
      alphaClamp := cfg.idleAlphaClamp;
      initZ := cfg.initZ;
      layerDistance := cfg.layerDistance;
      wholeRotationSpeed := cfg.wholeRotationSpeed;
      wholeOscillationSpeed := cfg.wholeOscillationSpeed;
      wholeSwingAmplitude := cfg.wholeSwingAmplitude;
      wholeRotationTime := 0.0;
      layerRotationSpeed := cfg.layerRotationSpeed;
      layerOscillationSpeed := cfg.layerOscillationSpeed;
      layerSwingAmplitude := cfg.layerSwingAmplitude;
      this.math := math;
    }

    /** `isInitialized()`: whether the fade-in has completed. */
    predicate IsInitialized()
      reads this
      ensures IsInitialized() <==> initialized
    {
      initialized
    }

    /** `getFadeAlpha()`: the current overlay alpha. */
    function GetFadeAlpha(): (a: real)
      reads this
      ensures a == fadeAlpha
    {
      fadeAlpha
    }

    /**
     * `updateFadeAlpha`: one fade step on `fadeAlpha`/`initialized`, and the
     * renderer's speed (passed in) comes back ramped.
     */
    method UpdateFadeAlpha(deltaTime: real, speed: real) returns (newSpeed: real)
      modifies this
      ensures Fade(fadeAlpha, initialized) == FadeStep(Fade(old(fadeAlpha), old(initialized)), fadeSpeed, deltaTime)
      ensures newSpeed == RampSpeed(speed, idleSpeed)
      ensures wholeRotationTime == old(wholeRotationTime)
    {
      fadeAlpha := fadeAlpha - fadeSpeed * deltaTime;
      if fadeAlpha <= 0.0 {
        fadeAlpha := 0.0;
        initialized := true;
      }
      newSpeed := speed;
      if newSpeed < idleSpeed {
        newSpeed := newSpeed + 1.0;
      }
    }

    /**
     * `generateRandomRGBA`: a fresh 4-element array; the draws are the successive
     * `Math.random()` results, the first of which becomes the clamped alpha.
     */
    method GenerateRandomRGBA(alphaDraw: real, rDraw: real, gDraw: real, bDraw: real) returns (rgba: array<real>)
      ensures fresh(rgba)
      ensures rgba[..] == RandomRGBA(alphaDraw, rDraw, gDraw, bDraw, alphaClamp)
    {
      var alpha := ClampAlpha(alphaDraw, alphaClamp);
      rgba := new real[4];
      rgba[0], rgba[1], rgba[2], rgba[3] := rDraw, gDraw, bDraw, alpha;
    }

    /** `new Layer(generateRandomRGBA(), z)` with colour number `c`: a fresh layer with a fresh colour array. */
    method NewLayer(z: int, c: nat, draws: nat -> real) returns (layer: Layer)
      ensures fresh(layer) && fresh(layer.rgba) && Created(layer, z as real, c, draws, alphaClamp)
    {
      var rgba := GenerateRandomRGBA(draws(4 * c), draws(4 * c + 1), draws(4 * c + 2), draws(4 * c + 3));
      assert rgba[..][3] == rgba[3];
      layer := new Layer(rgba, z);
    }

    /**
     * One round of the loop of `createInitialLayers`: a fresh layer at depth
     * `z`, with colour number `|layers|`, is appended; the earlier layers stay
     * as they were created.
     */
    method AppendLayer(layers: seq<Layer>, ghost done: seq<int>, z: int, draws: nat -> real) returns (next: seq<Layer>)
      requires |layers| == |done|
      requires forall i :: 0 <= i < |layers| ==> Created(layers[i], done[i] as real, i, draws, alphaClamp)
      requires forall i, j :: 0 <= i < j < |layers| ==> layers[i] != layers[j] && layers[i].rgba != layers[j].rgba
      ensures |next| == |layers| + 1 && next[..|layers|] == layers
      ensures fresh(next[|layers|]) && fresh(next[|layers|].rgba)
      ensures forall i :: 0 <= i < |next| ==> Created(next[i], (done + [z])[i] as real, i, draws, alphaClamp)
      ensures forall i, j :: 0 <= i < j < |next| ==> next[i] != next[j] && next[i].rgba != next[j].rgba
    {
      var k := |layers|;
      label Before:
      var layer := NewLayer(z, k, draws);
      forall i | 0 <= i < k
        ensures Created(layers[i], done[i] as real, i, draws, alphaClamp)
      {
        assert old@Before(Created(layers[i], done[i] as real, i, draws, alphaClamp));
      }
      next := layers + [layer];
    }

    /**
     * `createInitialLayers`: one fresh layer per initial depth, in increasing
     * depth order. Colour `i` uses draws `4i` (alpha) to `4i + 3`. The loop only
     * terminates when `layerDistance > 0` or there is nothing to create.
     */
    method CreateInitialLayers(draws: nat -> real) returns (layers: seq<Layer>)
      requires initFrontLayerDistance < initZ ==> layerDistance > 0
      ensures var ds := InitialDepths(initFrontLayerDistance, initZ, layerDistance);
              && |layers| == |ds|
              && forall i :: 0 <= i < |layers| ==>
                   fresh(layers[i]) && fresh(layers[i].rgba) && Created(layers[i], ds[i] as real, i, draws, alphaClamp)
      ensures forall i, j :: 0 <= i < j < |layers| ==> layers[i] != layers[j] && layers[i].rgba != layers[j].rgba
    {
      var currentZ := initFrontLayerDistance;
      layers := [];
      ghost var done: seq<int> := [];
      while currentZ < initZ
        invariant currentZ < initZ ==> layerDistance > 0
        invariant done + InitialDepths(currentZ, initZ, layerDistance) == InitialDepths(initFrontLayerDistance, initZ, layerDistance)
        invariant |layers| == |done|
        invariant forall i :: 0 <= i < |layers| ==>
                    fresh(layers[i]) && fresh(layers[i].rgba) && Created(layers[i], done[i] as real, i, draws, alphaClamp)
        invariant forall i, j :: 0 <= i < j < |layers| ==> layers[i] != layers[j] && layers[i].rgba != layers[j].rgba
        decreases initZ - currentZ
      {
        layers := AppendLayer(layers, done, currentZ, draws);
        ghost var rest := InitialDepths(currentZ + layerDistance, initZ, layerDistance);
        assert done + InitialDepths(currentZ, initZ, layerDistance) == (done + [currentZ]) + rest;
        done := done + [currentZ];
        currentZ := currentZ + layerDistance;
      }
    }

    /**
     * `calculateRotationAngle` in the renderer's current `mode`: the base-1 step;
     * only mode 3 advances `wholeRotationTime`.
     */
    method CalculateRotationAngle(mode: int, rotationAngle: real, deltaTime: real) returns (r: real)
      modifies this
      ensures Spin(r, wholeRotationTime) ==
              RotationStep(1, mode, Spin(rotationAngle, old(wholeRotationTime)), deltaTime,
                           wholeRotationSpeed, wholeOscillationSpeed, wholeSwingAmplitude, math.sin)
      ensures fadeAlpha == old(fadeAlpha) && initialized == old(initialized)
    {
      r := rotationAngle;
      if mode == 1 {
        r := r - wholeRotationSpeed * deltaTime;
      } else if mode == 2 {
        r := r + wholeRotationSpeed * deltaTime;
      } else if mode == 3 {
        wholeRotationTime := wholeRotationTime + deltaTime;
        r := Swing(wholeRotationTime, wholeOscillationSpeed, wholeSwingAmplitude, math.sin);
      }
      if r >= 360.0 {
        r := r - 360.0;
      }
      if r < 0.0 {
        r := r + 360.0;
      }
    }

    /**
     * `calculateLayerAngle` in the renderer's current `mode`: the base-4 step on
     * the layer's own angle and clock; only mode 6 advances `layer.time`.
     */
    method CalculateLayerAngle(mode: int, layer: Layer, deltaTime: real) returns (r: real)
      modifies layer
      ensures Spin(r, layer.time) ==
              RotationStep(4, mode, Spin(old(layer.rotationAngle), old(layer.time)), deltaTime,
                           layerRotationSpeed, layerOscillationSpeed, layerSwingAmplitude, math.sin)
      ensures layer.z == old(layer.z) && layer.rgba == old(layer.rgba) && layer.rotationAngle == old(layer.rotationAngle)
    {
      r := layer.GetRotationAngle();
      if mode == 4 {
        r := r - layerRotationSpeed * deltaTime;
      } else if mode == 5 {
        r := r + layerRotationSpeed * deltaTime;
      } else if mode == 6 {
        layer.time := layer.time + deltaTime;
        r := Swing(layer.time, layerOscillationSpeed, layerSwingAmplitude, math.sin);
      }
      if r >= 360.0 {
        r := r - 360.0;
      }
      if r < 0.0 {
        r := r + 360.0;
      }
    }
  }
}
