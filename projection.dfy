/**
 * The per-point arithmetic of `render()` in `rendering/Renderer.java`: rotate the
 * model point, scale it by `focalLength / z`, place it around the viewport centre
 * with y pointing down, then map the screen position to normalized device
 * coordinates.
 */
module Projection {
  import opened LayerData

  /** The camera and viewport the renderer reads from its settings. */
  datatype Camera = Camera(focalLength: real, baseScale: real, windowWidth: int, windowHeight: int)

  /** What one point contributes to a draw: its NDC offset and its quad scale. */
  datatype Placement = Placement(ndcX: real, ndcY: real, scale: real)

  predicate Drawable(z: real, cam: Camera)
  {
    z != 0.0 && cam.windowWidth != 0 && cam.windowHeight != 0
  }

  /** Rotation of a point by the angle whose cosine and sine are given. */
  function Rotate(p: Point2D, cos: real, sin: real): Point2D
  {
    Point2D(cos * p.x - sin * p.y, sin * p.x + cos * p.y)
  }

  /**
   * One point of a layer at depth `z`. The result's offset is the rotated point
   * scaled by `focalLength / z` relative to half the viewport, so the screen
   * centre and the NDC shift cancel out; its scale is that factor times `baseScale`.
   */
  function Project(p: Point2D, cos: real, sin: real, z: real, cam: Camera): (r: Placement)
    requires Drawable(z, cam)
    ensures r.scale == (cam.focalLength / z) * cam.baseScale
    ensures r.ndcX == Rotate(p, cos, sin).x * (cam.focalLength / z) / (cam.windowWidth as real / 2.0)
    ensures r.ndcY == Rotate(p, cos, sin).y * (cam.focalLength / z) / (cam.windowHeight as real / 2.0)
  {
    var centerX := cam.windowWidth as real / 2.0;
    var centerY := cam.windowHeight as real / 2.0;
    var computedScale := cam.focalLength / z;
    var finalScale := computedScale * cam.baseScale;
    var rotated := Rotate(p, cos, sin);
    var screenX := centerX + rotated.x * computedScale;
    var screenY := centerY - rotated.y * computedScale;
    Placement(screenX / (cam.windowWidth as real / 2.0) - 1.0, 1.0 - screenY / (cam.windowHeight as real / 2.0), finalScale)
  }

  /** The identity rotation (1,0) leaves a point where it is. */
  lemma IdentityRotation(p: Point2D)
    ensures Rotate(p, 1.0, 0.0) == p
  {
  }

  /** The model origin lands on the centre of the viewport, whatever the rotation and depth. */
  lemma OriginProjectsToCentre(cos: real, sin: real, z: real, cam: Camera)
    requires Drawable(z, cam)
    ensures var r := Project(Point2D(0.0, 0.0), cos, sin, z, cam); r.ndcX == 0.0 && r.ndcY == 0.0
  {
  }

  /** A layer at the focal distance is drawn at exactly the base scale. */
  lemma FocalDepthKeepsBaseScale(p: Point2D, cos: real, sin: real, cam: Camera)
    requires Drawable(cam.focalLength, cam)
    ensures Project(p, cos, sin, cam.focalLength, cam).scale == cam.baseScale
  {
  }

  /** Mirroring a point through the origin mirrors its NDC offset and keeps its scale. */
  lemma ProjectOpposite(p: Point2D, cos: real, sin: real, z: real, cam: Camera)
    requires Drawable(z, cam)
    ensures var r := Project(p, cos, sin, z, cam);
            var q := Project(Negate(p), cos, sin, z, cam);
            q.ndcX == -r.ndcX && q.ndcY == -r.ndcY && q.scale == r.scale
  {
    var k := cam.focalLength / z;
    var w := cam.windowWidth as real / 2.0;
    var h := cam.windowHeight as real / 2.0;
    var rp := Rotate(p, cos, sin);
    var rq := Rotate(Negate(p), cos, sin);
    assert rq.x == -rp.x && rq.y == -rp.y;
    assert rq.x * k / w == -(rp.x * k / w);
    assert rq.y * k / h == -(rp.y * k / h);
  }
}
