/**
 * The part of Java2D the viewport engine relies on: an axis-aligned affine
 * transform (scene -> screen) and a graphics context that concatenates
 * scalings and translations onto its current transform.
 *
 * The engine only ever scales and translates, so the shear terms of a general
 * affine transform stay zero and are not represented.
 */
module Graphics {

  datatype Point = Point(x: real, y: real)

  /** screen = scale * scene + translate, independently on each axis. */
  datatype Transform = Transform(scaleX: real, scaleY: real, translateX: real, translateY: real)

  /** The image of scene point p on the screen. */
  function Apply(t: Transform, p: Point): Point
  {
    Point(t.scaleX * p.x + t.translateX, t.scaleY * p.y + t.translateY)
  }

  /** The transform that leaves every point where it is. */
  function Identity(): (t: Transform)
    ensures forall p :: Apply(t, p) == p
  {
    Transform(1.0, 1.0, 0.0, 0.0)
  }

  predicate Invertible(t: Transform)
  {
    t.scaleX != 0.0 && t.scaleY != 0.0
  }

  /** The scene point that t maps to screen point q. */
  function Unapply(t: Transform, q: Point): (p: Point)
    requires Invertible(t)
    ensures Apply(t, p) == q
  {
    var dx, dy := q.x - t.translateX, q.y - t.translateY;
    var px, py := dx / t.scaleX, dy / t.scaleY;
    assert t.scaleX * px == dx;
    assert t.scaleY * py == dy;
    assert Apply(t, Point(px, py)) == Point(dx + t.translateX, dy + t.translateY);
    Point(px, py)
  }

  /**
   * Concatenation of a scaling: the result first scales scene coordinates by
   * (sx, sy) and then applies t.
   */
  function Scaled(t: Transform, sx: real, sy: real): (r: Transform)
    ensures forall p :: Apply(r, p) == Apply(t, Point(sx * p.x, sy * p.y))
  {
    var r := Transform(t.scaleX * sx, t.scaleY * sy, t.translateX, t.translateY);
    assert forall p :: Apply(r, p) == Apply(t, Point(sx * p.x, sy * p.y)) by {
      forall p ensures Apply(r, p) == Apply(t, Point(sx * p.x, sy * p.y)) {
        ScaledAt(t, sx, sy, p);
      }
    }
    r
  }

  /** One point of Scaled's contract: multiplying the scale first or the coordinate first agrees. */
  lemma ScaledAt(t: Transform, sx: real, sy: real, p: Point)
    ensures Apply(Transform(t.scaleX * sx, t.scaleY * sy, t.translateX, t.translateY), p)
         == Apply(t, Point(sx * p.x, sy * p.y))
  {
    var a, b := t.scaleX, t.scaleY;
    assert (a * sx) * p.x == a * (sx * p.x);
    assert (b * sy) * p.y == b * (sy * p.y);
  }

  /**
   * Concatenation of a translation: the result first shifts scene coordinates
   * by (tx, ty) and then applies t, so the screen translate grows by the
   * current scale times (tx, ty).
   */
  function Translated(t: Transform, tx: real, ty: real): (r: Transform)
    ensures forall p :: Apply(r, p) == Apply(t, Point(p.x + tx, p.y + ty))
  {
    Transform(t.scaleX, t.scaleY, t.translateX + t.scaleX * tx, t.translateY + t.scaleY * ty)
  }

  /** A drawing context; only its current transform matters to the engine. */
  class Graphics2D {
    var transform: Transform

    constructor ()
      ensures transform == Identity()
    {
      transform := Identity();
    }

    method Scale(sx: real, sy: real)
      modifies this
      ensures transform == Scaled(old(transform), sx, sy)
    {
      transform := Transform(transform.scaleX * sx, transform.scaleY * sy,
                             transform.translateX, transform.translateY);
    }

    method Translate(tx: real, ty: real)
      modifies this
      ensures transform == Translated(old(transform), tx, ty)
    {
      transform := Transform(transform.scaleX, transform.scaleY,
                             transform.translateX + transform.scaleX * tx,
                             transform.translateY + transform.scaleY * ty);
    }

    method SetTransform(t: Transform)
      modifies this
      ensures transform == t
    {
      transform := t;
    }

    /** Returns a copy of the current transform (a value: later changes do not affect it). */
    method GetTransform() returns (t: Transform)
      ensures t == transform
    {
      t := transform;
    }
  }
}
