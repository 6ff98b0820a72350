/**
 * The pan/zoom arithmetic of the viewport, as pure functions over reals:
 * how a wheel event changes the zoom, where the zoom-anchored translate lies,
 * and which transform one repaint tick presents.  The classes in module
 * Engine are proved to compute exactly these values.
 */
module Viewport {
  import opened Wrappers
  import opened Graphics

  /** The zoom never goes below this floor. */
  const ZoomFloor: real := 0.01

  /** One unit of wheel rotation changes the zoom by this fraction. */
  const ZoomStep: real := 0.1

  /** The mouse button that pans when dragged (the secondary button, BUTTON3). */
  const PanButton: int := 3

  function Abs(r: real): real
  {
    if r < 0.0 then -r else r
  }

  /** The multiplicative factor of one wheel event: 1 + |rotation * 0.1|. */
  function ZoomScale(rotation: real): (f: real)
    ensures f >= 1.0
    ensures f == 1.0 <==> rotation == 0.0
  {
    1.0 + Abs(rotation * ZoomStep)
  }

  /**
   * The zoom after a wheel event of the given rotation: negative rotation
   * divides by the factor (zoom out), any other multiplies by it (zoom in),
   * and the result is clamped up to the floor.
   */
  function WheelZoom(zoom: real, rotation: real): (z: real)
    ensures z >= ZoomFloor
  {
    var z := if rotation < 0.0 then zoom / ZoomScale(rotation) else zoom * ZoomScale(rotation);
    if z < ZoomFloor then ZoomFloor else z
  }

  /**
   * The screen translate, on one axis, of the new transform with scale zoom:
   * the scene point that the previous transform (prevScale, prevTranslate)
   * showed at pixel `pointer` is shown at `pointer` again.
   */
  function AnchoredTranslate(prevTranslate: real, prevScale: real, pointer: real, zoom: real): (t: real)
    requires prevScale != 0.0
    ensures zoom * ((pointer - prevTranslate) / prevScale) + t == pointer
  {
    (prevTranslate - pointer) * zoom / prevScale + pointer
  }

  /**
   * The transform one tick presents, from the previous tick's transform, the
   * current zoom, the pointer position (absent outside the panel) and the
   * pending drag.  Without a pointer the previous transform is reused; with
   * one the scale is the zoom on both axes, the translate is zoom-anchored at
   * the pointer and, while panning, shifted by the drag in pixels.
   */
  function TickTransform(prev: Transform, zoom: real, pointer: Option<(int, int)>,
                         isDragging: bool, dragX: int, dragY: int): Transform
    requires Invertible(prev)
  {
    match pointer
    case None => prev
    case Some((x, y)) =>
      var panX := if isDragging then dragX as real else 0.0;
      var panY := if isDragging then dragY as real else 0.0;
      Transform(zoom, zoom,
                AnchoredTranslate(prev.translateX, prev.scaleX, x as real, zoom) + panX,
                AnchoredTranslate(prev.translateY, prev.scaleY, y as real, zoom) + panY)
  }

  // ---------------------------------------------------------------------------
  // Zoom: floor, monotonicity and round trips

  /** Zooming in strictly increases the zoom, by exactly the factor. */
  lemma WheelZoomIn(zoom: real, rotation: real)
    requires zoom >= ZoomFloor && rotation > 0.0
    ensures WheelZoom(zoom, rotation) == zoom * ZoomScale(rotation) > zoom
  {
    var f := ZoomScale(rotation);
    assert f > 1.0;
    assert zoom * f - zoom == zoom * (f - 1.0) > 0.0;
  }

  /** Zooming out never increases the zoom, and decreases it strictly above the floor. */
  lemma WheelZoomOut(zoom: real, rotation: real)
    requires zoom >= ZoomFloor && rotation < 0.0
    ensures WheelZoom(zoom, rotation) <= zoom
    ensures zoom > ZoomFloor ==> WheelZoom(zoom, rotation) < zoom
  {
    var f := ZoomScale(rotation);
    assert f > 1.0;
    assert zoom / f < zoom by {
      assert zoom == (zoom / f) * f;
      assert (zoom / f) * f - zoom / f == (zoom / f) * (f - 1.0);
    }
  }

  /** A wheel event without rotation leaves a zoom at or above the floor unchanged. */
  lemma WheelZoomIdle(zoom: real)
    requires zoom >= ZoomFloor
    ensures WheelZoom(zoom, 0.0) == zoom
  {
  }

  /** At the floor, zooming out (or not at all) keeps the zoom at exactly the floor. */
  lemma WheelZoomAtFloor(rotation: real)
    requires rotation <= 0.0
    ensures WheelZoom(ZoomFloor, rotation) == ZoomFloor
  {
    if rotation < 0.0 {
      WheelZoomOut(ZoomFloor, rotation);
    }
  }

  /** Zooming out by r and back in by |r| restores the zoom unless the floor was hit. */
  lemma ZoomOutInRoundTrip(zoom: real, rotation: real)
    requires zoom >= ZoomFloor && rotation < 0.0
    requires zoom / ZoomScale(rotation) >= ZoomFloor
    ensures WheelZoom(WheelZoom(zoom, rotation), -rotation) == zoom
  {
    var f := ZoomScale(rotation);
    assert ZoomScale(-rotation) == f by {
      assert Abs(-rotation * ZoomStep) == Abs(rotation * ZoomStep);
    }
    assert WheelZoom(zoom, rotation) == zoom / f;
    assert zoom / f * f == zoom;
  }

  /** Zooming in by r and back out by r always restores the zoom: the floor is never hit. */
  lemma ZoomInOutRoundTrip(zoom: real, rotation: real)
    requires zoom >= ZoomFloor && rotation > 0.0
    ensures WheelZoom(WheelZoom(zoom, rotation), -rotation) == zoom
  {
    var f := ZoomScale(rotation);
    assert ZoomScale(-rotation) == f by {
      assert Abs(-rotation * ZoomStep) == Abs(rotation * ZoomStep);
    }
    WheelZoomIn(zoom, rotation);
    assert zoom * f / f == zoom;
  }

  /**
   * Wheel events compound multiplicatively: three steps of +1 give 1.1^3 =
   * 1.331, not the 1.3 of one step of +3.
   */
  lemma WheelStepsCompound()
    ensures WheelZoom(WheelZoom(WheelZoom(1.0, 1.0), 1.0), 1.0) == 1.331
    ensures WheelZoom(1.0, 3.0) == 1.3
  {
    assert ZoomScale(1.0) == 1.1;
    assert ZoomScale(3.0) == 1.3;
  }

  // ---------------------------------------------------------------------------
  // The tick: cursor-anchored zoom, panning, pointer absence

  /**
   * Zoom anchor: with the pointer at (x, y) and no pan, the new transform has
   * the zoom as its scale on both axes, and the scene point that the previous
   * transform showed under the pointer is shown under the pointer again.
   */
  lemma TickAnchorsPointer(prev: Transform, zoom: real, x: int, y: int, isDragging: bool, dragX: int, dragY: int)
    requires Invertible(prev)
    requires !isDragging
    ensures var t := TickTransform(prev, zoom, Some((x, y)), isDragging, dragX, dragY);
            t.scaleX == zoom && t.scaleY == zoom &&
            Apply(t, Unapply(prev, Point(x as real, y as real))) == Point(x as real, y as real)
  {
    var q := Point(x as real, y as real);
    var p := Unapply(prev, q);
    var t := TickTransform(prev, zoom, Some((x, y)), isDragging, dragX, dragY);
    assert p.x == (q.x - prev.translateX) / prev.scaleX;
    assert t.translateX == AnchoredTranslate(prev.translateX, prev.scaleX, q.x, zoom);
    assert t.translateY == AnchoredTranslate(prev.translateY, prev.scaleY, q.y, zoom);
  }

  /**
   * Panning: while dragging, the scene point that was under the pointer ends
   * up exactly (dragX, dragY) pixels away from the pointer; equivalently the
   * translate differs from the anchored one by the drag.
   */
  lemma TickPansByDrag(prev: Transform, zoom: real, x: int, y: int, dragX: int, dragY: int)
    requires Invertible(prev)
    ensures var t := TickTransform(prev, zoom, Some((x, y)), true, dragX, dragY);
            var anchored := TickTransform(prev, zoom, Some((x, y)), false, dragX, dragY);
            t.translateX == anchored.translateX + dragX as real &&
            t.translateY == anchored.translateY + dragY as real &&
            Apply(t, Unapply(prev, Point(x as real, y as real))) == Point((x + dragX) as real, (y + dragY) as real)
  {
    var q := Point(x as real, y as real);
    var p := Unapply(prev, q);
    var anchored := TickTransform(prev, zoom, Some((x, y)), false, dragX, dragY);
    TickAnchorsPointer(prev, zoom, x, y, false, dragX, dragY);
    assert Apply(anchored, p) == q;
  }

  /** Pointer absent: the tick presents the previous transform unchanged. */
  lemma TickWithoutPointer(prev: Transform, zoom: real, isDragging: bool, dragX: int, dragY: int)
    requires Invertible(prev)
    ensures TickTransform(prev, zoom, None, isDragging, dragX, dragY) == prev
  {
  }

  /**
   * No drift across ticks: anchoring at zoom z1 and then, with the pointer
   * where it was, at zoom z2 presents the same transform as anchoring at z2
   * straight from the first base.  The result depends only on the final zoom,
   * not on how many ticks (or wheel events) led to it.
   */
  lemma TickComposes(prev: Transform, z1: real, z2: real, x: int, y: int)
    requires Invertible(prev) && z1 != 0.0
    ensures var mid := TickTransform(prev, z1, Some((x, y)), false, 0, 0);
            Invertible(mid) &&
            TickTransform(mid, z2, Some((x, y)), false, 0, 0) == TickTransform(prev, z2, Some((x, y)), false, 0, 0)
  {
    var mid := TickTransform(prev, z1, Some((x, y)), false, 0, 0);
    AnchorComposes(prev.translateX, prev.scaleX, x as real, z1, z2);
    AnchorComposes(prev.translateY, prev.scaleY, y as real, z1, z2);
  }

  /**
   * Drag consumed once: once a tick has presented a transform at the current
   * zoom, a further tick at the same zoom with no new drag presents the same
   * transform again, wherever the pointer is and whether or not the panning
   * flag is still set.
   */
  lemma TickSettled(prev: Transform, zoom: real, x: int, y: int, isDragging: bool)
    requires zoom != 0.0 && prev.scaleX == zoom && prev.scaleY == zoom
    ensures TickTransform(prev, zoom, Some((x, y)), isDragging, 0, 0) == prev
  {
    assert (prev.translateX - x as real) * zoom / zoom == prev.translateX - x as real;
    assert (prev.translateY - y as real) * zoom / zoom == prev.translateY - y as real;
  }

  /** One axis of TickComposes. */
  lemma AnchorComposes(prevTranslate: real, prevScale: real, pointer: real, z1: real, z2: real)
    requires prevScale != 0.0 && z1 != 0.0
    ensures AnchoredTranslate(AnchoredTranslate(prevTranslate, prevScale, pointer, z1), z1, pointer, z2)
         == AnchoredTranslate(prevTranslate, prevScale, pointer, z2)
  {
    var d := prevTranslate - pointer;
    var t1 := AnchoredTranslate(prevTranslate, prevScale, pointer, z1);
    assert t1 - pointer == d * z1 / prevScale;
    calc {
      (t1 - pointer) * z2 / z1;
      (d * z1 / prevScale) * z2 / z1;
      { assert (d * z1 / prevScale) * z2 == (d * z2 / prevScale) * z1; }
      (d * z2 / prevScale) * z1 / z1;
      d * z2 / prevScale;
    }
  }

  /**
   * The worked example: previous scale 2 and translate (50, 50), pointer at
   * (50, 100), zoom 2 raised by one wheel step to 2.2.  The new transform has
   * scale 2.2 and translate (50, 45).
   */
  lemma WorkedExample()
    ensures WheelZoom(2.0, 1.0) == 2.2
    ensures TickTransform(Transform(2.0, 2.0, 50.0, 50.0), 2.2, Some((50, 100)), false, 0, 0)
         == Transform(2.2, 2.2, 50.0, 45.0)
  {
    assert ZoomScale(1.0) == 1.1;
    assert AnchoredTranslate(50.0, 2.0, 100.0, 2.2) == 45.0 by {
      assert (50.0 - 100.0) * 2.2 / 2.0 == -55.0;
    }
  }

  /** In the worked example, scene point (0, 25) is under the pointer (50, 100) before and after. */
  lemma WorkedExampleAnchor()
    ensures Unapply(Transform(2.0, 2.0, 50.0, 50.0), Point(50.0, 100.0)) == Point(0.0, 25.0)
    ensures Apply(Transform(2.0, 2.0, 50.0, 50.0), Point(0.0, 25.0)) == Point(50.0, 100.0)
    ensures Apply(Transform(2.2, 2.2, 50.0, 45.0), Point(0.0, 25.0)) == Point(50.0, 100.0)
  {
    assert (100.0 - 50.0) / 2.0 == 25.0;
  }
}
