/**
 * The viewport panel and its two input listeners, as objects whose methods
 * update fields in place.  Each repaint tick calls ApplyTransformation; the
 * listeners change the pending zoom and drag between ticks.
 */
module Engine {
  import opened Wrappers
  import opened Graphics
  import opened Viewport

  /** The sum of a sequence of pixel deltas. */
  function Sum(s: seq<int>): int
  {
    if s == [] then 0 else s[0] + Sum(s[1..])
  }

  /** Appending one delta adds it to the sum. */
  lemma {:induction false} SumAppend(s: seq<int>, d: int)
    ensures Sum(s + [d]) == Sum(s) + d
  {
    if s != [] {
      assert (s + [d])[1..] == s[1..] + [d];
      SumAppend(s[1..], d);
    }
  }

  /** The panel: pending zoom and drag, and the transform presented last tick. */
  class MouseMoveScale {
    var zoom: real
    var dragX: int
    var dragY: int
    var isDragging: bool
    var prevTransform: Transform

    /**
     * The zoom never drops below the floor, and the last presented transform
     * scales both axes alike by a factor at or above the floor (so it can be
     * inverted to find the scene point under the pointer).
     */
    ghost predicate Valid()
      reads this
    {
      zoom >= ZoomFloor &&
      prevTransform.scaleX == prevTransform.scaleY &&
      prevTransform.scaleX >= ZoomFloor
    }

    constructor ()
      ensures Valid()
      ensures zoom == 1.0 && dragX == 0 && dragY == 0 && !isDragging
      ensures prevTransform == Identity()
    {
      zoom := 1.0;
      dragX, dragY := 0, 0;
      isDragging := false;
      prevTransform := Identity();
    }

    /**
     * One tick.  The graphics context arrives with the identity transform;
     * afterwards it holds the tick's transform, which also becomes the base
     * for the next tick.  The pending drag is consumed only when the pointer
     * is inside the panel.
     */
    method ApplyTransformation(g2d: Graphics2D, mousePosition: Option<(int, int)>)
      requires Valid() && g2d.transform == Identity()
      modifies this, g2d
      ensures Valid()
      ensures g2d.transform == TickTransform(old(prevTransform), zoom, mousePosition,
                                             isDragging, old(dragX), old(dragY))
      ensures prevTransform == g2d.transform
      ensures zoom == old(zoom) && isDragging == old(isDragging)
      ensures mousePosition.Some? ==> dragX == 0 && dragY == 0
      ensures mousePosition.None? ==> dragX == old(dragX) && dragY == old(dragY)
    {
      if mousePosition.Some? {
        var (x, y) := mousePosition.value;
        g2d.Scale(zoom, zoom);
        g2d.Translate((prevTransform.translateX - x as real) / prevTransform.scaleX + x as real / zoom,
                      (prevTransform.translateY - y as real) / prevTransform.scaleY + y as real / zoom);
        AnchorByConcatenation(prevTransform, zoom, x, y);
        if isDragging {
          g2d.Translate(dragX as real / zoom, dragY as real / zoom);
          PanByConcatenation(prevTransform, zoom, x, y, dragX, dragY);
        }
        dragX := 0;
        dragY := 0;
      } else {
        g2d.SetTransform(prevTransform);
      }
      prevTransform := g2d.GetTransform();
    }

    /**
     * A repaint: save the context's transform, apply the tick, draw the scene
     * (drawing is not modelled) and restore the saved transform, so the next
     * repaint again starts from the identity.
     */
    method PaintComponent(g2d: Graphics2D, mousePosition: Option<(int, int)>)
      requires Valid() && g2d.transform == Identity()
      modifies this, g2d
      ensures Valid() && g2d.transform == Identity()
      ensures prevTransform == TickTransform(old(prevTransform), zoom, mousePosition,
                                             isDragging, old(dragX), old(dragY))
      ensures zoom == old(zoom) && isDragging == old(isDragging)
      ensures mousePosition.Some? ==> dragX == 0 && dragY == 0
      ensures mousePosition.None? ==> dragX == old(dragX) && dragY == old(dragY)
    {
      var saveT := g2d.GetTransform();
      ApplyTransformation(g2d, mousePosition);
      g2d.SetTransform(saveT);
    }
  }

  /**
   * Scaling a fresh context by the zoom and then translating it by
   * (prevTranslate - pointer) / prevScale + pointer / zoom on each axis
   * yields the zoom-anchored transform of the tick.
   */
  lemma AnchorByConcatenation(prev: Transform, zoom: real, x: int, y: int)
    requires Invertible(prev) && zoom != 0.0
    ensures Translated(Scaled(Identity(), zoom, zoom),
                       (prev.translateX - x as real) / prev.scaleX + x as real / zoom,
                       (prev.translateY - y as real) / prev.scaleY + y as real / zoom)
         == TickTransform(prev, zoom, Some((x, y)), false, 0, 0)
  {
    assert Scaled(Identity(), zoom, zoom) == Transform(zoom, zoom, 0.0, 0.0);
    ScaleThenTranslate(prev.translateX, prev.scaleX, x as real, zoom);
    ScaleThenTranslate(prev.translateY, prev.scaleY, y as real, zoom);
  }

  /** One axis of AnchorByConcatenation. */
  lemma ScaleThenTranslate(prevTranslate: real, prevScale: real, pointer: real, zoom: real)
    requires prevScale != 0.0 && zoom != 0.0
    ensures 0.0 + zoom * ((prevTranslate - pointer) / prevScale + pointer / zoom)
         == AnchoredTranslate(prevTranslate, prevScale, pointer, zoom)
  {
    var d := (prevTranslate - pointer) / prevScale;
    assert zoom * (d + pointer / zoom) == zoom * d + zoom * (pointer / zoom);
    assert zoom * (pointer / zoom) == pointer;
    assert zoom * d == (prevTranslate - pointer) * zoom / prevScale;
  }

  /**
   * Translating the anchored transform by the drag divided by the zoom shifts
   * the screen translate by exactly the drag in pixels.
   */
  lemma PanByConcatenation(prev: Transform, zoom: real, x: int, y: int, dragX: int, dragY: int)
    requires Invertible(prev) && zoom != 0.0
    ensures Translated(TickTransform(prev, zoom, Some((x, y)), false, 0, 0),
                       dragX as real / zoom, dragY as real / zoom)
         == TickTransform(prev, zoom, Some((x, y)), true, dragX, dragY)
  {
    var anchored := TickTransform(prev, zoom, Some((x, y)), false, 0, 0);
    assert anchored.scaleX == zoom && anchored.scaleY == zoom;
    ShiftByScaledDrag(anchored, dragX as real, dragY as real);
  }

  /** Translating by (dx, dy) divided by the scale moves the screen translate by (dx, dy). */
  lemma ShiftByScaledDrag(t: Transform, dx: real, dy: real)
    requires Invertible(t)
    ensures Translated(t, dx / t.scaleX, dy / t.scaleY)
         == Transform(t.scaleX, t.scaleY, t.translateX + dx, t.translateY + dy)
  {
    MulDivCancels(dx, t.scaleX);
    MulDivCancels(dy, t.scaleY);
    var r := Translated(t, dx / t.scaleX, dy / t.scaleY);
    assert r.translateX == t.translateX + t.scaleX * (dx / t.scaleX);
    assert r.translateY == t.translateY + t.scaleY * (dy / t.scaleY);
  }

  lemma MulDivCancels(a: real, z: real)
    requires z != 0.0
    ensures z * (a / z) == a
  {
  }

  /**
   * The press/drag/release listener.  It remembers where the mouse was last
   * pressed or dragged to and which button was pressed, and writes the drag
   * delta and the panning flag into the panel.
   */
  class MovingAdapter {
    const outer: MouseMoveScale
    var pressedX: int
    var pressedY: int
    var buttonPressed: int

    /** Where the current gesture started, and the deltas reported since then. */
    ghost var startX: int
    ghost var startY: int
    ghost var deltasX: seq<int>
    ghost var deltasY: seq<int>

    /** The deltas of a gesture sum to how far the mouse has moved since the press. */
    ghost predicate Valid()
      reads this
    {
      pressedX == startX + Sum(deltasX) &&
      pressedY == startY + Sum(deltasY)
    }

    constructor (outer: MouseMoveScale)
      ensures this.outer == outer && Valid()
      ensures pressedX == 0 && pressedY == 0 && buttonPressed == 0
    {
      this.outer := outer;
      pressedX, pressedY, buttonPressed := 0, 0, 0;
      startX, startY := 0, 0;
      deltasX, deltasY := [], [];
    }

    /** Records the press position and button; starts a new gesture. */
    method MousePressed(x: int, y: int, button: int)
      modifies this
      ensures Valid()
      ensures pressedX == x && pressedY == y && buttonPressed == button
      ensures startX == x && startY == y && deltasX == [] && deltasY == []
    {
      pressedX := x;
      pressedY := y;
      buttonPressed := button;
      startX, startY := x, y;
      deltasX, deltasY := [], [];
    }

    /**
     * Overwrites (does not add to) the panel's drag with the offset from the
     * last press/drag position, moves that position to (x, y), and pans only
     * if the pressed button is the pan button.
     */
    method MouseDragged(x: int, y: int)
      requires Valid()
      modifies this, outer`dragX, outer`dragY, outer`isDragging
      ensures Valid()
      ensures outer.dragX == x - old(pressedX) && outer.dragY == y - old(pressedY)
      ensures pressedX == x && pressedY == y && buttonPressed == old(buttonPressed)
      ensures outer.isDragging == (buttonPressed == PanButton)
      ensures startX == old(startX) && startY == old(startY)
      ensures deltasX == old(deltasX) + [outer.dragX] && deltasY == old(deltasY) + [outer.dragY]
    {
      outer.dragX := x - pressedX;
      outer.dragY := y - pressedY;
      SumAppend(deltasX, outer.dragX);
      SumAppend(deltasY, outer.dragY);
      deltasX := deltasX + [outer.dragX];
      deltasY := deltasY + [outer.dragY];
      pressedX := x;
      pressedY := y;
      outer.isDragging := buttonPressed == PanButton;
    }

    /** Stops panning; the pending drag is left as it is. */
    method MouseReleased()
      modifies outer`isDragging
      ensures !outer.isDragging
      ensures outer.dragX == old(outer.dragX) && outer.dragY == old(outer.dragY)
    {
      outer.isDragging := false;
    }
  }

  /** The wheel listener: multiplies or divides the panel's zoom. */
  class ScaleHandler {
    const outer: MouseMoveScale

    constructor (outer: MouseMoveScale)
      ensures this.outer == outer
    {
      this.outer := outer;
    }

    method MouseWheelMoved(wheelRotation: real)
      requires outer.Valid()
      modifies outer`zoom
      ensures outer.Valid()
      ensures outer.zoom == WheelZoom(old(outer.zoom), wheelRotation)
    {
      var zoomScale := 1.0 + Abs(wheelRotation * ZoomStep);
      if wheelRotation < 0.0 {
        outer.zoom := outer.zoom / zoomScale;
      } else {
        outer.zoom := outer.zoom * zoomScale;
      }
      if outer.zoom < ZoomFloor {
        outer.zoom := ZoomFloor;
      }
    }
  }
}
