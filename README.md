# Mouse move/scale viewport: the pan/zoom engine

A Swing panel draws a scene through an affine transform `screen = scale * scene + translate`
and lets the user change that transform with the mouse:

- the **wheel** multiplies the zoom by `1 + |rotation * 0.1|` (dividing for negative
  rotation) and clamps it up to a floor of 0.01;
- **pressing** a button remembers the position and the button; each **drag** event
  overwrites the pending drag with the offset from the last remembered position, moves
  that position, and marks the panel as panning when the pressed button is button 3;
  **release** stops panning;
- every repaint **tick** builds the new transform from the transform presented on the
  previous tick: the scale becomes the zoom, the translate is chosen so that the scene
  point under the pointer stays under the pointer (cursor-anchored zoom), the pending drag
  is added in pixels while panning and then cleared, and the result becomes the base for
  the next tick. With the pointer outside the panel the previous transform is reused
  verbatim and the pending drag is kept.

The project has four modules:

- `Wrappers` (`wrappers.dfy`): `Option`, for the pointer position that is absent outside
  the panel.
- `Graphics` (`graphics.dfy`): the axis-aligned transform (`Transform`, `Apply`, its
  inverse `Unapply`), the concatenation of a scaling and of a translation (`Scaled`,
  `Translated`, each specified by what it does to every point), and a `Graphics2D` class
  whose methods update its current transform in place, as Java2D's does.
- `Viewport` (`viewport.dfy`): the pan/zoom arithmetic as pure functions over `real`
  (`WheelZoom`, `AnchoredTranslate`, `TickTransform`) and the lemmas about them.
- `Engine` (`engine.dfy`): the panel (`MouseMoveScale`) with its fields `zoom`, `dragX`,
  `dragY`, `isDragging` and `prevTransform`, and its two listeners (`MovingAdapter`,
  `ScaleHandler`) that hold a reference to the panel and update its fields, as the Java
  inner classes do. The panel's tick (`ApplyTransformation`, `PaintComponent`) and the
  wheel handler are specified by `TickTransform` and `WheelZoom` and keep the panel's
  invariant (zoom and last scale at or above the floor, equal scales on both axes). The
  press, drag and release handlers are specified by the fields they write, and the drag
  listener keeps its own invariant: the deltas reported since the last press sum to the
  current position minus the press position.

The tick in the source does not compute the anchored translate directly: it scales the
graphics context by the zoom and then translates it by
`(prevTranslate - pointer) / prevScale + pointer / zoom` (and by `drag / zoom` while
panning). `ApplyTransformation` performs exactly these calls on the modelled `Graphics2D`;
`AnchorByConcatenation` and `PanByConcatenation` prove that the concatenation yields the
anchored transform of `TickTransform`.

Wheel events compound: each event multiplies the zoom, so three steps of +1 give
1.1^3 = 1.331 while one step of +3 gives 1.3; `WheelStepsCompound` states both.

## Model

| member | source | states |
|---|---|---|
| `Graphics.Identity` | src/main/java/ua/in/asilichenko/mousemovescale/MouseMoveScale.java:45 | the initial transform maps every scene point to itself |
| `Graphics.Unapply` | src/main/java/ua/in/asilichenko/mousemovescale/MouseMoveScale.java:92-93 | the scene point computed from a screen point with an invertible transform is mapped back onto that screen point |
| `Graphics.Scaled` | src/main/java/ua/in/asilichenko/mousemovescale/MouseMoveScale.java:89 | concatenating a scaling gives the transform that first scales the scene point and then applies the old transform |
| `Graphics.ScaledAt` | src/main/java/ua/in/asilichenko/mousemovescale/MouseMoveScale.java:89 | at one point: scaling the transform's scale or scaling the scene coordinate first gives the same screen point |
| `Graphics.Translated` | src/main/java/ua/in/asilichenko/mousemovescale/MouseMoveScale.java:90-94 | concatenating a translation gives the transform that first shifts the scene point and then applies the old transform |
| `Graphics.Graphics2D.Scale` | src/main/java/ua/in/asilichenko/mousemovescale/MouseMoveScale.java:89 | the context's transform becomes the old one concatenated with the scaling |
| `Graphics.Graphics2D.Translate` | src/main/java/ua/in/asilichenko/mousemovescale/MouseMoveScale.java:90-94 | the context's transform becomes the old one concatenated with the translation |
| `Graphics.Graphics2D.SetTransform` | src/main/java/ua/in/asilichenko/mousemovescale/MouseMoveScale.java:98 | the context's transform is replaced by the given one |
| `Graphics.Graphics2D.GetTransform` | src/main/java/ua/in/asilichenko/mousemovescale/MouseMoveScale.java:100 | returns the context's current transform as a value |
| `Viewport.ZoomScale` | src/main/java/ua/in/asilichenko/mousemovescale/MouseMoveScale.java:170 | the wheel factor is at least 1, and exactly 1 if and only if the rotation is 0 |
| `Viewport.WheelZoom` | src/main/java/ua/in/asilichenko/mousemovescale/MouseMoveScale.java:168-175 | after any wheel event, from any zoom, the zoom is at least 0.01 |
| `Viewport.WheelZoomIn` | src/main/java/ua/in/asilichenko/mousemovescale/MouseMoveScale.java:173-174 | positive rotation multiplies the zoom by the factor and strictly increases it; the floor is never involved |
| `Viewport.WheelZoomOut` | src/main/java/ua/in/asilichenko/mousemovescale/MouseMoveScale.java:172-174 | negative rotation never increases the zoom, and strictly decreases it when it is above the floor |
| `Viewport.WheelZoomIdle` | src/main/java/ua/in/asilichenko/mousemovescale/MouseMoveScale.java:170-174 | a rotation of 0 leaves a zoom at or above the floor unchanged |
| `Viewport.WheelZoomAtFloor` | src/main/java/ua/in/asilichenko/mousemovescale/MouseMoveScale.java:172-174 | at the floor, a zoom-out (or zero rotation) leaves the zoom at exactly 0.01 |
| `Viewport.ZoomOutInRoundTrip` | src/main/java/ua/in/asilichenko/mousemovescale/MouseMoveScale.java:169-174 | zooming out by r and back in by abs(r) restores the zoom when the floor was not hit |
| `Viewport.ZoomInOutRoundTrip` | src/main/java/ua/in/asilichenko/mousemovescale/MouseMoveScale.java:169-174 | zooming in by r and back out by r always restores the zoom |
| `Viewport.WheelStepsCompound` | src/main/java/ua/in/asilichenko/mousemovescale/MouseMoveScale.java:169-174 | three wheel steps of +1 from zoom 1 give 1.331, one step of +3 gives 1.3: steps compound multiplicatively |
| `Viewport.TickTransform` | src/main/java/ua/in/asilichenko/mousemovescale/MouseMoveScale.java:85-101 | the reference definition of the transform one tick presents; it has no contract of its own, its properties are stated by `TickAnchorsPointer`, `TickPansByDrag`, `TickWithoutPointer`, `TickSettled` and `TickComposes`, and `ApplyTransformation` is proved to produce it |
| `Viewport.AnchoredTranslate` | src/main/java/ua/in/asilichenko/mousemovescale/MouseMoveScale.java:89-93 | with the new scale, the scene point that the previous transform showed at the pointer lands on the pointer again (one axis) |
| `Viewport.TickAnchorsPointer` | src/main/java/ua/in/asilichenko/mousemovescale/MouseMoveScale.java:87-93 | with the pointer present and no pan, the new scale is the zoom on both axes and the scene point under the pointer before the tick is under the pointer after it |
| `Viewport.TickPansByDrag` | src/main/java/ua/in/asilichenko/mousemovescale/MouseMoveScale.java:94 | while panning, the translate exceeds the anchored one by exactly (dragX, dragY), so the scene point under the pointer moves by the drag in pixels |
| `Viewport.TickWithoutPointer` | src/main/java/ua/in/asilichenko/mousemovescale/MouseMoveScale.java:97-98 | without a pointer the tick presents the previous transform unchanged |
| `Viewport.TickSettled` | src/main/java/ua/in/asilichenko/mousemovescale/MouseMoveScale.java:94-96 | after a tick at the current zoom, a tick with no new drag presents the same transform again, so a consumed drag is never applied twice and nothing drifts |
| `Viewport.TickComposes` | src/main/java/ua/in/asilichenko/mousemovescale/MouseMoveScale.java:89-100 | anchoring at zoom z1 and then at z2 with the pointer in place gives the same transform as anchoring at z2 directly: the result depends only on the final zoom |
| `Viewport.AnchorComposes` | src/main/java/ua/in/asilichenko/mousemovescale/MouseMoveScale.java:92-93 | the one-axis form of TickComposes for the anchored translate |
| `Viewport.WorkedExample` | src/main/java/ua/in/asilichenko/mousemovescale/MouseMoveScale.java:89-93 | from scale 2, translate (50, 50), pointer (50, 100) and one wheel step (zoom 2.2), the new transform has scale 2.2 and translate (50, 45) |
| `Viewport.WorkedExampleAnchor` | src/main/java/ua/in/asilichenko/mousemovescale/MouseMoveScale.java:89-93 | in that example scene point (0, 25) is under the pointer (50, 100) before and after the tick |
| `Engine.SumAppend` | src/main/java/ua/in/asilichenko/mousemovescale/MouseMoveScale.java:151-154 | adding one more drag delta adds it to the total of a gesture's deltas |
| `Engine.MouseMoveScale.constructor` | src/main/java/ua/in/asilichenko/mousemovescale/MouseMoveScale.java:40-45 | the panel starts with zoom 1, no drag, not panning and the identity as previous transform, and satisfies its invariant |
| `Engine.MouseMoveScale.ApplyTransformation` | src/main/java/ua/in/asilichenko/mousemovescale/MouseMoveScale.java:85-101 | the context ends with the tick's transform, which also becomes the previous transform; the drag is cleared when the pointer is present and kept when it is absent; zoom and panning flag are untouched; the invariant is kept |
| `Engine.MouseMoveScale.PaintComponent` | src/main/java/ua/in/asilichenko/mousemovescale/MouseMoveScale.java:117-131 | a repaint saves the context's transform, applies the tick and restores the saved transform, leaving the context as it came |
| `Engine.AnchorByConcatenation` | src/main/java/ua/in/asilichenko/mousemovescale/MouseMoveScale.java:89-93 | scaling a fresh context by the zoom and translating by the source's expression gives the zoom-anchored transform |
| `Engine.ScaleThenTranslate` | src/main/java/ua/in/asilichenko/mousemovescale/MouseMoveScale.java:89-93 | the one-axis arithmetic of AnchorByConcatenation |
| `Engine.PanByConcatenation` | src/main/java/ua/in/asilichenko/mousemovescale/MouseMoveScale.java:94 | translating by drag / zoom after scaling by zoom moves the screen translate by exactly the drag |
| `Engine.ShiftByScaledDrag` | src/main/java/ua/in/asilichenko/mousemovescale/MouseMoveScale.java:94 | translating an invertible transform by (dx, dy) divided by its scale moves its screen translate by exactly (dx, dy) and keeps its scale |
| `Engine.MovingAdapter.constructor` | src/main/java/ua/in/asilichenko/mousemovescale/MouseMoveScale.java:138-140 | the listener starts with press position (0, 0) and button 0 |
| `Engine.MovingAdapter.MousePressed` | src/main/java/ua/in/asilichenko/mousemovescale/MouseMoveScale.java:143-147 | records the press position and button and starts a gesture with no deltas |
| `Engine.MovingAdapter.MouseDragged` | src/main/java/ua/in/asilichenko/mousemovescale/MouseMoveScale.java:150-158 | overwrites the drag with the offset from the last position, moves that position to the event's, pans only for button 3, and keeps the invariant that the gesture's deltas sum to the current position minus the press position |
| `Engine.MovingAdapter.MouseReleased` | src/main/java/ua/in/asilichenko/mousemovescale/MouseMoveScale.java:161-163 | stops panning and leaves the pending drag as it is |
| `Engine.ScaleHandler.MouseWheelMoved` | src/main/java/ua/in/asilichenko/mousemovescale/MouseMoveScale.java:168-177 | the panel's zoom becomes WheelZoom of the old zoom and the rotation, and the panel's invariant is kept |

## Left out

- Drawing: the grid, the shapes, colours and rendering hints (MouseMoveScale.java:68-83,
  104-134) are rendering calls; `PaintComponent` keeps only the save, tick and restore of
  the transform.
- Scheduling and wiring: the repaint timer every 17 ms, listener registration, `getFrame`,
  `main` and the `repaint()` requests in the handlers. A tick is an explicit call of
  `ApplyTransformation` (or `PaintComponent`); Swing delivers both the events and the
  repaints on one dispatch thread, so the model treats all calls as sequential.
- `getMousePosition()` is a query into Swing; the pointer is an `Option<(int, int)>`
  parameter of the tick.
- `ApplyTransformation`: assumes that the graphics context arrives with the identity
  transform (no HiDPI or other base transform). In the source each repaint gets a fresh
  context from Swing, which is disposed afterwards (MouseMoveScale.java:133), so the
  identity base comes from Swing; the restore in `PaintComponent` (:131) only shows that a
  context reused by the model also starts every repaint from the identity.
- Floating point: `double` arithmetic is modelled over exact `real`s, so IEEE-754 rounding,
  infinities and NaN rotations are not modelled.
- Java `int` overflow in the drag deltas and in `dragX / zoom` conversions: pixel
  coordinates are unbounded integers.
- The demo subclass (src/main/java/ua/cn/asilichenko/mousemovescale/MouseMoveScaleDemo.java)
  cycles twelve fixed illustrative states for documentation screenshots and is not part
  of this model.
