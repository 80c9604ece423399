/** The drawing-board canvas: a pan offset and a zoom scale kept in the
    workspace store, changed by a drag of the canvas itself (pan) and by the
    mouse wheel (zoom about the pointer). Numbers are reals, so the
    arithmetic below is exact. */
module Canvas {

  /** The draggable id under which the canvas registers with the drag library. */
  const CanvasId: string := "canvas"

  /** Pan offset and zoom scale of the canvas, as the store holds them. */
  datatype View = View(offsetX: real, offsetY: real, scale: real)

  /** A drag-end event: the active draggable's id and the drag's screen delta. */
  datatype DragEnd = DragEnd(id: string, dx: real, dy: real)

  /** A wheel event: its vertical delta and the pointer in client coordinates. */
  datatype WheelEvent = WheelEvent(deltaY: real, clientX: real, clientY: real)

  /** The relative zoom step of one wheel event: +10% when the wheel moves up
      (negative deltaY), -10% otherwise, including deltaY == 0. */
  function ZoomStep(deltaY: real): (step: real)
    ensures step > 0.0 <==> deltaY < 0.0
    ensures step == 0.1 || step == -0.1
  {
    if deltaY < 0.0 then 0.1 else -0.1
  }

  /** The scale after one wheel event. */
  function ZoomedScale(scale: real, deltaY: real): (r: real)
    ensures deltaY < 0.0 ==> r == scale * 1.1
    ensures deltaY >= 0.0 ==> r == scale * 0.9
    ensures scale > 0.0 ==> r > 0.0
  {
    scale * (1.0 + ZoomStep(deltaY))
  }

  /** One axis of the offset after a wheel event whose pointer is at `client`:
      the distance from the pointer to the offset grows by the same factor as
      the scale, so a pointer sitting on the offset leaves it where it is. */
  function ZoomedOffset(offset: real, client: real, step: real): (r: real)
    ensures client - r == (client - offset) * (1.0 + step)
    ensures client == offset ==> r == offset
  {
    offset - (client - offset) * step
  }

  /** The world coordinate (one axis) shown at screen coordinate `client`. */
  function WorldAt(client: real, offset: real, scale: real): real
    requires scale != 0.0
  {
    (client - offset) / scale
  }

  /** The screen coordinate (one axis) at which world coordinate `world` is shown. */
  function ScreenAt(world: real, offset: real, scale: real): real
  {
    world * scale + offset
  }

  /** onDragEnd: a drag of the canvas adds the raw screen delta to the offset
      (it is not divided by the scale); a drag of anything else is ignored. */
  function Panned(v: View, e: DragEnd): (r: View)
    ensures e.id == CanvasId ==> r.offsetX == v.offsetX + e.dx && r.offsetY == v.offsetY + e.dy
    ensures r.scale == v.scale
    ensures e.id != CanvasId ==> r == v
  {
    if e.id != CanvasId then v
    else v.(offsetX := v.offsetX + e.dx, offsetY := v.offsetY + e.dy)
  }

  /** onWheel: scale by 1.1 or 0.9 and move the offset about the pointer. */
  function Zoomed(v: View, e: WheelEvent): (r: View)
    ensures r.scale == ZoomedScale(v.scale, e.deltaY)
    ensures e.clientX - r.offsetX == (e.clientX - v.offsetX) * (1.0 + ZoomStep(e.deltaY))
    ensures e.clientY - r.offsetY == (e.clientY - v.offsetY) * (1.0 + ZoomStep(e.deltaY))
  {
    var step := ZoomStep(e.deltaY);
    View(ZoomedOffset(v.offsetX, e.clientX, step),
         ZoomedOffset(v.offsetY, e.clientY, step),
         ZoomedScale(v.scale, e.deltaY))
  }

  /** Screen and world coordinates are inverse to each other for a nonzero scale. */
  lemma ScreenWorldRoundTrip(client: real, offset: real, scale: real)
    requires scale != 0.0
    ensures ScreenAt(WorldAt(client, offset, scale), offset, scale) == client
  {
    var w := (client - offset) / scale;
    assert w * scale == client - offset;
  }

  /** One axis of anchor preservation: scaling both the scale and the
      pointer-to-offset distance by the same nonzero factor keeps the world
      coordinate under the pointer. */
  lemma AxisAnchored(offset: real, client: real, scale: real, step: real)
    requires scale != 0.0 && 1.0 + step != 0.0
    ensures WorldAt(client, ZoomedOffset(offset, client, step), scale * (1.0 + step))
         == WorldAt(client, offset, scale)
  {
    var k := 1.0 + step;
    var w := (client - offset) / scale;
    assert client - offset == w * scale;
    assert client - ZoomedOffset(offset, client, step) == w * (scale * k);
  }

  /** The world point under the pointer is the same before and after a wheel event. */
  lemma {:induction false} ZoomKeepsPointerAnchored(v: View, e: WheelEvent)
    requires v.scale != 0.0
    ensures Zoomed(v, e).scale != 0.0
    ensures WorldAt(e.clientX, Zoomed(v, e).offsetX, Zoomed(v, e).scale) == WorldAt(e.clientX, v.offsetX, v.scale)
    ensures WorldAt(e.clientY, Zoomed(v, e).offsetY, Zoomed(v, e).scale) == WorldAt(e.clientY, v.offsetY, v.scale)
  {
    var step := ZoomStep(e.deltaY);
    AxisAnchored(v.offsetX, e.clientX, v.scale, step);
    AxisAnchored(v.offsetY, e.clientY, v.scale, step);
  }

  /** The same in screen terms: the world point that was under the pointer
      before a wheel event is drawn under the pointer after it. */
  lemma ZoomKeepsWorldPointUnderPointer(v: View, e: WheelEvent)
    requires v.scale != 0.0
    ensures ScreenAt(WorldAt(e.clientX, v.offsetX, v.scale), Zoomed(v, e).offsetX, Zoomed(v, e).scale) == e.clientX
    ensures ScreenAt(WorldAt(e.clientY, v.offsetY, v.scale), Zoomed(v, e).offsetY, Zoomed(v, e).scale) == e.clientY
  {
    var r := Zoomed(v, e);
    ZoomKeepsPointerAnchored(v, e);
    ScreenWorldRoundTrip(e.clientX, r.offsetX, r.scale);
    ScreenWorldRoundTrip(e.clientY, r.offsetY, r.scale);
  }

  /** Zooming in and then out at the same pointer does not undo the zoom:
      the scale ends at 0.99 times the original, and the offset ends at 0.99
      times its original distance from the pointer. */
  lemma ZoomInThenOut(v: View, up: real, down: real, clientX: real, clientY: real)
    requires up < 0.0 && down >= 0.0
    ensures Zoomed(Zoomed(v, WheelEvent(up, clientX, clientY)), WheelEvent(down, clientX, clientY)).scale == v.scale * 0.99
    ensures clientX - Zoomed(Zoomed(v, WheelEvent(up, clientX, clientY)), WheelEvent(down, clientX, clientY)).offsetX
         == (clientX - v.offsetX) * 0.99
    ensures clientY - Zoomed(Zoomed(v, WheelEvent(up, clientX, clientY)), WheelEvent(down, clientX, clientY)).offsetY
         == (clientY - v.offsetY) * 0.99
    ensures v.scale != 0.0 ==> Zoomed(Zoomed(v, WheelEvent(up, clientX, clientY)), WheelEvent(down, clientX, clientY)).scale != v.scale
  {
    var mid := Zoomed(v, WheelEvent(up, clientX, clientY));
    var last := Zoomed(mid, WheelEvent(down, clientX, clientY));
    assert clientX - last.offsetX == ((clientX - v.offsetX) * 1.1) * 0.9;
    assert clientY - last.offsetY == ((clientY - v.offsetY) * 1.1) * 0.9;
  }

  /** The effect of a sequence of drag-end events, applied in order. */
  function PanAll(v: View, es: seq<DragEnd>): View
    decreases |es|
  {
    if es == [] then v else PanAll(Panned(v, es[0]), es[1..])
  }

  /** The sum of the x deltas of the canvas drags in `es`. */
  function CanvasSumX(es: seq<DragEnd>): real
  {
    if es == [] then 0.0
    else (if es[0].id == CanvasId then es[0].dx else 0.0) + CanvasSumX(es[1..])
  }

  /** The sum of the y deltas of the canvas drags in `es`. */
  function CanvasSumY(es: seq<DragEnd>): real
  {
    if es == [] then 0.0
    else (if es[0].id == CanvasId then es[0].dy else 0.0) + CanvasSumY(es[1..])
  }

  /** After any sequence of drag ends the offset is the initial offset plus the
      sum of the canvas drags' deltas, and the scale is untouched. */
  lemma {:induction false} PanAllSumsDeltas(v: View, es: seq<DragEnd>)
    ensures PanAll(v, es) == View(v.offsetX + CanvasSumX(es), v.offsetY + CanvasSumY(es), v.scale)
    decreases |es|
  {
    if es != [] {
      PanAllSumsDeltas(Panned(v, es[0]), es[1..]);
    }
  }

  lemma PositiveProduct(a: real, b: real)
    requires a > 0.0 && b > 0.0
    ensures a * b > 0.0
  {
  }

  /** The effect of a sequence of wheel events, applied in order. */
  function ZoomAll(v: View, ws: seq<WheelEvent>): View
    decreases |ws|
  {
    if ws == [] then v else ZoomAll(Zoomed(v, ws[0]), ws[1..])
  }

  /** The product of the scale factors of a sequence of wheel events; it is
      positive, since each factor is 1.1 or 0.9. */
  function ScaleFactor(ws: seq<WheelEvent>): (f: real)
    ensures f > 0.0
  {
    if ws == [] then 1.0 else (1.0 + ZoomStep(ws[0].deltaY)) * ScaleFactor(ws[1..])
  }

  /** The scale after a sequence of wheel events depends only on their
      directions, not on where the pointer was; a positive scale stays positive. */
  lemma {:induction false} ZoomAllScale(v: View, ws: seq<WheelEvent>)
    ensures ZoomAll(v, ws).scale == v.scale * ScaleFactor(ws)
    ensures v.scale > 0.0 ==> ZoomAll(v, ws).scale > 0.0
    decreases |ws|
  {
    if ws != [] {
      var f := 1.0 + ZoomStep(ws[0].deltaY);
      var next := Zoomed(v, ws[0]);
      ZoomAllScale(next, ws[1..]);
      assert next.scale == v.scale * f;
      assert ScaleFactor(ws) == f * ScaleFactor(ws[1..]);
      assert (v.scale * f) * ScaleFactor(ws[1..]) == v.scale * (f * ScaleFactor(ws[1..]));
    } else {
      assert ZoomAll(v, ws) == v;
    }
    if v.scale > 0.0 {
      PositiveProduct(v.scale, ScaleFactor(ws));
    }
  }

  /** The canvas part of the workspace store. */
  class Viewport {
    var offsetX: real
    var offsetY: real
    var scale: real

    /** The store's state as a value. */
    function State(): View
      reads this
    {
      View(offsetX, offsetY, scale)
    }

    /** The scale is positive; both wheel factors keep it so. */
    predicate PositiveScale()
      reads this
    {
      scale > 0.0
    }

    constructor (x: real, y: real, s: real)
      ensures State() == View(x, y, s)
      ensures s > 0.0 ==> PositiveScale()
    {
      offsetX, offsetY, scale := x, y, s;
    }

    /** onDragEnd of the canvas draggable. */
    method Pan(id: string, dx: real, dy: real)
      modifies this
      ensures State() == Panned(old(State()), DragEnd(id, dx, dy))
      ensures id == CanvasId ==> offsetX == old(offsetX) + dx && offsetY == old(offsetY) + dy
      ensures id != CanvasId ==> offsetX == old(offsetX) && offsetY == old(offsetY)
      ensures scale == old(scale)
      ensures old(PositiveScale()) ==> PositiveScale()
    {
      if id != CanvasId {
        return;
      }
      offsetX, offsetY := offsetX + dx, offsetY + dy;
    }

    /** onWheel of the canvas container. */
    method Wheel(deltaY: real, clientX: real, clientY: real)
      modifies this
      ensures State() == Zoomed(old(State()), WheelEvent(deltaY, clientX, clientY))
      ensures deltaY < 0.0 ==> scale == old(scale) * 1.1
      ensures deltaY >= 0.0 ==> scale == old(scale) * 0.9
      ensures old(PositiveScale()) ==> PositiveScale()
      ensures old(scale) != 0.0 ==>
        scale != 0.0 &&
        WorldAt(clientX, offsetX, scale) == WorldAt(clientX, old(offsetX), old(scale)) &&
        WorldAt(clientY, offsetY, scale) == WorldAt(clientY, old(offsetY), old(scale))
    {
      ghost var before := State();
      var step := if deltaY < 0.0 then 0.1 else -0.1;
      var tx := (clientX - offsetX) * step;
      var ty := (clientY - offsetY) * step;
      scale := scale * (1.0 + step);
      offsetX, offsetY := offsetX - tx, offsetY - ty;
      if before.scale != 0.0 {
        ZoomKeepsPointerAnchored(before, WheelEvent(deltaY, clientX, clientY));
      }
    }
  }
}
