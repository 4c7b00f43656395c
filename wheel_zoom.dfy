/**
 * The mouse-wheel zoom handler shared by the three demo entry points: one
 * wheel event changes the zoom by a tenth of a notch-normalised step and
 * keeps it between 0.2 and 4.
 */
module WheelZoom {

  const MIN_ZOOM: real := 0.2
  const MAX_ZOOM: real := 4.0

  /**
   * The step one wheel event asks for. A non-zero deltaY (Firefox, IE)
   * decides alone by its sign; otherwise wheelDelta (Chrome, Safari, Opera,
   * Edge) counts in units of 120 with the opposite sign. A missing field is
   * passed as 0, which the handler treats like an absent one.
   */
  function WheelStep(wheelDelta: real, deltaY: real): (delta: real)
    ensures deltaY > 0.0 ==> delta == 1.0
    ensures deltaY < 0.0 ==> delta == -1.0
    ensures deltaY == 0.0 ==> delta * 120.0 == -wheelDelta
  {
    if deltaY != 0.0 then (if deltaY > 0.0 then 1.0 else -1.0) else -wheelDelta / 120.0
  }

  /** The zoom after a step: a tenth of the step subtracted, then clamped to [0.2, 4]. */
  function Zoomed(zoom: real, delta: real): (z: real)
    ensures MIN_ZOOM <= z <= MAX_ZOOM
    ensures MIN_ZOOM <= zoom - delta / 10.0 <= MAX_ZOOM ==> z == zoom - delta / 10.0
    ensures zoom - delta / 10.0 > MAX_ZOOM ==> z == MAX_ZOOM
    ensures zoom - delta / 10.0 < MIN_ZOOM ==> z == MIN_ZOOM
  {
    var raw := zoom - delta / 10.0;
    if raw > MAX_ZOOM then MAX_ZOOM else if raw < MIN_ZOOM then MIN_ZOOM else raw
  }

  /**
   * mouse:wheel: resolve the step from the event fields, apply it to the
   * current zoom, and clamp in two separate tests as the handler does.
   * The new zoom is then handed to the canvas, zooming about its centre.
   */
  method ZoomOnWheel(zoom: real, wheelDelta: real, deltaY: real) returns (newZoom: real)
    ensures newZoom == Zoomed(zoom, WheelStep(wheelDelta, deltaY))
    ensures MIN_ZOOM <= newZoom <= MAX_ZOOM
  {
    var delta := 0.0;
    if wheelDelta != 0.0 {
      delta := -wheelDelta / 120.0;
    }
    if deltaY != 0.0 {
      if deltaY > 0.0 {
        delta := 1.0;
      } else {
        delta := -1.0;
      }
    }
    newZoom := zoom - delta / 10.0;
    if newZoom > MAX_ZOOM {
      newZoom := MAX_ZOOM;
    }
    if newZoom < MIN_ZOOM {
      newZoom := MIN_ZOOM;
    }
  }

  /** Scrolling down never zooms in, scrolling up never zooms out. */
  lemma WheelDirection(zoom: real, wheelDelta: real, deltaY: real)
    requires MIN_ZOOM <= zoom <= MAX_ZOOM
    ensures deltaY > 0.0 ==> Zoomed(zoom, WheelStep(wheelDelta, deltaY)) <= zoom
    ensures deltaY < 0.0 ==> Zoomed(zoom, WheelStep(wheelDelta, deltaY)) >= zoom
    ensures deltaY == 0.0 && wheelDelta > 0.0 ==> Zoomed(zoom, WheelStep(wheelDelta, deltaY)) >= zoom
    ensures deltaY == 0.0 && wheelDelta == 0.0 ==> Zoomed(zoom, WheelStep(wheelDelta, deltaY)) == zoom
  {
  }

  /** Away from the limits, one notch down followed by one notch up restores the zoom. */
  lemma NotchesCancel(zoom: real)
    requires MIN_ZOOM + 0.1 <= zoom <= MAX_ZOOM
    ensures Zoomed(Zoomed(zoom, WheelStep(0.0, 1.0)), WheelStep(0.0, -1.0)) == zoom
  {
  }

  /** Zooming is monotone: a larger zoom never ends up smaller after the same event. */
  lemma ZoomedMonotone(zoom1: real, zoom2: real, delta: real)
    requires zoom1 <= zoom2
    ensures Zoomed(zoom1, delta) <= Zoomed(zoom2, delta)
  {
  }
}
