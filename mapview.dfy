/** The viewport of the `MapView` component (src/components/MapView.jsx):
    a center and a zoom level, the latitude/longitude half-extent derived
    from the zoom, the bounds around the center, the pan and zoom controls,
    and the effect that reports the bounds to `onSelectBounds`.
    Coordinates are exact reals; the bounds are never clamped or wrapped at
    the poles or the antimeridian, as in the component. */
module MapView {

  datatype LatLng = LatLng(lat: real, lng: real)

  /** Half the height and half the width of the viewport, in degrees. */
  datatype Delta = Delta(lat: real, lng: real)

  datatype Bounds = Bounds(north: real, south: real, east: real, west: real)

  const MinZoom := 2
  const MaxZoom := 18
  /** The zoom at which the half-extent is `BaseDelta`. */
  const ReferenceZoom := 12
  const BaseDelta := 0.1
  const InitialCenter := LatLng(37.7749, -122.4194)

  /** `Math.pow(2, e)` for an integer exponent, negative ones included. */
  function Pow2(e: int): (r: real)
    ensures r > 0.0
    decreases if e < 0 then -e else e
  {
    if e == 0 then 1.0
    else if e > 0 then 2.0 * Pow2(e - 1)
    else Pow2(e + 1) / 2.0
  }

  lemma Pow2Succ(e: int)
    ensures Pow2(e + 1) == 2.0 * Pow2(e)
  {
  }

  /** The `delta` memo: `0.1 * 2^(12 - zoom)` on both axes. */
  function DeltaAt(zoom: int): (d: Delta)
    ensures d.lat == d.lng && d.lat > 0.0
    ensures zoom == ReferenceZoom ==> d.lat == BaseDelta
  {
    var scale := Pow2(ReferenceZoom - zoom);
    Delta(BaseDelta * scale, BaseDelta * scale)
  }

  /** One step of zooming in halves the half-extent. */
  lemma ZoomInHalvesDelta(zoom: int)
    ensures DeltaAt(zoom + 1).lat == DeltaAt(zoom).lat / 2.0
    ensures DeltaAt(zoom + 1).lng == DeltaAt(zoom).lng / 2.0
  {
  }

  /** One step of zooming out doubles the half-extent. */
  lemma ZoomOutDoublesDelta(zoom: int)
    ensures DeltaAt(zoom - 1).lat == 2.0 * DeltaAt(zoom).lat
    ensures DeltaAt(zoom - 1).lng == 2.0 * DeltaAt(zoom).lng
  {
  }

  /** The `bounds` memo around `center` at `zoom`. */
  function BoundsAt(center: LatLng, zoom: int): (b: Bounds)
    ensures b.north - b.south == 2.0 * DeltaAt(zoom).lat > 0.0
    ensures b.east - b.west == 2.0 * DeltaAt(zoom).lng > 0.0
    ensures (b.north + b.south) / 2.0 == center.lat
    ensures (b.east + b.west) / 2.0 == center.lng
  {
    var d := DeltaAt(zoom);
    Bounds(center.lat + d.lat, center.lat - d.lat, center.lng + d.lng, center.lng - d.lng)
  }

  /** The bounds the map opens with. */
  lemma InitialBounds()
    ensures BoundsAt(InitialCenter, ReferenceZoom) == Bounds(37.8749, 37.6749, -122.3194, -122.5194)
  {
  }

  /** `move(dx, dy)` applied to center `c` with the half-extent `d` of the current zoom. */
  function Moved(c: LatLng, d: Delta, dx: real, dy: real): LatLng
  {
    LatLng(c.lat + dy * d.lat, c.lng + dx * d.lng)
  }

  /** Panning back by the opposite step, at the same zoom, restores the center. */
  lemma MoveReversible(c: LatLng, zoom: int, dx: real, dy: real)
    ensures Moved(Moved(c, DeltaAt(zoom), dx, dy), DeltaAt(zoom), -dx, -dy) == c
  {
  }

  /** A pan step shifts the bounds by the same amount as the center. */
  lemma MoveShiftsBounds(c: LatLng, zoom: int, dx: real, dy: real)
    ensures BoundsAt(Moved(c, DeltaAt(zoom), dx, dy), zoom).north == BoundsAt(c, zoom).north + dy * DeltaAt(zoom).lat
    ensures BoundsAt(Moved(c, DeltaAt(zoom), dx, dy), zoom).west == BoundsAt(c, zoom).west + dx * DeltaAt(zoom).lng
  {
  }

  /** `Math.min(18, z + 1)`. */
  function ZoomedIn(z: int): int
  {
    if z + 1 < MaxZoom then z + 1 else MaxZoom
  }

  /** `Math.max(2, z - 1)`. */
  function ZoomedOut(z: int): int
  {
    if z - 1 > MinZoom then z - 1 else MinZoom
  }

  /** Both zoom controls keep the zoom in [2, 18]; "+" at 18 and "-" at 2 change nothing. */
  lemma ZoomStaysInRange(z: int)
    requires MinZoom <= z <= MaxZoom
    ensures MinZoom <= ZoomedIn(z) <= MaxZoom && MinZoom <= ZoomedOut(z) <= MaxZoom
    ensures ZoomedIn(z) == z <==> z == MaxZoom
    ensures ZoomedOut(z) == z <==> z == MinZoom
    ensures z < MaxZoom ==> ZoomedIn(z) == z + 1
    ensures z > MinZoom ==> ZoomedOut(z) == z - 1
  {
  }

  /** The six buttons under the map. */
  datatype Control = Left | Right | Up | Down | ZoomIn | ZoomOut

  /** The `(dx, dy)` a pan button passes to `move`; the up arrow passes dy = -1. */
  function PanStep(c: Control): (step: (real, real))
    requires c !in {ZoomIn, ZoomOut}
    ensures step.0 in {-1.0, 0.0, 1.0} && step.1 in {-1.0, 0.0, 1.0}
    ensures (step.0 == 0.0) != (step.1 == 0.0)
  {
    match c
    case Left => (-1.0, 0.0)
    case Right => (1.0, 0.0)
    case Up => (0.0, -1.0)
    case Down => (0.0, 1.0)
  }

  /** The up arrow moves the center to a lower latitude, and the down arrow to a higher one. */
  lemma UpLowersLatitude(c: LatLng, zoom: int)
    ensures Moved(c, DeltaAt(zoom), PanStep(Up).0, PanStep(Up).1).lat < c.lat
    ensures Moved(c, DeltaAt(zoom), PanStep(Down).0, PanStep(Down).1).lat > c.lat
  {
  }

  class Viewport {
    /** Whether an `onSelectBounds` callback was passed. */
    const listening: bool
    var center: LatLng
    var zoom: int
    /** Every bounds value handed to `onSelectBounds`, oldest first. */
    var reported: seq<Bounds>

    /** The zoom is in range, and a listener has been told the current bounds. */
    ghost predicate Valid()
      reads this
    {
      MinZoom <= zoom <= MaxZoom &&
      (listening ==> |reported| > 0 && reported[|reported| - 1] == BoundsAt(center, zoom)) &&
      (!listening ==> reported == [])
    }

    /** Mounting: the initial center and zoom, and the effect's first run. */
    constructor (listening: bool)
      ensures Valid()
      ensures this.listening == listening
      ensures center == InitialCenter && zoom == ReferenceZoom
      ensures reported == if listening then [BoundsAt(InitialCenter, ReferenceZoom)] else []
    {
      this.listening := listening;
      center := InitialCenter;
      zoom := ReferenceZoom;
      reported := if listening then [BoundsAt(InitialCenter, ReferenceZoom)] else [];
    }

    /** The bounds effect after a change of center or zoom: one report, if listened to. */
    method ReportBounds()
      requires MinZoom <= zoom <= MaxZoom && (!listening ==> reported == [])
      modifies this`reported
      ensures Valid()
      ensures reported == old(reported) + if listening then [BoundsAt(center, zoom)] else []
    {
      if listening {
        reported := reported + [BoundsAt(center, zoom)];
      }
    }

    /** `move(dx, dy)`: a new center one step away at the current zoom, then a report. */
    method Move(dx: real, dy: real)
      requires Valid()
      modifies this`center, this`reported
      ensures Valid()
      ensures center == Moved(old(center), DeltaAt(zoom), dx, dy)
      ensures reported == old(reported) + if listening then [BoundsAt(center, zoom)] else []
    {
      center := Moved(center, DeltaAt(zoom), dx, dy);
      ReportBounds();
    }

    /** `setZoom((z) => Math.min(18, z + 1))`; setting the same zoom again
        does not re-render, so nothing is reported at 18. */
    method ZoomInStep()
      requires Valid()
      modifies this`zoom, this`reported
      ensures Valid()
      ensures zoom == ZoomedIn(old(zoom))
      ensures reported == old(reported) +
        if listening && zoom != old(zoom) then [BoundsAt(center, zoom)] else []
    {
      var z := ZoomedIn(zoom);
      if z != zoom {
        zoom := z;
        ReportBounds();
      }
    }

    /** `setZoom((z) => Math.max(2, z - 1))`; nothing is reported at 2. */
    method ZoomOutStep()
      requires Valid()
      modifies this`zoom, this`reported
      ensures Valid()
      ensures zoom == ZoomedOut(old(zoom))
      ensures reported == old(reported) +
        if listening && zoom != old(zoom) then [BoundsAt(center, zoom)] else []
    {
      var z := ZoomedOut(zoom);
      if z != zoom {
        zoom := z;
        ReportBounds();
      }
    }

    /** A click on one of the six controls. */
    method Press(c: Control)
      requires Valid()
      modifies this`center, this`zoom, this`reported
      ensures Valid()
      ensures c in {ZoomIn, ZoomOut} ==> center == old(center)
      ensures c == ZoomIn ==> zoom == ZoomedIn(old(zoom))
      ensures c == ZoomOut ==> zoom == ZoomedOut(old(zoom))
      ensures c !in {ZoomIn, ZoomOut} ==>
        zoom == old(zoom) && center == Moved(old(center), DeltaAt(zoom), PanStep(c).0, PanStep(c).1)
      ensures reported == old(reported) +
        if listening && (c !in {ZoomIn, ZoomOut} || zoom != old(zoom)) then [BoundsAt(center, zoom)] else []
    {
      match c
      case ZoomIn => ZoomInStep();
      case ZoomOut => ZoomOutStep();
      case _ =>
        var step := PanStep(c);
        Move(step.0, step.1);
    }
  }
}
