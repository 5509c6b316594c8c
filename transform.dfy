/** The pan/zoom state of a layer and the guarded transitions that change it.
    A state maps a content coordinate `u` on one axis to the target coordinate
    `origin + u * zoom`; coordinates and zooms are exact reals here. */
module Transform {

  datatype State = State(originX: real, originY: real, zoomX: real, zoomY: real)

  /** Zoom factors must stay strictly between these two bounds. */
  const MinZoom: real := 0.1
  const MaxZoom: real := 10.0

  /** The layout of a fresh layer, and the layout `resetLayout` restores. */
  const Identity: State := State(0.0, 0.0, 1.0, 1.0)

  predicate ZoomInRange(z: real) {
    MinZoom < z < MaxZoom
  }

  /** The invariant every layout keeps when the operations get finite numeric arguments. */
  predicate Valid(t: State) {
    ZoomInRange(t.zoomX) && ZoomInRange(t.zoomY)
  }

  /** Target coordinate at which content coordinate `u` is drawn on one axis. */
  function ScreenOf(u: real, origin: real, zoom: real): (s: real) {
    origin + u * zoom
  }

  /** Content coordinate drawn at target coordinate `s` on one axis. */
  function ContentAt(s: real, origin: real, zoom: real): (u: real)
    requires zoom != 0.0
    ensures ScreenOf(u, origin, zoom) == s
  {
    (s - origin) / zoom
  }

  // ---------------------------------------------------------------- zoom

  /** setZoom's guard: the call goes ahead unless a candidate zoom leaves (0.1, 10). */
  predicate ZoomAccepted(t: State, stepX: real, stepY: real) {
    !(t.zoomX + stepX <= MinZoom || t.zoomX + stepX >= MaxZoom ||
      t.zoomY + stepY <= MinZoom || t.zoomY + stepY >= MaxZoom)
  }

  /** The new origin on one axis, chosen so that `center` keeps showing the same content. */
  function AnchoredOrigin(center: real, origin: real, zoom: real, newZoom: real): (o: real)
    requires zoom != 0.0
  {
    center - (center - origin) * (newZoom / zoom)
  }

  /** The layout after setZoom(stepX, stepY, centerX, centerY). */
  function SetZoom(t: State, stepX: real, stepY: real, centerX: real, centerY: real): (r: State)
    requires Valid(t)
    ensures Valid(r)
  {
    if !ZoomAccepted(t, stepX, stepY) then t
    else
      var newZoomX := t.zoomX + stepX;
      var newZoomY := t.zoomY + stepY;
      State(AnchoredOrigin(centerX, t.originX, t.zoomX, newZoomX),
            AnchoredOrigin(centerY, t.originY, t.zoomY, newZoomY),
            newZoomX, newZoomY)
  }

  /** The guard accepts exactly the steps whose candidate zooms both lie in range. */
  lemma ZoomAcceptedIff(t: State, stepX: real, stepY: real)
    ensures ZoomAccepted(t, stepX, stepY) <==>
            ZoomInRange(t.zoomX + stepX) && ZoomInRange(t.zoomY + stepY)
  {
  }

  /** A rejected zoom changes nothing. */
  lemma ZoomRejectedUnchanged(t: State, stepX: real, stepY: real, centerX: real, centerY: real)
    requires Valid(t)
    requires !ZoomAccepted(t, stepX, stepY)
    ensures SetZoom(t, stepX, stepY, centerX, centerY) == t
  {
  }

  /** One axis of the anchor law: after rescaling about `center`, the content
      coordinate shown at `center` is the one shown there before. */
  lemma AnchorAxis(center: real, origin: real, zoom: real, newZoom: real)
    requires zoom > 0.0 && newZoom > 0.0
    ensures ContentAt(center, AnchoredOrigin(center, origin, zoom, newZoom), newZoom)
            == ContentAt(center, origin, zoom)
  {
  }

  /** Zoom-anchor law: an accepted zoom adds the steps to the zooms and keeps
      the content under (centerX, centerY) in place on both axes. */
  lemma ZoomAnchorFixed(t: State, stepX: real, stepY: real, centerX: real, centerY: real)
    requires Valid(t)
    requires ZoomAccepted(t, stepX, stepY)
    ensures var r := SetZoom(t, stepX, stepY, centerX, centerY);
      && r.zoomX == t.zoomX + stepX && r.zoomY == t.zoomY + stepY
      && ContentAt(centerX, r.originX, r.zoomX) == ContentAt(centerX, t.originX, t.zoomX)
      && ContentAt(centerY, r.originY, r.zoomY) == ContentAt(centerY, t.originY, t.zoomY)
  {
    AnchorAxis(centerX, t.originX, t.zoomX, t.zoomX + stepX);
    AnchorAxis(centerY, t.originY, t.zoomY, t.zoomY + stepY);
  }

  // ----------------------------------------------------------- translate

  /** setTranslate's guard on one axis of the given extent (canvas width or height). */
  predicate PanAccepted(origin: real, shift: real, extent: real, zoom: real) {
    if zoom >= 1.0 then
      !(origin + shift < -1.0 * (extent * zoom) + extent || origin + shift > 0.0)
    else
      !(origin + shift > -1.0 * (extent * zoom) + extent || origin + shift < 0.0)
  }

  /** setTranslate goes ahead only when both axes pass their guards. */
  predicate TranslateAccepted(t: State, tx: real, ty: real, width: real, height: real) {
    PanAccepted(t.originX, tx, width, t.zoomX) && PanAccepted(t.originY, ty, height, t.zoomY)
  }

  /** The layout after setTranslate(tx, ty) on a canvas of the given size. */
  function SetTranslate(t: State, tx: real, ty: real, width: real, height: real): (r: State)
    ensures r.zoomX == t.zoomX && r.zoomY == t.zoomY
  {
    if TranslateAccepted(t, tx, ty, width, height) then
      t.(originX := t.originX + tx, originY := t.originY + ty)
    else t
  }

  /** Pan containment on one axis: the scaled content [origin, origin + extent*zoom]
      covers the whole target [0, extent] when zoom >= 1, and lies inside it when zoom < 1. */
  predicate Contained(origin: real, extent: real, zoom: real) {
    if zoom >= 1.0 then origin <= 0.0 && extent <= origin + extent * zoom
    else 0.0 <= origin && origin + extent * zoom <= extent
  }

  /** The one-axis guard accepts a shift exactly when the shifted origin is contained. */
  lemma PanAcceptedIff(origin: real, shift: real, extent: real, zoom: real)
    ensures PanAccepted(origin, shift, extent, zoom) <==> Contained(origin + shift, extent, zoom)
  {
  }

  /** setTranslate is all or nothing: both origins move by their shifts when both
      axes are contained afterwards, and neither moves otherwise. */
  lemma TranslateAtomic(t: State, tx: real, ty: real, width: real, height: real)
    ensures var r := SetTranslate(t, tx, ty, width, height);
      if Contained(t.originX + tx, width, t.zoomX) && Contained(t.originY + ty, height, t.zoomY)
      then r == State(t.originX + tx, t.originY + ty, t.zoomX, t.zoomY)
      else r == t
  {
  }

  /** An accepted translate leaves both axes contained; a valid layout stays valid. */
  lemma TranslateContainment(t: State, tx: real, ty: real, width: real, height: real)
    requires TranslateAccepted(t, tx, ty, width, height)
    ensures var r := SetTranslate(t, tx, ty, width, height);
      && Contained(r.originX, width, r.zoomX) && Contained(r.originY, height, r.zoomY)
      && (Valid(t) ==> Valid(r))
  {
  }

  /** With zoom >= 1, a contained axis shows content at every target coordinate:
      each s in [0, extent] displays a content coordinate inside [0, extent]. */
  lemma ContainedCoversTarget(origin: real, extent: real, zoom: real, s: real)
    requires zoom >= 1.0 && Contained(origin, extent, zoom)
    requires 0.0 <= s <= extent
    ensures 0.0 <= ContentAt(s, origin, zoom) <= extent
  {
  }

  /** With zoom < 1, a contained axis draws the whole content inside the target:
      each content coordinate u in [0, extent] lands inside [0, extent]. */
  lemma ContainedInsideTarget(origin: real, extent: real, zoom: real, u: real)
    requires 0.0 < zoom < 1.0 && Contained(origin, extent, zoom)
    requires 0.0 <= u <= extent
    ensures 0.0 <= ScreenOf(u, origin, zoom) <= extent
  {
  }

  /** Zooming in about a center inside the target, at zoom >= 1, keeps a contained axis
      contained. */
  lemma ZoomInKeepsContainment(center: real, origin: real, extent: real, zoom: real, newZoom: real)
    requires 1.0 <= zoom <= newZoom
    requires 0.0 <= center <= extent
    requires Contained(origin, extent, zoom)
    ensures Contained(AnchoredOrigin(center, origin, zoom, newZoom), extent, newZoom)
  {
    // With k = newZoom/zoom >= 1, the far edge moves to
    // extent + (k - 1)(extent - center) + k(origin + extent*zoom - extent) >= extent.
    var k := newZoom / zoom;
    assert (k - 1.0) * (extent - center) >= 0.0;
  }

  /** Containment is not a property of every layout: zooming out can leave it.
      From zoom 2 on a 100-wide target, zooming by -0.5 about 50 moves the origin to 12.5. */
  lemma ZoomOutMayLeaveContainment()
    ensures var t := State(0.0, 0.0, 2.0, 2.0);
      var r := SetZoom(t, -0.5, -0.5, 50.0, 50.0);
      && Contained(t.originX, 100.0, t.zoomX)
      && r == State(12.5, 12.5, 1.5, 1.5)
      && !Contained(r.originX, 100.0, r.zoomX)
  {
  }

  // ----------------------------------------------------------------- reset

  /** The layout after resetLayout, whatever it was before. */
  function ResetLayout(t: State): (r: State)
    ensures Valid(r)
  {
    Identity
  }

  /** Resetting twice is the same as resetting once. */
  lemma ResetIdempotent(t: State)
    ensures ResetLayout(ResetLayout(t)) == ResetLayout(t)
  {
  }

  // ------------------------------------------------------------- scenarios

  /** From the identity, setZoom(0.5, 0.5, 50, 50) gives zoom 1.5 and origin -25. */
  lemma ZoomScenario()
    ensures SetZoom(Identity, 0.5, 0.5, 50.0, 50.0) == State(-25.0, -25.0, 1.5, 1.5)
  {
  }

  /** From the identity, a step of 9 would reach zoom 10 and is rejected. */
  lemma ZoomRejectScenario()
    ensures !ZoomAccepted(Identity, 9.0, 9.0)
    ensures SetZoom(Identity, 9.0, 9.0, 50.0, 50.0) == Identity
  {
  }

  /** At zoom 1 on a 100-wide canvas, panning right by 10 would leave the left edge
      inside the target and is rejected. */
  lemma TranslateRejectScenario()
    ensures SetTranslate(Identity, 10.0, 0.0, 100.0, 100.0) == Identity
  {
  }

  /** At zoom 2 with origin -50, panning by -60 would pass the lower bound -100. */
  lemma TranslateLowerBoundScenario()
    ensures var t := State(-50.0, -50.0, 2.0, 2.0);
      SetTranslate(t, -60.0, 0.0, 100.0, 100.0) == t
  {
  }
}
