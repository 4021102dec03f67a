/**
 * CounterUAS::MapWidget without its painting: the mutable view and
 * interaction state, its setters, the track-selection slots, the mouse and
 * wheel handlers, and the grid-line generation of drawGrid.
 * Emitted Qt signals are appended to `signals`; update() sets
 * `repaintRequested`.
 */
module Ui {
  import opened Numerics
  import opened Geo
  import opened MapView
  import opened Grid
  import opened Overlay

  const DefaultZoom: real := 15.0
  const DefaultCenter: GeoPosition := GeoPosition(34.0522, -118.2437, 0.0)
  /** angleDelta units per wheel notch, and zoom steps per notch. */
  const WheelNotch: real := 120.0
  const ZoomPerNotch: real := 0.5

  /** The widget's signals. trackSelected is declared but MapWidget.cpp never emits it. */
  datatype Signal =
    | CenterChanged(pos: GeoPosition)
    | ZoomChanged(zoom: real)
    | MapClicked(pos: GeoPosition)
    | TrackSelected(id: string)

  datatype MouseButton = LeftButton | RightButton | MiddleButton | OtherButton

  datatype ScreenSegment = ScreenSegment(from: ScreenPoint, to: ScreenPoint)

  /** Both endpoints of a geographic segment through geoToScreen. */
  function Project(g: GeoMath, v: ViewState, seg: GeoSegment): ScreenSegment
    requires NonDegenerate(v)
  {
    ScreenSegment(GeoToScreen(g, v, seg.from), GeoToScreen(g, v, seg.to))
  }

  lemma ParallelIsGridLine(startLat: real, startLon: real, s: real, i: nat)
    requires i < LinesPerAxis
    ensures GridLine(startLat, startLon, s, i) ==
      GeoSegment(GeoPosition(startLat + i as real * s, startLon, 0.0),
                 GeoPosition(startLat + i as real * s, startLon + s * 12.0, 0.0))
  {
  }

  lemma MeridianIsGridLine(startLat: real, startLon: real, s: real, i: nat)
    requires i < LinesPerAxis
    ensures GridLine(startLat, startLon, s, LinesPerAxis + i) ==
      GeoSegment(GeoPosition(startLat, startLon + i as real * s, 0.0),
                 GeoPosition(startLat + s * 12.0, startLon + i as real * s, 0.0))
  {
  }

  class MapWidget {
    /** CoordinateUtils and the C maths library. */
    const geo: GeoMath
    const math: MathLib

    var width: int
    var height: int
    var center: GeoPosition
    var zoom: real
    var viewRange: real
    var selectedTrackId: string
    var tracks: map<string, Track>
    var panEnabled: bool
    var panning: bool
    var lastPanPos: ScreenPoint

    var signals: seq<Signal>
    var repaintRequested: bool

    /**
     * The object invariant: at least the minimum size, zoom on the dial with
     * the range its projection, and the geodetic scale factors positive.
     */
    ghost predicate Valid()
      reads this
    {
      && width >= MinWidth && height >= MinHeight
      && Dual(math, View())
      && ScalesPositive(geo)
    }

    /** The view state the transforms read. */
    function View(): ViewState
      reads this
    {
      ViewState(center, zoom, viewRange, width, height)
    }

    function Center(): GeoPosition
      reads this
    {
      center
    }

    function Zoom(): (z: real)
      reads this
      requires Valid()
      ensures MinZoom <= z <= MaxZoom
    {
      zoom
    }

    function SelectedTrack(): string
      reads this
    {
      selectedTrackId
    }

    function IsPanEnabled(): bool
      reads this
    {
      panEnabled
    }

    /**
     * A new widget, given the size its host lays it out at (never below the
     * 400 x 300 minimum): the default centre, zoom 15 and its range, pan
     * enabled and idle, no selection, no tracks.
     */
    constructor (geo: GeoMath, math: MathLib, w: int, h: int)
      requires ScalesPositive(geo)
      ensures Valid()
      ensures this.geo == geo && this.math == math
      ensures width == MaxInt(w, MinWidth) && height == MaxInt(h, MinHeight)
      ensures center == DefaultCenter && zoom == DefaultZoom
      ensures viewRange == ZoomToRangeScale(math, DefaultZoom)
      ensures selectedTrackId == "" && tracks == map[]
      ensures panEnabled && !panning && lastPanPos == ScreenPoint(0.0, 0.0)
      ensures signals == [] && !repaintRequested
    {
      this.geo := geo;
      this.math := math;
      width := MaxInt(w, MinWidth);
      height := MaxInt(h, MinHeight);
      center := DefaultCenter;
      zoom := DefaultZoom;
      viewRange := ZoomToRangeScale(math, DefaultZoom);
      selectedTrackId := "";
      tracks := map[];
      panEnabled := true;
      panning := false;
      lastPanPos := ScreenPoint(0.0, 0.0);
      signals := [];
      repaintRequested := false;
    }

    /** The host resizes the widget; the minimum size still holds. */
    method Resize(w: int, h: int)
      requires Valid()
      modifies this`width, this`height
      ensures Valid()
      ensures width == MaxInt(w, MinWidth) && height == MaxInt(h, MinHeight)
    {
      width := MaxInt(w, MinWidth);
      height := MaxInt(h, MinHeight);
    }

    /** setCenter: store pos as given, notify, repaint. */
    method SetCenter(pos: GeoPosition)
      requires Valid()
      modifies this`center, this`signals, this`repaintRequested
      ensures Valid()
      ensures Center() == pos && View() == old(View()).(center := pos)
      ensures signals == old(signals) + [CenterChanged(pos)]
      ensures repaintRequested
    {
      center := pos;
      signals := signals + [CenterChanged(center)];
      repaintRequested := true;
    }

    /** setCenterSilent: the same update as SetCenter, with no notification. */
    method SetCenterSilent(pos: GeoPosition)
      requires Valid()
      modifies this`center, this`repaintRequested
      ensures Valid()
      ensures Center() == pos && View() == old(View()).(center := pos)
      ensures repaintRequested
    {
      center := pos;
      repaintRequested := true;
    }

    /** setZoom: bound the dial, recompute the range from it, notify, repaint. */
    method SetZoom(z: real)
      requires Valid()
      modifies this`zoom, this`viewRange, this`signals, this`repaintRequested
      ensures Valid()
      ensures View() == WithZoom(math, old(View()), z)
      ensures zoom == Bound(MinZoom, z, MaxZoom) && viewRange == ZoomToRangeScale(math, zoom)
      ensures signals == old(signals) + [ZoomChanged(zoom)]
      ensures repaintRequested
    {
      zoom := Bound(MinZoom, z, MaxZoom);
      viewRange := ZoomToRangeScale(math, zoom);
      signals := signals + [ZoomChanged(zoom)];
      repaintRequested := true;
    }

    /** setZoomSilent: the same update as SetZoom, with no notification. */
    method SetZoomSilent(z: real)
      requires Valid()
      modifies this`zoom, this`viewRange, this`repaintRequested
      ensures Valid()
      ensures View() == WithZoom(math, old(View()), z)
      ensures zoom == Bound(MinZoom, z, MaxZoom) && viewRange == ZoomToRangeScale(math, zoom)
      ensures repaintRequested
    {
      zoom := Bound(MinZoom, z, MaxZoom);
      viewRange := ZoomToRangeScale(math, zoom);
      repaintRequested := true;
    }

    /** pan: move the centre by the geographic equivalent of a pixel delta, notify, repaint. */
    method Pan(delta: ScreenPoint)
      requires Valid()
      modifies this`center, this`signals, this`repaintRequested
      ensures Valid()
      ensures NonDegenerate(old(View())) && View() == Panned(geo, old(View()), delta)
      ensures signals == old(signals) + [CenterChanged(center)]
      ensures repaintRequested
    {
      DualIsNonDegenerate(math, View());
      var scale := MapRadius(width, height) / viewRange;
      var distanceX := -delta.x / scale;
      var distanceY := delta.y / scale;
      var dLat := distanceY / geo.metersPerDegLat;
      var dLon := distanceX / geo.metersPerDegLon(center.latitude);
      center := center.(latitude := center.latitude + dLat, longitude := center.longitude + dLon);
      signals := signals + [CenterChanged(center)];
      repaintRequested := true;
    }

    /** selectTrack: take the id as the selection and repaint; no signal is emitted. */
    method SelectTrack(trackId: string)
      requires Valid()
      modifies this`selectedTrackId, this`repaintRequested
      ensures Valid()
      ensures SelectedTrack() == trackId
      ensures repaintRequested
    {
      selectedTrackId := trackId;
      repaintRequested := true;
    }

    /** addTrack: the widget stores nothing; it only repaints. */
    method AddTrack(trackId: string)
      requires Valid()
      modifies this`repaintRequested
      ensures Valid()
      ensures repaintRequested
    {
      repaintRequested := true;
    }

    /** updateTrack: as addTrack, only a repaint. */
    method UpdateTrack(trackId: string)
      requires Valid()
      modifies this`repaintRequested
      ensures Valid()
      ensures repaintRequested
    {
      repaintRequested := true;
    }

    /** removeTrack: drop the entry; clear the selection exactly when it is this id. */
    method RemoveTrack(trackId: string)
      requires Valid()
      modifies this`tracks, this`selectedTrackId, this`repaintRequested
      ensures Valid()
      ensures tracks == old(tracks) - {trackId}
      ensures old(selectedTrackId) == trackId ==> SelectedTrack() == ""
      ensures old(selectedTrackId) != trackId ==> SelectedTrack() == old(selectedTrackId)
      ensures repaintRequested
    {
      tracks := tracks - {trackId};
      if selectedTrackId == trackId {
        selectedTrackId := "";
      }
      repaintRequested := true;
    }

    /** clearTracks: no entries and no selection. */
    method ClearTracks()
      requires Valid()
      modifies this`tracks, this`selectedTrackId, this`repaintRequested
      ensures Valid()
      ensures tracks == map[] && SelectedTrack() == ""
      ensures repaintRequested
    {
      tracks := map[];
      selectedTrackId := "";
      repaintRequested := true;
    }

    /** setPanEnabled: only the flag changes. */
    method SetPanEnabled(enabled: bool)
      requires Valid()
      modifies this`panEnabled
      ensures Valid()
      ensures IsPanEnabled() == enabled
    {
      panEnabled := enabled;
    }

    /**
     * mousePressEvent: a left press with pan enabled starts a drag at pos;
     * otherwise a right press reports the geographic position under the
     * pointer; any other press changes nothing.
     */
    method MousePress(button: MouseButton, pos: ScreenPoint)
      requires Valid()
      modifies this`panning, this`lastPanPos, this`signals
      ensures Valid()
      ensures button == LeftButton && panEnabled ==>
        panning && lastPanPos == pos && signals == old(signals)
      ensures !(button == LeftButton && panEnabled) ==>
        && panning == old(panning) && lastPanPos == old(lastPanPos)
        && NonDegenerate(View())
        && signals == old(signals) + (if button == RightButton then [MapClicked(ScreenToGeo(geo, View(), pos))] else [])
    {
      DualIsNonDegenerate(math, View());
      if button == LeftButton && panEnabled {
        panning := true;
        lastPanPos := pos;
        return;
      }
      if button == RightButton {
        var clickPos := ScreenToGeo(geo, View(), pos);
        signals := signals + [MapClicked(clickPos)];
      }
    }

    /**
     * mouseMoveEvent: while dragging, pan by the pointer's travel since the
     * last sample and remember the new position; otherwise the event goes to
     * the base class and nothing changes. `accepted` tells the two apart.
     */
    method MouseMove(pos: ScreenPoint) returns (accepted: bool)
      requires Valid()
      modifies this`lastPanPos, this`center, this`signals, this`repaintRequested
      ensures Valid()
      ensures accepted == panning
      ensures panning ==>
        && lastPanPos == pos
        && NonDegenerate(old(View()))
        && View() == Panned(geo, old(View()), Minus(pos, old(lastPanPos)))
        && signals == old(signals) + [CenterChanged(center)]
        && repaintRequested
      ensures !panning ==>
        && lastPanPos == old(lastPanPos) && center == old(center)
        && signals == old(signals) && repaintRequested == old(repaintRequested)
    {
      if panning {
        var delta := Minus(pos, lastPanPos);
        lastPanPos := pos;
        Pan(delta);
        return true;
      }
      return false;
    }

    /** mouseReleaseEvent: a left release ends a drag; anything else goes to the base class. */
    method MouseRelease(button: MouseButton) returns (accepted: bool)
      requires Valid()
      modifies this`panning
      ensures Valid()
      ensures accepted == (old(panning) && button == LeftButton)
      ensures panning == (old(panning) && !accepted)
    {
      if panning && button == LeftButton {
        panning := false;
        return true;
      }
      return false;
    }

    /** wheelEvent: half a zoom step per 120 units of vertical wheel travel, through setZoom. */
    method Wheel(angleDeltaY: int)
      requires Valid()
      modifies this`zoom, this`viewRange, this`signals, this`repaintRequested
      ensures Valid()
      ensures View() == WithZoom(math, old(View()), old(zoom) + angleDeltaY as real / WheelNotch * ZoomPerNotch)
      ensures signals == old(signals) + [ZoomChanged(zoom)]
      ensures repaintRequested
    {
      var delta := angleDeltaY as real / WheelNotch;
      SetZoom(zoom + delta * ZoomPerNotch);
    }

    /**
     * drawGrid's line endpoints in pixels: twelve parallels, then twelve
     * meridians, each the projection of the matching grid line.
     */
    method DrawGrid() returns (lines: seq<ScreenSegment>)
      requires Valid()
      ensures NonDegenerate(View())
      ensures |lines| == 2 * LinesPerAxis
      ensures var s := GridSpacing(math, geo, viewRange);
        s > 0.0 &&
        forall i :: 0 <= i < |lines| ==>
          lines[i] == Project(geo, View(), GridLine(GridStart(center.latitude, s), GridStart(center.longitude, s), s, i))
    {
      DualIsNonDegenerate(math, View());
      var v := View();
      var gridSpacing := GridSpacing(math, geo, viewRange);
      var startLat := GridStart(center.latitude, gridSpacing);
      var startLon := GridStart(center.longitude, gridSpacing);
      lines := [];
      for i := 0 to LinesPerAxis
        invariant |lines| == i
        invariant forall k :: 0 <= k < i ==>
          lines[k] == Project(geo, v, GridLine(startLat, startLon, gridSpacing, k))
      {
        var p1 := GeoPosition(startLat + i as real * gridSpacing, startLon, 0.0);
        var p2 := GeoPosition(startLat + i as real * gridSpacing, startLon + gridSpacing * 12.0, 0.0);
        ParallelIsGridLine(startLat, startLon, gridSpacing, i);
        lines := lines + [ScreenSegment(GeoToScreen(geo, v, p1), GeoToScreen(geo, v, p2))];
      }
      for i := 0 to LinesPerAxis
        invariant |lines| == LinesPerAxis + i
        invariant forall k :: 0 <= k < LinesPerAxis + i ==>
          lines[k] == Project(geo, v, GridLine(startLat, startLon, gridSpacing, k))
      {
        var p1 := GeoPosition(startLat, startLon + i as real * gridSpacing, 0.0);
        var p2 := GeoPosition(startLat + gridSpacing * 12.0, startLon + i as real * gridSpacing, 0.0);
        MeridianIsGridLine(startLat, startLon, gridSpacing, i);
        lines := lines + [ScreenSegment(GeoToScreen(geo, v, p1), GeoToScreen(geo, v, p2))];
      }
    }
  }
}
