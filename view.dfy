/**
 * The view state of CounterUAS::MapWidget as a value: centre, zoom dial,
 * the ground range derived from it, and the widget's pixel size; the
 * zoom/range conversions; the geographic <-> screen transform; and the
 * pixel-drag to geographic-delta conversion used by pan.
 */
module MapView {
  import opened Numerics
  import opened Geo

  const MinZoom: real := 1.0
  const MaxZoom: real := 20.0
  /** Ground range at zoom 1, and the largest range. */
  const BaseRange: real := 50000.0
  const MinRange: real := 100.0
  /** Zoom steps per halving of the range. */
  const ZoomPerOctave: real := 2.5
  /** Pixels kept free for labels between the map radius and the widget edge. */
  const LabelMargin: real := 20.0
  /** The widget's minimum size. */
  const MinWidth: int := 400
  const MinHeight: int := 300

  datatype ViewState = ViewState(
    center: GeoPosition,
    zoom: real,
    rangeM: real,
    width: int,
    height: int)

  /**
   * zoomToRangeScale: 50000 / 2^((zoom - 1) / 2.5), bounded to [100, 50000].
   * A pow result of zero makes the quotient +inf (bounded to 50000), a
   * negative one makes it negative (bounded to 100); so the bounds hold
   * whatever pow returns.
   */
  function ZoomToRangeScale(m: MathLib, zoom: real): (r: real)
    ensures MinRange <= r <= BaseRange
  {
    var p := m.exp2((zoom - MinZoom) / ZoomPerOctave);
    if p > 0.0 then Bound(MinRange, BaseRange / p, BaseRange)
    else if p == 0.0 then BaseRange
    else MinRange
  }

  /**
   * rangeScaleToZoom: 1 + log2(50000 / rangeM) * 2.5, bounded to [1, 20].
   * The code has no guard for rangeM <= 0: a zero range gives
   * log2(+inf) = +inf, bounded to 20; a negative one gives log2 of a
   * negative number, NaN, for which qBound returns its lower bound 1.
   */
  function RangeScaleToZoom(m: MathLib, rangeM: real): (r: real)
    ensures MinZoom <= r <= MaxZoom
    ensures rangeM == 0.0 ==> r == MaxZoom
    ensures rangeM < 0.0 ==> r == MinZoom
  {
    if rangeM > 0.0 then Bound(MinZoom, MinZoom + m.log2(BaseRange / rangeM) * ZoomPerOctave, MaxZoom)
    else if rangeM == 0.0 then MaxZoom
    else MinZoom
  }

  /** The invariant the zoom setters keep: range is the projection of zoom. */
  ghost predicate Dual(m: MathLib, v: ViewState) {
    MinZoom <= v.zoom <= MaxZoom && v.rangeM == ZoomToRangeScale(m, v.zoom)
  }

  /** The state update of setZoom and setZoomSilent. */
  function WithZoom(m: MathLib, v: ViewState, z: real): (r: ViewState)
    ensures Dual(m, r)
    ensures r.zoom == Bound(MinZoom, z, MaxZoom)
    ensures r.center == v.center && r.width == v.width && r.height == v.height
  {
    var zoom := Bound(MinZoom, z, MaxZoom);
    v.(zoom := zoom, rangeM := ZoomToRangeScale(m, zoom))
  }

  /** Setting the zoom the view already has changes nothing; setting twice is setting once. */
  lemma WithZoomStable(m: MathLib, v: ViewState, z: real)
    ensures Dual(m, v) ==> WithZoom(m, v, v.zoom) == v
    ensures WithZoom(m, WithZoom(m, v, z), z) == WithZoom(m, v, z)
  {
  }

  /** The unbounded zoom-to-range quotient lies in [100, 50000] on the dial's range. */
  lemma RangeBoundInactive(m: MathLib, zoom: real)
    requires Exp2Laws(m)
    requires MinZoom <= zoom <= MaxZoom
    ensures 1.0 <= m.exp2((zoom - MinZoom) / ZoomPerOctave) < 256.0
    ensures MinRange < BaseRange / m.exp2((zoom - MinZoom) / ZoomPerOctave) <= BaseRange
  {
    var x := (zoom - MinZoom) / ZoomPerOctave;
    assert 0.0 <= x <= 7.6;
    assert m.exp2(0.0) <= m.exp2(x) <= m.exp2(8.0);
    assert m.exp2(x) < 256.0 by {
      if m.exp2(x) == 256.0 {
        assert m.log2(m.exp2(x)) == x;
        assert m.log2(m.exp2(8.0)) == 8.0;
      }
    }
    var p := m.exp2(x);
    assert BaseRange / p > MinRange by {
      assert BaseRange / p * p == BaseRange;
      assert MinRange * p < BaseRange;
    }
  }

  /**
   * zoomToRangeScale at the ends of the dial: 50000 m at zoom 1, and at
   * zoom 20 a range strictly above the 100 m bound (about 258 m), so the
   * lower bound never binds for a dial value.
   */
  lemma ZoomDialEnds(m: MathLib)
    requires Exp2Laws(m)
    ensures ZoomToRangeScale(m, MinZoom) == BaseRange
    ensures MinRange < ZoomToRangeScale(m, MaxZoom) < BaseRange
  {
    RangeBoundInactive(m, MinZoom);
    RangeBoundInactive(m, MaxZoom);
    assert (MaxZoom - MinZoom) / ZoomPerOctave == 7.6;
    assert m.log2(m.exp2(0.0)) == 0.0 && m.log2(m.exp2(7.6)) == 7.6;
    assert m.exp2(7.6) != m.exp2(0.0);
  }

  /** A higher zoom never gives a larger range. */
  lemma ZoomToRangeAntitone(m: MathLib, z1: real, z2: real)
    requires Exp2Laws(m)
    requires MinZoom <= z1 <= z2 <= MaxZoom
    ensures ZoomToRangeScale(m, z2) <= ZoomToRangeScale(m, z1)
  {
    RangeBoundInactive(m, z1);
    RangeBoundInactive(m, z2);
    var p1 := m.exp2((z1 - MinZoom) / ZoomPerOctave);
    var p2 := m.exp2((z2 - MinZoom) / ZoomPerOctave);
    assert p1 <= p2;
    DivAntitone(BaseRange, p1, p2);
  }

  /** a / p2 <= a / p1 for 0 < p1 <= p2 and a >= 0. */
  lemma DivAntitone(a: real, p1: real, p2: real)
    requires a >= 0.0 && 0.0 < p1 <= p2
    ensures a / p2 <= a / p1
  {
    var q1, q2 := a / p1, a / p2;
    assert q1 * p1 == a && q2 * p2 == a;
    assert q2 * p1 <= q2 * p2;
    assert q2 * p1 <= q1 * p1;
  }

  /** rangeScaleToZoom inverts zoomToRangeScale on the whole dial. */
  lemma ZoomRangeRoundTrip(m: MathLib, zoom: real)
    requires Exp2Laws(m)
    requires MinZoom <= zoom <= MaxZoom
    ensures RangeScaleToZoom(m, ZoomToRangeScale(m, zoom)) == zoom
  {
    RangeBoundInactive(m, zoom);
    var x := (zoom - MinZoom) / ZoomPerOctave;
    var p := m.exp2(x);
    var r := BaseRange / p;
    assert ZoomToRangeScale(m, zoom) == r;
    assert BaseRange / r == p;
    assert m.log2(p) == x;
  }

  /**
   * zoomToRangeScale inverts rangeScaleToZoom on every range the dial can
   * produce, from zoomToRangeScale(20) up to 50000.
   */
  lemma RangeZoomRoundTrip(m: MathLib, rangeM: real)
    requires Exp2Laws(m)
    requires ZoomToRangeScale(m, MaxZoom) <= rangeM <= BaseRange
    ensures ZoomToRangeScale(m, RangeScaleToZoom(m, rangeM)) == rangeM
  {
    ZoomDialEnds(m);
    RangeBoundInactive(m, MaxZoom);
    var pMax := m.exp2(7.6);
    assert (MaxZoom - MinZoom) / ZoomPerOctave == 7.6;
    assert ZoomToRangeScale(m, MaxZoom) == BaseRange / pMax;
    var q := BaseRange / rangeM;
    assert 1.0 <= q <= pMax by {
      DivAntitone(BaseRange, rangeM, BaseRange);
      DivAntitone(BaseRange, BaseRange / pMax, rangeM);
      assert BaseRange / (BaseRange / pMax) == pMax;
    }
    var l := m.log2(q);
    assert m.exp2(l) == q;
    assert m.log2(m.exp2(0.0)) == 0.0 && m.log2(m.exp2(7.6)) == 7.6;
    assert 0.0 <= l <= 7.6;
    var zoom := MinZoom + l * ZoomPerOctave;
    assert RangeScaleToZoom(m, rangeM) == zoom;
    assert (zoom - MinZoom) / ZoomPerOctave == l;
    assert BaseRange / q == rangeM;
  }

  /**
   * Below the zoom-20 range the reverse round trip fails: every range from
   * 100 m up to zoomToRangeScale(20) is read as zoom 20, which maps back to
   * the larger zoom-20 range, not to the range given.
   */
  lemma RangeZoomRoundTripFailsBelowDial(m: MathLib, rangeM: real)
    requires Exp2Laws(m)
    requires MinRange <= rangeM < ZoomToRangeScale(m, MaxZoom)
    ensures RangeScaleToZoom(m, rangeM) == MaxZoom
    ensures ZoomToRangeScale(m, RangeScaleToZoom(m, rangeM)) != rangeM
  {
    RangeBoundInactive(m, MaxZoom);
    var pMax := m.exp2(7.6);
    assert (MaxZoom - MinZoom) / ZoomPerOctave == 7.6;
    assert ZoomToRangeScale(m, MaxZoom) == BaseRange / pMax;
    var q := BaseRange / rangeM;
    DivAbove(BaseRange, rangeM, pMax);
    assert m.exp2(m.log2(q)) == q;
    assert m.log2(q) <= 7.6 ==> m.exp2(m.log2(q)) <= pMax;
    assert m.log2(q) > 7.6;
    assert MinZoom + m.log2(q) * ZoomPerOctave > MaxZoom;
  }

  /** a < b / c gives c < b / a, for positive a and c. */
  lemma DivAbove(b: real, a: real, c: real)
    requires a > 0.0 && c > 0.0 && a < b / c
    ensures c < b / a
  {
    MulLt(a, b / c, c);
    assert b / c * c == b;
    assert (b / a - c) * a == b - c * a;
  }

  /** mapRadius: half the smaller dimension less the label margin. */
  function MapRadius(width: int, height: int): (r: real)
    ensures width >= MinWidth && height >= MinHeight ==> r >= 130.0
    ensures r + LabelMargin <= width as real / 2.0 && r + LabelMargin <= height as real / 2.0
  {
    MinInt(width, height) as real / 2.0 - LabelMargin
  }

  /** A view in which pixels per metre is defined and positive. */
  ghost predicate NonDegenerate(v: ViewState) {
    v.rangeM > 0.0 && MapRadius(v.width, v.height) > 0.0
  }

  /** The widget's minimum size and the range bound make every dual view non-degenerate. */
  lemma DualIsNonDegenerate(m: MathLib, v: ViewState)
    requires Dual(m, v) && v.width >= MinWidth && v.height >= MinHeight
    ensures NonDegenerate(v) && PixelsPerMeter(v) > 0.0
  {
  }

  /** The scale shared by geoToScreen, screenToGeo, pan and drawDefendedArea. */
  function PixelsPerMeter(v: ViewState): real
    requires NonDegenerate(v)
  {
    MapRadius(v.width, v.height) / v.rangeM
  }

  /** geoToScreen: local metres times the scale, y flipped, about the widget's middle. */
  function GeoToScreen(g: GeoMath, v: ViewState, p: GeoPosition): (s: ScreenPoint)
    requires NonDegenerate(v)
  {
    var local := g.toLocal(p, v.center);
    var scale := PixelsPerMeter(v);
    ScreenPoint(v.width as real / 2.0 + local.x * scale, v.height as real / 2.0 + -local.y * scale)
  }

  /** screenToGeo: undo the scale and the y flip, then leave the local frame. */
  function ScreenToGeo(g: GeoMath, v: ViewState, s: ScreenPoint): (p: GeoPosition)
    requires NonDegenerate(v)
  {
    var scale := PixelsPerMeter(v);
    var localX := (s.x - v.width as real / 2.0) / scale;
    var localY := -(s.y - v.height as real / 2.0) / scale;
    g.toGeo(Local(localX, localY), v.center)
  }

  /** The view centre is drawn at the middle of the widget. */
  lemma CenterAtMiddle(g: GeoMath, v: ViewState)
    requires InverseLaws(g) && NonDegenerate(v)
    ensures GeoToScreen(g, v, v.center) == ScreenPoint(v.width as real / 2.0, v.height as real / 2.0)
  {
    assert g.toLocal(v.center, v.center) == Local(0.0, 0.0);
  }

  /** screenToGeo(geoToScreen(p)) has p's latitude and longitude. */
  lemma GeoScreenRoundTrip(g: GeoMath, v: ViewState, p: GeoPosition)
    requires InverseLaws(g) && NonDegenerate(v)
    ensures ScreenToGeo(g, v, GeoToScreen(g, v, p)).latitude == p.latitude
    ensures ScreenToGeo(g, v, GeoToScreen(g, v, p)).longitude == p.longitude
  {
    var local := g.toLocal(p, v.center);
    var scale := PixelsPerMeter(v);
    var s := GeoToScreen(g, v, p);
    assert (s.x - v.width as real / 2.0) / scale == local.x by {
      assert s.x - v.width as real / 2.0 == local.x * scale;
    }
    assert -(s.y - v.height as real / 2.0) / scale == local.y by {
      assert -(s.y - v.height as real / 2.0) == local.y * scale;
    }
    assert ScreenToGeo(g, v, s) == g.toGeo(local, v.center);
  }

  /** geoToScreen(screenToGeo(s)) == s: every pixel is the image of its geographic position. */
  lemma ScreenGeoRoundTrip(g: GeoMath, v: ViewState, s: ScreenPoint)
    requires InverseLaws(g) && NonDegenerate(v)
    ensures GeoToScreen(g, v, ScreenToGeo(g, v, s)) == s
  {
    var scale := PixelsPerMeter(v);
    var local := Local((s.x - v.width as real / 2.0) / scale, -(s.y - v.height as real / 2.0) / scale);
    assert g.toLocal(g.toGeo(local, v.center), v.center) == local;
    assert local.x * scale == s.x - v.width as real / 2.0;
    assert -local.y * scale == s.y - v.height as real / 2.0;
  }

  /** The centre update of pan(delta), in the code's steps. */
  function Panned(g: GeoMath, v: ViewState, delta: ScreenPoint): (r: ViewState)
    requires NonDegenerate(v) && ScalesPositive(g)
  {
    var scale := PixelsPerMeter(v);
    var distanceX := -delta.x / scale;
    var distanceY := delta.y / scale;
    var dLat := distanceY / g.metersPerDegLat;
    var dLon := distanceX / g.metersPerDegLon(v.center.latitude);
    v.(center := v.center.(latitude := v.center.latitude + dLat,
                           longitude := v.center.longitude + dLon))
  }

  /** Degrees of latitude per pixel: range / (radius * metres per degree of latitude). */
  function LatPerPixel(g: GeoMath, v: ViewState): (f: real)
    requires NonDegenerate(v) && ScalesPositive(g)
    ensures f > 0.0
  {
    v.rangeM / (MapRadius(v.width, v.height) * g.metersPerDegLat)
  }

  /** Degrees of longitude per pixel at the centre's latitude. */
  function LonPerPixel(g: GeoMath, v: ViewState): (f: real)
    requires NonDegenerate(v) && ScalesPositive(g)
    ensures f > 0.0
  {
    v.rangeM / (MapRadius(v.width, v.height) * g.metersPerDegLon(v.center.latitude))
  }

  /**
   * pan moves latitude by dy * range / (radius * metres per degree of latitude)
   * and longitude by -dx * range / (radius * metres per degree of longitude at
   * the current latitude); altitude, zoom, range and size stay. A zero delta
   * changes nothing.
   */
  lemma PanDisplacement(g: GeoMath, v: ViewState, delta: ScreenPoint)
    requires NonDegenerate(v) && ScalesPositive(g)
    ensures var r := Panned(g, v, delta);
      && r.center.latitude == v.center.latitude + delta.y * LatPerPixel(g, v)
      && r.center.longitude == v.center.longitude - delta.x * LonPerPixel(g, v)
      && r.center.altitude == v.center.altitude
      && r.zoom == v.zoom && r.rangeM == v.rangeM
      && r.width == v.width && r.height == v.height
    ensures delta == ScreenPoint(0.0, 0.0) ==> Panned(g, v, delta) == v
  {
    var radius := MapRadius(v.width, v.height);
    var scale := PixelsPerMeter(v);
    assert scale * v.rangeM == radius;
    DivDiv(delta.y, scale, g.metersPerDegLat, v.rangeM, radius);
    DivDiv(-delta.x, scale, g.metersPerDegLon(v.center.latitude), v.rangeM, radius);
  }

  /** (a / s) / k == a * (range / (radius * k)) when s == radius / range. */
  lemma DivDiv(a: real, s: real, k: real, range: real, radius: real)
    requires s > 0.0 && k > 0.0 && range > 0.0 && s * range == radius
    ensures a / s / k == a * (range / (radius * k))
  {
    var lhs := a / s / k;
    var f := range / (radius * k);
    assert lhs * k * s == a;
    assert f * (radius * k) == range;
    assert f * k * s == 1.0 by {
      assert f * k * s * range == f * (radius * k);
    }
    assert lhs == a * f by {
      assert lhs * (k * s) == a;
      assert a * f * (k * s) == a;
    }
  }

  /** Two longitude factors agree exactly when the per-pixel longitude steps do. */
  lemma LonPerPixelInjective(g: GeoMath, v: ViewState, w: ViewState)
    requires NonDegenerate(v) && ScalesPositive(g)
    requires w.rangeM == v.rangeM && w.width == v.width && w.height == v.height
    ensures LonPerPixel(g, v) == LonPerPixel(g, w)
        <==> g.metersPerDegLon(v.center.latitude) == g.metersPerDegLon(w.center.latitude)
  {
    var k1 := g.metersPerDegLon(v.center.latitude);
    var k2 := g.metersPerDegLon(w.center.latitude);
    var c := v.rangeM / MapRadius(v.width, v.height);
    assert LonPerPixel(g, v) * k1 == c;
    assert LonPerPixel(g, w) * k2 == c;
  }

  /**
   * pan(d) then pan(-d) restores the latitude exactly. It restores the
   * longitude exactly when the horizontal delta is zero or the longitude
   * factor is the same at the two latitudes, because the second pan reads
   * that factor at the shifted latitude.
   */
  lemma PanThenUnpan(g: GeoMath, v: ViewState, delta: ScreenPoint)
    requires NonDegenerate(v) && ScalesPositive(g)
    ensures var back := Panned(g, Panned(g, v, delta), ScreenPoint(-delta.x, -delta.y));
      && back.center.latitude == v.center.latitude
      && back.center.altitude == v.center.altitude
      && (back.center.longitude == v.center.longitude <==>
            delta.x == 0.0
            || g.metersPerDegLon(v.center.latitude)
               == g.metersPerDegLon(Panned(g, v, delta).center.latitude))
  {
    var once := Panned(g, v, delta);
    PanDisplacement(g, v, delta);
    PanDisplacement(g, once, ScreenPoint(-delta.x, -delta.y));
    LonPerPixelInjective(g, v, once);
    assert LatPerPixel(g, once) == LatPerPixel(g, v);
  }

  /**
   * The view after dragging from `last` through the pointer positions of
   * `path`: each move pans by the pointer's displacement since the previous
   * sample.
   */
  function Dragged(g: GeoMath, v: ViewState, last: ScreenPoint, path: seq<ScreenPoint>): (r: ViewState)
    requires NonDegenerate(v) && ScalesPositive(g)
    ensures r.zoom == v.zoom && r.rangeM == v.rangeM && r.width == v.width && r.height == v.height
    decreases |path|
  {
    if path == [] then v
    else
      PanDisplacement(g, v, Minus(path[0], last));
      Dragged(g, Panned(g, v, Minus(path[0], last)), path[0], path[1..])
  }

  /**
   * Over a drag the latitude moves by the total vertical pointer travel times
   * the fixed per-pixel factor: intermediate samples do not matter.
   */
  lemma {:induction false} DragLatitude(g: GeoMath, v: ViewState, last: ScreenPoint, path: seq<ScreenPoint>)
    requires NonDegenerate(v) && ScalesPositive(g) && path != []
    ensures Dragged(g, v, last, path).center.latitude
      == v.center.latitude + (path[|path| - 1].y - last.y) * LatPerPixel(g, v)
    decreases |path|
  {
    var d := Minus(path[0], last);
    var next := Panned(g, v, d);
    var k := LatPerPixel(g, v);
    PanDisplacement(g, v, d);
    if |path| > 1 {
      DragLatitude(g, next, path[0], path[1..]);
      SameScaleSameFactor(g, v, next);
      var yEnd := path[|path| - 1].y;
      assert path[1..][|path[1..]| - 1].y == yEnd;
      Telescope(v.center.latitude, last.y, path[0].y, yEnd, k);
    }
  }

  lemma SameScaleSameFactor(g: GeoMath, v: ViewState, w: ViewState)
    requires NonDegenerate(v) && ScalesPositive(g)
    requires w.rangeM == v.rangeM && w.width == v.width && w.height == v.height
    ensures NonDegenerate(w) && LatPerPixel(g, w) == LatPerPixel(g, v)
  {
  }

  lemma Telescope(lat: real, y0: real, y1: real, y2: real, k: real)
    ensures lat + (y1 - y0) * k + (y2 - y1) * k == lat + (y2 - y0) * k
  {
  }
}
