/**
 * The placement geometry of drawTracks and drawDefendedArea, and the
 * classification colour table. Pixel drawing itself is left to the canvas.
 * Track (core/Track.h) is not part of this model: a track is seen through
 * the values the widget reads from it.
 */
module Overlay {
  import opened Numerics
  import opened Geo
  import opened MapView

  datatype Option<T> = None | Some(value: T)

  /** TrackClassification as far as the widget distinguishes it. */
  datatype Classification = Hostile | Friendly | Neutral | Pending | Unknown

  /** The Qt colours the widget uses for tracks. */
  datatype Color = Red | Cyan | Yellow | Gray | Green

  /** TrackState: the widget only asks whether a track is dropped. */
  datatype TrackState = Active | Dropped

  /** What the widget reads from a track: position, classification, speed and heading (degrees). */
  datatype Track = Track(
    position: GeoPosition,
    classification: Classification,
    speed: real,
    heading: real,
    state: TrackState)

  /** colorForClassification: four fixed colours, green for everything else. */
  function ColorForClassification(c: Classification): (r: Color)
    ensures c == Hostile <==> r == Red
    ensures c == Friendly <==> r == Cyan
    ensures c == Pending <==> r == Yellow
    ensures c == Neutral <==> r == Gray
    ensures r == Green <==> !(c == Hostile || c == Friendly || c == Pending || c == Neutral)
  {
    match c
    case Hostile => Red
    case Friendly => Cyan
    case Pending => Yellow
    case Neutral => Gray
    case _ => Green
  }

  /** No two classifications share a colour. */
  lemma ColorsDistinct(c1: Classification, c2: Classification)
    ensures ColorForClassification(c1) == ColorForClassification(c2) ==> c1 == c2
  {
  }

  const SelectedSize: int := 12
  const NormalSize: int := 8
  /** Speeds at or below this draw no velocity segment. */
  const MinDrawnSpeed: real := 1.0
  /** Pixels of velocity segment per unit of speed. */
  const VelocityScale: real := 0.5

  /** One track symbol: a diamond of half-diagonal `size`, and an optional velocity segment end. */
  datatype Glyph = Glyph(
    at: ScreenPoint,
    color: Color,
    size: int,
    penWidth: int,
    velocityTip: Option<ScreenPoint>)

  /** The geometry drawTracks computes for one map entry; None for a dropped track. */
  function TrackGlyph(m: MathLib, g: GeoMath, v: ViewState, key: string, t: Track, selectedId: string): Option<Glyph>
    requires NonDegenerate(v)
  {
    if t.state == Dropped then None
    else
      var pos := GeoToScreen(g, v, t.position);
      var selected := key == selectedId;
      var tip :=
        if t.speed > MinDrawnSpeed then
          Some(ScreenPoint(pos.x + m.sinDeg(t.heading) * t.speed * VelocityScale,
                           pos.y + -m.cosDeg(t.heading) * t.speed * VelocityScale))
        else None;
      Some(Glyph(pos, ColorForClassification(t.classification),
                 if selected then SelectedSize else NormalSize,
                 if selected then 3 else 2,
                 tip))
  }

  /**
   * A live track is drawn where geoToScreen puts it, larger exactly when it
   * is the selected one; its velocity segment exists exactly when the speed
   * exceeds 1 and, given sin^2 + cos^2 == 1, is speed * 0.5 pixels long.
   */
  lemma TrackGlyphGeometry(m: MathLib, g: GeoMath, v: ViewState, key: string, t: Track, selectedId: string)
    requires NonDegenerate(v)
    ensures TrackGlyph(m, g, v, key, t, selectedId).Some? <==> t.state != Dropped
    ensures TrackGlyph(m, g, v, key, t, selectedId).Some? ==>
      var gl := TrackGlyph(m, g, v, key, t, selectedId).value;
      && gl.at == GeoToScreen(g, v, t.position)
      && gl.color == ColorForClassification(t.classification)
      && (gl.size == SelectedSize <==> key == selectedId)
      && (gl.size == NormalSize <==> key != selectedId)
      && (gl.velocityTip.Some? <==> t.speed > MinDrawnSpeed)
      && (gl.velocityTip.Some? && TrigLaw(m) ==>
            SquaredLength(Minus(gl.velocityTip.value, gl.at))
            == (t.speed * VelocityScale) * (t.speed * VelocityScale))
  {
    if t.state != Dropped && t.speed > MinDrawnSpeed && TrigLaw(m) {
      var gl := TrackGlyph(m, g, v, key, t, selectedId).value;
      var sn, cs := m.sinDeg(t.heading), m.cosDeg(t.heading);
      var k := t.speed * VelocityScale;
      assert sn * sn + cs * cs == 1.0;
      var d := Minus(gl.velocityTip.value, gl.at);
      assert d == ScreenPoint(sn * k, -cs * k);
      UnitScaled(sn, cs, k);
    }
  }

  function SquaredLength(p: ScreenPoint): real {
    p.x * p.x + p.y * p.y
  }

  lemma UnitScaled(sn: real, cs: real, k: real)
    requires sn * sn + cs * cs == 1.0
    ensures SquaredLength(ScreenPoint(sn * k, -cs * k)) == k * k
  {
    assert (sn * k) * (sn * k) + (-cs * k) * (-cs * k) == (sn * sn + cs * cs) * (k * k);
  }

  const CriticalRadiusM: real := 500.0
  const WarningRadiusM: real := 1500.0

  /** The two defended-area circles of drawDefendedArea, in pixels. */
  datatype Rings = Rings(center: ScreenPoint, critical: real, warning: real)

  function DefendedArea(g: GeoMath, v: ViewState): Rings
    requires NonDegenerate(v)
  {
    var scale := PixelsPerMeter(v);
    Rings(GeoToScreen(g, v, v.center), CriticalRadiusM * scale, WarningRadiusM * scale)
  }

  /**
   * The rings are centred at the middle of the widget, the warning ring is
   * three times the critical one, and the critical ring fits in the map
   * radius exactly when the view range is at least 500 m.
   */
  lemma DefendedAreaGeometry(g: GeoMath, v: ViewState)
    requires InverseLaws(g) && NonDegenerate(v)
    ensures DefendedArea(g, v).center == ScreenPoint(v.width as real / 2.0, v.height as real / 2.0)
    ensures DefendedArea(g, v).warning == 3.0 * DefendedArea(g, v).critical
    ensures DefendedArea(g, v).critical <= MapRadius(v.width, v.height) <==> v.rangeM >= CriticalRadiusM
  {
    CenterAtMiddle(g, v);
    var radius := MapRadius(v.width, v.height);
    var scale := PixelsPerMeter(v);
    assert scale * v.rangeM == radius;
    RingFits(scale, v.rangeM, radius);
  }

  lemma RingFits(scale: real, range: real, radius: real)
    requires scale > 0.0 && range > 0.0 && scale * range == radius
    ensures CriticalRadiusM * scale <= radius <==> range >= CriticalRadiusM
  {
    if range >= CriticalRadiusM {
      MulLe(CriticalRadiusM, range, scale);
    } else {
      MulLt(range, CriticalRadiusM, scale);
    }
  }
}
