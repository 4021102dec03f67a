/**
 * Geographic values and the geodetic conversions the widget obtains from
 * CoordinateUtils (utils/CoordinateUtils.h, which is not part of this model).
 * The conversions are supplied functions; the predicates below state the
 * contract the widget relies on.
 */
module Geo {

  /** A geographic position: degrees of latitude and longitude, metres of altitude. */
  datatype GeoPosition = GeoPosition(latitude: real, longitude: real, altitude: real)

  /** Metres east (x) and north (y) of a reference point, on a local tangent plane. */
  datatype Local = Local(x: real, y: real)

  /** A pixel position: origin at the top left, y growing downwards. */
  datatype ScreenPoint = ScreenPoint(x: real, y: real)

  function Minus(a: ScreenPoint, b: ScreenPoint): ScreenPoint {
    ScreenPoint(a.x - b.x, a.y - b.y)
  }

  /** CoordinateUtils::geoToLocal, localToGeo, DEG_TO_M_LAT and degToMeterLon. */
  datatype GeoMath = GeoMath(
    toLocal: (GeoPosition, GeoPosition) -> Local,
    toGeo: (Local, GeoPosition) -> GeoPosition,
    metersPerDegLat: real,
    metersPerDegLon: real -> real)

  /**
   * Both metre-per-degree factors are positive; for the longitude factor this
   * is the non-polar operating envelope.
   */
  ghost predicate ScalesPositive(g: GeoMath) {
    && g.metersPerDegLat > 0.0
    && (forall lat :: g.metersPerDegLon(lat) > 0.0)
  }

  /**
   * For a fixed origin the two conversions invert each other. The local frame
   * is two-dimensional, so going through it keeps latitude and longitude only.
   * The origin itself sits at local (0, 0).
   */
  ghost predicate InverseLaws(g: GeoMath) {
    && (forall p, c :: g.toGeo(g.toLocal(p, c), c).latitude == p.latitude
                    && g.toGeo(g.toLocal(p, c), c).longitude == p.longitude)
    && (forall l, c :: g.toLocal(g.toGeo(l, c), c) == l)
    && (forall c :: g.toLocal(c, c) == Local(0.0, 0.0))
  }
}
