/**
 * The line generator of MapWidget::drawGrid: a spacing rounded up to a
 * "nice" multiple of a power of ten, a start snapped to a multiple of that
 * spacing five cells below the centre, and twelve lines per axis.
 */
module Grid {
  import opened Numerics
  import opened Geo

  const LinesPerAxis: nat := 12
  /** The raw spacing is the range in degrees of latitude over this divisor. */
  const SpacingDivisor: real := 5.0
  /** Cells between the grid's first line and the cell holding the centre. */
  const CellsBelow: real := 5.0

  /** A grid line by its two geographic endpoints. */
  datatype GeoSegment = GeoSegment(from: GeoPosition, to: GeoPosition)

  /** The view range in degrees of latitude, over five. */
  function RawSpacing(g: GeoMath, rangeM: real): (raw: real)
    requires g.metersPerDegLat > 0.0
    ensures rangeM > 0.0 ==> raw > 0.0
    ensures raw * SpacingDivisor * g.metersPerDegLat == rangeM
  {
    rangeM / g.metersPerDegLat / SpacingDivisor
  }

  /** floor(log10(x)). */
  function Decade(m: MathLib, x: real): int {
    Floor(m.log10(x))
  }

  /**
   * ceil(raw / magnitude) * magnitude with magnitude = 10^floor(log10(raw)).
   * Whatever log10 returns the magnitude is a positive power of ten, so a
   * positive range gives a positive spacing.
   */
  function GridSpacing(m: MathLib, g: GeoMath, rangeM: real): (s: real)
    requires g.metersPerDegLat > 0.0
    ensures rangeM > 0.0 ==> s > 0.0
  {
    var raw := RawSpacing(g, rangeM);
    var magnitude := Pow10(Decade(m, raw));
    Ceil(raw / magnitude) as real * magnitude
  }

  /**
   * The spacing is c * 10^k for a whole c from 1 to 10, where 10^k is the
   * decade of the raw spacing; it is never below the raw spacing and stays
   * under twice it.
   */
  lemma SpacingIsNice(m: MathLib, g: GeoMath, rangeM: real)
    requires Log10Law(m) && g.metersPerDegLat > 0.0 && rangeM > 0.0
    ensures var raw := RawSpacing(g, rangeM);
      var k := Decade(m, raw);
      var c := Ceil(raw / Pow10(k));
      && 1 <= c <= 10
      && GridSpacing(m, g, rangeM) == c as real * Pow10(k)
      && raw <= GridSpacing(m, g, rangeM) < 2.0 * raw
  {
    var raw := RawSpacing(g, rangeM);
    var mag := Pow10(Decade(m, raw));
    DecadeBounds(m, raw);
    RoundUpInDecade(raw, mag);
  }

  /** Under the log10 law, the decade's power of ten is at most x and ten times it exceeds x. */
  lemma DecadeBounds(m: MathLib, x: real)
    requires Log10Law(m) && x > 0.0
    ensures Pow10(Decade(m, x)) <= x < 10.0 * Pow10(Decade(m, x))
  {
    var k := Decade(m, x);
    assert k == m.log10(x).Floor;
    assert Pow10(k) <= x < Pow10(k + 1);
    Pow10Step(k);
  }

  /** Rounding x up to a whole multiple of mag, when mag <= x < 10 * mag. */
  lemma RoundUpInDecade(x: real, mag: real)
    requires 0.0 < mag <= x < 10.0 * mag
    ensures 1 <= Ceil(x / mag) <= 10
    ensures x <= Ceil(x / mag) as real * mag < 2.0 * x
  {
    var q := x / mag;
    DivBounds(x, 1.0, 10.0, mag);
    var c := Ceil(q);
    assert 1.0 <= c as real < 11.0;
    assert q * mag == x;
    RoundUpBounds(x, mag, q, c as real);
  }

  lemma RoundUpBounds(x: real, mag: real, q: real, cr: real)
    requires 0.0 < mag <= x && q * mag == x && q <= cr < q + 1.0
    ensures x <= cr * mag < 2.0 * x
  {
    MulLe(q, cr, mag);
    MulLt(cr, q + 1.0, mag);
    assert (q + 1.0) * mag == x + mag;
  }

  /** The first line's coordinate: the centre snapped down to the spacing, less five spacings. */
  function GridStart(center: real, s: real): real
    requires s > 0.0
  {
    Floor(center / s) as real * s - s * CellsBelow
  }

  /**
   * The start is a whole multiple of the spacing (the grid is anchored to
   * absolute coordinates) and the centre lies in the sixth cell.
   */
  lemma GridStartAnchored(center: real, s: real)
    requires s > 0.0
    ensures GridStart(center, s) == (Floor(center / s) - 5) as real * s
    ensures GridStart(center, s) + 5.0 * s <= center < GridStart(center, s) + 6.0 * s
  {
    var n := Floor(center / s);
    assert (n - 5) as real == n as real - 5.0;
    var q := center / s;
    assert q * s == center;
    SnapBounds(center, s, q, n as real);
  }

  lemma SnapBounds(center: real, s: real, q: real, nr: real)
    requires s > 0.0 && q * s == center && nr <= q < nr + 1.0
    ensures (nr - 5.0) * s == nr * s - s * 5.0
    ensures nr * s <= center < nr * s + s
  {
    MulLe(nr, q, s);
    SnapUpper(center, s, q, nr);
  }

  lemma SnapUpper(center: real, s: real, q: real, nr: real)
    requires s > 0.0 && q * s == center && q < nr + 1.0
    ensures center < nr * s + s
  {
    MulLt(q, nr + 1.0, s);
    assert (nr + 1.0) * s == nr * s + s;
  }

  /**
   * With the nice spacing, the lines from the start to the eleventh cell
   * cover the view range in latitude on both sides of the centre.
   */
  lemma GridCoversRange(m: MathLib, g: GeoMath, rangeM: real, center: real)
    requires Log10Law(m) && g.metersPerDegLat > 0.0 && rangeM > 0.0
    ensures var s := GridSpacing(m, g, rangeM);
      var start := GridStart(center, s);
      && start <= center - rangeM / g.metersPerDegLat
      && center + rangeM / g.metersPerDegLat < start + (LinesPerAxis - 1) as real * s
  {
    var s := GridSpacing(m, g, rangeM);
    var raw := RawSpacing(g, rangeM);
    SpacingIsNice(m, g, rangeM);
    GridStartAnchored(center, s);
    assert rangeM / g.metersPerDegLat == 5.0 * raw;
  }

  /**
   * Line i of drawGrid: for i below 12 the parallel at start latitude plus
   * i spacings, otherwise the meridian at start longitude plus (i - 12)
   * spacings; each spans twelve spacings from the start.
   */
  function GridLine(startLat: real, startLon: real, s: real, i: nat): GeoSegment
    requires i < 2 * LinesPerAxis
  {
    var span := s * LinesPerAxis as real;
    if i < LinesPerAxis then
      var lat := startLat + i as real * s;
      GeoSegment(GeoPosition(lat, startLon, 0.0), GeoPosition(lat, startLon + span, 0.0))
    else
      var lon := startLon + (i - LinesPerAxis) as real * s;
      GeoSegment(GeoPosition(startLat, lon, 0.0), GeoPosition(startLat + span, lon, 0.0))
  }

  /**
   * The first twelve lines are parallels, the next twelve meridians; each
   * lies inside the square of side twelve spacings at the start, and no two
   * of the 24 lines coincide.
   */
  lemma GridLinesShape(startLat: real, startLon: real, s: real)
    requires s > 0.0
    ensures forall i :: 0 <= i < LinesPerAxis ==>
      GridLine(startLat, startLon, s, i).from.latitude == GridLine(startLat, startLon, s, i).to.latitude
    ensures forall i :: LinesPerAxis <= i < 2 * LinesPerAxis ==>
      GridLine(startLat, startLon, s, i).from.longitude == GridLine(startLat, startLon, s, i).to.longitude
    ensures forall i :: 0 <= i < 2 * LinesPerAxis ==>
      InSquare(GridLine(startLat, startLon, s, i), startLat, startLon, s)
    ensures forall i, j :: 0 <= i < j < 2 * LinesPerAxis ==>
      GridLine(startLat, startLon, s, i) != GridLine(startLat, startLon, s, j)
  {
    forall i | 0 <= i < 2 * LinesPerAxis
      ensures InSquare(GridLine(startLat, startLon, s, i), startLat, startLon, s)
    {
      GridLineInSquare(startLat, startLon, s, i);
    }
    forall i, j | 0 <= i < j < 2 * LinesPerAxis
      ensures GridLine(startLat, startLon, s, i) != GridLine(startLat, startLon, s, j)
    {
      GridLinesDiffer(startLat, startLon, s, i, j);
    }
  }

  lemma GridLineInSquare(startLat: real, startLon: real, s: real, i: nat)
    requires s > 0.0 && i < 2 * LinesPerAxis
    ensures InSquare(GridLine(startLat, startLon, s, i), startLat, startLon, s)
  {
    var span := s * LinesPerAxis as real;
    assert span > 0.0;
    var k := if i < LinesPerAxis then i else i - LinesPerAxis;
    MulBelow(k, s);
    var offset := k as real * s;
    assert 0.0 <= offset <= span;
    if i < LinesPerAxis {
      assert GridLine(startLat, startLon, s, i) == GeoSegment(
        GeoPosition(startLat + offset, startLon, 0.0), GeoPosition(startLat + offset, startLon + span, 0.0));
    } else {
      assert GridLine(startLat, startLon, s, i) == GeoSegment(
        GeoPosition(startLat, startLon + offset, 0.0), GeoPosition(startLat + span, startLon + offset, 0.0));
    }
  }

  lemma GridLinesDiffer(startLat: real, startLon: real, s: real, i: nat, j: nat)
    requires s > 0.0 && i < j < 2 * LinesPerAxis
    ensures GridLine(startLat, startLon, s, i) != GridLine(startLat, startLon, s, j)
  {
    if j < LinesPerAxis {
      MulStrict(i, j, s);
    } else if LinesPerAxis <= i {
      MulStrict(i - LinesPerAxis, j - LinesPerAxis, s);
    } else {
      MulBelow(i, s);
    }
  }

  /** Both endpoints inside the square of side twelve spacings at the start. */
  ghost predicate InSquare(seg: GeoSegment, startLat: real, startLon: real, s: real) {
    && Inside(seg.from, startLat, startLon, s)
    && Inside(seg.to, startLat, startLon, s)
  }

  ghost predicate Inside(p: GeoPosition, startLat: real, startLon: real, s: real) {
    && startLat <= p.latitude <= startLat + s * LinesPerAxis as real
    && startLon <= p.longitude <= startLon + s * LinesPerAxis as real
  }

  lemma MulBelow(k: nat, s: real)
    requires k < LinesPerAxis && s > 0.0
    ensures 0.0 <= k as real * s < s * LinesPerAxis as real
  {
  }

  lemma MulStrict(a: nat, b: nat, s: real)
    requires a < b && s > 0.0
    ensures a as real * s < b as real * s
  {
  }
}
