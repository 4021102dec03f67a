# CounterUAS MapWidget: verified model

This project models `CounterUAS::MapWidget`, the tactical map view of the counter-UAS console, without its Qt painting. It covers three parts:

- **View state.** A map centre, a zoom dial from 1 to 20 and a ground range derived from the dial. The range is `50000 / 2^((zoom-1)/2.5)` metres, bounded to [100, 50000]. The widget's pixel size is never below 400 x 300.
- **Transforms.**
  - The screen transform between geographic positions and pixels goes through a local metric frame.
  - Panning turns a pixel drag into a latitude/longitude offset.
- **Interaction.**
  - A small state machine for mouse drag, right click and wheel zoom.
  - The track selection.
  - The colour table for track classifications.
  - The placement geometry of the grid, the defended-area rings and the track symbols.

## Modules

| file | module | contents |
|---|---|---|
| `numerics.dfy` | `Numerics` | See below. |
| `geo.dfy` | `Geo` | See below. |
| `view.dfy` | `MapView` | See below. |
| `grid.dfy` | `Grid` | See below. |
| `overlay.dfy` | `Overlay` | See below. |
| `map_widget.dfy` | `Ui` | See below. |

**`numerics.dfy` (`Numerics`)**
- `qBound`, `qMin`, floor, ceiling and exact powers of ten.
- `MathLib`, which stands for the C library's `pow(2, ·)`, `log2`, `log10`, `sin` and `cos`. This is a value of supplied functions.
- The laws of those functions that the proofs may assume. They appear as `requires` only on the lemmas that need them:
  - `Exp2Laws`;
  - `Log10Law`;
  - `TrigLaw`.

**`geo.dfy` (`Geo`)**
- Positions, local metres and screen points.
- `GeoMath` stands for CoordinateUtils: `geoToLocal`, `localToGeo`, `DEG_TO_M_LAT` and `degToMeterLon`.
- Their contracts:
  - `ScalesPositive`;
  - `InverseLaws`.

**`view.dfy` (`MapView`)**
- The view state as a value.
- `zoomToRangeScale` and `rangeScaleToZoom`.
- The zoom update shared by both zoom setters.
- `mapRadius`, `geoToScreen` and `screenToGeo`.
- The centre update of `pan`, and a drag as a sequence of pans.

**`grid.dfy` (`Grid`)**
- The spacing, start and line endpoints of `drawGrid`.

**`overlay.dfy` (`Overlay`)**
- `colorForClassification`.
- Per-track symbol geometry from `drawTracks`.
- The rings of `drawDefendedArea`.

**`map_widget.dfy` (`Ui`)**
- The class `MapWidget`. It holds the header's fields plus `viewRange`, which the implementation reads and writes but the header does not declare.
- Signals that the widget emits are appended to `signals`.
- A call of `update()` sets `repaintRequested`.
- Every method names in its `modifies` frame exactly the fields it assigns. For example, the silent setters cannot touch `signals`.
- The accessors `Center`, `SelectedTrack` and `IsPanEnabled` are reads functions with no other effect.

The external functions are parameters of the model (the `geo` and `math` constants of the widget), so nothing is assumed about them beyond the stated laws. The zoom/range conversions depend only on their argument and on `math`, as static members should.

### Behaviour the code fixes that a reader might expect otherwise

- `selectTrack` assigns the selection and repaints but emits no `trackSelected` signal. The signal is declared, but nothing in `MapWidget.cpp` emits it. `Ui.MapWidget.SelectTrack` leaves `signals` out of its frame.
- The comment at `src/ui/MapWidget.cpp:49` says zoom 20 is about 100 m. The formula gives `50000 / 2^7.6`, about 258 m. `MapView.ZoomDialEnds` proves the range at zoom 20 lies strictly between 100 and 50000, so the 100 m bound never binds on the dial. As a consequence, the ranges from 100 m up to the zoom-20 range all read back as zoom 20 and do not survive the range → zoom → range round trip (`MapView.RangeZoomRoundTripFailsBelowDial`).
- `rangeScaleToZoom` has no guard for a range ≤ 0. A zero range gives `log2(+inf)`, which is bounded to 20. A negative one gives NaN, for which `qBound` returns its lower bound 1. The model writes both cases out.
- `zoomToRangeScale` is bounded whatever `pow` returns. A zero power gives `+inf`, bounded to 50000. A negative power gives a negative quotient, bounded to 100.
- `drawGrid` does not guard `log10` against a non-positive argument. Under the widget's invariant the range is at least 100 m, so the argument is always positive (`Ui.MapWidget.DrawGrid` ensures a positive spacing).
- The geodetic round trip can only restore latitude and longitude. `localToGeo(geoToLocal(p, c), c)` goes through a two-dimensional `QPointF`, so altitude is not carried back. `Geo.InverseLaws` is stated that way, and so is `MapView.GeoScreenRoundTrip`.
- Tracks are kept in a map from id to track. The selection is a separate id and need not be a key of the map.

## Model

| member | source | states |
|---|---|---|
| Numerics.Bound | src/ui/MapWidget.cpp:35 | qBound's result lies in [lo, hi]. It is x itself when x is in range, and the violated bound otherwise. |
| Numerics.MinInt | src/ui/MapWidget.cpp:196 | qMin's result is one of its arguments and at most both. |
| Numerics.MaxInt | src/ui/MapWidget.cpp:12 | The size enforced by the minimum is one of its arguments and at least both. |
| Numerics.Floor | src/ui/MapWidget.cpp:237 | std::floor gives the greatest integer n with n ≤ x < n + 1. |
| Numerics.Ceil | src/ui/MapWidget.cpp:235 | std::ceil gives the least integer n with n - 1 < x ≤ n. |
| Numerics.Pow10 | src/ui/MapWidget.cpp:234 | pow(10, k) is positive for every integer k. |
| Numerics.Pow10Step | src/ui/MapWidget.cpp:234 | 10^(k+1) is 10 · 10^k, also for negative k. |
| MapView.ZoomToRangeScale | src/ui/MapWidget.cpp:50-55 | The range is always in [100, 50000] m, whatever pow returns. |
| MapView.RangeScaleToZoom | src/ui/MapWidget.cpp:58-62 | The zoom is always in [1, 20]. A zero range gives 20 and a negative range gives 1. |
| MapView.WithZoom | src/ui/MapWidget.cpp:34-45 | After the zoom update, the zoom is the bounded argument and the range is zoomToRangeScale of that zoom, so the duality invariant holds. Centre and size are unchanged. |
| MapView.WithZoomStable | src/ui/MapWidget.cpp:34-45 | Setting the zoom the view already has changes nothing. Setting the same zoom twice is the same as setting it once. |
| MapView.RangeBoundInactive | src/ui/MapWidget.cpp:53-54 | On the dial, 2^((zoom-1)/2.5) lies in [1, 256) and the unbounded range lies in (100, 50000]. |
| MapView.ZoomDialEnds | src/ui/MapWidget.cpp:47-55 | Zoom 1 gives exactly 50000 m. Zoom 20 gives a range strictly inside (100, 50000). |
| MapView.ZoomToRangeAntitone | src/ui/MapWidget.cpp:48-55 | A higher zoom never gives a larger range. |
| MapView.ZoomRangeRoundTrip | src/ui/MapWidget.cpp:50-62 | rangeScaleToZoom(zoomToRangeScale(z)) == z for every z on the dial. |
| MapView.RangeZoomRoundTrip | src/ui/MapWidget.cpp:50-62 | zoomToRangeScale(rangeScaleToZoom(r)) == r for every range the dial can produce. |
| MapView.RangeZoomRoundTripFailsBelowDial | src/ui/MapWidget.cpp:49-62 | Every range from 100 m up to, but not including, zoomToRangeScale(20) is read as zoom 20, and zoomToRangeScale(20) is not that range: the reverse round trip fails there. |
| MapView.MapRadius | src/ui/MapWidget.cpp:194-197 | With the 400 x 300 minimum size the radius is at least 130 px. The radius plus the 20 px label margin fits in half of each dimension. |
| MapView.DualIsNonDegenerate | src/ui/MapWidget.cpp:12 | Under the zoom invariant and the minimum size, the range and map radius are positive, so the pixel scale is positive. |
| MapView.CenterAtMiddle | src/ui/MapWidget.cpp:199-211 | geoToScreen maps the view centre to the middle of the widget. |
| MapView.GeoScreenRoundTrip | src/ui/MapWidget.cpp:199-223 | screenToGeo(geoToScreen(p)) has p's latitude and longitude. |
| MapView.ScreenGeoRoundTrip | src/ui/MapWidget.cpp:199-223 | geoToScreen(screenToGeo(s)) == s for every pixel position. |
| MapView.LatPerPixel | src/ui/MapWidget.cpp:66-71 | The degrees of latitude per pixel are positive. |
| MapView.LonPerPixel | src/ui/MapWidget.cpp:66-72 | The degrees of longitude per pixel, at the centre's latitude, are positive. |
| MapView.PanDisplacement | src/ui/MapWidget.cpp:64-78 | pan moves latitude by dy·range/(radius·DEG_TO_M_LAT). It moves longitude by −dx·range/(radius·degToMeterLon(lat)). It keeps altitude, zoom, range and size. A zero delta leaves the view unchanged. |
| MapView.PanThenUnpan | src/ui/MapWidget.cpp:64-78 | pan(d) then pan(−d) restores latitude and altitude exactly. It restores longitude iff dx == 0 or the longitude factor is the same at the shifted latitude. |
| MapView.Dragged | src/ui/MapWidget.cpp:164-173 | A drag through any sequence of pointer samples leaves zoom, range and size unchanged. |
| MapView.DragLatitude | src/ui/MapWidget.cpp:164-173 | Over a drag from `last` through a path, latitude moves by (final y − initial y) times the per-pixel factor. Intermediate samples do not matter. |
| Grid.RawSpacing | src/ui/MapWidget.cpp:230-231 | The raw spacing is a fifth of the range in degrees of latitude, so it is positive for a positive range. |
| Grid.GridSpacing | src/ui/MapWidget.cpp:233-235 | The rounded spacing is positive for a positive range, whatever log10 returns. |
| Grid.SpacingIsNice | src/ui/MapWidget.cpp:233-235 | Under the log10 law, the spacing is c·10^k with 10^k the raw spacing's decade and c a whole number from 1 to 10. It is at least the raw spacing and less than twice it. |
| Grid.DecadeBounds | src/ui/MapWidget.cpp:234 | 10^floor(log10 x) ≤ x < 10·10^floor(log10 x). |
| Grid.GridStartAnchored | src/ui/MapWidget.cpp:237-238 | The start is a whole multiple of the spacing. The centre lies in the sixth cell from it. |
| Grid.GridCoversRange | src/ui/MapWidget.cpp:229-238 | Within eleven cells from the start, the grid spans the centre's latitude minus and plus the range. |
| Grid.GridLinesShape | src/ui/MapWidget.cpp:240-262 | The first 12 lines are parallels and the next 12 meridians. All lie within the square of 12 spacings at the start, and no two coincide. |
| Overlay.ColorForClassification | src/ui/MapWidget.cpp:322-330 | Hostile maps to red, Friendly to cyan, Pending to yellow and Neutral to gray, each iff. Green is exactly the remaining classifications. |
| Overlay.ColorsDistinct | src/ui/MapWidget.cpp:322-330 | No two classifications share a colour. |
| Overlay.TrackGlyphGeometry | src/ui/MapWidget.cpp:283-314 | A track is drawn iff it is not dropped, at geoToScreen of its position, in its class colour. The symbol is 12 px iff selected and 8 px otherwise. A velocity segment appears iff speed > 1. Given sin² + cos² = 1, that segment is speed·0.5 px long. |
| Overlay.DefendedAreaGeometry | src/ui/MapWidget.cpp:265-281 | The rings are centred at the middle of the widget. The warning ring is three times the critical ring. The critical ring fits in the map radius iff the range is at least 500 m. |
| Ui.MapWidget.Zoom | src/ui/MapWidget.h:23 | The zoom read back is always on the dial [1, 20]. |
| Ui.MapWidget.constructor | src/ui/MapWidget.cpp:11-21 | A new widget has the default centre, zoom 15 with its range, pan enabled, not panning, no selection, no tracks and no signals, at no less than 400 x 300. The invariant holds. |
| Ui.MapWidget.Resize | src/ui/MapWidget.cpp:12 | A resize keeps the minimum size and the invariant. |
| Ui.MapWidget.SetCenter | src/ui/MapWidget.cpp:23-27 | Stores pos verbatim and emits centerChanged(pos) once. The rest of the view is unchanged. |
| Ui.MapWidget.SetCenterSilent | src/ui/MapWidget.cpp:29-32 | Makes the same view update as SetCenter and cannot touch the signal log. |
| Ui.MapWidget.SetZoom | src/ui/MapWidget.cpp:34-39 | The view becomes WithZoom of the old view and emits zoomChanged with the bounded zoom. The invariant is kept. |
| Ui.MapWidget.SetZoomSilent | src/ui/MapWidget.cpp:41-45 | Makes the same view update as SetZoom and cannot touch the signal log. |
| Ui.MapWidget.Pan | src/ui/MapWidget.cpp:64-78 | The view becomes Panned of the old view and emits centerChanged with the new centre. |
| Ui.MapWidget.SelectTrack | src/ui/MapWidget.cpp:80-83 | The selection becomes the id verbatim. No signal is emitted. |
| Ui.MapWidget.AddTrack | src/ui/MapWidget.cpp:85-88 | Only a repaint is requested. |
| Ui.MapWidget.UpdateTrack | src/ui/MapWidget.cpp:90-93 | Only a repaint is requested. |
| Ui.MapWidget.RemoveTrack | src/ui/MapWidget.cpp:95-101 | The id leaves the track map. The selection is cleared iff it was that id and is unchanged otherwise. |
| Ui.MapWidget.ClearTracks | src/ui/MapWidget.cpp:103-107 | Both the track map and the selection become empty. |
| Ui.MapWidget.SetPanEnabled | src/ui/MapWidget.h:34-35 | Only the flag changes, and IsPanEnabled() then returns the argument. |
| Ui.MapWidget.MousePress | src/ui/MapWidget.cpp:149-162 | A left press with pan enabled starts a drag at pos and emits nothing. Otherwise, a right press emits mapClicked(screenToGeo(pos)) and any other press changes nothing. |
| Ui.MapWidget.MouseMove | src/ui/MapWidget.cpp:164-173 | While panning, the view becomes Panned by pos − lastPanPos, lastPanPos becomes pos, centerChanged is emitted and the event is accepted. Otherwise nothing changes. |
| Ui.MapWidget.MouseRelease | src/ui/MapWidget.cpp:175-183 | The event is accepted, and panning cleared, exactly on a left release while panning. Otherwise the flag is kept. |
| Ui.MapWidget.Wheel | src/ui/MapWidget.cpp:185-188 | The view becomes WithZoom(zoom + angleDelta.y/120·0.5), as through setZoom, with its signal. |
| Ui.MapWidget.DrawGrid | src/ui/MapWidget.cpp:225-263 | The spacing is positive and there are 24 lines. Line i is the screen projection of grid line i: parallels first, then meridians. |

## Left out

- Painting. QPainter calls, pens, brushes, paintEvent's background, crosshair and range/position text, the diamond polygon and the labels are not modelled. Only their geometry is kept: glyph position, size, pen width and velocity tip, ring radii and grid endpoints.
- The mouse cursor changes (`setCursor`) and `setMouseTracking` are not modelled.
- Qt signal/slot delivery is reduced to an append-only log. `update()` coalescing is reduced to a flag.
- The event objects are reduced to the button and position they carry. Forwarding to the `QWidget` base handlers appears only as `accepted == false` with no state change.
- Floating-point rounding. All arithmetic is over the reals. `pow`, `log2`, `log10`, `sin` and `cos` are supplied functions constrained only by the stated laws. NaN and infinity are written out only where the code's result depends on them (`MapView.RangeScaleToZoom`, `MapView.ZoomToRangeScale`).
- CoordinateUtils (`utils/CoordinateUtils.h`) and the Track types (`core/Track.h`) are not part of this model. They are reached through `Geo.GeoMath` and `Overlay.Track`, the values the widget reads from them.
- Track storage. Nothing in MapWidget.cpp or MapWidget.h populates the track map: `addTrack` and `updateTrack` only repaint. `drawTracks`' iteration over the map is modelled per entry (`Overlay.TrackGlyph`), not as a loop over the hash, whose order Qt leaves unspecified. Null track pointers are not represented.
- MapView.RangeZoomRoundTrip: the range → zoom → range round trip is proved only for ranges from zoomToRangeScale(20), about 258 m, up to 50000 m. The code's zoom-20 range is larger than the 100 m the comments at `src/ui/MapWidget.cpp:49` and `:52` describe, so the ranges in [100, zoomToRangeScale(20)) do not round-trip; `MapView.RangeZoomRoundTripFailsBelowDial` proves the failure for each of them.
- Geo.ScalesPositive: the model assumes `degToMeterLon(lat) > 0` at every latitude, including |lat| ≥ 90, which `setCenter` (which stores any position) and `pan` (which adds latitude without a bound) can reach. A cosine-based factor is zero at the poles and negative beyond, where pan's longitude step divides by zero or reverses. `MapView.LonPerPixel`, `MapView.PanDisplacement` and `MapView.PanThenUnpan` rely on this law, so they do not cover the polar and out-of-range latitudes.
- Geo.InverseLaws: `localToGeo(geoToLocal(p, c), c)` is required to restore latitude and longitude only, not altitude, because the local frame is two-dimensional.
- MapView.GeoScreenRoundTrip: it states latitude and longitude only, for the same reason.
- Grid.GridCoversRange: it states coverage in latitude only. The longitude extent is in degrees of latitude in the code too, and whether it covers the view depends on `degToMeterLon`.
- The widget's size comes from its host layout. The constructor's `w` and `h` and `Resize` stand for it.
