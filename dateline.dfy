/**
 * Choosing the bounds to fit when a country is clicked (js/map.js,
 * onFeatureClick): the fixed box for the United States, otherwise the
 * country's bounds, shifted a full turn east when they cross the date line.
 */
module DateLine {

  /** A latitude/longitude box in degrees. */
  datatype Bounds = Bounds(south: real, west: real, north: real, east: real)

  /** The contiguous United States, used instead of the country's own bounds. */
  const UsaBounds := Bounds(24.396308, -125.0, 49.384358, -66.93457)

  /** What the map is fitted to. */
  datatype FitTarget = FitUsa(box: Bounds) | FitCountry(bounds: Bounds)

  /** Box whose longitudes lie on the map's [-180, 180] range. */
  predicate OnWorldMap(b: Bounds)
  {
    -180.0 <= b.west <= 180.0 && -180.0 <= b.east <= 180.0
  }

  /**
   * A box crosses the date line when its west edge lies east of its east
   * edge; on the world map its east edge then lies less than a full turn
   * east of the west edge once moved 360 degrees east.
   */
  predicate CrossesDateLine(b: Bounds)
    ensures CrossesDateLine(b) && OnWorldMap(b) ==> b.west <= b.east + 360.0 < b.west + 360.0
  {
    b.west > b.east
  }

  /**
   * The bounds actually fitted: on a crossing the east edge is moved a full
   * turn (360 degrees) east, denoting the same meridian; south, north and
   * west are kept.
   */
  function AdjustedBounds(b: Bounds): (r: Bounds)
    ensures r.south == b.south && r.north == b.north && r.west == b.west
    ensures CrossesDateLine(b) ==> r.east == b.east + 360.0
    ensures !CrossesDateLine(b) ==> r == b
  {
    if CrossesDateLine(b) then Bounds(b.south, b.west, b.north, b.east + 360.0) else b
  }

  /** On the world map, the adjusted box never crosses and spans at most a full turn. */
  lemma AdjustedBoundsOrdered(b: Bounds)
    requires OnWorldMap(b)
    ensures var r := AdjustedBounds(b);
      !CrossesDateLine(r) && 0.0 <= r.east - r.west <= 360.0
  {
  }

  /** The worked example: 170 to -170 crosses, and the east edge becomes 190. */
  lemma DateLineExample(south: real, north: real)
    ensures CrossesDateLine(Bounds(south, 170.0, north, -170.0))
    ensures AdjustedBounds(Bounds(south, 170.0, north, -170.0)).east == 190.0
  {
  }

  /** The fit target for a clicked country with display name `country` and bounds `b`. */
  function FitTargetFor(country: string, b: Bounds): (t: FitTarget)
    ensures (country == "United States of America" || country == "United States") <==> t.FitUsa?
    ensures t.FitUsa? ==> t.box == UsaBounds
    ensures t.FitCountry? ==> t.bounds == AdjustedBounds(b)
  {
    if country == "United States of America" || country == "United States" then FitUsa(UsaBounds)
    else FitCountry(AdjustedBounds(b))
  }
}
