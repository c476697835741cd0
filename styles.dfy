/**
 * Style records and colour choices (js/map.js: the `style` callback given
 * to the GeoJSON layer, and getCountryStyle).
 */
module Styles {
  import opened Wrappers
  import opened Risk

  /**
   * A Leaflet path style; an absent field is one the record does not set,
   * so that a partial record can be merged into a layer's current style.
   */
  datatype Style = Style(
    weight: Option<real>,
    opacity: Option<real>,
    color: Option<string>,
    dashArray: Option<string>,
    fillOpacity: Option<real>,
    fillColor: Option<string>)

  /** setStyle: the fields `patch` sets replace those of `current`; the rest stay. */
  function ApplyStyle(current: Style, patch: Style): (s: Style)
    ensures s.weight == if patch.weight.Some? then patch.weight else current.weight
    ensures s.opacity == if patch.opacity.Some? then patch.opacity else current.opacity
    ensures s.color == if patch.color.Some? then patch.color else current.color
    ensures s.dashArray == if patch.dashArray.Some? then patch.dashArray else current.dashArray
    ensures s.fillOpacity == if patch.fillOpacity.Some? then patch.fillOpacity else current.fillOpacity
    ensures s.fillColor == if patch.fillColor.Some? then patch.fillColor else current.fillColor
  {
    Style(
      if patch.weight.Some? then patch.weight else current.weight,
      if patch.opacity.Some? then patch.opacity else current.opacity,
      if patch.color.Some? then patch.color else current.color,
      if patch.dashArray.Some? then patch.dashArray else current.dashArray,
      if patch.fillOpacity.Some? then patch.fillOpacity else current.fillOpacity,
      if patch.fillColor.Some? then patch.fillColor else current.fillColor)
  }

  /** The seven fill colours, lightest first. */
  const Palette: seq<string> :=
    ["#FFEDA0", "#FEB24C", "#FD8D3C", "#FC4E2A", "#E31A1C", "#BD0026", "#800026"]

  /** The case counts a colour step lies strictly above, lowest first. */
  const Breakpoints: seq<int> := [1000, 10000, 50000, 100000, 500000, 1000000]

  /** The fill colour for a case count, as the step function in the layer's `style` callback. */
  function FillColor(cases: int): (c: string)
    ensures c in Palette
    ensures c == "#800026" <==> Tier(cases) == High
    ensures c == "#FFEDA0" <==> cases <= 1000
  {
    if cases > 1000000 then "#800026"
    else if cases > 500000 then "#BD0026"
    else if cases > 100000 then "#E31A1C"
    else if cases > 50000 then "#FC4E2A"
    else if cases > 10000 then "#FD8D3C"
    else if cases > 1000 then "#FEB24C"
    else "#FFEDA0"
  }

  /** How many of `bps` lie strictly below `cases`. */
  function Exceeded(bps: seq<int>, cases: int): (k: nat)
    ensures k <= |bps|
  {
    if bps == [] then 0
    else (if cases > bps[0] then 1 else 0) + Exceeded(bps[1..], cases)
  }

  /** The shade of a case count: 0 is the lightest colour, 6 the darkest. */
  function Shade(cases: int): (k: nat)
    ensures k < |Palette|
  {
    Exceeded(Breakpoints, cases)
  }

  /** Exceeding a breakpoint in an ascending list means exceeding every lower one. */
  lemma {:induction false} ExceededAscending(bps: seq<int>, cases: int, k: nat)
    requires forall i, j :: 0 <= i < j < |bps| ==> bps[i] < bps[j]
    requires k <= |bps|
    requires forall i :: 0 <= i < k ==> cases > bps[i]
    requires forall i :: k <= i < |bps| ==> cases <= bps[i]
    ensures Exceeded(bps, cases) == k
  {
    if bps != [] {
      if k == 0 {
        ExceededAscending(bps[1..], cases, 0);
      } else {
        ExceededAscending(bps[1..], cases, k - 1);
      }
    }
  }

  /** The step function picks the palette entry at the count's shade. */
  lemma FillColorIsShade(cases: int)
    ensures FillColor(cases) == Palette[Shade(cases)]
  {
    var k := if cases > 1000000 then 6
      else if cases > 500000 then 5
      else if cases > 100000 then 4
      else if cases > 50000 then 3
      else if cases > 10000 then 2
      else if cases > 1000 then 1
      else 0;
    ExceededAscending(Breakpoints, cases, k);
  }

  /** A larger count never exceeds fewer breakpoints. */
  lemma {:induction false} ExceededMonotone(bps: seq<int>, c1: int, c2: int)
    requires c1 <= c2
    ensures Exceeded(bps, c1) <= Exceeded(bps, c2)
  {
    if bps != [] {
      ExceededMonotone(bps[1..], c1, c2);
    }
  }

  /** A larger case count never maps to a lighter colour. */
  lemma FillColorMonotone(c1: int, c2: int)
    requires c1 <= c2
    ensures Shade(c1) <= Shade(c2)
    ensures FillColor(c1) == Palette[Shade(c1)] && FillColor(c2) == Palette[Shade(c2)]
  {
    ExceededMonotone(Breakpoints, c1, c2);
    FillColorIsShade(c1);
    FillColorIsShade(c2);
  }

  /** The three middle-dark colours are exactly the `medium` tier. */
  lemma FillColorRefinesTier(cases: int)
    ensures Tier(cases) == Medium <==> FillColor(cases) in {"#BD0026", "#E31A1C", "#FC4E2A"}
    ensures Tier(cases) == Low <==> FillColor(cases) in {"#FD8D3C", "#FEB24C", "#FFEDA0"}
  {
  }

  /** The style the GeoJSON layer gives a feature with `cases` cases when it is created. */
  function FeatureStyle(cases: int): (s: Style)
    ensures s.fillColor == Some(FillColor(cases)) && s.fillColor.value in Palette
    ensures s.opacity == Some(1.0) && s.fillOpacity == Some(0.7)
    ensures s.weight == Some(1.0) && s.color == Some("white") && s.dashArray == Some("3")
  {
    Style(Some(1.0), Some(1.0), Some("white"), Some("3"), Some(0.7), Some(FillColor(cases)))
  }

  /** Fill colour by tier name, `#90a4ae` for anything that names no tier. */
  function TierFillColor(riskLevel: string): (c: string)
    ensures ParseTier(riskLevel) == None <==> c == "#90a4ae"
    ensures ParseTier(riskLevel) == Some(High) <==> c == "#ff4444"
    ensures ParseTier(riskLevel) == Some(Medium) <==> c == "#ffa726"
    ensures ParseTier(riskLevel) == Some(Low) <==> c == "#66bb6a"
  {
    if riskLevel == "high" then "#ff4444"
    else if riskLevel == "medium" then "#ffa726"
    else if riskLevel == "low" then "#66bb6a"
    else "#90a4ae"
  }

  /** getCountryStyle: the fixed border style with the tier's fill colour. */
  function CountryStyle(riskLevel: string): (s: Style)
    ensures s.fillColor == Some(TierFillColor(riskLevel))
    ensures s.weight == Some(1.5) && s.opacity == Some(0.8) && s.fillOpacity == Some(0.7)
    ensures s.color == Some("#fff") && s.dashArray == Some("")
  {
    Style(Some(1.5), Some(0.8), Some("#fff"), Some(""), Some(0.7), Some(TierFillColor(riskLevel)))
  }
}
