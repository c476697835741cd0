/**
 * The mutable map state and the risk filter (js/map.js: `window.state`,
 * filterCountries).
 */
module MapView {
  import opened Wrappers
  import opened Risk
  import opened Features
  import opened Styles

  /** The style every layer gets under the `all` filter: full opacity. */
  const AllPatch := Style(None, Some(1.0), None, None, Some(0.7), None)

  /** The style of a layer that is not of the chosen tier. */
  const DimmedPatch := Style(Some(1.0), Some(0.2), Some("white"), Some("3"), Some(0.1), None)

  /** The border colour of emphasised layers: white in dark mode, black otherwise. */
  function HighlightColor(darkMode: bool): (c: string)
    ensures c == "#fff" <==> darkMode
    ensures !darkMode ==> c == "#000"
  {
    if darkMode then "#fff" else "#000"
  }

  /** The style of a layer of the chosen tier. */
  function EmphasisPatch(darkMode: bool): Style
  {
    Style(Some(2.0), Some(1.0), Some(HighlightColor(darkMode)), Some(""), Some(0.9), None)
  }

  /** The layer's own tier equals the filter (strict equality on the stored string). */
  predicate MatchesFilter(p: Props, riskLevel: string)
  {
    "riskLevel" in p && p["riskLevel"] == Str(riskLevel)
  }

  /**
   * The style record filterCountries passes to one layer's setStyle: it
   * never sets the fill colour; `all` sets only the opacities, a tier sets
   * the border too and emphasises exactly the layers of that tier.
   */
  function FilterPatch(riskLevel: string, p: Props, darkMode: bool): (r: Style)
    ensures r.fillColor.None? && r.opacity.Some? && r.fillOpacity.Some?
    ensures riskLevel == "all" ==> r.weight.None? && r.color.None? && r.dashArray.None?
    ensures riskLevel != "all" ==>
      r.weight.Some? && r.color.Some? && r.dashArray.Some? &&
      (r.fillOpacity == Some(0.9) <==> MatchesFilter(p, riskLevel))
  {
    if riskLevel == "all" then AllPatch
    else if MatchesFilter(p, riskLevel) then EmphasisPatch(darkMode)
    else DimmedPatch
  }

  /**
   * What the filter does to one layer's style: `all` gives full opacity and
   * leaves the border as it was; a tier gives layers of that tier fill
   * opacity 0.9 and a solid, thicker border in the highlight colour, and the
   * rest fill opacity 0.1 and a thin dashed white border; the fill colour is
   * never touched.
   */
  lemma FilterEffect(current: Style, riskLevel: string, p: Props, darkMode: bool)
    ensures var s := ApplyStyle(current, FilterPatch(riskLevel, p, darkMode));
      && s.fillColor == current.fillColor
      && (riskLevel == "all" ==>
            && s.opacity == Some(1.0) && s.fillOpacity == Some(0.7)
            && s.weight == current.weight && s.color == current.color
            && s.dashArray == current.dashArray)
      && (riskLevel != "all" ==>
            && (s.fillOpacity == Some(0.9) <==> MatchesFilter(p, riskLevel))
            && (s.opacity == Some(1.0) <==> MatchesFilter(p, riskLevel))
            && (MatchesFilter(p, riskLevel) ==>
                  s.weight == Some(2.0) && s.color == Some(HighlightColor(darkMode)) &&
                  s.dashArray == Some(""))
            && (!MatchesFilter(p, riskLevel) ==>
                  s.fillOpacity == Some(0.1) && s.opacity == Some(0.2) &&
                  s.weight == Some(1.0) && s.color == Some("white") && s.dashArray == Some("3")))
  {
  }

  /** On merged features, a tier filter emphasises exactly the features whose case count gives that tier. */
  lemma FilterMatchesMergedTier(p: Props, health: map<string, Health.HealthRecord>, t: RiskLevel)
    ensures var q := Merged(p, health);
      MatchesFilter(q, TierName(t)) <==> Tier(q["cases"].n) == t
  {
    var q := Merged(p, health);
    MergedTierConsistent(p, health);
  }

  /** The rendered GeoJSON layer: one sub-layer per feature, each with its feature's properties and its style. */
  class GeoJsonLayer {
    const properties: seq<Props>
    const styles: array<Style>

    ghost predicate Valid()
    {
      styles.Length == |properties|
    }

    /** L.geoJSON: one sub-layer per feature, styled by the layer's `style` callback. */
    constructor (ps: seq<Props>)
      ensures Valid() && properties == ps && fresh(styles)
      ensures forall i :: 0 <= i < |ps| ==> styles[i] == LayerStyle(ps[i])
    {
      properties := ps;
      styles := new Style[|ps|](i requires 0 <= i < |ps| => LayerStyle(ps[i]));
    }
  }

  /** The `style` callback: colour by the feature's `cases`; a feature without a numeric count compares false at every step. */
  function LayerStyle(p: Props): (s: Style)
    ensures "cases" in p && p["cases"].Num? ==> s == FeatureStyle(p["cases"].n)
  {
    if "cases" in p && p["cases"].Num? then FeatureStyle(p["cases"].n) else FeatureStyle(0)
  }

  /** The process-wide map state: the rendered layer (if any) and the chosen risk filter. */
  class MapViewState {
    var geojsonLayer: GeoJsonLayer?
    var currentRiskFilter: string

    ghost predicate Valid()
      reads this
    {
      geojsonLayer != null ==> geojsonLayer.Valid()
    }

    /** A state with no layer rendered yet. */
    constructor (riskFilter: string)
      ensures Valid() && geojsonLayer == null && currentRiskFilter == riskFilter
    {
      geojsonLayer := null;
      currentRiskFilter := riskFilter;
    }

    /**
     * filterCountries: with no layer nothing changes; otherwise the filter is
     * recorded and each sub-layer's style is updated with the record chosen
     * by the filter and the sub-layer's own tier.
     */
    method FilterCountries(riskLevel: string, darkMode: bool)
      requires Valid()
      modifies this`currentRiskFilter, if geojsonLayer == null then {} else {geojsonLayer.styles}
      ensures Valid() && geojsonLayer == old(geojsonLayer)
      ensures geojsonLayer == null ==> currentRiskFilter == old(currentRiskFilter)
      ensures geojsonLayer != null ==>
        && currentRiskFilter == riskLevel
        && forall i :: 0 <= i < geojsonLayer.styles.Length ==>
             geojsonLayer.styles[i] ==
               ApplyStyle(old(geojsonLayer.styles[i]),
                          FilterPatch(riskLevel, geojsonLayer.properties[i], darkMode))
    {
      if geojsonLayer == null {
        return;
      }
      currentRiskFilter := riskLevel;
      var layer := geojsonLayer;
      var i := 0;
      while i < layer.styles.Length
        invariant 0 <= i <= layer.styles.Length
        invariant currentRiskFilter == riskLevel
        invariant forall j :: 0 <= j < i ==>
          layer.styles[j] == ApplyStyle(old(layer.styles[j]), FilterPatch(riskLevel, layer.properties[j], darkMode))
        invariant forall j :: i <= j < layer.styles.Length ==> layer.styles[j] == old(layer.styles[j])
      {
        layer.styles[i] := ApplyStyle(layer.styles[i], FilterPatch(riskLevel, layer.properties[i], darkMode));
        i := i + 1;
      }
    }
  }
}
