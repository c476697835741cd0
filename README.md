# Risk map data layer

A model, in Dafny, of the data-derivation layer of an interactive world map that
colours countries by COVID-19 case counts (`js/map.js`). The map widget, the
network and the page are left aside. What is modelled is the logic that decides
what the map shows:

- **Health index** (`Health`): the statistics API's records become a map from ISO3
  code to `{cases, deaths, recovered}`. Records are assigned in order, so a later
  record with the same code overwrites an earlier one.
- **Feature merge and risk tiers** (`Risk`, `Features`): each geometry feature's
  `properties` gets the counts of its ISO3 code, or zeros when the code has no record,
  and a `riskLevel` of `high` (more than 1,000,000 cases), `medium` (more than 50,000)
  or `low`. The feature array is updated slot by slot, in place.
- **Styles** (`Styles`): the layer's `style` callback steps the case count through
  six breakpoints onto seven fill colours. `getCountryStyle` maps a tier name to a
  colour, with a grey fallback. Leaflet's `setStyle` is modelled as merging a partial
  style record into a layer's current style.
- **Map state and risk filter** (`MapView`): the mutable map state holds the rendered
  layer and the current filter. `filterCountries` records the filter and then restyles
  every sub-layer in turn. `all` gives full opacity. A tier emphasises the sub-layers of
  that tier and dims the rest. With no layer, nothing changes.
- **Loader and retry policy** (`Loader`): the health fetch happens first. If it fails,
  the load ends in the error state with no geometry attempt. Otherwise up to
  `retryCount` geometry attempts are made (3 by default). Attempt 0 uses the primary
  URL and every later attempt uses the backup. The first response that has `features`
  is merged and rendered, and the `all` filter is applied to it. A failed attempt is
  followed by one wait. If every attempt fails, the load ends in the error state with a
  manual retry button. The network is an input: the health fetch's outcome and one
  outcome per attempt.
- **Date line** (`DateLine`): when a country is clicked, the bounds to fit are a fixed
  box for the United States. For any other country they are its own bounds; when the
  west edge lies east of the east edge, the east edge is moved 360 degrees east.

The colour step function has six breakpoints and seven colours.

After a tier filter, the `all` filter resets only opacity and fill opacity. The border
weight, colour and dash pattern an emphasised layer received stay in place;
`MapView.FilterEffect` states this.

## Model

| member | source | states |
|---|---|---|
| `Risk.Tier` | js/map.js:94-100 | `high` iff cases > 1000000, `medium` iff 50000 < cases <= 1000000, `low` iff cases <= 50000 |
| `Risk.TierName` | js/map.js:95-99 | the name stored for a tier reads back as that same tier, so the three names are distinct |
| `Risk.ParseTier` | js/map.js:94-100 | exactly the strings `low`, `medium` and `high` name a tier |
| `Risk.ParseTierOnlyNames` | js/map.js:94-100 | a string that reads back as a tier is that tier's stored name |
| `Risk.TierMonotone` | js/map.js:94-100 | a larger case count never gives a less severe tier |
| `Risk.TierBoundaries` | js/map.js:94-100 | exactly 50000 is low, 50001 medium, exactly 1000000 medium, 1000001 high |
| `Health.BuildHealthMap` | js/map.js:65-72 | the index built record by record has exactly the input's ISO3 codes as keys, and each code holds the record of its last occurrence |
| `Health.HealthMapKeys` | js/map.js:65-72 | the keys of the index are exactly the ISO3 codes of the input |
| `Health.HealthMapLastWins` | js/map.js:66-72 | the record of the last occurrence of a code is the value stored for it |
| `Health.HealthMapValueIsLast` | js/map.js:66-72 | every stored value comes from the last record carrying its key |
| `Features.HealthFor` | js/map.js:87-88 | a feature joins with its ISO3 code's record, and with zero counts when the code has none |
| `Features.Merged` | js/map.js:87-100 | the merge writes the joined cases, deaths and recovered; every other property, the ISO3 code included, is unchanged, and only the four merged keys are added |
| `Features.MergedTierConsistent` | js/map.js:89-100 | after the merge the stored `riskLevel` is the tier of the stored case count |
| `Features.MergedWithoutRecord` | js/map.js:87-99 | a feature with no record gets cases = deaths = recovered = 0 and `riskLevel` `low` |
| `Features.MergedIdempotent` | js/map.js:86-100 | merging a merged feature again with the same index changes nothing |
| `Features.MergedAll` | js/map.js:86-104 | the merge keeps the feature count and order, merging each feature on its own |
| `Features.MergeHealth` | js/map.js:86-104 | updating the feature array in place, slot by slot, leaves exactly the merged features in the original order |
| `Styles.ApplyStyle` | js/map.js:274 | a style update sets each of the six fields the record carries and keeps every field it does not carry |
| `Styles.FillColor` | js/map.js:108-117 | the fill colour is one of the seven palette colours; `#800026` iff the tier is `high`; `#FFEDA0` iff cases <= 1000 |
| `Styles.FillColorIsShade` | js/map.js:111-117 | the step function picks the palette entry indexed by the number of breakpoints the count exceeds |
| `Styles.FillColorMonotone` | js/map.js:111-117 | a larger case count never maps to a lighter colour |
| `Styles.FillColorRefinesTier` | js/map.js:111-117 | the three middle colours are exactly the `medium` tier and the three lightest exactly the `low` tier |
| `Styles.FeatureStyle` | js/map.js:108-126 | a newly rendered feature is filled with the step-function colour of its case count, with opacity 1, fill opacity 0.7 and a white dashed (`3`) border of weight 1 |
| `Styles.TierFillColor` | js/map.js:162-166 | each tier name has its own colour, and `#90a4ae` is used iff the name is no tier |
| `Styles.CountryStyle` | js/map.js:155-167 | the tier's fill colour with a solid `#fff` border of weight 1.5, opacity 0.8 and fill opacity 0.7 |
| `MapView.LayerStyle` | js/map.js:108-110 | the style callback colours a feature by its numeric `cases` property |
| `MapView.HighlightColor` | js/map.js:264 | the highlight colour is white in dark mode and black otherwise |
| `MapView.FilterPatch` | js/map.js:268-272 | the record never sets the fill colour and always sets both opacities; `all` sets no border field; a tier sets the border and gives fill opacity 0.9 exactly to layers of that tier |
| `MapView.FilterEffect` | js/map.js:266-274 | `all` gives opacity 1 and fill opacity 0.7 and keeps the border; a tier gives layers of that tier opacity 1, fill opacity 0.9 and a solid highlight border of weight 2, and the rest opacity 0.2, fill opacity 0.1 and a white dashed border of weight 1; the fill colour is never changed |
| `MapView.FilterMatchesMergedTier` | js/map.js:267-271 | on merged features, a tier filter emphasises exactly the features whose case count gives that tier |
| `MapView.GeoJsonLayer.constructor` | js/map.js:107-130 | the rendered layer has one sub-layer per feature, each styled by the style callback |
| `MapView.MapViewState.FilterCountries` | js/map.js:260-275 | with no layer nothing changes; otherwise the filter is recorded and every sub-layer's style is updated with the record the filter and its tier choose |
| `Loader.UrlFor` | js/map.js:79 | an attempt uses the primary URL iff it is attempt 0, and the backup URL otherwise |
| `Loader.UrlsUpTo` | js/map.js:77-79 | of the first n attempts, the first fetches the primary URL and every later one the backup |
| `Loader.RetryFrom` | js/map.js:77-141 | at most the remaining attempts are made; attempt k fetches `UrlFor(k)`, the primary URL only for attempt 0; the first response with features ends the attempts and is the one rendered; otherwise every attempt failed; one wait follows each failure |
| `Loader.LoadPlan` | js/map.js:58-151 | a failed health fetch makes no attempt and ends in the error state; a load is rendered iff the health fetch succeeded and some allowed attempt returns features |
| `Loader.RetrySkipsFailures` | js/map.js:77-141 | after a run of failed attempts the load goes on as if started at the next attempt, with those attempts' URLs and waits in front |
| `Loader.BackupRescuesLoad` | js/map.js:49-141 | with the default three attempts, primary failing and backup succeeding renders from the second attempt after exactly one wait |
| `Loader.DefaultAttemptsExhausted` | js/map.js:49-151 | with the default three attempts all failing, the primary and then the backup twice are fetched, three waits are made and the load ends in the error state |
| `Loader.RenderFeatures` | js/map.js:86-134 | on success a fresh layer holds the merged features, the filter is `all`, and every sub-layer has its colour at full opacity |
| `Loader.LoadGeoJSON` | js/map.js:49-152 | the load follows the retry policy; on failure the rendered layer and the filter are unchanged; on success the new layer holds the merged features of the first good response under the `all` filter |
| `DateLine.CrossesDateLine` | js/map.js:235 | a crossing box on the world map has its east edge less than a full turn east of its west edge once moved 360 degrees east |
| `DateLine.AdjustedBounds` | js/map.js:235-242 | a crossing moves only the east edge, by 360 degrees; bounds that do not cross are fitted unchanged |
| `DateLine.AdjustedBoundsOrdered` | js/map.js:235-242 | for bounds on the world map, the fitted bounds never cross and span at most 360 degrees |
| `DateLine.DateLineExample` | js/map.js:235-242 | west 170, east -170 crosses the date line, and the adjusted east edge is 190 |
| `DateLine.FitTargetFor` | js/map.js:219-242 | the fixed box iff the country is named "United States of America" or "United States"; otherwise the adjusted bounds of the country |

## Left out

- Map construction (`initMap`), the tile layer, the canvas renderer, `fitBounds`, tooltips and Leaflet's own `setStyle` and `resetStyle`: they belong to the mapping library. `setStyle` is modelled as a record merge into an array slot.
- `fetch`, JSON parsing, HTTP status checks and the 1-second `setTimeout`: network I/O and timing. The health fetch is a `HealthFetch` value, each geometry attempt's outcome is an element of `responses`, and a wait is only counted.
- Loader.LoadGeoJSON: requires one outcome for each attempt that may be made (`retryCount <= |responses|`). This is a property of the modelled network, not a demand the source makes of its callers.
- The loading indicator's text and `innerHTML`, the info panel, `updateInfoPanel` and `updateNewsPanel`: DOM output. `Failed` stands for the error state with its retry button. The dark-mode lookup is a boolean parameter.
- The click handler's style reset and highlight and its info-panel text: DOM and Leaflet styling. Only its choice of bounds is modelled, with the display name as a parameter.
- The zoom cap `min(6, max(2, 10 - log2(area)))`: floating-point logarithm.
- `loadHealthEvents`: it rebuilds the health index and discards it, so it has no observable effect.
- `console.log` and `console.error`: diagnostics only.
- JavaScript property coercion: a feature whose ISO3 property is missing or not a string is treated as having no record. The source would look up the key `"undefined"` or the number's string. A record whose `iso3` is `null` would be stored under `"null"`. Keys inherited from `Object.prototype` (such as `constructor`) are not modelled in the health index or in `getCountryStyle`'s colour table.
- MapView.LayerStyle: a `cases` property that is not a number gets the lightest colour. JavaScript would compare a numeric string as a number. After the merge `cases` is always a number.
- Counts are unbounded integers: JavaScript's double-precision numbers, `NaN` and fractional counts are not modelled.
- Exceptions thrown during an attempt by the merge or by the mapping library, which the source catches and retries, are not modelled. A malformed health record that would make the index build throw is not modelled either.
- Feature objects and their aliasing: each feature is its `properties` value in an array slot, and geometry is not modelled because the core never reads or writes it. The mapping library's skipping of features without geometry is not modelled: the model has one sub-layer per feature.
- The previous layer stays on the map after a successful reload, and overlapping reloads are unguarded. Both belong to the mapping library and the event loop.
- `window.state` is created in `init.js`, which is not part of this model. `MapView.MapViewState.constructor` takes the initial filter as a parameter.
