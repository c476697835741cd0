/**
 * Loading the map data (js/map.js, loadGeoJSON): the health fetch, the
 * bounded geometry retry with a primary and a backup URL, the merge, and
 * the rendering of the merged features.
 */
module Loader {
  import opened Health
  import opened Features
  import opened Styles
  import opened MapView

  const PrimaryUrl := "https://raw.githubusercontent.com/datasets/geo-countries/master/data/countries.geojson"
  const BackupUrl := "https://datahub.io/core/geo-countries/r/countries.geojson"

  /** The number of attempts loadGeoJSON makes when called without an argument. */
  const DefaultRetryCount: int := 3

  /** The outcome of the health fetch: the parsed records, or any failure (HTTP status, network, parse). */
  datatype HealthFetch = HealthOk(records: seq<CountryStat>) | HealthFailed

  /** The outcome of one geometry attempt. */
  datatype FetchOutcome =
    | GeoJson(features: seq<Props>)   // an OK response whose body has `features`
    | HttpError(status: int)           // a response that is not OK
    | NoFeatures                       // an OK response whose body is empty or lacks `features`

  /** How the load ends: features rendered from a given attempt, or the error state with its retry button. */
  datatype LoadResult = Rendered(attempt: nat) | Failed

  /** The geometry URLs fetched in order, the 1-second waits made, and how the load ended. */
  datatype LoadReport = LoadReport(requested: seq<string>, backoffs: nat, result: LoadResult)

  /** The URL of attempt `i`: the primary on the first attempt, the backup on every later one. */
  function UrlFor(i: nat): (url: string)
    ensures i == 0 ==> url == PrimaryUrl
    ensures i > 0 ==> url == BackupUrl
    ensures url == PrimaryUrl <==> i == 0
  {
    if i == 0 then PrimaryUrl else BackupUrl
  }

  /** The URLs of the first `n` attempts. */
  function UrlsUpTo(n: nat): (urls: seq<string>)
    ensures |urls| == n && forall j :: 0 <= j < n ==> urls[j] == UrlFor(j)
    ensures n > 0 ==> urls[0] == PrimaryUrl
    ensures forall j :: 1 <= j < n ==> urls[j] == BackupUrl
  {
    seq(n, j requires 0 <= j => UrlFor(j))
  }

  /** The attempts still allowed from attempt `i` on, when `retryCount` attempts are allowed in all. */
  function Remaining(i: nat, retryCount: int): nat
  {
    if retryCount <= i then 0 else retryCount - i
  }

  /**
   * The retry policy from attempt `i` on: attempt while attempts remain,
   * stop at the first response with features, wait once after each failure.
   */
  function RetryFrom(i: nat, retryCount: int, responses: seq<FetchOutcome>): (r: LoadReport)
    requires retryCount <= |responses|
    ensures |r.requested| == r.backoffs + (if r.result.Rendered? then 1 else 0)
    ensures |r.requested| <= Remaining(i, retryCount)
    ensures forall j :: 0 <= j < |r.requested| ==> r.requested[j] == UrlFor(i + j)
    ensures r.result.Rendered? ==>
      && i <= r.result.attempt < retryCount
      && responses[r.result.attempt].GeoJson?
      && (forall j :: i <= j < r.result.attempt ==> !responses[j].GeoJson?)
      && |r.requested| == r.result.attempt - i + 1
    ensures r.result.Failed? ==>
      && (forall j :: i <= j < retryCount ==> !responses[j].GeoJson?)
      && |r.requested| == Remaining(i, retryCount)
    decreases Remaining(i, retryCount)
  {
    if retryCount <= i then LoadReport([], 0, Failed)
    else if responses[i].GeoJson? then LoadReport([UrlFor(i)], 0, Rendered(i))
    else
      var rest := RetryFrom(i + 1, retryCount, responses);
      LoadReport([UrlFor(i)] + rest.requested, rest.backoffs + 1, rest.result)
  }

  /** The whole load: a failed health fetch ends in the error state before any geometry attempt. */
  function LoadPlan(health: HealthFetch, retryCount: int, responses: seq<FetchOutcome>): (r: LoadReport)
    requires retryCount <= |responses|
    ensures health.HealthFailed? ==> r == LoadReport([], 0, Failed)
    ensures r.result.Rendered? ==> health.HealthOk? && r.result.attempt < retryCount && responses[r.result.attempt].GeoJson?
    ensures health.HealthOk? && (exists j :: 0 <= j < retryCount && responses[j].GeoJson?) ==> r.result.Rendered?
  {
    if health.HealthFailed? then LoadReport([], 0, Failed) else RetryFrom(0, retryCount, responses)
  }

  /** Skipping `i` failed attempts: the plan is those attempts' URLs and waits followed by the plan from attempt `i`. */
  lemma {:induction false} RetrySkipsFailures(i: nat, retryCount: int, responses: seq<FetchOutcome>)
    requires retryCount <= |responses|
    requires i <= Remaining(0, retryCount)
    requires forall j :: 0 <= j < i ==> !responses[j].GeoJson?
    ensures var rest := RetryFrom(i, retryCount, responses);
      RetryFrom(0, retryCount, responses) ==
        LoadReport(UrlsUpTo(i) + rest.requested, i + rest.backoffs, rest.result)
  {
    if i > 0 {
      RetrySkipsFailures(i - 1, retryCount, responses);
      var rest := RetryFrom(i, retryCount, responses);
      assert RetryFrom(i - 1, retryCount, responses) ==
        LoadReport([UrlFor(i - 1)] + rest.requested, rest.backoffs + 1, rest.result);
      UrlsUpToExtend(i - 1);
      assert UrlsUpTo(i - 1) + ([UrlFor(i - 1)] + rest.requested) ==
        (UrlsUpTo(i - 1) + [UrlFor(i - 1)]) + rest.requested;
    }
  }

  /** One more attempt appends its URL. */
  lemma UrlsUpToExtend(n: nat)
    ensures UrlsUpTo(n) + [UrlFor(n)] == UrlsUpTo(n + 1)
  {
    assert forall j :: 0 <= j < n + 1 ==> (UrlsUpTo(n) + [UrlFor(n)])[j] == UrlsUpTo(n + 1)[j];
  }

  /** Primary fails, backup succeeds: rendered from the second of three attempts after exactly one wait. */
  lemma BackupRescuesLoad(records: seq<CountryStat>, fs: seq<Props>, status: int, third: FetchOutcome)
    ensures LoadPlan(HealthOk(records), DefaultRetryCount, [HttpError(status), GeoJson(fs), third]) ==
      LoadReport([PrimaryUrl, BackupUrl], 1, Rendered(1))
  {
  }

  /** Every default attempt failing ends in the error state after three fetches and three waits, nothing rendered. */
  lemma DefaultAttemptsExhausted(records: seq<CountryStat>, a: FetchOutcome, b: FetchOutcome, c: FetchOutcome)
    requires !a.GeoJson? && !b.GeoJson? && !c.GeoJson?
    ensures LoadPlan(HealthOk(records), DefaultRetryCount, [a, b, c]) ==
      LoadReport([PrimaryUrl, BackupUrl, BackupUrl], 3, Failed)
  {
  }

  /**
   * The success path of one attempt: merge the health data into the
   * features in place, render them as a new layer, and apply the `all` filter.
   */
  method RenderFeatures(state: MapViewState, features: seq<Props>,
                        healthMap: map<string, HealthRecord>, darkMode: bool)
    requires state.Valid()
    modifies state
    ensures state.Valid()
    ensures state.geojsonLayer != null && fresh(state.geojsonLayer)
    ensures state.geojsonLayer.properties == MergedAll(features, healthMap)
    ensures state.currentRiskFilter == "all"
    ensures forall j :: 0 <= j < state.geojsonLayer.styles.Length ==>
      state.geojsonLayer.styles[j] == ApplyStyle(LayerStyle(state.geojsonLayer.properties[j]), AllPatch)
  {
    var data := new Props[|features|](j requires 0 <= j < |features| => features[j]);
    assert data[..] == features;
    MergeHealth(data, healthMap);
    var layer := new GeoJsonLayer(data[..]);
    state.geojsonLayer := layer;
    state.FilterCountries("all", darkMode);
  }

  /**
   * loadGeoJSON: fetch the health data, build the index, then make up to
   * `retryCount` geometry attempts; on the first response with features,
   * merge, render a new layer and apply the `all` filter.
   */
  method LoadGeoJSON(state: MapViewState, retryCount: int, health: HealthFetch,
                     responses: seq<FetchOutcome>, darkMode: bool) returns (report: LoadReport)
    requires state.Valid()
    requires retryCount <= |responses|
    modifies state
    ensures state.Valid()
    ensures report == LoadPlan(health, retryCount, responses)
    ensures report.result.Failed? ==>
      state.geojsonLayer == old(state.geojsonLayer) && state.currentRiskFilter == old(state.currentRiskFilter)
    ensures report.result.Rendered? ==>
      && health.HealthOk?
      && state.geojsonLayer != null && fresh(state.geojsonLayer)
      && state.geojsonLayer.properties ==
           MergedAll(responses[report.result.attempt].features, HealthMapOf(health.records))
      && state.currentRiskFilter == "all"
      && forall j :: 0 <= j < state.geojsonLayer.styles.Length ==>
           state.geojsonLayer.styles[j] == ApplyStyle(LayerStyle(state.geojsonLayer.properties[j]), AllPatch)
  {
    report := LoadReport([], 0, Failed);
    if health.HealthFailed? {
      return;
    }
    var healthMap := BuildHealthMap(health.records);
    var requested: seq<string> := [];
    var backoffs: nat := 0;
    var i: nat := 0;
    while i < retryCount
      invariant i <= Remaining(0, retryCount)
      invariant requested == UrlsUpTo(i) && backoffs == i
      invariant forall j :: 0 <= j < i ==> !responses[j].GeoJson?
      invariant state.geojsonLayer == old(state.geojsonLayer)
      invariant state.currentRiskFilter == old(state.currentRiskFilter)
      decreases retryCount - i
    {
      requested := requested + [UrlFor(i)];
      var outcome := responses[i];
      if outcome.GeoJson? {
        RenderFeatures(state, outcome.features, healthMap, darkMode);
        report := LoadReport(requested, backoffs, Rendered(i));
        RetrySkipsFailures(i, retryCount, responses);
        return;
      }
      backoffs := backoffs + 1;
      i := i + 1;
    }
    report := LoadReport(requested, backoffs, Failed);
    RetrySkipsFailures(i, retryCount, responses);
  }
}
