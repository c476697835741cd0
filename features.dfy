/**
 * Joining geometry features with the health index and assigning each its
 * risk tier (js/map.js, loadGeoJSON's `data.features.forEach`).
 */
module Features {
  import opened Wrappers
  import opened Risk
  import opened Health

  /** A property value of a feature: the core reads and writes strings and numbers. */
  datatype PropValue = Str(s: string) | Num(n: int)

  /** A feature's `properties` object. */
  type Props = map<string, PropValue>

  /** The property holding a feature's ISO3 code. */
  const IsoProperty := "ISO3166-1-Alpha-3"

  /** The four properties the merge writes. */
  const MergedKeys: set<string> := {"cases", "deaths", "recovered", "riskLevel"}

  /** The feature's ISO3 code, when it has one. */
  function IsoCode(p: Props): Option<string>
  {
    if IsoProperty in p && p[IsoProperty].Str? then Some(p[IsoProperty].s) else None
  }

  /** The record a feature joins with: its code's entry, or all zeros when there is none. */
  function HealthFor(p: Props, health: map<string, HealthRecord>): (h: HealthRecord)
    ensures IsoCode(p).Some? && IsoCode(p).value in health ==> h == health[IsoCode(p).value]
    ensures !(IsoCode(p).Some? && IsoCode(p).value in health) ==> h == ZeroRecord
  {
    match IsoCode(p)
    case Some(code) => if code in health then health[code] else ZeroRecord
    case None => ZeroRecord
  }

  /**
   * The properties of one feature after the merge: the joined counts and
   * the tier they give are written, and every other property (name, ISO3
   * code, ...) is left as it was.
   */
  function Merged(p: Props, health: map<string, HealthRecord>): (q: Props)
    ensures q.Keys == p.Keys + MergedKeys
    ensures var h := HealthFor(p, health);
      && q["cases"] == Num(h.cases)
      && q["deaths"] == Num(h.deaths)
      && q["recovered"] == Num(h.recovered)
    ensures forall k :: k in p && k !in MergedKeys ==> q[k] == p[k]
    ensures IsoCode(q) == IsoCode(p)
  {
    var h := HealthFor(p, health);
    p["cases" := Num(h.cases)]
     ["deaths" := Num(h.deaths)]
     ["recovered" := Num(h.recovered)]
     ["riskLevel" := Str(TierName(Tier(h.cases)))]
  }

  /** The tier a feature's stored `riskLevel` names, if it names one. */
  function StoredTier(p: Props): Option<RiskLevel>
  {
    if "riskLevel" in p && p["riskLevel"].Str? then ParseTier(p["riskLevel"].s) else None
  }

  /** A feature whose stored tier is the one its stored case count gives. */
  predicate TierConsistent(p: Props)
  {
    "cases" in p && p["cases"].Num? && StoredTier(p) == Some(Tier(p["cases"].n))
  }

  /** After the merge a feature's tier agrees with its case count. */
  lemma MergedTierConsistent(p: Props, health: map<string, HealthRecord>)
    ensures TierConsistent(Merged(p, health))
  {
  }

  /** A feature with no health record gets zero counts and the `low` tier. */
  lemma MergedWithoutRecord(p: Props, health: map<string, HealthRecord>)
    requires IsoCode(p).None? || IsoCode(p).value !in health
    ensures var q := Merged(p, health);
      q["cases"] == Num(0) && q["deaths"] == Num(0) && q["recovered"] == Num(0) &&
      q["riskLevel"] == Str("low")
  {
  }

  /** Merging an already merged feature again with the same index changes nothing. */
  lemma MergedIdempotent(p: Props, health: map<string, HealthRecord>)
    ensures Merged(Merged(p, health), health) == Merged(p, health)
  {
    var q := Merged(p, health);
    assert IsoCode(q) == IsoCode(p);
    assert HealthFor(q, health) == HealthFor(p, health);
    var r := Merged(q, health);
    assert r.Keys == q.Keys;
    forall k | k in r ensures r[k] == q[k] {
    }
  }

  /** The properties of every feature after the merge, in the same order. */
  function MergedAll(ps: seq<Props>, health: map<string, HealthRecord>): (qs: seq<Props>)
    ensures |qs| == |ps|
    ensures forall i :: 0 <= i < |ps| ==> qs[i] == Merged(ps[i], health)
  {
    seq(|ps|, i requires 0 <= i < |ps| => Merged(ps[i], health))
  }

  /**
   * The merge as the source runs it: one feature at a time, each feature's
   * properties overwritten in its own slot.
   */
  method MergeHealth(features: array<Props>, health: map<string, HealthRecord>)
    modifies features
    ensures features[..] == MergedAll(old(features[..]), health)
  {
    var i := 0;
    while i < features.Length
      invariant 0 <= i <= features.Length
      invariant forall j :: 0 <= j < i ==> features[j] == Merged(old(features[j]), health)
      invariant forall j :: i <= j < features.Length ==> features[j] == old(features[j])
    {
      features[i] := Merged(features[i], health);
      i := i + 1;
    }
  }
}
