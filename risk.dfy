/**
 * Risk tiers derived from a country's case count (js/map.js, the tiering
 * inside loadGeoJSON's feature loop).
 */
module Risk {
  import opened Wrappers

  datatype RiskLevel = Low | Medium | High

  /** Case counts strictly above this are `high`. */
  const HighThreshold: int := 1000000
  /** Case counts strictly above this (and not high) are `medium`. */
  const MediumThreshold: int := 50000

  /** The tier assigned to a feature with `cases` cases. */
  function Tier(cases: int): (t: RiskLevel)
    ensures t == High <==> cases > HighThreshold
    ensures t == Medium <==> MediumThreshold < cases <= HighThreshold
    ensures t == Low <==> cases <= MediumThreshold
  {
    if cases > HighThreshold then High
    else if cases > MediumThreshold then Medium
    else Low
  }

  /** The string the source stores in `properties.riskLevel`; it reads back as the same tier. */
  function TierName(t: RiskLevel): (name: string)
    ensures ParseTier(name) == Some(t)
  {
    match t
    case Low => "low"
    case Medium => "medium"
    case High => "high"
  }

  /** Reads a tier back from its stored name; anything else is no tier. */
  function ParseTier(s: string): (r: Option<RiskLevel>)
    ensures r.None? <==> s !in {"low", "medium", "high"}
  {
    if s == "low" then Some(Low)
    else if s == "medium" then Some(Medium)
    else if s == "high" then Some(High)
    else None
  }

  /** Severity order: low < medium < high. */
  function Rank(t: RiskLevel): nat
  {
    match t
    case Low => 0
    case Medium => 1
    case High => 2
  }

  /** Only a tier's stored name reads back as that tier. */
  lemma ParseTierOnlyNames(s: string, t: RiskLevel)
    requires ParseTier(s) == Some(t)
    ensures TierName(t) == s
  {
  }

  /** A larger case count never gives a less severe tier. */
  lemma TierMonotone(c1: int, c2: int)
    requires c1 <= c2
    ensures Rank(Tier(c1)) <= Rank(Tier(c2))
  {
  }

  /** The boundary values: exactly 50000 is low, exactly 1000000 is medium. */
  lemma TierBoundaries()
    ensures Tier(50000) == Low && Tier(50001) == Medium
    ensures Tier(1000000) == Medium && Tier(1000001) == High
  {
  }
}
