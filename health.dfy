/**
 * The health index: the statistics API's per-country records keyed by ISO3
 * code (js/map.js, loadGeoJSON's `healthMap` built with `forEach`).
 */
module Health {

  /** The counts kept for one country. */
  datatype HealthRecord = HealthRecord(cases: int, deaths: int, recovered: int)

  /** One element of the statistics API's array: `countryInfo.iso3` and its counts. */
  datatype CountryStat = CountryStat(iso3: string, health: HealthRecord)

  /** The record a feature gets when its ISO3 code has no entry. */
  const ZeroRecord := HealthRecord(0, 0, 0)

  /**
   * The index after assigning the records in order: each assignment
   * overwrites whatever an earlier record with the same code stored.
   */
  function HealthMapOf(records: seq<CountryStat>): map<string, HealthRecord>
  {
    if records == [] then map[]
    else
      var last := records[|records| - 1];
      HealthMapOf(records[..|records| - 1])[last.iso3 := last.health]
  }

  /** The ISO3 codes that occur in `records`. */
  function Codes(records: seq<CountryStat>): set<string>
  {
    set r | r in records :: r.iso3
  }

  /** `records[i]` is the last record carrying its ISO3 code. */
  predicate IsLastOccurrence(records: seq<CountryStat>, i: int)
  {
    0 <= i < |records| &&
    forall j :: i < j < |records| ==> records[j].iso3 != records[i].iso3
  }

  /** Every ISO3 code of the input is a key, and nothing else is. */
  lemma {:induction false} HealthMapKeys(records: seq<CountryStat>)
    ensures HealthMapOf(records).Keys == Codes(records)
  {
    if records != [] {
      var front := records[..|records| - 1];
      HealthMapKeys(front);
      assert records == front + [records[|records| - 1]];
      assert Codes(records) == Codes(front) + {records[|records| - 1].iso3};
    }
  }

  /** A code's value is the record of its last occurrence. */
  lemma {:induction false} HealthMapLastWins(records: seq<CountryStat>, i: int)
    requires IsLastOccurrence(records, i)
    ensures records[i].iso3 in HealthMapOf(records)
    ensures HealthMapOf(records)[records[i].iso3] == records[i].health
  {
    var n := |records|;
    if i < n - 1 {
      var front := records[..n - 1];
      assert IsLastOccurrence(front, i);
      HealthMapLastWins(front, i);
    }
  }

  /** Every key stored comes from the last record carrying it. */
  lemma HealthMapValueIsLast(records: seq<CountryStat>, code: string)
    requires code in HealthMapOf(records)
    ensures exists i :: IsLastOccurrence(records, i) && records[i].iso3 == code &&
                        HealthMapOf(records)[code] == records[i].health
  {
    HealthMapKeys(records);
    assert code in Codes(records);
    var k :| 0 <= k < |records| && records[k].iso3 == code;
    var i := LastIndexFrom(records, k);
    HealthMapLastWins(records, i);
  }

  /** The index of the last record with the code of `records[k]`, searching from `k`. */
  ghost function LastIndexFrom(records: seq<CountryStat>, k: int): (i: int)
    requires 0 <= k < |records|
    ensures k <= i && IsLastOccurrence(records, i) && records[i].iso3 == records[k].iso3
    decreases |records| - k
  {
    if forall j :: k < j < |records| ==> records[j].iso3 != records[k].iso3 then k
    else
      var j :| k < j < |records| && records[j].iso3 == records[k].iso3;
      LastIndexFrom(records, j)
  }

  /**
   * Builds the index the way the source does: one assignment per record,
   * in array order.
   */
  method BuildHealthMap(records: seq<CountryStat>) returns (m: map<string, HealthRecord>)
    ensures m == HealthMapOf(records)
    ensures m.Keys == Codes(records)
    ensures forall i :: IsLastOccurrence(records, i) ==> m[records[i].iso3] == records[i].health
  {
    m := map[];
    var i := 0;
    while i < |records|
      invariant 0 <= i <= |records|
      invariant m == HealthMapOf(records[..i])
    {
      assert records[..i + 1][..i] == records[..i];
      m := m[records[i].iso3 := records[i].health];
      i := i + 1;
    }
    assert records[..i] == records;
    HealthMapKeys(records);
    forall i | IsLastOccurrence(records, i)
      ensures m[records[i].iso3] == records[i].health
    {
      HealthMapLastWins(records, i);
    }
  }
}
