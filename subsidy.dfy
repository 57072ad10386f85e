/**
 * calcSubsidyTotal and cityDistrictMap of components/WorthMove.jsx: which
 * talent-subsidy records apply to a graduate, what they add up to over five
 * years, and the district lists offered per city.
 *
 * The record table and the current year are parameters; the component reads them
 * from subsidy.json and from the clock.
 */
module Subsidy {
  import opened Wrappers
  import opened RealOps

  /** District value that stands for a whole city. */
  const AllDistricts: string := "全部"
  /** The label the district picker may send for a whole city. */
  const AllDistrictsLabel: string := "全部区"
  /** Payment frequencies: paid yearly, paid monthly. */
  const Yearly: string := "年"
  const Monthly: string := "月"

  /** One entry of subsidy.json: who qualifies, for how long after graduating, and the five-year amount. */
  datatype SubsidyRecord = SubsidyRecord(
    city: string, district: string, education: string,
    validYears: int, freq: string, total5Year: real)

  /** What the importer guarantees of every record it writes. */
  predicate ValidRecord(r: SubsidyRecord)
  {
    r.validYears > 0 && (r.freq == Yearly || r.freq == Monthly) && r.total5Year > 0.0
  }

  /**
   * The arguments of calcSubsidyTotal. `gradYear` is the year parsed from the
   * graduation date, None when the date yields none (the code's NaN).
   */
  datatype Query = Query(city: string, district: Option<string>, education: string, gradYear: Option<int>)

  // ------------------------------------------------------------------
  // The match rule
  // ------------------------------------------------------------------

  /** `normDist`: no district, the empty one and 全部区 all mean the whole city. */
  function NormDistrict(district: Option<string>): string
  {
    match district
    case None => AllDistricts
    case Some(d) => if d == AllDistrictsLabel || d == "" then AllDistricts else d
  }

  /** A whole-city request accepts only whole-city records; a district accepts itself and whole-city records. */
  predicate DistrictAccepts(normDist: string, recordDistrict: string)
  {
    if normDist == AllDistricts then recordDistrict == AllDistricts
    else recordDistrict == normDist || recordDistrict == AllDistricts
  }

  /** `diffYear > r.validyears`; with no graduation year the comparison is with NaN and is false. */
  predicate Expired(r: SubsidyRecord, gradYear: Option<int>, currentYear: int)
  {
    match gradYear
    case None => false
    case Some(g) => currentYear - g > r.validYears
  }

  /** `match(r)`. */
  predicate Matches(q: Query, currentYear: int, r: SubsidyRecord)
  {
    r.city == q.city &&
    DistrictAccepts(NormDistrict(q.district), r.district) &&
    r.education == q.education &&
    !Expired(r, q.gradYear, currentYear)
  }

  /** The district rule, in terms of what the caller passes. */
  lemma DistrictRule(q: Query, currentYear: int, r: SubsidyRecord)
    requires r.city == q.city && r.education == q.education && !Expired(r, q.gradYear, currentYear)
    ensures q.district in {None, Some(""), Some(AllDistrictsLabel), Some(AllDistricts)} ==>
              (Matches(q, currentYear, r) <==> r.district == AllDistricts)
    ensures q.district.Some? && q.district.value !in {"", AllDistrictsLabel, AllDistricts} ==>
              (Matches(q, currentYear, r) <==> r.district == q.district.value || r.district == AllDistricts)
  {
  }

  /** A matching record has not expired: at most `validYears` years have passed since graduation. */
  lemma ExpiryRule(q: Query, currentYear: int, r: SubsidyRecord)
    requires q.gradYear.Some? && Matches(q, currentYear, r)
    ensures currentYear - q.gradYear.value <= r.validYears
  {
  }

  /**
   * A missing graduation year never excludes a record, and a later one never
   * excludes more records than an earlier one.
   */
  lemma GradYearWidensMatch(q: Query, currentYear: int, r: SubsidyRecord, later: Option<int>)
    requires Matches(q, currentYear, r)
    requires later.None? || (q.gradYear.Some? && later.Some? && q.gradYear.value <= later.value)
    ensures Matches(q.(gradYear := later), currentYear, r)
  {
  }

  // ------------------------------------------------------------------
  // Aggregation
  // ------------------------------------------------------------------

  /** What one record adds to `yearTotal`: its amount when it matches and is paid yearly. */
  function YearShare(q: Query, currentYear: int, r: SubsidyRecord): real
  {
    if Matches(q, currentYear, r) && r.freq == Yearly then r.total5Year else 0.0
  }

  /** What one record offers to `monthTotal`: its amount when it matches and is paid monthly. */
  function MonthShare(q: Query, currentYear: int, r: SubsidyRecord): real
  {
    if Matches(q, currentYear, r) && r.freq == Monthly then r.total5Year else 0.0
  }

  /** `yearTotal` after the forEach has visited `records`. */
  function YearTotal(q: Query, currentYear: int, records: seq<SubsidyRecord>): real
    decreases |records|
  {
    if |records| == 0 then 0.0
    else YearTotal(q, currentYear, records[..|records| - 1]) + YearShare(q, currentYear, records[|records| - 1])
  }

  /** `monthTotal` after the forEach has visited `records`. */
  function MonthTotal(q: Query, currentYear: int, records: seq<SubsidyRecord>): real
    decreases |records|
  {
    if |records| == 0 then 0.0
    else Max(MonthTotal(q, currentYear, records[..|records| - 1]), MonthShare(q, currentYear, records[|records| - 1]))
  }

  /** The object calcSubsidyTotal returns. */
  datatype Totals = Totals(total: real, monthTotal: real, yearTotal: real)

  function SubsidyTotal(q: Query, currentYear: int, records: seq<SubsidyRecord>): Totals
  {
    var y := YearTotal(q, currentYear, records);
    var m := MonthTotal(q, currentYear, records);
    Totals(y + m, m, y)
  }

  /** calcSubsidyTotal: the forEach over the record table. */
  method CalcSubsidyTotal(q: Query, currentYear: int, records: seq<SubsidyRecord>) returns (t: Totals)
    ensures t == SubsidyTotal(q, currentYear, records)
  {
    var yearTotal := 0.0;
    var monthTotal := 0.0;
    var i := 0;
    while i < |records|
      invariant 0 <= i <= |records|
      invariant yearTotal == YearTotal(q, currentYear, records[..i])
      invariant monthTotal == MonthTotal(q, currentYear, records[..i])
      invariant 0.0 <= monthTotal
    {
      var r := records[i];
      assert records[..i + 1][..i] == records[..i];
      if Matches(q, currentYear, r) {
        var val := r.total5Year;
        if r.freq == Yearly {
          yearTotal := yearTotal + val;
        } else if r.freq == Monthly {
          monthTotal := Max(monthTotal, val);
        }
      }
      i := i + 1;
    }
    assert records[..i] == records;
    t := Totals(yearTotal + monthTotal, monthTotal, yearTotal);
  }

  /** `yearTotal` is the sum over the records in two parts. */
  lemma {:induction false} YearTotalAppend(q: Query, currentYear: int, a: seq<SubsidyRecord>, b: seq<SubsidyRecord>)
    ensures YearTotal(q, currentYear, a + b) == YearTotal(q, currentYear, a) + YearTotal(q, currentYear, b)
    decreases |b|
  {
    if |b| == 0 {
      assert a + b == a;
    } else {
      var b' := b[..|b| - 1];
      assert (a + b)[..|a + b| - 1] == a + b';
      YearTotalAppend(q, currentYear, a, b');
    }
  }

  /** `monthTotal` is never negative, as it starts from 0 and only grows. */
  lemma {:induction false} MonthTotalNonNegative(q: Query, currentYear: int, records: seq<SubsidyRecord>)
    ensures 0.0 <= MonthTotal(q, currentYear, records)
    decreases |records|
  {
    if |records| > 0 {
      MonthTotalNonNegative(q, currentYear, records[..|records| - 1]);
    }
  }

  /** `monthTotal` over two parts is the larger of the two parts' values. */
  lemma {:induction false} MonthTotalAppend(q: Query, currentYear: int, a: seq<SubsidyRecord>, b: seq<SubsidyRecord>)
    ensures MonthTotal(q, currentYear, a + b) == Max(MonthTotal(q, currentYear, a), MonthTotal(q, currentYear, b))
    decreases |b|
  {
    if |b| == 0 {
      assert a + b == a;
      MonthTotalNonNegative(q, currentYear, a);
    } else {
      var b' := b[..|b| - 1];
      assert (a + b)[..|a + b| - 1] == a + b';
      MonthTotalAppend(q, currentYear, a, b');
    }
  }

  /**
   * `monthTotal` is the highest amount among the matching monthly records, or 0
   * when there is none: every such amount is at most `monthTotal`, and a nonzero
   * `monthTotal` is the amount of one of them.
   */
  lemma {:induction false} MonthTotalIsMax(q: Query, currentYear: int, records: seq<SubsidyRecord>)
    ensures forall i :: 0 <= i < |records| && Matches(q, currentYear, records[i]) && records[i].freq == Monthly ==>
              records[i].total5Year <= MonthTotal(q, currentYear, records)
    ensures MonthTotal(q, currentYear, records) == 0.0 ||
            exists i :: 0 <= i < |records| && Matches(q, currentYear, records[i]) && records[i].freq == Monthly &&
                        records[i].total5Year == MonthTotal(q, currentYear, records)
    decreases |records|
  {
    if |records| > 0 {
      var prefix := records[..|records| - 1];
      MonthTotalIsMax(q, currentYear, prefix);
      assert forall i :: 0 <= i < |prefix| ==> prefix[i] == records[i];
      if MonthTotal(q, currentYear, records) != 0.0 &&
         MonthTotal(q, currentYear, records) != MonthTotal(q, currentYear, prefix) {
        assert MonthShare(q, currentYear, records[|records| - 1]) == MonthTotal(q, currentYear, records);
      }
    }
  }

  /** With non-negative amounts, `yearTotal` and hence `total` are never negative. */
  lemma {:induction false} YearTotalNonNegative(q: Query, currentYear: int, records: seq<SubsidyRecord>)
    requires forall i :: 0 <= i < |records| ==> 0.0 <= records[i].total5Year
    ensures 0.0 <= YearTotal(q, currentYear, records)
    ensures 0.0 <= SubsidyTotal(q, currentYear, records).total
    decreases |records|
  {
    if |records| > 0 {
      YearTotalNonNegative(q, currentYear, records[..|records| - 1]);
      MonthTotalNonNegative(q, currentYear, records);
    }
  }

  /** A record that does not match, or whose frequency is neither 年 nor 月, changes nothing wherever it stands. */
  lemma IgnoredRecord(q: Query, currentYear: int, a: seq<SubsidyRecord>, r: SubsidyRecord, b: seq<SubsidyRecord>)
    requires !Matches(q, currentYear, r) || (r.freq != Yearly && r.freq != Monthly)
    ensures SubsidyTotal(q, currentYear, a + [r] + b) == SubsidyTotal(q, currentYear, a + b)
  {
    YearTotalAppend(q, currentYear, a + [r], b);
    YearTotalAppend(q, currentYear, a, [r]);
    YearTotalAppend(q, currentYear, a, b);
    MonthTotalAppend(q, currentYear, a + [r], b);
    MonthTotalAppend(q, currentYear, a, [r]);
    MonthTotalAppend(q, currentYear, a, b);
    MonthTotalNonNegative(q, currentYear, a);
    assert YearTotal(q, currentYear, [r]) == 0.0 && MonthTotal(q, currentYear, [r]) == 0.0 by {
      assert [r][..0] == [];
    }
  }

  /** Splitting the table around one record. */
  lemma SplitAt(q: Query, currentYear: int, s: seq<SubsidyRecord>, j: nat)
    requires j < |s|
    ensures YearTotal(q, currentYear, s) ==
            YearTotal(q, currentYear, s[..j] + s[j + 1..]) + YearShare(q, currentYear, s[j])
    ensures MonthTotal(q, currentYear, s) ==
            Max(MonthTotal(q, currentYear, s[..j] + s[j + 1..]), MonthShare(q, currentYear, s[j]))
  {
    assert s == s[..j] + [s[j]] + s[j + 1..];
    assert [s[j]][..0] == [];
    YearTotalAppend(q, currentYear, s[..j] + [s[j]], s[j + 1..]);
    YearTotalAppend(q, currentYear, s[..j], [s[j]]);
    YearTotalAppend(q, currentYear, s[..j], s[j + 1..]);
    MonthTotalAppend(q, currentYear, s[..j] + [s[j]], s[j + 1..]);
    MonthTotalAppend(q, currentYear, s[..j], [s[j]]);
    MonthTotalAppend(q, currentYear, s[..j], s[j + 1..]);
    MonthTotalNonNegative(q, currentYear, s[..j]);
  }

  /** Taking the last element off one of two permutations, and the same element off the other. */
  lemma RemoveMatching<T>(a: seq<T>, b: seq<T>, j: nat)
    requires multiset(a) == multiset(b) && |a| > 0
    requires j < |b| && b[j] == a[|a| - 1]
    ensures multiset(a[..|a| - 1]) == multiset(b[..j] + b[j + 1..])
  {
    var n, x := |a| - 1, a[|a| - 1];
    assert a == a[..n] + [x];
    assert b == b[..j] + [x] + b[j + 1..];
    assert multiset(b) == multiset(b[..j] + b[j + 1..]) + multiset{x};
    assert multiset(a) == multiset(a[..n]) + multiset{x};
    assert multiset(a[..n]) == multiset(a) - multiset{x};
    assert multiset(b[..j] + b[j + 1..]) == multiset(b) - multiset{x};
  }

  /** The result does not depend on the order of the record table. */
  lemma {:induction false} TotalsIgnoreOrder(q: Query, currentYear: int, a: seq<SubsidyRecord>, b: seq<SubsidyRecord>)
    requires multiset(a) == multiset(b)
    ensures SubsidyTotal(q, currentYear, a) == SubsidyTotal(q, currentYear, b)
    decreases |a|
  {
    if |a| > 0 {
      var n := |a| - 1;
      assert a[n] in multiset(b);
      var j :| 0 <= j < |b| && b[j] == a[n];
      RemoveMatching(a, b, j);
      TotalsIgnoreOrder(q, currentYear, a[..n], b[..j] + b[j + 1..]);
      SplitAt(q, currentYear, b, j);
    } else {
      assert b == [];
    }
  }

  /**
   * With non-negative amounts, a query that matches at least the records another
   * one matches gets at least its yearly sum and its monthly maximum.
   */
  lemma {:induction false} MoreMatchesMoreSubsidy(q1: Query, q2: Query, currentYear: int, records: seq<SubsidyRecord>)
    requires forall i :: 0 <= i < |records| ==> 0.0 <= records[i].total5Year
    requires forall i :: 0 <= i < |records| && Matches(q1, currentYear, records[i]) ==> Matches(q2, currentYear, records[i])
    ensures YearTotal(q1, currentYear, records) <= YearTotal(q2, currentYear, records)
    ensures MonthTotal(q1, currentYear, records) <= MonthTotal(q2, currentYear, records)
    decreases |records|
  {
    if |records| > 0 {
      var prefix := records[..|records| - 1];
      assert forall i :: 0 <= i < |prefix| ==> prefix[i] == records[i];
      MoreMatchesMoreSubsidy(q1, q2, currentYear, prefix);
    }
  }

  /** Hence a graduate with a later (or no) graduation year never gets less. */
  lemma LaterGraduateGetsNoLess(q: Query, currentYear: int, records: seq<SubsidyRecord>, later: Option<int>)
    requires forall i :: 0 <= i < |records| ==> 0.0 <= records[i].total5Year
    requires later.None? || (q.gradYear.Some? && later.Some? && q.gradYear.value <= later.value)
    ensures SubsidyTotal(q, currentYear, records).total <= SubsidyTotal(q.(gradYear := later), currentYear, records).total
  {
    forall i | 0 <= i < |records| && Matches(q, currentYear, records[i])
      ensures Matches(q.(gradYear := later), currentYear, records[i])
    {
      GradYearWidensMatch(q, currentYear, records[i], later);
    }
    MoreMatchesMoreSubsidy(q, q.(gradYear := later), currentYear, records);
  }

  // ------------------------------------------------------------------
  // cityDistrictMap
  // ------------------------------------------------------------------

  /** Whether the map lists a record's district: only a non-empty district other than 全部. */
  predicate Listed(district: string)
  {
    district != "" && district != AllDistricts
  }

  /** One step of the forEach: create the city's set if absent, then add the district if it is listed. */
  function AddToIndex(m: map<string, seq<string>>, r: SubsidyRecord): map<string, seq<string>>
  {
    var m1 := if r.city in m then m else m[r.city := []];
    if Listed(r.district) && r.district !in m1[r.city] then m1[r.city := m1[r.city] + [r.district]] else m1
  }

  /** The map after the forEach has visited `records`; each Set keeps its insertion order. */
  function DistrictIndex(records: seq<SubsidyRecord>): map<string, seq<string>>
    decreases |records|
  {
    if |records| == 0 then map[] else AddToIndex(DistrictIndex(records[..|records| - 1]), records[|records| - 1])
  }

  /** No district is listed twice for a city. */
  predicate Distinct(s: seq<string>)
  {
    forall i, j :: 0 <= i < j < |s| ==> s[i] != s[j]
  }

  /** cityDistrictMap: a Set per city, filled by one pass over the table, turned into arrays. */
  method CityDistrictMap(records: seq<SubsidyRecord>) returns (m: map<string, seq<string>>)
    ensures m == DistrictIndex(records)
  {
    m := map[];
    var i := 0;
    while i < |records|
      invariant 0 <= i <= |records|
      invariant m == DistrictIndex(records[..i])
    {
      var r := records[i];
      assert records[..i + 1][..i] == records[..i];
      if r.city !in m {
        m := m[r.city := []];
      }
      if r.district != "" && r.district != AllDistricts && r.district !in m[r.city] {
        m := m[r.city := m[r.city] + [r.district]];
      }
      i := i + 1;
    }
    assert records[..i] == records;
  }

  /** One step of the forEach adds the record's city as a key and, when listed and new, its district. */
  lemma AddToIndexStep(m: map<string, seq<string>>, r: SubsidyRecord, c: string, d: string)
    ensures AddToIndex(m, r).Keys == m.Keys + {r.city}
    ensures c in AddToIndex(m, r) ==>
              (d in AddToIndex(m, r)[c] <==> (c in m && d in m[c]) || (c == r.city && d == r.district && Listed(d)))
    ensures c in m && Distinct(m[c]) ==> Distinct(AddToIndex(m, r)[c])
  {
  }

  /** The map has a key for every city of the table and for no other. */
  lemma {:induction false} DistrictIndexKeys(records: seq<SubsidyRecord>)
    ensures forall c :: c in DistrictIndex(records) <==> exists i :: 0 <= i < |records| && records[i].city == c
    decreases |records|
  {
    if |records| > 0 {
      var n := |records| - 1;
      var prefix := records[..n];
      DistrictIndexKeys(prefix);
      AddToIndexStep(DistrictIndex(prefix), records[n], "", "");
      assert forall i :: 0 <= i < n ==> prefix[i] == records[i];
    }
  }

  /** A city lists a district exactly when one of its records has that district and it is listed. */
  lemma {:induction false} DistrictIndexListsOne(records: seq<SubsidyRecord>, c: string, d: string)
    requires c in DistrictIndex(records)
    ensures d in DistrictIndex(records)[c] <==>
            exists i :: 0 <= i < |records| && records[i].city == c && records[i].district == d && Listed(d)
    decreases |records|
  {
    var n := |records| - 1;
    var prefix, r := records[..n], records[n];
    var m := DistrictIndex(prefix);
    AddToIndexStep(m, r, c, d);
    if c in m {
      DistrictIndexListsOne(prefix, c, d);
    } else {
      DistrictIndexKeys(prefix);
    }
    if d in DistrictIndex(records)[c] {
      if c in m && d in m[c] {
        var i :| 0 <= i < n && prefix[i].city == c && prefix[i].district == d && Listed(d);
        assert records[i] == prefix[i];
      } else {
        assert records[n].city == c && records[n].district == d && Listed(d);
      }
    } else if exists i :: 0 <= i < |records| && records[i].city == c && records[i].district == d && Listed(d) {
      assert false;
    }
  }

  /** No city lists a district twice. */
  lemma {:induction false} DistrictIndexDistinct(records: seq<SubsidyRecord>)
    ensures forall c :: c in DistrictIndex(records) ==> Distinct(DistrictIndex(records)[c])
    decreases |records|
  {
    if |records| > 0 {
      var n := |records| - 1;
      DistrictIndexDistinct(records[..n]);
      forall c | c in DistrictIndex(records)
        ensures Distinct(DistrictIndex(records)[c])
      {
        AddToIndexStep(DistrictIndex(records[..n]), records[n], c, "");
      }
    }
  }
}
