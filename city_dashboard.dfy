/** One city's dashboard (pages/CityDashboard.tsx): the city looked up by
    id with a fallback to the first city, its alerts and hospitals, a
    disease breakdown derived from its case total by fixed shares, a
    synthetic week of cases, and the trend badges. */
module CityDashboard {
  import opened Types
  import opened Seqs
  import opened Text
  import opened Capacity

  /** `CITIES.find(c => c.id === cityId) || CITIES[0]`: the first city with
      the id, else the first city of the table. With an empty table the page
      has no city to show (JavaScript would fail on `city.name`). */
  function ResolveCity(cities: seq<City>, cityId: string): (r: Option<City>)
    ensures r.None? <==> cities == []
    ensures forall i :: (0 <= i < |cities| && cities[i].id == cityId &&
                         forall j :: 0 <= j < i ==> cities[j].id != cityId) ==> r == Some(cities[i])
    ensures (cities != [] && forall i :: 0 <= i < |cities| ==> cities[i].id != cityId) ==> r == Some(cities[0])
  {
    if cities == [] then None
    else
      var found := FindFirst(cities, (c: City) => c.id == cityId);
      if found.Some? then found else Some(cities[0])
  }

  /** `cityAlerts`: the alerts whose location names the city; the match is
      case-sensitive, unlike the search boxes. */
  function CityAlerts(alerts: seq<Alert>, city: City): (r: seq<Alert>)
    ensures IsSubsequence(r, alerts)
    ensures forall i :: 0 <= i < |r| ==> Contains(r[i].location, city.name)
    ensures forall i :: 0 <= i < |alerts| && Contains(alerts[i].location, city.name) ==> alerts[i] in r
    ensures |r| == |Indices(alerts, (a: Alert) => Contains(a.location, city.name))|
  {
    var keep := (a: Alert) => Contains(a.location, city.name);
    FilterCountsIndices(alerts, keep);
    Filter(alerts, keep)
  }

  /** `cityHospitals`: the hospitals of the REQUESTED id, not of the city
      shown. */
  function CityHospitals(hospitals: seq<Hospital>, cityId: string): (r: seq<Hospital>)
    ensures IsSubsequence(r, hospitals)
    ensures forall i :: 0 <= i < |r| ==> r[i].cityId == cityId
    ensures forall i :: 0 <= i < |hospitals| && hospitals[i].cityId == cityId ==> hospitals[i] in r
    ensures |r| == |set i | 0 <= i < |hospitals| && hospitals[i].cityId == cityId|
  {
    var keep := (h: Hospital) => h.cityId == cityId;
    FilterCountsIndices(hospitals, keep);
    assert Indices(hospitals, keep) == set i | 0 <= i < |hospitals| && hospitals[i].cityId == cityId;
    Filter(hospitals, keep)
  }

  /** An unknown id shows the first city's header and alerts but no
      hospitals: when every hospital belongs to a listed city, none belongs
      to an id that no city has. */
  lemma UnknownIdShowsNoHospitals(cities: seq<City>, hospitals: seq<Hospital>, cityId: string)
    requires cities != []
    requires forall i :: 0 <= i < |cities| ==> cities[i].id != cityId
    requires forall h :: h in hospitals ==> exists c :: c in cities && c.id == h.cityId
    ensures ResolveCity(cities, cityId) == Some(cities[0])
    ensures CityHospitals(hospitals, cityId) == []
  {
    FilterKeepsNone(hospitals, (h: Hospital) => h.cityId == cityId);
  }

  /** One slice of the disease pie. */
  datatype Slice = Slice(name: string, value: nat)

  const DiseaseNames: seq<string> := ["Fever/ILI", "Dengue", "Diarrhea", "Malaria", "Other"]

  /** The pie's shares, in per cent. */
  const DiseaseShares: seq<nat> := [45, 25, 15, 10, 5]

  /** `Math.floor(totalCases * share)` for each disease. */
  function DiseaseBreakdown(totalCases: nat): (slices: seq<Slice>)
    ensures |slices| == 5
    ensures forall i :: 0 <= i < 5 ==> slices[i].name == DiseaseNames[i]
    ensures forall i :: 0 <= i < 5 ==>
              100 * slices[i].value <= DiseaseShares[i] * totalCases < 100 * (slices[i].value + 1)
  {
    seq(5, i requires 0 <= i < 5 => Slice(DiseaseNames[i], DiseaseShares[i] * totalCases / 100))
  }

  function SliceTotal(slices: seq<Slice>): int
  {
    Sum(slices, (s: Slice) => s.value)
  }

  /** The shares add up to 100 %, so the slices add up to the city's total
      less what the five floors drop, which is at most four cases. */
  lemma BreakdownAccountsForCases(totalCases: nat)
    ensures totalCases - 4 <= SliceTotal(DiseaseBreakdown(totalCases)) <= totalCases
  {
    var s := DiseaseBreakdown(totalCases);
    var f := (x: Slice) => x.value;
    assert s[1..][1..][1..][1..][1..] == [];
    assert SliceTotal(s) == s[0].value + s[1].value + s[2].value + s[3].value + s[4].value by {
      assert Sum(s[1..][1..][1..][1..], f) == s[4].value;
      assert Sum(s[1..][1..][1..], f) == s[3].value + s[4].value;
      assert Sum(s[1..][1..], f) == s[2].value + s[3].value + s[4].value;
      assert Sum(s[1..], f) == s[1].value + s[2].value + s[3].value + s[4].value;
    }
  }

  /** One point of the week's line chart. */
  datatype DayPoint = DayPoint(day: string, cases: int)

  const Weekdays: seq<string> := ["Mon", "Tue", "Wed", "Thu", "Fri", "Sat", "Sun"]

  /** The synthetic week: fixed offsets from today's total. */
  const DayOffsets: seq<int> := [-50, -30, -45, -10, 15, 25, 0]

  /** `trendData` as written: today's total shifted by each day's offset. */
  function TrendDataAsWritten(totalCases: nat): (week: seq<DayPoint>)
    ensures |week| == 7
    ensures forall i :: 0 <= i < 7 ==> week[i].day == Weekdays[i]
    ensures week[6].cases == totalCases
    ensures forall i :: 0 <= i < 7 ==> week[0].cases <= week[i].cases <= week[5].cases
  {
    seq(7, i requires 0 <= i < 7 => DayPoint(Weekdays[i], totalCases + DayOffsets[i]))
  }

  /** A city with fewer than 50 cases gets a negative Monday: Madha, with 35
      cases in the city table, is plotted at -15 on Monday and -10 on
      Wednesday. */
  lemma SmallCityGetsNegativeCases(totalCases: nat)
    requires totalCases < 50
    ensures TrendDataAsWritten(totalCases)[0].cases < 0
    ensures TrendDataAsWritten(35)[0].cases == -15 && TrendDataAsWritten(35)[2].cases == -10
  {
  }

  /** `trendData` with each day held at zero, as case counts must be. */
  function TrendData(totalCases: nat): (week: seq<DayPoint>)
    ensures |week| == 7
    ensures forall i :: 0 <= i < 7 ==> week[i].day == Weekdays[i]
    ensures forall i :: 0 <= i < 7 ==> week[i].cases >= 0
    ensures week[6].cases == totalCases
    ensures forall i :: 0 <= i < 7 ==> week[0].cases <= week[i].cases <= week[5].cases
  {
    seq(7, i requires 0 <= i < 7 =>
      DayPoint(Weekdays[i], if totalCases + DayOffsets[i] < 0 then 0 else totalCases + DayOffsets[i]))
  }

  /** From 50 cases up the corrected week is the week as written. */
  lemma TrendDataAgreesFrom50(totalCases: nat)
    requires totalCases >= 50
    ensures TrendData(totalCases) == TrendDataAsWritten(totalCases)
  {
    var a, b := TrendData(totalCases), TrendDataAsWritten(totalCases);
    assert forall i :: 0 <= i < 7 ==> a[i] == b[i];
  }

  /** The header badge: "Improving" in emerald for a decreasing trend,
      "Action Required" in rose otherwise. */
  predicate Improving(trend: Trend)
  {
    trend == Decreasing
  }

  /** The "Overall Trend" card is red only for an increasing trend. */
  predicate TrendCardRed(trend: Trend)
  {
    trend == Increasing
  }

  /** A stable city shows "Action Required" in its header next to a green
      trend card: the two indicators disagree on stable trends only. */
  lemma BadgesDisagreeOnlyWhenStable(trend: Trend)
    ensures (!Improving(trend) && !TrendCardRed(trend)) <==> trend == Stable
    ensures Improving(trend) ==> !TrendCardRed(trend)
  {
  }

  datatype TrendIcon = UpIcon | DownIcon | FlatIcon

  function TrendIconOf(trend: Trend): (icon: TrendIcon)
    ensures icon == UpIcon <==> trend == Increasing
    ensures icon == DownIcon <==> trend == Decreasing
  {
    match trend
    case Increasing => UpIcon
    case Decreasing => DownIcon
    case Stable => FlatIcon
  }

  /** Everything the dashboard derives for the city it shows. */
  datatype Dashboard = Dashboard(
    city: City,
    alerts: seq<Alert>,
    hospitals: seq<Hospital>,
    breakdown: seq<Slice>,
    week: seq<DayPoint>)

  /** The page as written: the resolved city, its alerts and the requested
      id's hospitals, the breakdown of its cases and the week as written,
      which dips below zero for a city under 50 cases. */
  function CityPage(cities: seq<City>, alerts: seq<Alert>, hospitals: seq<Hospital>, cityId: string): (d: Option<Dashboard>)
    ensures d.None? <==> cities == []
    ensures d.Some? ==> Some(d.value.city) == ResolveCity(cities, cityId)
    ensures d.Some? ==> IsSubsequence(d.value.alerts, alerts)
    ensures d.Some? ==> forall i :: 0 <= i < |d.value.alerts| ==> Contains(d.value.alerts[i].location, d.value.city.name)
    ensures d.Some? ==> forall i :: 0 <= i < |alerts| && Contains(alerts[i].location, d.value.city.name) ==>
                          alerts[i] in d.value.alerts
    ensures d.Some? ==> forall i :: 0 <= i < |d.value.hospitals| ==> d.value.hospitals[i].cityId == cityId
    ensures d.Some? ==> forall i :: 0 <= i < |hospitals| && hospitals[i].cityId == cityId ==>
                          hospitals[i] in d.value.hospitals
    ensures d.Some? ==> |d.value.breakdown| == 5 &&
                        d.value.city.totalCases - 4 <= SliceTotal(d.value.breakdown) <= d.value.city.totalCases
    ensures d.Some? ==> |d.value.week| == 7 && d.value.week[6].cases == d.value.city.totalCases
    ensures d.Some? && d.value.city.totalCases >= 50 ==> forall i :: 0 <= i < 7 ==> d.value.week[i].cases >= 0
    ensures d.Some? && d.value.city.totalCases < 50 ==> d.value.week[0].cases < 0
  {
    var city := ResolveCity(cities, cityId);
    if city.None? then None
    else
      var c := city.value;
      BreakdownAccountsForCases(c.totalCases);
      Some(Dashboard(c, CityAlerts(alerts, c), CityHospitals(hospitals, cityId),
                     DiseaseBreakdown(c.totalCases), TrendDataAsWritten(c.totalCases)))
  }

  /** A hospital row's reporting cell: the dot and the status label are
      emerald when the hospital has submitted; otherwise both are amber and
      the dot pulses. */
  datatype ReportingCell = ReportingCell(dotGreen: bool, labelGreen: bool, pulsing: bool)

  function ReportingCellOf(h: Hospital): (cell: ReportingCell)
    ensures cell.dotGreen <==> h.reportingStatus == Submitted
    ensures cell.labelGreen == cell.dotGreen
    ensures cell.pulsing <==> !cell.dotGreen
  {
    var submitted := h.reportingStatus == Submitted;
    ReportingCell(submitted, submitted, !submitted)
  }

  /** Every hospital row of the page shows either a steady green dot or a
      pulsing amber one. */
  lemma DotsSplitRows(rows: seq<Hospital>)
    ensures |Filter(rows, (h: Hospital) => ReportingCellOf(h).dotGreen)| +
            |Filter(rows, (h: Hospital) => ReportingCellOf(h).pulsing)| == |rows|
  {
    FilterPartition(rows, (h: Hospital) => ReportingCellOf(h).dotGreen, (h: Hospital) => ReportingCellOf(h).pulsing);
  }
}
