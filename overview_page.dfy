/** The landing page (pages/OverviewPage.tsx): district-wide totals over the
    city and hospital tables, the bed occupancy rate, and a feed of the
    alerts that still need attention, each stamped with its time of day. */
module OverviewPage {
  import opened Types
  import opened Seqs
  import opened Text
  import opened Capacity

  /** An alert still needs attention while it is Active or Escalated. */
  predicate NeedsAttention(a: Alert)
  {
    a.status == Active || a.status == Escalated
  }

  /** `activeAlerts`: the feed, and the count on the "Active Alarms" card. */
  function ActiveAlerts(alerts: seq<Alert>): (r: seq<Alert>)
    ensures IsSubsequence(r, alerts)
    ensures forall i :: 0 <= i < |r| ==> r[i].status != Resolved
    ensures forall i :: 0 <= i < |alerts| && alerts[i].status != Resolved ==> alerts[i] in r
    ensures |r| == |set i | 0 <= i < |alerts| && alerts[i].status != Resolved|
  {
    var keep := (a: Alert) => NeedsAttention(a);
    FilterCountsIndices(alerts, keep);
    assert Indices(alerts, keep) == set i | 0 <= i < |alerts| && alerts[i].status != Resolved;
    Filter(alerts, keep)
  }

  /** The feed and the resolved alerts together account for every alert. */
  lemma ActivePlusResolved(alerts: seq<Alert>)
    ensures |ActiveAlerts(alerts)| + |Filter(alerts, (a: Alert) => a.status == Resolved)| == |alerts|
  {
    FilterPartition(alerts, (a: Alert) => NeedsAttention(a), (a: Alert) => a.status == Resolved);
  }

  /** "District Load": the cases of every city added up. */
  function TotalCases(cities: seq<City>): (n: nat)
    ensures forall i :: 0 <= i < |cities| ==> cities[i].totalCases <= n
    ensures cities == [] ==> n == 0
  {
    SumNonNegative(cities, (c: City) => c.totalCases);
    forall i | 0 <= i < |cities|
      ensures cities[i].totalCases <= Sum(cities, (c: City) => c.totalCases)
    {
      SumAtLeastTerm(cities, (c: City) => c.totalCases, i);
    }
    Sum(cities, (c: City) => c.totalCases)
  }

  /** The beds of every hospital added up. */
  function TotalBeds(hospitals: seq<Hospital>): (n: nat)
    ensures forall i :: 0 <= i < |hospitals| ==> hospitals[i].totalBeds <= n
    ensures hospitals == [] ==> n == 0
  {
    SumNonNegative(hospitals, (h: Hospital) => h.totalBeds);
    forall i | 0 <= i < |hospitals|
      ensures hospitals[i].totalBeds <= Sum(hospitals, (h: Hospital) => h.totalBeds)
    {
      SumAtLeastTerm(hospitals, (h: Hospital) => h.totalBeds, i);
    }
    Sum(hospitals, (h: Hospital) => h.totalBeds)
  }

  /** The occupied beds of every hospital added up. */
  function OccupiedBeds(hospitals: seq<Hospital>): (n: nat)
    ensures forall i :: 0 <= i < |hospitals| ==> hospitals[i].occupiedBeds <= n
    ensures hospitals == [] ==> n == 0
  {
    SumNonNegative(hospitals, (h: Hospital) => h.occupiedBeds);
    forall i | 0 <= i < |hospitals|
      ensures hospitals[i].occupiedBeds <= Sum(hospitals, (h: Hospital) => h.occupiedBeds)
    {
      SumAtLeastTerm(hospitals, (h: Hospital) => h.occupiedBeds, i);
    }
    Sum(hospitals, (h: Hospital) => h.occupiedBeds)
  }

  /** "Inpatient Flux", `Math.round(occupiedBeds / totalBeds * 100)` over the
      whole district (nothing numeric when there are no beds). */
  function OccupancyRate(hospitals: seq<Hospital>): (rate: Option<int>)
    ensures rate.Some? <==> TotalBeds(hospitals) > 0
    ensures rate.Some? ==>
              rate.value as real - 0.5 <= Percent(OccupiedBeds(hospitals), TotalBeds(hospitals)) < rate.value as real + 0.5
  {
    DisplayedPercent(OccupiedBeds(hospitals), TotalBeds(hospitals))
  }

  /** The district totals add up over any split of the tables: the load of
      two groups of cities, or the beds of two groups of hospitals, is the
      sum of the groups' figures. */
  lemma TotalsAdditive(c1: seq<City>, c2: seq<City>, h1: seq<Hospital>, h2: seq<Hospital>)
    ensures TotalCases(c1 + c2) == TotalCases(c1) + TotalCases(c2)
    ensures TotalBeds(h1 + h2) == TotalBeds(h1) + TotalBeds(h2)
    ensures OccupiedBeds(h1 + h2) == OccupiedBeds(h1) + OccupiedBeds(h2)
  {
    SumConcat(c1, c2, (c: City) => c.totalCases);
    SumConcat(h1, h2, (h: Hospital) => h.totalBeds);
    SumConcat(h1, h2, (h: Hospital) => h.occupiedBeds);
  }

  /** A single city's load is its own case count. */
  lemma SingleCityTotal(c: City)
    ensures TotalCases([c]) == c.totalCases
  {
    var f := (x: City) => x.totalCases;
    assert [c][1..] == [];
    assert Sum([c], f) == f(c) + Sum([], f);
  }

  /** A single hospital's beds are its own. */
  lemma SingleHospitalTotals(h: Hospital)
    ensures TotalBeds([h]) == h.totalBeds && OccupiedBeds([h]) == h.occupiedBeds
  {
    var beds := (x: Hospital) => x.totalBeds;
    var occupied := (x: Hospital) => x.occupiedBeds;
    assert [h][1..] == [];
    assert Sum([h], beds) == beds(h) + Sum([], beds);
    assert Sum([h], occupied) == occupied(h) + Sum([], occupied);
  }

  /** No hospital over capacity means no more beds occupied than exist. */
  lemma OccupiedAtMostTotal(hospitals: seq<Hospital>)
    requires forall h :: h in hospitals ==> h.occupiedBeds <= h.totalBeds
    ensures OccupiedBeds(hospitals) <= TotalBeds(hospitals)
  {
    SumMonotone(hospitals, (h: Hospital) => h.occupiedBeds, (h: Hospital) => h.totalBeds);
  }

  /** No hospital over capacity means the district is at most 100 % full. */
  lemma OccupancyRateAtMost100(hospitals: seq<Hospital>)
    requires forall h :: h in hospitals ==> h.occupiedBeds <= h.totalBeds
    requires TotalBeds(hospitals) > 0
    ensures 0 <= OccupancyRate(hospitals).value <= 100
  {
    OccupiedAtMostTotal(hospitals);
  }

  /** `alert.timestamp.split(' ')[1]`: the second space-separated word, or
      nothing (`undefined`) when the stamp has no space. */
  function TimeOfDay(timestamp: string): (r: Option<string>)
    ensures r.None? <==> ' ' !in timestamp
    ensures r.Some? ==> ' ' !in r.value
  {
    var parts := Split(timestamp, ' ');
    SplitSingle(timestamp, ' ');
    if |parts| > 1 then Some(parts[1]) else None
  }

  /** The word after the first space is shown, whatever follows it from the
      next space on: "2026-11-20 10:45 AM" shows "10:45", "2026-11-20 10:45"
      shows "10:45" too. */
  lemma TimeOfDayOfStamp(date: string, time: string, rest: string)
    requires ' ' !in date && ' ' !in time
    requires rest == [] || rest[0] == ' '
    ensures TimeOfDay(date + " " + time + rest) == Some(time)
  {
    var stamp := date + " " + time + rest;
    assert stamp == date + [' '] + (time + rest);
    SplitAfterWord(date, ' ', time + rest);
    FirstWordOf(time, rest);
  }

  /** A word followed by nothing or by a space is the first piece of the split. */
  lemma FirstWordOf(word: string, rest: string)
    requires ' ' !in word
    requires rest == [] || rest[0] == ' '
    ensures Split(word + rest, ' ')[0] == word
  {
    if rest == [] {
      assert word + rest == word;
      SplitWord(word, ' ');
    } else {
      assert word + rest == word + [' '] + rest[1..];
      SplitAfterWord(word, ' ', rest[1..]);
    }
  }
}
