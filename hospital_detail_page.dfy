/** One hospital's page (pages/HospitalDetailPage.tsx): the hospital looked
    up by id with a fallback to the first hospital, its bed and ICU gauges,
    and a disease chart over the district trend table that shows the last
    seven rows, or a simulated month built by appending three jittered
    copies of the table and keeping the first thirty rows.

    `Math.random()` is not modelled as such: the month chart takes the
    jitter values (`Math.random() * 10 - 5`, one per appended row, in the
    order the loops draw them) as an input. */
module HospitalDetailPage {
  import opened Types
  import opened Seqs
  import opened Capacity

  /** `HOSPITALS.find(h => h.id === hospitalId) || HOSPITALS[0]`. */
  function ResolveHospital(hospitals: seq<Hospital>, hospitalId: string): (r: Option<Hospital>)
    ensures r.None? <==> hospitals == []
    ensures forall i :: (0 <= i < |hospitals| && hospitals[i].id == hospitalId &&
                         forall j :: 0 <= j < i ==> hospitals[j].id != hospitalId) ==> r == Some(hospitals[i])
    ensures (hospitals != [] && forall i :: 0 <= i < |hospitals| ==> hospitals[i].id != hospitalId) ==>
              r == Some(hospitals[0])
  {
    if hospitals == [] then None
    else
      var found := FindFirst(hospitals, (h: Hospital) => h.id == hospitalId);
      if found.Some? then found else Some(hospitals[0])
  }

  /** One slice of a gauge: occupied or available. */
  datatype GaugeSlice = GaugeSlice(name: string, value: int)

  /** `bedData` / `icuData`: the occupied count, and the rest of the total
      as available (negative if the record is over capacity). */
  function Gauge(occupied: nat, total: nat): (slices: seq<GaugeSlice>)
    ensures |slices| == 2
    ensures slices[0].name == "Occupied" && slices[1].name == "Available"
    ensures slices[0].value == occupied
    ensures slices[0].value + slices[1].value == total
    ensures slices[1].value >= 0 <==> occupied <= total
  {
    [GaugeSlice("Occupied", occupied), GaugeSlice("Available", total - occupied)]
  }

  /** The two gauges' centre figures: bed load and ICU load as whole
      percentages. */
  datatype Loads = Loads(beds: Option<int>, icu: Option<int>)

  function LoadsOf(h: Hospital): (l: Loads)
    ensures l.beds.Some? <==> h.totalBeds > 0
    ensures l.icu.Some? <==> h.icuTotal > 0
    ensures h.occupiedBeds <= h.totalBeds && l.beds.Some? ==> 0 <= l.beds.value <= 100
    ensures h.icuOccupied <= h.icuTotal && l.icu.Some? ==> 0 <= l.icu.value <= 100
    ensures l.beds.Some? ==>
              l.beds.value as real - 0.5 <= Percent(h.occupiedBeds, h.totalBeds) < l.beds.value as real + 0.5
    ensures l.icu.Some? ==>
              l.icu.value as real - 0.5 <= Percent(h.icuOccupied, h.icuTotal) < l.icu.value as real + 0.5
  {
    Loads(DisplayedPercent(h.occupiedBeds, h.totalBeds), DisplayedPercent(h.icuOccupied, h.icuTotal))
  }

  /** The "Analyze Vector" selector; its options are the four diseases. */
  datatype Disease = Fever | Dengue | Diarrhea | Malaria

  /** `d[diseaseFilter]`. */
  function ValueOf(row: DiseaseRow, d: Disease): real
  {
    match d
    case Fever => row.fever
    case Dengue => row.dengue
    case Diarrhea => row.diarrhea
    case Malaria => row.malaria
  }

  /** `{ ...row, [d]: v }`: the row with one disease's value replaced. */
  function WithValue(row: DiseaseRow, d: Disease, v: real): (r: DiseaseRow)
    ensures ValueOf(r, d) == v
    ensures forall e :: e != d ==> ValueOf(r, e) == ValueOf(row, e)
    ensures r.date == row.date
  {
    match d
    case Fever => row.(fever := v)
    case Dengue => row.(dengue := v)
    case Diarrhea => row.(diarrhea := v)
    case Malaria => row.(malaria := v)
  }

  /** The "Temporal Window" selector: "7" or "30". */
  datatype Timeframe = LastWeek | LastMonth

  /** `DISTRICT_TRENDS.slice(-7)`: the last seven rows, or all of them when
      there are fewer. */
  function LastSeven(trends: seq<DiseaseRow>): (r: seq<DiseaseRow>)
    ensures |r| == if |trends| < 7 then |trends| else 7
    ensures trends == trends[..|trends| - |r|] + r
  {
    if |trends| <= 7 then trends else trends[|trends| - 7..]
  }

  function Digit(i: nat): char
    requires i <= 9
  {
    ('0' as int + i) as char
  }

  /** `Math.max(0, v)` over the reals. */
  function Clamp(v: real): (r: real)
    ensures r >= 0.0 && r >= v
    ensures r == v || r == 0.0
  {
    if v < 0.0 then 0.0 else v
  }

  /** The row pushed for `d` in round `round` (1 to 3): its date gets
      " round" appended and the chosen disease moves by the jitter `r`,
      held at zero. */
  function JitterRow(row: DiseaseRow, d: Disease, round: nat, r: real): (j: DiseaseRow)
    requires 1 <= round <= 3
    ensures j.date == row.date + [' ', Digit(round)]
    ensures ValueOf(j, d) == Clamp(ValueOf(row, d) + r)
    ensures forall e :: e != d ==> ValueOf(j, e) == ValueOf(row, e)
  {
    WithValue(row.(date := row.date + [' ', Digit(round)]), d, Clamp(ValueOf(row, d) + r))
  }

  /** The first `count` appended rows: row `k` is a copy of table row
      `k % n` from round `k / n + 1`, jittered by `jitter[k]`. */
  function Copies(trends: seq<DiseaseRow>, d: Disease, jitter: seq<real>, count: nat): (c: seq<DiseaseRow>)
    requires count <= |jitter| == 3 * |trends|
    ensures |c| == count
  {
    var n := |trends|;
    seq(count, k requires 0 <= k < count =>
      DivBelow(k, n, 3);
      JitterRow(trends[k % n], d, k / n + 1, jitter[k]))
  }

  /** `k < m * n` bounds `k / n` below `m`. */
  lemma DivBelow(k: nat, n: nat, m: nat)
    requires k < m * n
    ensures n > 0 && k / n < m
  {
    assert n > 0;
    var q := k / n;
    assert n * q <= k;
    MulSign(q - m, n);
  }

  /** The sign of a product with a positive factor. */
  lemma MulSign(a: int, n: int)
    requires n > 0
    ensures a >= 1 ==> a * n >= n
    ensures a <= -1 ==> a * n <= -n
  {
  }

  /** `slice(0, 30)`. */
  function FirstThirty(s: seq<DiseaseRow>): (r: seq<DiseaseRow>)
    ensures |r| == if |s| < 30 then |s| else 30
    ensures r == s[..|r|]
  {
    if |s| <= 30 then s else s[..30]
  }

  /** The simulated month: the table, three jittered copies, the first
      thirty rows. */
  function MonthChart(trends: seq<DiseaseRow>, d: Disease, jitter: seq<real>): seq<DiseaseRow>
    requires |jitter| == 3 * |trends|
  {
    FirstThirty(trends + Copies(trends, d, jitter, 3 * |trends|))
  }

  /** `chartData` for both windows. */
  function Chart(trends: seq<DiseaseRow>, d: Disease, t: Timeframe, jitter: seq<real>): seq<DiseaseRow>
    requires |jitter| == 3 * |trends|
  {
    if t == LastWeek then LastSeven(trends) else MonthChart(trends, d, jitter)
  }

  /** Division by `n` of `q * n + r` for `0 <= r < n`. */
  lemma DivModUnique(q: nat, n: nat, r: nat)
    requires r < n
    ensures (q * n + r) / n == q && (q * n + r) % n == r
  {
    var k := q * n + r;
    var q', r' := k / n, k % n;
    assert k == q' * n + r';
    assert (q - q') * n == r' - r;
    MulSign(q - q', n);
  }

  /** Pushing the copy of row `j` of the round that starts at `base`
      extends `Copies` by one. */
  lemma CopiesStep(trends: seq<DiseaseRow>, d: Disease, jitter: seq<real>, round: nat, base: nat, j: nat)
    requires |jitter| == 3 * |trends|
    requires 1 <= round <= 3 && base == (round - 1) * |trends| && j < |trends|
    ensures base + j < 3 * |trends|
    ensures Copies(trends, d, jitter, base + j + 1) ==
            Copies(trends, d, jitter, base + j) + [JitterRow(trends[j], d, round, jitter[base + j])]
  {
    var n := |trends|;
    var k := base + j;
    MulSign(3 - round, n);
    DivModUnique(round - 1, n, j);
    var c, c' := Copies(trends, d, jitter, k), Copies(trends, d, jitter, k + 1);
    assert c'[k] == JitterRow(trends[j], d, round, jitter[k]);
    assert c'[..k] == c;
  }

  /** The loop of `chartData`'s month branch: push three rounds of jittered
      copies onto a copy of the table, then keep thirty rows. */
  method MonthChartRows(trends: seq<DiseaseRow>, d: Disease, jitter: seq<real>) returns (rows: seq<DiseaseRow>)
    requires |jitter| == 3 * |trends|
    ensures rows == MonthChart(trends, d, jitter)
  {
    var n := |trends|;
    var full := trends;
    var round, base := 1, 0;
    while round < 4
      invariant 1 <= round <= 4 && base == (round - 1) * n
      invariant full == trends + Copies(trends, d, jitter, base)
    {
      var j := 0;
      while j < n
        invariant 0 <= j <= n
        invariant full == trends + Copies(trends, d, jitter, base + j)
      {
        CopiesStep(trends, d, jitter, round, base, j);
        ghost var before := Copies(trends, d, jitter, base + j);
        var row := JitterRow(trends[j], d, round, jitter[base + j]);
        assert trends + before + [row] == trends + (before + [row]);
        full := full + [row];
        j := j + 1;
      }
      round, base := round + 1, base + n;
    }
    assert base == 3 * n;
    rows := FirstThirty(full);
  }

  /** The month chart has `4 n` rows, capped at thirty: the seven-row
      district table gives 28 rows under "Last 30 Days". */
  lemma MonthChartLength(trends: seq<DiseaseRow>, d: Disease, jitter: seq<real>)
    requires |jitter| == 3 * |trends|
    ensures |MonthChart(trends, d, jitter)| == if 4 * |trends| < 30 then 4 * |trends| else 30
    ensures |trends| == 7 ==> |MonthChart(trends, d, jitter)| == 28
  {
  }

  /** The month chart starts with the table itself, unchanged. */
  lemma MonthChartStartsWithTable(trends: seq<DiseaseRow>, d: Disease, jitter: seq<real>, k: nat)
    requires |jitter| == 3 * |trends|
    requires k < |trends| && k < 30
    ensures MonthChart(trends, d, jitter)[k] == trends[k]
  {
  }

  /** Every later row is a jittered copy: row `j` of round `round` has the
      round appended to its date, the chosen disease moved by its jitter and
      held at zero, and the other diseases unchanged. */
  lemma MonthChartCopyRow(trends: seq<DiseaseRow>, d: Disease, jitter: seq<real>, round: nat, j: nat)
    requires |jitter| == 3 * |trends|
    requires 1 <= round <= 3 && j < |trends|
    requires round * |trends| + j < |MonthChart(trends, d, jitter)|
    ensures var n := |trends|;
            var row := MonthChart(trends, d, jitter)[round * n + j];
            row.date == trends[j].date + [' ', Digit(round)] &&
            ValueOf(row, d) == Clamp(ValueOf(trends[j], d) + jitter[(round - 1) * n + j]) &&
            forall e :: e != d ==> ValueOf(row, e) == ValueOf(trends[j], e)
  {
    var n := |trends|;
    var i := (round - 1) * n + j;
    assert round * n + j == n + i;
    var copies := Copies(trends, d, jitter, 3 * n);
    assert MonthChart(trends, d, jitter)[n + i] == (trends + copies)[n + i] == copies[i];
    DivModUnique(round - 1, n, j);
    assert copies[i] == JitterRow(trends[j], d, round, jitter[i]);
  }

  /** With the jitter in the range `Math.random() * 10 - 5` draws from, a
      non-negative value moves by at most five. */
  lemma JitterWithinFive(v: real, r: real)
    requires v >= 0.0 && -5.0 <= r < 5.0
    ensures v - 5.0 <= Clamp(v + r) < v + 5.0
  {
  }

  /** The page's state: the selectors, the refresh spinner and the chart
      they memoise. `chart` is recomputed whenever a selector changes, with
      fresh jitter. */
  class DetailView {
    const trends: seq<DiseaseRow>
    var disease: Disease
    var timeframe: Timeframe
    var isRefreshing: bool
    var chart: seq<DiseaseRow>

    /** The page opens on dengue over the last seven days. */
    constructor (trends: seq<DiseaseRow>)
      ensures this.trends == trends
      ensures disease == Dengue && timeframe == LastWeek && !isRefreshing
      ensures chart == LastSeven(trends)
    {
      this.trends := trends;
      disease := Dengue;
      timeframe := LastWeek;
      isRefreshing := false;
      chart := LastSeven(trends);
    }

    method Recompute(jitter: seq<real>)
      requires |jitter| == 3 * |trends|
      modifies this
      ensures chart == Chart(trends, disease, timeframe, jitter)
      ensures disease == old(disease) && timeframe == old(timeframe) && isRefreshing == old(isRefreshing)
    {
      if timeframe == LastWeek {
        chart := LastSeven(trends);
      } else {
        chart := MonthChartRows(trends, disease, jitter);
      }
    }

    method SetDisease(d: Disease, jitter: seq<real>)
      requires |jitter| == 3 * |trends|
      modifies this
      ensures disease == d && timeframe == old(timeframe) && isRefreshing == old(isRefreshing)
      ensures chart == Chart(trends, d, timeframe, jitter)
    {
      disease := d;
      Recompute(jitter);
    }

    method SetTimeframe(t: Timeframe, jitter: seq<real>)
      requires |jitter| == 3 * |trends|
      modifies this
      ensures timeframe == t && disease == old(disease) && isRefreshing == old(isRefreshing)
      ensures chart == Chart(trends, disease, t, jitter)
    {
      timeframe := t;
      Recompute(jitter);
    }

    /** "Establish Link" starts the spinner; it leaves the chart alone. */
    method Refresh()
      modifies this
      ensures isRefreshing
      ensures disease == old(disease) && timeframe == old(timeframe) && chart == old(chart)
    {
      isRefreshing := true;
    }

    /** The 800 ms timer stops the spinner. */
    method RefreshDone()
      modifies this
      ensures !isRefreshing
      ensures disease == old(disease) && timeframe == old(timeframe) && chart == old(chart)
    {
      isRefreshing := false;
    }
  }
}
