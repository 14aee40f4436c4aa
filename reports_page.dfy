/** The reporting-compliance page (pages/ReportsPage.tsx): compliance
    statistics over every hospital, a searchable registry table that can be
    narrowed to the delinquent hospitals, reminders to those hospitals and a
    simulated export. */
module ReportsPage {
  import opened Types
  import opened Seqs
  import opened Text
  import opened Numeric
  import opened Capacity

  /** The table's two tabs: every hospital, or those that have not submitted. */
  datatype RegistryFilter = AllNodes | Delinquent

  predicate IsSubmitted(h: Hospital)
  {
    h.reportingStatus == Submitted
  }

  predicate MatchesFilter(h: Hospital, filter: RegistryFilter)
  {
    filter == AllNodes || !IsSubmitted(h)
  }

  /** `filteredHospitals`: the table's rows, in table order. */
  function RegistryRows(hospitals: seq<Hospital>, term: string, filter: RegistryFilter): (r: seq<Hospital>)
    ensures IsSubsequence(r, hospitals)
    ensures forall i :: 0 <= i < |r| ==> ContainsIgnoringCase(r[i].name, term)
    ensures filter == Delinquent ==> forall i :: 0 <= i < |r| ==> !IsSubmitted(r[i])
    ensures forall i :: (0 <= i < |hospitals| && ContainsIgnoringCase(hospitals[i].name, term) &&
                         MatchesFilter(hospitals[i], filter)) ==> hospitals[i] in r
    ensures |r| == |set i | 0 <= i < |hospitals| && ContainsIgnoringCase(hospitals[i].name, term) && MatchesFilter(hospitals[i], filter)|
  {
    var keep := (h: Hospital) => ContainsIgnoringCase(h.name, term) && MatchesFilter(h, filter);
    FilterCountsIndices(hospitals, keep);
    assert Indices(hospitals, keep) == set i | 0 <= i < |hospitals| && ContainsIgnoringCase(hospitals[i].name, term) && MatchesFilter(hospitals[i], filter);
    Filter(hospitals, keep)
  }

  /** The hospitals that have submitted. */
  function SubmittedCount(hospitals: seq<Hospital>): (n: nat)
    ensures n <= |hospitals|
    ensures n == |set i | 0 <= i < |hospitals| && IsSubmitted(hospitals[i])|
  {
    var submitted := (h: Hospital) => IsSubmitted(h);
    FilterCountsIndices(hospitals, submitted);
    assert Indices(hospitals, submitted) == set i | 0 <= i < |hospitals| && IsSubmitted(hospitals[i]);
    |Filter(hospitals, submitted)|
  }

  /** "Pending Syncs", `HOSPITALS.length - submittedCount`: exactly the
      hospitals whose status is Pending or Missing. */
  function PendingSyncs(hospitals: seq<Hospital>): (n: nat)
    ensures n == |Filter(hospitals, (h: Hospital) => !IsSubmitted(h))|
    ensures n + SubmittedCount(hospitals) == |hospitals|
  {
    FilterPartition(hospitals, (h: Hospital) => IsSubmitted(h), (h: Hospital) => !IsSubmitted(h));
    |hospitals| - SubmittedCount(hospitals)
  }

  /** "Registry Compliance", `Math.round(submittedCount / HOSPITALS.length * 100)`:
      the share of hospitals that have submitted, as a whole percentage
      (nothing numeric for an empty table, where JavaScript gives `NaN`). */
  function ComplianceRate(hospitals: seq<Hospital>): (rate: Option<int>)
    ensures rate.Some? <==> |hospitals| > 0
    ensures rate.Some? ==> 0 <= rate.value <= 100
    ensures rate.Some? ==>
              rate.value as real - 0.5 <= Percent(SubmittedCount(hospitals), |hospitals|) < rate.value as real + 0.5
  {
    DisplayedPercent(SubmittedCount(hospitals), |hospitals|)
  }

  /** When every hospital has submitted, compliance is 100 %. */
  lemma FullCompliance(hospitals: seq<Hospital>)
    requires |hospitals| > 0
    requires forall h :: h in hospitals ==> IsSubmitted(h)
    ensures ComplianceRate(hospitals) == Some(100)
  {
    FilterKeepsAll(hospitals, (h: Hospital) => IsSubmitted(h));
    RoundDivExact(100, |hospitals|);
  }

  /** When no hospital has submitted, compliance is 0 % and every hospital is
      pending. */
  lemma NoCompliance(hospitals: seq<Hospital>)
    requires |hospitals| > 0
    requires forall h :: h in hospitals ==> !IsSubmitted(h)
    ensures ComplianceRate(hospitals) == Some(0)
    ensures PendingSyncs(hospitals) == |hospitals|
  {
    FilterKeepsNone(hospitals, (h: Hospital) => IsSubmitted(h));
    RoundDivExact(0, |hospitals|);
  }

  /** "Dataset Freshness", `Math.round(sum of dataFreshness / HOSPITALS.length)`:
      the mean freshness rounded half up (nothing numeric for an empty table). */
  function AverageFreshness(hospitals: seq<Hospital>): (avg: Option<int>)
    ensures avg.Some? <==> |hospitals| > 0
    ensures avg.Some? ==>
              2 * |hospitals| * avg.value <= 2 * Sum(hospitals, (h: Hospital) => h.dataFreshness) + |hospitals|
                                            < 2 * |hospitals| * (avg.value + 1)
    ensures avg.Some? ==> avg.value >= 0
  {
    if |hospitals| == 0 then None
    else
      var total := Sum(hospitals, (h: Hospital) => h.dataFreshness);
      SumNonNegative(hospitals, (h: Hospital) => h.dataFreshness);
      RoundDivMonotone(0, total, |hospitals|);
      RoundDivExact(0, |hospitals|);
      Some(RoundDiv(total, |hospitals|))
  }

  /** Freshness is a percentage: when no hospital exceeds 100, neither does
      the average. */
  lemma AverageFreshnessAtMost100(hospitals: seq<Hospital>)
    requires |hospitals| > 0
    requires forall h :: h in hospitals ==> h.dataFreshness <= 100
    ensures AverageFreshness(hospitals).value <= 100
  {
    var total := Sum(hospitals, (h: Hospital) => h.dataFreshness);
    SumBounded(hospitals, (h: Hospital) => h.dataFreshness, 100);
    RoundDivMonotone(total, 100 * |hospitals|, |hospitals|);
    RoundDivExact(100, |hospitals|);
  }

  /** The status cell's colour: emerald, amber or rose. */
  datatype Tone = Good | Waiting | Missed

  function StatusTone(status: ReportingStatus): (tone: Tone)
    ensures tone == Good <==> status == Submitted
    ensures tone == Missed <==> status == Missing
  {
    match status
    case Submitted => Good
    case Pending => Waiting
    case Missing => Missed
  }

  /** A row's freshness bar: indigo or amber, and as wide as the freshness
      percentage. */
  datatype FreshnessBar = FreshnessBar(indigo: bool, widthPercent: nat)

  /** The bar is indigo above 90 %, amber otherwise. */
  function FreshnessBarOf(h: Hospital): (bar: FreshnessBar)
    ensures bar.indigo <==> h.dataFreshness > 90
    ensures bar.widthPercent == h.dataFreshness
  {
    FreshnessBar(h.dataFreshness > 90, h.dataFreshness)
  }

  /** When every row's bar is indigo, the "Dataset Freshness" card shows more
      than 90 % too. */
  lemma AllBarsIndigoLiftsAverage(hospitals: seq<Hospital>)
    requires |hospitals| > 0
    requires forall h :: h in hospitals ==> FreshnessBarOf(h).indigo
    ensures AverageFreshness(hospitals).value > 90
  {
    var total := Sum(hospitals, (h: Hospital) => h.dataFreshness);
    SumBoundedBelow(hospitals, (h: Hospital) => h.dataFreshness, 91);
    RoundDivMonotone(91 * |hospitals|, total, |hospitals|);
    RoundDivExact(91, |hospitals|);
  }

  /** A row offers "Send Alert" exactly when its hospital has not submitted;
      a submitted row shows a check mark instead. */
  predicate OffersReminder(h: Hospital)
  {
    h.reportingStatus != Submitted
  }

  /** With an empty search, the Delinquent tab lists as many hospitals as the
      "Pending Syncs" card counts, and the All tab lists every hospital. */
  lemma EmptySearchTabs(hospitals: seq<Hospital>)
    ensures |RegistryRows(hospitals, "", Delinquent)| == PendingSyncs(hospitals)
    ensures RegistryRows(hospitals, "", AllNodes) == hospitals
  {
    forall h | h in hospitals
      ensures ContainsIgnoringCase(h.name, "")
    {
      EmptyTermMatches(h.name);
    }
    FilterExtensional(hospitals,
      (h: Hospital) => ContainsIgnoringCase(h.name, "") && MatchesFilter(h, Delinquent),
      (h: Hospital) => !IsSubmitted(h));
    FilterKeepsAll(hospitals, (h: Hospital) => ContainsIgnoringCase(h.name, "") && MatchesFilter(h, AllNodes));
  }

  /** The kind a notice asks the shell's toast to take. */
  datatype NoticeKind = SuccessNotice | InfoNotice

  datatype Notice = Notice(message: string, kind: NoticeKind)

  const ReminderPrefix := "Registry reminder dispatched to "
  const ReminderSuffix := " administration."
  const ExportNotice := Notice("District Health Summary PDF generated and downloaded.", InfoNotice)

  /** `handleSendReminder`'s message names its addressee: a hospital's name,
      or "all delinquency nodes" from the card's "Dispatch Reminders". */
  function ReminderNotice(addressee: string): (n: Notice)
    ensures n.kind == SuccessNotice
    ensures Contains(n.message, addressee)
    ensures IsPrefix(ReminderPrefix, n.message)
  {
    var msg := ReminderPrefix + addressee + ReminderSuffix;
    assert msg[|ReminderPrefix|..|ReminderPrefix| + |addressee|] == addressee;
    assert OccursAt(msg, addressee, |ReminderPrefix|);
    ContainsIffOccurs(msg, addressee);
    assert msg[..|ReminderPrefix|] == ReminderPrefix;
    Notice(msg, SuccessNotice)
  }

  /** The page's own state. `hasCallback` says whether the shell passed
      `onAction`; without it no notice is raised. The 1.5-second export timer
      is split into `StartExport` and `FinishExport`, the timer firing. */
  class ReportsView {
    const hospitals: seq<Hospital>
    const hasCallback: bool
    var searchTerm: string
    var filter: RegistryFilter
    var isExporting: bool

    constructor (hospitals: seq<Hospital>, hasCallback: bool)
      ensures this.hospitals == hospitals && this.hasCallback == hasCallback
      ensures searchTerm == "" && filter == AllNodes && !isExporting
      ensures Rows() == hospitals
    {
      this.hospitals := hospitals;
      this.hasCallback := hasCallback;
      searchTerm := "";
      filter := AllNodes;
      isExporting := false;
      new;
      EmptySearchTabs(hospitals);
    }

    function Rows(): seq<Hospital>
      reads this
    {
      RegistryRows(hospitals, searchTerm, filter)
    }

    method SetSearchTerm(term: string)
      modifies this
      ensures searchTerm == term
      ensures filter == old(filter) && isExporting == old(isExporting)
    {
      searchTerm := term;
    }

    /** The ALL and DELINQUENT buttons. */
    method SetFilter(f: RegistryFilter)
      modifies this
      ensures filter == f
      ensures searchTerm == old(searchTerm) && isExporting == old(isExporting)
      ensures f == Delinquent ==> forall i :: 0 <= i < |Rows()| ==> OffersReminder(Rows()[i])
    {
      filter := f;
    }

    /** The export button; it is disabled while an export runs. */
    method StartExport()
      modifies this
      ensures isExporting
      ensures searchTerm == old(searchTerm) && filter == old(filter)
    {
      if !isExporting {
        isExporting := true;
      }
    }

    /** The export timer fires: the button is enabled again and the shell is
        told the file was produced. */
    method FinishExport() returns (notice: Option<Notice>)
      requires isExporting
      modifies this
      ensures !isExporting
      ensures notice.Some? <==> hasCallback
      ensures notice.Some? ==> notice.value == ExportNotice
      ensures searchTerm == old(searchTerm) && filter == old(filter)
    {
      isExporting := false;
      notice := if hasCallback then Some(ExportNotice) else None;
    }

    /** A reminder, from a row's "Send Alert" or the card's "Dispatch Reminders". */
    method SendReminder(addressee: string) returns (notice: Option<Notice>)
      ensures notice.Some? <==> hasCallback
      ensures notice.Some? ==> notice.value.kind == SuccessNotice && Contains(notice.value.message, addressee)
    {
      notice := if hasCallback then Some(ReminderNotice(addressee)) else None;
    }
  }
}
