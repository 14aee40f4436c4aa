/** The alert feed (pages/AlertsPage.tsx): a searchable list of alerts that
    the officer can acknowledge, an investigation dialog that acknowledges
    the alert it shows, and a "Total System Logs" counter that goes down
    with every alert acknowledged. */
module AlertsPage {
  import opened Types
  import opened Seqs
  import opened Text

  /** The counter's starting value. */
  const LogBase := 128

  /** The notice passed to `onAction` on every acknowledgement. */
  const AckNotice := "Event protocol acknowledged. Logs updated."

  /** The ids of the listed alerts. */
  function AlertIds(alerts: seq<Alert>): set<string>
  {
    set a | a in alerts :: a.id
  }

  /** There are no more ids than alerts. */
  lemma {:induction false} AlertIdsBounded(alerts: seq<Alert>)
    ensures |AlertIds(alerts)| <= |alerts|
  {
    if alerts != [] {
      AlertIdsBounded(alerts[1..]);
      assert AlertIds(alerts) == AlertIds(alerts[1..]) + {alerts[0].id};
    }
  }

  /** The search box matches the alert's type or its location, ignoring case. */
  predicate MatchesAlert(a: Alert, term: string)
  {
    ContainsIgnoringCase(a.kind, term) || ContainsIgnoringCase(a.location, term)
  }

  /** `filteredAlerts`: the feed's rows, in table order. */
  function FeedRows(alerts: seq<Alert>, term: string): (r: seq<Alert>)
    ensures IsSubsequence(r, alerts)
    ensures forall i :: 0 <= i < |r| ==> MatchesAlert(r[i], term)
    ensures forall i :: 0 <= i < |alerts| && MatchesAlert(alerts[i], term) ==> alerts[i] in r
    ensures |r| == |set i | 0 <= i < |alerts| && MatchesAlert(alerts[i], term)|
  {
    var keep := (a: Alert) => MatchesAlert(a, term);
    FilterCountsIndices(alerts, keep);
    assert Indices(alerts, keep) == set i | 0 <= i < |alerts| && MatchesAlert(alerts[i], term);
    Filter(alerts, keep)
  }

  /** With an empty search the feed lists every alert. */
  lemma EmptySearchListsAll(alerts: seq<Alert>)
    ensures FeedRows(alerts, "") == alerts
  {
    forall a | a in alerts
      ensures MatchesAlert(a, "")
    {
      EmptyTermMatches(a.kind);
    }
    FilterKeepsAll(alerts, (a: Alert) => MatchesAlert(a, ""));
  }

  /** The badge's colour: slate once acknowledged, else rose, amber or
      emerald by status. */
  datatype Tone = Muted | RoseTone | AmberTone | EmeraldTone

  /** How one row of the feed looks. `badge` is `None` for "Acknowledged",
      otherwise the alert's status; `shield` is the shield icon (rather than
      the warning triangle); the acknowledge button reads "Logged" and is
      disabled once the alert is acknowledged, "Mark as Seen" before. */
  datatype RowLook = RowLook(badge: Option<AlertStatus>, tone: Tone, shield: bool, dimmed: bool, canAcknowledge: bool)

  function RowLookOf(a: Alert, isAck: bool): (look: RowLook)
    ensures isAck <==> look.badge.None?
    ensures isAck <==> look.tone == Muted
    ensures isAck <==> !look.canAcknowledge
    ensures isAck <==> look.dimmed
    ensures !isAck ==> look.badge == Some(a.status)
    ensures look.tone == RoseTone <==> !isAck && a.status == Active
    ensures look.tone == AmberTone <==> !isAck && a.status == Escalated
    ensures look.shield <==> isAck || a.status == Resolved
  {
    var tone :=
      if isAck then Muted
      else match a.status
        case Active => RoseTone
        case Escalated => AmberTone
        case Resolved => EmeraldTone;
    RowLook(if isAck then None else Some(a.status), tone, a.status == Resolved || isAck, isAck, !isAck)
  }

  /** The page's state: the search term, the acknowledged ids and the alert
      being investigated. `hasCallback` says whether the shell passed
      `onAction`. */
  class AlertsView {
    const alerts: seq<Alert>
    const hasCallback: bool
    var searchTerm: string
    var acknowledged: set<string>
    var investigating: Option<Alert>

    /** Only listed alerts are acknowledged or investigated: every button
        that acknowledges or opens the dialog belongs to a listed alert. */
    predicate Valid()
      reads this
    {
      acknowledged <= AlertIds(alerts) &&
      (investigating.Some? ==> investigating.value in alerts)
    }

    constructor (alerts: seq<Alert>, hasCallback: bool)
      ensures Valid()
      ensures this.alerts == alerts && this.hasCallback == hasCallback
      ensures searchTerm == "" && acknowledged == {} && investigating == None
      ensures Rows() == alerts && TotalSystemLogs() == LogBase
    {
      this.alerts := alerts;
      this.hasCallback := hasCallback;
      searchTerm := "";
      acknowledged := {};
      investigating := None;
      new;
      EmptySearchListsAll(alerts);
    }

    function Rows(): seq<Alert>
      reads this
    {
      FeedRows(alerts, searchTerm)
    }

    function Look(a: Alert): RowLook
      reads this
    {
      RowLookOf(a, a.id in acknowledged)
    }

    /** `128 - acknowledgedIds.size`. */
    function TotalSystemLogs(): int
      reads this
    {
      LogBase - |acknowledged|
    }

    /** The counter never drops below 128 less the number of alerts, so it
        stays positive while fewer than 128 alerts are listed. */
    lemma LogsBounded()
      requires Valid()
      ensures LogBase - |alerts| <= TotalSystemLogs() <= LogBase
    {
      AlertIdsBounded(alerts);
      SubsetCardinality(acknowledged, AlertIds(alerts));
    }

    method SetSearchTerm(term: string)
      requires Valid()
      modifies this
      ensures Valid()
      ensures searchTerm == term
      ensures acknowledged == old(acknowledged) && investigating == old(investigating)
    {
      searchTerm := term;
    }

    /** `handleAcknowledge`: add the id to the set (again, from the dialog, is
        harmless) and notify the shell. */
    method Acknowledge(id: string) returns (notice: Option<string>)
      requires Valid() && id in AlertIds(alerts)
      modifies this
      ensures Valid()
      ensures acknowledged == old(acknowledged) + {id}
      ensures TotalSystemLogs() == old(TotalSystemLogs()) - (if id in old(acknowledged) then 0 else 1)
      ensures forall a :: a in alerts && a.id == id ==> !Look(a).canAcknowledge && Look(a).badge.None?
      ensures searchTerm == old(searchTerm) && investigating == old(investigating)
      ensures notice.Some? <==> hasCallback
      ensures notice.Some? ==> notice.value == AckNotice
    {
      acknowledged := acknowledged + {id};
      notice := if hasCallback then Some(AckNotice) else None;
    }

    /** "Investigate Case" opens the dialog on that alert. */
    method Investigate(a: Alert)
      requires Valid() && a in alerts
      modifies this
      ensures Valid()
      ensures investigating == Some(a)
      ensures searchTerm == old(searchTerm) && acknowledged == old(acknowledged)
    {
      investigating := Some(a);
    }

    /** The dialog's close button and its backdrop. */
    method CloseInvestigation()
      requires Valid()
      modifies this
      ensures Valid()
      ensures investigating == None
      ensures searchTerm == old(searchTerm) && acknowledged == old(acknowledged)
    {
      investigating := None;
    }

    /** "Seal Incident Log": acknowledge the alert under investigation and
        close the dialog. */
    method SealIncidentLog() returns (notice: Option<string>)
      requires Valid() && investigating.Some?
      modifies this
      ensures Valid()
      ensures acknowledged == old(acknowledged) + {old(investigating).value.id}
      ensures investigating == None
      ensures searchTerm == old(searchTerm)
      ensures notice.Some? <==> hasCallback
    {
      var a := investigating.value;
      assert a.id in AlertIds(alerts);
      notice := Acknowledge(a.id);
      investigating := None;
    }
  }

  /** A subset is no larger than its superset. */
  lemma {:induction false} SubsetCardinality<T>(a: set<T>, b: set<T>)
    requires a <= b
    ensures |a| <= |b|
  {
    if a != {} {
      var x :| x in a;
      SubsetCardinality(a - {x}, b - {x});
    }
  }
}
