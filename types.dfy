/** The record types of the dashboard (types.ts), as Dafny values.
    Numbers that the mock tables hold as whole counts (cases, beds, freshness
    percentages) are naturals; map coordinates are reals, an idealisation of
    JavaScript doubles; the disease rows of a chart are reals because the
    30-day chart adds fractional jitter to them. */
module Types {

  /** `T | null` in the source. */
  datatype Option<T> = None | Some(value: T)

  datatype RiskLevel = High | Moderate | Low | Normal

  datatype Trend = Increasing | Decreasing | Stable

  datatype ReportingStatus = Submitted | Pending | Missing

  datatype AlertStatus = Active | Resolved | Escalated

  datatype Point = Point(x: real, y: real)

  datatype District = District(
    id: string,
    name: string,
    risk: RiskLevel,
    totalCases: nat,
    trend: Trend,
    coordinates: Point)

  datatype City = City(
    id: string,
    name: string,
    risk: RiskLevel,
    totalCases: nat,
    trend: Trend,
    highestDisease: string,
    hospitalsReporting: nat,
    coordinates: Point,
    districtId: string)

  datatype Hospital = Hospital(
    id: string,
    name: string,
    cityId: string,
    totalBeds: nat,
    occupiedBeds: nat,
    icuTotal: nat,
    icuOccupied: nat,
    risk: RiskLevel,
    lastUpdated: string,
    reportingStatus: ReportingStatus,
    dataFreshness: nat)

  /** `type` is a keyword in Dafny, so the alert's type is called `kind`. */
  datatype Alert = Alert(
    id: string,
    kind: string,
    location: string,
    reason: string,
    status: AlertStatus,
    officerAction: string,
    timestamp: string)

  /** One day of district-wide case counts. */
  datatype DiseaseRow = DiseaseRow(
    date: string,
    fever: real,
    dengue: real,
    diarrhea: real,
    malaria: real)

  datatype Report = Report(
    hospitalName: string,
    status: ReportingStatus,
    freshness: nat,
    lastUpdated: string)
}
