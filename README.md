# Samved district health dashboard — a Dafny model

The Samved dashboard is a client-side React application for a district
health administration. It shows mock tables of districts, cities,
hospitals, alerts and disease trends. This project models the logic those
pages compute, and proves what that logic promises:

- **App shell**: the login gate, the page switch, the detail pages' default
  ids and back targets, and the navigation bar's highlight rule.
- **Map**: the viewBox fitted around the plotted points, zoom about the
  centre within a width range, drag-panning, the state/district drill-down
  with its auto-centre effect, and the tooltip's quadrant placement.
- **Hospital list**: a case-insensitive name search with a risk filter and
  its drop-down menu, and each row's bed load and ICU flag.
- **Reports**: the registry search with the All/Delinquent tabs, the
  compliance and freshness figures, reminders, and the simulated export.
- **Alerts**: the searchable feed, the growing set of acknowledged alerts
  with its "Total System Logs" counter, and the investigation dialog.
- **Overview**: district-wide totals, the occupancy rate, the feed of
  unresolved alerts, and the time of day in their stamps.
- **City dashboard**: the city lookup with its fallback, the city's alerts
  and hospitals, the disease breakdown, and the synthetic week of cases.
- **Hospital detail**: the hospital lookup, the bed and ICU gauges, and the
  disease chart. The chart shows the last seven days, or a simulated month
  built by a loop that appends three jittered copies of the trend table.

How the model is laid out:

- Each page is one module (`MapPage`, `App`, `HospitalsPage`, `ReportsPage`,
  `AlertsPage`, `OverviewPage`, `CityDashboard`, `HospitalDetailPage`).
- Helper modules hold the record types (`Types`), sequence filtering and
  summing (`Seqs`), ASCII lower-casing and substring search (`Text`),
  round-half-up division (`Numeric`), and the bed/ICU thresholds shared by
  three pages (`Capacity`).
- The mock tables are parameters.
- A component whose handlers update state is a class. Its methods state the
  whole new state. The derived lists and figures are functions.
- The month chart's `for` loop is a method with loop invariants, proved
  equal to the function `MonthChart`. Lemmas state what that function
  promises.

Arithmetic: coordinates and the viewBox are exact reals. Percentages are
exact rationals, and `Math.round` is round half up on the exact quotient.
A division by zero gives JavaScript `NaN` or `Infinity`, and JavaScript's
comparisons with those values are modelled explicitly. A percentage that
would print as `NaN` or `Infinity` is `None`.

## Model

| member | source | states |
|---|---|---|
| MapPage.MinOf | Government-samved-master/pages/MapPage.tsx:112-114 | `Math.min` over the items' coordinates is one of them and is at most every one |
| MapPage.MaxOf | Government-samved-master/pages/MapPage.tsx:113-115 | `Math.max` over the items' coordinates is one of them and is at least every one |
| MapPage.FitViewBox | Government-samved-master/pages/MapPage.tsx:112-134 | the fitted box is at least 40 x 40. Every item lies inside it with `padding` to spare on each side. It is centred on the centre of the items' bounding box. Where the 40 minimum does not apply, the extreme items sit exactly `padding` from the edges |
| MapPage.OptimalViewBox | Government-samved-master/pages/MapPage.tsx:98-135 | with nothing to plot the box is the default 0,0,100,100. Otherwise the plotted layer (all districts at state level, the selected district's cities at district level) is enclosed and centred with the level's padding. Along a side longer than 40 the box is tight: the extreme items sit exactly the padding from its edges. The box always has a positive size |
| MapPage.EmptyDistrictGivesDefault | Government-samved-master/pages/MapPage.tsx:105-110 | at district level with no selected district, or with a district that has no cities, the map shows the default box |
| MapPage.StateLevelEnclosesDistricts | Government-samved-master/pages/MapPage.tsx:102-104 | at state level every district lies at least 10 units inside the fitted box |
| MapPage.DistrictLevelEnclosesCities | Government-samved-master/pages/MapPage.tsx:105-107 | at district level every city of the selected district lies at least 20 units inside the fitted box |
| MapPage.Zoomed | Government-samved-master/pages/MapPage.tsx:150-170 | an accepted zoom scales width and height by the factor and keeps the centre. A step whose new width leaves [10, 300] returns the previous box unchanged |
| MapPage.ZoomInThenOutRestores | Government-samved-master/pages/MapPage.tsx:172-173 | zooming in (0.8) and then out (1.25) gives back the original box, with both steps accepted |
| MapPage.ZoomOutThenInRestores | Government-samved-master/pages/MapPage.tsx:172-173 | zooming out and then in gives back the original box, with both steps accepted |
| MapPage.ZoomIgnoresHeight | Government-samved-master/pages/MapPage.tsx:155-157 | only the width is checked: a zoom-in is accepted even when it takes the height below 10 |
| MapPage.WheelFactor | Government-samved-master/pages/MapPage.tsx:187 | scrolling down zooms out (factor above 1), anything else zooms in; the factor is positive |
| MapPage.Panned | Government-samved-master/pages/MapPage.tsx:219-223 | a drag step keeps the size and moves the centre against the mouse by the displacement times the scale |
| MapPage.PanSteps | Government-samved-master/pages/MapPage.tsx:205-226 | two drag steps move the box as one step by the summed displacement |
| MapPage.PanUndo | Government-samved-master/pages/MapPage.tsx:205-226 | dragging back by the same displacement undoes a drag step |
| MapPage.CityPos | Government-samved-master/pages/MapPage.tsx:79-82 | the coordinates of the first city with the id, or the origin when there is none |
| MapPage.DistrictPos | Government-samved-master/pages/MapPage.tsx:84-87 | the coordinates of the first district with the id, or the origin when there is none |
| MapPage.StatusColor | Government-samved-master/pages/MapPage.tsx:89-95 | rose exactly for High, amber exactly for Moderate, emerald exactly for Low and Normal |
| MapPage.TooltipPlacement | Government-samved-master/pages/MapPage.tsx:563-576 | horizontal shift -90 % iff right of 75 %, -10 % iff left of 25 % and not right, -50 % otherwise. Vertical shift 20 % iff above 30 %, -120 % otherwise |
| MapPage.Tooltip | Government-samved-master/pages/MapPage.tsx:238-246 | a tooltip is shown iff a hovered id is set and names an item of the current level's table. Its shift is the placement rule applied to where the first item with that id falls, in per cent of the visible box |
| MapPage.MapView.constructor | Government-samved-master/pages/MapPage.tsx:17-24 | the map opens at state level with nothing selected, hovered or dragged, and the mount effect fits the box to the districts |
| MapPage.MapView.ResetZoom | Government-samved-master/pages/MapPage.tsx:175-178 | the box becomes the optimal box for the current level and district; nothing else changes |
| MapPage.MapView.Zoom | Government-samved-master/pages/MapPage.tsx:150-170 | the box becomes `Zoomed(old box, factor)`; the level, selection, hover and drag state are kept |
| MapPage.MapView.ZoomIn | Government-samved-master/pages/MapPage.tsx:172 | a zoom by 0.8 |
| MapPage.MapView.ZoomOut | Government-samved-master/pages/MapPage.tsx:173 | a zoom by 1.25 |
| MapPage.MapView.Wheel | Government-samved-master/pages/MapPage.tsx:185-189 | a zoom by 1.05 when scrolling down, by 0.95 otherwise |
| MapPage.MapView.MouseDown | Government-samved-master/pages/MapPage.tsx:198-203 | only the primary button starts a drag, from the mouse position; other buttons change nothing |
| MapPage.MapView.MouseMove | Government-samved-master/pages/MapPage.tsx:205-226 | while dragging, the drag origin moves to the mouse and the box is panned by the displacement at scale box-width / element-width. Without a drag, or without a mounted element, the box is kept |
| MapPage.MapView.MouseUp | Government-samved-master/pages/MapPage.tsx:228-230 | the drag ends; nothing else changes |
| MapPage.MapView.Hover | Government-samved-master/pages/MapPage.tsx:495-496 | mouse-enter sets the hovered id and mouse-leave clears it; nothing else changes |
| MapPage.MapView.AutoCentre | Government-samved-master/pages/MapPage.tsx:233-235 | the box is refitted iff the level or the selected district changed since the previous render |
| MapPage.MapView.DistrictClick | Government-samved-master/pages/MapPage.tsx:137-141 | district level with the clicked district selected and no hover. Coming from state level, the box is fitted to that district's cities. Clicking the selected district again keeps the box |
| MapPage.MapView.BackToState | Government-samved-master/pages/MapPage.tsx:143-147 | state level, no selection, no hover. Coming from district level, the box is fitted to all districts |
| App.ActiveItem | Government-samved-master/App.tsx:115 | the highlighted item is always one of the five navigation items and is active on the page |
| App.ExactlyOneActive | Government-samved-master/App.tsx:171 | on every page exactly one navigation item is highlighted: `city` lights `map`, `hospital-detail` lights `hospitals`, every other page lights itself |
| App.OrDefault | Government-samved-master/App.tsx:85 | `id \|\| fallback`: a missing or empty id gives the fallback, any other id is kept |
| App.RenderScreen | Government-samved-master/App.tsx:63-91 | logged out shows only the login page. The city page shows the selected id or `solapur-city` and goes back to `map`. The hospital page shows the selected id or `h1` and goes back to `hospitals`. Each other screen is shown iff logged in with its page selected |
| App.DetailDefaults | Government-samved-master/App.tsx:85-87 | with nothing selected (or an empty id) the detail pages show `solapur-city` and `h1` |
| App.ReportsToastKind | Government-samved-master/App.tsx:89 | the reports page's `info` stays `info`, anything else becomes `success`; never `error` |
| App.AppState.constructor | Government-samved-master/App.tsx:25-31 | logged out, on the overview page, nothing selected, every menu closed, no toast |
| App.AppState.Login | Government-samved-master/App.tsx:64 | logs in and keeps every other field |
| App.AppState.Logout | Government-samved-master/App.tsx:131 | logs out to the login page and keeps the page and selections |
| App.AppState.NavigateToCity | Government-samved-master/App.tsx:45-49 | selects the city and opens the city page, which then shows that id (or `solapur-city` for an empty id); nothing else changes |
| App.AppState.NavigateToHospital | Government-samved-master/App.tsx:51-55 | selects the hospital and opens its page, which then shows that id (or `h1` for an empty id); nothing else changes |
| App.AppState.PageChange | Government-samved-master/App.tsx:57-61 | switches page and closes the mobile drawer; the selections survive |
| App.AppState.Back | Government-samved-master/App.tsx:85-87 | the city page returns to `map`, the hospital page to `hospitals` |
| App.AppState.ToggleProfile | Government-samved-master/App.tsx:194 | the profile menu flips; nothing else changes |
| App.AppState.SetMobileMenu | Government-samved-master/App.tsx:151 | the drawer opens or closes; nothing else changes |
| App.AppState.ShowToast | Government-samved-master/App.tsx:40-41 | the toast shows the message with its kind; nothing else changes |
| App.AppState.DismissToast | Government-samved-master/App.tsx:231 | the toast is cleared; nothing else changes |
| App.LogoutLoginKeepsPage | Government-samved-master/App.tsx:213 | logging out and back in shows the page that was open, with the same selections |
| Capacity.OccupancyBand | Government-samved-master/pages/CityDashboard.tsx:221-234 | the bar is rose iff the load is above 90 %, amber iff in (70 %, 90 %], emerald iff at most 70 %. For zero beds it is rose iff any bed is occupied (`Infinity`), never amber |
| Capacity.BandMonotone | Government-samved-master/pages/HospitalsPage.tsx:114 | more occupied beds of the same total never give a calmer colour |
| Capacity.IcuCritical | Government-samved-master/pages/CityDashboard.tsx:242 | the ICU badge is red iff occupied / total > 0.9; for a zero total iff any ICU bed is occupied |
| Capacity.IcuWithRoomIsCalm | Government-samved-master/pages/HospitalsPage.tsx:122 | an ICU with at least one free bed in ten is never flagged |
| Capacity.DisplayedPercent | Government-samved-master/pages/HospitalDetailPage.tsx:162 | the printed load is within half a point of the exact percentage and lies in 0..100 when no bed is over-occupied; nothing numeric for a zero total |
| HospitalsPage.FilteredHospitals | Government-samved-master/pages/HospitalsPage.tsx:18-22 | an order-preserving subsequence of the table. Every row's name contains the term ignoring case, and under a chosen level every row has it. Every hospital passing both tests is listed, and there are as many rows as table positions that pass |
| HospitalsPage.AllRisksIsSearchOnly | Government-samved-master/pages/HospitalsPage.tsx:20 | with "All" only the name search applies |
| HospitalsPage.InitialListIsComplete | Government-samved-master/pages/HospitalsPage.tsx:14-15 | an empty search with "All" lists every hospital in table order |
| HospitalsPage.SearchIgnoresCase | Government-samved-master/pages/HospitalsPage.tsx:19 | terms that agree after lower-casing select the same hospitals |
| HospitalsPage.FilterCaption | Government-samved-master/pages/HospitalsPage.tsx:58 | the button reads "Filter" iff every level is shown, otherwise the chosen level |
| HospitalsPage.FilterButtonDark | Government-samved-master/pages/HospitalsPage.tsx:54 | the filter button is dark iff its menu is open or it carries a caption (a level is chosen) |
| HospitalsPage.CityNameOf | Government-samved-master/pages/HospitalsPage.tsx:98 | the name of the first city with the hospital's city id; nothing iff no city has it |
| HospitalsPage.RowLoadOf | Government-samved-master/pages/HospitalsPage.tsx:97-122 | the row's percentage exists iff the hospital has beds, is within half a point of the exact percentage, and is in 0..100 when it is not over-occupied. A rose bar or a red ICU badge needs occupied beds |
| HospitalsPage.HospitalsView.constructor | Government-samved-master/pages/HospitalsPage.tsx:14-16 | empty search, "All", menu closed, every hospital shown, and the filter button light |
| HospitalsPage.HospitalsView.SetSearchTerm | Government-samved-master/pages/HospitalsPage.tsx:14 | the term changes, the filter and menu do not |
| HospitalsPage.HospitalsView.ToggleFilterMenu | Government-samved-master/pages/HospitalsPage.tsx:52 | the menu flips; the term and filter are kept, and an open menu darkens the button |
| HospitalsPage.HospitalsView.ChooseRisk | Government-samved-master/pages/HospitalsPage.tsx:67-70 | the option becomes the filter and the menu closes. Under a chosen level every shown row has it, and the button stays dark iff a level was chosen |
| ReportsPage.RegistryRows | Government-samved-master/pages/ReportsPage.tsx:29-33 | an order-preserving subsequence. Every row's name contains the term ignoring case, and under Delinquent no row has submitted. Every hospital passing both tests is listed, and there are as many rows as table positions that pass |
| ReportsPage.SubmittedCount | Government-samved-master/pages/ReportsPage.tsx:36 | the number of table positions holding a submitted hospital, at most the table's size |
| ReportsPage.PendingSyncs | Government-samved-master/pages/ReportsPage.tsx:100 | "Pending Syncs" is exactly the number of hospitals that have not submitted, and it plus the submitted count is the table's size |
| ReportsPage.ComplianceRate | Government-samved-master/pages/ReportsPage.tsx:37 | a whole percentage within half a point of the submitted share, in 0..100; nothing numeric for an empty table. It depends on the table alone, not on the search or the tab |
| ReportsPage.FullCompliance | Government-samved-master/pages/ReportsPage.tsx:37 | when every hospital has submitted, compliance is 100 % |
| ReportsPage.NoCompliance | Government-samved-master/pages/ReportsPage.tsx:36-37 | when none has, compliance is 0 % and every hospital is pending |
| ReportsPage.AverageFreshness | Government-samved-master/pages/ReportsPage.tsx:38 | the mean freshness rounded half up: `2n·avg <= 2·sum + n < 2n·(avg + 1)`, never negative; nothing numeric for an empty table |
| ReportsPage.AverageFreshnessAtMost100 | Government-samved-master/pages/ReportsPage.tsx:38 | when no hospital's freshness exceeds 100, neither does the mean |
| ReportsPage.FreshnessBarOf | Government-samved-master/pages/ReportsPage.tsx:188 | a row's bar is indigo iff its freshness is above 90, and is as wide as the freshness percentage |
| ReportsPage.AllBarsIndigoLiftsAverage | Government-samved-master/pages/ReportsPage.tsx:38 | when every row's bar is indigo, the rounded mean freshness is above 90 too |
| ReportsPage.StatusTone | Government-samved-master/pages/ReportsPage.tsx:177-179 | emerald iff submitted, rose iff missing, amber otherwise |
| ReportsPage.EmptySearchTabs | Government-samved-master/pages/ReportsPage.tsx:29-33 | with an empty search the Delinquent tab lists as many rows as "Pending Syncs" counts, and the All tab lists the whole table |
| ReportsPage.ReminderNotice | Government-samved-master/pages/ReportsPage.tsx:25-27 | a success notice that begins "Registry reminder dispatched to " and names its addressee |
| ReportsPage.ReportsView.constructor | Government-samved-master/pages/ReportsPage.tsx:13-15 | empty search, All tab, not exporting, every hospital listed |
| ReportsPage.ReportsView.SetSearchTerm | Government-samved-master/pages/ReportsPage.tsx:13 | the term changes, the tab and export state do not |
| ReportsPage.ReportsView.SetFilter | Government-samved-master/pages/ReportsPage.tsx:134-143 | the tab changes. Under Delinquent every listed row offers "Send Alert" |
| ReportsPage.ReportsView.StartExport | Government-samved-master/pages/ReportsPage.tsx:17-18 | an export is running afterwards; the search and tab are kept |
| ReportsPage.ReportsView.FinishExport | Government-samved-master/pages/ReportsPage.tsx:19-22 | the export ends, and the shell is sent the "generated and downloaded" info notice iff it passed a callback |
| ReportsPage.ReportsView.SendReminder | Government-samved-master/pages/ReportsPage.tsx:197-208 | a success notice naming the addressee, raised iff the shell passed a callback |
| AlertsPage.AlertIdsBounded | Government-samved-master/pages/AlertsPage.tsx:130 | there are no more distinct alert ids than alerts |
| AlertsPage.FeedRows | Government-samved-master/pages/AlertsPage.tsx:20-23 | an order-preserving subsequence. Every row's type or location contains the term ignoring case, and every alert that matches is listed, one row per matching position |
| AlertsPage.EmptySearchListsAll | Government-samved-master/pages/AlertsPage.tsx:11 | an empty search lists every alert |
| AlertsPage.RowLookOf | Government-samved-master/pages/AlertsPage.tsx:137-195 | once acknowledged, a row is dimmed and muted, reads "Acknowledged" whatever its status, and its button is disabled ("Logged"). Before that, the badge shows the status in rose (Active), amber (Escalated) or emerald. The shield icon shows iff acknowledged or resolved |
| AlertsPage.AlertsView.constructor | Government-samved-master/pages/AlertsPage.tsx:11-13 | empty search, nothing acknowledged, no dialog; every alert listed and the counter at 128 |
| AlertsPage.AlertsView.LogsBounded | Government-samved-master/pages/AlertsPage.tsx:130 | the counter stays between 128 less the number of alerts and 128 |
| AlertsPage.AlertsView.SetSearchTerm | Government-samved-master/pages/AlertsPage.tsx:11 | the term changes; the acknowledged set and dialog are kept |
| AlertsPage.AlertsView.Acknowledge | Government-samved-master/pages/AlertsPage.tsx:15-18 | the set grows by the id (idempotent), so the counter drops by one for a new id and not at all for a repeated one. The alert's button is then disabled. The notice is raised iff the shell passed a callback |
| AlertsPage.AlertsView.Investigate | Government-samved-master/pages/AlertsPage.tsx:180 | the dialog opens on that alert |
| AlertsPage.AlertsView.CloseInvestigation | Government-samved-master/pages/AlertsPage.tsx:30-40 | the dialog closes; the search and acknowledged set are kept |
| AlertsPage.AlertsView.SealIncidentLog | Government-samved-master/pages/AlertsPage.tsx:77-81 | acknowledges the alert under investigation and closes the dialog |
| AlertsPage.SubsetCardinality | Government-samved-master/pages/AlertsPage.tsx:130 | only listed ids are ever acknowledged, so there are never more acknowledged ids than listed ids |
| OverviewPage.ActiveAlerts | Government-samved-master/pages/OverviewPage.tsx:24 | exactly the unresolved alerts (Active or Escalated), in table order, one row per unresolved position |
| OverviewPage.ActivePlusResolved | Government-samved-master/pages/OverviewPage.tsx:24 | the feed and the resolved alerts together account for every alert |
| OverviewPage.TotalCases | Government-samved-master/pages/OverviewPage.tsx:25 | "District Load" is never below any one city's cases, and is zero with no cities |
| OverviewPage.TotalBeds | Government-samved-master/pages/OverviewPage.tsx:26 | the district's beds are never below any one hospital's, and are zero for an empty table |
| OverviewPage.OccupiedBeds | Government-samved-master/pages/OverviewPage.tsx:27 | the district's occupied beds are never below any one hospital's, and are zero for an empty table |
| OverviewPage.TotalsAdditive | Government-samved-master/pages/OverviewPage.tsx:25-27 | the three totals add up over any split of the tables |
| OverviewPage.SingleCityTotal | Government-samved-master/pages/OverviewPage.tsx:25 | one city's load is its own case count |
| OverviewPage.SingleHospitalTotals | Government-samved-master/pages/OverviewPage.tsx:26-27 | one hospital's beds and occupied beds are its own, so with TotalsAdditive the totals are the sums |
| OverviewPage.OccupiedAtMostTotal | Government-samved-master/pages/OverviewPage.tsx:26-27 | with no hospital over capacity, no more beds are occupied than exist |
| OverviewPage.OccupancyRate | Government-samved-master/pages/OverviewPage.tsx:28 | "Inpatient Flux" is within half a point of the district's exact occupancy; nothing numeric when there are no beds |
| OverviewPage.OccupancyRateAtMost100 | Government-samved-master/pages/OverviewPage.tsx:28 | with no hospital over capacity the rate lies in 0..100 |
| OverviewPage.TimeOfDay | Government-samved-master/pages/OverviewPage.tsx:128 | the second space-separated word, which holds no space; nothing (`undefined`) iff the stamp has no space |
| OverviewPage.TimeOfDayOfStamp | Government-samved-master/pages/OverviewPage.tsx:128 | a stamp "date time", followed by nothing or by a space and anything, shows exactly its time |
| CityDashboard.ResolveCity | Government-samved-master/pages/CityDashboard.tsx:14 | the first city with the id, else the first city; nothing iff the table is empty |
| CityDashboard.CityAlerts | Government-samved-master/pages/CityDashboard.tsx:15 | exactly the alerts whose location contains the city's name (case-sensitive), in table order, one per matching position |
| CityDashboard.CityHospitals | Government-samved-master/pages/CityDashboard.tsx:16 | exactly the hospitals of the requested id, in table order, one per matching position |
| CityDashboard.UnknownIdShowsNoHospitals | Government-samved-master/pages/CityDashboard.tsx:14-16 | an unknown id shows the first city's header with no hospitals, when every hospital belongs to a listed city |
| CityDashboard.DiseaseBreakdown | Government-samved-master/pages/CityDashboard.tsx:19-25 | five named slices, each the floor of its share (45, 25, 15, 10, 5 %) of the city's cases |
| CityDashboard.BreakdownAccountsForCases | Government-samved-master/pages/CityDashboard.tsx:19-25 | the slices add up to the city's cases less at most four |
| CityDashboard.TrendDataAsWritten | Government-samved-master/pages/CityDashboard.tsx:27-35 | seven days Mon..Sun. Sunday is today's total, Monday is the lowest day and Saturday the highest |
| CityDashboard.SmallCityGetsNegativeCases | Government-samved-master/pages/CityDashboard.tsx:28 | below 50 cases the week as written plots a negative Monday (35 cases give -15) |
| CityDashboard.TrendData | Government-samved-master/pages/CityDashboard.tsx:27-35 | the same week held at zero: seven days, every count non-negative, Sunday today's total, Monday lowest and Saturday highest |
| CityDashboard.TrendDataAgreesFrom50 | Government-samved-master/pages/CityDashboard.tsx:27-35 | from 50 cases up the held week is the week as written |
| CityDashboard.BadgesDisagreeOnlyWhenStable | Government-samved-master/pages/CityDashboard.tsx:53-77 | "Improving" iff decreasing and a red trend card iff increasing, so the two disagree exactly on a stable trend |
| CityDashboard.TrendIconOf | Government-samved-master/pages/CityDashboard.tsx:37 | the up arrow iff increasing, the down arrow iff decreasing |
| CityDashboard.CityPage | Government-samved-master/pages/CityDashboard.tsx:13-35 | a page exists iff there is a city. It shows the resolved city; exactly the alerts naming that city, in table order; exactly the hospitals of the requested id; five slices within four cases of the total; and the week as written, ending on the total. The week is non-negative from 50 cases up and has a negative Monday below 50 |
| CityDashboard.ReportingCellOf | Government-samved-master/pages/CityDashboard.tsx:249-250 | the dot and the label are emerald iff the hospital has submitted; otherwise both are amber and the dot pulses |
| CityDashboard.DotsSplitRows | Government-samved-master/pages/CityDashboard.tsx:249 | every row has a steady green dot or a pulsing one, never both: the two counts add up to the rows |
| HospitalDetailPage.ResolveHospital | Government-samved-master/pages/HospitalDetailPage.tsx:16 | the first hospital with the id, else the first hospital; nothing iff the table is empty |
| HospitalDetailPage.Gauge | Government-samved-master/pages/HospitalDetailPage.tsx:20-28 | two slices, occupied and available. They add up to the total, and available is non-negative iff the ward is not over-occupied (also the "Available" figures at lines 174 and 200) |
| HospitalDetailPage.LoadsOf | Government-samved-master/pages/HospitalDetailPage.tsx:159-188 | bed and ICU loads exist iff their totals are positive, are within half a point of the exact percentage, and lie in 0..100 when not over-occupied |
| HospitalDetailPage.WithValue | Government-samved-master/pages/HospitalDetailPage.tsx:43 | `{...row, [disease]: v}` sets that disease to `v` and keeps the date and every other disease |
| HospitalDetailPage.LastSeven | Government-samved-master/pages/HospitalDetailPage.tsx:34 | `slice(-7)`: the last min(7, n) rows, a suffix of the table |
| HospitalDetailPage.Clamp | Government-samved-master/pages/HospitalDetailPage.tsx:43 | `Math.max(0, v)` is non-negative, at least `v`, and equal to `v` or 0 |
| HospitalDetailPage.JitterRow | Government-samved-master/pages/HospitalDetailPage.tsx:40-44 | a copy's date gets " i" appended and its chosen disease moves by the jitter, held at zero; the other diseases are kept |
| HospitalDetailPage.FirstThirty | Government-samved-master/pages/HospitalDetailPage.tsx:47 | `slice(0, 30)`: a prefix of min(30, n) rows |
| HospitalDetailPage.MonthChartRows | Government-samved-master/pages/HospitalDetailPage.tsx:36-47 | the `for`/`forEach`/`push` loop followed by `slice(0, 30)` produces exactly the month chart |
| HospitalDetailPage.MonthChartLength | Government-samved-master/pages/HospitalDetailPage.tsx:36-47 | the month chart has min(30, 4n) rows: 28 for a seven-row table |
| HospitalDetailPage.MonthChartStartsWithTable | Government-samved-master/pages/HospitalDetailPage.tsx:36 | the chart starts with the table, unchanged |
| HospitalDetailPage.MonthChartCopyRow | Government-samved-master/pages/HospitalDetailPage.tsx:37-45 | the row at position round·n + j (round 1 to 3) copies table row j. Its date has the round appended, its chosen disease moves by its jitter held at zero, and the other diseases are kept |
| HospitalDetailPage.JitterWithinFive | Government-samved-master/pages/HospitalDetailPage.tsx:43 | with jitter drawn from [-5, 5), a non-negative value moves by less than five, and by at most five downwards |
| HospitalDetailPage.DetailView.constructor | Government-samved-master/pages/HospitalDetailPage.tsx:12-14 | the page opens on dengue over the last seven days, without the spinner |
| HospitalDetailPage.DetailView.Recompute | Government-samved-master/pages/HospitalDetailPage.tsx:31-48 | the chart becomes `Chart` of the current selectors; the selectors are kept |
| HospitalDetailPage.DetailView.SetDisease | Government-samved-master/pages/HospitalDetailPage.tsx:81 | the disease changes and the chart is recomputed for it |
| HospitalDetailPage.DetailView.SetTimeframe | Government-samved-master/pages/HospitalDetailPage.tsx:97 | the window changes and the chart is recomputed for it |
| HospitalDetailPage.DetailView.Refresh | Government-samved-master/pages/HospitalDetailPage.tsx:50-51 | the spinner starts; the chart and selectors are kept |
| HospitalDetailPage.DetailView.RefreshDone | Government-samved-master/pages/HospitalDetailPage.tsx:52 | the spinner stops; the chart and selectors are kept |

## Left out

- Rendering is not modelled: JSX, Tailwind classes (beyond the colour rules in the table above), recharts charts, lucide icons, animations and the static figures printed in the pages. Examples are the "03", "12" and "45" counters, the "8.2% surge" subtitle and the "92% occupancy" sentence.
- The mock tables are parameters, and none of their records is copied.
- `LoginPage.tsx` is not part of this model. It accepts any input, so the login is one `Login` method.
- `SummaryCard.tsx` is not part of this model. It is a colour lookup.
- `types.ts` has no behaviour and is only the datatypes in `Types`.
- Browser plumbing is left out: `window.scrollTo`, the scroll listener and the header style it drives, and the registration of the native wheel listener. The wheel's effect is `MapView.Wheel`.
- MapPage.MapView.MouseMove: the SVG element's pixel width is a parameter (`None` when the element is not mounted), required positive when present.
- Timers are split into two calls: the toast's 3-second auto-dismiss (`DismissToast`), the 1.5-second export delay (`StartExport`/`FinishExport`) and the 800 ms refresh spinner (`Refresh`/`RefreshDone`). The delay itself is not modelled.
- `Math.random` is an input: the month chart takes one jitter value per appended row, in the order the loops draw them.
- IEEE-754 doubles are not modelled. Coordinates, zoom factors and percentages are exact. So the zoom round trips hold exactly here but only up to rounding in the browser. `Math.round` of a quotient that is exactly half-way in exact arithmetic can differ from the browser, which rounds the inexact double: 23 of 40 beds is 57.5 % exactly, printed 58 here but 57 by the browser.
- React lifecycle details (effect dependency lists, `useMemo` caching) are not modelled. The auto-centre effect runs at the end of the handlers that change the level or selection, and the chart is recomputed by `DetailView.Recompute` when a selector changes.
- Text.Lower folds only ASCII letters; `toLowerCase` also folds other scripts.
- AlertsPage.AlertsView.Acknowledge requires the id to be a listed alert's. Every button that calls it belongs to a listed alert, so this only records what the page guarantees.
- The DISTRICT_CONNECTIONS lines drawn between cities, the zoom percentage label and marker radii are presentation and are left out.

## Findings

| source | as written | input that shows it | evidently intended | confidence | as-written member | corrected member |
|---|---|---|---|---|---|---|
| Government-samved-master/pages/CityDashboard.tsx:27-35 | the week's counts are today's total plus fixed offsets down to -50, with no floor | a city with 35 cases (Madha in the city table) is plotted at -15 on Monday and -10 on Wednesday | case counts are never negative: each day held at zero (the page itself, CityDashboard.CityPage, is modelled as written) | medium, not executed | CityDashboard.SmallCityGetsNegativeCases | CityDashboard.TrendData |
