/** The hospital list (pages/HospitalsPage.tsx): a case-insensitive name
    search combined with a risk-level filter chosen from a drop-down menu. */
module HospitalsPage {
  import opened Types
  import opened Seqs
  import opened Text
  import opened Capacity

  /** The drop-down's choice: every risk level, or one of them. */
  datatype RiskFilter = AllRisks | Only(level: RiskLevel)

  /** The menu's options, in display order. */
  const RiskOptions: seq<RiskFilter> := [AllRisks, Only(High), Only(Moderate), Only(Low), Only(Normal)]

  predicate MatchesRisk(h: Hospital, filter: RiskFilter)
  {
    filter == AllRisks || h.risk == filter.level
  }

  /** `filteredHospitals`: the hospitals, in table order, whose name contains
      the search term ignoring case and whose risk passes the filter. */
  function FilteredHospitals(hospitals: seq<Hospital>, term: string, filter: RiskFilter): (r: seq<Hospital>)
    ensures IsSubsequence(r, hospitals)
    ensures forall i :: 0 <= i < |r| ==> ContainsIgnoringCase(r[i].name, term)
    ensures forall i :: 0 <= i < |r| ==> filter.Only? ==> r[i].risk == filter.level
    ensures forall i :: (0 <= i < |hospitals| && ContainsIgnoringCase(hospitals[i].name, term) &&
                         MatchesRisk(hospitals[i], filter)) ==> hospitals[i] in r
    ensures |r| == |set i | 0 <= i < |hospitals| && ContainsIgnoringCase(hospitals[i].name, term) && MatchesRisk(hospitals[i], filter)|
  {
    var keep := (h: Hospital) => ContainsIgnoringCase(h.name, term) && MatchesRisk(h, filter);
    FilterCountsIndices(hospitals, keep);
    assert Indices(hospitals, keep) == set i | 0 <= i < |hospitals| && ContainsIgnoringCase(hospitals[i].name, term) && MatchesRisk(hospitals[i], filter);
    Filter(hospitals, keep)
  }

  /** The name search alone. */
  function SearchHits(hospitals: seq<Hospital>, term: string): seq<Hospital>
  {
    Filter(hospitals, (h: Hospital) => ContainsIgnoringCase(h.name, term))
  }

  /** With the filter on "All", only the name search applies. */
  lemma AllRisksIsSearchOnly(hospitals: seq<Hospital>, term: string)
    ensures FilteredHospitals(hospitals, term, AllRisks) == SearchHits(hospitals, term)
  {
    FilterExtensional(hospitals,
      (h: Hospital) => ContainsIgnoringCase(h.name, term) && MatchesRisk(h, AllRisks),
      (h: Hospital) => ContainsIgnoringCase(h.name, term));
  }

  /** The page's initial state, an empty search with "All", lists every hospital. */
  lemma InitialListIsComplete(hospitals: seq<Hospital>)
    ensures FilteredHospitals(hospitals, "", AllRisks) == hospitals
  {
    forall h | h in hospitals
      ensures ContainsIgnoringCase(h.name, "") && MatchesRisk(h, AllRisks)
    {
      EmptyTermMatches(h.name);
    }
    FilterKeepsAll(hospitals, (h: Hospital) => ContainsIgnoringCase(h.name, "") && MatchesRisk(h, AllRisks));
  }

  /** The search is case-insensitive: terms that agree after lower-casing
      select the same hospitals. */
  lemma SearchIgnoresCase(hospitals: seq<Hospital>, term1: string, term2: string, filter: RiskFilter)
    requires Lower(term1) == Lower(term2)
    ensures FilteredHospitals(hospitals, term1, filter) == FilteredHospitals(hospitals, term2, filter)
  {
    FilterExtensional(hospitals,
      (h: Hospital) => ContainsIgnoringCase(h.name, term1) && MatchesRisk(h, filter),
      (h: Hospital) => ContainsIgnoringCase(h.name, term2) && MatchesRisk(h, filter));
  }

  /** The filter button's caption: "Filter" while every level is shown,
      otherwise the chosen level. */
  function FilterCaption(filter: RiskFilter): (caption: Option<RiskLevel>)
    ensures caption.None? <==> filter == AllRisks
    ensures caption.Some? ==> filter == Only(caption.value)
  {
    if filter == AllRisks then None else Some(filter.level)
  }

  /** The filter button is drawn dark while its menu is open or a level is
      chosen, which is when the button carries a caption. */
  predicate FilterButtonDark(isFilterOpen: bool, filter: RiskFilter): (dark: bool)
    ensures dark <==> isFilterOpen || FilterCaption(filter).Some?
  {
    isFilterOpen || filter != AllRisks
  }

  /** `CITIES.find(c => c.id === hospital.cityId)?.name`. */
  function CityNameOf(cities: seq<City>, h: Hospital): (name: Option<string>)
    ensures name.None? <==> forall i :: 0 <= i < |cities| ==> cities[i].id != h.cityId
    ensures forall i :: (0 <= i < |cities| && cities[i].id == h.cityId &&
                         forall j :: 0 <= j < i ==> cities[j].id != h.cityId) ==> name == Some(cities[i].name)
  {
    var found := FindFirst(cities, (c: City) => c.id == h.cityId);
    if found.Some? then Some(found.value.name) else None
  }

  /** What one row of the table shows about a hospital's load. */
  datatype RowLoad = RowLoad(percent: Option<int>, bar: Band, icuCritical: bool)

  function RowLoadOf(h: Hospital): (row: RowLoad)
    ensures row.percent.Some? <==> h.totalBeds > 0
    ensures h.occupiedBeds <= h.totalBeds && row.percent.Some? ==> 0 <= row.percent.value <= 100
    ensures row.percent.Some? ==>
              row.percent.value as real - 0.5 <= Percent(h.occupiedBeds, h.totalBeds) < row.percent.value as real + 0.5
    ensures row.bar == Critical ==> h.occupiedBeds > 0
    ensures row.icuCritical ==> h.icuOccupied > 0
  {
    RowLoad(DisplayedPercent(h.occupiedBeds, h.totalBeds),
            OccupancyBand(h.occupiedBeds, h.totalBeds),
            IcuCritical(h.icuOccupied, h.icuTotal))
  }

  /** The page's own state: the search box, the chosen filter and whether the
      filter menu is open. */
  class HospitalsView {
    const hospitals: seq<Hospital>
    var searchTerm: string
    var filterRisk: RiskFilter
    var isFilterOpen: bool

    constructor (hospitals: seq<Hospital>)
      ensures this.hospitals == hospitals
      ensures searchTerm == "" && filterRisk == AllRisks && !isFilterOpen
      ensures Shown() == hospitals
      ensures !FilterButtonDark(isFilterOpen, filterRisk)
    {
      this.hospitals := hospitals;
      searchTerm := "";
      filterRisk := AllRisks;
      isFilterOpen := false;
      new;
      InitialListIsComplete(hospitals);
    }

    /** The rows the table shows. */
    function Shown(): seq<Hospital>
      reads this
    {
      FilteredHospitals(hospitals, searchTerm, filterRisk)
    }

    /** Typing in the search box. */
    method SetSearchTerm(term: string)
      modifies this
      ensures searchTerm == term
      ensures filterRisk == old(filterRisk) && isFilterOpen == old(isFilterOpen)
    {
      searchTerm := term;
    }

    /** The filter button opens and closes the menu. */
    method ToggleFilterMenu()
      modifies this
      ensures isFilterOpen == !old(isFilterOpen)
      ensures searchTerm == old(searchTerm) && filterRisk == old(filterRisk)
      ensures isFilterOpen ==> FilterButtonDark(isFilterOpen, filterRisk)
    {
      isFilterOpen := !isFilterOpen;
    }

    /** Clicking a menu option selects it and closes the menu. */
    method ChooseRisk(option: RiskFilter)
      requires option in RiskOptions
      modifies this
      ensures filterRisk == option && !isFilterOpen
      ensures searchTerm == old(searchTerm)
      ensures option.Only? ==> forall i :: 0 <= i < |Shown()| ==> Shown()[i].risk == option.level
      ensures FilterButtonDark(isFilterOpen, filterRisk) <==> option.Only?
    {
      filterRisk := option;
      isFilterOpen := false;
    }
  }
}
