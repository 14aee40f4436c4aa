/** The application shell (App.tsx): the login gate, the page switch with
    the selected city and hospital, the navigation bar's highlighting, the
    mobile drawer, the profile menu and the toast. */
module App {
  import Types

  type Option<T> = Types.Option<T>

  datatype PageType = Overview | Map | City | Hospitals | HospitalDetail | Alerts | Reports

  /** The navigation bar's items, in display order; the same list feeds the
      desktop bar and the mobile drawer. */
  const NavItems: seq<PageType> := [Overview, Map, Hospitals, Alerts, Reports]

  /** The highlight rule of the navigation bar: an item is active on its own
      page, and `map` and `hospitals` also on the detail pages reached from them. */
  predicate IsActive(current: PageType, item: PageType)
  {
    current == item || (item == Map && current == City) || (item == Hospitals && current == HospitalDetail)
  }

  /** How many of `items` are highlighted on page `current`. */
  function ActiveCount(current: PageType, items: seq<PageType>): nat
  {
    if items == [] then 0
    else (if IsActive(current, items[0]) then 1 else 0) + ActiveCount(current, items[1..])
  }

  /** The item the bar highlights on each page. */
  function ActiveItem(current: PageType): (item: PageType)
    ensures item in NavItems
    ensures IsActive(current, item)
  {
    match current
    case City => Map
    case HospitalDetail => Hospitals
    case _ => current
  }

  /** On every page exactly one navigation item is highlighted, and it is
      `ActiveItem`: `city` lights up `map`, `hospital-detail` lights up
      `hospitals`, every other page its own item. */
  lemma {:induction false} ExactlyOneActive(current: PageType)
    ensures ActiveCount(current, NavItems) == 1
    ensures forall i :: 0 <= i < |NavItems| ==> (IsActive(current, NavItems[i]) <==> NavItems[i] == ActiveItem(current))
  {
    var n := NavItems;
    assert n[1..] == [Map, Hospitals, Alerts, Reports];
    assert n[1..][1..] == [Hospitals, Alerts, Reports];
    assert n[1..][1..][1..] == [Alerts, Reports];
    assert n[1..][1..][1..][1..] == [Reports];
    assert n[1..][1..][1..][1..][1..] == [];
  }

  /** `x || fallback` for a `string | null`: null and the empty string both
      give the fallback. */
  function OrDefault(v: Option<string>, fallback: string): (r: string)
    ensures v.Some? && v.value != "" ==> r == v.value
    ensures v.None? || v.value == "" ==> r == fallback
  {
    if v.Some? && v.value != "" then v.value else fallback
  }

  const DefaultCityId := "solapur-city"
  const DefaultHospitalId := "h1"

  /** What `App` renders: the login page while logged out, otherwise the
      current page; the detail pages carry the id they show and the page
      their back button leads to. */
  datatype Screen =
    | LoginScreen
    | OverviewScreen
    | MapScreen
    | CityScreen(cityId: string, back: PageType)
    | HospitalsScreen
    | HospitalDetailScreen(hospitalId: string, back: PageType)
    | AlertsScreen
    | ReportsScreen

  datatype ToastKind = Success | Info | Error

  datatype Toast = Toast(message: string, kind: ToastKind)

  /** `renderPage` behind the login gate. */
  function RenderScreen(isLoggedIn: bool, page: PageType, cityId: Option<string>,
                        hospitalId: Option<string>): (s: Screen)
    ensures !isLoggedIn <==> s == LoginScreen
    ensures s.CityScreen? <==> isLoggedIn && page == City
    ensures s.HospitalDetailScreen? <==> isLoggedIn && page == HospitalDetail
    ensures s.CityScreen? ==> s.back == Map && s.cityId == OrDefault(cityId, DefaultCityId)
    ensures s.HospitalDetailScreen? ==>
              s.back == Hospitals && s.hospitalId == OrDefault(hospitalId, DefaultHospitalId)
    ensures s.OverviewScreen? <==> isLoggedIn && page == Overview
    ensures s.MapScreen? <==> isLoggedIn && page == Map
    ensures s.HospitalsScreen? <==> isLoggedIn && page == Hospitals
    ensures s.AlertsScreen? <==> isLoggedIn && page == Alerts
    ensures s.ReportsScreen? <==> isLoggedIn && page == Reports
  {
    if !isLoggedIn then LoginScreen
    else
      match page
      case Overview => OverviewScreen
      case Map => MapScreen
      case City => CityScreen(OrDefault(cityId, DefaultCityId), Map)
      case Hospitals => HospitalsScreen
      case HospitalDetail => HospitalDetailScreen(OrDefault(hospitalId, DefaultHospitalId), Hospitals)
      case Alerts => AlertsScreen
      case Reports => ReportsScreen
  }

  /** With nothing selected, the detail pages show Solapur City and the
      first hospital, `h1`. */
  lemma DetailDefaults()
    ensures RenderScreen(true, City, Types.None, Types.None) == CityScreen("solapur-city", Map)
    ensures RenderScreen(true, HospitalDetail, Types.None, Types.None) == HospitalDetailScreen("h1", Hospitals)
    ensures RenderScreen(true, City, Types.Some(""), Types.None) == CityScreen("solapur-city", Map)
  {
  }

  /** The reports page's toast kind: `info` stays `info`, anything else is
      shown as `success`. */
  function ReportsToastKind(requested: Option<ToastKind>): (k: ToastKind)
    ensures k == Info <==> requested == Types.Some(Info)
    ensures k != Error
  {
    if requested == Types.Some(Info) then Info else Success
  }

  /** The shell's state. The scroll-dependent header style and the
      3-second toast timer are not modelled; the toast is dismissed by
      `DismissToast`. */
  class AppState {
    var isLoggedIn: bool
    var currentPage: PageType
    var selectedCityId: Option<string>
    var selectedHospitalId: Option<string>
    var isProfileOpen: bool
    var isMobileMenuOpen: bool
    var toast: Option<Toast>

    constructor ()
      ensures !isLoggedIn && currentPage == Overview
      ensures selectedCityId == Types.None && selectedHospitalId == Types.None
      ensures !isProfileOpen && !isMobileMenuOpen && toast == Types.None
    {
      isLoggedIn := false;
      currentPage := Overview;
      selectedCityId := Types.None;
      selectedHospitalId := Types.None;
      isProfileOpen := false;
      isMobileMenuOpen := false;
      toast := Types.None;
    }

    function Screen(): Screen
      reads this
    {
      RenderScreen(isLoggedIn, currentPage, selectedCityId, selectedHospitalId)
    }

    /** The login page's callback. */
    method Login()
      modifies this
      ensures isLoggedIn
      ensures currentPage == old(currentPage) && selectedCityId == old(selectedCityId)
      ensures selectedHospitalId == old(selectedHospitalId) && isProfileOpen == old(isProfileOpen)
      ensures isMobileMenuOpen == old(isMobileMenuOpen) && toast == old(toast)
    {
      isLoggedIn := true;
    }

    /** Either "Terminate Access" button (drawer or profile menu): back to the
        login page, with the current page and selections kept. */
    method Logout()
      modifies this
      ensures !isLoggedIn && Screen() == LoginScreen
      ensures currentPage == old(currentPage) && selectedCityId == old(selectedCityId)
      ensures selectedHospitalId == old(selectedHospitalId) && isProfileOpen == old(isProfileOpen)
      ensures isMobileMenuOpen == old(isMobileMenuOpen) && toast == old(toast)
    {
      isLoggedIn := false;
    }

    /** `navigateToCity`. */
    method NavigateToCity(cityId: string)
      modifies this
      ensures selectedCityId == Types.Some(cityId) && currentPage == City
      ensures isLoggedIn ==> Screen() == CityScreen(if cityId == "" then DefaultCityId else cityId, Map)
      ensures isLoggedIn == old(isLoggedIn) && selectedHospitalId == old(selectedHospitalId)
      ensures isProfileOpen == old(isProfileOpen) && isMobileMenuOpen == old(isMobileMenuOpen)
      ensures toast == old(toast)
    {
      selectedCityId := Types.Some(cityId);
      currentPage := City;
    }

    /** `navigateToHospital`. */
    method NavigateToHospital(hospitalId: string)
      modifies this
      ensures selectedHospitalId == Types.Some(hospitalId) && currentPage == HospitalDetail
      ensures isLoggedIn ==>
                Screen() == HospitalDetailScreen(if hospitalId == "" then DefaultHospitalId else hospitalId, Hospitals)
      ensures isLoggedIn == old(isLoggedIn) && selectedCityId == old(selectedCityId)
      ensures isProfileOpen == old(isProfileOpen) && isMobileMenuOpen == old(isMobileMenuOpen)
      ensures toast == old(toast)
    {
      selectedHospitalId := Types.Some(hospitalId);
      currentPage := HospitalDetail;
    }

    /** `handlePageChange`: switch page and close the mobile drawer; the
        selections survive, so returning to a detail page shows the same item. */
    method PageChange(page: PageType)
      modifies this
      ensures currentPage == page && !isMobileMenuOpen
      ensures isLoggedIn == old(isLoggedIn) && selectedCityId == old(selectedCityId)
      ensures selectedHospitalId == old(selectedHospitalId) && isProfileOpen == old(isProfileOpen)
      ensures toast == old(toast)
    {
      currentPage := page;
      isMobileMenuOpen := false;
    }

    /** The back button of a detail page: `city` returns to `map`,
        `hospital-detail` to `hospitals`. */
    method Back()
      requires Screen().CityScreen? || Screen().HospitalDetailScreen?
      modifies this
      ensures currentPage == (if old(currentPage) == City then Map else Hospitals)
      ensures !isMobileMenuOpen
      ensures isLoggedIn == old(isLoggedIn) && selectedCityId == old(selectedCityId)
      ensures selectedHospitalId == old(selectedHospitalId) && isProfileOpen == old(isProfileOpen)
      ensures toast == old(toast)
    {
      PageChange(Screen().back);
    }

    /** The avatar button. */
    method ToggleProfile()
      modifies this
      ensures isProfileOpen == !old(isProfileOpen)
      ensures isLoggedIn == old(isLoggedIn) && currentPage == old(currentPage)
      ensures selectedCityId == old(selectedCityId) && selectedHospitalId == old(selectedHospitalId)
      ensures isMobileMenuOpen == old(isMobileMenuOpen) && toast == old(toast)
    {
      isProfileOpen := !isProfileOpen;
    }

    /** The menu button opens the drawer; its backdrop and close button shut it. */
    method SetMobileMenu(open: bool)
      modifies this
      ensures isMobileMenuOpen == open
      ensures isLoggedIn == old(isLoggedIn) && currentPage == old(currentPage)
      ensures selectedCityId == old(selectedCityId) && selectedHospitalId == old(selectedHospitalId)
      ensures isProfileOpen == old(isProfileOpen) && toast == old(toast)
    {
      isMobileMenuOpen := open;
    }

    /** `showToast`. */
    method ShowToast(message: string, kind: ToastKind)
      modifies this
      ensures toast == Types.Some(Toast(message, kind))
      ensures isLoggedIn == old(isLoggedIn) && currentPage == old(currentPage)
      ensures selectedCityId == old(selectedCityId) && selectedHospitalId == old(selectedHospitalId)
      ensures isProfileOpen == old(isProfileOpen) && isMobileMenuOpen == old(isMobileMenuOpen)
    {
      toast := Types.Some(Toast(message, kind));
    }

    /** The toast's close button, and its timer once it fires. */
    method DismissToast()
      modifies this
      ensures toast == Types.None
      ensures isLoggedIn == old(isLoggedIn) && currentPage == old(currentPage)
      ensures selectedCityId == old(selectedCityId) && selectedHospitalId == old(selectedHospitalId)
      ensures isProfileOpen == old(isProfileOpen) && isMobileMenuOpen == old(isMobileMenuOpen)
    {
      toast := Types.None;
    }
  }

  /** Logging out and back in returns to the page that was open. */
  method LogoutLoginKeepsPage(app: AppState)
    modifies app
    ensures app.isLoggedIn && app.currentPage == old(app.currentPage)
    ensures app.Screen() == RenderScreen(true, old(app.currentPage), old(app.selectedCityId), old(app.selectedHospitalId))
  {
    app.Logout();
    app.Login();
  }
}
