/** App: the shell of the dashboard. It holds the current view string, which the sidebar, the
    profile drop-down and several views set, and routes it to the view to render; it also holds
    the dashboard's date range, the dark-mode flag and the open/closed state of the sidebar and
    of the profile drop-down. */
module App {
  import opened Types
  import opened Strings
  import opened DateRangeFilter

  /** What `renderCurrentView` can render. The dashboard is rendered both for 'dashboard' and as
      the fallback, identically. */
  datatype ViewKind =
    | DashboardView | AgendaView | OpportunitiesView | LeadsView | CallsView | ConversionView
    | SalesTrainingView | SettingsView | ProspectionView | PlaceholderView(viewName: string)

  /** The sub-views that have no page yet. */
  predicate IsPlaceholderRoute(v: string) {
    StartsWith(v, "prospection/") || StartsWith(v, "automations/") || StartsWith(v, "callPlanning/")
    || v == "deals/proposals" || v == "analytics"
  }

  /** The views with a page of their own, besides the dashboard. */
  predicate IsPageRoute(v: string) {
    v == "agenda" || v == "opportunities" || v == "leads" || v == "calls"
    || v == "conversion" || v == "deals/conversions"
    || v == "salesTraining" || StartsWith(v, "salesTraining/")
    || v == "settings" || v == "prospection"
  }

  /** `renderCurrentView`, the chain of tests in order; every string gets a view. */
  function RenderCurrentView(v: string): (k: ViewKind)
    ensures k.PlaceholderView? ==> k.viewName == v
  {
    if v == "dashboard" then DashboardView
    else if v == "agenda" then AgendaView
    else if v == "opportunities" then OpportunitiesView
    else if v == "leads" then LeadsView
    else if v == "calls" then CallsView
    else if v == "conversion" || v == "deals/conversions" then ConversionView
    else if v == "salesTraining" || StartsWith(v, "salesTraining/") then SalesTrainingView
    else if v == "settings" then SettingsView
    else if v == "prospection" then ProspectionView
    else if IsPlaceholderRoute(v) then PlaceholderView(v)
    else DashboardView
  }

  /** The dashboard is shown exactly for 'dashboard' and for every string no other test
      matches; the placeholder exactly for the placeholder routes. */
  lemma RoutingPartition(v: string)
    ensures RenderCurrentView(v) == DashboardView <==> v == "dashboard" || (!IsPageRoute(v) && !IsPlaceholderRoute(v))
    ensures RenderCurrentView(v).PlaceholderView? <==> !IsPageRoute(v) && v != "dashboard" && IsPlaceholderRoute(v)
  {
  }

  /** A string whose first character differs from a prefix's does not start with it. */
  lemma FirstCharDiffers(s: string, prefix: string)
    requires s != [] && prefix != [] && s[0] != prefix[0]
    ensures !StartsWith(s, prefix)
  {
  }

  /** The page routes named by their full string that come after the first five tests. */
  lemma PageRoutes()
    ensures RenderCurrentView("conversion") == ConversionView
    ensures RenderCurrentView("deals/conversions") == ConversionView
    ensures RenderCurrentView("salesTraining") == SalesTrainingView
    ensures RenderCurrentView("prospection") == ProspectionView
  {
  }

  /** The placeholder routes named by their full string. */
  lemma PlaceholderRoutes()
    ensures RenderCurrentView("deals/proposals") == PlaceholderView("deals/proposals")
    ensures RenderCurrentView("analytics") == PlaceholderView("analytics")
  {
    FirstCharDiffers("deals/proposals", "salesTraining/");
    FirstCharDiffers("analytics", "salesTraining/");
  }

  /** A view no test matches, such as the 'profile' the profile drop-down navigates to, falls
      back to the dashboard. */
  lemma ProfileFallsBack()
    ensures RenderCurrentView("profile") == DashboardView
  {
    FirstCharDiffers("profile", "salesTraining/");
    assert !StartsWith("profile", "prospection/");
    assert !IsPlaceholderRoute("profile");
  }

  /** Every 'salesTraining/...' string shows sales training. */
  lemma SalesTrainingSubRoutes(v: string)
    requires StartsWith(v, "salesTraining/")
    ensures RenderCurrentView(v) == SalesTrainingView
  {
    assert v[0] == 's';
  }

  /** Every 'prospection/...' string shows the placeholder, unlike 'prospection' itself. */
  lemma ProspectionSubRoutes(v: string)
    requires StartsWith(v, "prospection/")
    ensures RenderCurrentView(v) == PlaceholderView(v)
  {
    assert v != "prospection";
    FirstCharDiffers(v, "salesTraining/");
  }

  /** Every 'automations/...' and every 'callPlanning/...' string shows the placeholder. */
  lemma CategorySubRoutes(v: string, prefix: string)
    requires prefix == "automations/" || prefix == "callPlanning/"
    requires StartsWith(v, prefix)
    ensures RenderCurrentView(v) == PlaceholderView(v)
  {
    FirstCharDiffers(v, "salesTraining/");
  }

  /** `getDefaultDateRange`: the last 30 days up to the current time `now`. */
  function DefaultDateRange(now: int): (r: DateRange)
    ensures Ordered(r) && r.end == now && r.end - r.start == 30 * DayMs
  {
    DateRange(now - 30 * DayMs, now)
  }

  const DayMs: int := 86400000

  class AppState {
    var currentView: string
    var dateRange: DateRange
    var isDarkMode: bool
    var isProfileDropdownOpen: bool
    var isSidebarOpen: bool

    /** The initial state: the dashboard over the default range; the dark-mode flag comes from
        the stored or system preference, passed in as `darkPreference`. */
    constructor(now: int, darkPreference: bool)
      ensures currentView == "dashboard" && RenderCurrentView(currentView) == DashboardView
      ensures dateRange == DefaultDateRange(now) && Ordered(dateRange)
      ensures isDarkMode == darkPreference && !isProfileDropdownOpen && !isSidebarOpen
    {
      currentView := "dashboard";
      dateRange := DefaultDateRange(now);
      isDarkMode := darkPreference;
      isProfileDropdownOpen := false;
      isSidebarOpen := false;
    }

    /** The view shown for the current state. */
    function ShownView(): ViewKind
      reads this
    {
      RenderCurrentView(currentView)
    }

    /** `setCurrentView`, the `onNavigate` the sidebar and the views receive. */
    method Navigate(view: string)
      modifies this
      ensures currentView == view && ShownView() == RenderCurrentView(view)
      ensures dateRange == old(dateRange) && isDarkMode == old(isDarkMode)
      ensures isProfileDropdownOpen == old(isProfileDropdownOpen) && isSidebarOpen == old(isSidebarOpen)
    {
      currentView := view;
    }

    /** `toggleDarkMode`. */
    method ToggleDarkMode()
      modifies this
      ensures isDarkMode == !old(isDarkMode)
      ensures currentView == old(currentView) && dateRange == old(dateRange)
      ensures isProfileDropdownOpen == old(isProfileDropdownOpen) && isSidebarOpen == old(isSidebarOpen)
    {
      isDarkMode := !isDarkMode;
    }

    /** `handleDropdownNavigate(view)`: go to the view and close the drop-down. */
    method HandleDropdownNavigate(view: string)
      modifies this
      ensures currentView == view && !isProfileDropdownOpen
      ensures dateRange == old(dateRange) && isDarkMode == old(isDarkMode) && isSidebarOpen == old(isSidebarOpen)
    {
      currentView := view;
      isProfileDropdownOpen := false;
    }

    /** The avatar button: open or close the profile drop-down. */
    method ToggleProfileDropdown()
      modifies this
      ensures isProfileDropdownOpen == !old(isProfileDropdownOpen)
      ensures currentView == old(currentView) && dateRange == old(dateRange)
      ensures isDarkMode == old(isDarkMode) && isSidebarOpen == old(isSidebarOpen)
    {
      isProfileDropdownOpen := !isProfileDropdownOpen;
    }

    /** The mobile menu button opens the sidebar, its `onClose` closes it. */
    method SetSidebarOpen(open: bool)
      modifies this
      ensures isSidebarOpen == open
      ensures currentView == old(currentView) && dateRange == old(dateRange)
      ensures isDarkMode == old(isDarkMode) && isProfileDropdownOpen == old(isProfileDropdownOpen)
    {
      isSidebarOpen := open;
    }

    /** `handleDateChange(start, end)`: store the range as received. */
    method HandleDateChange(start: int, end: int)
      modifies this
      ensures dateRange == DateRange(start, end)
      ensures currentView == old(currentView) && isDarkMode == old(isDarkMode)
      ensures isProfileDropdownOpen == old(isProfileDropdownOpen) && isSidebarOpen == old(isSidebarOpen)
    {
      dateRange := DateRange(start, end);
    }

    /** An edit of the date filter on the dashboard: the filter's guard decides whether
        `handleDateChange` is called. An ordered range stays ordered. */
    method EditDateRange(e: Edit)
      modifies this
      ensures dateRange == ApplyEdit(old(dateRange), e)
      ensures Ordered(old(dateRange)) ==> Ordered(dateRange)
      ensures currentView == old(currentView) && isDarkMode == old(isDarkMode)
      ensures isProfileDropdownOpen == old(isProfileDropdownOpen) && isSidebarOpen == old(isSidebarOpen)
    {
      var forwarded := match e
        case EditStart(d) => StartDateChange(d, dateRange)
        case EditEnd(d) => EndDateChange(d, dateRange);
      if forwarded.Some? {
        HandleDateChange(forwarded.value.start, forwarded.value.end);
      }
    }
  }
}
