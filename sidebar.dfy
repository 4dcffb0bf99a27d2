/** Sidebar: the navigation menu. Top-level items either lead to a view or head a category of
    sub-items; a category opens and closes on click, the whole menu can be collapsed to icons,
    and the item for the current view is highlighted. A view is optional on a category header
    (`undefined` in the source). */
module Sidebar {
  import opened Types
  import opened Strings
  import opened Flags
  import App

  datatype SubItem = SubItem(name: string, view: string)

  datatype NavItem = NavItem(name: string, view: Option<string>, subItems: Option<seq<SubItem>>)

  const ProspectionSubItems: seq<SubItem> := [
    SubItem("Inbound Lead Gen", "prospection/inbound"),
    SubItem("Outbound Lead Gen", "prospection/outbound"),
    SubItem("E-mail Marketing", "prospection/email"),
    SubItem("Tráfego Pago", "prospection/paid"),
    SubItem("Tráfego Orgânico", "prospection/organic")]

  const AutomationsSubItems: seq<SubItem> := [SubItem("CRM Automation", "automations/crm")]

  const CallPlanningSubItems: seq<SubItem> := [
    SubItem("Influenciadores", "callPlanning/influencers"),
    SubItem("Company Analysis", "callPlanning/companyAnalysis")]

  const SalesTrainingSubItems: seq<SubItem> := [
    SubItem("ICP and Persona", "salesTraining/icp"),
    SubItem("Sales Coach", "salesTraining/coach"),
    SubItem("Sales Script", "salesTraining/script")]

  const DealsSubItems: seq<SubItem> := [
    SubItem("Proposals", "deals/proposals"),
    SubItem("Conversions", "conversion")]

  /** The menu, top to bottom. */
  const NavigationHierarchy: seq<NavItem> := [
    NavItem("Dashboard", Some("dashboard"), None),
    NavItem("Agenda", Some("agenda"), None),
    NavItem("Prospection", Some("prospection"), Some(ProspectionSubItems)),
    NavItem("Automations", None, Some(AutomationsSubItems)),
    NavItem("Leads", Some("leads"), None),
    NavItem("Opportunities", Some("opportunities"), None),
    NavItem("Calls", Some("calls"), None),
    NavItem("Call Planning", None, Some(CallPlanningSubItems)),
    NavItem("Sales Training", Some("salesTraining"), Some(SalesTrainingSubItems)),
    NavItem("Deals", None, Some(DealsSubItems)),
    NavItem("Analytics", Some("analytics"), None),
    NavItem("Settings", Some("settings"), None)
  ]

  /** `item.subItems && item.subItems.length > 0`. */
  predicate HasSubItems(item: NavItem) {
    item.subItems.Some? && |item.subItems.value| > 0
  }

  /** `item.view + '/'`: a missing view is spelt "undefined". */
  function ViewPrefix(item: NavItem): string {
    (if item.view.Some? then item.view.value else "undefined") + "/"
  }

  /** `currentView === item.view`: never true for a missing view. */
  predicate IsCurrent(item: NavItem, currentView: string) {
    item.view.Some? && currentView == item.view.value
  }

  /** A category header is active on its own view and on every view below it. */
  predicate IsActiveParent(item: NavItem, currentView: string) {
    HasSubItems(item) && (IsCurrent(item, currentView) || StartsWith(currentView, ViewPrefix(item)))
  }

  /** A plain item is active on its own view. */
  predicate IsActiveItem(item: NavItem, currentView: string) {
    !HasSubItems(item) && IsCurrent(item, currentView)
  }

  /** The two kinds of activity exclude each other, and each has the meaning its name says: a
      header with a view is active exactly on that view and the views below it, a leaf exactly
      on its view. */
  lemma ActiveRules(item: NavItem, currentView: string)
    ensures !(IsActiveParent(item, currentView) && IsActiveItem(item, currentView))
    ensures HasSubItems(item) && item.view.Some? ==>
      (IsActiveParent(item, currentView) <==>
        currentView == item.view.value || StartsWith(currentView, item.view.value + "/"))
    ensures !HasSubItems(item) ==>
      (IsActiveItem(item, currentView) <==> item.view.Some? && currentView == item.view.value)
    ensures !HasSubItems(item) ==> !IsActiveParent(item, currentView)
  {
  }

  /** The highlight of a top-level button: an active leaf, or an active header while the
      menu is expanded. */
  predicate Highlighted(item: NavItem, currentView: string, isCollapsed: bool) {
    IsActiveItem(item, currentView) || (IsActiveParent(item, currentView) && !isCollapsed)
  }

  /** `if (item.view)`: a view is followed only when present and non-empty. */
  predicate HasView(item: NavItem) {
    item.view.Some? && item.view.value != ""
  }

  /** A sub-item button is highlighted exactly on its own view. */
  predicate SubItemHighlighted(sub: SubItem, currentView: string) {
    currentView == sub.view
  }

  class SidebarState {
    var isCollapsed: bool
    var openCategories: map<string, bool>

    constructor()
      ensures !isCollapsed && openCategories == map[]
    {
      isCollapsed := false;
      openCategories := map[];
    }

    /** `toggleCategory(categoryName)`. */
    method ToggleCategory(categoryName: string)
      modifies this
      ensures openCategories == Flip(old(openCategories), categoryName)
      ensures IsSet(openCategories, categoryName) == !IsSet(old(openCategories), categoryName)
      ensures forall other :: other != categoryName ==> IsSet(openCategories, other) == IsSet(old(openCategories), other)
      ensures isCollapsed == old(isCollapsed)
      ensures forall item: NavItem :: item.name == categoryName ==>
        (ShowSubItems(item) <==> HasSubItems(item) && !IsSet(old(openCategories), categoryName) && !isCollapsed)
    {
      FlipSpec(openCategories, categoryName);
      openCategories := openCategories[categoryName := !IsSet(openCategories, categoryName)];
    }

    /** The click on a top-level button: a header toggles its category and follows its view
        when it has one; a leaf follows its view. The result is the view passed to
        `onNavigate`, if any. */
    method ClickItem(item: NavItem) returns (navigateTo: Option<string>)
      modifies this
      ensures HasSubItems(item) ==> openCategories == Flip(old(openCategories), item.name)
      ensures !HasSubItems(item) ==> openCategories == old(openCategories)
      ensures navigateTo.Some? <==> HasView(item)
      ensures navigateTo.Some? ==> navigateTo == item.view
      ensures isCollapsed == old(isCollapsed)
    {
      navigateTo := None;
      if HasSubItems(item) {
        ToggleCategory(item.name);
        if HasView(item) {
          navigateTo := item.view;
        }
      } else if HasView(item) {
        navigateTo := item.view;
      }
    }

    /** The collapse button. */
    method ToggleCollapsed()
      modifies this
      ensures isCollapsed == !old(isCollapsed) && openCategories == old(openCategories)
      ensures isCollapsed ==> forall item: NavItem :: !ShowSubItems(item)
    {
      isCollapsed := !isCollapsed;
    }

    /** The sub-items of a header are listed while its category is open and the menu is
        expanded. */
    predicate ShowSubItems(item: NavItem)
      reads this
    {
      HasSubItems(item) && IsSet(openCategories, item.name) && !isCollapsed
    }
  }

  /** A header without a view is active only on views that start with "undefined/", so the
      Automations, Call Planning and Deals headers are not highlighted while one of their own
      sub-items is the current view. */
  lemma ViewlessHeaders(item: NavItem, currentView: string)
    ensures item.view.None? ==>
      (IsActiveParent(item, currentView) <==> HasSubItems(item) && StartsWith(currentView, "undefined/"))
    ensures !IsActiveParent(NavigationHierarchy[3], "automations/crm")
    ensures !IsActiveParent(NavigationHierarchy[7], "callPlanning/influencers")
    ensures !IsActiveParent(NavigationHierarchy[9], "deals/proposals")
  {
    assert "automations/crm"[0] != "undefined/"[0];
    assert "callPlanning/influencers"[0] != "undefined/"[0];
    assert "deals/proposals"[0] != "undefined/"[0];
  }

  /** A menu destination is routed to a page of its own or to the placeholder, never to the
      dashboard fallback, except 'dashboard' itself. */
  predicate Routed(v: string) {
    v == "dashboard" || App.RenderCurrentView(v) != App.DashboardView
  }

  /** The top-level view and the sub-item views of an item are routed. */
  predicate ItemRouted(item: NavItem) {
    && (item.view.Some? ==> Routed(item.view.value))
    && (item.subItems.Some? ==> forall j :: 0 <= j < |item.subItems.value| ==> Routed(item.subItems.value[j].view))
  }

  /** The items without sub-items. */
  lemma PlainItemsRouted()
    ensures forall i :: 0 <= i < |NavigationHierarchy| && NavigationHierarchy[i].subItems.None? ==>
      ItemRouted(NavigationHierarchy[i])
  {
    App.PlaceholderRoutes();
  }

  /** Every sub-item of a list has a routed view. */
  predicate SubItemsRouted(subs: seq<SubItem>) {
    forall j :: 0 <= j < |subs| ==> Routed(subs[j].view)
  }

  /** Every 'prospection/...' view is routed. */
  lemma ProspectionRouted(v: string)
    requires StartsWith(v, "prospection/")
    ensures Routed(v)
  {
    App.ProspectionSubRoutes(v);
  }

  /** Every 'salesTraining/...' view is routed. */
  lemma SalesTrainingRouted(v: string)
    requires StartsWith(v, "salesTraining/")
    ensures Routed(v)
  {
    App.SalesTrainingSubRoutes(v);
  }

  /** Every 'automations/...' view is routed. */
  lemma AutomationsRouted(v: string)
    requires StartsWith(v, "automations/")
    ensures Routed(v)
  {
    App.CategorySubRoutes(v, "automations/");
  }

  /** Every 'callPlanning/...' view is routed. */
  lemma CallPlanningRouted(v: string)
    requires StartsWith(v, "callPlanning/")
    ensures Routed(v)
  {
    App.CategorySubRoutes(v, "callPlanning/");
  }

  /** The five prospection channels all go to the placeholder. */
  lemma ProspectionItemRouted()
    ensures SubItemsRouted(ProspectionSubItems)
  {
    forall j | 0 <= j < |ProspectionSubItems| ensures Routed(ProspectionSubItems[j].view) {
      ProspectionRouted(ProspectionSubItems[j].view);
    }
  }

  /** The automation page goes to the placeholder. */
  lemma AutomationsItemRouted()
    ensures SubItemsRouted(AutomationsSubItems)
  {
    AutomationsRouted(AutomationsSubItems[0].view);
  }

  /** The call-planning pages go to the placeholder. */
  lemma CallPlanningItemRouted()
    ensures SubItemsRouted(CallPlanningSubItems)
  {
    forall j | 0 <= j < |CallPlanningSubItems| ensures Routed(CallPlanningSubItems[j].view) {
      CallPlanningRouted(CallPlanningSubItems[j].view);
    }
  }

  /** The sales-training pages go to sales training. */
  lemma SalesTrainingItemRouted()
    ensures SubItemsRouted(SalesTrainingSubItems)
  {
    forall j | 0 <= j < |SalesTrainingSubItems| ensures Routed(SalesTrainingSubItems[j].view) {
      SalesTrainingRouted(SalesTrainingSubItems[j].view);
    }
  }

  /** Of the deals, proposals go to the placeholder and conversions to the conversion view. */
  lemma DealsItemRouted()
    ensures SubItemsRouted(DealsSubItems)
  {
    App.PlaceholderRoutes();
    App.PageRoutes();
  }

  /** Every view the menu can navigate to is routed: no menu entry silently lands on the
      dashboard fallback. */
  lemma MenuViewsRouted()
    ensures forall i :: 0 <= i < |NavigationHierarchy| ==> ItemRouted(NavigationHierarchy[i])
  {
    PlainItemsRouted();
    ProspectionItemRouted();
    AutomationsItemRouted();
    CallPlanningItemRouted();
    SalesTrainingItemRouted();
    DealsItemRouted();
  }
}
