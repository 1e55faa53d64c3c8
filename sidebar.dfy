/**
 * The navigation sidebar of frontend/components/plain-sidebar.tsx: its own
 * collapsed flag, the four menu entries, which entry is marked active, and
 * the click that switches the dashboard's view.
 */
module PlainSidebar {
  import opened Wrappers
  import opened Dashboard

  datatype MenuItem = MenuItem(title: string, view: string)

  /** The menu entries, in display order. */
  const MenuItems: seq<MenuItem> := [
    MenuItem("Class Radar", ClassRadarView),
    MenuItem("Student Drill-Down", StudentDrillDownView),
    MenuItem("Override Panel", OverridePanelView),
    MenuItem("Audit Log Viewer", AuditLogViewerView)
  ]

  /** The component each menu entry leads to, position by position. */
  const MenuComponents: seq<Component> := [EnhancedClassRadar, StudentDrillDown, OverridePanel, AuditLogViewer]

  /** Each entry's view is dispatched to its own component, and every component has an entry. */
  lemma MenuMatchesDispatch()
    ensures |MenuItems| == |MenuComponents| == 4
    ensures forall i :: 0 <= i < |MenuItems| ==> MenuItems[i].view == ViewName(MenuComponents[i])
    ensures forall i :: 0 <= i < |MenuItems| ==> RenderView(MenuItems[i].view) == MenuComponents[i]
    ensures forall c: Component :: c in MenuComponents
  {
    forall i | 0 <= i < |MenuItems| ensures RenderView(MenuItems[i].view) == MenuComponents[i] {
      RenderViewName(MenuComponents[i]);
    }
    forall c: Component ensures c in MenuComponents {
      match c
      case EnhancedClassRadar => assert MenuComponents[0] == c;
      case StudentDrillDown => assert MenuComponents[1] == c;
      case OverridePanel => assert MenuComponents[2] == c;
      case AuditLogViewer => assert MenuComponents[3] == c;
    }
  }

  /** No two entries share a view. */
  lemma MenuViewsDistinct(i: nat, j: nat)
    requires i < |MenuItems| && j < |MenuItems|
    requires MenuItems[i].view == MenuItems[j].view
    ensures i == j
  {
    MenuMatchesDispatch();
    ViewNameInjective(MenuComponents[i], MenuComponents[j]);
    assert MenuComponents[i] == MenuComponents[j];
  }

  predicate IsActive(activeView: string, item: MenuItem) {
    activeView == item.view
  }

  /** The class of an entry's button: "active" is appended exactly for the entry of the active view. */
  function ButtonClass(activeView: string, item: MenuItem): (r: string)
    ensures |r| >= 20 && r[..20] == "sidebar-menu-button "
    ensures r[20..] == (if IsActive(activeView, item) then "active" else "")
  {
    "sidebar-menu-button " + (if activeView == item.view then "active" else "")
  }

  /** At most one entry is active, whatever the active view. */
  lemma AtMostOneActive(activeView: string, i: nat, j: nat)
    requires i < |MenuItems| && j < |MenuItems|
    requires IsActive(activeView, MenuItems[i]) && IsActive(activeView, MenuItems[j])
    ensures i == j
  {
    MenuViewsDistinct(i, j);
  }

  /** Some entry is active exactly when the active view is one of the four names. */
  lemma SomeActiveIffNamedView(activeView: string)
    ensures (exists i :: 0 <= i < |MenuItems| && IsActive(activeView, MenuItems[i])) <==>
      exists c: Component :: activeView == ViewName(c)
  {
    MenuMatchesDispatch();
    if c: Component :| activeView == ViewName(c) {
      var i := match c
        case EnhancedClassRadar => 0
        case StudentDrillDown => 1
        case OverridePanel => 2
        case AuditLogViewer => 3;
      assert IsActive(activeView, MenuItems[i]);
    }
  }

  /** The entry's title is shown only while the sidebar is expanded. */
  function ItemLabel(isCollapsed: bool, item: MenuItem): (r: Option<string>)
    ensures r.Some? <==> !isCollapsed
    ensures r.Some? ==> r.value == item.title
  {
    if !isCollapsed then Some(item.title) else None
  }

  /** The class of the whole sidebar. */
  function NavClass(isCollapsed: bool): (r: string)
    ensures |r| >= 8 && r[..8] == "sidebar "
    ensures r[8..] == (if isCollapsed then "collapsed" else "")
  {
    "sidebar " + (if isCollapsed then "collapsed" else "")
  }

  datatype Chevron = ChevronDown | ChevronUp

  /** The chevron of the header button; its inner test repeats the outer one, so the downward chevron never appears. */
  function HeaderChevron(isCollapsed: bool): (r: Option<Chevron>)
    ensures r.Some? <==> !isCollapsed
    ensures r != Some(ChevronDown)
  {
    if !isCollapsed then Some(if isCollapsed then ChevronDown else ChevronUp) else None
  }

  /** The sidebar's own state, and the dashboard it navigates. */
  class Sidebar {
    const dashboard: DashboardViewProvider
    var isCollapsed: bool

    /** The sidebar starts collapsed exactly when it is not open by default (open unless told otherwise). */
    constructor (dashboard: DashboardViewProvider, defaultOpen: bool := true)
      ensures this.dashboard == dashboard
      ensures isCollapsed == !defaultOpen
    {
      this.dashboard := dashboard;
      isCollapsed := !defaultOpen;
    }

    /** The header button flips the collapsed flag and leaves the dashboard alone. */
    method ToggleCollapsed()
      modifies this
      ensures isCollapsed == !old(isCollapsed)
    {
      isCollapsed := !isCollapsed;
    }

    /** Clicking an entry makes its view the dashboard's active view. */
    method Click(item: MenuItem)
      modifies dashboard
      ensures dashboard.activeView == item.view
      ensures dashboard.isSidebarOpen == old(dashboard.isSidebarOpen)
    {
      dashboard.SetActiveView(item.view);
    }

    /** The button class of each entry, in menu order. */
    function ButtonClasses(): (r: seq<string>)
      reads dashboard
      ensures |r| == |MenuItems|
      ensures forall i :: 0 <= i < |r| ==> r[i] == ButtonClass(dashboard.activeView, MenuItems[i])
    {
      seq(|MenuItems|, i requires 0 <= i < |MenuItems| reads dashboard => ButtonClass(dashboard.activeView, MenuItems[i]))
    }
  }

  /** After a click on an entry, that entry and no other is marked active. */
  lemma ClickedEntryIsTheActiveOne(i: nat)
    requires i < |MenuItems|
    ensures forall j :: 0 <= j < |MenuItems| ==> (IsActive(MenuItems[i].view, MenuItems[j]) <==> j == i)
  {
    forall j | 0 <= j < |MenuItems| && IsActive(MenuItems[i].view, MenuItems[j]) ensures j == i {
      AtMostOneActive(MenuItems[i].view, i, j);
    }
  }

  /** Clicking an entry switches the page to that entry's component and marks only that entry. */
  method ClickEntry(dashboard: DashboardViewProvider, i: nat) returns (shown: Component)
    requires i < |MenuItems|
    modifies dashboard
    ensures shown == MenuComponents[i]
    ensures forall j :: 0 <= j < |MenuItems| ==>
      (ButtonClass(dashboard.activeView, MenuItems[j])[20..] == "active" <==> j == i)
  {
    var sidebar := new Sidebar(dashboard);
    sidebar.Click(MenuItems[i]);
    MenuMatchesDispatch();
    ClickedEntryIsTheActiveOne(i);
    shown := dashboard.Shown();
  }
}
