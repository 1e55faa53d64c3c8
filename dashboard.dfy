/**
 * The dashboard shell of frontend/app/page.tsx: the provider holding the
 * active view and the sidebar-open flag, the guard that demands a provider,
 * and the dispatch from the active view to the component shown.
 */
module Dashboard {
  import opened Wrappers

  const ClassRadarView := "class-radar"
  const StudentDrillDownView := "student-drill-down"
  const OverridePanelView := "override-panel"
  const AuditLogViewerView := "audit-log-viewer"

  /** The four views the dashboard can show. */
  datatype Component = EnhancedClassRadar | StudentDrillDown | OverridePanel | AuditLogViewer

  /** The view name that selects each component. */
  function ViewName(c: Component): string {
    match c
    case EnhancedClassRadar => ClassRadarView
    case StudentDrillDown => StudentDrillDownView
    case OverridePanel => OverridePanelView
    case AuditLogViewer => AuditLogViewerView
  }

  /** `renderView`: each named view selects its component; every other name falls back to the class radar. */
  function RenderView(activeView: string): (c: Component)
    ensures c == StudentDrillDown <==> activeView == StudentDrillDownView
    ensures c == OverridePanel <==> activeView == OverridePanelView
    ensures c == AuditLogViewer <==> activeView == AuditLogViewerView
    ensures c == EnhancedClassRadar <==>
      activeView != StudentDrillDownView && activeView != OverridePanelView && activeView != AuditLogViewerView
  {
    match activeView
    case "class-radar" => EnhancedClassRadar
    case "student-drill-down" => StudentDrillDown
    case "override-panel" => OverridePanel
    case "audit-log-viewer" => AuditLogViewer
    case _ => EnhancedClassRadar
  }

  /** The dispatch inverts the view names: the name of a component renders that component. */
  lemma RenderViewName(c: Component)
    ensures RenderView(ViewName(c)) == c
  {
    match c
    case EnhancedClassRadar =>
    case StudentDrillDown =>
    case OverridePanel => assert ViewName(c)[0] == 'o';
    case AuditLogViewer => assert ViewName(c)[0] == 'a';
  }

  /** The four names are distinct, so each component has exactly one name. */
  lemma ViewNameInjective(c: Component, d: Component)
    requires ViewName(c) == ViewName(d)
    ensures c == d
  {
    RenderViewName(c);
    RenderViewName(d);
  }

  /** The state `DashboardViewProvider` keeps. */
  class DashboardViewProvider {
    var activeView: string
    var isSidebarOpen: bool

    /** The class radar is shown first, with the sidebar open. */
    constructor ()
      ensures activeView == ClassRadarView && isSidebarOpen
    {
      activeView := ClassRadarView;
      isSidebarOpen := true;
    }

    /** `setActiveView`: any string is accepted; the dispatch decides what it shows. */
    method SetActiveView(view: string)
      modifies this
      ensures activeView == view && isSidebarOpen == old(isSidebarOpen)
    {
      activeView := view;
    }

    /** `toggleSidebar`: flips the open flag and nothing else. */
    method ToggleSidebar()
      modifies this
      ensures isSidebarOpen == !old(isSidebarOpen) && activeView == old(activeView)
    {
      isSidebarOpen := !isSidebarOpen;
    }

    /** The component the page shows for the current state. */
    function Shown(): (c: Component)
      reads this
      ensures ViewName(c) == activeView || c == EnhancedClassRadar
    {
      RenderView(activeView)
    }
  }

  const OutsideProviderMessage := "useDashboardView must be used within a DashboardViewProvider"

  /** `useDashboardView`: the provider's value when there is one, and the error it throws otherwise. */
  function UseDashboardView(context: Option<DashboardViewProvider>): (r: Result<DashboardViewProvider, string>)
    ensures r.Success? <==> context.Some?
    ensures r.Success? ==> r.value == context.value
    ensures r.Failure? ==> r.error == OutsideProviderMessage
  {
    match context
    case Some(provider) => Success(provider)
    case None => Failure(OutsideProviderMessage)
  }

  /** `HomePage`: the component shown under a provider; outside one, the guard's error. */
  function HomePage(context: Option<DashboardViewProvider>): (r: Result<Component, string>)
    reads if context.Some? then {context.value} else {}
    ensures r.Failure? <==> context.None?
    ensures r.Failure? ==> r.error == OutsideProviderMessage
    ensures r.Success? ==> r.value == context.value.Shown()
  {
    match UseDashboardView(context)
    case Success(provider) => Success(RenderView(provider.activeView))
    case Failure(message) => Failure(message)
  }

  /** Two presses of the header button restore the sidebar flag. */
  method ToggleTwice(provider: DashboardViewProvider)
    modifies provider
    ensures provider.isSidebarOpen == old(provider.isSidebarOpen)
    ensures provider.activeView == old(provider.activeView)
  {
    provider.ToggleSidebar();
    provider.ToggleSidebar();
  }

  /** A fresh dashboard shows the class radar; after choosing a view it shows that view's component. */
  method Navigate(target: Component) returns (initially: Component, afterwards: Component)
    ensures initially == EnhancedClassRadar
    ensures afterwards == target
  {
    var provider := new DashboardViewProvider();
    initially := provider.Shown();
    provider.SetActiveView(ViewName(target));
    RenderViewName(target);
    afterwards := provider.Shown();
  }
}
