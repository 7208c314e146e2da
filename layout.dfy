/** The page shell: a sidebar that opens and closes, five navigation items
    with one highlighted for the current path, and a header showing the
    current page's title. */
module Layout {
  import opened Wrappers

  datatype NavItem = NavItem(path: string, title: string)

  const NAV_ITEMS: seq<NavItem> := [
    NavItem("/", "Dashboard"),
    NavItem("/route-planner", "Route Planner"),
    NavItem("/convoy-status", "Convoy Status"),
    NavItem("/alerts", "Alerts"),
    NavItem("/settings", "Settings")
  ]

  const DEFAULT_TITLE: string := "Dashboard"

  /** `location.pathname === item.path`. */
  predicate IsActive(item: NavItem, pathname: string) {
    pathname == item.path
  }

  /** `items.find(i => i.path === pathname)`: the first item with that path. */
  function FindByPath(items: seq<NavItem>, pathname: string): (found: Option<nat>)
    ensures found.Some? ==> found.value < |items| && items[found.value].path == pathname &&
                            forall j :: 0 <= j < found.value ==> items[j].path != pathname
    ensures found.None? ==> forall j :: 0 <= j < |items| ==> items[j].path != pathname
  {
    if items == [] then None
    else if items[0].path == pathname then Some(0)
    else
      match FindByPath(items[1..], pathname)
      case Some(k) => Some(k + 1)
      case None => None
  }

  /** `find(...)?.title || 'Dashboard'`: never empty, and always one of the
      items' titles. */
  function HeaderTitle(pathname: string): (t: string)
    ensures t != ""
    ensures exists i :: 0 <= i < |NAV_ITEMS| && t == NAV_ITEMS[i].title
  {
    assert NAV_ITEMS[0].title == DEFAULT_TITLE;
    match FindByPath(NAV_ITEMS, pathname)
    case Some(k) => if NAV_ITEMS[k].title != "" then NAV_ITEMS[k].title else DEFAULT_TITLE
    case None => DEFAULT_TITLE
  }

  lemma NavPathsDistinct()
    ensures forall i, j :: 0 <= i < j < |NAV_ITEMS| ==> NAV_ITEMS[i].path != NAV_ITEMS[j].path
  {
  }

  /** At most one item is highlighted, and exactly one when the path is one
      of the items' paths. */
  lemma ActiveItemUnique(pathname: string)
    ensures forall i, j ::
      0 <= i < |NAV_ITEMS| && 0 <= j < |NAV_ITEMS| &&
      IsActive(NAV_ITEMS[i], pathname) && IsActive(NAV_ITEMS[j], pathname)
      ==> i == j
    ensures (exists i :: 0 <= i < |NAV_ITEMS| && IsActive(NAV_ITEMS[i], pathname)) <==>
      pathname in {"/", "/route-planner", "/convoy-status", "/alerts", "/settings"}
  {
    NavPathsDistinct();
    if pathname in {"/", "/route-planner", "/convoy-status", "/alerts", "/settings"} {
      var i := if pathname == "/" then 0 else if pathname == "/route-planner" then 1
        else if pathname == "/convoy-status" then 2 else if pathname == "/alerts" then 3 else 4;
      assert IsActive(NAV_ITEMS[i], pathname);
    }
  }

  /** The header shows the highlighted item's label, and "Dashboard" when
      no item is highlighted. */
  lemma HeaderTitleMatchesActiveItem(pathname: string)
    ensures forall i :: 0 <= i < |NAV_ITEMS| && IsActive(NAV_ITEMS[i], pathname) ==>
      HeaderTitle(pathname) == NAV_ITEMS[i].title
    ensures (forall i :: 0 <= i < |NAV_ITEMS| ==> !IsActive(NAV_ITEMS[i], pathname)) ==>
      HeaderTitle(pathname) == DEFAULT_TITLE
  {
    NavPathsDistinct();
  }

  class LayoutShell {
    var sidebarOpen: bool
    var pathname: string

    /** The router starts at "/" and the sidebar starts closed. */
    constructor ()
      ensures !sidebarOpen && pathname == "/"
    {
      sidebarOpen := false;
      pathname := "/";
    }

    /** The mobile menu button. */
    method ToggleMenu()
      modifies this
      ensures sidebarOpen == !old(sidebarOpen) && pathname == old(pathname)
    {
      sidebarOpen := !sidebarOpen;
    }

    /** A click on nav item `i` navigates to its path and closes the
        sidebar; the header then shows that item's label. */
    method NavClick(i: nat)
      requires i < |NAV_ITEMS|
      modifies this
      ensures pathname == NAV_ITEMS[i].path && !sidebarOpen
      ensures Title() == NAV_ITEMS[i].title
    {
      pathname := NAV_ITEMS[i].path;
      sidebarOpen := false;
      HeaderTitleMatchesActiveItem(pathname);
    }

    /** The dimming overlay is rendered only while the sidebar is open. */
    function OverlayShown(): bool
      reads this
    {
      sidebarOpen
    }

    method OverlayClick()
      requires OverlayShown()
      modifies this
      ensures !sidebarOpen && pathname == old(pathname)
    {
      sidebarOpen := false;
    }

    function Title(): string
      reads this
    {
      HeaderTitle(pathname)
    }
  }
}
