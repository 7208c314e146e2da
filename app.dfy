/** The application's route table: five pages by path, and a wildcard
    that redirects every other path to "/". */
module App {
  import opened Wrappers
  import Layout

  datatype Page = Dashboard | RoutePlanner | ConvoyStatus | Alerts | Settings

  datatype RouteEntry = RouteEntry(path: string, page: Page)

  const ROUTES: seq<RouteEntry> := [
    RouteEntry("/", Dashboard),
    RouteEntry("/route-planner", RoutePlanner),
    RouteEntry("/convoy-status", ConvoyStatus),
    RouteEntry("/alerts", Alerts),
    RouteEntry("/settings", Settings)
  ]

  const REDIRECT_TARGET: string := "/"

  datatype Resolution = Render(page: Page) | Redirect(to: string)

  /** The page of the first entry whose path equals `path`. */
  function Lookup(routes: seq<RouteEntry>, path: string): (r: Option<Page>)
    ensures r.None? <==> forall i :: 0 <= i < |routes| ==> routes[i].path != path
    ensures r.Some? ==> exists i :: 0 <= i < |routes| && routes[i] == RouteEntry(path, r.value)
  {
    if routes == [] then None
    else if routes[0].path == path then Some(routes[0].page)
    else Lookup(routes[1..], path)
  }

  /** `<Routes>`: a listed path renders its page, any other path hits the
      wildcard `<Navigate to="/" replace />`. */
  function Resolve(path: string): (r: Resolution)
    ensures r.Render? <==> exists i :: 0 <= i < |ROUTES| && ROUTES[i].path == path
    ensures r.Render? ==> exists i :: 0 <= i < |ROUTES| && ROUTES[i] == RouteEntry(path, r.page)
    ensures r.Redirect? ==> r.to == "/"
  {
    match Lookup(ROUTES, path)
    case Some(p) => Render(p)
    case None => Redirect(REDIRECT_TARGET)
  }

  /** The page finally shown for `path`, following at most one redirect. */
  function Land(path: string): (page: Page)
    ensures Resolve(path).Render? ==> page == Resolve(path).page
    ensures Resolve(path).Redirect? ==> page == Dashboard
  {
    match Resolve(path)
    case Render(p) => p
    case Redirect(to) =>
      match Resolve(to)
      case Render(p) => p
      case Redirect(_) => assert false; Dashboard
  }

  lemma RoutePathsDistinct()
    ensures forall i, j :: 0 <= i < j < |ROUTES| ==> ROUTES[i].path != ROUTES[j].path
  {
  }

  /** Each listed path renders its own page. */
  lemma KnownPathsResolve()
    ensures forall i :: 0 <= i < |ROUTES| ==> Resolve(ROUTES[i].path) == Render(ROUTES[i].page)
  {
    RoutePathsDistinct();
    forall i | 0 <= i < |ROUTES|
      ensures Resolve(ROUTES[i].path) == Render(ROUTES[i].page)
    {
      var p := Lookup(ROUTES, ROUTES[i].path);
      assert p.Some?;
      var k :| 0 <= k < |ROUTES| && ROUTES[k] == RouteEntry(ROUTES[i].path, p.value);
      assert k == i;
    }
  }

  /** Any other path redirects to "/", which renders the dashboard without
      a second redirect. */
  lemma UnknownPathsRedirect(path: string)
    requires forall i :: 0 <= i < |ROUTES| ==> ROUTES[i].path != path
    ensures Resolve(path) == Redirect("/")
    ensures Resolve(Resolve(path).to) == Render(Dashboard)
    ensures Land(path) == Dashboard
  {
  }

  /** Every path the navigation links to resolves without a redirect. */
  lemma NavPathsResolve()
    ensures forall i :: 0 <= i < |Layout.NAV_ITEMS| ==> Resolve(Layout.NAV_ITEMS[i].path).Render?
  {
    forall i | 0 <= i < |Layout.NAV_ITEMS|
      ensures Resolve(Layout.NAV_ITEMS[i].path).Render?
    {
      assert Layout.NAV_ITEMS[i].path == ROUTES[i].path;
    }
  }
}
