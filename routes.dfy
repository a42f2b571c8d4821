/**
 * The route table and its two guards. A guard decides, from whether a user
 * is signed in and whether the session is still loading, to render its page,
 * to redirect, or to show a placeholder.
 */
module Routes {
  import opened Wrappers

  datatype Page =
    | Landing | Login | Signup
    | DashboardHome | TasksView | JournalView | NotesView | ChecklistsView | BucketListView

  /** What a route puts on screen. */
  datatype View = Show(page: Page) | Redirect(to: string) | LoadingPlaceholder | Blank

  /** The pages rendered inside the dashboard layout. */
  const DashboardPages: set<Page> := {DashboardHome, TasksView, JournalView, NotesView, ChecklistsView, BucketListView}

  datatype Guard = Unguarded | PublicOnly | ProtectedArea

  datatype Route = Route(path: string, guard: Guard, page: Page)

  /** `ProtectedRoute`: the placeholder while loading, then the landing page for visitors and the page for users. */
  function Protected(hasUser: bool, loading: bool, page: Page): (v: View)
    ensures loading ==> v == LoadingPlaceholder
    ensures !loading && !hasUser ==> v == Redirect("/")
    ensures !loading && hasUser ==> v == Show(page)
  {
    if loading then LoadingPlaceholder
    else if !hasUser then Redirect("/")
    else Show(page)
  }

  /** `PublicRoute`: nothing while loading, the dashboard for users, the page for visitors. */
  function Public(hasUser: bool, loading: bool, page: Page): (v: View)
    ensures loading ==> v == Blank
    ensures !loading && hasUser ==> v == Redirect("/dashboard")
    ensures !loading && !hasUser ==> v == Show(page)
  {
    if loading then Blank
    else if hasUser then Redirect("/dashboard")
    else Show(page)
  }

  /** The element of route r under its guard: only r's own page can be shown, and once loaded it is shown or redirected. */
  function Guarded(r: Route, hasUser: bool, loading: bool): (v: View)
    ensures v.Show? ==> v.page == r.page
    ensures r.guard == Unguarded ==> v == Show(r.page)
    ensures !loading ==> v.Show? || v.Redirect?
  {
    match r.guard
    case Unguarded => Show(r.page)
    case PublicOnly => Public(hasUser, loading, r.page)
    case ProtectedArea => Protected(hasUser, loading, r.page)
  }

  /** The route table: the element each path is mounted with, the dashboard's nested paths written out in full. */
  function RouteFor(path: string): (r: Option<Route>)
    ensures r.Some? ==> r.value.path == path
  {
    if path == "/" then Some(Route(path, Unguarded, Landing))
    else if path == "/login" then Some(Route(path, PublicOnly, Login))
    else if path == "/signup" then Some(Route(path, PublicOnly, Signup))
    else if path == "/dashboard" then Some(Route(path, ProtectedArea, DashboardHome))
    else if path == "/dashboard/tasks" then Some(Route(path, ProtectedArea, TasksView))
    else if path == "/dashboard/journal" then Some(Route(path, ProtectedArea, JournalView))
    else if path == "/dashboard/notes" then Some(Route(path, ProtectedArea, NotesView))
    else if path == "/dashboard/checklists" then Some(Route(path, ProtectedArea, ChecklistsView))
    else if path == "/dashboard/bucket-list" then Some(Route(path, ProtectedArea, BucketListView))
    else None
  }

  /** The route element for path; the catch-all sends every unmatched path to "/". */
  function Resolve(path: string, hasUser: bool, loading: bool): (v: View)
    ensures RouteFor(path).None? ==> v == Redirect("/")
    ensures v.Show? ==> RouteFor(path).Some? && v.page == RouteFor(path).value.page
    ensures v.Redirect? ==> v.to == "/" || (v.to == "/dashboard" && hasUser)
    ensures !loading ==> v.Show? || v.Redirect?
  {
    match RouteFor(path)
    case None => Redirect("/")
    case Some(r) => Guarded(r, hasUser, loading)
  }

  /** The screen after following at most hops redirects. */
  function Follow(path: string, hasUser: bool, loading: bool, hops: nat): (v: View)
    ensures !loading && hops > 0 ==> v.Show?
    decreases hops
  {
    var v := Resolve(path, hasUser, loading);
    if v.Redirect? && hops > 0 then Follow(v.to, hasUser, loading, hops - 1) else v
  }

  /** What is on screen: the session provider renders nothing of the routes while loading. */
  function Screen(path: string, hasUser: bool, loading: bool): (v: View)
    ensures loading ==> v == Blank
  {
    if loading then Blank else Follow(path, hasUser, loading, 1)
  }

  /** '/' is unguarded, '/login' and '/signup' are public-only, and the dashboard pages are protected. */
  lemma TableGuards(path: string)
    ensures RouteFor("/").value.guard == Unguarded
    ensures RouteFor("/login").value.guard == PublicOnly && RouteFor("/signup").value.guard == PublicOnly
    ensures RouteFor(path).Some? && RouteFor(path).value.page in DashboardPages ==> RouteFor(path).value.guard == ProtectedArea
    ensures RouteFor(path).Some? && RouteFor(path).value.guard == ProtectedArea ==> RouteFor(path).value.page in DashboardPages
  {
  }

  /** After hydration every path reaches a rendered page after at most one redirect. */
  lemma EveryPathRenders(path: string, hasUser: bool)
    ensures Follow(path, hasUser, false, 1).Show?
    ensures Screen(path, hasUser, false).Show?
  {
    var v := Resolve(path, hasUser, false);
    if v.Redirect? {
      assert v.to == "/" || v.to == "/dashboard";
    }
  }

  /** The ProtectedRoute placeholder never reaches the screen: while loading the provider renders nothing. */
  lemma PlaceholderNeverShown(path: string, hasUser: bool, loading: bool)
    ensures Screen(path, hasUser, loading) != LoadingPlaceholder
  {
    if !loading {
      EveryPathRenders(path, hasUser);
    }
  }

  /** Visitors never see a protected page, and users never see login or signup. */
  lemma GuardsHold(path: string, hasUser: bool)
    ensures var v := Screen(path, hasUser, false);
      && (!hasUser ==> v.page !in DashboardPages)
      && (hasUser ==> v.page !in {Login, Signup})
  {
    EveryPathRenders(path, hasUser);
  }
}
