/** The application's route table and its private-route guard (src/App.jsx).
    A path and a token determine what is shown: a page, or a redirect. */
module Routing {
  import opened Options
  import opened Auth

  const LOGIN_PATH := "/login"
  const USERS_PATH := "/users"

  /** The elements the route table mounts. */
  datatype Element =
    | LoginPage
    | UsersListPage
    | PrivateRoute(child: Element)
    | Navigate(target: string)

  datatype Pattern = Exact(path: string) | Splat

  datatype RouteEntry = RouteEntry(pattern: Pattern, element: Element)

  datatype Screen = LoginScreen | UsersListScreen

  /** The outcome of routing: a page on screen, a redirect, or nothing matched. */
  datatype View = Page(screen: Screen) | Redirect(target: string) | NoMatch

  /** The three routes of `App`, in declaration order. */
  const APP_ROUTES: seq<RouteEntry> := [
    RouteEntry(Exact(LOGIN_PATH), LoginPage),
    RouteEntry(Exact(USERS_PATH), PrivateRoute(UsersListPage)),
    RouteEntry(Splat, Navigate(LOGIN_PATH))
  ]

  /** Index of the first route whose pattern is exactly `path`. */
  function FindExact(routes: seq<RouteEntry>, path: string): (r: Option<nat>)
    ensures r.Some? ==> r.value < |routes| && routes[r.value].pattern == Exact(path)
    ensures r.Some? ==> forall j :: 0 <= j < r.value ==> routes[j].pattern != Exact(path)
    ensures r.None? ==> forall j :: 0 <= j < |routes| ==> routes[j].pattern != Exact(path)
  {
    if routes == [] then None
    else if routes[0].pattern == Exact(path) then Some(0)
    else match FindExact(routes[1..], path)
      case None => None
      case Some(k) => Some(k + 1)
  }

  /** Index of the first catch-all route. */
  function FindSplat(routes: seq<RouteEntry>): (r: Option<nat>)
    ensures r.Some? ==> r.value < |routes| && routes[r.value].pattern == Splat
    ensures r.Some? ==> forall j :: 0 <= j < r.value ==> routes[j].pattern != Splat
    ensures r.None? ==> forall j :: 0 <= j < |routes| ==> routes[j].pattern != Splat
  {
    if routes == [] then None
    else if routes[0].pattern == Splat then Some(0)
    else match FindSplat(routes[1..])
      case None => None
      case Some(k) => Some(k + 1)
  }

  /** The element mounted for `path`: a route whose path equals it ranks
      above the catch-all. */
  function Select(routes: seq<RouteEntry>, path: string): (r: Option<Element>)
    ensures r.None? <==> FindExact(routes, path).None? && FindSplat(routes).None?
    ensures FindExact(routes, path).Some? ==> r == Some(routes[FindExact(routes, path).value].element)
    ensures FindExact(routes, path).None? && FindSplat(routes).Some? ==>
              r == Some(routes[FindSplat(routes).value].element)
  {
    match FindExact(routes, path)
    case Some(i) => Some(routes[i].element)
    case None =>
      match FindSplat(routes)
      case Some(i) => Some(routes[i].element)
      case None => None
  }

  /** What an element shows for a token; `PrivateRoute` shows its child only
      when the token is truthy and otherwise redirects to the login path. */
  function Render(e: Element, token: Token): (v: View)
    ensures v != NoMatch
  {
    match e
    case LoginPage => Page(LoginScreen)
    case UsersListPage => Page(UsersListScreen)
    case PrivateRoute(child) => if IsPresent(token) then Render(child, token) else Redirect(LOGIN_PATH)
    case Navigate(target) => Redirect(target)
  }

  /** `PrivateRoute` around any child: the child when the token is truthy,
      a redirect to the login path otherwise. */
  lemma PrivateRouteGuards(child: Element, token: Token)
    ensures IsPresent(token) ==> Render(PrivateRoute(child), token) == Render(child, token)
    ensures !IsPresent(token) ==> Render(PrivateRoute(child), token) == Redirect(LOGIN_PATH)
  {
  }

  /** What the application shows at `path` for `token`. */
  function AppView(path: string, token: Token): (v: View)
    ensures v != NoMatch
    ensures v == Page(UsersListScreen) ==> IsPresent(token)
  {
    AppRoutesSelect(path);
    match Select(APP_ROUTES, path)
    case Some(e) => Render(e, token)
    case None => NoMatch
  }

  /** Rendering reads the token only through its truthiness. */
  lemma {:induction false} RenderDependsOnlyOnPresence(e: Element, t1: Token, t2: Token)
    requires IsPresent(t1) == IsPresent(t2)
    ensures Render(e, t1) == Render(e, t2)
  {
    match e
    case PrivateRoute(child) =>
      if IsPresent(t1) {
        RenderDependsOnlyOnPresence(child, t1, t2);
      }
    case _ =>
  }

  /** The table as a function of the path: which element each path mounts. */
  lemma AppRoutesSelect(path: string)
    ensures path == LOGIN_PATH ==> Select(APP_ROUTES, path) == Some(LoginPage)
    ensures path == USERS_PATH ==> Select(APP_ROUTES, path) == Some(PrivateRoute(UsersListPage))
    ensures path != LOGIN_PATH && path != USERS_PATH ==>
              Select(APP_ROUTES, path) == Some(Navigate(LOGIN_PATH))
  {
    assert LOGIN_PATH[1] != USERS_PATH[1];
    var r := APP_ROUTES;
    assert r[1..] == [r[1], r[2]] && r[1..][1..] == [r[2]] && r[1..][1..][1..] == [];
  }

  /** The four routing outcomes of the application. */
  lemma AppViewCases(path: string, token: Token)
    ensures path == USERS_PATH && IsPresent(token) ==> AppView(path, token) == Page(UsersListScreen)
    ensures path == USERS_PATH && !IsPresent(token) ==> AppView(path, token) == Redirect(LOGIN_PATH)
    ensures path == LOGIN_PATH ==> AppView(path, token) == Page(LoginScreen)
    ensures path != LOGIN_PATH && path != USERS_PATH ==> AppView(path, token) == Redirect(LOGIN_PATH)
  {
    AppRoutesSelect(path);
    if path == USERS_PATH {
      assert AppView(path, token) == Render(PrivateRoute(UsersListPage), token);
      assert Render(UsersListPage, token) == Page(UsersListScreen);
    }
  }

  /** The user list is on screen exactly for `/users` with a truthy token. */
  lemma UsersListIsGuarded(path: string, token: Token)
    ensures AppView(path, token) == Page(UsersListScreen) <==> path == USERS_PATH && IsPresent(token)
  {
    AppViewCases(path, token);
    assert LOGIN_PATH != USERS_PATH by { assert LOGIN_PATH[1] != USERS_PATH[1]; }
  }

  /** Every path matches some route, and the outcome depends only on the path
      and on whether the token is truthy. */
  lemma AppViewDependsOnlyOnPresence(path: string, t1: Token, t2: Token)
    requires IsPresent(t1) == IsPresent(t2)
    ensures AppView(path, t1) == AppView(path, t2)
    ensures AppView(path, t1) != NoMatch
  {
    AppRoutesSelect(path);
    RenderDependsOnlyOnPresence(Select(APP_ROUTES, path).value, t1, t2);
  }
}
