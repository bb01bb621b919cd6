/** The route guard that wraps every page. Its redirect effect sends
    signed-out visitors of protected routes to '/login' and signed-in
    visitors of the login and register pages to '/dashboard' whenever the
    store is not loading. The store starts signed out and not loading, so
    the first render shows the page and its effect run already redirects;
    only once `loadUser` has started does a spinner replace the page until
    the user fetch settles. */
module AuthProvider {
  import opened Wrappers
  import Types
  import Api
  import Http
  import AuthService
  import AuthStore
  import Platform

  const PUBLIC_ROUTES: seq<string> := ["/login", "/register", "/", "/test-auth"]
  const LOGIN_ROUTE: string := "/login"
  const DASHBOARD_ROUTE: string := "/dashboard"

  predicate IsPublicRoute(pathname: string)
  {
    pathname in PUBLIC_ROUTES
  }

  /** The `router.push` calls one run of the redirect effect makes, in order.
      At most one happens. */
  function Redirects(isLoading: bool, isAuthenticated: bool, pathname: string): (pushes: seq<string>)
    ensures |pushes| <= 1
    ensures pushes == [LOGIN_ROUTE] <==>
              !isLoading && !isAuthenticated && pathname !in ["/login", "/register", "/", "/test-auth"]
    ensures pushes == [DASHBOARD_ROUTE] <==>
              !isLoading && isAuthenticated && (pathname == "/login" || pathname == "/register")
    ensures pushes == [] <==>
              isLoading || (isAuthenticated && pathname != "/login" && pathname != "/register") ||
              (!isAuthenticated && pathname in ["/login", "/register", "/", "/test-auth"])
  {
    // The effect's two checks exclude each other: at most one fires.
    if isLoading then []
    else if !isAuthenticated && !IsPublicRoute(pathname) then [LOGIN_ROUTE]
    else if isAuthenticated && (pathname == LOGIN_ROUTE || pathname == "/register") then
      assert DASHBOARD_ROUTE[1] != LOGIN_ROUTE[1];
      [DASHBOARD_ROUTE]
    else []
  }

  /** For a session that stays the same, landing on the route a redirect
      leads to triggers no further redirect. (At mount the session changes
      under the guard, and a visitor can be sent on twice: see
      `SuccessfulUserFetchOnMount`.) */
  lemma RedirectTargetIsStable(isAuthenticated: bool, pathname: string)
    ensures forall target :: target in Redirects(false, isAuthenticated, pathname) ==>
              Redirects(false, isAuthenticated, target) == []
  {
  }

  /** The spinner replaces the page only while loading a session that is not
      yet authenticated. */
  predicate ShowsSpinner(isLoading: bool, isAuthenticated: bool)
  {
    isLoading && !isAuthenticated
  }

  /** While the spinner is up nothing redirects. The first render, before
      `loadUser` starts, is not behind the spinner and does redirect (see the
      mount scenarios below). */
  lemma NoRedirectBehindSpinner(isLoading: bool, isAuthenticated: bool, pathname: string)
    requires ShowsSpinner(isLoading, isAuthenticated)
    ensures Redirects(isLoading, isAuthenticated, pathname) == []
  {
  }

  /** The path `authService.getCurrentUser()` fetches. */
  const USER_PATH: string := "/api/v1/users/me"

  /** The effect runs of one mount, in order, as seen from a guard whose
      visitor asked for `pathname` and is on `current` when the user fetch
      settles. React runs the `loadUser` effect first, so the store is
      loading by the second render, but the redirect effect of the first
      render still sees the initial record: signed out and not loading. */
  function MountPushes(pathname: string, current: string, settled: AuthStore.State): (pushes: seq<string>)
    ensures pushes == Redirects(false, false, pathname) + Redirects(settled.isLoading, settled.isAuthenticated, current)
  {
    Redirects(AuthStore.INITIAL.isLoading, AuthStore.INITIAL.isAuthenticated, pathname)
      + Redirects(true, false, current)
      + Redirects(settled.isLoading, settled.isAuthenticated, current)
  }

  /** What a visitor of `pathname` goes through when the guard mounts with a
      stored access token and no refresh token, and fetching the user fails
      with a status other than 401 (or with no response at all). The first
      render shows the page, and on a protected route its effect pushes
      '/login' at once. `loadUser` then shows the spinner. The response
      interceptor passes the error through untouched, and the failed fetch
      signs the session out. The guard pushes '/login' again if the visitor
      is still on a protected route (`current`) when the fetch settles. */
  method FailedUserFetchOnMount(pathname: string, current: string, token: string, status: Option<int>,
                                reason: Types.Thrown)
    returns (pageFirst: bool, spinnerWhileLoading: bool, intercepted: Http.Outcome, pushes: seq<string>,
             hardRedirects: seq<string>, tokenLeft: bool)
    requires token != [] && status != Some(401)
    ensures pageFirst && spinnerWhileLoading
    ensures intercepted.Rejected? && intercepted.reason.status == status
    ensures pushes == (if IsPublicRoute(pathname) then [] else [LOGIN_ROUTE])
                      + (if IsPublicRoute(current) then [] else [LOGIN_ROUTE])
    ensures !IsPublicRoute(pathname) && current == LOGIN_ROUTE ==> pushes == [LOGIN_ROUTE]
    ensures hardRedirects == []
    ensures !tokenLeft
  {
    var b := new Platform.Browser(true, map[Api.ACCESS_KEY := token]);
    var store := new AuthStore.Store(b);
    var client := new Api.RefreshCoordinator(b);
    pageFirst := !ShowsSpinner(store.isLoading, store.isAuthenticated);
    var fetching := store.StartLoadUser();
    spinnerWhileLoading := ShowsSpinner(store.isLoading, store.isAuthenticated);
    var request := Api.AuthorizeRequest(b, Http.Request(USER_PATH, map[], false));
    intercepted := client.OnResponseError(Http.AxiosError(status, request));
    store.SettleLoadUser(Failure(reason));
    pushes := MountPushes(pathname, current, store.Snapshot());
    hardRedirects := b.navigations;
    tokenLeft := AuthService.IsAuthenticated(b);
  }

  /** The same mount when the backend answers the user fetch with 401. The
      first render pushes '/login' on a protected route as before. With no
      refresh token stored, the response interceptor then clears the tokens
      and sends the browser to '/login' on every route, public ones
      included, before the store sees the rejection. The store signs the
      session out, and the guard pushes '/login' once more if the visitor is
      still on a protected route. */
  method UnauthorizedUserFetchOnMount(pathname: string, current: string, token: string, reason: Types.Thrown)
    returns (pageFirst: bool, spinnerWhileLoading: bool, intercepted: Http.Outcome, pushes: seq<string>,
             hardRedirects: seq<string>, tokenLeft: bool)
    requires token != []
    ensures pageFirst && spinnerWhileLoading
    ensures intercepted.Rejected? && intercepted.reason.status == Some(401) && intercepted.reason.config.retry
    ensures hardRedirects == [Api.LOGIN_PATH]
    ensures pushes == (if IsPublicRoute(pathname) then [] else [LOGIN_ROUTE])
                      + (if IsPublicRoute(current) then [] else [LOGIN_ROUTE])
    ensures !tokenLeft
  {
    var b := new Platform.Browser(true, map[Api.ACCESS_KEY := token]);
    var store := new AuthStore.Store(b);
    var client := new Api.RefreshCoordinator(b);
    pageFirst := !ShowsSpinner(store.isLoading, store.isAuthenticated);
    var fetching := store.StartLoadUser();
    spinnerWhileLoading := ShowsSpinner(store.isLoading, store.isAuthenticated);
    var request := Api.AuthorizeRequest(b, Http.Request(USER_PATH, map[], false));
    intercepted := client.OnResponseError(Http.AxiosError(Some(401), request));
    store.SettleLoadUser(Failure(reason));
    pushes := MountPushes(pathname, current, store.Snapshot());
    hardRedirects := b.navigations;
    tokenLeft := AuthService.IsAuthenticated(b);
  }

  /** The same mount when the user fetch succeeds. The first render still
      pushes '/login' on a protected route, because the store has not
      started loading yet. If the visitor has reached '/login' by the time
      the fetch settles, the now signed-in guard pushes '/dashboard': the
      visitor ends on the dashboard, not on the page they asked for. */
  method SuccessfulUserFetchOnMount(pathname: string, current: string, token: string, payload: AuthService.UserPayload)
    returns (pageFirst: bool, spinnerWhileLoading: bool, pushes: seq<string>, hardRedirects: seq<string>,
             signedIn: bool, tokenLeft: bool)
    requires token != []
    ensures pageFirst && spinnerWhileLoading
    ensures pushes == (if IsPublicRoute(pathname) then [] else [LOGIN_ROUTE])
                      + (if current == LOGIN_ROUTE || current == "/register" then [DASHBOARD_ROUTE] else [])
    ensures !IsPublicRoute(pathname) && current == LOGIN_ROUTE ==> pushes == [LOGIN_ROUTE, DASHBOARD_ROUTE]
    ensures hardRedirects == []
    ensures signedIn && tokenLeft
  {
    var b := new Platform.Browser(true, map[Api.ACCESS_KEY := token]);
    var store := new AuthStore.Store(b);
    pageFirst := !ShowsSpinner(store.isLoading, store.isAuthenticated);
    var fetching := store.StartLoadUser();
    spinnerWhileLoading := ShowsSpinner(store.isLoading, store.isAuthenticated);
    store.SettleLoadUser(Success(payload));
    pushes := MountPushes(pathname, current, store.Snapshot());
    hardRedirects := b.navigations;
    signedIn := store.isAuthenticated && store.user == Some(AuthService.UserOf(payload));
    tokenLeft := AuthService.IsAuthenticated(b);
  }
}
