/** The session store: who is signed in, whether an auth action is in
    progress, and the last error message. Each action updates the record in
    the order the source does: a first update before its `await`, a second
    once the service call settled. The state at the `await` is returned as
    `pending`, since other components (the route guard) observe it. */
module AuthStore {
  import opened Wrappers
  import opened Types
  import Api
  import AuthService
  import Platform

  datatype State = State(user: Option<User>, isLoading: bool, isAuthenticated: bool, error: Option<string>)

  const INITIAL: State := State(None, false, false, None)
  const LOGIN_ERROR: string := "Erro ao fazer login"
  const REGISTER_ERROR: string := "Erro ao criar conta"

  /** The message a failed action stores: an `Error`'s own message, or the
      action's default when something else was thrown. */
  function ErrorMessage(e: Thrown, default: string): (m: string)
    ensures e.ErrorObject? ==> m == e.message
    ensures e.OtherValue? ==> m == default
  {
    match e
    case ErrorObject(msg) => msg
    case OtherValue => default
  }

  class Store {
    const browser: Platform.Browser
    var user: Option<User>
    var isLoading: bool
    var isAuthenticated: bool
    var error: Option<string>

    function Snapshot(): State
      reads this
    {
      State(user, isLoading, isAuthenticated, error)
    }

    constructor (browser: Platform.Browser)
      ensures this.browser == browser && Snapshot() == INITIAL
    {
      this.browser := browser;
      user := None;
      isLoading := false;
      isAuthenticated := false;
      error := None;
    }

    /** `login(credentials)`: on success the user is signed in; on failure
        the error message is stored, the session is not authenticated, the
        previous user is left as it was, and the error is rethrown. */
    method Login(response: Result<AuthService.AuthResponse, Thrown>) returns (pending: State, thrown: Option<Thrown>)
      modifies this, browser
      ensures pending == old(Snapshot()).(isLoading := true, error := None)
      ensures response.Success? ==>
                && Snapshot() == pending.(user := Some(AuthService.UserOf(response.value.user)),
                                         isAuthenticated := true, isLoading := false)
                && thrown == None
                && browser.localStorage == (if browser.hasWindow
                                            then Api.StoreTokens(old(browser.localStorage),
                                                   AuthService.TokensOf(response.value.accessToken, response.value.refreshToken))
                                            else old(browser.localStorage))
                && browser.navigations == old(browser.navigations)
      ensures response.Failure? ==>
                && Snapshot() == pending.(error := Some(ErrorMessage(response.error, LOGIN_ERROR)),
                                         isLoading := false, isAuthenticated := false)
                && thrown == Some(response.error)
                && unchanged(browser)
    {
      isLoading, error := true, None;
      pending := Snapshot();
      var r := AuthService.Login(browser, response);
      if r.Success? {
        user, isAuthenticated, isLoading := Some(r.value.user), true, false;
        thrown := None;
      } else {
        error, isLoading, isAuthenticated := Some(ErrorMessage(r.error, LOGIN_ERROR)), false, false;
        thrown := Some(r.error);
      }
    }

    /** `register(data)`: as `login`, with its own default message. */
    method Register(response: Result<AuthService.AuthResponse, Thrown>) returns (pending: State, thrown: Option<Thrown>)
      modifies this, browser
      ensures pending == old(Snapshot()).(isLoading := true, error := None)
      ensures response.Success? ==>
                && Snapshot() == pending.(user := Some(AuthService.UserOf(response.value.user)),
                                         isAuthenticated := true, isLoading := false)
                && thrown == None
                && browser.localStorage == (if browser.hasWindow
                                            then Api.StoreTokens(old(browser.localStorage),
                                                   AuthService.TokensOf(response.value.accessToken, response.value.refreshToken))
                                            else old(browser.localStorage))
                && browser.navigations == old(browser.navigations)
      ensures response.Failure? ==>
                && Snapshot() == pending.(error := Some(ErrorMessage(response.error, REGISTER_ERROR)),
                                         isLoading := false, isAuthenticated := false)
                && thrown == Some(response.error)
                && unchanged(browser)
    {
      isLoading, error := true, None;
      pending := Snapshot();
      var r := AuthService.Register(browser, response);
      if r.Success? {
        user, isAuthenticated, isLoading := Some(r.value.user), true, false;
        thrown := None;
      } else {
        error, isLoading, isAuthenticated := Some(ErrorMessage(r.error, REGISTER_ERROR)), false, false;
        thrown := Some(r.error);
      }
    }

    /** `logout()`: whether or not the service call rejects (`serviceError`;
        the service as written never does), the `finally` clears the tokens
        and resets the whole record; a rejection is then rethrown. */
    method Logout(serviceError: Option<Thrown>) returns (pending: State, thrown: Option<Thrown>)
      modifies this, browser
      ensures pending == old(Snapshot()).(isLoading := true)
      ensures Snapshot() == State(None, false, false, None)
      ensures browser.localStorage ==
                if browser.hasWindow then Api.RemoveTokens(old(browser.localStorage)) else old(browser.localStorage)
      ensures browser.navigations == old(browser.navigations)
      ensures thrown == serviceError
    {
      isLoading := true;
      pending := Snapshot();
      if serviceError.None? {
        AuthService.Logout(browser);
      }
      Api.ClearTokens(browser);
      user, isAuthenticated, isLoading, error := None, false, false, None;
      thrown := serviceError;
    }

    /** `loadUser()`: without a stored token the session is marked signed
        out at once and `isLoading` is not touched; otherwise the current
        user is fetched, and a failed fetch clears the tokens and signs out.
        The error message is never changed. */
    method LoadUser(response: Result<AuthService.UserPayload, Thrown>) returns (pending: Option<State>)
      modifies this, browser
      ensures !old(AuthService.IsAuthenticated(browser)) ==>
                && pending == None
                && Snapshot() == old(Snapshot()).(isAuthenticated := false, user := None)
                && unchanged(browser)
      ensures old(AuthService.IsAuthenticated(browser)) ==>
                pending == Some(old(Snapshot()).(isLoading := true))
      ensures old(AuthService.IsAuthenticated(browser)) && response.Success? ==>
                && Snapshot() == old(Snapshot()).(user := Some(AuthService.UserOf(response.value)),
                                                  isAuthenticated := true, isLoading := false)
                && unchanged(browser)
      ensures old(AuthService.IsAuthenticated(browser)) && response.Failure? ==>
                && Snapshot() == old(Snapshot()).(user := None, isAuthenticated := false, isLoading := false)
                && browser.localStorage == Api.RemoveTokens(old(browser.localStorage))
                && browser.navigations == old(browser.navigations)
    {
      var fetching := StartLoadUser();
      if !fetching {
        return None;
      }
      pending := Some(Snapshot());
      SettleLoadUser(response);
    }

    /** `loadUser()` up to its `await`: whether the user is fetched. Without
        a stored token the session is marked signed out at once; otherwise
        the store starts loading. Storage is not touched. */
    method StartLoadUser() returns (fetching: bool)
      modifies this
      ensures fetching == AuthService.IsAuthenticated(browser)
      ensures !fetching ==> Snapshot() == old(Snapshot()).(isAuthenticated := false, user := None)
      ensures fetching ==> Snapshot() == old(Snapshot()).(isLoading := true)
    {
      fetching := AuthService.IsAuthenticated(browser);
      if !fetching {
        isAuthenticated, user := false, None;
      } else {
        isLoading := true;
      }
    }

    /** `loadUser()` once the user fetch settled: the user on success; on
        failure the tokens are cleared and the session is signed out. The
        error message is never changed. */
    method SettleLoadUser(response: Result<AuthService.UserPayload, Thrown>)
      modifies this, browser
      ensures response.Success? ==>
                && Snapshot() == old(Snapshot()).(user := Some(AuthService.UserOf(response.value)),
                                                  isAuthenticated := true, isLoading := false)
                && unchanged(browser)
      ensures response.Failure? ==>
                && Snapshot() == old(Snapshot()).(user := None, isAuthenticated := false, isLoading := false)
                && browser.localStorage == (if browser.hasWindow then Api.RemoveTokens(old(browser.localStorage))
                                            else old(browser.localStorage))
                && browser.navigations == old(browser.navigations)
    {
      var r := AuthService.GetCurrentUser(response);
      if r.Success? {
        user, isAuthenticated, isLoading := Some(r.value), true, false;
      } else {
        Api.ClearTokens(browser);
        user, isAuthenticated, isLoading := None, false, false;
      }
    }

    /** `clearError()`: only the error changes, to none. */
    method ClearError()
      modifies this
      ensures Snapshot() == old(Snapshot()).(error := None)
    {
      error := None;
    }
  }

  /** A failed login on a fresh store: the record shows the loading state
      while the call is outstanding and ends signed out, not loading, with the
      error's message; a second failure with a non-Error value falls back to
      the default message. */
  method FailedLoginsReportMessages(message: string)
    returns (pending: State, afterError: State, afterOther: State)
    ensures pending == State(None, true, false, None)
    ensures afterError == State(None, false, false, Some(message))
    ensures afterOther == State(None, false, false, Some(LOGIN_ERROR))
  {
    var b := new Platform.Browser(true, map[]);
    var store := new Store(b);
    var rethrown;
    pending, rethrown := store.Login(Failure(ErrorObject(message)));
    afterError := store.Snapshot();
    var _, _ := store.Login(Failure(OtherValue));
    afterOther := store.Snapshot();
  }
}
