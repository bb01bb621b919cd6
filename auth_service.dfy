/** The authentication service: turns the backend's login, register and
    refresh responses into a token pair (always typed 'Bearer', expiring in
    900 seconds) that it persists, and answers whether an access token is
    stored. Each HTTP response is an input: a fulfilled body or the value the
    request was rejected with. */
module AuthService {
  import opened Wrappers
  import opened Types
  import Api
  import Platform

  datatype UserPayload = UserPayload(id: string, email: string, name: string)
  datatype AuthResponse = AuthResponse(accessToken: string, refreshToken: string, user: UserPayload)
  datatype TokenResponse = TokenResponse(accessToken: string, refreshToken: string)
  datatype Session = Session(user: User, tokens: AuthTokens)

  function TokensOf(accessToken: string, refreshToken: string): AuthTokens
  {
    AuthTokens(accessToken, refreshToken, Api.TOKEN_TYPE, Api.EXPIRES_IN)
  }

  function UserOf(p: UserPayload): User
  {
    User(p.id, p.email, p.name)
  }

  /** `register(data)` after the POST settled. */
  method Register(b: Platform.Browser, response: Result<AuthResponse, Thrown>) returns (r: Result<Session, Thrown>)
    modifies b
    ensures response.Failure? ==> r == Failure(response.error) && unchanged(b)
    ensures response.Success? ==>
              && r.Success?
              && r.value.tokens == AuthTokens(response.value.accessToken, response.value.refreshToken, "Bearer", 900)
              && r.value.user.id == response.value.user.id
              && r.value.user.name == response.value.user.name
              && r.value.user.email == response.value.user.email
              && b.localStorage == (if b.hasWindow then Api.StoreTokens(old(b.localStorage), r.value.tokens)
                                    else old(b.localStorage))
              && b.navigations == old(b.navigations)
  {
    if response.Failure? {
      return Failure(response.error);
    }
    var tokens := TokensOf(response.value.accessToken, response.value.refreshToken);
    Api.SetTokens(b, tokens);
    r := Success(Session(UserOf(response.value.user), tokens));
  }

  /** `login(credentials)` after the POST settled. */
  method Login(b: Platform.Browser, response: Result<AuthResponse, Thrown>) returns (r: Result<Session, Thrown>)
    modifies b
    ensures response.Failure? ==> r == Failure(response.error) && unchanged(b)
    ensures response.Success? ==>
              && r.Success?
              && r.value.tokens == AuthTokens(response.value.accessToken, response.value.refreshToken, "Bearer", 900)
              && r.value.user.id == response.value.user.id
              && r.value.user.name == response.value.user.name
              && r.value.user.email == response.value.user.email
              && b.localStorage == (if b.hasWindow then Api.StoreTokens(old(b.localStorage), r.value.tokens)
                                    else old(b.localStorage))
              && b.navigations == old(b.navigations)
  {
    if response.Failure? {
      return Failure(response.error);
    }
    var tokens := TokensOf(response.value.accessToken, response.value.refreshToken);
    Api.SetTokens(b, tokens);
    r := Success(Session(UserOf(response.value.user), tokens));
  }

  /** `refreshToken(refreshToken)` after the POST settled: the new pair is
      persisted and returned. */
  method RefreshToken(b: Platform.Browser, response: Result<TokenResponse, Thrown>) returns (r: Result<AuthTokens, Thrown>)
    modifies b
    ensures response.Failure? ==> r == Failure(response.error) && unchanged(b)
    ensures response.Success? ==>
              && r == Success(AuthTokens(response.value.accessToken, response.value.refreshToken, "Bearer", 900))
              && b.localStorage == (if b.hasWindow then Api.StoreTokens(old(b.localStorage), r.value)
                                    else old(b.localStorage))
              && b.navigations == old(b.navigations)
  {
    if response.Failure? {
      return Failure(response.error);
    }
    var tokens := TokensOf(response.value.accessToken, response.value.refreshToken);
    Api.SetTokens(b, tokens);
    r := Success(tokens);
  }

  /** `logout()`: clears both tokens. */
  method Logout(b: Platform.Browser)
    modifies b
    ensures b.localStorage == if b.hasWindow then Api.RemoveTokens(old(b.localStorage)) else old(b.localStorage)
    ensures b.navigations == old(b.navigations)
  {
    Api.ClearTokens(b);
  }

  /** `getCurrentUser()` after the GET settled. */
  function GetCurrentUser(response: Result<UserPayload, Thrown>): (r: Result<User, Thrown>)
    ensures response.Failure? ==> r == Failure(response.error)
    ensures response.Success? ==>
              r.Success? && r.value.id == response.value.id &&
              r.value.name == response.value.name && r.value.email == response.value.email
  {
    match response
    case Success(p) => Success(UserOf(p))
    case Failure(e) => Failure(e)
  }

  /** `isAuthenticated()`: a window exists and the stored access token is a
      non-empty string. */
  function IsAuthenticated(b: Platform.Browser): (r: bool)
    reads b
    ensures r <==> b.hasWindow && Api.ACCESS_KEY in b.localStorage && b.localStorage[Api.ACCESS_KEY] != []
  {
    b.hasWindow && b.GetItem(Api.ACCESS_KEY).Some? && b.GetItem(Api.ACCESS_KEY).value != []
  }

  /** A successful login makes the session count as authenticated exactly
      when the browser has a window and the backend sent a non-empty access
      token; logging out always ends it. */
  method LoginThenLogout(hasWindow: bool, storage: map<string, string>, response: AuthResponse)
    returns (afterLogin: bool, afterLogout: bool)
    ensures afterLogin == (hasWindow && response.accessToken != [])
    ensures !afterLogout
  {
    var b := new Platform.Browser(hasWindow, storage);
    var _ := Login(b, Success(response));
    afterLogin := IsAuthenticated(b);
    Logout(b);
    afterLogout := IsAuthenticated(b);
  }
}
